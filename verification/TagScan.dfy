/**
 Incremental scanning for tagged blocks.

 A tag may be cut in two by a chunk boundary, so a suffix that could still grow into a tag is held back.
 The two lemmas the filters rest on say that the held suffix is all that has to be remembered:
 scanning (held suffix + new text) finds exactly what scanning (everything seen + new text) would.
 */
module TagScan {

  predicate OccursAt(text: string, tag: string, at: int) {
    0 <= at && at + |tag| <= |text| && text[at..at + |tag|] == tag
  }

  /** Python's `str.find`: the least index at which the tag occurs, or -1. */
  function Find(text: string, tag: string): (at: int)
    ensures at == -1 || (0 <= at <= |text| - |tag| && OccursAt(text, tag, at))
    ensures forall j :: OccursAt(text, tag, j) ==> 0 <= at <= j
  {
    FindFrom(text, tag, 0)
  }

  function FindFrom(text: string, tag: string, start: nat): (at: int)
    requires start <= |text|
    ensures at == -1 || (start <= at && OccursAt(text, tag, at))
    ensures forall j :: start <= j && OccursAt(text, tag, j) ==> 0 <= at <= j
    decreases |text| - start
  {
    if OccursAt(text, tag, start) then start
    else if start == |text| then -1
    else FindFrom(text, tag, start + 1)
  }

  function MaxLength(tags: seq<string>): (max: nat)
    ensures forall t | t in tags :: |t| <= max
  {
    if tags == [] then 0
    else
      var rest := MaxLength(tags[1..]);
      if |tags[0]| > rest then |tags[0]| else rest
  }

  /** The longest suffix worth looking at: one short of the longest tag. */
  function Limit(text: string, tags: seq<string>): (limit: int)
    ensures limit <= |text|
  {
    var longest := MaxLength(tags) - 1;
    if longest < |text| then longest else |text|
  }

  predicate IsTagPrefix(piece: string, tags: seq<string>) {
    exists t | t in tags :: piece <= t
  }

  function Last(text: string, size: nat): (suffix: string)
    requires size <= |text|
  {
    text[|text| - size..]
  }

  /** The last `size` characters could still become a tag. */
  predicate Holdable(text: string, tags: seq<string>, size: int) {
    0 < size <= Limit(text, tags) && IsTagPrefix(Last(text, size), tags)
  }

  ghost predicate IsLongestHoldable(text: string, tags: seq<string>, size: nat) {
    && size <= |text|
    && (size > 0 ==> Holdable(text, tags, size))
    && (forall larger :: Holdable(text, tags, larger) ==> larger <= size)
  }

  function Held(text: string, tags: seq<string>): (size: nat)
    ensures size <= |text|
  {
    HeldFrom(text, tags, if Limit(text, tags) < 0 then 0 else Limit(text, tags))
  }

  function HeldFrom(text: string, tags: seq<string>, size: nat): (h: nat)
    requires size <= |text|
    ensures h <= size
  {
    if size == 0 then 0
    else if Holdable(text, tags, size) then size
    else HeldFrom(text, tags, size - 1)
  }

  lemma {:induction false} HeldFromIs(text: string, tags: seq<string>, size: nat)
    requires size <= |text|
    ensures var h := HeldFrom(text, tags, size);
            && (h > 0 ==> Holdable(text, tags, h))
            && forall larger :: larger <= size && Holdable(text, tags, larger) ==> larger <= h
  {
    if size > 0 && !Holdable(text, tags, size) {
      HeldFromIs(text, tags, size - 1);
    }
  }

  lemma HeldIsLongest(text: string, tags: seq<string>)
    ensures IsLongestHoldable(text, tags, Held(text, tags))
  {
    HeldFromIs(text, tags, if Limit(text, tags) < 0 then 0 else Limit(text, tags));
  }

  function Released(text: string, tags: seq<string>): (size: nat)
    ensures size <= |text|
  {
    |text| - Held(text, tags)
  }

  function HeldPart(text: string, tags: seq<string>): (kept: string)
    ensures kept == text[Released(text, tags)..]
  {
    Last(text, Held(text, tags))
  }

  /** `held_suffix`: one descending pass with an early return. */
  method HeldSuffix(text: string, tags: seq<string>) returns (held: nat)
    ensures IsLongestHoldable(text, tags, held)
    ensures held == Held(text, tags)
  {
    HeldIsLongest(text, tags);
    if tags == [] {
      return 0;
    }
    var limit := Limit(text, tags);
    var size := limit;
    while size > 0
      invariant size <= limit
      invariant forall larger :: Holdable(text, tags, larger) ==> larger <= size
    {
      if IsTagPrefix(Last(text, size), tags) {
        assert Holdable(text, tags, size);
        return size;
      }
      size := size - 1;
    }
    return 0;
  }

  lemma TagPrefixClosed(piece: string, shorter: string, tags: seq<string>)
    requires IsTagPrefix(piece, tags) && shorter <= piece
    ensures IsTagPrefix(shorter, tags)
  {
    var t :| t in tags && piece <= t;
    assert shorter <= t;
  }

  /** A longer text can hold back at most what it gained on top of what was held before. */
  lemma HeldGrowsSlowly(seen: string, more: string, tags: seq<string>)
    ensures Held(seen + more, tags) <= Held(seen, tags) + |more|
  {
    HeldIsLongest(seen, tags);
    HeldIsLongest(seen + more, tags);
    hide Held;
    var h := Held(seen + more, tags);
    if h > |more| {
      var size := h - |more|;
      assert Last(seen + more, h)[..size] == Last(seen, size);
      TagPrefixClosed(Last(seen + more, h), Last(seen, size), tags);
      assert Holdable(seen, tags, size);
    }
  }

  /** What is held back is shorter than the longest tag. */
  lemma {:induction false} HeldIsShort(text: string, tags: seq<string>)
    ensures tags != [] && MaxLength(tags) > 0 ==> Held(text, tags) < MaxLength(tags)
  {
    HeldIsLongest(text, tags);
    hide Held;
  }

  /** What was held is all that matters for what will be held. */
  lemma HeldOfRetained(seen: string, more: string, tags: seq<string>)
    ensures Held(HeldPart(seen, tags) + more, tags) == Held(seen + more, tags)
    ensures Released(HeldPart(seen, tags) + more, tags) + Released(seen, tags) == Released(seen + more, tags)
    ensures HeldPart(HeldPart(seen, tags) + more, tags) == HeldPart(seen + more, tags)
  {
    var kept := HeldPart(seen, tags);
    var whole, part := seen + more, kept + more;
    HeldGrowsSlowly(seen, more, tags);
    HeldIsLongest(whole, tags);
    HeldIsLongest(part, tags);
    hide Held;
    forall size: nat | size <= |part|
      ensures Last(whole, size) == Last(part, size)
    {
      assert whole == seen[..|seen| - |kept|] + part;
    }
    var h := Held(whole, tags);
    if h > 0 {
      assert Holdable(whole, tags, h);
      assert Last(whole, h) == Last(part, h);
      assert Holdable(part, tags, h);
    }
    var k := Held(part, tags);
    if k > 0 {
      assert Holdable(part, tags, k);
      assert Last(whole, k) == Last(part, k);
      assert Holdable(whole, tags, k);
    }
  }

  /** Shifting a text to the right shifts every occurrence in it. */
  lemma OccursShifted(before: string, part: string, tag: string, j: int)
    requires j >= |before|
    ensures OccursAt(before + part, tag, j) <==> OccursAt(part, tag, j - |before|)
  {
    if j + |tag| <= |before| + |part| {
      assert (before + part)[j..j + |tag|] == part[j - |before|..j - |before| + |tag|];
    }
  }

  /** An occurrence that begins in the text seen so far begins in its held suffix. */
  lemma StraddlingIsHeld(seen: string, more: string, tag: string, tags: seq<string>, j: int)
    requires tag in tags && tag != "" && Find(seen, tag) < 0
    requires OccursAt(seen + more, tag, j)
    ensures j >= Released(seen, tags)
  {
    if j + |tag| <= |seen| {
      assert (seen + more)[j..j + |tag|] == seen[j..j + |tag|];
      assert OccursAt(seen, tag, j);
    } else if j < |seen| {
      var size := |seen| - j;
      assert Last(seen, size) == (seen + more)[j..j + |tag|][..size];
      assert Last(seen, size) <= tag;
      assert Holdable(seen, tags, size);
      HeldIsLongest(seen, tags);
    }
  }

  /** A tag that is not in the text seen so far cannot begin before the held suffix. */
  lemma FindAcross(seen: string, more: string, tag: string, tags: seq<string>)
    requires tag in tags && tag != "" && Find(seen, tag) < 0
    ensures var dropped := Released(seen, tags);
            var at := Find(HeldPart(seen, tags) + more, tag);
            Find(seen + more, tag) == if at < 0 then -1 else at + dropped
  {
    var dropped := Released(seen, tags);
    var part := HeldPart(seen, tags) + more;
    var before := seen[..dropped];
    assert seen + more == before + part;
    var f, g := Find(before + part, tag), Find(part, tag);
    if g >= 0 {
      OccursShifted(before, part, tag, g + dropped);
    }
    if f >= 0 {
      StraddlingIsHeld(seen, more, tag, tags, f);
      OccursShifted(before, part, tag, f);
    }
  }

  lemma OccursInLonger(text: string, more: string, tag: string, j: int)
    ensures OccursAt(text, tag, j) ==> OccursAt(text + more, tag, j)
  {
    if OccursAt(text, tag, j) {
      assert (text + more)[j..j + |tag|] == text[j..j + |tag|];
    }
  }

  /** Once found, a tag stays where it was found. */
  lemma FindStable(text: string, more: string, tag: string)
    requires Find(text, tag) >= 0
    ensures Find(text + more, tag) == Find(text, tag)
  {
    var at := Find(text, tag);
    assert (text + more)[at..at + |tag|] == text[at..at + |tag|];
    assert OccursAt(text + more, tag, at);
    var other := Find(text + more, tag);
    assert (text + more)[other..other + |tag|] == text[other..other + |tag|];
    assert OccursAt(text, tag, other);
  }
}
