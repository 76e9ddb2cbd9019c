/**
 Where sentences end, spelled out on the characters.

 `UnitIs` and `BoundaryIs` say which end of a unit the gate's scans find, without any scanning. From it follows
 what a listener relies on: a full stop in front of white space ends a sentence (`FullStopEnds`), so does any
 other terminator, and a decimal number is never cut in two (`NumberIsWhole`).
 */
module Units {
  import opened SentenceGates
  import opened Wrappers

  /** A character that ends a sentence wherever it stands. */
  predicate Strong(c: char) {
    c in "\U{3002}\U{FF01}\U{FF1F}!?\U{2026}"
  }

  predicate Closing(c: char) {
    c in "\"'\U{201D}\U{2019}\U{300D}\U{300F}\U{3011}\U{FF09})]\U{FF5D}}"
  }

  /** A full stop ends a sentence unless digits stand on both sides of it. */
  predicate EndsSentence(ct: CharTable, text: string, i: nat)
    requires i < |text|
  {
    Strong(text[i])
    || (text[i] == '.'
        && (i == 0 || i == |text| - 1 || !ct.isDigit(text[i - 1]) || !ct.isDigit(text[i + 1])))
  }

  predicate Mark(c: char) {
    Strong(c) || c == '.'
  }

  /** The first sentence ends at `end`: its first ending character, all the marks behind it, all the closers. */
  ghost predicate FirstEnds(ct: CharTable, text: string, at: nat, marks: nat, end: nat) {
    && at < marks <= end <= |text|
    && (forall i: nat | i < at :: !EndsSentence(ct, text, i))
    && EndsSentence(ct, text, at)
    && (forall i | at < i < marks :: Mark(text[i])) && (marks < |text| ==> !Mark(text[marks]))
    && (forall i | marks <= i < end :: Closing(text[i])) && (end < |text| ==> !Closing(text[end]))
  }

  lemma ClassIs(c: char)
    ensures (c in TERMINATORS <==> Strong(c)) && (IsCloser(c) <==> Closing(c)) && (InRun(c) <==> Mark(c))
  {
  }

  lemma TerminalIs(ct: CharTable, text: string, i: nat)
    requires i < |text|
    ensures IsTerminal(ct, text, i) <==> EndsSentence(ct, text, i)
  {
    ClassIs(text[i]);
    hide Strong;
  }

  lemma ClassesAre(text: string)
    ensures forall i: nat | i < |text| ::
              (InRun(text[i]) <==> Mark(text[i])) && (IsCloser(text[i]) <==> Closing(text[i]))
  {
    hide InRun, Mark, IsCloser, Closing;
    forall i: nat | i < |text|
      ensures (InRun(text[i]) <==> Mark(text[i])) && (IsCloser(text[i]) <==> Closing(text[i]))
    {
      ClassIs(text[i]);
    }
  }

  lemma {:induction false} NoEnd(ct: CharTable, text: string)
    requires FirstTerminal(ct, text, 0) == |text|
    ensures forall i: nat | i < |text| :: !EndsSentence(ct, text, i)
  {
    forall i: nat | i < |text|
      ensures !EndsSentence(ct, text, i)
    {
      assert !IsTerminal(ct, text, i);
      TerminalIs(ct, text, i);
    }
  }

  lemma {:induction false} EndFound(ct: CharTable, text: string)
    requires FirstTerminal(ct, text, 0) < |text|
    ensures var at := FirstTerminal(ct, text, 0);
            FirstEnds(ct, text, at, Skip(text, at + 1, InRun), UnitEnd(text, at))
  {
    hide InRun, Mark, IsCloser, Closing, EndsSentence, IsTerminal;
    var at := FirstTerminal(ct, text, 0);
    ClassesAre(text);
    TerminalIs(ct, text, at);
    forall i: nat | i < at
      ensures !EndsSentence(ct, text, i)
    {
      assert !IsTerminal(ct, text, i);
      TerminalIs(ct, text, i);
    }
  }

  lemma {:induction false} OnlyEnd(ct: CharTable, text: string, at: nat, marks: nat, end: nat)
    requires FirstEnds(ct, text, at, marks, end)
    ensures FirstTerminal(ct, text, 0) == at && Skip(text, at + 1, InRun) == marks && UnitEnd(text, at) == end
  {
    hide InRun, Mark, IsCloser, Closing, EndsSentence, IsTerminal;
    ClassesAre(text);
    forall i: nat | i <= at
      ensures IsTerminal(ct, text, i) <==> i == at
    {
      TerminalIs(ct, text, i);
    }
    FirstTerminalIs(ct, text, at);
    SkipWithin(text, at + 1, InRun, marks);
    SkipWithin(text, marks, IsCloser, end);
  }

  /** The first complete unit ends where the first sentence does, if something follows; and if not, there is none. */
  lemma UnitIs(ct: CharTable, text: string, end: nat)
    ensures Unit(ct, text) == Some(end) <==> end < |text| && exists at, marks :: FirstEnds(ct, text, at, marks, end)
  {
    hide UnitEnd, Skip, FirstTerminal;
    var at := FirstTerminal(ct, text, 0);
    if at == |text| {
      NoEnd(ct, text);
    } else {
      EndFound(ct, text);
    }
    forall a, marks | FirstEnds(ct, text, a, marks, end)
      ensures a == at && UnitEnd(text, a) == end
    {
      OnlyEnd(ct, text, a, marks, end);
    }
  }

  /** The boundary is the end of the first sentence, with the white space behind it. */
  lemma BoundaryIs(ct: CharTable, text: string, final: bool, boundary: nat)
    ensures NextBoundary(ct, text, final) == Some(boundary)
            <==> exists at, marks, end: nat ::
                   && FirstEnds(ct, text, at, marks, end) && (end < |text| || final) && end <= boundary <= |text|
                   && (forall i | end <= i < boundary :: ct.isSpace(text[i]))
                   && (boundary < |text| ==> !ct.isSpace(text[boundary]))
  {
    hide UnitEnd, FirstTerminal;
    var at := FirstTerminal(ct, text, 0);
    if at == |text| {
      NoEnd(ct, text);
    } else {
      EndFound(ct, text);
    }
    forall a, marks, end: nat | FirstEnds(ct, text, a, marks, end)
      ensures a == at && UnitEnd(text, a) == end
    {
      OnlyEnd(ct, text, a, marks, end);
    }
    if at < |text| {
      var end := UnitEnd(text, at);
      if end <= boundary <= |text| && (forall i | end <= i < boundary :: ct.isSpace(text[i]))
         && (boundary < |text| ==> !ct.isSpace(text[boundary]))
      {
        SkipWithin(text, end, ct.isSpace, boundary);
      }
    }
  }

  // ---------------------------------------------------------------------------------------------
  // What is spoken

  /** Stripping takes the white space from both ends, all of it and nothing else. */
  lemma StripIs(ct: CharTable, text: string) returns (from: nat, to: nat)
    ensures from <= to <= |text| && Strip(ct, text) == text[from..to]
    ensures forall i | 0 <= i < |text| && !(from <= i < to) :: ct.isSpace(text[i])
    ensures from < to ==> !ct.isSpace(text[from]) && !ct.isSpace(text[to - 1])
  {
    from := 0;
    while from < |text| && ct.isSpace(text[from])
      invariant from <= |text| && StripLeft(ct, text) == StripLeft(ct, text[from..])
      invariant forall i | 0 <= i < from :: ct.isSpace(text[i])
    {
      assert text[from..][1..] == text[from + 1..];
      from := from + 1;
    }
    var left := text[from..];
    to := |text|;
    assert text[from..to] == left;
    while to > from && ct.isSpace(text[to - 1])
      invariant from <= to <= |text| && StripRight(ct, left) == StripRight(ct, text[from..to])
      invariant forall i | to <= i < |text| :: ct.isSpace(text[i])
    {
      assert text[from..to][..to - from - 1] == text[from..to - 1];
      to := to - 1;
    }
  }

  /** The text has a first sentence that ends in front of something. */
  ghost predicate Continues(ct: CharTable, text: string, end: nat) {
    end < |text| && exists at, marks :: FirstEnds(ct, text, at, marks, end)
  }

  /**
   What is spoken: the first sentence without the white space around it, unless that is all it is, and then the rest;
   the whole text if no sentence ends before its end; and nothing beyond the limit.
   */
  lemma SpeechIs(ct: CharTable, text: string, limit: nat)
    ensures limit == 0 ==> Speech(ct, text, limit) == []
    ensures limit > 0 && (forall end: nat :: !Continues(ct, text, end)) ==>
              Speech(ct, text, limit) == if Strip(ct, text) == "" then [] else [Strip(ct, text)]
    ensures forall end: nat | limit > 0 && Continues(ct, text, end) ::
              var first := Strip(ct, text[..end]);
              Speech(ct, text, limit) == (if first == "" then [] else [first]) + Speech(ct, text[end..], limit - 1)
  {
    hide Unit, FirstEnds;
    forall end: nat
      ensures Unit(ct, text) == Some(end) <==> Continues(ct, text, end)
    {
      UnitIs(ct, text, end);
    }
  }

  // ---------------------------------------------------------------------------------------------
  // What a listener relies on

  lemma PlainSpace(ct: CharTable, c: char)
    requires Disjoint(ct) && ct.isSpace(c)
    ensures !Mark(c) && !Closing(c) && !ct.isDigit(c)
  {
    ClassIs(c);
    hide Strong, Closing;
  }

  lemma MarkEnds(ct: CharTable, a: string, mark: char, c: char, b: string)
    requires var text := a + [mark, c] + b;
             && (forall i: nat | i < |a| :: !EndsSentence(ct, text, i))
             && EndsSentence(ct, text, |a|) && !Mark(c) && !Closing(c)
    ensures Unit(ct, a + [mark, c] + b) == Some(|a| + 1)
  {
    var text := a + [mark, c] + b;
    assert text[|a| + 1] == c;
    assert FirstEnds(ct, text, |a|, |a| + 1, |a| + 1);
    UnitIs(ct, text, |a| + 1);
  }

  /** The first ending character, followed by nothing that belongs to it, ends the first sentence. */
  lemma {:induction false} SentenceEnds(ct: CharTable, a: string, mark: char, c: char, b: string, limit: nat)
    requires var text := a + [mark, c] + b;
             && (forall i: nat | i < |a| :: !EndsSentence(ct, text, i))
             && EndsSentence(ct, text, |a|) && !Mark(c) && !Closing(c)
    requires limit > 0
    ensures Speech(ct, a + [mark, c] + b, limit) == Spoken(ct, a + [mark]) + Speech(ct, [c] + b, limit - 1)
  {
    MarkEnds(ct, a, mark, c, b);
    hide Unit, Spoken, EndsSentence;
    var text := a + [mark, c] + b;
    assert text[..|a| + 1] == a + [mark] && text[|a| + 1..] == [c] + b;
  }

  /** A full stop in front of white space ends the sentence, whatever stands in front of it. */
  lemma {:induction false} FullStopEnds(ct: CharTable, a: string, space: char, b: string, limit: nat)
    requires Disjoint(ct) && ct.isSpace(space) && limit > 0
    requires forall i: nat | i < |a| :: !EndsSentence(ct, a + ['.', space] + b, i)
    ensures Speech(ct, a + ['.', space] + b, limit) == Spoken(ct, a + ".") + Speech(ct, b, limit - 1)
  {
    hide Speech, Mark, Closing, Disjoint, Spoken;
    PlainSpace(ct, space);
    assert (a + ['.', space] + b)[|a|] == '.' && (a + ['.', space] + b)[|a| + 1] == space;
    SentenceEnds(ct, a, '.', space, b, limit);
    assert Blank(ct, [space]);
    SpeechAfterBlank(ct, [space], b, limit - 1);
  }

  /** The listener hears a break in front of position `i`. */
  predicate BreaksAt(ct: CharTable, text: string, i: nat, limit: nat) {
    limit > 0
    && match Unit(ct, text)
       case None => false
       case Some(end) => i == end || (i > end && BreaksAt(ct, text[end..], i - end, limit - 1))
  }

  /** A full stop between two digits. */
  predicate InNumber(ct: CharTable, text: string, i: nat) {
    && 0 < i < |text| - 1 && text[i] == '.'
    && ct.isDigit(text[i - 1]) && ct.isDigit(text[i + 1]) && !Mark(text[i - 1]) && !Closing(text[i - 1])
  }

  lemma NotWithin(ct: CharTable, text: string, i: nat, at: nat, marks: nat, end: nat)
    requires InNumber(ct, text, i) && FirstEnds(ct, text, at, marks, end)
    ensures end < i || end > i + 1
  {
    assert !Strong('.');
    assert !EndsSentence(ct, text, i);
    hide Strong, Closing;
    assert forall p: nat | at <= p < end :: Mark(text[p]) || Closing(text[p]);
    assert Mark(text[i - 1]) == Closing(text[i - 1]) == false;
  }

  /** A decimal number is never cut in two. */
  lemma {:induction false} NumberIsWhole(ct: CharTable, text: string, i: nat, limit: nat)
    requires InNumber(ct, text, i)
    ensures !BreaksAt(ct, text, i, limit) && !BreaksAt(ct, text, i + 1, limit)
    decreases limit
  {
    hide InNumber;
    if limit > 0 && Unit(ct, text).Some? {
      var end := Unit(ct, text).value;
      UnitIs(ct, text, end);
      var at, marks :| FirstEnds(ct, text, at, marks, end);
      NotWithin(ct, text, i, at, marks, end);
      if end < i {
        NumberBehind(ct, text, i, end);
        NumberIsWhole(ct, text[end..], i - end, limit - 1);
      }
    }
  }

  lemma NumberBehind(ct: CharTable, text: string, i: nat, end: nat)
    requires InNumber(ct, text, i) && end < i
    ensures InNumber(ct, text[end..], i - end)
  {
    hide Mark, Closing;
  }
}
