/**
 The bounded ring that remembers the last samples, so that a turn can begin before it was recognised.

 `appended` is everything appended since the ring was last cleared. The ring holds exactly its last
 `capacity` samples, and a capture is an exact slice of it.
 */
module PreRoll {
  import opened Bytes
  import opened Wrappers
  import opened Audio

  /** The last `samples` samples. */
  function LastSamples(pcm: seq<byte>, samples: nat): (tail: seq<byte>)
    ensures |tail| == if |pcm| <= 2 * samples then |pcm| else 2 * samples
  {
    if |pcm| <= 2 * samples then pcm else pcm[|pcm| - 2 * samples..]
  }

  function Pcm(spans: seq<AudioSpan>): seq<byte> {
    if spans == [] then [] else Pcm(spans[..|spans| - 1]) + spans[|spans| - 1].pcm
  }

  /** Non-empty spans of one generation, each beginning where the one before it ends. */
  ghost predicate Contiguous(spans: seq<AudioSpan>, generation: Option<nat>) {
    && (forall i | 0 <= i < |spans| ::
          spans[i].Valid() && spans[i].start < spans[i].end && generation == Some(spans[i].generation))
    && (forall i, j | 0 <= i < j < |spans| && j == i + 1 :: spans[i].end == spans[j].start)
  }

  lemma {:induction false} PcmSnoc(spans: seq<AudioSpan>, last: AudioSpan)
    ensures Pcm(spans + [last]) == Pcm(spans) + last.pcm
  {
    assert (spans + [last])[..|spans|] == spans;
  }

  lemma {:induction false} PcmAppend(a: seq<AudioSpan>, b: seq<AudioSpan>)
    ensures Pcm(a + b) == Pcm(a) + Pcm(b)
  {
    hide Pcm;
    NoPcm();
    if b == [] {
      assert a + b == a;
      assert Pcm(a) + [] == Pcm(a);
    } else {
      var init, last := b[..|b| - 1], b[|b| - 1];
      PcmAppend(a, init);
      PcmSnoc(a + init, last);
      PcmSnoc(init, last);
      assert a + b == (a + init) + [last] && b == init + [last];
      assert Pcm(a) + (Pcm(init) + last.pcm) == (Pcm(a) + Pcm(init)) + last.pcm;
    }
  }

  lemma {:induction false} PcmFirst(spans: seq<AudioSpan>)
    requires spans != []
    ensures Pcm(spans) == spans[0].pcm + Pcm(spans[1..])
  {
    assert spans == [spans[0]] + spans[1..];
    assert [spans[0]][..0] == [];
    PcmAppend([spans[0]], spans[1..]);
  }

  lemma {:induction false} PcmLength(spans: seq<AudioSpan>, generation: Option<nat>)
    requires Contiguous(spans, generation) && spans != []
    ensures |Pcm(spans)| == 2 * (spans[|spans| - 1].end - spans[0].start)
    ensures spans[0].start < spans[|spans| - 1].end
  {
    var n := |spans| - 1;
    if n == 0 {
      assert spans[..n] == [];
    } else {
      PcmLength(spans[..n], generation);
    }
  }

  datatype Capture = Capture(audio: AudioSpan, requestedStart: nat, truncated: bool)

  /** Drop the spans that end before `keepFrom`, then cut the first that is left. */
  function Trimmed(spans: seq<AudioSpan>, keepFrom: nat): seq<AudioSpan>
    requires forall i | 0 <= i < |spans| :: spans[i].Valid()
  {
    if spans == [] then []
    else if spans[0].end <= keepFrom then Trimmed(spans[1..], keepFrom)
    else if spans[0].start < keepFrom then [spans[0].TrimLeft(keepFrom).value] + spans[1..]
    else spans
  }

  lemma AllValid(spans: seq<AudioSpan>, generation: Option<nat>)
    requires Contiguous(spans, generation)
    ensures forall i | 0 <= i < |spans| :: spans[i].Valid()
  {
  }

  lemma ContiguousRest(spans: seq<AudioSpan>, generation: Option<nat>)
    requires Contiguous(spans, generation) && spans != []
    ensures Contiguous(spans[1..], generation)
    ensures |spans| > 1 ==> spans[1].start == spans[0].end && spans[1..][|spans| - 2] == spans[|spans| - 1]
  {
  }

  ghost predicate IsTail(t: seq<AudioSpan>, spans: seq<AudioSpan>, generation: Option<nat>, keepFrom: nat)
    requires spans != [] && spans[0].start <= spans[|spans| - 1].end
  {
    var start, end := spans[0].start, spans[|spans| - 1].end;
    var from := Max(start, keepFrom);
    && Contiguous(t, generation)
    && (t == [] <==> keepFrom == end)
    && (t != [] ==> t[0].start == from && t[|t| - 1].end == end)
    && 2 * (from - start) <= |Pcm(spans)|
    && Pcm(t) == Pcm(spans)[2 * (from - start)..]
  }

  lemma FirstValid(spans: seq<AudioSpan>, generation: Option<nat>)
    requires Contiguous(spans, generation) && spans != []
    ensures spans[0].Valid() && spans[0].start < spans[0].end <= spans[|spans| - 1].end
    ensures forall i | 0 <= i < |spans| :: spans[i].Valid()
  {
    if |spans| > 1 {
      ContiguousRest(spans, generation);
      PcmLength(spans[1..], generation);
    }
  }

  lemma HeadCut(spans: seq<AudioSpan>, generation: Option<nat>, head: AudioSpan)
    requires Contiguous(spans, generation) && spans != []
    requires head.Valid() && head.start < head.end == spans[0].end && generation == Some(head.generation)
    ensures Contiguous([head] + spans[1..], generation)
    ensures Pcm([head] + spans[1..]) == head.pcm + Pcm(spans[1..])
  {
    var t := [head] + spans[1..];
    PcmFirst(t);
    assert t[1..] == spans[1..];
    forall i | 0 <= i < |t|
      ensures t[i].Valid() && t[i].start < t[i].end && generation == Some(t[i].generation)
    {
      if i > 0 { assert t[i] == spans[i]; }
    }
    forall i, j | 0 <= i < j < |t| && j == i + 1
      ensures t[i].end == t[j].start
    {
      assert t[j] == spans[j] && spans[i].end == spans[j].start;
    }
  }

  lemma CutHead(spans: seq<AudioSpan>, generation: Option<nat>, keepFrom: nat)
    requires Contiguous(spans, generation) && spans != [] && spans[0].start < keepFrom < spans[0].end
    ensures spans[0].start <= spans[|spans| - 1].end && spans[0].Valid()
    ensures IsTail([spans[0].TrimLeft(keepFrom).value] + spans[1..], spans, generation, keepFrom)
  {
    FirstValid(spans, generation);
    var head := spans[0].TrimLeft(keepFrom).value;
    HeadCut(spans, generation, head);
    PcmFirst(spans);
    PcmLength(spans, generation);
    hide Contiguous, Pcm;
    assert (spans[0].pcm + Pcm(spans[1..]))[2 * (keepFrom - spans[0].start)..] == head.pcm + Pcm(spans[1..]);
  }

  lemma DropHead(t: seq<AudioSpan>, spans: seq<AudioSpan>, generation: Option<nat>, keepFrom: nat)
    requires Contiguous(spans, generation) && |spans| > 1 && spans[0].end <= keepFrom
    requires spans[1].start <= spans[|spans| - 1].end && IsTail(t, spans[1..], generation, keepFrom)
    ensures spans[0].start <= spans[|spans| - 1].end
    ensures IsTail(t, spans, generation, keepFrom)
  {
    FirstValid(spans, generation);
    ContiguousRest(spans, generation);
    PcmFirst(spans);
    hide Contiguous, Pcm;
    var n := |spans[0].pcm|;
    assert n == 2 * (spans[0].end - spans[0].start);
    SuffixOfSuffix(spans[0].pcm, Pcm(spans[1..]), 2 * (keepFrom - spans[1].start));
  }

  lemma SuffixOfSuffix(a: seq<byte>, b: seq<byte>, k: nat)
    requires k <= |b|
    ensures (a + b)[|a| + k..] == b[k..]
  {
  }

  lemma KeepAll(spans: seq<AudioSpan>, generation: Option<nat>, keepFrom: nat)
    requires Contiguous(spans, generation) && spans != [] && keepFrom <= spans[0].start
    ensures spans[0].start <= spans[|spans| - 1].end
    ensures IsTail(spans, spans, generation, keepFrom)
  {
    FirstValid(spans, generation);
  }

  lemma DropAll(span: AudioSpan, generation: Option<nat>, keepFrom: nat)
    requires Contiguous([span], generation) && keepFrom == span.end
    ensures span.start <= span.end
    ensures IsTail([], [span], generation, keepFrom)
  {
    PcmFirst([span]);
  }

  /** Trimming keeps exactly the samples from `keepFrom` on. */
  lemma {:induction false} TrimmedIsTail(spans: seq<AudioSpan>, generation: Option<nat>, keepFrom: nat)
    requires Contiguous(spans, generation) && spans != [] && keepFrom <= spans[|spans| - 1].end
    ensures spans[0].start <= spans[|spans| - 1].end
    ensures forall i | 0 <= i < |spans| :: spans[i].Valid()
    ensures IsTail(Trimmed(spans, keepFrom), spans, generation, keepFrom)
  {
    hide Pcm, Contiguous, IsTail;
    FirstValid(spans, generation);
    if spans[0].end > keepFrom {
      if spans[0].start < keepFrom {
        CutHead(spans, generation, keepFrom);
      } else {
        KeepAll(spans, generation, keepFrom);
      }
    } else if |spans| == 1 {
      assert spans == [spans[0]];
      assert Trimmed(spans, keepFrom) == [];
      DropAll(spans[0], generation, keepFrom);
    } else {
      ContiguousRest(spans, generation);
      TrimmedIsTail(spans[1..], generation, keepFrom);
      DropHead(Trimmed(spans[1..], keepFrom), spans, generation, keepFrom);
    }
  }

  /** The pieces of the spans that lie in [from, to). */
  function Pieces(spans: seq<AudioSpan>, from: nat, to: nat): seq<byte>
    requires forall i | 0 <= i < |spans| :: spans[i].Valid()
  {
    if spans == [] then []
    else
      var span := spans[|spans| - 1];
      var a, b := Max(from, span.start), Min(to, span.end);
      Pieces(spans[..|spans| - 1], from, to) + if a < b then span.Slice(a, b).value.pcm else []
  }

  /** The bytes of `pcm` in [a, b), as far as there are any. */
  function Clip(pcm: seq<byte>, a: int, b: int): seq<byte> {
    var x, y := Max(0, a), Min(|pcm|, b);
    if x < y then pcm[x..y] else []
  }

  lemma ClipAppend(p: seq<byte>, q: seq<byte>, a: int, b: int)
    ensures Clip(p + q, a, b) == Clip(p, a, b) + Clip(q, a - |p|, b - |p|)
  {
    if b <= |p| {
      assert Clip(q, a - |p|, b - |p|) == [];
    } else if a >= |p| {
      assert Clip(p, a, b) == [];
    }
  }

  /** The part of [from, to) that lies in the given samples, which begin at `start`. */
  function Overlap(pcm: seq<byte>, start: nat, from: nat, to: nat): seq<byte>
    requires start <= from <= to
  {
    Clip(pcm, 2 * (from - start), 2 * (to - start))
  }

  lemma SliceIsClip(span: AudioSpan, from: nat, to: nat)
    requires span.Valid()
    ensures var a, b := Max(from, span.start), Min(to, span.end);
            Clip(span.pcm, 2 * (from - span.start), 2 * (to - span.start))
            == if a < b then span.Slice(a, b).value.pcm else []
  {
  }

  lemma OverlapOneMore(pcm: seq<byte>, span: AudioSpan, start: nat, from: nat, to: nat)
    requires start <= from <= to && span.Valid() && |pcm| == 2 * (span.start - start) && start <= span.start
    ensures var a, b := Max(from, span.start), Min(to, span.end);
            Overlap(pcm + span.pcm, start, from, to)
            == Overlap(pcm, start, from, to) + if a < b then span.Slice(a, b).value.pcm else []
  {
    hide Clip, Max, Min;
    var a, b, n := 2 * (from - start), 2 * (to - start), 2 * (span.start - start);
    ClipAppend(pcm, span.pcm, a, b);
    SliceIsClip(span, from, to);
    assert Clip(span.pcm, a - n, b - n) == Clip(span.pcm, 2 * (from - span.start), 2 * (to - span.start));
  }

  lemma {:induction false} PiecesAreOverlap(spans: seq<AudioSpan>, generation: Option<nat>, from: nat, to: nat)
    requires Contiguous(spans, generation) && spans != [] && spans[0].start <= from <= to
    ensures Pieces(spans, from, to) == Overlap(Pcm(spans), spans[0].start, from, to)
  {
    var n := |spans| - 1;
    var init, last := spans[..n], spans[n];
    if n == 0 {
      OverlapOneMore([], last, last.start, from, to);
      assert Overlap([], last.start, from, to) == [];
    } else {
      PiecesAreOverlap(init, generation, from, to);
      PcmLength(init, generation);
      hide Overlap;
      OverlapOneMore(Pcm(init), last, spans[0].start, from, to);
    }
  }

  /** Trimming what was already trimmed is trimming everything. */
  lemma LastOfLast(before: seq<byte>, last: seq<byte>, capacity: nat)
    ensures LastSamples(LastSamples(before, capacity) + last, capacity) == LastSamples(before + last, capacity)
  {
  }

  class PreRollBuffer {
    const preRollSamples: nat
    const capacity: nat
    var spans: seq<AudioSpan>
    var generation: Option<nat>
    ghost var appended: seq<byte>
    ghost var began: nat // where the first sample since the ring was cleared lies

    ghost predicate Valid()
      reads this
    {
      && 0 < capacity
      && Contiguous(spans, generation)
      && (spans == [] <==> generation == None)
      && (generation == None ==> appended == [])
      && Pcm(spans) == LastSamples(appended, capacity)
      && (spans != [] ==> Start() == Max(End() - capacity, began))
    }

    function Contents(): seq<byte>
      reads this
    {
      Pcm(spans)
    }

    function Start(): nat
      requires spans != []
      reads this
    {
      spans[0].start
    }

    function End(): nat
      requires spans != []
      reads this
    {
      spans[|spans| - 1].end
    }

    constructor (preRollSamples: nat, capacity: nat, maxConfirmation: nat)
      requires capacity >= preRollSamples + maxConfirmation && capacity > 0
      ensures Valid() && spans == [] && generation == None && appended == []
      ensures this.preRollSamples == preRollSamples && this.capacity == capacity
    {
      this.preRollSamples, this.capacity := preRollSamples, capacity;
      spans, generation, appended := [], None, [];
    }

    method Clear()
      modifies this
      ensures capacity > 0 ==> Valid()
      ensures spans == [] && generation == None && appended == []
    {
      spans, generation, appended := [], None, [];
    }

    method TrimToCapacity()
      requires Contiguous(spans, generation)
      modifies this`spans
      ensures spans == if old(spans) == [] then [] else Trimmed(old(spans), Max(0, old(End()) - capacity))
    {
      if spans == [] {
        return;
      }
      AllValid(spans, generation);
      hide Contiguous;
      var keepFrom := Max(0, spans[|spans| - 1].end - capacity);
      while spans != [] && spans[0].end <= keepFrom
        invariant forall i | 0 <= i < |spans| :: spans[i].Valid()
        invariant Trimmed(old(spans), keepFrom) == Trimmed(spans, keepFrom)
        decreases |spans|
      {
        spans := spans[1..];
      }
      if spans != [] && spans[0].start < keepFrom {
        spans := [spans[0].TrimLeft(keepFrom).value] + spans[1..];
      }
    }

    /**
     Append one span; a span of another generation clears the ring first. `false` is the refusal of a
     span that does not continue the ring, which changes nothing.
     */
    method Append(span: AudioSpan) returns (ok: bool)
      requires Valid() && span.Valid()
      modifies this
      ensures Valid()
      ensures ok <==> span.start == span.end || old(spans) == [] || old(generation) != Some(span.generation)
                      || old(End()) == span.start
      ensures !ok || span.start == span.end ==>
                spans == old(spans) && generation == old(generation) && appended == old(appended) && began == old(began)
      ensures ok && span.start < span.end ==>
                && generation == Some(span.generation)
                && appended == (if old(generation) == Some(span.generation) then old(appended) else []) + span.pcm
                && began == (if old(generation) == Some(span.generation) then old(began) else span.start)
                && End() == span.end && Start() < End() && |Contents()| == 2 * (End() - Start())
                && Contents()
                   == LastSamples((if old(generation) == Some(span.generation) then old(Contents()) else [])
                                  + span.pcm, capacity)
    {
      hide Pcm, LastSamples, Contiguous, Trimmed;
      if span.FrameCount() == 0 {
        return true;
      }
      if generation.Some? && span.generation != generation.value {
        Clear();
      }
      if spans != [] && span.start != spans[|spans| - 1].end {
        return false;
      }
      ghost var before, so := spans, appended;
      NothingContiguous(Some(span.generation));
      NoPcm();
      if spans == [] {
        began := span.start;
      }
      generation := Some(span.generation);
      spans := spans + [span];
      appended := appended + span.pcm;
      RingGrows(before, span, so, capacity, generation);
      LastOfLast(so, span.pcm, capacity);
      TrimToCapacity();
      PcmLength(spans, generation);
      return true;
    }

    /** The loop of `capture`. */
    method CollectPieces(from: nat, to: nat) returns (pieces: seq<byte>)
      requires forall i | 0 <= i < |spans| :: spans[i].Valid()
      ensures pieces == Pieces(spans, from, to)
    {
      pieces := [];
      for i := 0 to |spans|
        invariant pieces == Pieces(spans[..i], from, to)
      {
        var span := spans[i];
        assert spans[..i + 1][..i] == spans[..i];
        var overlapStart, overlapEnd := Max(from, span.start), Min(to, span.end);
        if overlapStart < overlapEnd {
          pieces := pieces + span.Slice(overlapStart, overlapEnd).value.pcm;
        }
      }
      assert spans[..|spans|] == spans;
    }

    /**
     The audio from the pre-roll before the onset up to the confirmation, as far as the ring reaches.
     `None` when the ring is empty or the request lies outside it.
     */
    method TakeCapture(onset: nat, confirmation: nat) returns (capture: Option<Capture>)
      requires Valid()
      ensures capture.Some? <==> spans != [] && Start() <= onset <= confirmation <= End()
      ensures capture.Some? ==>
                var requested := Max(0, onset - preRollSamples);
                var from := Max(requested, Start());
                && capture.value.requestedStart == requested
                && capture.value.truncated == (onset - from < preRollSamples)
                && capture.value.audio
                   == AudioSpan(Overlap(Contents(), Start(), from, confirmation), from, confirmation, generation.value)
    {
      hide Pcm, Overlap, LastSamples, Pieces;
      if spans == [] || generation.None? {
        return None;
      }
      var availableStart, availableEnd := spans[0].start, spans[|spans| - 1].end;
      if !(availableStart <= onset <= confirmation <= availableEnd) {
        return None;
      }
      var requestedStart := Max(0, onset - preRollSamples);
      var actualStart := Max(requestedStart, availableStart);
      var pieces := CollectPieces(actualStart, confirmation);
      PiecesAreOverlap(spans, generation, actualStart, confirmation);
      var audio := AudioSpan(pieces, actualStart, confirmation, generation.value);
      capture := Some(Capture(audio, requestedStart, onset - actualStart < preRollSamples));
    }
  }

  lemma NoPcm()
    ensures Pcm([]) == []
  {
  }

  lemma NothingContiguous(generation: Option<nat>)
    ensures Contiguous([], generation)
  {
  }

  lemma ContiguousOneMore(before: seq<AudioSpan>, span: AudioSpan, generation: Option<nat>)
    requires span.Valid() && span.start < span.end && generation == Some(span.generation)
    requires Contiguous(before, generation) && (before != [] ==> before[|before| - 1].end == span.start)
    ensures Contiguous(before + [span], generation)
  {
    var after := before + [span];
    forall i | 0 <= i < |after|
      ensures after[i].Valid() && after[i].start < after[i].end && generation == Some(after[i].generation)
    {
      if i < |before| { assert after[i] == before[i]; }
    }
    forall i, j | 0 <= i < j < |after| && j == i + 1
      ensures after[i].end == after[j].start
    {
      assert after[i] == before[i];
      if j < |before| { assert after[j] == before[j]; }
    }
  }

  /** A ring of exactly the last samples, one span longer and trimmed, is again a ring of exactly the last samples. */
  lemma RingGrows(before: seq<AudioSpan>, span: AudioSpan, appended: seq<byte>, capacity: nat, generation: Option<nat>)
    requires capacity > 0 && span.Valid() && span.start < span.end && generation == Some(span.generation)
    requires Contiguous(before, generation) && (before != [] ==> before[|before| - 1].end == span.start)
    requires Pcm(before) == LastSamples(appended, capacity)
    ensures var spans := before + [span];
            var t := Trimmed(spans, Max(0, span.end - capacity));
            && Contiguous(spans, generation) && Contiguous(t, generation) && t != []
            && Pcm(t) == LastSamples(appended + span.pcm, capacity)
            && t[|t| - 1].end == span.end
            && t[0].start == Max(span.end - capacity, if before == [] then span.start else before[0].start)
  {
    var spans, keepFrom := before + [span], Max(0, span.end - capacity);
    hide Pcm, Contiguous, Trimmed, LastSamples;
    ContiguousOneMore(before, span, generation);
    PcmSnoc(before, span);
    TrimmedIsTail(spans, generation, keepFrom);
    PcmLength(spans, generation);
    LastOfLast(appended, span.pcm, capacity);
    LastIsSuffix(Pcm(spans), spans[0].start, span.end, capacity);
  }

  lemma LastIsSuffix(pcm: seq<byte>, start: nat, end: nat, capacity: nat)
    requires start <= end && |pcm| == 2 * (end - start)
    ensures pcm[2 * (Max(start, Max(0, end - capacity)) - start)..] == LastSamples(pcm, capacity)
  {
  }
}
