/**
 The playback sink as a tape: every chunk ever accepted, in order, with what has become of it.

 The tape knows no queue, no counters, no writer slot and no set of failed generations. `SinkIsTape` says that the
 sink is a tape after every run, and admits and begins to write exactly what the tape says.
 */
module Deliveries {
  import opened Playback
  import opened Wrappers

  datatype Entry = Entry(chunk: Chunk, fate: Fate)

  /**
   `stopped`: generations below it are stopped. `dropped`: how many chunks have been refused for want of room, and
   `overflowed` if any. `broken`: how many writes have failed.
   */
  datatype Tape = Tape(
    entries: seq<Entry>, stopped: nat, closed: bool, overflowed: bool, dropped: nat, broken: nat)

  const BLANK := Tape([], 0, false, false, 0, 0)

  /** Where the tape has chunks of this fate. */
  function At(t: Tape, fate: Fate): set<nat> {
    set i: nat | i < |t.entries| && t.entries[i].fate == fate
  }

  /** Nothing speaks against the chunk but a want of room. */
  predicate Welcome(t: Tape, chunk: Chunk) {
    && !t.closed && t.stopped <= chunk.generation
    && forall i | 0 <= i < |t.entries| && t.entries[i].chunk.generation == chunk.generation ::
         t.entries[i].fate != Failed
  }

  predicate Admits(t: Tape, chunk: Chunk, capacity: nat) {
    Welcome(t, chunk) && |At(t, Queued)| < capacity
  }

  /** The writer may begin: something is queued, and nothing is being written. */
  predicate Ready(t: Tape) {
    !t.closed && At(t, InFlight) == {} && At(t, Queued) != {}
  }

  predicate Oldest(t: Tape, i: nat) {
    i < |t.entries| && t.entries[i].fate == Queued && forall k | 0 <= k < i :: t.entries[k].fate != Queued
  }

  /** Chunk by chunk, what a step makes of its fate. */
  function FateAfter(t: Tape, i: nat, step: Step): Fate
    requires i < |t.entries|
  {
    var fate := t.entries[i].fate;
    match step
    case DoStop(g) => if fate == Queued && t.entries[i].chunk.generation <= g then Purged else fate
    case DoTake => if Oldest(t, i) then InFlight else fate
    case DoLand(ok) => if fate == InFlight then (if ok then Written else Failed) else fate
    case DoClose => if fate == InFlight && !t.closed then Purged else fate
    case _ => fate
  }

  function Move(t: Tape, step: Step, capacity: nat): Tape {
    var entries := seq(|t.entries|, i requires 0 <= i < |t.entries| => t.entries[i].(fate := FateAfter(t, i, step)));
    match step
    case DoSubmit(chunk) =>
      if Admits(t, chunk, capacity) then t.(entries := entries + [Entry(chunk, Queued)])
      else if Welcome(t, chunk) then t.(overflowed := true, dropped := t.dropped + 1) else t
    case DoStop(g) => t.(entries := entries, stopped := if g < t.stopped then t.stopped else g + 1)
    case DoLand(ok) => t.(entries := entries, broken := t.broken + if ok then 0 else 1)
    case DoClose => t.(entries := entries, closed := true)
    case _ => t.(entries := entries)
  }

  function MoveAll(t: Tape, steps: seq<Step>, capacity: nat): Tape
    decreases |steps|
  {
    if steps == [] then t else MoveAll(Move(t, steps[0], capacity), steps[1..], capacity)
  }

  function TapeOf(s: Sink): Tape
    requires |s.accepted| == |s.fate|
  {
    Tape(seq(|s.fate|, i requires 0 <= i < |s.fate| => Entry(s.accepted[i], s.fate[i])), s.stoppedBefore, s.closed,
         s.overflowed, s.dropped, s.writeFailures)
  }

  // ---------------------------------------------------------------------------------------------
  // The queue is what is queued

  function QueuedFrom(fate: seq<Fate>, n: nat): set<nat> {
    set i: nat | n <= i < |fate| && fate[i] == Queued
  }

  lemma OneQueued(fate: seq<Fate>, n: nat)
    requires n < |fate|
    ensures |QueuedFrom(fate, n)| == |QueuedFrom(fate, n + 1)| + if fate[n] == Queued then 1 else 0
  {
    var here: set<nat> := if fate[n] == Queued then {n} else {};
    assert QueuedFrom(fate, n) == QueuedFrom(fate, n + 1) + here;
  }

  lemma {:induction false} CountIs(s: Sink, n: nat)
    requires |s.accepted| == |s.fate| && n <= |s.fate|
    ensures |With(s.accepted[n..], s.fate[n..], Queued)| == |QueuedFrom(s.fate, n)|
    decreases |s.fate| - n
  {
    if n == |s.fate| {
      assert QueuedFrom(s.fate, n) == {};
    } else {
      CountIs(s, n + 1);
      OneQueued(s.fate, n);
      hide QueuedFrom;
      assert s.accepted[n..][1..] == s.accepted[n + 1..] && s.fate[n..][1..] == s.fate[n + 1..];
    }
  }

  lemma QueueCount(s: Sink)
    requires Consistent(s)
    ensures |s.accepted| == |s.fate| && |s.queue| == |At(TapeOf(s), Queued)|
  {
    hide InOrder, CountsInStep, WriterInStep, FatesExplained, With;
    CountIs(s, 0);
    assert s.accepted[0..] == s.accepted && s.fate[0..] == s.fate;
    assert At(TapeOf(s), Queued) == QueuedFrom(s.fate, 0);
  }

  lemma WelcomeIs(s: Sink, chunk: Chunk)
    requires Consistent(s) && FailuresKnown(s)
    ensures Welcome(TapeOf(s), chunk)
            <==> !s.closed && !IsStopped(s, chunk.generation) && chunk.generation !in s.failed
  {
    hide InOrder, CountsInStep, WriterInStep, QueueInStep;
    var t, g := TapeOf(s), chunk.generation;
    if g in s.failed {
      var i: nat :| FailedAt(s, i, g);
      assert t.entries[i].chunk.generation == g && t.entries[i].fate == Failed;
    }
  }

  // ---------------------------------------------------------------------------------------------
  // Step by step

  /** What is admitted, and what may begin. */
  lemma AdmitsExactly(s: Sink, chunk: Chunk)
    requires Consistent(s) && FailuresKnown(s)
    ensures Submit(s, chunk).ok <==> Admits(TapeOf(s), chunk, s.capacity)
  {
    WelcomeIs(s, chunk);
    QueueCount(s);
    hide Consistent, FailuresKnown, Welcome, At;
  }

  lemma MoveIs(t: Tape, step: Step, capacity: nat, u: Tape)
    requires !step.DoSubmit?
    requires |u.entries| == |t.entries| && u.overflowed == t.overflowed && u.dropped == t.dropped
    requires u.broken == t.broken + if step == DoLand(false) then 1 else 0
    requires forall i: nat | i < |t.entries| ::
               u.entries[i].chunk == t.entries[i].chunk && u.entries[i].fate == FateAfter(t, i, step)
    requires u.stopped == match step case DoStop(g) => (if g < t.stopped then t.stopped else g + 1) case _ => t.stopped
    requires u.closed == (t.closed || step.DoClose?)
    ensures u == Move(t, step, capacity)
  {
    hide FateAfter;
    assert u.entries == Move(t, step, capacity).entries;
  }

  lemma SubmitMoves(s: Sink, chunk: Chunk)
    requires Consistent(s) && FailuresKnown(s) && Consistent(Submit(s, chunk).sink)
    ensures TapeOf(Submit(s, chunk).sink) == Move(TapeOf(s), DoSubmit(chunk), s.capacity)
  {
    AdmitsExactly(s, chunk);
    WelcomeIs(s, chunk);
    hide Consistent, FailuresKnown, Welcome, Admits, At, Pending;
    var t, u := TapeOf(s), TapeOf(Submit(s, chunk).sink);
    assert Move(t, DoSubmit(chunk), s.capacity).entries == u.entries;
  }

  lemma StopMoves(s: Sink, generation: nat)
    requires Consistent(s)
    ensures TapeOf(Stop(s, generation)) == Move(TapeOf(s), DoStop(generation), s.capacity)
  {
    StillQueued(s);
    hide Consistent, Retained, CountedFrom, WaitingFrom;
    MoveIs(TapeOf(s), DoStop(generation), s.capacity, TapeOf(Stop(s, generation)));
  }

  /** Nothing that is queued is stopped. */
  lemma StillQueued(s: Sink)
    requires Consistent(s)
    ensures |s.accepted| == |s.fate|
    ensures forall i | 0 <= i < |s.fate| && s.fate[i] == Queued :: s.accepted[i].generation >= s.stoppedBefore
  {
    hide InOrder, CountsInStep, WriterInStep, FatesExplained;
    forall i | 0 <= i < |s.fate| && s.fate[i] == Queued
      ensures s.accepted[i].generation >= s.stoppedBefore
    {
      WithHas(s.accepted, s.fate, i);
    }
  }

  lemma {:induction false} WithHas(accepted: seq<Chunk>, fate: seq<Fate>, i: nat)
    requires |accepted| == |fate| && i < |fate| && fate[i] == Queued
    ensures accepted[i] in With(accepted, fate, Queued)
    decreases i
  {
    if i > 0 {
      WithHas(accepted[1..], fate[1..], i - 1);
    }
  }

  lemma {:induction false} QueuedIsFound(s: Sink)
    requires Consistent(s)
    ensures |s.accepted| == |s.fate|
    ensures s.queue != [] <==> FirstQueued(s.fate) < |s.fate|
  {
    QueueCount(s);
    hide Consistent;
    var queued := At(TapeOf(s), Queued);
    if FirstQueued(s.fate) < |s.fate| {
      assert FirstQueued(s.fate) in queued;
    } else {
      assert queued == {};
    }
  }

  lemma TakeMoves(s: Sink)
    requires Consistent(s) && Enabled(s, DoTake) && Consistent(Take(s))
    ensures TapeOf(Take(s)) == Move(TapeOf(s), DoTake, s.capacity)
  {
    TakeIsNeverStale(s);
    QueuedIsFound(s);
    hide Consistent, Release, IsStopped;
    var t, first := TapeOf(s), FirstQueued(s.fate);
    forall i: nat | i < |s.fate|
      ensures Oldest(t, i) <==> i == first
    {
      assert t.entries[i].fate == s.fate[i] && t.entries[first].fate == s.fate[first];
    }
    MoveIs(t, DoTake, s.capacity, TapeOf(Take(s)));
  }

  lemma LandMoves(s: Sink, ok: bool)
    requires Enabled(s, DoLand(ok)) && |s.accepted| == |s.fate|
    ensures TapeOf(Land(s, ok)) == Move(TapeOf(s), DoLand(ok), s.capacity)
  {
    MoveIs(TapeOf(s), DoLand(ok), s.capacity, TapeOf(Land(s, ok)));
  }

  lemma CloseMoves(s: Sink)
    requires |s.accepted| == |s.fate|
    ensures TapeOf(Close(s)) == Move(TapeOf(s), DoClose, s.capacity)
  {
    MoveIs(TapeOf(s), DoClose, s.capacity, TapeOf(Close(s)));
  }

  lemma DrainMoves(s: Sink, generation: nat, entering: bool)
    requires |s.accepted| == |s.fate|
    ensures TapeOf(Drain(s, generation, entering)) == Move(TapeOf(s), DoDrain(generation, entering), s.capacity)
  {
    hide DrainAnswer;
    MoveIs(TapeOf(s), DoDrain(generation, entering), s.capacity, TapeOf(Drain(s, generation, entering)));
  }

  lemma NextIsMove(s: Sink, step: Step)
    requires Consistent(s) && FailuresKnown(s) && Enabled(s, step) && Consistent(Next(s, step))
    ensures |s.accepted| == |s.fate|
    ensures |Next(s, step).accepted| == |Next(s, step).fate| && Next(s, step).capacity == s.capacity
    ensures TapeOf(Next(s, step)) == Move(TapeOf(s), step, s.capacity)
  {
    Recorded(s);
    Recorded(Next(s, step));
    hide Consistent, FailuresKnown, Move, TapeOf, Stop, Take, Land, Close, Drain, Submit;
    match step
    case DoSubmit(chunk) => SubmitMoves(s, chunk);
    case DoStop(generation) => StopMoves(s, generation);
    case DoTake => TakeMoves(s);
    case DoLand(ok) => LandMoves(s, ok);
    case DoDrain(generation, entering) => DrainMoves(s, generation, entering);
    case DoClose => CloseMoves(s);
  }

  lemma ReadyIs(s: Sink)
    requires Consistent(s)
    ensures |s.accepted| == |s.fate|
    ensures Enabled(s, DoTake) <==> Ready(TapeOf(s))
    ensures s.inFlight.Some? <==> At(TapeOf(s), InFlight) != {}
  {
    QueueCount(s);
    InFlightIs(s);
    hide Consistent, At;
  }

  lemma InFlightIs(s: Sink)
    requires Consistent(s)
    ensures |s.accepted| == |s.fate|
    ensures s.inFlight.Some? <==> At(TapeOf(s), InFlight) != {}
  {
    hide InOrder, QueueInStep, CountsInStep, FatesExplained;
    if s.inFlight.Some? {
      var g := s.inFlight.value.generation;
      assert Tally(s.accepted, s.fate, g, InFlight) == 1;
      var i := TallyFound(s.accepted, s.fate, g, InFlight);
      assert i in At(TapeOf(s), InFlight);
    } else if i :| i in At(TapeOf(s), InFlight) {
      assert Tally(s.accepted, s.fate, s.accepted[i].generation, InFlight) == 0;
      TallyZero(s.accepted, s.fate, s.accepted[i].generation, InFlight, i);
    }
  }

  lemma {:induction false} RunIsTape(s: Sink, steps: seq<Step>)
    requires Consistent(s) && FailuresKnown(s) && Possible(s, steps)
    ensures |s.accepted| == |s.fate|
    ensures var t := Run(s, steps);
            && Consistent(t) && FailuresKnown(t) && t.capacity == s.capacity && |t.accepted| == |t.fate|
            && TapeOf(t) == MoveAll(TapeOf(s), steps, s.capacity)
    decreases |steps|
  {
    Recorded(s);
    if steps != [] {
      NextKeeps(s, steps[0]);
      NextKnown(s, steps[0]);
      NextIsMove(s, steps[0]);
      hide Consistent, FailuresKnown, Enabled, Next, Move, TapeOf;
      RunIsTape(Next(s, steps[0]), steps[1..]);
    }
  }

  /**
   After every run the sink is the tape that has made the same moves, accepts a chunk exactly if the tape admits it,
   and lets the writer begin exactly when the tape is ready.
   */
  lemma {:induction false} SinkIsTape(capacity: nat, steps: seq<Step>)
    requires Possible(New(capacity), steps)
    ensures var s, t := Run(New(capacity), steps), MoveAll(BLANK, steps, capacity);
            && |s.accepted| == |s.fate| && TapeOf(s) == t
            && (forall chunk :: Submit(s, chunk).ok <==> Admits(t, chunk, capacity))
            && (Enabled(s, DoTake) <==> Ready(t)) && (s.inFlight.Some? <==> At(t, InFlight) != {})
  {
    NewConsistent(capacity);
    RunIsTape(New(capacity), steps);
    var s := Run(New(capacity), steps);
    forall chunk
      ensures Submit(s, chunk).ok <==> Admits(TapeOf(s), chunk, capacity)
    {
      AdmitsExactly(s, chunk);
    }
    ReadyIs(s);
    hide Run, MoveAll, Admits, Ready, At, Consistent, FailuresKnown;
  }
}
