/**
 The bounded playback queue, its writer, and the fence that stops a generation.

 Each function is what happens between two suspension points, so a run is any interleaving of submitters, of
 the writer, of drains and of stops. Beside the fields of the sink the state records every chunk ever
 accepted and its fate; `Consistent`, kept by every step of every run, ties the two together.
 */
module Playback {
  import opened Wrappers

  datatype Chunk = Chunk(generation: nat, data: seq<int>)

  datatype Fate = Queued | InFlight | Written | Failed | Purged

  datatype Sink = Sink(
    capacity: nat, closed: bool, stoppedBefore: nat, queue: seq<Chunk>, inFlight: Option<Chunk>, pending: map<nat, nat>,
    waiting: set<nat>, failed: set<nat>, dropped: nat, writeFailures: nat, overflowed: bool,
    accepted: seq<Chunk>, fate: seq<Fate>)

  function New(capacity: nat): Sink {
    Sink(capacity, false, 0, [], None, map[], {}, {}, 0, 0, false, [], [])
  }

  predicate IsStopped(s: Sink, generation: nat) {
    generation < s.stoppedBefore
  }

  function Pending(s: Sink, generation: nat): nat {
    if generation in s.pending then s.pending[generation] else 0
  }

  // ---------------------------------------------------------------------------------------------
  // The steps

  datatype Submitted = Submitted(sink: Sink, ok: bool)

  function Submit(s: Sink, chunk: Chunk): Submitted {
    if s.closed || IsStopped(s, chunk.generation) || chunk.generation in s.failed then Submitted(s, false)
    else if |s.queue| >= s.capacity then Submitted(s.(dropped := s.dropped + 1, overflowed := true), false)
    else
      Submitted(s.(queue := s.queue + [chunk],
                   pending := s.pending[chunk.generation := Pending(s, chunk.generation) + 1],
                   accepted := s.accepted + [chunk], fate := s.fate + [Queued]), true)
  }

  /** One chunk of the generation is done with; the last one wakes whoever waits for it. */
  function Release(s: Sink, generation: nat): Sink {
    if Pending(s, generation) > 1 then s.(pending := s.pending[generation := Pending(s, generation) - 1])
    else s.(pending := s.pending - {generation}, waiting := s.waiting - {generation})
  }

  function Retained(queue: seq<Chunk>, stoppedBefore: nat): seq<Chunk> {
    if queue == [] then []
    else (if queue[0].generation < stoppedBefore then [] else [queue[0]]) + Retained(queue[1..], stoppedBefore)
  }

  function PurgedFate(accepted: seq<Chunk>, fate: seq<Fate>, stoppedBefore: nat): seq<Fate>
    requires |accepted| == |fate|
  {
    seq(|fate|, i requires 0 <= i < |fate| =>
      if fate[i] == Queued && accepted[i].generation < stoppedBefore then Purged else fate[i])
  }

  function CountedFrom(pending: map<nat, nat>, bound: nat): map<nat, nat> {
    map g | g in pending && g >= bound :: pending[g]
  }

  function WaitingFrom(waiting: set<nat>, pending: map<nat, nat>, bound: nat): set<nat> {
    set g | g in waiting && (g >= bound || g !in pending)
  }

  /** Close the fence and purge what is queued behind it. */
  function Stop(s: Sink, generation: nat): Sink
    requires |s.accepted| == |s.fate|
  {
    var bound := if generation + 1 > s.stoppedBefore then generation + 1 else s.stoppedBefore;
    s.(stoppedBefore := bound, queue := Retained(s.queue, bound),
       pending := CountedFrom(s.pending, bound), waiting := WaitingFrom(s.waiting, s.pending, bound),
       fate := PurgedFate(s.accepted, s.fate, bound))
  }

  lemma StopIs(s: Sink, generation: nat, t: Sink)
    requires |s.accepted| == |s.fate|
             && t.stoppedBefore == if generation + 1 > s.stoppedBefore then generation + 1 else s.stoppedBefore
    requires t == s.(stoppedBefore := t.stoppedBefore, queue := t.queue, pending := t.pending, waiting := t.waiting,
                     fate := t.fate)
    requires t.queue == Retained(s.queue, t.stoppedBefore)
    requires t.pending == CountedFrom(s.pending, t.stoppedBefore)
    requires t.waiting == WaitingFrom(s.waiting, s.pending, t.stoppedBefore)
    requires t.fate == PurgedFate(s.accepted, s.fate, t.stoppedBefore)
    ensures t == Stop(s, generation)
  {
    hide Retained, CountedFrom, WaitingFrom, PurgedFate;
  }

  function FirstQueued(fate: seq<Fate>): (i: nat)
    ensures i <= |fate|
    ensures i < |fate| ==> fate[i] == Queued
    ensures forall k | 0 <= k < i :: fate[k] != Queued
  {
    if fate == [] || fate[0] == Queued then 0 else 1 + FirstQueued(fate[1..])
  }

  function SetFirst(fate: seq<Fate>, to: Fate): seq<Fate> {
    var i := FirstQueued(fate);
    if i < |fate| then fate[i := to] else fate
  }

  /** The writer takes the oldest chunk; a stale one is dropped, otherwise the device write begins. */
  function Take(s: Sink): Sink
    requires s.queue != []
  {
    var chunk, rest := s.queue[0], s.(queue := s.queue[1..]);
    if IsStopped(s, chunk.generation) then Release(rest, chunk.generation).(fate := SetFirst(s.fate, Purged))
    else rest.(inFlight := Some(chunk), fate := SetFirst(s.fate, InFlight))
  }

  function Landed(fate: seq<Fate>, as_: Fate): seq<Fate> {
    seq(|fate|, i requires 0 <= i < |fate| => if fate[i] == InFlight then as_ else fate[i])
  }

  /** The device write has ended, well or with an error. */
  function Land(s: Sink, ok: bool): Sink
    requires s.inFlight.Some?
  {
    var g := s.inFlight.value.generation;
    var landed := s.(inFlight := None, fate := Landed(s.fate, if ok then Written else Failed));
    Release(if ok then landed else landed.(writeFailures := s.writeFailures + 1, failed := s.failed + {g}), g)
  }

  /** The writer is cancelled, also in the middle of a write; whoever waits is woken. */
  function Close(s: Sink): Sink {
    if s.closed then s
    else s.(closed := true, inFlight := None, fate := Landed(s.fate, Purged), pending := map[],
            waiting := s.waiting - s.pending.Keys)
  }

  /** A drain that enters, or resumes after a wake-up: an answer, or none yet. */
  function DrainAnswer(s: Sink, generation: nat, entering: bool): Option<bool> {
    if IsStopped(s, generation) || s.closed || (entering && generation in s.failed) then Some(false)
    else if Pending(s, generation) > 0 then None
    else Some(generation !in s.failed)
  }

  function Drain(s: Sink, generation: nat, entering: bool): Sink {
    if DrainAnswer(s, generation, entering).None? then s.(waiting := s.waiting + {generation}) else s
  }

  datatype Step =
    | DoSubmit(chunk: Chunk) | DoStop(generation: nat) | DoTake | DoLand(ok: bool)
    | DoDrain(generation: nat, entering: bool) | DoClose

  predicate Enabled(s: Sink, step: Step) {
    match step
    case DoTake => s.queue != [] && s.inFlight.None? && !s.closed
    case DoLand(_) => s.inFlight.Some?
    case _ => true
  }

  function Next(s: Sink, step: Step): Sink
    requires Enabled(s, step) && |s.accepted| == |s.fate|
  {
    match step
    case DoSubmit(chunk) => Submit(s, chunk).sink
    case DoStop(generation) => Stop(s, generation)
    case DoTake => Take(s)
    case DoLand(ok) => Land(s, ok)
    case DoDrain(generation, entering) => Drain(s, generation, entering)
    case DoClose => Close(s)
  }

  // ---------------------------------------------------------------------------------------------
  // Counting fates

  /** The chunks whose fate is `f`, in the order in which they were accepted. */
  function With(accepted: seq<Chunk>, fate: seq<Fate>, f: Fate): seq<Chunk>
    requires |accepted| == |fate|
  {
    if fate == [] then [] else (if fate[0] == f then [accepted[0]] else []) + With(accepted[1..], fate[1..], f)
  }

  function Tally(accepted: seq<Chunk>, fate: seq<Fate>, generation: nat, f: Fate): nat
    requires |accepted| == |fate|
  {
    if fate == [] then 0
    else
      (if fate[0] == f && accepted[0].generation == generation then 1 else 0)
      + Tally(accepted[1..], fate[1..], generation, f)
  }

  function InQueue(queue: seq<Chunk>, generation: nat): nat {
    if queue == [] then 0 else (if queue[0].generation == generation then 1 else 0) + InQueue(queue[1..], generation)
  }

  lemma {:induction false} TallyIsInQueue(accepted: seq<Chunk>, fate: seq<Fate>, generation: nat, f: Fate)
    requires |accepted| == |fate|
    ensures Tally(accepted, fate, generation, f) == InQueue(With(accepted, fate, f), generation)
    decreases |fate|
  {
    if fate != [] {
      TallyIsInQueue(accepted[1..], fate[1..], generation, f);
      var rest := With(accepted[1..], fate[1..], f);
      if fate[0] == f {
        assert ([accepted[0]] + rest)[1..] == rest;
      } else {
        assert [] + rest == rest;
      }
    }
  }

  lemma {:induction false} WithAppend(accepted: seq<Chunk>, fate: seq<Fate>, chunk: Chunk, last: Fate, f: Fate)
    requires |accepted| == |fate|
    ensures With(accepted + [chunk], fate + [last], f) == With(accepted, fate, f) + if last == f then [chunk] else []
    decreases |fate|
  {
    if fate == [] {
      assert accepted + [chunk] == [chunk] && fate + [last] == [last];
    } else {
      WithAppend(accepted[1..], fate[1..], chunk, last, f);
      assert (accepted + [chunk])[1..] == accepted[1..] + [chunk] && (fate + [last])[1..] == fate[1..] + [last];
    }
  }

  lemma {:induction false} TallyAppend(accepted: seq<Chunk>, fate: seq<Fate>, chunk: Chunk, last: Fate,
                                       generation: nat, f: Fate)
    requires |accepted| == |fate|
    ensures Tally(accepted + [chunk], fate + [last], generation, f)
            == Tally(accepted, fate, generation, f) + if last == f && chunk.generation == generation then 1 else 0
    decreases |fate|
  {
    if fate == [] {
      assert accepted + [chunk] == [chunk] && fate + [last] == [last];
    } else {
      TallyAppend(accepted[1..], fate[1..], chunk, last, generation, f);
      assert (accepted + [chunk])[1..] == accepted[1..] + [chunk] && (fate + [last])[1..] == fate[1..] + [last];
    }
  }

  /** Changing the fate of the oldest queued chunk. */
  lemma {:induction false} SetFirstWith(accepted: seq<Chunk>, fate: seq<Fate>, to: Fate)
    requires |accepted| == |fate| && With(accepted, fate, Queued) != [] && to != Queued
    ensures var i, after := FirstQueued(fate), SetFirst(fate, to);
            && i < |fate| && |after| == |fate|
            && accepted[i] == With(accepted, fate, Queued)[0]
            && With(accepted, after, Queued) == With(accepted, fate, Queued)[1..]
    decreases |fate|
  {
    var i, after := FirstQueued(fate), SetFirst(fate, to);
    if fate[0] == Queued {
      assert after[1..] == fate[1..];
      assert With(accepted, fate, Queued)[1..] == With(accepted[1..], fate[1..], Queued);
    } else {
      assert [] + With(accepted[1..], fate[1..], Queued) == With(accepted, fate, Queued);
      SetFirstWith(accepted[1..], fate[1..], to);
      assert after[1..] == SetFirst(fate[1..], to);
    }
  }

  lemma {:induction false} TallyUpdate(accepted: seq<Chunk>, fate: seq<Fate>, i: nat, to: Fate, generation: nat,
                                       f: Fate)
    requires |accepted| == |fate| && i < |fate|
    ensures Tally(accepted, fate[i := to], generation, f)
            + (if fate[i] == f && accepted[i].generation == generation then 1 else 0)
            == Tally(accepted, fate, generation, f) + (if to == f && accepted[i].generation == generation then 1 else 0)
    decreases |fate|
  {
    if i == 0 {
      assert fate[i := to][1..] == fate[1..];
    } else {
      assert fate[i := to][1..] == fate[1..][i - 1 := to];
      TallyUpdate(accepted[1..], fate[1..], i - 1, to, generation, f);
    }
  }

  /** Purging keeps exactly the retained chunks queued and touches no other generation. */
  lemma {:induction false} PurgeWith(accepted: seq<Chunk>, fate: seq<Fate>, bound: nat)
    requires |accepted| == |fate|
    ensures With(accepted, PurgedFate(accepted, fate, bound), Queued) == Retained(With(accepted, fate, Queued), bound)
    decreases |fate|
  {
    if fate != [] {
      PurgeWith(accepted[1..], fate[1..], bound);
      assert PurgedFate(accepted, fate, bound)[1..] == PurgedFate(accepted[1..], fate[1..], bound);
      var rest := With(accepted[1..], fate[1..], Queued);
      if fate[0] == Queued {
        assert ([accepted[0]] + rest)[1..] == rest;
      } else {
        assert [] + rest == rest;
        assert [] + Retained(rest, bound) == Retained(rest, bound);
      }
    }
  }

  lemma {:induction false} PurgeTally(accepted: seq<Chunk>, fate: seq<Fate>, bound: nat, generation: nat, f: Fate)
    requires |accepted| == |fate| && generation >= bound
    ensures Tally(accepted, PurgedFate(accepted, fate, bound), generation, f) == Tally(accepted, fate, generation, f)
    decreases |fate|
  {
    if fate != [] {
      PurgeTally(accepted[1..], fate[1..], bound, generation, f);
      assert PurgedFate(accepted, fate, bound)[1..] == PurgedFate(accepted[1..], fate[1..], bound);
    }
  }

  lemma {:induction false} LandTally(accepted: seq<Chunk>, fate: seq<Fate>, to: Fate, generation: nat)
    requires |accepted| == |fate| && to != InFlight && to != Queued
    ensures Tally(accepted, Landed(fate, to), generation, Queued) == Tally(accepted, fate, generation, Queued)
    ensures Tally(accepted, Landed(fate, to), generation, InFlight) == 0
    ensures With(accepted, Landed(fate, to), Queued) == With(accepted, fate, Queued)
    decreases |fate|
  {
    if fate != [] {
      LandTally(accepted[1..], fate[1..], to, generation);
      assert Landed(fate, to)[1..] == Landed(fate[1..], to);
    }
  }

  lemma {:induction false} TallyZero(accepted: seq<Chunk>, fate: seq<Fate>, generation: nat, f: Fate, i: nat)
    requires |accepted| == |fate| && i < |fate| && Tally(accepted, fate, generation, f) == 0
    ensures !(fate[i] == f && accepted[i].generation == generation)
    decreases |fate|
  {
    if i > 0 {
      TallyZero(accepted[1..], fate[1..], generation, f, i - 1);
    }
  }

  lemma {:induction false} TallyNone(accepted: seq<Chunk>, fate: seq<Fate>, generation: nat, f: Fate)
    requires |accepted| == |fate|
             && forall i | 0 <= i < |fate| :: !(fate[i] == f && accepted[i].generation == generation)
    ensures Tally(accepted, fate, generation, f) == 0
    decreases |fate|
  {
    if fate != [] {
      TallyNone(accepted[1..], fate[1..], generation, f);
    }
  }

  /** Each accepted chunk has one fate. */
  lemma {:induction false} TallyTotal(accepted: seq<Chunk>, fate: seq<Fate>, generation: nat)
    requires |accepted| == |fate|
    ensures InQueue(accepted, generation)
            == Tally(accepted, fate, generation, Queued) + Tally(accepted, fate, generation, InFlight)
               + Tally(accepted, fate, generation, Written) + Tally(accepted, fate, generation, Failed)
               + Tally(accepted, fate, generation, Purged)
    decreases |fate|
  {
    if fate != [] {
      TallyTotal(accepted[1..], fate[1..], generation);
    }
  }

  // ---------------------------------------------------------------------------------------------
  // The invariant

  /** Chunks that are still on their way. */
  function Live(s: Sink, generation: nat): nat
    requires |s.accepted| == |s.fate|
  {
    Tally(s.accepted, s.fate, generation, Queued) + Tally(s.accepted, s.fate, generation, InFlight)
  }

  /** The queue is what is queued, and none of it is stale. */
  ghost predicate QueueInStep(s: Sink) {
    && |s.accepted| == |s.fate|
    && |s.queue| <= s.capacity
    && s.queue == With(s.accepted, s.fate, Queued)
    && (forall c | c in s.queue :: !IsStopped(s, c.generation))
  }

  /** At most the chunk being written is in flight. */
  ghost predicate WriterInStep(s: Sink) {
    && |s.accepted| == |s.fate|
    && (s.inFlight.None? ==> forall g: nat :: Tally(s.accepted, s.fate, g, InFlight) == 0)
    && (s.inFlight.Some? ==>
          && !s.closed
          && forall g: nat ::
               Tally(s.accepted, s.fate, g, InFlight) == if g == s.inFlight.value.generation then 1 else 0)
  }

  /** For generations that were not stopped the counters are right; a drain only ever waits for something. */
  ghost predicate CountsInStep(s: Sink) {
    && |s.accepted| == |s.fate|
    && (!s.closed ==> forall g: nat | !IsStopped(s, g) :: Pending(s, g) == Live(s, g))
    && (forall g | g in s.waiting :: g in s.pending)
    && (forall g | g in s.pending :: s.pending[g] > 0 && !IsStopped(s, g) && !s.closed)
  }

  /** Nothing is purged unless its generation was stopped or the sink closed, and no failure is forgotten. */
  ghost predicate FatesExplained(s: Sink) {
    && |s.accepted| == |s.fate|
    && (forall i | 0 <= i < |s.fate| && s.fate[i] == Purged :: IsStopped(s, s.accepted[i].generation) || s.closed)
    && (forall i | 0 <= i < |s.fate| && s.fate[i] == Failed :: s.accepted[i].generation in s.failed)
  }

  /** What was given to the device was accepted before everything that is still queued: writes keep the order. */
  ghost predicate InOrder(fate: seq<Fate>) {
    forall i, j | 0 <= i < j < |fate| && fate[i] == Queued :: fate[j] == Queued || fate[j] == Purged
  }

  ghost predicate Consistent(s: Sink) {
    QueueInStep(s) && WriterInStep(s) && CountsInStep(s) && FatesExplained(s) && InOrder(s.fate)
  }

  lemma WaitersAreCounted(s: Sink)
    requires Consistent(s)
    ensures |s.accepted| == |s.fate| && forall g | g in s.waiting :: g in s.pending
  {
    hide With, Tally, Live, FatesExplained, InOrder;
  }

  lemma NewConsistent(capacity: nat)
    ensures Consistent(New(capacity))
  {
  }

  lemma SubmitOrder(fate: seq<Fate>)
    requires InOrder(fate)
    ensures InOrder(fate + [Queued])
  {
  }

  lemma {:induction false} SubmitTallies(accepted: seq<Chunk>, fate: seq<Fate>, chunk: Chunk)
    requires |accepted| == |fate|
    ensures forall g: nat ::
              && Tally(accepted + [chunk], fate + [Queued], g, Queued)
                 == Tally(accepted, fate, g, Queued) + (if chunk.generation == g then 1 else 0)
              && Tally(accepted + [chunk], fate + [Queued], g, InFlight) == Tally(accepted, fate, g, InFlight)
  {
    forall g: nat
      ensures Tally(accepted + [chunk], fate + [Queued], g, Queued)
              == Tally(accepted, fate, g, Queued) + if chunk.generation == g then 1 else 0
      ensures Tally(accepted + [chunk], fate + [Queued], g, InFlight) == Tally(accepted, fate, g, InFlight)
    {
      TallyAppend(accepted, fate, chunk, Queued, g, Queued);
      TallyAppend(accepted, fate, chunk, Queued, g, InFlight);
    }
  }

  lemma SubmitKeeps(s: Sink, chunk: Chunk)
    requires Consistent(s)
    ensures Consistent(Submit(s, chunk).sink)
  {
    var t := Submit(s, chunk).sink;
    if Submit(s, chunk).ok {
      WithAppend(s.accepted, s.fate, chunk, Queued, Queued);
      SubmitTallies(s.accepted, s.fate, chunk);
      hide Tally, With, InOrder;
      SubmitOrder(s.fate);
      forall g: nat | !IsStopped(t, g)
        ensures Pending(t, g) == Live(t, g)
      {
        assert Pending(s, g) == Live(s, g);
      }
    } else {
      forall g: nat
        ensures Pending(t, g) == Pending(s, g) && Live(t, g) == Live(s, g)
      {
      }
    }
  }

  lemma {:induction false} RetainedNone(bound: nat)
    ensures Retained([], bound) == []
  {
  }

  lemma {:induction false} RetainedFirst(kept: seq<Chunk>, queue: seq<Chunk>, bound: nat)
    requires queue != []
    ensures kept + Retained(queue, bound)
            == (if queue[0].generation < bound then kept else kept + [queue[0]]) + Retained(queue[1..], bound)
  {
  }

  lemma {:induction false} RetainedNotStopped(queue: seq<Chunk>, bound: nat)
    ensures |Retained(queue, bound)| <= |queue|
    ensures forall c | c in Retained(queue, bound) :: c.generation >= bound
  {
    if queue != [] {
      RetainedNotStopped(queue[1..], bound);
    }
  }

  lemma StopKeeps(s: Sink, generation: nat)
    requires Consistent(s)
    ensures Consistent(Stop(s, generation))
  {
    var t := Stop(s, generation);
    var bound := t.stoppedBefore;
    PurgeWith(s.accepted, s.fate, bound);
    RetainedNotStopped(s.queue, bound);
    hide With, Retained;
    forall g: nat | g >= bound
      ensures Tally(t.accepted, t.fate, g, Queued) == Tally(s.accepted, s.fate, g, Queued)
    {
      PurgeTally(s.accepted, s.fate, bound, g, Queued);
    }
    forall g: nat
      ensures Tally(t.accepted, t.fate, g, InFlight) == Tally(s.accepted, s.fate, g, InFlight)
    {
      PurgeTallyInFlight(s.accepted, s.fate, bound, g);
    }
    hide Tally;
    if !t.closed {
      forall g: nat | !IsStopped(t, g)
        ensures Pending(t, g) == Live(t, g)
      {
        assert !IsStopped(s, g) && Pending(s, g) == Live(s, g);
      }
    }
  }

  lemma {:induction false} PurgeTallyInFlight(accepted: seq<Chunk>, fate: seq<Fate>, bound: nat, generation: nat)
    requires |accepted| == |fate|
    ensures Tally(accepted, PurgedFate(accepted, fate, bound), generation, InFlight)
            == Tally(accepted, fate, generation, InFlight)
    decreases |fate|
  {
    if fate != [] {
      PurgeTallyInFlight(accepted[1..], fate[1..], bound, generation);
      assert PurgedFate(accepted, fate, bound)[1..] == PurgedFate(accepted[1..], fate[1..], bound);
    }
  }

  /** The writer never finds a stale chunk: its check is redundant, and no write begins behind the fence. */
  lemma TakeIsNeverStale(s: Sink)
    requires Consistent(s) && Enabled(s, DoTake)
    ensures Take(s).inFlight == Some(s.queue[0]) && !IsStopped(s, s.queue[0].generation)
  {
    assert s.queue[0] in s.queue;
  }

  /** The chunk taken moves from queued to in flight. */
  lemma TakeTallies(s: Sink)
    requires Consistent(s) && Enabled(s, DoTake)
    ensures var fate, g := SetFirst(s.fate, InFlight), s.queue[0].generation;
            && |fate| == |s.fate| && With(s.accepted, fate, Queued) == s.queue[1..]
            && (forall h: nat ::
                  Tally(s.accepted, fate, h, Queued) + (if g == h then 1 else 0)
                  == Tally(s.accepted, s.fate, h, Queued))
            && (forall h: nat :: Tally(s.accepted, fate, h, InFlight) == if g == h then 1 else 0)
  {
    var i := FirstQueued(s.fate);
    SetFirstWith(s.accepted, s.fate, InFlight);
    hide With, Tally;
    forall h: nat
      ensures Tally(s.accepted, SetFirst(s.fate, InFlight), h, Queued)
              + (if s.accepted[i].generation == h then 1 else 0) == Tally(s.accepted, s.fate, h, Queued)
      ensures Tally(s.accepted, SetFirst(s.fate, InFlight), h, InFlight)
              == (if s.accepted[i].generation == h then 1 else 0)
    {
      TallyUpdate(s.accepted, s.fate, i, InFlight, h, Queued);
      TallyUpdate(s.accepted, s.fate, i, InFlight, h, InFlight);
    }
  }

  lemma TakeKeeps(s: Sink)
    requires Consistent(s) && Enabled(s, DoTake)
    ensures Consistent(Take(s))
  {
    TakeIsNeverStale(s);
    TakeTallies(s);
    TakeOrder(s.fate);
    hide With, Tally, InOrder;
    var t := Take(s);
    forall g: nat | !IsStopped(t, g)
      ensures Pending(t, g) == Live(t, g)
    {
      assert Pending(s, g) == Live(s, g);
    }
  }

  lemma {:induction false} TakeOrder(fate: seq<Fate>)
    requires InOrder(fate) && FirstQueued(fate) < |fate|
    ensures InOrder(SetFirst(fate, InFlight))
  {
  }

  /** Only a chunk of the generation being written is in flight. */
  lemma InFlightIsWritten(s: Sink)
    requires WriterInStep(s) && s.inFlight.Some?
    ensures forall j | 0 <= j < |s.fate| && s.fate[j] == InFlight ::
              s.accepted[j].generation == s.inFlight.value.generation
  {
    var n := s.inFlight.value.generation;
    forall j | 0 <= j < |s.fate| && s.fate[j] == InFlight
      ensures s.accepted[j].generation == n
    {
      if s.accepted[j].generation != n {
        assert Tally(s.accepted, s.fate, s.accepted[j].generation, InFlight) == 0;
        TallyZero(s.accepted, s.fate, s.accepted[j].generation, InFlight, j);
      }
    }
  }

  lemma LandTallies(s: Sink, to: Fate)
    requires |s.accepted| == |s.fate| && to != InFlight && to != Queued
    ensures forall g: nat :: Tally(s.accepted, Landed(s.fate, to), g, Queued) == Tally(s.accepted, s.fate, g, Queued)
    ensures forall g: nat :: Tally(s.accepted, Landed(s.fate, to), g, InFlight) == 0
    ensures With(s.accepted, Landed(s.fate, to), Queued) == With(s.accepted, s.fate, Queued)
  {
    LandTally(s.accepted, s.fate, to, 0);
    forall g: nat
      ensures Tally(s.accepted, Landed(s.fate, to), g, Queued) == Tally(s.accepted, s.fate, g, Queued)
      ensures Tally(s.accepted, Landed(s.fate, to), g, InFlight) == 0
    {
      LandTally(s.accepted, s.fate, to, g);
    }
  }

  lemma LandKeeps(s: Sink, ok: bool)
    requires Consistent(s) && Enabled(s, DoLand(ok))
    ensures Consistent(Land(s, ok))
  {
    hide With, Tally;
    var t := Land(s, ok);
    LandTallies(s, if ok then Written else Failed);
    InFlightIsWritten(s);
    forall g: nat | !IsStopped(t, g)
      ensures Pending(t, g) == Live(t, g)
    {
      assert Pending(s, g) == Live(s, g);
    }
  }

  lemma CloseKeeps(s: Sink)
    requires Consistent(s)
    ensures Consistent(Close(s))
  {
    if !s.closed {
      var t := Close(s);
      forall g: nat
        ensures Tally(t.accepted, t.fate, g, InFlight) == 0
        ensures With(t.accepted, t.fate, Queued) == With(s.accepted, s.fate, Queued)
      {
        LandTally(s.accepted, s.fate, Purged, g);
      }
      assert With(t.accepted, t.fate, Queued) == With(s.accepted, s.fate, Queued) by {
        LandTally(s.accepted, s.fate, Purged, 0);
      }
    }
  }

  lemma DrainKeeps(s: Sink, generation: nat, entering: bool)
    requires Consistent(s)
    ensures Consistent(Drain(s, generation, entering))
  {
    hide With, Tally;
    var t := Drain(s, generation, entering);
    forall g: nat
      ensures Pending(t, g) == Pending(s, g) && Live(t, g) == Live(s, g)
    {
    }
  }

  lemma NextKeeps(s: Sink, step: Step)
    requires Consistent(s) && Enabled(s, step)
    ensures Consistent(Next(s, step))
  {
    hide Consistent, Submit, Stop, Take, Land, Drain, Close;
    match step
    case DoSubmit(chunk) => SubmitKeeps(s, chunk);
    case DoStop(generation) => StopKeeps(s, generation);
    case DoTake => TakeKeeps(s);
    case DoLand(ok) => LandKeeps(s, ok);
    case DoDrain(generation, entering) => DrainKeeps(s, generation, entering);
    case DoClose => CloseKeeps(s);
  }

  // ---------------------------------------------------------------------------------------------
  // Main results

  /** Any interleaving of steps, each possible when its turn comes. */
  ghost predicate Possible(s: Sink, steps: seq<Step>)
    decreases |steps|
  {
    steps == [] || (|s.accepted| == |s.fate| && Enabled(s, steps[0]) && Possible(Next(s, steps[0]), steps[1..]))
  }

  function Run(s: Sink, steps: seq<Step>): Sink
    requires Possible(s, steps)
    decreases |steps|
  {
    if steps == [] then s else Run(Next(s, steps[0]), steps[1..])
  }

  lemma {:induction false} RunConsistent(s: Sink, steps: seq<Step>)
    requires Consistent(s) && Possible(s, steps)
    ensures Consistent(Run(s, steps))
    decreases |steps|
  {
    hide Consistent, Next, Enabled;
    if steps != [] {
      NextKeeps(s, steps[0]);
      RunConsistent(Next(s, steps[0]), steps[1..]);
    }
  }

  /** Conservation, per generation: everything accepted was written, failed, purged, or is queued or in flight. */
  lemma {:induction false} Conservation(s: Sink, generation: nat)
    requires Consistent(s)
    ensures InQueue(s.accepted, generation)
            == Tally(s.accepted, s.fate, generation, Written) + Tally(s.accepted, s.fate, generation, Failed)
               + Tally(s.accepted, s.fate, generation, Purged)
               + InQueue(s.queue, generation)
               + (if s.inFlight.Some? && s.inFlight.value.generation == generation then 1 else 0)
    ensures !s.closed && !IsStopped(s, generation) ==>
              Pending(s, generation)
              == InQueue(s.queue, generation)
                 + if s.inFlight.Some? && s.inFlight.value.generation == generation then 1 else 0
  {
    TallyTotal(s.accepted, s.fate, generation);
    TallyIsInQueue(s.accepted, s.fate, generation, Queued);
    hide Tally, InQueue, With;
    assert Tally(s.accepted, s.fate, generation, InFlight) >= 0;
    if !s.closed && !IsStopped(s, generation) {
      assert Pending(s, generation) == Live(s, generation);
    }
  }

  /** A drain that answers True has seen every accepted chunk of its generation written. */
  lemma DrainedIsWritten(s: Sink, generation: nat, entering: bool)
    requires Consistent(s) && DrainAnswer(s, generation, entering) == Some(true)
    ensures forall i | 0 <= i < |s.accepted| && s.accepted[i].generation == generation :: s.fate[i] == Written
  {
    hide Tally, With;
    assert Pending(s, generation) == Live(s, generation) == 0;
    forall i | 0 <= i < |s.accepted| && s.accepted[i].generation == generation
      ensures s.fate[i] == Written
    {
      TallyZero(s.accepted, s.fate, generation, Queued, i);
      TallyZero(s.accepted, s.fate, generation, InFlight, i);
    }
  }

  /** A generation has failed because a chunk of it has. */
  ghost predicate FailuresKnown(s: Sink) {
    |s.accepted| == |s.fate|
    && forall g | g in s.failed :: exists i :: FailedAt(s, i, g)
  }

  predicate FailedAt(s: Sink, i: nat, generation: nat) {
    i < |s.accepted| && i < |s.fate| && s.fate[i] == Failed && s.accepted[i].generation == generation
  }

  lemma {:induction false} TallyFound(accepted: seq<Chunk>, fate: seq<Fate>, generation: nat, f: Fate) returns (i: nat)
    requires |accepted| == |fate| && Tally(accepted, fate, generation, f) > 0
    ensures i < |fate| && fate[i] == f && accepted[i].generation == generation
    decreases |fate|
  {
    if fate[0] == f && accepted[0].generation == generation {
      return 0;
    }
    i := TallyFound(accepted[1..], fate[1..], generation, f);
    i := i + 1;
  }

  lemma FailuresStay(s: Sink, t: Sink)
    requires FailuresKnown(s) && |t.accepted| == |t.fate| && s.accepted <= t.accepted && t.failed == s.failed
    requires forall i | 0 <= i < |s.fate| && s.fate[i] == Failed :: t.fate[i] == Failed
    ensures FailuresKnown(t)
  {
    forall g | g in t.failed
      ensures exists i :: FailedAt(t, i, g)
    {
      var i :| FailedAt(s, i, g);
      assert FailedAt(t, i, g);
    }
  }

  lemma LandKnown(s: Sink, ok: bool)
    requires Consistent(s) && FailuresKnown(s) && Enabled(s, DoLand(ok))
    ensures FailuresKnown(Land(s, ok))
  {
    hide InOrder, QueueInStep, CountsInStep, FatesExplained;
    var t, g := Land(s, ok), s.inFlight.value.generation;
    assert Tally(s.accepted, s.fate, g, InFlight) == 1;
    var i := TallyFound(s.accepted, s.fate, g, InFlight);
    hide Tally, WriterInStep;
    forall h | h in t.failed
      ensures exists k :: FailedAt(t, k, h)
    {
      if h in s.failed {
        var k :| FailedAt(s, k, h);
        assert FailedAt(t, k, h);
      } else {
        assert FailedAt(t, i, h);
      }
    }
  }

  lemma NextKnown(s: Sink, step: Step)
    requires Consistent(s) && FailuresKnown(s) && Enabled(s, step)
    ensures FailuresKnown(Next(s, step))
  {
    match step
    case DoLand(ok) => LandKnown(s, ok);
    case _ =>
      NextKeeps(s, step);
      hide Consistent, FailuresKnown, Next;
      Recorded(s);
      Recorded(Next(s, step));
      FailsNoMore(s, step);
      FailuresStay(s, Next(s, step));
  }

  /** Only a device write fails a chunk. */
  lemma FailsNoMore(s: Sink, step: Step)
    requires Enabled(s, step) && !step.DoLand?
    requires |s.accepted| == |s.fate| && |Next(s, step).accepted| == |Next(s, step).fate|
    ensures var t := Next(s, step);
            && s.accepted <= t.accepted && t.failed == s.failed
            && forall i | 0 <= i < |s.fate| && s.fate[i] == Failed :: t.fate[i] == Failed
  {
    hide Retained, CountedFrom, WaitingFrom;
  }

  lemma {:induction false} RunKnown(s: Sink, steps: seq<Step>)
    requires Consistent(s) && FailuresKnown(s) && Possible(s, steps)
    ensures FailuresKnown(Run(s, steps))
    decreases |steps|
  {
    if steps != [] {
      hide Consistent, FailuresKnown, Next, Enabled;
      NextKeeps(s, steps[0]);
      NextKnown(s, steps[0]);
      RunKnown(Next(s, steps[0]), steps[1..]);
    }
  }

  /** Every accepted chunk of the generation has been written. */
  ghost predicate AllWritten(s: Sink, generation: nat)
    requires |s.accepted| == |s.fate|
  {
    forall i | 0 <= i < |s.accepted| && s.accepted[i].generation == generation :: s.fate[i] == Written
  }

  ghost predicate SomeFailed(s: Sink, generation: nat) {
    exists i :: FailedAt(s, i, generation)
  }

  /** Something of the generation is still on its way. */
  ghost predicate OnTheWay(s: Sink, generation: nat)
    requires |s.accepted| == |s.fate|
  {
    exists i :: 0 <= i < |s.fate| && s.accepted[i].generation == generation
                && (s.fate[i] == Queued || s.fate[i] == InFlight)
  }

  lemma AnswerIs(s: Sink, generation: nat, entering: bool)
    requires Consistent(s) && FailuresKnown(s) && !s.closed && !IsStopped(s, generation)
    ensures |s.accepted| == |s.fate|
    ensures DrainAnswer(s, generation, entering) == Some(true) <==> AllWritten(s, generation)
    ensures DrainAnswer(s, generation, entering) == Some(false)
            <==> SomeFailed(s, generation) && (entering || !OnTheWay(s, generation))
    ensures DrainAnswer(s, generation, entering) == None
            <==> OnTheWay(s, generation) && !(entering && SomeFailed(s, generation))
  {
    hide With, InOrder, Tally, QueueInStep, WriterInStep;
    assert Pending(s, generation) == Live(s, generation);
    if Live(s, generation) > 0 {
      var i: nat;
      if Tally(s.accepted, s.fate, generation, Queued) > 0 {
        i := TallyFound(s.accepted, s.fate, generation, Queued);
      } else {
        i := TallyFound(s.accepted, s.fate, generation, InFlight);
      }
      assert OnTheWay(s, generation);
    } else {
      forall i | 0 <= i < |s.fate| && s.accepted[i].generation == generation
        ensures s.fate[i] != Queued && s.fate[i] != InFlight
      {
        TallyZero(s.accepted, s.fate, generation, Queued, i);
        TallyZero(s.accepted, s.fate, generation, InFlight, i);
      }
    }
    assert generation in s.failed <==> SomeFailed(s, generation);
  }

  /**
   Over every run, what a drain answers: False once the sink is closed or the generation stopped; until then True
   exactly when every accepted chunk has been written, and False exactly when one has failed and the drain enters or
   nothing is left to wait for.
   */
  lemma {:induction false} DrainAnswersExactly(capacity: nat, steps: seq<Step>, generation: nat, entering: bool)
    requires Possible(New(capacity), steps)
    ensures var s, answer := Run(New(capacity), steps), DrainAnswer(Run(New(capacity), steps), generation, entering);
            && |s.accepted| == |s.fate|
            && (if s.closed || generation < s.stoppedBefore then answer == Some(false)
                else
                  && (answer == Some(true) <==> AllWritten(s, generation))
                  && (answer == Some(false)
                      <==> SomeFailed(s, generation) && (entering || !OnTheWay(s, generation))))
  {
    NewConsistent(capacity);
    RunConsistent(New(capacity), steps);
    RunKnown(New(capacity), steps);
    var s := Run(New(capacity), steps);
    if !s.closed && !IsStopped(s, generation) {
      AnswerIs(s, generation, entering);
    }
  }

  /** No wake-up is lost: whoever still waits, waits for a chunk that is on its way to the device. */
  lemma {:induction false} WaitingIsJustified(s: Sink, generation: nat)
    requires Consistent(s) && generation in s.waiting
    ensures InQueue(s.queue, generation) > 0 || (s.inFlight.Some? && s.inFlight.value.generation == generation)
    ensures DrainAnswer(s, generation, false) == None
  {
    hide Tally, InQueue, With;
    Conservation(s, generation);
  }

  /** Stopping is final: no chunk of a stopped generation is ever accepted, queued or begun again. */
  lemma {:induction false} StoppedStaysStopped(s: Sink, step: Step, generation: nat)
    requires Consistent(s) && Enabled(s, step) && IsStopped(s, generation)
    ensures var t := Next(s, step);
            && IsStopped(t, generation)
            && InQueue(t.queue, generation) == 0
            && InQueue(t.accepted, generation) == InQueue(s.accepted, generation)
            && (t.inFlight.Some? && t.inFlight.value.generation == generation ==> t.inFlight == s.inFlight)
  {
    var t := Next(s, step);
    NextKeeps(s, step);
    NoneInQueue(t.queue, generation);
    match step
    case DoSubmit(chunk) =>
      InQueueAppend(s.accepted, chunk, generation);
    case DoTake =>
      TakeIsNeverStale(s);
    case _ =>
  }

  /** Over every run a stopped generation has nothing queued, accepted or begun ever again. */
  lemma {:induction false} StoppedForever(s: Sink, steps: seq<Step>, generation: nat)
    requires Consistent(s) && Possible(s, steps) && IsStopped(s, generation)
    ensures var t := Run(s, steps);
            && IsStopped(t, generation) && InQueue(t.queue, generation) == 0
            && InQueue(t.accepted, generation) == InQueue(s.accepted, generation)
            && (t.inFlight.Some? && t.inFlight.value.generation == generation ==> t.inFlight == s.inFlight)
    decreases |steps|
  {
    hide Consistent, Next, Enabled, InQueue;
    if steps == [] {
      StoppedQueue(s, generation);
    } else {
      NextKeeps(s, steps[0]);
      StoppedStaysStopped(s, steps[0], generation);
      StoppedForever(Next(s, steps[0]), steps[1..], generation);
    }
  }

  lemma {:induction false} StoppedQueue(s: Sink, generation: nat)
    requires Consistent(s) && IsStopped(s, generation)
    ensures InQueue(s.queue, generation) == 0
  {
    NoneInQueue(s.queue, generation);
  }

  /** What was accepted stays recorded, and what was written stays written. */
  ghost predicate Advances(s: Sink, t: Sink) {
    && |s.accepted| == |s.fate| && |t.accepted| == |t.fate|
    && s.accepted <= t.accepted
    && (forall i | 0 <= i < |s.fate| && s.fate[i] == Written :: t.fate[i] == Written)
  }

  lemma NothingAdvances(s: Sink)
    requires |s.accepted| == |s.fate|
    ensures Advances(s, s)
  {
  }

  lemma NextAdvances(s: Sink, step: Step)
    requires Consistent(s) && Enabled(s, step)
    ensures Advances(s, Next(s, step)) && Consistent(Next(s, step))
  {
    NextKeeps(s, step);
    hide Consistent, Next, Advances;
    Recorded(s);
    Recorded(Next(s, step));
    NextMovesOn(s, step);
  }

  lemma NextMovesOn(s: Sink, step: Step)
    requires Enabled(s, step) && |s.accepted| == |s.fate| && |Next(s, step).accepted| == |Next(s, step).fate|
    ensures Advances(s, Next(s, step))
  {
    hide Retained, CountedFrom, WaitingFrom;
  }

  lemma Recorded(s: Sink)
    requires Consistent(s)
    ensures |s.accepted| == |s.fate|
  {
  }

  lemma {:induction false} NoneInQueue(queue: seq<Chunk>, generation: nat)
    requires forall c | c in queue :: c.generation != generation
    ensures InQueue(queue, generation) == 0
  {
    if queue != [] {
      NoneInQueue(queue[1..], generation);
    }
  }

  lemma {:induction false} InQueueAppend(queue: seq<Chunk>, chunk: Chunk, generation: nat)
    ensures InQueue(queue + [chunk], generation)
            == InQueue(queue, generation) + if chunk.generation == generation then 1 else 0
  {
    if queue == [] {
      assert queue + [chunk] == [chunk];
    } else {
      InQueueAppend(queue[1..], chunk, generation);
      assert (queue + [chunk])[1..] == queue[1..] + [chunk];
    }
  }

  // ---------------------------------------------------------------------------------------------
  // The class

  class PlaybackSink {
    const capacity: nat
    var closed: bool
    var stoppedBefore: nat
    var queue: seq<Chunk>
    var inFlight: Option<Chunk>
    var pending: map<nat, nat>
    var idle: set<nat>
    var failed: set<nat>
    var dropped: nat
    var writeFailures: nat
    var overflowed: bool
    ghost var accepted: seq<Chunk>
    ghost var fate: seq<Fate>

    ghost function View(): Sink
      reads this
    {
      Sink(capacity, closed, stoppedBefore, queue, inFlight, pending, idle, failed, dropped, writeFailures, overflowed,
           accepted, fate)
    }

    constructor (capacity: nat)
      requires capacity >= 1
      ensures View() == New(capacity)
    {
      this.capacity := capacity;
      closed, stoppedBefore, queue, inFlight, pending, idle := false, 0, [], None, map[], {};
      failed, dropped, writeFailures, overflowed, accepted, fate := {}, 0, 0, false, [], [];
    }

    method SubmitChunk(chunk: Chunk) returns (ok: bool)
      modifies this
      ensures Submitted(View(), ok) == Submit(old(View()), chunk)
    {
      if closed || chunk.generation < stoppedBefore || chunk.generation in failed {
        return false;
      }
      if |queue| >= capacity {
        dropped := dropped + 1;
        overflowed := true;
        return false;
      }
      queue := queue + [chunk];
      pending := pending[chunk.generation :=
                           (if chunk.generation in pending then pending[chunk.generation] else 0) + 1];
      accepted, fate := accepted + [chunk], fate + [Queued];
      return true;
    }

    /** Close the fence, empty the queue, put back what is not stale, forget the counters behind the fence. */
    method StopGeneration(generation: nat)
      requires Consistent(View())
      modifies this
      ensures View() == Stop(old(View()), generation)
    {
      hide Consistent, Retained, PurgedFate, Undisturbed, CountedFrom, WaitingFrom, Stop;
      ghost var was := View();
      WaitersAreCounted(was);
      stoppedBefore := if generation + 1 > stoppedBefore then generation + 1 else stoppedBefore;
      ghost var counted, waited := pending, idle;
      StillUndisturbed();
      queue := EmptyQueue();
      ForgetBehind(counted, waited);
      fate := PurgedFate(accepted, fate, stoppedBefore);
      StopIs(was, generation, View());
    }

    lemma StillUndisturbed()
      ensures Undisturbed(pending, idle)
    {
    }

    /** The counters and waiters behind the fence go. */
    method ForgetBehind(ghost counted: map<nat, nat>, ghost waited: set<nat>)
      requires Undisturbed(counted, waited)
      requires (forall g | g in waited :: g in counted) && (forall g | g in idle :: g in pending)
      modifies this`pending, this`idle
      ensures pending == CountedFrom(counted, stoppedBefore) && idle == WaitingFrom(waited, counted, stoppedBefore)
    {
      idle := set g | g in idle && (g >= stoppedBefore || g !in pending);
      pending := map g | g in pending && g >= stoppedBefore :: pending[g];
    }

    /** The first loop of `stop_generation`: take everything off the queue and keep what is not stale. */
    method EmptyQueue() returns (retained: seq<Chunk>)
      requires forall g | g in idle :: g in pending
      modifies this`queue, this`pending, this`idle
      ensures queue == [] && retained == Retained(old(queue), stoppedBefore)
      ensures Undisturbed(old(pending), old(idle)) && forall g | g in idle :: g in pending
    {
      hide Retained;
      RetainedNone(stoppedBefore);
      retained := [];
      while queue != []
        invariant Retained(old(queue), stoppedBefore) == retained + Retained(queue, stoppedBefore)
        invariant Undisturbed(old(pending), old(idle)) && forall g | g in idle :: g in pending
        decreases |queue|
      {
        RetainedFirst(retained, queue, stoppedBefore);
        var queued := queue[0];
        queue := queue[1..];
        if queued.generation < stoppedBefore {
          ReleaseOne(queued.generation);
        } else {
          retained := retained + [queued];
        }
      }
    }

    /** In front of the fence nothing has changed. */
    ghost predicate Undisturbed(counted: map<nat, nat>, waited: set<nat>)
      reads `stoppedBefore, `pending, `idle
    {
      forall g | g >= stoppedBefore ::
        (g in pending <==> g in counted) && (g in pending ==> pending[g] == counted[g]) && (g in idle <==> g in waited)
    }

    method ReleaseOne(generation: nat)
      modifies this`pending, this`idle
      ensures View() == Release(old(View()), generation)
    {
      var remaining: int := (if generation in pending then pending[generation] else 0) as int - 1;
      if remaining > 0 {
        pending := pending[generation := remaining];
        return;
      }
      pending := pending - {generation};
      idle := idle - {generation};
    }

    /** The writer gets the oldest chunk. */
    method WriterTakes()
      requires Enabled(View(), DoTake)
      modifies this
      ensures View() == Take(old(View()))
    {
      var chunk := queue[0];
      queue := queue[1..];
      if chunk.generation < stoppedBefore {
        ReleaseOne(chunk.generation);
        fate := SetFirst(fate, Purged);
        return;
      }
      inFlight := Some(chunk);
      fate := SetFirst(fate, InFlight);
    }

    /** The device write has ended. */
    method WriterLands(ok: bool)
      requires inFlight.Some?
      modifies this
      ensures View() == Land(old(View()), ok)
    {
      var generation := inFlight.value.generation;
      inFlight := None;
      if !ok {
        writeFailures := writeFailures + 1;
        failed := failed + {generation};
      }
      fate := Landed(fate, if ok then Written else Failed);
      ReleaseOne(generation);
    }

    /** One look of a drain, on entering or after a wake-up. */
    method DrainLooks(generation: nat, entering: bool) returns (answer: Option<bool>)
      modifies this`idle
      ensures answer == DrainAnswer(old(View()), generation, entering)
              && View() == Drain(old(View()), generation, entering)
    {
      if generation < stoppedBefore || closed || (entering && generation in failed) {
        return Some(false);
      }
      if generation in pending && pending[generation] > 0 {
        idle := idle + {generation};
        return None;
      }
      return Some(generation !in failed);
    }

    method CloseSink()
      modifies this
      ensures View() == Close(old(View()))
    {
      if closed {
        return;
      }
      closed := true;
      inFlight := None;
      fate := Landed(fate, Purged);
      idle := idle - pending.Keys;
      pending := map[];
    }
  }
}
