/**
 The one entry point that invalidates a generation, with any number of callers at once.

 A caller advances the generation at once and then queues for a first-come-first-served lock, under which
 it tears the collaborators down in a fixed order. Each step below is what runs between two suspension
 points. `RunConsistent` holds for every interleaving; `NoFenceRejects`, `HistoryIncreases` and `Settled`
 read off it what callers rely on.
 */
module Coordinator {

  datatype Reason =
    | BargeIn | TextBargeIn | DeviceChanged | MicrophoneOff | StreamError | SttTimeout | OutputOverflow
    | Shutdown | OtherError

  datatype Stage = Playback | Tts | Stt | Provider | Proposals | TurnGate | Transport

  datatype Event = Event(previous: nat, generation: nat, reason: Reason, failed: set<Stage>)

  /** A cancellation that has advanced the fence from `previous` and is not finished yet. */
  datatype Call = Call(previous: nat, reason: Reason)

  /** Where the caller at the head of the queue is suspended. */
  datatype At = AtLock | AtPlayback | AtTts | AtProvider

  /** The fence, the queue of callers, and what each collaborator holds; `playback` is the high-water mark. */
  datatype State = State(
    generation: nat, calls: seq<Call>, at: At, failed: set<Stage>, history: seq<Event>,
    playback: nat, stt: nat, gate: nat, transport: nat)

  const HISTORY_LIMIT := 64

  function New(generation: nat): State {
    State(generation, [], AtLock, {}, [], 0, generation, generation, generation)
  }

  predicate IsCurrent(s: State, generation: nat) {
    generation == s.generation
  }

  function Latest(history: seq<Event>): seq<Event> {
    if |history| <= HISTORY_LIMIT then history else history[|history| - HISTORY_LIMIT..]
  }

  // ---------------------------------------------------------------------------------------------
  // The steps

  /** The lock is taken: stop playback up to its flush. */
  function Acquire(s: State): State
    requires s.calls != []
  {
    var previous := s.calls[0].previous;
    s.(at := AtPlayback, failed := {}, playback := if previous + 1 > s.playback then previous + 1 else s.playback)
  }

  /** The fence moves first and at once; a free lock is taken in the same breath. */
  function Cancel(s: State, reason: Reason): State {
    var called := s.(generation := s.generation + 1, calls := s.calls + [Call(s.generation, reason)]);
    if s.calls == [] then Acquire(called) else called
  }

  function Fail(s: State, stage: Stage, ok: bool): State {
    if ok then s else s.(failed := s.failed + {stage})
  }

  function PlaybackStopped(s: State, ok: bool): State {
    Fail(s, Playback, ok).(at := AtTts)
  }

  /** Speech is cancelled; the recogniser refuses to move backwards. */
  function TtsCancelled(s: State, ok: bool): State
    requires s.calls != []
  {
    var next := s.calls[0].previous + 1;
    var t := Fail(s, Tts, ok).(at := AtProvider);
    if next < s.stt then Fail(t, Stt, false) else t.(stt := next)
  }

  /**
   The provider has drained: proposals are dropped, the gate adopts the fence (and refuses to move backwards),
   then the transport; the lock is released and the event recorded.
   */
  function ProviderDrained(s: State, ok: bool): State
    requires s.calls != []
  {
    var call := s.calls[0];
    var next := call.previous + 1;
    var t := Fail(s, Provider, ok);
    var u := if next < s.gate then Fail(t, TurnGate, false) else t.(gate := next);
    u.(transport := next, calls := s.calls[1..], at := AtLock,
       history := Latest(s.history + [Event(call.previous, next, call.reason, u.failed)]))
  }

  datatype Step = DoCancel(reason: Reason) | DoAcquire | DoPlayback(ok: bool) | DoTts(ok: bool) | DoProvider(ok: bool)

  predicate Enabled(s: State, step: Step) {
    match step
    case DoCancel(_) => true
    case DoAcquire => s.calls != [] && s.at == AtLock
    case DoPlayback(_) => s.calls != [] && s.at == AtPlayback
    case DoTts(_) => s.calls != [] && s.at == AtTts
    case DoProvider(_) => s.calls != [] && s.at == AtProvider
  }

  function Next(s: State, step: Step): State
    requires Enabled(s, step)
  {
    match step
    case DoCancel(reason) => Cancel(s, reason)
    case DoAcquire => Acquire(s)
    case DoPlayback(ok) => PlaybackStopped(s, ok)
    case DoTts(ok) => TtsCancelled(s, ok)
    case DoProvider(ok) => ProviderDrained(s, ok)
  }

  ghost predicate Possible(s: State, steps: seq<Step>)
    decreases |steps|
  {
    steps == [] || (Enabled(s, steps[0]) && Possible(Next(s, steps[0]), steps[1..]))
  }

  function Run(s: State, steps: seq<Step>): State
    requires Possible(s, steps)
    decreases |steps|
  {
    if steps == [] then s else Run(Next(s, steps[0]), steps[1..])
  }

  // ---------------------------------------------------------------------------------------------
  // The invariant

  /** The generation up to which every cancellation has been carried out. */
  function Base(s: State): int {
    s.generation - |s.calls|
  }

  /** The callers in the queue moved the fence one after the other. */
  ghost predicate CallsInOrder(s: State) {
    && |s.calls| <= s.generation
    && forall i | 0 <= i < |s.calls| :: s.calls[i].previous == Base(s) + i
  }

  /** Each collaborator has adopted exactly the fences of the callers that have come to it. */
  ghost predicate FencesInStep(s: State) {
    && s.stt == Base(s) + (if s.at == AtProvider then 1 else 0)
    && s.gate == Base(s)
    && s.transport == Base(s)
    && (if s.at == AtLock then s.playback <= Base(s) && (s.history != [] ==> s.playback == Base(s))
        else s.playback == Base(s) + 1)
    && (s.calls == [] ==> s.at == AtLock)
  }

  /** No fence was ever refused. */
  predicate Accepted(failed: set<Stage>) {
    Stt !in failed && TurnGate !in failed && Transport !in failed
  }

  /** The recorded cancellations follow each other without a gap, and none of their fences was refused. */
  ghost predicate Linked(history: seq<Event>) {
    && (forall i | 0 <= i < |history| :: history[i].generation == history[i].previous + 1)
    && (forall i, j | 0 <= i < j < |history| && j == i + 1 :: history[j].previous == history[i].generation)
    && (forall i | 0 <= i < |history| :: Accepted(history[i].failed))
  }

  /** The history leads up to the last cancellation carried out. */
  ghost predicate HistoryInStep(s: State) {
    && |s.history| <= HISTORY_LIMIT
    && Linked(s.history)
    && (s.history != [] ==> s.history[|s.history| - 1].generation == Base(s))
    && Accepted(s.failed)
  }

  ghost predicate Consistent(s: State) {
    CallsInOrder(s) && FencesInStep(s) && HistoryInStep(s)
  }

  lemma NewConsistent(generation: nat)
    ensures Consistent(New(generation))
  {
  }

  lemma HistoryGrows(history: seq<Event>, e: Event)
    requires Linked(history)
    requires e.generation == e.previous + 1 && Accepted(e.failed)
    requires history != [] ==> history[|history| - 1].generation == e.previous
    ensures var after := Latest(history + [e]);
            && 0 < |after| <= HISTORY_LIMIT && after[|after| - 1] == e
            && Linked(after)
  {
    var all, after := history + [e], Latest(history + [e]);
    var dropped := |all| - |after|;
    forall i, j | 0 <= i < j < |after| && j == i + 1
      ensures after[j].previous == after[i].generation
    {
      assert after[i] == all[dropped + i] == history[dropped + i];
      assert after[j] == all[dropped + j];
      if dropped + j < |history| { assert all[dropped + j] == history[dropped + j]; }
    }
  }

  lemma DrainedCalls(s: State, ok: bool)
    requires CallsInOrder(s) && FencesInStep(s) && Enabled(s, DoProvider(ok))
    ensures var t := ProviderDrained(s, ok); CallsInOrder(t) && FencesInStep(t)
  {
    hide Latest;
    var t := ProviderDrained(s, ok);
    forall i | 0 <= i < |t.calls|
      ensures t.calls[i].previous == Base(t) + i
    {
      assert t.calls[i] == s.calls[i + 1];
    }
    assert Latest(s.history + [Event(s.calls[0].previous, s.calls[0].previous + 1, s.calls[0].reason, t.failed)])
           == t.history;
  }

  /** The event recorded when the provider has drained. */
  function Recorded(s: State, ok: bool): Event
    requires s.calls != []
  {
    var call := s.calls[0];
    Event(call.previous, call.previous + 1, call.reason, Fail(s, Provider, ok).failed)
  }

  lemma DrainedEvent(s: State, ok: bool)
    requires Consistent(s) && Enabled(s, DoProvider(ok))
    ensures var t, e := ProviderDrained(s, ok), Recorded(s, ok);
            && t.history == Latest(s.history + [e]) && Base(t) == e.generation == Base(s) + 1
            && t.failed == e.failed && Accepted(e.failed)
  {
    CallsInOrderFirst(s);
    hide CallsInOrder, Latest, Linked;
  }

  lemma DrainedHistory(s: State, ok: bool)
    requires Consistent(s) && Enabled(s, DoProvider(ok))
    ensures HistoryInStep(ProviderDrained(s, ok))
  {
    DrainedEvent(s, ok);
    hide CallsInOrder, FencesInStep, Latest, Linked, ProviderDrained, Accepted, Base;
    HistoryGrows(s.history, Recorded(s, ok));
  }

  lemma CallsInOrderFirst(s: State)
    requires CallsInOrder(s) && s.calls != []
    ensures s.calls[0].previous == Base(s)
  {
  }

  lemma DrainedKeeps(s: State, ok: bool)
    requires Consistent(s) && Enabled(s, DoProvider(ok))
    ensures Consistent(ProviderDrained(s, ok))
  {
    DrainedCalls(s, ok);
    DrainedHistory(s, ok);
  }

  lemma NextKeeps(s: State, step: Step)
    requires Consistent(s) && Enabled(s, step)
    ensures Consistent(Next(s, step))
  {
    hide ProviderDrained;
    if step.DoProvider? {
      DrainedKeeps(s, step.ok);
    }
  }

  /** Over every interleaving of callers and of the lock holder. */
  lemma {:induction false} RunConsistent(s: State, steps: seq<Step>)
    requires Consistent(s) && Possible(s, steps)
    ensures Consistent(Run(s, steps))
    decreases |steps|
  {
    hide Consistent, Next, Enabled;
    if steps != [] {
      NextKeeps(s, steps[0]);
      RunConsistent(Next(s, steps[0]), steps[1..]);
    }
  }

  // ---------------------------------------------------------------------------------------------
  // Main results

  /** No recogniser and no gate is ever asked to move backwards, whoever cancels when. */
  lemma {:induction false} NoFenceRejects(generation: nat, steps: seq<Step>, step: Step)
    requires Possible(New(generation), steps) && Enabled(Run(New(generation), steps), step)
    ensures var s := Run(New(generation), steps);
            && (step.DoTts? ==> s.calls[0].previous + 1 > s.stt)
            && (step.DoProvider? ==> s.calls[0].previous + 1 > s.gate)
  {
    hide Possible, Run;
    NewConsistent(generation);
    RunConsistent(New(generation), steps);
  }

  /** The recorded history is strictly increasing, each cancellation following the last without a gap. */
  lemma {:induction false} HistoryIncreases(s: State, i: nat, j: nat)
    requires Consistent(s) && i < j < |s.history|
    ensures s.history[j].generation == s.history[i].generation + (j - i)
    decreases j
  {
    assert s.history[j].previous == s.history[j - 1].generation;
    if i < j - 1 {
      HistoryIncreases(s, i, j - 1);
    }
  }

  /** When no cancellation is running, everything holds the coordinator's generation and everything older is stopped. */
  lemma {:induction false} Settled(generation: nat, steps: seq<Step>)
    requires Possible(New(generation), steps) && Run(New(generation), steps).calls == []
    ensures var s := Run(New(generation), steps);
            && s.stt == s.gate == s.transport == s.generation
            && (s.history != [] ==> s.playback == s.generation == s.history[|s.history| - 1].generation)
  {
    hide Possible, Run;
    NewConsistent(generation);
    RunConsistent(New(generation), steps);
  }

  /** The fence only moves forward, so what was invalidated once stays invalid. */
  lemma {:induction false} FenceIsFinal(s: State, steps: seq<Step>, stale: nat)
    requires Possible(s, steps) && stale < s.generation
    ensures !IsCurrent(Run(s, steps), stale) && stale < Run(s, steps).generation
    decreases |steps|
  {
    if steps != [] {
      FenceIsFinal(Next(s, steps[0]), steps[1..], stale);
    }
  }

  // ---------------------------------------------------------------------------------------------
  // Every cancellation is carried out

  /** The stages whose collaborator raised. */
  function Broken(playback: bool, tts: bool, provider: bool): set<Stage> {
    (if playback then {} else {Playback}) + (if tts then {} else {Tts}) + (if provider then {} else {Provider})
  }

  /** The last 64 events. */
  function Newest(history: seq<Event>): seq<Event> {
    history[if |history| > 64 then |history| - 64 else 0..]
  }

  /**
   Whatever its collaborators do, the caller at the head of the queue gets through: playback is stopped, everything
   holds its fence, it is recorded with exactly the stages that raised, and the next one is at the head.
   */
  lemma {:induction false} CancelIsCarriedOut(s: State, playback: bool, tts: bool, provider: bool)
    requires Consistent(s) && s.calls != [] && s.at == AtLock
    ensures var steps := [DoAcquire, DoPlayback(playback), DoTts(tts), DoProvider(provider)];
            Possible(s, steps)
            && var t, call := Run(s, steps), s.calls[0];
               && t.calls == s.calls[1..] && t.at == AtLock && t.generation == s.generation
               && t.playback == t.stt == t.gate == t.transport == call.previous + 1
               && t.history == Newest(s.history + [Event(call.previous, call.previous + 1, call.reason,
                                                         Broken(playback, tts, provider))])
  {
    CallsInOrderFirst(s);
    HeadGetsThrough(s, playback, tts, provider);
    hide Consistent, Acquire, PlaybackStopped, TtsCancelled, ProviderDrained, Newest, Broken;
    FourSteps(s, DoAcquire, DoPlayback(playback), DoTts(tts), DoProvider(provider));
  }

  lemma HeadGetsThrough(s: State, playback: bool, tts: bool, provider: bool)
    requires s.calls != [] && FencesInStep(s) && s.at == AtLock && s.calls[0].previous == Base(s)
    ensures var a := Acquire(s);
            var b := PlaybackStopped(a, playback);
            b.calls == s.calls
            && var c := TtsCancelled(b, tts);
               c.calls == s.calls
               && var d, call := ProviderDrained(c, provider), s.calls[0];
                  && a.calls == s.calls && a.at == AtPlayback && b.at == AtTts && c.at == AtProvider
                  && d.calls == s.calls[1..] && d.at == AtLock && d.generation == s.generation
                  && d.playback == d.stt == d.gate == d.transport == call.previous + 1
                  && d.history == Newest(s.history + [Event(call.previous, call.previous + 1, call.reason,
                                                            Broken(playback, tts, provider))])
  {
    hide Latest, Newest;
    var call := s.calls[0];
    LatestIsNewest(s.history + [Event(call.previous, call.previous + 1, call.reason, Broken(playback, tts, provider))]);
    BrokenIs(s, playback, tts, provider);
  }

  lemma BrokenIs(s: State, playback: bool, tts: bool, provider: bool)
    ensures Fail(Fail(Fail(s.(failed := {}), Playback, playback), Tts, tts), Provider, provider).failed
            == Broken(playback, tts, provider)
  {
  }

  lemma LatestIsNewest(history: seq<Event>)
    ensures Latest(history) == Newest(history)
  {
  }

  lemma {:induction false} FourSteps(s: State, a: Step, b: Step, c: Step, d: Step)
    requires Enabled(s, a) && Enabled(Next(s, a), b) && Enabled(Next(Next(s, a), b), c)
    requires Enabled(Next(Next(Next(s, a), b), c), d)
    ensures Possible(s, [a, b, c, d]) && Run(s, [a, b, c, d]) == Next(Next(Next(Next(s, a), b), c), d)
  {
    hide Enabled, Next;
    assert [a, b, c, d][1..] == [b, c, d] && [b, c, d][1..] == [c, d] && [c, d][1..] == [d] && [d][1..] == [];
    OneStep(Next(Next(Next(s, a), b), c), d);
    MoreSteps(Next(Next(s, a), b), c, [d]);
    MoreSteps(Next(s, a), b, [c, d]);
    MoreSteps(s, a, [b, c, d]);
  }

  lemma {:induction false} OneStep(s: State, a: Step)
    requires Enabled(s, a)
    ensures Possible(s, [a]) && Run(s, [a]) == Next(s, a)
  {
    hide Enabled, Next;
    assert [a][1..] == [];
  }

  lemma {:induction false} MoreSteps(s: State, a: Step, rest: seq<Step>)
    requires Enabled(s, a) && Possible(Next(s, a), rest)
    ensures Possible(s, [a] + rest) && Run(s, [a] + rest) == Run(Next(s, a), rest)
  {
    hide Enabled, Next;
    assert ([a] + rest)[1..] == rest;
  }

  /** Another caller only joins the queue; if the lock is free, it takes it at once. */
  lemma CancelJoins(s: State, reason: Reason)
    requires Consistent(s)
    ensures Enabled(s, DoCancel(reason))
    ensures var t := Next(s, DoCancel(reason));
            && t.generation == s.generation + 1 && t.calls == s.calls + [Call(s.generation, reason)]
            && t.history == s.history && t.stt == s.stt && t.gate == s.gate && t.transport == s.transport
            && (s.calls != [] ==> t.at == s.at && t.failed == s.failed && t.playback == s.playback)
            && (s.calls == [] ==> t.at == AtPlayback && t.failed == {} && t.playback == s.generation + 1)
  {
    hide Linked;
  }
}
