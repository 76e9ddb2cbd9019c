/**
 The turn policy: voice long enough starts a turn, silence long enough ends it.

 The policy sees observations of any length. `Ticks` is the reference, an automaton that sees one sample at
 a time and only counts a run. `FeedIsTicks` says the policy is the automaton, so that splitting an
 observation changes nothing (`SplitObservation`), and `EventsAreEarned` reads the events off the samples.
 */
module Vad {
  import opened Wrappers

  datatype Kind = TurnStarted | BargeInConfirmed | TurnEnded

  datatype Event = Event(kind: Kind, at: nat, onset: Option<nat>)

  /** Thresholds in samples. */
  datatype Config = Config(idleStart: nat, bargeIn: nat, endSilence: nat) {
    predicate Valid() {
      0 < idleStart <= bargeIn && 0 < endSilence
    }

    function Threshold(ai: bool): nat {
      if ai then bargeIn else idleStart
    }
  }

  const DEFAULT := Config(1600, 4800, 5600)

  // ---------------------------------------------------------------------------------------------
  // The policy, as a function on its fields

  datatype Policy = Policy(next: Option<nat>, voiceOnset: Option<nat>, silenceOnset: Option<nat>, active: bool)

  const RESET := Policy(None, None, None, false)

  datatype Step = Step(policy: Policy, events: seq<Event>)

  /** The observation is acceptable: not empty and adjacent to the last one. */
  predicate Follows(p: Policy, start: nat, end: nat) {
    start < end && (p.next.None? || p.next.value == start)
  }

  function FeedWaiting(p: Policy, start: nat, end: nat, voiced: bool, ai: bool, c: Config): Step {
    if !voiced then Step(p.(voiceOnset := None), [])
    else
      var onset := if p.voiceOnset.Some? then p.voiceOnset.value else start;
      var heard := p.(voiceOnset := Some(onset));
      var confirmation := onset + c.Threshold(ai);
      if end < confirmation then Step(heard, [])
      else Step(heard.(active := true, silenceOnset := None),
                [Event(if ai then BargeInConfirmed else TurnStarted, confirmation, Some(onset))])
  }

  function FeedActive(p: Policy, start: nat, end: nat, voiced: bool, c: Config): Step {
    if voiced then Step(p.(silenceOnset := None), [])
    else
      var onset := if p.silenceOnset.Some? then p.silenceOnset.value else start;
      var confirmation := onset + c.endSilence;
      if end < confirmation then Step(p.(silenceOnset := Some(onset)), [])
      else Step(p.(active := false, voiceOnset := None, silenceOnset := None), [Event(TurnEnded, confirmation, None)])
  }

  function Feed(p: Policy, start: nat, end: nat, voiced: bool, ai: bool, c: Config): Step
    requires Follows(p, start, end)
  {
    var seen := p.(next := Some(end));
    if p.active then FeedActive(seen, start, end, voiced, c) else FeedWaiting(seen, start, end, voiced, ai, c)
  }

  /** What holds between observations: onsets lie in the past and silence has not lasted long enough yet. */
  ghost predicate Consistent(p: Policy, c: Config) {
    && c.Valid()
    && (p.next.None? ==> p == RESET)
    && (p.voiceOnset.Some? ==> p.voiceOnset.value < p.next.value)
    && (p.active ==> p.voiceOnset.Some?)
    && (!p.active ==> p.silenceOnset.None?)
    && (!p.active && p.voiceOnset.Some? ==> p.next.value < p.voiceOnset.value + c.bargeIn)
    && (p.silenceOnset.Some? ==> p.silenceOnset.value < p.next.value < p.silenceOnset.value + c.endSilence)
  }

  lemma FeedKeepsConsistent(p: Policy, start: nat, end: nat, voiced: bool, ai: bool, c: Config)
    requires Consistent(p, c) && Follows(p, start, end)
    ensures Consistent(Feed(p, start, end, voiced, ai, c).policy, c)
  {
  }

  /** The onset a voiced observation has while no turn is active. */
  function OnsetOf(p: Policy, start: nat): nat {
    if p.voiceOnset.Some? then p.voiceOnset.value else start
  }

  /** An observation causes at most one event, and the event says what became of the policy. */
  lemma FeedOutcome(p: Policy, start: nat, end: nat, voiced: bool, ai: bool, c: Config)
    requires Consistent(p, c) && Follows(p, start, end)
    ensures var step := Feed(p, start, end, voiced, ai, c);
            var q := step.policy;
            && q.next == Some(end)
            && |step.events| <= 1
            && (step.events == [] ==>
                  && q.active == p.active
                  && (!q.active && q.voiceOnset.Some? ==>
                        q.voiceOnset.value == OnsetOf(p, start) && end < OnsetOf(p, start) + c.Threshold(ai)))
            && (step.events != [] && !p.active ==>
                  && q.active
                  && step.events[0].kind == (if ai then BargeInConfirmed else TurnStarted)
                  && step.events[0].onset == Some(OnsetOf(p, start))
                  && OnsetOf(p, start) < step.events[0].at == OnsetOf(p, start) + c.Threshold(ai) <= end)
            && (step.events != [] && p.active ==>
                  step.events[0].kind.TurnEnded? && q == RESET.(next := Some(end)) && start < step.events[0].at <= end)
  {
  }

  // ---------------------------------------------------------------------------------------------
  // The reference: one sample at a time

  /** In a turn or not, and how long the run that could change that has lasted. */
  datatype Auto = Auto(active: bool, run: nat)

  datatype Ticked = Ticked(auto: Auto, events: seq<Event>)

  function Tick(a: Auto, now: nat, voiced: bool, ai: bool, c: Config): Ticked
    requires a.run <= now
  {
    if voiced == a.active then Ticked(a.(run := 0), [])
    else
      var run, onset := a.run + 1, now - a.run;
      var threshold := if a.active then c.endSilence else c.Threshold(ai);
      if run < threshold then Ticked(a.(run := run), [])
      else if a.active then Ticked(Auto(false, 0), [Event(TurnEnded, onset + threshold, None)])
      else Ticked(Auto(true, 0), [Event(if ai then BargeInConfirmed else TurnStarted, onset + threshold, Some(onset))])
  }

  function Ticks(a: Auto, start: nat, end: nat, voiced: bool, ai: bool, c: Config): Ticked
    requires start <= end && a.run <= start
    decreases end - start
  {
    if start == end then Ticked(a, [])
    else
      var first := Tick(a, start, voiced, ai, c);
      var rest := Ticks(first.auto, start + 1, end, voiced, ai, c);
      Ticked(rest.auto, first.events + rest.events)
  }

  /** The automaton's view of a policy whose next sample is `now`. */
  function AutoOf(p: Policy, now: nat): (a: Auto)
    requires p.next == Some(now) || p == RESET
    requires p.voiceOnset.Some? ==> p.voiceOnset.value <= now
    requires p.silenceOnset.Some? ==> p.silenceOnset.value <= now
    ensures a.run <= now
  {
    var onset := if p.active then p.silenceOnset else p.voiceOnset;
    Auto(p.active, if onset.Some? then now - onset.value else 0)
  }

  /** A run that goes nowhere: samples of the kind that keeps the automaton where it is. */
  lemma {:induction false} TicksQuiet(a: Auto, start: nat, end: nat, voiced: bool, ai: bool, c: Config)
    requires start <= end && a.run <= start && voiced == a.active
    ensures Ticks(a, start, end, voiced, ai, c) == Ticked(if start == end then a else a.(run := 0), [])
    decreases end - start
  {
    if start < end {
      TicksQuiet(a.(run := 0), start + 1, end, voiced, ai, c);
    }
  }

  /** A run that counts: it stays below the threshold, or crosses it once and is quiet afterwards. */
  lemma {:induction false} TicksCount(a: Auto, start: nat, end: nat, voiced: bool, ai: bool, c: Config)
    requires start <= end && a.run <= start && voiced != a.active && c.Valid()
    requires a.active ==> a.run < c.endSilence
    ensures var onset := start - a.run;
            var threshold := if a.active then c.endSilence else c.Threshold(ai);
            var ticked := Ticks(a, start, end, voiced, ai, c);
            if start == end || end < onset + threshold then ticked == Ticked(a.(run := end - onset), [])
            else ticked.auto == Auto(!a.active, 0)
                 && ticked.events == [if a.active then Event(TurnEnded, onset + threshold, None)
                                      else Event(if ai then BargeInConfirmed
                                                 else TurnStarted, onset + threshold, Some(onset))]
    decreases end - start
  {
    if start < end {
      var first := Tick(a, start, voiced, ai, c);
      if first.auto.active == a.active {
        TicksCount(first.auto, start + 1, end, voiced, ai, c);
      } else {
        TicksQuiet(first.auto, start + 1, end, voiced, ai, c);
      }
    }
  }

  /** The policy is the automaton. */
  lemma {:induction false} FeedIsTicks(p: Policy, start: nat, end: nat, voiced: bool, ai: bool, c: Config)
    requires Consistent(p, c) && Follows(p, start, end)
    ensures var step := Feed(p, start, end, voiced, ai, c);
            Ticks(AutoOf(p, start), start, end, voiced, ai, c) == Ticked(AutoOf(step.policy, end), step.events)
  {
    FeedKeepsConsistent(p, start, end, voiced, ai, c);
    if voiced == p.active {
      TicksQuiet(AutoOf(p, start), start, end, voiced, ai, c);
    } else {
      TicksCount(AutoOf(p, start), start, end, voiced, ai, c);
    }
  }

  /** Splitting an observation changes neither the events nor the state they leave behind. */
  lemma SplitObservation(p: Policy, start: nat, middle: nat, end: nat, voiced: bool, ai: bool, c: Config)
    requires Consistent(p, c) && Follows(p, start, end) && start < middle < end
    ensures var first := Feed(p, start, middle, voiced, ai, c);
            var second := Feed(first.policy, middle, end, voiced, ai, c);
            Feed(p, start, end, voiced, ai, c) == Step(second.policy, first.events + second.events)
  {
  }

  // ---------------------------------------------------------------------------------------------
  // Events and the samples they come from

  datatype Sample = Sample(voiced: bool, ai: bool)

  /** The automaton over a whole recording that begins at sample `base`, one sample at a time. */
  function Listen(base: nat, samples: seq<Sample>, c: Config): (t: Ticked)
    ensures t.auto.run <= |samples|
  {
    if samples == [] then Ticked(Auto(false, 0), [])
    else
      var n := |samples| - 1;
      var before := Listen(base, samples[..n], c);
      var last := Tick(before.auto, base + n, samples[n].voiced, samples[n].ai, c);
      Ticked(last.auto, before.events + last.events)
  }

  ghost predicate AllVoiced(base: nat, samples: seq<Sample>, from: int, to: int, voiced: bool) {
    base <= from <= to <= base + |samples| && forall i | from - base <= i < to - base :: samples[i].voiced == voiced
  }

  /** A start follows a full threshold of voice, counted for whoever was speaking; an end, one of silence. */
  ghost predicate Earned(e: Event, base: nat, samples: seq<Sample>, c: Config) {
    match e.kind
    case TurnEnded => AllVoiced(base, samples, e.at - c.endSilence, e.at, false)
    case TurnStarted =>
      e.onset.Some? && e.at == e.onset.value + c.idleStart && AllVoiced(base, samples, e.onset.value, e.at, true)
    case BargeInConfirmed =>
      e.onset.Some? && e.at == e.onset.value + c.bargeIn && AllVoiced(base, samples, e.onset.value, e.at, true)
  }

  lemma EarnedLater(e: Event, base: nat, samples: seq<Sample>, last: Sample, c: Config)
    requires Earned(e, base, samples, c)
    ensures Earned(e, base, samples + [last], c)
  {
  }

  /** Every event of the automaton is earned, starts and ends take turns, and it knows whose turn it is. */
  lemma {:induction false} ListenEarns(base: nat, samples: seq<Sample>, c: Config)
    requires c.Valid()
    ensures var t := Listen(base, samples, c);
            && (forall i | 0 <= i < |t.events| :: Earned(t.events[i], base, samples, c))
            && (forall i | 0 <= i < |t.events| :: t.events[i].kind.TurnEnded? <==> i % 2 == 1)
            && (t.auto.active <==> |t.events| % 2 == 1)
            && AllVoiced(base, samples, base + |samples| - t.auto.run, base + |samples|, !t.auto.active)
            && (t.auto.active ==> t.auto.run < c.endSilence)
  {
    if samples != [] {
      var n := |samples| - 1;
      var init, last := samples[..n], samples[n];
      assert samples == init + [last];
      ListenEarns(base, init, c);
      var before := Listen(base, init, c);
      forall i | 0 <= i < |before.events|
        ensures Earned(before.events[i], base, samples, c)
      {
        EarnedLater(before.events[i], base, init, last, c);
      }
    }
  }

  /** The last `length` samples are all voiced, or all unvoiced. */
  predicate EndsWith(samples: seq<Sample>, length: nat, voiced: bool) {
    length <= |samples| && forall i | |samples| - length <= i < |samples| :: samples[i].voiced == voiced
  }

  /** The run counted is as long as it can be: what is in front of it, if anything, is of the other kind. */
  lemma {:induction false} RunIsLongest(base: nat, samples: seq<Sample>, c: Config)
    requires c.Valid()
    ensures var a := Listen(base, samples, c).auto;
            && EndsWith(samples, a.run, !a.active)
            && (a.run < |samples| ==> samples[|samples| - 1 - a.run].voiced == a.active)
            && (a.active ==> a.run < c.endSilence)
            && (!a.active && samples != [] && samples[|samples| - 1].voiced ==>
                  a.run < c.Threshold(samples[|samples| - 1].ai))
  {
    if samples != [] {
      RunIsLongest(base, samples[..|samples| - 1], c);
    }
  }

  /**
   No event is missed: nobody waits after a full threshold of voice, whoever was speaking, and no turn is open
   after a full threshold of silence.
   */
  lemma {:induction false} EventsCome(base: nat, samples: seq<Sample>, c: Config)
    requires c.Valid()
    ensures samples != [] && EndsWith(samples, c.Threshold(samples[|samples| - 1].ai), true) ==>
              Listen(base, samples, c).auto.active
    ensures EndsWith(samples, c.endSilence, false) ==> !Listen(base, samples, c).auto.active
  {
    RunIsLongest(base, samples, c);
    hide Listen;
    var a, n := Listen(base, samples, c).auto, |samples|;
    if a.run < n {
      assert samples[n - 1 - a.run].voiced == a.active;
    }
  }

  // ---------------------------------------------------------------------------------------------
  // The policy over any run of observations

  datatype Observation = Observation(start: nat, end: nat, voiced: bool, ai: bool)

  /** What the policy accepts from a reset on: observations that are not empty, each adjacent to the last. */
  ghost predicate Adjacent(os: seq<Observation>) {
    && (forall i | 0 <= i < |os| :: os[i].start < os[i].end)
    && (forall i, j | 0 <= i < j < |os| && j == i + 1 :: os[i].end == os[j].start)
  }

  function FeedAll(os: seq<Observation>, c: Config): (s: Step)
    requires Adjacent(os)
    ensures if os == [] then s.policy == RESET else s.policy.next == Some(os[|os| - 1].end)
  {
    if os == [] then Step(RESET, [])
    else
      var n := |os| - 1;
      var before := FeedAll(os[..n], c);
      var last := Feed(before.policy, os[n].start, os[n].end, os[n].voiced, os[n].ai, c);
      Step(last.policy, before.events + last.events)
  }

  function SamplesOf(o: Observation): (samples: seq<Sample>)
    requires o.start <= o.end
  {
    seq(o.end - o.start, _ => Sample(o.voiced, o.ai))
  }

  /** The recording behind the observations. */
  function Recording(os: seq<Observation>): (samples: seq<Sample>)
    requires Adjacent(os)
    ensures os != [] ==> os[0].start + |samples| == os[|os| - 1].end
  {
    if os == [] then [] else Recording(os[..|os| - 1]) + SamplesOf(os[|os| - 1])
  }

  lemma {:induction false} ListenOneMore(base: nat, samples: seq<Sample>, x: Sample, c: Config)
    ensures var before := Listen(base, samples, c);
            var last := Tick(before.auto, base + |samples|, x.voiced, x.ai, c);
            Listen(base, samples + [x], c) == Ticked(last.auto, before.events + last.events)
  {
    assert (samples + [x])[..|samples|] == samples;
    hide Tick;
  }

  lemma TicksFirst(a: Auto, start: nat, end: nat, voiced: bool, ai: bool, c: Config)
    requires start < end && a.run <= start
    ensures var first := Tick(a, start, voiced, ai, c);
            first.auto.run <= start + 1
            && var rest := Ticks(first.auto, start + 1, end, voiced, ai, c);
               Ticks(a, start, end, voiced, ai, c) == Ticked(rest.auto, first.events + rest.events)
  {
  }

  /** Listening on through an observation is ticking through it. */
  lemma {:induction false} ListenOn(base: nat, samples: seq<Sample>, k: nat, x: Sample, c: Config)
    ensures var before, now := Listen(base, samples, c), base + |samples|;
            var ticked := Ticks(before.auto, now, now + k, x.voiced, x.ai, c);
            Listen(base, samples + seq(k, _ => x), c) == Ticked(ticked.auto, before.events + ticked.events)
    decreases k
  {
    var before, now := Listen(base, samples, c), base + |samples|;
    if k == 0 {
      hide Listen;
      assert samples + seq(k, _ => x) == samples;
      assert before.events + [] == before.events;
    } else {
      hide Listen, Tick, Ticks;
      var more := samples + [x];
      ListenOneMore(base, samples, x, c);
      TicksFirst(before.auto, now, now + k, x.voiced, x.ai, c);
      assert more + seq(k - 1, _ => x) == samples + seq(k, _ => x);
      ListenOn(base, more, k - 1, x, c);
    }
  }

  /** The policy stands where the automaton does after a recording that ends at sample `now`. */
  ghost predicate Agrees(s: Step, base: nat, samples: seq<Sample>, now: nat, c: Config) {
    var heard := Listen(base, samples, c);
    && base + |samples| == now && Consistent(s.policy, c) && (s.policy == RESET || s.policy.next == Some(now))
    && s.events == heard.events && AutoOf(s.policy, now) == heard.auto
  }

  lemma AgreesOneMore(s: Step, base: nat, samples: seq<Sample>, o: Observation, c: Config)
    requires Agrees(s, base, samples, o.start, c) && Follows(s.policy, o.start, o.end)
    ensures var last := Feed(s.policy, o.start, o.end, o.voiced, o.ai, c);
            Agrees(Step(last.policy, s.events + last.events), base, samples + SamplesOf(o), o.end, c)
  {
    FeedKeepsConsistent(s.policy, o.start, o.end, o.voiced, o.ai, c);
    FeedIsTicks(s.policy, o.start, o.end, o.voiced, o.ai, c);
    FeedMoves(s.policy, o.start, o.end, o.voiced, o.ai, c);
    hide Ticks, Feed, Listen, Consistent, AutoOf;
    ListenOn(base, samples, o.end - o.start, Sample(o.voiced, o.ai), c);
  }

  lemma FeedMoves(p: Policy, start: nat, end: nat, voiced: bool, ai: bool, c: Config)
    requires Follows(p, start, end)
    ensures Feed(p, start, end, voiced, ai, c).policy.next == Some(end)
  {
  }

  /** Over any run of observations the policy has the events and the state of the automaton on the recording. */
  lemma {:induction false} PolicyListens(os: seq<Observation>, c: Config)
    requires c.Valid() && Adjacent(os) && os != []
    ensures Agrees(FeedAll(os, c), os[0].start, Recording(os), os[|os| - 1].end, c)
    decreases |os|
  {
    hide Agrees, Feed;
    var n := |os| - 1;
    var init, o := os[..n], os[n];
    assert o.start < o.end;
    if init == [] {
      NothingAgrees(o.start, c);
    } else {
      assert init[n - 1].end == os[n - 1].end == o.start;
      PolicyListens(init, c);
    }
    AgreesOneMore(FeedAll(init, c), os[0].start, Recording(init), o, c);
  }

  lemma NothingAgrees(base: nat, c: Config)
    requires c.Valid()
    ensures Agrees(Step(RESET, []), base, [], base, c)
  {
  }

  /**
   Over any run of observations since the last reset, however it was cut: starts and ends alternate, and each
   event is preceded in the recording by its full threshold of consecutive voiced or unvoiced samples.
   */
  lemma {:induction false} EventsAreEarned(os: seq<Observation>, c: Config)
    requires c.Valid() && Adjacent(os)
    ensures var s := FeedAll(os, c);
            && (os != [] ==> forall i | 0 <= i < |s.events| :: Earned(s.events[i], os[0].start, Recording(os), c))
            && (forall i | 0 <= i < |s.events| :: s.events[i].kind.TurnEnded? <==> i % 2 == 1)
            && (s.policy.active <==> |s.events| % 2 == 1)
  {
    if os != [] {
      PolicyListens(os, c);
      ListenEarns(os[0].start, Recording(os), c);
      hide Listen, Recording, Earned;
    }
  }

  /**
   And no event is missed: over any run of observations the policy is in a turn after a full threshold of voice,
   and in none after a full threshold of silence.
   */
  lemma {:induction false} NoneIsMissed(os: seq<Observation>, c: Config)
    requires c.Valid() && Adjacent(os) && os != []
    ensures var samples, s := Recording(os), FeedAll(os, c);
            && (EndsWith(samples, if os[|os| - 1].ai then c.bargeIn else c.idleStart, true) ==> s.policy.active)
            && (EndsWith(samples, c.endSilence, false) ==> !s.policy.active)
  {
    var n := |os| - 1;
    assert os[n].start < os[n].end;
    assert Recording(os)[|Recording(os)| - 1] == Sample(os[n].voiced, os[n].ai);
    PolicyListens(os, c);
    EventsCome(os[0].start, Recording(os), c);
    hide Listen, Recording, EndsWith;
  }

  // ---------------------------------------------------------------------------------------------
  // The class

  class TurnPolicy {
    const config: Config
    var next: Option<nat>
    var voiceOnset: Option<nat>
    var silenceOnset: Option<nat>
    var active: bool

    function View(): Policy
      reads this
    {
      Policy(next, voiceOnset, silenceOnset, active)
    }

    constructor (config: Config)
      ensures this.config == config && View() == RESET
    {
      this.config := config;
      next, voiceOnset, silenceOnset, active := None, None, None, false;
    }

    method Reset()
      modifies this
      ensures View() == RESET
    {
      next, voiceOnset, silenceOnset, active := None, None, None, false;
    }

    /** `None` for an empty observation or one that does not follow the last. */
    method Observe(start: nat, end: nat, voiced: bool, ai: bool) returns (events: Option<seq<Event>>)
      modifies this
      ensures events.Some? <==> Follows(old(View()), start, end)
      ensures events.None? ==> View() == old(View())
      ensures events.Some? ==> Step(View(), events.value) == Feed(old(View()), start, end, voiced, ai, config)
    {
      if end <= start || (next.Some? && start != next.value) {
        return None;
      }
      next := Some(end);
      if !active {
        if !voiced {
          voiceOnset := None;
          return Some([]);
        }
        if voiceOnset.None? {
          voiceOnset := Some(start);
        }
        var threshold := if ai then config.bargeIn else config.idleStart;
        var confirmation := voiceOnset.value + threshold;
        if end < confirmation {
          return Some([]);
        }
        active := true;
        silenceOnset := None;
        return Some([Event(if ai then BargeInConfirmed else TurnStarted, confirmation, voiceOnset)]);
      }
      if voiced {
        silenceOnset := None;
        return Some([]);
      }
      if silenceOnset.None? {
        silenceOnset := Some(start);
      }
      var confirmation := silenceOnset.value + config.endSilence;
      if end < confirmation {
        return Some([]);
      }
      active, voiceOnset, silenceOnset := false, None, None;
      return Some([Event(TurnEnded, confirmation, None)]);
    }
  }
}
