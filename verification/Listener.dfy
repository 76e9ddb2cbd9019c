/**
 What the turn gate hears, in sample coordinates.

 The reference knows no buffers: it goes through the stream one window after the other and says which turns start
 and which utterances are captured. `TurnGate` is proved against it. `HearOn` says that it does not matter where the
 stream is cut, `HandledIsHeard` that feeding and pumping until nothing is pending misses no window, and
 `TurnsAreThePolicys` that the turns are those of the policy.
 */
module Listener {
  import opened Wrappers
  import opened Audio
  import Vad

  /** What is told of a turn; the audio of a capture is its range of samples. */
  datatype Notice =
    | Started(generation: nat, at: nat, onset: nat, bargeIn: bool)
    | Captured(generation: nat, start: nat, end: nat, lastVoiced: int, truncated: bool, maxReached: bool)

  datatype Setup = Setup(config: Vad.Config, frames: nat, preRoll: nat, maxUtterance: nat) {
    ghost predicate Valid() {
      config.Valid() && frames > 0 && maxUtterance > preRoll
    }
  }

  datatype Opened = Opened(start: nat, truncated: bool)

  /** Between two windows: where the next one begins, since when sound is remembered, and the utterance in progress. */
  datatype Ear = Ear(policy: Vad.Policy, at: nat, began: Option<nat>, open: Option<Opened>, generation: nat)

  datatype Told = Told(ear: Ear, notices: seq<Notice>)

  ghost predicate InStep(s: Setup, ear: Ear) {
    && s.Valid() && Vad.Consistent(ear.policy, s.config)
    && (ear.policy.next.Some? ==> ear.policy.next.value == ear.at)
    && (ear.policy.active <==> ear.open.Some?)
  }

  /** The utterance up to `end`, or its bound; the speech itself ended one silence earlier, unless it was cut. */
  function CaptureOf(s: Setup, generation: nat, open: Opened, end: nat, maxReached: bool): Notice {
    var to := Min(end, open.start + s.maxUtterance);
    Captured(generation, open.start, to, Max(open.start, to - if maxReached then 0 else s.config.endSilence),
             open.truncated, maxReached)
  }

  /** The utterance has grown to the end of the window: it goes on, or is captured because of its length. */
  function Grow(s: Setup, ear: Ear, open: Opened, notices: seq<Notice>): Told {
    if ear.at - open.start < s.maxUtterance then Told(ear.(open := Some(open)), notices)
    else
      Told(ear.(open := None, policy := Vad.RESET),
           notices + [CaptureOf(s, ear.generation, open, ear.at, true)])
  }

  /** A turn begins with what is remembered of the sound in front of its onset. */
  function Begin(s: Setup, ear: Ear, e: Vad.Event): Told
    requires e.onset.Some? && ear.began.Some?
  {
    var from := Max(Max(0, e.onset.value - s.preRoll), ear.began.value);
    Grow(s, ear, Opened(from, e.onset.value - from < s.preRoll),
         [Started(ear.generation, e.at, e.onset.value, e.kind == Vad.BargeInConfirmed)])
  }

  /** What the policy makes of the next window. */
  function Observed(s: Setup, ear: Ear, voiced: bool, ai: bool): Vad.Step
    requires InStep(s, ear)
  {
    Vad.Feed(ear.policy, ear.at, ear.at + s.frames, voiced, ai, s.config)
  }

  /** Behind the window, before anything is made of what the policy says. */
  function Behind(s: Setup, ear: Ear, voiced: bool, ai: bool): Ear
    requires InStep(s, ear)
  {
    ear.(policy := Observed(s, ear, voiced, ai).policy, at := ear.at + s.frames,
         began := if ear.began.Some? then ear.began else Some(ear.at))
  }

  /** No event: an utterance in progress grows. Otherwise the turn begins, or its utterance is captured. */
  function Act(s: Setup, ear: Ear, turns: seq<Vad.Event>): Told
    requires ear.began.Some? && (turns != [] && ear.open.None? ==> turns[0].onset.Some?)
  {
    if turns == [] then
      (if ear.open.None? then Told(ear, []) else Grow(s, ear, ear.open.value, []))
    else if ear.open.None? then
      Begin(s, ear, turns[0])
    else
      Told(ear.(open := None), [CaptureOf(s, ear.generation, ear.open.value, turns[0].at, false)])
  }

  /** One window, with the verdict on it. */
  function Hear(s: Setup, ear: Ear, voiced: bool, ai: bool): Told
    requires InStep(s, ear)
  {
    Act(s, Behind(s, ear, voiced, ai), Observed(s, ear, voiced, ai).events)
  }

  lemma BehindIs(s: Setup, ear: Ear, voiced: bool, ai: bool)
    requires InStep(s, ear)
    ensures var next, turns := Behind(s, ear, voiced, ai), Observed(s, ear, voiced, ai).events;
            && Vad.Consistent(next.policy, s.config) && next.policy.next == Some(next.at)
            && next.began.Some? && (next.policy.active <==> (turns == []) == ear.open.Some?)
  {
    Vad.FeedKeepsConsistent(ear.policy, ear.at, ear.at + s.frames, voiced, ai, s.config);
    Vad.FeedOutcome(ear.policy, ear.at, ear.at + s.frames, voiced, ai, s.config);
    hide Vad.Feed, Vad.Consistent;
  }

  lemma HearKeeps(s: Setup, ear: Ear, voiced: bool, ai: bool)
    requires InStep(s, ear)
    ensures var t := Hear(s, ear, voiced, ai);
            InStep(s, t.ear) && t.ear.at == ear.at + s.frames && t.ear.generation == ear.generation
  {
    BehindIs(s, ear, voiced, ai);
    ResetIsConsistent(s.config);
    hide Observed, Vad.Consistent, CaptureOf;
  }

  lemma ResetIsConsistent(c: Vad.Config)
    requires c.Valid()
    ensures Vad.Consistent(Vad.RESET, c)
  {
  }

  /** Before the first span nothing has been heard; a span that is not adjacent restarts the timeline. */
  function Placed(ear: Ear, upTo: Option<nat>, start: nat): Ear {
    match upTo
    case None => ear.(at := start)
    case Some(end) => if start == end then ear else Ear(Vad.RESET, start, None, None, ear.generation)
  }

  /** The detector's verdict on the window that begins at a sample. */
  type Verdicts = nat -> bool

  /** Windows up to the first with a notice, as far as sound is buffered. */
  function Pump(s: Setup, ear: Ear, upTo: nat, hears: Verdicts, ai: bool): (t: Told)
    requires InStep(s, ear)
    ensures InStep(s, t.ear) && (t.notices == [] ==> t.ear.at + s.frames > upTo)
    ensures t.ear.at >= ear.at && (t.ear.at == ear.at ==> t.notices == [])
    decreases upTo - ear.at
  {
    if ear.at + s.frames > upTo then Told(ear, [])
    else
      var t := Hear(s, ear, hears(ear.at), ai);
      HearKeeps(s, ear, hears(ear.at), ai);
      if t.notices != [] then t else Pump(s, t.ear, upTo, hears, ai)
  }

  lemma {:induction false} PumpFirst(s: Setup, ear: Ear, upTo: nat, hears: Verdicts, ai: bool)
    requires InStep(s, ear)
    ensures ear.at + s.frames > upTo ==> Pump(s, ear, upTo, hears, ai) == Told(ear, [])
    ensures ear.at + s.frames <= upTo ==>
              var t := Hear(s, ear, hears(ear.at), ai);
              InStep(s, t.ear) && Pump(s, ear, upTo, hears, ai)
                                  == if t.notices != [] then t else Pump(s, t.ear, upTo, hears, ai)
  {
    hide Hear;
    HearKeeps(s, ear, hears(ear.at), ai);
  }

  /** All complete windows of the stream up to a sample. */
  function HearTo(s: Setup, ear: Ear, upTo: nat, hears: Verdicts, ai: bool): (t: Told)
    requires InStep(s, ear)
    ensures InStep(s, t.ear) && t.ear.at + s.frames > upTo
    decreases upTo - ear.at
  {
    if ear.at + s.frames > upTo then Told(ear, [])
    else
      var t := Hear(s, ear, hears(ear.at), ai);
      HearKeeps(s, ear, hears(ear.at), ai);
      var rest := HearTo(s, t.ear, upTo, hears, ai);
      Told(rest.ear, t.notices + rest.notices)
  }

  /** Pump until nothing happens any more. */
  function Handle(s: Setup, ear: Ear, upTo: nat, hears: Verdicts, ai: bool): Told
    requires InStep(s, ear)
    decreases upTo - ear.at
  {
    var t := Pump(s, ear, upTo, hears, ai);
    if t.notices == [] || t.ear.at > upTo then t
    else
      var rest := Handle(s, t.ear, upTo, hears, ai);
      Told(rest.ear, t.notices + rest.notices)
  }

  /** A pump stops on the way and misses nothing. */
  lemma {:induction false} PumpIsHeard(s: Setup, ear: Ear, upTo: nat, hears: Verdicts, ai: bool)
    requires InStep(s, ear)
    ensures var t := Pump(s, ear, upTo, hears, ai);
            var rest := HearTo(s, t.ear, upTo, hears, ai);
            HearTo(s, ear, upTo, hears, ai) == Told(rest.ear, t.notices + rest.notices)
            && (t.notices == [] ==> HearTo(s, ear, upTo, hears, ai) == t)
            && (t.ear.at > ear.at ==> t.ear.at <= upTo)
    decreases upTo - ear.at
  {
    if ear.at + s.frames <= upTo {
      hide Hear;
      HearKeeps(s, ear, hears(ear.at), ai);
      var t := Hear(s, ear, hears(ear.at), ai);
      if t.notices == [] {
        PumpIsHeard(s, t.ear, upTo, hears, ai);
        assert [] + HearTo(s, t.ear, upTo, hears, ai).notices == HearTo(s, t.ear, upTo, hears, ai).notices;
      }
    }
  }

  /** Pumping until nothing happens any more hears every window of what is buffered. */
  lemma {:induction false} HandledIsHeard(s: Setup, ear: Ear, upTo: nat, hears: Verdicts, ai: bool)
    requires InStep(s, ear)
    ensures Handle(s, ear, upTo, hears, ai) == HearTo(s, ear, upTo, hears, ai)
    decreases upTo - ear.at
  {
    hide Hear;
    PumpIsHeard(s, ear, upTo, hears, ai);
    var t := Pump(s, ear, upTo, hears, ai);
    if t.notices != [] {
      HandledIsHeard(s, t.ear, upTo, hears, ai);
    }
  }

  /** First this, then what is heard from there on. */
  function Then(notices: seq<Notice>, t: Told): Told {
    Told(t.ear, notices + t.notices)
  }

  lemma ThenThen(a: seq<Notice>, b: seq<Notice>, t: Told)
    ensures Then(a, Then(b, t)) == Then(a + b, t)
    ensures Then([], t) == t
  {
    assert a + (b + t.notices) == (a + b) + t.notices;
    assert [] + t.notices == t.notices;
  }

  lemma {:induction false} HearFirst(s: Setup, ear: Ear, upTo: nat, hears: Verdicts, ai: bool)
    requires InStep(s, ear)
    ensures ear.at + s.frames > upTo ==> HearTo(s, ear, upTo, hears, ai) == Told(ear, [])
    ensures ear.at + s.frames <= upTo ==>
              var t := Hear(s, ear, hears(ear.at), ai);
              InStep(s, t.ear) && t.ear.at == ear.at + s.frames
              && HearTo(s, ear, upTo, hears, ai) == Then(t.notices, HearTo(s, t.ear, upTo, hears, ai))
  {
    hide Hear;
    HearKeeps(s, ear, hears(ear.at), ai);
  }

  /** Hearing up to a sample and then on is hearing all of it. */
  lemma {:induction false} HearOn(s: Setup, ear: Ear, upTo: nat, more: nat, hears: Verdicts, ai: bool)
    requires InStep(s, ear) && upTo <= more
    ensures var first := HearTo(s, ear, upTo, hears, ai);
            HearTo(s, ear, more, hears, ai) == Then(first.notices, HearTo(s, first.ear, more, hears, ai))
    decreases upTo - ear.at
  {
    assert s.frames > 0;
    hide Hear, HearTo, Then, InStep;
    HearFirst(s, ear, upTo, hears, ai);
    if ear.at + s.frames <= upTo {
      HearFirst(s, ear, more, hears, ai);
      var t := Hear(s, ear, hears(ear.at), ai);
      HearOn(s, t.ear, upTo, more, hears, ai);
      var first := HearTo(s, t.ear, upTo, hears, ai);
      ThenThen(t.notices, first.notices, HearTo(s, first.ear, more, hears, ai));
      ThenIs(t.notices, first);
    } else {
      ThenThen([], [], HearTo(s, ear, more, hears, ai));
    }
  }

  lemma ThenIs(a: seq<Notice>, t: Told)
    ensures Then(a, t).ear == t.ear && Then(a, t).notices == a + t.notices
  {
  }

  /** The stream arrives in pieces that end at these samples, each handled before the next. */
  function HandleAll(s: Setup, ear: Ear, ends: seq<nat>, hears: Verdicts, ai: bool): Told
    requires InStep(s, ear)
    decreases |ends|
  {
    if ends == [] then Told(ear, [])
    else
      var first := HearTo(s, ear, ends[0], hears, ai);
      var rest := HandleAll(s, first.ear, ends[1..], hears, ai);
      Told(rest.ear, first.notices + rest.notices)
  }

  /** However the stream is cut, the same turns start and the same utterances are captured. */
  lemma {:induction false} CutsDoNotMatter(s: Setup, ear: Ear, ends: seq<nat>, hears: Verdicts, ai: bool)
    requires InStep(s, ear) && ends != [] && forall i, j | 0 <= i < j < |ends| :: ends[i] <= ends[j]
    ensures HandleAll(s, ear, ends, hears, ai) == HearTo(s, ear, ends[|ends| - 1], hears, ai)
    decreases |ends|
  {
    hide HearTo;
    var first := HearTo(s, ear, ends[0], hears, ai);
    if |ends| == 1 {
      assert ends[1..] == [];
      assert first.notices + [] == first.notices;
    } else {
      CutsDoNotMatter(s, first.ear, ends[1..], hears, ai);
      HearOn(s, ear, ends[0], ends[|ends| - 1], hears, ai);
    }
  }

  // ---------------------------------------------------------------------------------------------
  // What is done to the gate

  /** A span is fed, the buffer is pumped, a barge-in carries the utterance over, a cancellation resets everything. */
  datatype Move =
    | Feed(start: nat, end: nat, ai: bool)
    | PumpOn(ai: bool)
    | CarryOver(generation: nat)
    | Reset(generation: nat)

  datatype Sight = Sight(ear: Ear, upTo: Option<nat>)

  datatype Made = Made(sight: Sight, notices: seq<Notice>)

  /** Between moves; before the first span nothing has been heard. */
  ghost predicate Fit(s: Setup, v: Sight) {
    InStep(s, v.ear) && (v.upTo.None? ==> v.ear.policy == Vad.RESET && v.ear.began.None?)
  }

  function Until(upTo: Option<nat>): nat {
    if upTo.Some? then upTo.value else 0
  }

  lemma PlacedInStep(s: Setup, v: Sight, start: nat)
    requires Fit(s, v)
    ensures InStep(s, Placed(v.ear, v.upTo, start))
  {
  }

  function Make(s: Setup, v: Sight, m: Move, hears: Verdicts): Made
    requires Fit(s, v)
  {
    match m
    case Feed(start, end, ai) =>
      PlacedInStep(s, v, start);
      var t := Pump(s, Placed(v.ear, v.upTo, start), end, hears, ai);
      Made(Sight(t.ear, Some(end)), t.notices)
    case PumpOn(ai) =>
      var t := Pump(s, v.ear, Until(v.upTo), hears, ai);
      Made(Sight(t.ear, v.upTo), t.notices)
    case CarryOver(generation) =>
      Made(v.(ear := v.ear.(began := None, generation := generation)), [])
    case Reset(generation) =>
      Made(Sight(Ear(Vad.RESET, 0, None, None, generation), None), [])
  }

  lemma {:induction false} NoSound(s: Setup, v: Sight, hears: Verdicts, ai: bool)
    requires Fit(s, v) && v.upTo.None?
    ensures Pump(s, v.ear, 0, hears, ai) == Told(v.ear, [])
  {
  }

  lemma MakeFit(s: Setup, v: Sight, m: Move, hears: Verdicts)
    requires Fit(s, v)
    ensures Fit(s, Make(s, v, m, hears).sight)
  {
    hide Pump;
    if m.PumpOn? && v.upTo.None? {
      NoSound(s, v, hears, m.ai);
    }
  }

  function MakeAll(s: Setup, v: Sight, moves: seq<Move>, hears: Verdicts): (made: Made)
    requires Fit(s, v)
    ensures Fit(s, made.sight)
  {
    if moves == [] then Made(v, [])
    else
      var before := MakeAll(s, v, moves[..|moves| - 1], hears);
      var last := Make(s, before.sight, moves[|moves| - 1], hears);
      MakeFit(s, before.sight, moves[|moves| - 1], hears);
      Made(last.sight, before.notices + last.notices)
  }

  lemma {:induction false} MakeMore(s: Setup, v: Sight, moves: seq<Move>, more: seq<Move>, hears: Verdicts)
    requires Fit(s, v)
    ensures var first := MakeAll(s, v, moves, hears);
            var rest := MakeAll(s, first.sight, more, hears);
            MakeAll(s, v, moves + more, hears) == Made(rest.sight, first.notices + rest.notices)
    decreases |more|
  {
    hide Make, Fit;
    var first := MakeAll(s, v, moves, hears);
    if more == [] {
      assert moves + more == moves && first.notices + [] == first.notices;
      assert MakeAll(s, first.sight, [], hears) == Made(first.sight, []);
    } else {
      var init, last := more[..|more| - 1], more[|more| - 1];
      assert (moves + more)[..|moves + more| - 1] == moves + init && (moves + more)[|moves + more| - 1] == last;
      MakeMore(s, v, moves, init, hears);
      var before := MakeAll(s, first.sight, init, hears);
      var made := Make(s, before.sight, last, hears);
      assert first.notices + (before.notices + made.notices) == (first.notices + before.notices) + made.notices;
    }
  }

  lemma {:induction false} MakeOne(s: Setup, v: Sight, m: Move, hears: Verdicts)
    requires Fit(s, v)
    ensures MakeAll(s, v, [m], hears) == Make(s, v, m, hears)
  {
    hide Make;
    assert [m][..0] == [];
    assert [] + Make(s, v, m, hears).notices == Make(s, v, m, hears).notices;
  }

  /** Feeding and then only pumping, with the same flag, until nothing is pending. */
  ghost predicate Undisturbed(s: Setup, v: Sight, moves: seq<Move>, hears: Verdicts)
    requires Fit(s, v)
  {
    && moves != [] && moves[0].Feed?
    && (forall i | 0 < i < |moves| :: moves[i] == PumpOn(moves[0].ai))
    && MakeAll(s, v, moves, hears).sight.ear.at + s.frames > moves[0].end
  }

  /** After any number of pumps, hearing on gives what hearing from the start would have given. */
  lemma {:induction false} PumpsAreHeard(s: Setup, v: Sight, moves: seq<Move>, hears: Verdicts)
    requires Fit(s, v) && moves != [] && moves[0].Feed? && forall i | 0 < i < |moves| :: moves[i] == PumpOn(moves[0].ai)
    requires InStep(s, Placed(v.ear, v.upTo, moves[0].start))
    ensures var Feed(start, end, ai) := moves[0];
            var made := MakeAll(s, v, moves, hears);
            && made.sight.upTo == Some(end)
            && HearTo(s, Placed(v.ear, v.upTo, start), end, hears, ai)
               == Then(made.notices, HearTo(s, made.sight.ear, end, hears, ai))
    decreases |moves|
  {
    hide Pump, HearTo, InStep, Placed;
    var Feed(start, end, ai) := moves[0];
    var init := moves[..|moves| - 1];
    if init == [] {
      assert MakeAll(s, v, [], hears) == Made(v, []);
      PumpIsHeard(s, Placed(v.ear, v.upTo, start), end, hears, ai);
      var t := Pump(s, Placed(v.ear, v.upTo, start), end, hears, ai);
      assert [] + t.notices == t.notices;
    } else {
      PumpsAreHeard(s, v, init, hears);
      var before := MakeAll(s, v, init, hears);
      PumpIsHeard(s, before.sight.ear, end, hears, ai);
      var t := Pump(s, before.sight.ear, end, hears, ai);
      ThenThen(before.notices, t.notices, HearTo(s, t.ear, end, hears, ai));
    }
  }

  /** Then every complete window of the span has been heard, and nothing else. */
  lemma {:induction false} UndisturbedIsHeard(s: Setup, v: Sight, moves: seq<Move>, hears: Verdicts)
    requires Fit(s, v) && Undisturbed(s, v, moves, hears)
    ensures var Feed(start, end, ai) := moves[0];
            var made := MakeAll(s, v, moves, hears);
            InStep(s, Placed(v.ear, v.upTo, start))
            && Told(made.sight.ear, made.notices) == HearTo(s, Placed(v.ear, v.upTo, start), end, hears, ai)
  {
    PlacedInStep(s, v, moves[0].start);
    PumpsAreHeard(s, v, moves, hears);
    hide MakeAll, Pump, Placed;
    var made := MakeAll(s, v, moves, hears);
    HearFirst(s, made.sight.ear, moves[0].end, hears, moves[0].ai);
    assert made.notices + [] == made.notices;
  }

  // ---------------------------------------------------------------------------------------------
  // The turns are the policy's

  /** The policy on the consecutive windows up to a sample. */
  function PolicyTo(s: Setup, p: Vad.Policy, at: nat, upTo: nat, hears: Verdicts, ai: bool): Vad.Step
    requires s.frames > 0 && (p.next.Some? ==> p.next.value == at)
    decreases upTo - at
  {
    if at + s.frames > upTo then Vad.Step(p, [])
    else
      var first := Vad.Feed(p, at, at + s.frames, hears(at), ai, s.config);
      var rest := PolicyTo(s, first.policy, at + s.frames, upTo, hears, ai);
      Vad.Step(rest.policy, first.events + rest.events)
  }

  /** A start is told as it is; an end is told as the utterance captured up to it, or up to its bound. */
  predicate Tells(s: Setup, n: Notice, e: Vad.Event) {
    match e.kind
    case TurnEnded => n.Captured? && !n.maxReached && n.end == Min(e.at, n.start + s.maxUtterance)
    case _ => n.Started? && n.at == e.at && e.onset == Some(n.onset) && (n.bargeIn <==> e.kind.BargeInConfirmed?)
  }

  ghost predicate AllTell(s: Setup, notices: seq<Notice>, events: seq<Vad.Event>) {
    |notices| == |events| && forall i | 0 <= i < |events| :: Tells(s, notices[i], events[i])
  }

  ghost predicate NoneBounded(notices: seq<Notice>) {
    forall n | n in notices :: !(n.Captured? && n.maxReached)
  }

  lemma HearTells(s: Setup, ear: Ear, voiced: bool, ai: bool)
    requires InStep(s, ear)
    requires NoneBounded(Hear(s, ear, voiced, ai).notices)
    ensures var step := Vad.Feed(ear.policy, ear.at, ear.at + s.frames, voiced, ai, s.config);
            AllTell(s, Hear(s, ear, voiced, ai).notices, step.events)
            && Hear(s, ear, voiced, ai).ear.policy == step.policy
  {
    Vad.FeedOutcome(ear.policy, ear.at, ear.at + s.frames, voiced, ai, s.config);
    var t := Hear(s, ear, voiced, ai);
    if t.notices != [] {
      assert t.notices[|t.notices| - 1] in t.notices;
    }
  }

  lemma TellAppend(s: Setup, a: seq<Notice>, b: seq<Notice>, x: seq<Vad.Event>, y: seq<Vad.Event>)
    requires AllTell(s, a, x) && AllTell(s, b, y)
    ensures AllTell(s, a + b, x + y)
  {
    hide Tells;
  }

  lemma NoneBoundedParts(a: seq<Notice>, b: seq<Notice>)
    requires NoneBounded(a + b)
    ensures NoneBounded(a) && NoneBounded(b)
  {
    assert forall n | n in a :: n in a + b;
    assert forall n | n in b :: n in a + b;
  }

  /** As long as no utterance reaches its bound, the turns told are those of the policy, each of them. */
  lemma {:induction false} TurnsAreThePolicys(s: Setup, ear: Ear, upTo: nat, hears: Verdicts, ai: bool)
    requires InStep(s, ear) && NoneBounded(HearTo(s, ear, upTo, hears, ai).notices)
    ensures var heard, step := HearTo(s, ear, upTo, hears, ai), PolicyTo(s, ear.policy, ear.at, upTo, hears, ai);
            AllTell(s, heard.notices, step.events) && heard.ear.policy == step.policy
    decreases upTo - ear.at
  {
    if ear.at + s.frames <= upTo {
      HearKeeps(s, ear, hears(ear.at), ai);
      hide Hear, Vad.Feed, AllTell, NoneBounded;
      var t := Hear(s, ear, hears(ear.at), ai);
      var rest := HearTo(s, t.ear, upTo, hears, ai);
      NoneBoundedParts(t.notices, rest.notices);
      HearTells(s, ear, hears(ear.at), ai);
      TurnsAreThePolicys(s, t.ear, upTo, hears, ai);
      TellAppend(s, t.notices, rest.notices,
                 Vad.Feed(ear.policy, ear.at, ear.at + s.frames, hears(ear.at), ai, s.config).events,
                 PolicyTo(s, t.ear.policy, t.ear.at, upTo, hears, ai).events);
    }
  }
}
