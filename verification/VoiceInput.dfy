/** From the device to captured utterances: the transport, the gate, and the session's audio loop around them. */
module VoiceInput {
  import opened Bytes
  import opened Wrappers
  import opened Audio
  import opened TurnGate
  import Listener
  import Vad
  import PreRoll
  import Transport

  /** What a longer device stream leaves as it was. */
  lemma ValidGrows(gate: VoiceTurnGate, device: seq<byte>, longer: seq<byte>)
    requires gate.Valid(device) && device <= longer
    ensures gate.Valid(longer)
  {
    hide PreRoll.Pcm, PreRoll.Contiguous;
    if gate.windowStart.Some? {
      RegionGrows(device, longer, gate.windowStart.value, gate.windowStart.value + |gate.window| / 2);
    }
    if gate.preRoll.spans != [] {
      RegionGrows(device, longer, gate.preRoll.Start(), gate.preRoll.End());
    }
    if gate.utteranceStart.Some? {
      RegionGrows(device, longer, gate.utteranceStart.value, gate.gap);
      RegionGrows(device, longer, gate.gap + gate.skipped, gate.utteranceEnd);
    }
  }

  /** Utterances handed on, each exactly what the device delivered. */
  ghost predicate AllExact(utterances: seq<GateEvent>, device: seq<byte>, maxUtterance: nat) {
    forall u | u in utterances ::
      u.UtteranceCaptured? && u.audio.Exact(device) && u.audio.start < u.audio.end <= u.audio.start + maxUtterance
  }

  /** Where the reference stands, and up to where sound is buffered. */
  ghost function SightOf(gate: VoiceTurnGate): Listener.Sight
    reads gate, gate.policy, gate.preRoll
  {
    Listener.Sight(gate.Ear(), gate.UpTo())
  }

  /** The captures among the notices. */
  function Captures(notices: seq<Listener.Notice>): seq<Listener.Notice> {
    if notices == [] then []
    else
      var last := notices[|notices| - 1];
      Captures(notices[..|notices| - 1]) + if last.Captured? then [last] else []
  }

  lemma {:induction false} CapturesAppend(a: seq<Listener.Notice>, b: seq<Listener.Notice>)
    ensures Captures(a + b) == Captures(a) + Captures(b)
  {
    if b == [] {
      assert a + b == a;
    } else {
      var init, last := b[..|b| - 1], b[|b| - 1];
      assert a + b == (a + init) + [last];
      assert ((a + init) + [last])[..|a + init|] == a + init;
      CapturesAppend(a, init);
    }
  }

  /** Nothing but carrying over and resetting. */
  predicate Interrupts(moves: seq<Listener.Move>) {
    forall m | m in moves :: m.CarryOver? || m.Reset?
  }

  /**
   One event. A turn that starts while the assistant is active is a barge-in, which carries the utterance over into
   a newer generation. What happens while this is awaited is arbitrary: the assistant starts or stops, and other
   cancellations reset the gate.
   */
  method HandleEvent(gate: VoiceTurnGate, event: GateEvent, ai: bool, ghost device: seq<byte>,
                     ghost hears: Listener.Verdicts)
    returns (active: bool, ghost moves: seq<Listener.Move>)
    requires gate.Valid(device) && gate.Whole() && gate.CarrySafe() && Listener.Fit(gate.Setup(), SightOf(gate))
    modifies gate, gate.policy, gate.preRoll
    ensures gate.Valid(device) && gate.Whole() && gate.CarrySafe() && gate.generation >= old(gate.generation)
    ensures |gate.window| <= |old(gate.window)|
    ensures Interrupts(moves) && (ai && event.TurnStarted? ==> moves != [] && moves[0].CarryOver?)
    ensures SightOf(gate) == Listener.MakeAll(gate.Setup(), old(SightOf(gate)), moves, hears).sight
  {
    hide PreRoll.Pcm, PreRoll.Contiguous, Spliced, Region, Vad.Consistent, Listener.Pump, Listener.MakeAll;
    active, moves := *, [];
    ghost var s, was := gate.Setup(), SightOf(gate);
    NothingMade(s, was, hears);
    if event.TurnStarted? && ai {
      var next: nat :| next >= gate.generation;
      var carried := gate.CarryOverGeneration(next, device);
      moves := [Listener.CarryOver(next)];
      Listener.MakeOne(s, was, Listener.CarryOver(next), hears);
    }
    if * {
      var later: nat :| later >= gate.generation;
      ghost var now := SightOf(gate);
      var reset := gate.ResetGeneration(later, device);
      Listener.MakeMore(s, was, moves, [Listener.Reset(later)], hears);
      Listener.MakeOne(s, now, Listener.Reset(later), hears);
      moves := moves + [Listener.Reset(later)];
    }
  }

  lemma {:induction false} NothingMade(s: Listener.Setup, v: Listener.Sight, hears: Listener.Verdicts)
    requires Listener.Fit(s, v)
    ensures Listener.MakeAll(s, v, [], hears) == Listener.Made(v, [])
  {
  }

  /** Act on the events of one pump, in order. */
  method HandleEvents(gate: VoiceTurnGate, events: seq<GateEvent>, ai: bool, ghost device: seq<byte>,
                      ghost hears: Listener.Verdicts)
    returns (utterances: seq<GateEvent>, active: bool, ghost moves: seq<Listener.Move>)
    requires gate.Valid(device) && gate.Whole() && gate.CarrySafe() && gate.AllSound(events, device)
    requires Listener.Fit(gate.Setup(), SightOf(gate))
    modifies gate, gate.policy, gate.preRoll
    ensures gate.Valid(device) && gate.Whole() && gate.CarrySafe() && gate.generation >= old(gate.generation)
    ensures |gate.window| <= |old(gate.window)|
    ensures AllExact(utterances, device, gate.maxUtterance)
    ensures NoticesOf(utterances) == Captures(NoticesOf(events))
    ensures Interrupts(moves) && (ai && events != [] && events[0].TurnStarted? ==> moves != [] && moves[0].CarryOver?)
    ensures SightOf(gate) == Listener.MakeAll(gate.Setup(), old(SightOf(gate)), moves, hears).sight
  {
    hide PreRoll.Pcm, PreRoll.Contiguous, Spliced, Region, Vad.Consistent, Listener.Pump, Listener.MakeAll, Captures,
         VoiceTurnGate.Ear, VoiceTurnGate.UpTo, VoiceTurnGate.Valid;
    SoundIsExact(gate, events, device);
    ghost var s, was := gate.Setup(), SightOf(gate);
    NothingMade(s, was, hears);
    NoCaptures();
    utterances, active, moves := [], ai, [];
    for i := 0 to |events|
      invariant gate.Valid(device) && gate.Whole() && gate.CarrySafe() && gate.generation >= old(gate.generation)
      invariant |gate.window| <= |old(gate.window)|
      invariant AllExact(utterances, device, gate.maxUtterance)
      invariant NoticesOf(utterances) == Captures(NoticesOf(events[..i]))
      invariant Interrupts(moves) && (i == 0 ==> active == ai && moves == [])
      invariant i > 0 && ai && events[0].TurnStarted? ==> moves != [] && moves[0].CarryOver?
      invariant SightOf(gate) == Listener.MakeAll(s, was, moves, hears).sight
    {
      OneMoreEvent(events, i, utterances);
      ghost var now, more := SightOf(gate), [];
      active, more := HandleEvent(gate, events[i], active, device, hears);
      Listener.MakeMore(s, was, moves, more, hears);
      moves := moves + more;
      if events[i].UtteranceCaptured? {
        utterances := utterances + [events[i]];
      }
    }
    assert events[..|events|] == events;
  }

  lemma NoCaptures()
    ensures NoticesOf([]) == [] && Captures([]) == []
  {
  }

  lemma OneMoreEvent(events: seq<GateEvent>, i: nat, utterances: seq<GateEvent>)
    requires i < |events| && NoticesOf(utterances) == Captures(NoticesOf(events[..i]))
    ensures Captures(NoticesOf(events[..i + 1]))
            == if events[i].TurnStarted? then NoticesOf(utterances) else NoticesOf(utterances + [events[i]])
  {
    assert NoticesOf(events[..i + 1])[..i] == NoticesOf(events[..i]);
    assert NoticesOf(utterances + [events[i]]) == NoticesOf(utterances) + [NoticeOf(events[i])];
  }

  lemma SoundIsExact(gate: VoiceTurnGate, events: seq<GateEvent>, device: seq<byte>)
    requires gate.AllSound(events, device)
    ensures forall e | e in events && e.UtteranceCaptured? :: AllExact([e], device, gate.maxUtterance)
  {
    forall e | e in events && e.UtteranceCaptured?
      ensures AllExact([e], device, gate.maxUtterance)
    {
      assert gate.Sound(e, device);
    }
  }

  /** Interruptions tell nothing. */
  lemma {:induction false} InterruptsAreSilent(s: Listener.Setup, v: Listener.Sight, moves: seq<Listener.Move>,
                                               hears: Listener.Verdicts)
    requires Listener.Fit(s, v) && Interrupts(moves)
    ensures Listener.MakeAll(s, v, moves, hears).notices == []
  {
    hide Listener.Pump, Listener.Fit;
    if moves != [] {
      assert moves[|moves| - 1] in moves;
      InterruptsAreSilent(s, v, moves[..|moves| - 1], hears);
    }
  }

  /** The moves lead from one sight to the other, and tell these captures. */
  ghost predicate Leads(s: Listener.Setup, v: Listener.Sight, moves: seq<Listener.Move>, hears: Listener.Verdicts,
                        w: Listener.Sight, captures: seq<Listener.Notice>)
  {
    && Listener.Fit(s, v)
    && Listener.MakeAll(s, v, moves, hears).sight == w
    && Captures(Listener.MakeAll(s, v, moves, hears).notices) == captures
  }

  lemma {:induction false} LeadsOn(s: Listener.Setup, v: Listener.Sight, moves: seq<Listener.Move>,
                                   hears: Listener.Verdicts, w: Listener.Sight, captures: seq<Listener.Notice>,
                                   more: seq<Listener.Move>)
    requires Leads(s, v, moves, hears, w, captures)
    ensures Listener.Fit(s, w)
    ensures var rest := Listener.MakeAll(s, w, more, hears);
            Leads(s, v, moves + more, hears, rest.sight, captures + Captures(rest.notices))
  {
    hide Listener.MakeAll, Captures;
    var first := Listener.MakeAll(s, v, moves, hears);
    Listener.MakeMore(s, v, moves, more, hears);
    CapturesAppend(first.notices, Listener.MakeAll(s, w, more, hears).notices);
  }

  lemma NothingLeads(s: Listener.Setup, v: Listener.Sight, hears: Listener.Verdicts)
    requires Listener.Fit(s, v)
    ensures Leads(s, v, [], hears, v, NoticesOf([]) + Captures(NoticesOf([])))
  {
  }

  lemma {:induction false} FeedLeads(s: Listener.Setup, v: Listener.Sight, span: AudioSpan, ai: bool,
                                     hears: Listener.Verdicts, w: Listener.Sight, notices: seq<Listener.Notice>)
    requires Listener.Fit(s, v) && Listener.InStep(s, Listener.Placed(v.ear, v.upTo, span.start))
    requires Listener.Pump(s, Listener.Placed(v.ear, v.upTo, span.start), span.end, hears, ai)
             == Listener.Told(w.ear, notices)
    requires w.upTo == Some(span.end)
    ensures Leads(s, v, [Listener.Feed(span.start, span.end, ai)], hears, w, NoticesOf([]) + Captures(notices))
  {
    hide Listener.Pump, Listener.MakeAll, Listener.Placed, Listener.InStep, Captures;
    Listener.MakeOne(s, v, Listener.Feed(span.start, span.end, ai), hears);
    assert NoticesOf([]) + Captures(notices) == Captures(notices);
  }

  lemma StandsFit(gate: VoiceTurnGate, device: seq<byte>)
    requires gate.Valid(device)
    ensures Listener.Fit(gate.Setup(), SightOf(gate))
  {
    gate.EarInStep(device);
    hide PreRoll.Pcm, PreRoll.Contiguous, Spliced, Region;
  }

  /** A span is fed first, and never again; nothing is pending in the end. */
  predicate FedOnce(moves: seq<Listener.Move>, span: AudioSpan, ai: bool) {
    && moves != [] && moves[0] == Listener.Feed(span.start, span.end, ai)
    && forall i | 0 < i < |moves| :: !moves[i].Feed?
  }

  /** These moves, made from where the gate stood, tell this. */
  twostate predicate Moved(gate: VoiceTurnGate, moves: seq<Listener.Move>, hears: Listener.Verdicts,
                           notices: seq<Listener.Notice>)
    reads gate, gate.policy, gate.preRoll
  {
    var s, was := gate.Setup(), old(SightOf(gate));
    && Listener.Fit(s, was)
    && Listener.MakeAll(s, was, moves, hears) == Listener.Made(SightOf(gate), notices)
  }

  /** Act on the events, and pump if a window is buffered. */
  method ActAndPump(gate: VoiceTurnGate, events: seq<GateEvent>, ai: bool, hears: Listener.Verdicts,
                    ghost device: seq<byte>)
    returns (utterances: seq<GateEvent>, active: bool, next: seq<GateEvent>, ghost moves: seq<Listener.Move>)
    requires gate.Valid(device) && gate.Whole() && gate.CarrySafe() && gate.AllSound(events, device)
    modifies gate, gate.policy, gate.preRoll
    ensures gate.Valid(device) && gate.Whole() && gate.generation >= old(gate.generation)
    ensures next != [] ==> gate.CarrySafe() && gate.AllSound(next, device) && |gate.window| < |old(gate.window)|
    ensures next == [] ==> |gate.window| < 2 * gate.frames
    ensures |gate.window| <= |old(gate.window)|
    ensures AllExact(utterances, device, gate.maxUtterance)
    ensures NoticesOf(utterances) == Captures(NoticesOf(events))
    ensures forall m | m in moves :: !m.Feed?
    ensures ai && events != [] && events[0].TurnStarted? ==> moves != [] && moves[0].CarryOver?
    ensures Moved(gate, moves, hears, NoticesOf(next))
  {
    hide PreRoll.Pcm, PreRoll.Contiguous, Spliced, Region, Vad.Consistent, VoiceTurnGate.Late, Listener.Pump,
         Listener.MakeAll, Captures, VoiceTurnGate.Ear, VoiceTurnGate.UpTo, VoiceTurnGate.Valid, Listener.InStep,
         Listener.Fit;
    StandsFit(gate, device);
    ghost var s, was := gate.Setup(), SightOf(gate);
    utterances, active, moves := HandleEvents(gate, events, ai, device, hears);
    InterruptsAreSilent(s, was, moves, hears);
    NoCaptures();
    next := [];
    if |gate.window| >= 2 * gate.frames {
      NotLate(gate, active);
      StandsFit(gate, device);
      ghost var now := SightOf(gate);
      var more := gate.Pump(active, hears, device);
      next := more.value;
      PumpMoves(s, now, active, hears, SightOf(gate), NoticesOf(next));
      Listener.MakeMore(s, was, moves, [Listener.PumpOn(active)], hears);
      moves := moves + [Listener.PumpOn(active)];
      assert [] + NoticesOf(next) == NoticesOf(next);
    }
  }

  lemma {:induction false} PumpMoves(s: Listener.Setup, v: Listener.Sight, ai: bool, hears: Listener.Verdicts,
                                     w: Listener.Sight, notices: seq<Listener.Notice>)
    requires Listener.Fit(s, v) && w.upTo == v.upTo
    requires Listener.Pump(s, v.ear, Listener.Until(v.upTo), hears, ai) == Listener.Told(w.ear, notices)
    ensures Listener.MakeAll(s, v, [Listener.PumpOn(ai)], hears) == Listener.Made(w, notices)
  {
    hide Listener.Pump;
    Listener.MakeOne(s, v, Listener.PumpOn(ai), hears);
  }

  /** The captures so far, and those still pending. */
  lemma {:induction false} LeadsFurther(s: Listener.Setup, v: Listener.Sight, moves: seq<Listener.Move>,
                                        hears: Listener.Verdicts, w: Listener.Sight, utterances: seq<GateEvent>,
                                        pending: seq<GateEvent>, captured: seq<GateEvent>, more: seq<Listener.Move>,
                                        x: Listener.Sight, next: seq<GateEvent>)
    requires Leads(s, v, moves, hears, w, NoticesOf(utterances) + Captures(NoticesOf(pending)))
    requires NoticesOf(captured) == Captures(NoticesOf(pending))
    requires Listener.Fit(s, w) && Listener.MakeAll(s, w, more, hears) == Listener.Made(x, NoticesOf(next))
    ensures Leads(s, v, moves + more, hears, x, NoticesOf(utterances + captured) + Captures(NoticesOf(next)))
  {
    hide Leads, Captures, Listener.MakeAll, Listener.Fit;
    LeadsOn(s, v, moves, hears, w, NoticesOf(utterances) + Captures(NoticesOf(pending)), more);
    assert NoticesOf(utterances) + NoticesOf(captured) == NoticesOf(utterances + captured);
  }

  /**
   `handle_audio`: feed one span, act on every event in order, and pump while windows are buffered. As long
   as no confirmation is late when the span arrives, nothing in the loop can raise, every utterance is exact,
   and the utterances handed on are those the reference captures, whatever is done to the gate in the meantime.
   */
  method HandleAudio(gate: VoiceTurnGate, span: AudioSpan, ai: bool, hears: Listener.Verdicts, ghost device: seq<byte>)
    returns (utterances: seq<GateEvent>, ghost moves: seq<Listener.Move>)
    requires gate.Valid(device) && gate.Whole() && !gate.Late(ai) && span.Exact(device)
    modifies gate, gate.policy, gate.preRoll
    ensures gate.Valid(device) && gate.Whole() && gate.generation >= old(gate.generation)
    ensures AllExact(utterances, device, gate.maxUtterance)
    ensures Leads(gate.Setup(), old(SightOf(gate)), moves, hears, SightOf(gate), NoticesOf(utterances))
    ensures if old(gate.Taken(span, gate.carried)) then FedOnce(moves, span, ai) && |gate.window| < 2 * gate.frames
            else moves == []
  {
    hide PreRoll.Pcm, PreRoll.Contiguous, Spliced, Region, Vad.Consistent, VoiceTurnGate.Late, Listener.Pump,
         Listener.MakeAll, Captures, Leads, VoiceTurnGate.Ear, VoiceTurnGate.UpTo, VoiceTurnGate.Valid, AllExact,
         Listener.InStep, Listener.Placed, Listener.Fit, VoiceTurnGate.CarrySafe;
    StandsFit(gate, device);
    NoCaptures();
    ghost var was, s, taken := SightOf(gate), gate.Setup(), gate.Taken(span, gate.carried);
    var active, pending := ai, [];
    utterances, moves, pending := FeedFirst(gate, span, ai, hears, device);
    while pending != []
      invariant gate.Valid(device) && gate.Whole() && gate.generation >= old(gate.generation)
      invariant pending != [] ==> taken && gate.CarrySafe() && gate.AllSound(pending, device)
      invariant pending == [] && taken ==> |gate.window| < 2 * gate.frames
      invariant AllExact(utterances, device, gate.maxUtterance)
      invariant if taken then FedOnce(moves, span, ai) else moves == []
      invariant Leads(s, was, moves, hears, SightOf(gate), NoticesOf(utterances) + Captures(NoticesOf(pending)))
      decreases |gate.window|, |pending|
    {
      ghost var now := SightOf(gate);
      var captured, next; ghost var more;
      captured, active, next, more := ActAndPump(gate, pending, active, hears, device);
      LeadsFurther(s, was, moves, hears, now, utterances, pending, captured, more, SightOf(gate), next);
      ExactOn(utterances, captured, device, gate.maxUtterance);
      utterances, moves, pending := utterances + captured, moves + more, next;
    }
    assert NoticesOf(utterances) + [] == NoticesOf(utterances);
  }

  lemma NoneExact(device: seq<byte>, maxUtterance: nat)
    ensures AllExact([], device, maxUtterance)
  {
  }

  lemma ExactOn(a: seq<GateEvent>, b: seq<GateEvent>, device: seq<byte>, maxUtterance: nat)
    requires AllExact(a, device, maxUtterance) && AllExact(b, device, maxUtterance)
    ensures AllExact(a + b, device, maxUtterance)
  {
  }

  /** The span is fed. */
  method FeedFirst(gate: VoiceTurnGate, span: AudioSpan, ai: bool, hears: Listener.Verdicts, ghost device: seq<byte>)
    returns (utterances: seq<GateEvent>, ghost moves: seq<Listener.Move>, pending: seq<GateEvent>)
    requires gate.Valid(device) && gate.Whole() && !gate.Late(ai) && span.Exact(device)
    modifies gate, gate.policy, gate.preRoll
    ensures gate.Valid(device) && gate.Whole() && gate.generation == old(gate.generation)
    ensures utterances == [] && AllExact(utterances, device, gate.maxUtterance)
    ensures pending != [] ==> gate.CarrySafe() && gate.AllSound(pending, device) && old(gate.Taken(span, gate.carried))
    ensures if old(gate.Taken(span, gate.carried)) then moves == [Listener.Feed(span.start, span.end, ai)]
            else moves == []
    ensures pending == [] && moves != [] ==> |gate.window| < 2 * gate.frames
    ensures Leads(gate.Setup(), old(SightOf(gate)), moves, hears, SightOf(gate),
                  NoticesOf(utterances) + Captures(NoticesOf(pending)))
  {
    hide PreRoll.Pcm, PreRoll.Contiguous, Spliced, Region, Vad.Consistent, VoiceTurnGate.Late, Listener.Pump,
         Listener.MakeAll, Captures, Leads, VoiceTurnGate.Ear, VoiceTurnGate.UpTo, VoiceTurnGate.Valid,
         Listener.InStep, Listener.Placed, Listener.Fit, VoiceTurnGate.CarrySafe;
    StandsFit(gate, device);
    NoCaptures();
    ghost var was, s, taken := SightOf(gate), gate.Setup(), gate.Taken(span, gate.carried);
    utterances, moves := [], [];
    var events := gate.Feed(span, ai, hears, device);
    pending := events.value;
    if taken {
      moves := [Listener.Feed(span.start, span.end, ai)];
      FeedLeads(s, was, span, ai, hears, SightOf(gate), NoticesOf(pending));
    } else {
      NothingLeads(s, was, hears);
    }
  }

  /** After any event no run is pending, so the next confirmation cannot be late, whatever the assistant does. */
  lemma NotLate(gate: VoiceTurnGate, ai: bool)
    requires gate.CarrySafe()
    ensures !gate.Late(ai)
  {
  }

  /** One step of the reader: take the oldest span off the transport and handle it. */
  method ReadAndHandle(transport: Transport.LocalAudioTransport, gate: VoiceTurnGate, ai: bool,
                       hears: Listener.Verdicts)
    returns (utterances: seq<GateEvent>, ghost moves: seq<Listener.Move>)
    requires transport.Valid() && gate.Valid(transport.device) && gate.Whole() && !gate.Late(ai)
    modifies transport`queue, gate, gate.policy, gate.preRoll
    ensures transport.Valid() && gate.Valid(transport.device) && gate.Whole()
    ensures AllExact(utterances, transport.device, gate.maxUtterance)
    ensures transport.queue == if old(transport.queue) == [] then [] else old(transport.queue)[1..]
    ensures Leads(gate.Setup(), old(SightOf(gate)), moves, hears, SightOf(gate), NoticesOf(utterances))
    ensures if old(transport.queue) != [] && old(gate.Taken(transport.queue[0], gate.carried))
            then FedOnce(moves, old(transport.queue)[0], ai) && |gate.window| < 2 * gate.frames
            else moves == []
  {
    hide PreRoll.Pcm, PreRoll.Contiguous, Spliced, Region, Vad.Consistent, VoiceTurnGate.Late, Leads, Captures,
         VoiceTurnGate.Ear, VoiceTurnGate.UpTo, VoiceTurnGate.Valid, AllExact;
    NoCaptures();
    NoneExact(transport.device, gate.maxUtterance);
    var span := transport.ReadNowait();
    if span.None? {
      StandsFit(gate, transport.device);
      NothingLeads(gate.Setup(), SightOf(gate), hears);
      return [], [];
    }
    utterances, moves := HandleAudio(gate, span.value, ai, hears, transport.device);
  }
}
