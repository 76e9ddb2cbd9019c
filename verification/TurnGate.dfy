/**
 Turn detection that assembles one complete utterance from the device stream.

 `device` is the ghost stream of everything the microphone delivered on the current timeline. The main
 result is in the contracts of `Feed` and `Pump`: unless a turn is confirmed late, every captured
 utterance is, byte for byte, the device stream at its own coordinates. A turn is confirmed late when the
 assistant falls silent while a voiced run is pending; `skipped` counts the samples lost then, and
 `ExactIffNothingSkipped` says that the loss is never harmless.
 */
module TurnGate {
  import opened Bytes
  import opened Wrappers
  import opened Audio
  import opened PreRoll
  import Listener
  import Vad

  datatype GateEvent =
    | TurnStarted(generation: nat, at: nat, onset: nat, bargeIn: bool)
    | UtteranceCaptured(generation: nat, audio: AudioSpan, lastVoiced: nat, truncated: bool, maxReached: bool)

  /** An event without its audio. */
  function NoticeOf(e: GateEvent): Listener.Notice {
    match e
    case TurnStarted(generation, at, onset, bargeIn) => Listener.Started(generation, at, onset, bargeIn)
    case UtteranceCaptured(generation, audio, lastVoiced, truncated, maxReached) =>
      Listener.Captured(generation, audio.start, audio.end, lastVoiced, truncated, maxReached)
  }

  function NoticesOf(events: seq<GateEvent>): (notices: seq<Listener.Notice>)
    ensures |notices| == |events|
  {
    seq(|events|, i requires 0 <= i < |events| => NoticeOf(events[i]))
  }

  /** The device stream from `start` to `end` without the `skipped` samples at `gap`. */
  function Spliced(device: seq<byte>, start: nat, gap: nat, skipped: nat, end: nat): (pcm: seq<byte>)
    requires start <= gap && gap + skipped <= end && 2 * end <= |device|
    ensures |pcm| == 2 * (end - start - skipped)
  {
    Region(device, start, gap) + Region(device, gap + skipped, end)
  }

  /** Skipping samples is never harmless: some device stream shows it, unless the capture cannot even be built. */
  lemma ExactIffNothingSkipped(start: nat, gap: nat, skipped: nat, end: nat, length: nat)
    requires start < gap && gap + skipped <= end && gap - start < length <= end - start
    ensures (forall device: seq<byte> | |device| == 2 * end ::
               var pcm := Spliced(device, start, gap, skipped, end);
               |pcm| >= 2 * length && pcm[..2 * length] == Region(device, start, start + length))
            <==> skipped == 0
  {
    if skipped == 0 {
      forall device: seq<byte> | |device| == 2 * end
        ensures var pcm := Spliced(device, start, gap, skipped, end);
                |pcm| >= 2 * length && pcm[..2 * length] == Region(device, start, start + length)
      {
        RegionJoin(device, start, gap, end);
        RegionPart(device, start, end, start, start + length);
      }
    } else {
      var device: seq<byte> := seq(2 * end, i => if i == 2 * gap then 1 else 0);
      var pcm := Spliced(device, start, gap, skipped, end);
      if |pcm| >= 2 * length {
        assert pcm[..2 * length][2 * (gap - start)] == device[2 * (gap + skipped)];
        assert Region(device, start, start + length)[2 * (gap - start)] == device[2 * gap];
      }
    }
  }

  /** The default thresholds, at 16 kHz: 100 ms of voice, 300 ms to interrupt the assistant, 350 ms of silence. */
  lemma DefaultThresholds()
    ensures MillisecondsToSamples(100, 16_000) == Some(Vad.DEFAULT.idleStart)
            && MillisecondsToSamples(300, 16_000) == Some(Vad.DEFAULT.bargeIn)
            && MillisecondsToSamples(350, 16_000) == Some(Vad.DEFAULT.endSilence)
  {
  }

  /** Late confirmations happen: 192 ms of voice while the assistant speaks, and then it falls silent. */
  lemma LateConfirmationHappens()
    ensures var c := Vad.DEFAULT;
            var heard := Vad.Feed(Vad.RESET, 0, 3072, true, true, c);
            var late := Vad.Feed(heard.policy, 3072, 3584, true, false, c);
            heard.events == [] && late.events == [Vad.Event(Vad.TurnStarted, 1600, Some(0))] && 1600 < 3072
  {
  }

  class VoiceTurnGate {
    const policy: Vad.TurnPolicy
    const preRoll: PreRollBuffer
    const frames: nat
    const maxUtterance: nat
    var generation: nat
    var carried: Option<nat>
    var window: seq<byte>
    var windowStart: Option<nat>
    var utterance: seq<byte>
    var utteranceStart: Option<nat>
    var utteranceEnd: nat
    var truncated: bool
    var discontinuities: nat
    ghost var gap: nat
    ghost var skipped: nat

    /** The parts fit together as the factory wires them, so that the ring reaches back to every pending onset. */
    ghost predicate Wired()
      reads this, preRoll
    {
      && preRoll.Valid()
      && policy.config.Valid()
      && 0 < frames
      && preRoll.capacity >= preRoll.preRollSamples + policy.config.bargeIn + frames
      && maxUtterance > preRoll.preRollSamples
    }

    ghost predicate WindowExact(device: seq<byte>)
      reads this
    {
      && |window| % 2 == 0
      && (windowStart.None? ==> window == [])
      && (windowStart.Some? ==>
            2 * windowStart.value + |window| <= |device|
            && window == Region(device, windowStart.value, windowStart.value + |window| / 2))
    }

    ghost predicate RingExact(device: seq<byte>)
      reads this, preRoll
    {
      preRoll.spans != [] ==>
        && preRoll.generation == Some(generation)
        && windowStart == Some(preRoll.End())
        && preRoll.Start() <= preRoll.End() && 2 * preRoll.End() <= |device|
        && preRoll.Contents() == Region(device, preRoll.Start(), preRoll.End())
    }

    ghost predicate PolicyInStep()
      reads this, policy, preRoll
    {
      && Vad.Consistent(policy.View(), policy.config)
      && (policy.next.Some? ==> windowStart == policy.next)
      && (policy.active <==> utteranceStart.Some?)
      && (!policy.active && policy.voiceOnset.Some? ==> preRoll.spans != [] && preRoll.began <= policy.voiceOnset.value)
    }

    /** The utterance is the device stream up to the current window, but for the samples skipped at its opening. */
    ghost predicate UtteranceInStep(device: seq<byte>)
      reads this
    {
      utteranceStart.Some? ==>
        && windowStart == Some(utteranceEnd)
        && utteranceStart.value < gap && gap + skipped <= utteranceEnd
        && 2 * utteranceEnd <= |device|
        && utterance == Spliced(device, utteranceStart.value, gap, skipped, utteranceEnd)
        && utteranceEnd - utteranceStart.value < maxUtterance
    }

    ghost predicate Valid(device: seq<byte>)
      reads this, policy, preRoll
    {
      Wired() && WindowExact(device) && RingExact(device) && PolicyInStep() && UtteranceInStep(device)
    }

    lemma WindowIs(device: seq<byte>)
      requires Valid(device)
      ensures 0 < frames && |window| % 2 == 0 && (window != [] ==> windowStart.Some?)
    {
    }

    /** What the reference has to know of the gate. */
    function Setup(): Listener.Setup {
      Listener.Setup(policy.config, frames, preRoll.preRollSamples, maxUtterance)
    }

    /** Where the reference stands. */
    ghost function Ear(): Listener.Ear
      reads this, policy, preRoll
    {
      Listener.Ear(policy.View(), if windowStart.Some? then windowStart.value else 0,
                   if preRoll.spans == [] then None else Some(preRoll.began),
                   if utteranceStart.Some? then Some(Listener.Opened(utteranceStart.value, truncated)) else None,
                   generation)
    }

    /** The reference stands where the gate does, and has been told the same. */
    ghost predicate Agrees(told: Listener.Told, events: Option<seq<GateEvent>>)
      reads this, policy, preRoll
    {
      events.Some? && told == Listener.Told(Ear(), NoticesOf(events.value))
    }

    /** Up to where sound is buffered. */
    function UpTo(): Option<nat>
      reads this
    {
      if windowStart.None? then None else Some(windowStart.value + |window| / 2)
    }

    lemma EarInStep(device: seq<byte>)
      requires Valid(device)
      ensures Listener.InStep(Setup(), Ear()) && Listener.Fit(Setup(), Listener.Sight(Ear(), UpTo()))
    {
      hide Pcm, Contiguous, Spliced, Region, LastSamples;
    }

    /** Nothing was skipped in the current utterance. */
    ghost predicate Whole()
      reads this
    {
      utteranceStart.Some? ==> skipped == 0
    }

    /** With this flag the pending run would have been confirmed before the next window. */
    predicate Late(ai: bool)
      reads this, policy
    {
      !policy.active && policy.voiceOnset.Some? && policy.next.Some?
      && policy.voiceOnset.value + policy.config.Threshold(ai) < policy.next.value
    }

    /** The ring may be cleared: no run is pending that would still need it. */
    predicate CarrySafe()
      reads policy
    {
      policy.active || policy.voiceOnset.None?
    }

    /** A captured utterance is exactly what the device delivered, of this generation, and not too long. */
    ghost predicate Sound(e: GateEvent, device: seq<byte>)
      reads this
    {
      e.UtteranceCaptured? ==>
        && e.audio.Exact(device)
        && e.generation == e.audio.generation == generation
        && e.audio.start < e.audio.end <= e.audio.start + maxUtterance
        && e.audio.start <= e.lastVoiced <= e.audio.end
    }

    constructor (policy: Vad.TurnPolicy, preRoll: PreRollBuffer, frames: nat, maxUtterance: nat, generation: nat)
      requires policy.View() == Vad.RESET && policy.config.Valid()
      requires preRoll.Valid() && preRoll.spans == [] && 0 < frames
      requires preRoll.capacity >= preRoll.preRollSamples + policy.config.bargeIn + frames
      requires maxUtterance > preRoll.preRollSamples
      ensures Valid([]) && Whole() && this.generation == generation && carried == None
      ensures this.policy == policy && this.preRoll == preRoll && this.frames == frames
              && this.maxUtterance == maxUtterance
    {
      this.policy, this.preRoll, this.frames, this.maxUtterance := policy, preRoll, frames, maxUtterance;
      this.generation, carried := generation, None;
      window, windowStart := [], None;
      utterance, utteranceStart, utteranceEnd, truncated := [], None, 0, false;
      discontinuities, gap, skipped := 0, 0, 0;
    }

    method DiscardUtterance()
      modifies this`utterance, this`utteranceStart, this`utteranceEnd, this`truncated
      ensures utterance == [] && utteranceStart == None && utteranceEnd == 0 && !truncated
    {
      utterance, utteranceStart, utteranceEnd, truncated := [], None, 0, false;
    }

    /** Discard every buffered sample. `false` is the refusal to move the generation backwards. */
    method ResetGeneration(next: nat, ghost device: seq<byte>) returns (ok: bool)
      requires Wired()
      modifies this, policy, preRoll
      ensures ok <==> next >= old(generation)
      ensures ok ==> Valid(device) && Whole() && generation == next && carried == None
                     && window == [] && windowStart == None && utteranceStart == None && preRoll.spans == []
                     && policy.View() == Vad.RESET
      ensures !ok ==> generation == old(generation)
    {
      if next < generation {
        return false;
      }
      generation := next;
      carried := None;
      policy.Reset();
      preRoll.Clear();
      window := [];
      windowStart := None;
      DiscardUtterance();
      return true;
    }

    /**
     Keep the interrupting speech and give it to the new generation; the utterance goes on, exact as it was.
     The cleared ring is only missed by a voiced run that has not become a turn yet.
     */
    method CarryOverGeneration(next: nat, ghost device: seq<byte>) returns (ok: bool)
      requires Valid(device)
      modifies this`generation, this`carried, preRoll
      ensures ok <==> next >= old(generation)
      ensures Wired() && WindowExact(device) && RingExact(device) && UtteranceInStep(device)
      ensures CarrySafe() == old(CarrySafe())
      ensures Valid(device) <==> !ok || old(CarrySafe())
      ensures ok ==> generation == next && preRoll.spans == []
                     && carried == if next != old(generation) then Some(old(generation)) else old(carried)
      ensures !ok ==> generation == old(generation) && carried == old(carried)
    {
      if next < generation {
        return false;
      }
      if next != generation {
        carried := Some(generation);
      }
      generation := next;
      preRoll.Clear();
      return true;
    }

    /** Input was dropped: no buffered sample is adjacent to what comes next. */
    method RestartTimeline(start: nat, ghost device: seq<byte>)
      requires Wired() && 2 * start <= |device|
      modifies this, policy, preRoll
      ensures Valid(device) && Whole()
      ensures generation == old(generation) && carried == old(carried) && discontinuities == old(discontinuities) + 1
      ensures window == [] && windowStart == Some(start) && utteranceStart == None && policy.View() == Vad.RESET
      ensures preRoll.spans == []
    {
      discontinuities := discontinuities + 1;
      policy.Reset();
      preRoll.Clear();
      window := [];
      windowStart := Some(start);
      DiscardUtterance();
    }

    /** Spans of the current generation, and of the one carried over until the stream has caught up. */
    method Accept(span: AudioSpan, ghost device: seq<byte>) returns (accepted: Option<AudioSpan>)
      requires Valid(device)
      modifies this`carried
      ensures Valid(device) && Whole() == old(Whole()) && Ear() == old(Ear()) && UpTo() == old(UpTo())
      ensures accepted.Some? <==> span.generation == generation || old(carried) == Some(span.generation)
      ensures accepted.Some? ==> accepted.value == span.(generation := generation)
      ensures carried == if span.generation == generation then None else old(carried)
    {
      hide Pcm, Contiguous, Spliced, Region, LastSamples, Vad.Consistent;
      if span.generation == generation {
        carried := None;
        return Some(span);
      }
      if carried == Some(span.generation) {
        return Some(AudioSpan(span.pcm, span.start, span.end, generation));
      }
      return None;
    }

    /** The utterance begins with what the ring still holds; `None` where the ring refuses the request. */
    method OpenUtterance(event: Vad.Event, ghost device: seq<byte>) returns (started: Option<GateEvent>)
      requires preRoll.Valid() && RingExact(device) && event.onset.Some?
      modifies this`utterance, this`utteranceStart, this`utteranceEnd, this`truncated
      ensures started.Some?
              <==> preRoll.spans != [] && preRoll.Start() <= event.onset.value <= event.at <= preRoll.End()
      ensures started.Some? ==>
                var from := Max(Max(0, event.onset.value - preRoll.preRollSamples), preRoll.Start());
                && utteranceStart == Some(from) && utteranceEnd == event.at && from <= event.at
                && 2 * event.at <= |device|
                && utterance == Region(device, from, event.at)
                && truncated == (event.onset.value - from < preRoll.preRollSamples)
                && started.value
                   == TurnStarted(generation, event.at, event.onset.value, event.kind == Vad.BargeInConfirmed)
    {
      hide Pcm;
      var capture := preRoll.TakeCapture(event.onset.value, event.at);
      if capture.None? {
        return None;
      }
      var audio := capture.value.audio;
      OverlapIsRegion(device, preRoll.Start(), preRoll.End(), audio.start, event.at);
      utterance := audio.pcm;
      utteranceStart := Some(audio.start);
      utteranceEnd := event.at;
      truncated := capture.value.truncated;
      started := Some(TurnStarted(generation, event.at, event.onset.value, event.kind == Vad.BargeInConfirmed));
    }

    method ExtendUtterance(span: AudioSpan, until: nat, ghost device: seq<byte>)
      requires span.Exact(device) && until <= span.end
      modifies this`utterance, this`utteranceEnd
      ensures var start := Max(old(utteranceEnd), span.start);
              if start >= until then utterance == old(utterance) && utteranceEnd == old(utteranceEnd)
              else utteranceEnd == until && utterance == old(utterance) + Region(device, start, until)
    {
      var start := Max(utteranceEnd, span.start);
      if start >= until {
        return;
      }
      SliceExact(span, start, until, device);
      utterance := utterance + span.Slice(start, until).value.pcm;
      utteranceEnd := until;
    }

    /** `None` when fewer bytes were gathered than the sample range needs: the span's own check raises. */
    method BuildCapture(maxReached: bool) returns (captured: Option<GateEvent>)
      requires utteranceStart.Some? && utteranceStart.value < utteranceEnd
      ensures var start, end := utteranceStart.value, Min(utteranceEnd, utteranceStart.value + maxUtterance);
              && (captured.Some? <==> |utterance| >= 2 * (end - start))
              && (captured.Some? ==>
                    captured.value == UtteranceCaptured(
                      generation, AudioSpan(utterance[..2 * (end - start)], start, end, generation),
                      Max(start, end - if maxReached then 0 else policy.config.endSilence), truncated, maxReached))
    {
      var start, end := utteranceStart.value, Min(utteranceEnd, utteranceStart.value + maxUtterance);
      var length := 2 * (end - start);
      var pcm := if length <= |utterance| then utterance[..length] else utterance;
      var audio := MakeSpan(pcm, start, end, generation);
      if audio.None? {
        return None;
      }
      var silence := if maxReached then 0 else policy.config.endSilence;
      captured := Some(UtteranceCaptured(generation, audio.value, Max(start, end - silence), truncated, maxReached));
    }

    /** What an extended utterance is made of. */
    ghost predicate MadeOf(device: seq<byte>, start: nat, end: nat)
      reads this
    {
      && utteranceStart == Some(start) && utteranceEnd == end
      && start < gap && gap + skipped <= end && 2 * end <= |device|
      && utterance == Spliced(device, start, gap, skipped, end)
    }

    predicate CapturedFrom(e: GateEvent, start: nat) {
      e.UtteranceCaptured? && e.audio.start == start
    }

    /** End of the turn: the silence is part of the utterance. `None` is the raise of a capture that came up short. */
    method CloseUtterance(span: AudioSpan, at: nat, ghost device: seq<byte>, ghost start: nat)
      returns (captured: Option<GateEvent>)
      requires span.Exact(device) && span.start < at <= span.end && MadeOf(device, start, span.start)
               && 0 < maxUtterance
      modifies this`utterance, this`utteranceStart, this`utteranceEnd, this`truncated
      ensures skipped == 0 ==> captured.Some?
      ensures captured.Some? ==> utteranceStart == None
      ensures captured.Some? && skipped == 0 ==> captured.value.UtteranceCaptured? && Sound(captured.value, device)
      ensures skipped > 0 && at - start <= maxUtterance ==> captured.None?
      ensures captured.Some? ==>
                CapturedFrom(captured.value, start) && captured.value.audio.end == Min(at, start + maxUtterance)
                && captured.value.truncated == old(truncated) && !captured.value.maxReached
      ensures captured.Some? ==>
                NoticeOf(captured.value)
                == Listener.CaptureOf(Setup(), generation, Listener.Opened(start, old(truncated)), at, false)
    {
      ExtendUtterance(span, at, device);
      SplicedGrows(device, start, gap, skipped, span.start, at);
      captured := BuildCapture(false);
      if captured.None? {
        return;
      }
      if skipped == 0 {
        CutIsExact(device, start, gap, at, Min(at, start + maxUtterance));
      }
      DiscardUtterance();
    }

    /** `ok` is false where the capture comes up short and raises. */
    method EnforceUtteranceBound(ghost device: seq<byte>, ghost start: nat, ghost end: nat)
      returns (ok: bool, captured: Option<GateEvent>)
      requires MadeOf(device, start, end) && 0 < maxUtterance
      modifies this`utterance, this`utteranceStart, this`utteranceEnd, this`truncated, policy
      ensures end - start < maxUtterance ==>
                ok && captured == None && MadeOf(device, start, end) && truncated == old(truncated)
                && policy.View() == old(policy.View())
      ensures !ok ==> policy.View() == old(policy.View())
      ensures end - start >= maxUtterance && ok ==>
                captured.Some? && utteranceStart == None && policy.View() == Vad.RESET
      ensures skipped == 0 ==>
                ok && (captured.Some? ==> captured.value.UtteranceCaptured? && Sound(captured.value, device))
      ensures captured.Some? ==> CapturedFrom(captured.value, start) && captured.value.audio.end == start + maxUtterance
                                 && captured.value.truncated == old(truncated) && captured.value.maxReached
      ensures captured.Some? ==>
                NoticeOf(captured.value)
                == Listener.CaptureOf(Setup(), generation, Listener.Opened(start, old(truncated)), end, true)
    {
      if utteranceEnd - utteranceStart.value < maxUtterance {
        return true, None;
      }
      captured := BuildCapture(true);
      if captured.None? {
        return false, None;
      }
      if skipped == 0 {
        CutIsExact(device, start, gap, end, start + maxUtterance);
      }
      DiscardUtterance();
      policy.Reset();
      return true, captured;
    }

    /** Take one window off the buffer. */
    method TakeWindow(ghost device: seq<byte>) returns (span: AudioSpan)
      requires WindowExact(device) && |window| >= 2 * frames && 0 < frames
      modifies this`window, this`windowStart
      ensures windowStart.Some? && old(windowStart).Some? && windowStart.value == old(windowStart).value + frames
      ensures span.Exact(device) && span.start == old(windowStart).value && span.end == windowStart.value
              && span.generation == generation
      ensures WindowExact(device) && |window| == |old(window)| - 2 * frames
    {
      var start := windowStart.value;
      var pcm := window[..2 * frames];
      RegionPart(device, start, start + |window| / 2, start, start + frames);
      RegionPart(device, start, start + |window| / 2, start + frames, start + |window| / 2);
      window := window[2 * frames..];
      windowStart := Some(start + frames);
      span := AudioSpan(pcm, start, start + frames, generation);
    }

    /** The ring follows the windows. */
    method RememberWindow(span: AudioSpan, ghost device: seq<byte>) returns (ok: bool)
      requires preRoll.Valid() && span.Exact(device) && span.start < span.end && span.generation == generation
      requires preRoll.spans != [] ==>
                 preRoll.generation == Some(generation) && preRoll.End() == span.start
                 && preRoll.Start() <= preRoll.End()
                 && preRoll.Contents() == Region(device, preRoll.Start(), preRoll.End())
      requires windowStart == Some(span.end)
      modifies preRoll
      ensures ok && preRoll.Valid() && preRoll.spans != [] && RingExact(device)
      ensures preRoll.began == if old(preRoll.spans) != [] then old(preRoll.began) else span.start
    {
      hide Pcm, Contiguous, LastSamples;
      ghost var from := if preRoll.spans == [] then span.start else preRoll.Start();
      ghost var before := if preRoll.spans == [] then [] else preRoll.Contents();
      RegionJoin(device, from, span.start, span.end);
      assert before == Region(device, from, span.start);
      NoPcm();
      ok := preRoll.Append(span);
      LastOfRegion(device, from, span.end, preRoll.capacity, preRoll.Start());
    }

    /** Everything exact, as far as the contracts of the window loop promise it. */
    ghost predicate AllSound(events: seq<GateEvent>, device: seq<byte>)
      reads this
    {
      forall e | e in events :: Sound(e, device)
    }

    /** Only the beginning of the stream, or of the ring, can cut the pre-roll short; the ring's capacity never does. */
    ghost predicate PreRollComplete()
      requires utteranceStart.Some?
      reads this, preRoll
    {
      truncated ==> utteranceStart.value == 0 || utteranceStart.value == preRoll.began
    }

    /** A turn has begun: its utterance is open, or was so long already that it is captured at once. */
    predicate Opened(events: seq<GateEvent>)
      reads this
    {
      && events != [] && events[0].TurnStarted?
      && (if utteranceStart.Some? then |events| == 1 else |events| == 2 && events[1].UtteranceCaptured?)
    }

    /** No utterance is lost: an open one stays open until it is captured, and none is captured without being open. */
    twostate predicate Accounted(events: seq<GateEvent>)
      reads this
    {
      if old(utteranceStart).Some? then
        if events == [] then utteranceStart == old(utteranceStart)
        else utteranceStart.None? && |events| == 1 && CapturedFrom(events[0], old(utteranceStart).value)
      else if events == [] then utteranceStart.None?
      else Opened(events)
    }

    /** The onset of a turn is in the ring, and the ring reaches back to its pre-roll unless it began later. */
    ghost predicate Begun(event: Vad.Event, span: AudioSpan, device: seq<byte>)
      reads this, preRoll
    {
      && Wired() && RingExact(device) && preRoll.spans != []
      && span.Exact(device) && span.start < span.end == preRoll.End()
      && event.onset.Some? && preRoll.Start() <= event.onset.value < event.at <= span.end
      && span.end <= event.onset.value + policy.config.bargeIn + frames
    }

    /** Where the utterance of a turn begins. */
    ghost function Onset(event: Vad.Event): nat
      requires event.onset.Some? && preRoll.spans != []
      reads preRoll
    {
      Max(Max(0, event.onset.value - preRoll.preRollSamples), preRoll.began)
    }

    /** The utterance is opened and, since the window goes on, extended to its end. */
    method StartUtterance(event: Vad.Event, span: AudioSpan, ghost device: seq<byte>) returns (started: GateEvent)
      requires Begun(event, span, device)
      modifies this`utterance, this`utteranceStart, this`utteranceEnd, this`truncated, this`gap, this`skipped
      ensures skipped == if event.at < span.start then span.start - event.at else 0
      ensures Onset(event) == Max(Max(0, event.onset.value - preRoll.preRollSamples), preRoll.Start())
      ensures MadeOf(device, Onset(event), span.end)
      ensures truncated == (event.onset.value - Onset(event) < preRoll.preRollSamples)
      ensures started == TurnStarted(generation, event.at, event.onset.value, event.kind == Vad.BargeInConfirmed)
    {
      hide Pcm, Contiguous, Spliced, Region;
      var opening := OpenUtterance(event, device);
      started := opening.value;
      ghost var from := utteranceStart.value;
      gap := event.at;
      skipped := if event.at < span.start then span.start - event.at else 0;
      ExtendUtterance(span, span.end, device);
      OpenedIsSpliced(device, from, event.at, skipped, span.start, span.end);
    }

    /** A turn begins; an utterance that is too long already is captured at once. */
    method BeginTurn(event: Vad.Event, span: AudioSpan, ghost device: seq<byte>)
      returns (events: Option<seq<GateEvent>>)
      requires Begun(event, span, device) && WindowExact(device)
      requires windowStart == Some(span.end) && policy.active && policy.next == Some(span.end)
      requires Vad.Consistent(policy.View(), policy.config)
      modifies this`utterance, this`utteranceStart, this`utteranceEnd, this`truncated, this`gap, this`skipped, policy
      ensures skipped == if event.at < span.start then span.start - event.at else 0
      ensures skipped == 0 ==> events.Some?
      ensures events.Some? ==> PolicyInStep() && UtteranceInStep(device) && CarrySafe() && events.value != []
      ensures events.Some? && skipped == 0 ==> AllSound(events.value, device)
      ensures events.Some? && utteranceStart.Some? ==> PreRollComplete()
      ensures events.Some? ==> Opened(events.value)
      ensures span.end - Onset(event) < maxUtterance ==>
                events.Some? && utteranceStart == Some(Onset(event)) && policy.View() == old(policy.View())
      ensures policy.active || policy.View() == Vad.RESET
      ensures events.Some? ==> Agrees(Listener.Begin(Setup(), old(Ear()), event), events)
    {
      hide Pcm, Contiguous, Spliced, Region, RingExact, WindowExact, LastSamples;
      var started := StartUtterance(event, span, device);
      ghost var from := Onset(event);
      var ok, bounded := EnforceUtteranceBound(device, from, span.end);
      if !ok {
        return None;
      }
      events := Some(if bounded.Some? then [started, bounded.value] else [started]);
    }

    /** No event: an utterance in progress grows by the window. */
    method GrowUtterance(span: AudioSpan, ghost device: seq<byte>) returns (events: Option<seq<GateEvent>>)
      requires Wired() && span.Exact(device) && windowStart == Some(span.end)
      requires PolicyInStep() && preRoll.spans != []
      requires utteranceStart.Some? ==> MadeOf(device, utteranceStart.value, span.start)
      modifies this`utterance, this`utteranceStart, this`utteranceEnd, this`truncated, policy
      ensures skipped == 0 || old(utteranceStart).None? ==> events.Some?
      ensures events.Some? ==> PolicyInStep() && UtteranceInStep(device) && (events.value != [] ==> CarrySafe())
      ensures events.Some? && skipped == 0 ==> AllSound(events.value, device)
      ensures policy.View() == old(policy.View()) || policy.View() == Vad.RESET
      ensures old(utteranceStart).None? || span.end - old(utteranceStart).value < maxUtterance ==>
                events == Some([]) && utteranceStart == old(utteranceStart) && policy.View() == old(policy.View())
      ensures events.Some? ==> Accounted(events.value)
      ensures skipped == 0 || old(utteranceStart).None? ==> Agrees(Listener.Act(Setup(), old(Ear()), []), events)
    {
      if utteranceStart.None? {
        return Some([]);
      }
      ghost var from := utteranceStart.value;
      SplicedGrows(device, from, gap, skipped, span.start, span.end);
      ExtendUtterance(span, span.end, device);
      var ok, bounded := EnforceUtteranceBound(device, from, span.end);
      if !ok {
        return None;
      }
      return Some(if bounded.Some? then [bounded.value] else []);
    }

    /** The ring and the policy have taken the window in; what the policy made of it is still to be acted on. */
    ghost predicate TakenIn(span: AudioSpan, device: seq<byte>)
      reads this, policy, preRoll
    {
      && Wired() && RingExact(device) && WindowExact(device) && preRoll.spans != []
      && span.Exact(device) && span.start < span.end == preRoll.End()
      && windowStart == Some(span.end) && policy.next == Some(span.end)
      && Vad.Consistent(policy.View(), policy.config)
      && (utteranceStart.Some? ==> MadeOf(device, utteranceStart.value, span.start))
    }

    /** Cut one window off the buffer and remember it. */
    method NextWindow(ghost device: seq<byte>) returns (span: AudioSpan)
      requires Valid(device) && |window| >= 2 * frames
      modifies this`window, this`windowStart, preRoll
      ensures |window| == |old(window)| - 2 * frames && windowStart == Some(old(windowStart).value + frames)
      ensures span.Exact(device) && span.start == old(windowStart).value && span.end == span.start + frames
      ensures Wired() && RingExact(device) && WindowExact(device) && preRoll.spans != [] && preRoll.End() == span.end
      ensures preRoll.began <= span.start
      ensures !policy.active && policy.voiceOnset.Some? ==> preRoll.began <= policy.voiceOnset.value
      ensures utteranceStart.Some? ==> MadeOf(device, utteranceStart.value, span.start)
      ensures Ear() == old(Ear()).(at := span.end,
                                   began := if old(Ear()).began.Some? then old(Ear()).began else Some(span.start))
    {
      hide Pcm, Contiguous, Spliced, Region, LastSamples, Vad.Consistent;
      span := TakeWindow(device);
      var appended := RememberWindow(span, device);
    }

    /** Cut one window, remember it, have it classified and show the verdict to the policy. */
    method ClassifyWindow(voiced: bool, ai: bool, ghost device: seq<byte>)
      returns (span: AudioSpan, turns: seq<Vad.Event>)
      requires Valid(device) && |window| >= 2 * frames
      modifies this`window, this`windowStart, policy, preRoll
      ensures |window| == |old(window)| - 2 * frames && windowStart == Some(old(windowStart).value + frames)
      ensures TakenIn(span, device) && span.start == old(windowStart).value && span.end == span.start + frames
      ensures Decided(old(policy.View()), span, voiced, ai, turns)
      ensures turns == [] ==> PolicyInStep() && !Late(ai) && policy.active == old(policy.active)
      ensures turns != [] && !old(policy.active) ==>
                policy.active && turns[0].onset.Some?
                && preRoll.Start() <= turns[0].onset.value < turns[0].at <= span.end
                && span.end <= turns[0].onset.value + policy.config.bargeIn + frames
                && (turns[0].at < span.start <==> old(Late(ai)))
      ensures turns != [] && old(policy.active) ==>
                policy.View() == Vad.RESET.(next := Some(span.end)) && span.start < turns[0].at <= span.end
      ensures Listener.InStep(Setup(), old(Ear()))
      ensures Ear() == Listener.Behind(Setup(), old(Ear()), voiced, ai)
      ensures turns == Listener.Observed(Setup(), old(Ear()), voiced, ai).events
    {
      EarInStep(device);
      hide Pcm, Contiguous, Spliced, Region, LastSamples, Decided, Listener.InStep, Listener.Observed, Listener.Behind;
      ghost var before := Ear();
      span := NextWindow(device);
      turns := Classify(span, voiced, ai);
      BehindIs(before, span, voiced, ai, turns);
    }

    lemma BehindIs(before: Listener.Ear, span: AudioSpan, voiced: bool, ai: bool, turns: seq<Vad.Event>)
      requires Listener.InStep(Setup(), before) && Decided(before.policy, span, voiced, ai, turns)
      requires span.start == before.at && span.end == before.at + frames && windowStart == Some(span.end)
      requires Ear() == before.(policy := policy.View(), at := span.end,
                               began := if before.began.Some? then before.began else Some(span.start))
      ensures Ear() == Listener.Behind(Setup(), before, voiced, ai)
      ensures turns == Listener.Observed(Setup(), before, voiced, ai).events
    {
      hide Vad.Feed, Listener.InStep;
    }

    /** The policy has made of the verdict on the window what it makes of any observation. */
    ghost predicate Decided(before: Vad.Policy, span: AudioSpan, voiced: bool, ai: bool, turns: seq<Vad.Event>)
      reads policy
    {
      && Vad.Follows(before, span.start, span.end)
      && Vad.Step(policy.View(), turns) == Vad.Feed(before, span.start, span.end, voiced, ai, policy.config)
    }

    /** The verdict on a window that is in the ring. */
    method Classify(span: AudioSpan, voiced: bool, ai: bool) returns (turns: seq<Vad.Event>)
      requires Wired() && Vad.Consistent(policy.View(), policy.config)
      requires span.start < span.end == span.start + frames && Vad.Follows(policy.View(), span.start, span.end)
      requires preRoll.spans != [] && preRoll.End() == span.end
      requires preRoll.began <= span.start
      requires !policy.active && policy.voiceOnset.Some? ==> preRoll.began <= policy.voiceOnset.value
      modifies policy
      ensures policy.next == Some(span.end) && Vad.Consistent(policy.View(), policy.config)
      ensures Decided(old(policy.View()), span, voiced, ai, turns)
      ensures turns == [] ==>
                !Late(ai) && policy.active == old(policy.active)
                && (!policy.active && policy.voiceOnset.Some? ==> preRoll.began <= policy.voiceOnset.value)
      ensures turns != [] && !old(policy.active) ==>
                policy.active && turns[0].onset.Some?
                && preRoll.Start() <= turns[0].onset.value < turns[0].at <= span.end
                && span.end <= turns[0].onset.value + policy.config.bargeIn + frames
                && (turns[0].at < span.start <==> old(Late(ai)))
      ensures turns != [] && old(policy.active) ==>
                policy.View() == Vad.RESET.(next := Some(span.end)) && span.start < turns[0].at <= span.end
    {
      hide Vad.Feed, Pcm, Contiguous;
      Vad.FeedKeepsConsistent(policy.View(), span.start, span.end, voiced, ai, policy.config);
      Vad.FeedOutcome(policy.View(), span.start, span.end, voiced, ai, policy.config);
      var observed := policy.Observe(span.start, span.end, voiced, ai);
      turns := observed.value;
    }

    /** One window of the loop, with the detector's verdict on it; `None` where the source raises. */
    method ProcessVerdict(voiced: bool, ai: bool, ghost device: seq<byte>) returns (events: Option<seq<GateEvent>>)
      requires Valid(device) && |window| >= 2 * frames
      modifies this, policy, preRoll
      ensures generation == old(generation) && carried == old(carried) && discontinuities == old(discontinuities)
      ensures |window| == |old(window)| - 2 * frames && windowStart == Some(old(windowStart).value + frames)
      ensures events.Some? ==> Valid(device) && !Late(ai) && (events.value != [] ==> CarrySafe())
      ensures !old(Late(ai)) && old(Whole()) ==> events.Some? && Whole() && AllSound(events.value, device)
      ensures events.Some? && !old(policy.active) && policy.active ==>
                (skipped > 0 <==> old(Late(ai))) && utteranceStart.Some? && PreRollComplete()
      ensures events.Some? ==> Accounted(events.value)
      ensures ActedOn(old(policy.View()), voiced, ai, events)
      ensures Listener.InStep(Setup(), old(Ear()))
      ensures !old(Late(ai)) && old(Whole()) ==> Agrees(Listener.Hear(Setup(), old(Ear()), voiced, ai), events)
    {
      hide Pcm, Contiguous, Spliced, Region, LastSamples, Vad.Feed, Vad.Consistent, Listener.Act, Listener.InStep;
      var wasActive := policy.active;
      var span, turns := ClassifyWindow(voiced, ai, device);
      events := ActOn(span, turns, wasActive, ai, device);
    }

    /** What the policy made of the window is acted on. */
    method ActOn(span: AudioSpan, turns: seq<Vad.Event>, wasActive: bool, ai: bool, ghost device: seq<byte>)
      returns (events: Option<seq<GateEvent>>)
      requires TakenIn(span, device) && (wasActive <==> utteranceStart.Some?)
      requires turns == [] ==> PolicyInStep() && !Late(ai)
      requires turns != [] && !wasActive ==>
                 policy.active && turns[0].onset.Some?
                 && preRoll.Start() <= turns[0].onset.value < turns[0].at <= span.end
                 && span.end <= turns[0].onset.value + policy.config.bargeIn + frames
      requires turns != [] && wasActive ==>
                 policy.View() == Vad.RESET.(next := Some(span.end)) && span.start < turns[0].at <= span.end
      modifies this`utterance, this`utteranceStart, this`utteranceEnd, this`truncated, this`gap, this`skipped, policy
      ensures events.Some? ==>
                Valid(device) && !Late(ai) && (events.value != [] ==> CarrySafe()) && Accounted(events.value)
      ensures turns == [] || wasActive ==> skipped == old(skipped)
      ensures turns != [] && !wasActive ==> skipped == if turns[0].at < span.start then span.start - turns[0].at else 0
      ensures (wasActive ==> old(skipped) == 0) && (turns != [] && !wasActive ==> span.start <= turns[0].at) ==>
                events.Some? && Whole() && AllSound(events.value, device)
      ensures events.Some? && utteranceStart.Some? && !wasActive ==> PreRollComplete()
      ensures turns == [] && (!wasActive || span.end - old(utteranceStart).value < maxUtterance) ==>
                events == Some([]) && utteranceStart == old(utteranceStart) && policy.View() == old(policy.View())
      ensures turns != [] && !wasActive && span.end < maxUtterance ==>
                events.Some? && utteranceStart.Some? && policy.View() == old(policy.View())
      ensures turns != [] && wasActive && old(skipped) > 0 &&
              turns[0].at - old(utteranceStart).value <= maxUtterance ==>
                events.None?
      ensures (wasActive ==> old(skipped) == 0) && (turns != [] && !wasActive ==> span.start <= turns[0].at) ==>
                Agrees(Listener.Act(Setup(), old(Ear()), turns), events)
    {
      hide Pcm, Contiguous, Spliced, Region, Vad.Consistent, LastSamples, Listener.Begin, Listener.Grow,
           Listener.CaptureOf;
      if turns == [] {
        events := GrowUtterance(span, device);
      } else if !wasActive {
        events := BeginTurn(turns[0], span, device);
      } else {
        var captured := CloseUtterance(span, turns[0].at, device, utteranceStart.value);
        events := if captured.None? then None else Some([captured.value]);
      }
    }

    /** What a window comes to while the utterance is shorter than its bound. */
    twostate predicate ActedOn(before: Vad.Policy, voiced: bool, ai: bool, events: Option<seq<GateEvent>>)
      requires old(windowStart).Some? && Vad.Follows(before, old(windowStart).value, old(windowStart).value + frames)
      reads this, policy
    {
      var start, end := old(windowStart).value, old(windowStart).value + frames;
      var step := Vad.Feed(before, start, end, voiced, ai, policy.config);
      if step.events == [] then
        old(utteranceStart).None? || end - old(utteranceStart).value < maxUtterance ==>
          events == Some([]) && utteranceStart == old(utteranceStart) && policy.View() == step.policy
          && skipped == old(skipped)
      else if !before.active then
        skipped == (if step.events[0].at < start then start - step.events[0].at else 0)
        && (end < maxUtterance ==> events.Some? && utteranceStart.Some? && policy.View() == step.policy)
      else
        skipped == old(skipped)
        && (old(utteranceStart).Some? && skipped > 0 ==>
              step.events[0].at - old(utteranceStart).value <= maxUtterance ==> events.None?)
    }

    /** One window of the loop; `None` where the source raises. The detector's verdicts are arbitrary. */
    method ProcessWindow(ai: bool, hears: Listener.Verdicts, ghost device: seq<byte>)
      returns (events: Option<seq<GateEvent>>)
      requires Valid(device) && |window| >= 2 * frames
      modifies this, policy, preRoll
      ensures generation == old(generation) && carried == old(carried) && discontinuities == old(discontinuities)
      ensures |window| == |old(window)| - 2 * frames && windowStart == Some(old(windowStart).value + frames)
      ensures events.Some? ==> Valid(device) && !Late(ai) && (events.value != [] ==> CarrySafe())
      ensures !old(Late(ai)) && old(Whole()) ==> events.Some? && Whole() && AllSound(events.value, device)
      ensures events.Some? && !old(policy.active) && policy.active ==>
                (skipped > 0 <==> old(Late(ai))) && utteranceStart.Some? && PreRollComplete()
      ensures events.Some? ==> Accounted(events.value)
      ensures Listener.InStep(Setup(), old(Ear()))
      ensures !old(Late(ai)) && old(Whole()) ==>
                Agrees(Listener.Hear(Setup(), old(Ear()), hears(old(windowStart).value), ai), events)
    {
      events := ProcessVerdict(hears(windowStart.value), ai, device);
    }

    /** Classify buffered windows, stopping as soon as one produces an event. */
    method Pump(ai: bool, hears: Listener.Verdicts, ghost device: seq<byte>) returns (events: Option<seq<GateEvent>>)
      requires Valid(device)
      modifies this, policy, preRoll
      ensures generation == old(generation) && carried == old(carried) && discontinuities == old(discontinuities)
      ensures events.Some? ==> Valid(device) && (if events.value == [] then |window| < 2 * frames else CarrySafe())
      ensures |window| <= |old(window)| && (|old(window)| >= 2 * frames ==> |window| < |old(window)|)
      ensures !old(Late(ai)) && old(Whole()) ==> events.Some? && Whole() && AllSound(events.value, device)
      ensures events.Some? ==> Accounted(events.value)
      ensures UpTo() == old(UpTo()) && Listener.InStep(Setup(), old(Ear()))
      ensures !old(Late(ai)) && old(Whole()) ==>
                Agrees(Listener.Pump(Setup(), old(Ear()), Listener.Until(old(UpTo())), hears, ai), events)
    {
      hide Pcm, Contiguous, Spliced, Region, LastSamples, Vad.Consistent, Listener.Hear, Listener.InStep, Listener.Pump,
           Valid,
           Late, Sound;
      EarInStep(device);
      WindowIs(device);
      while |window| >= 2 * frames
        invariant Valid(device)
        invariant generation == old(generation) && carried == old(carried) && discontinuities == old(discontinuities)
        invariant !old(Late(ai)) && old(Whole()) ==> !Late(ai) && Whole()
        invariant |window| <= |old(window)|
        invariant utteranceStart == old(utteranceStart)
        invariant 0 < frames && |window| % 2 == 0 && (window != [] ==> windowStart.Some?)
        invariant UpTo() == old(UpTo()) && Listener.InStep(Setup(), Ear())
        invariant !old(Late(ai)) && old(Whole()) ==>
                    Listener.Pump(Setup(), old(Ear()), Listener.Until(UpTo()), hears, ai)
                    == Listener.Pump(Setup(), Ear(), Listener.Until(UpTo()), hears, ai)
        decreases |window|
      {
        Listener.PumpFirst(Setup(), Ear(), Listener.Until(UpTo()), hears, ai);
        events := ProcessWindow(ai, hears, device);
        if events.None? || events.value != [] {
          return;
        }
        EarInStep(device);
        WindowIs(device);
      }
      Listener.PumpFirst(Setup(), Ear(), Listener.Until(UpTo()), hears, ai);
      return Some([]);
    }

    /**
     One span of the device stream, wherever it was cut. Spans of other generations are ignored; one that
     is not adjacent to the buffered samples restarts the timeline, so nothing is ever joined across a gap.
     Every other one is heard.
     */
    method Feed(span: AudioSpan, ai: bool, hears: Listener.Verdicts, ghost device: seq<byte>)
      returns (events: Option<seq<GateEvent>>)
      requires Valid(device) && span.Exact(device)
      modifies this, policy, preRoll
      ensures generation == old(generation)
      ensures events.Some? ==>
                Valid(device) && (events.value == [] && Taken(span, old(carried)) ==> |window| < 2 * frames)
      ensures events.Some? && events.value != [] ==> CarrySafe()
      ensures !old(Late(ai)) && old(Whole()) ==> events.Some? && Whole() && AllSound(events.value, device)
      ensures discontinuities == old(discontinuities)
              + if Taken(span, old(carried)) && old(UpTo()).Some? && span.start != old(UpTo()).value then 1 else 0
      ensures events.Some? && discontinuities == old(discontinuities) ==> Accounted(events.value)
      ensures !Taken(span, old(carried)) ==>
                events == Some([]) && UpTo() == old(UpTo()) && Ear() == old(Ear())
                && unchanged(policy) && unchanged(preRoll) && window == old(window)
      ensures !(span.generation == generation || old(carried) == Some(span.generation)) ==>
                events == Some([]) && unchanged(this) && unchanged(policy) && unchanged(preRoll)
      ensures (span.generation == generation || old(carried) == Some(span.generation)) && span.start < span.end ==>
                UpTo() == Some(span.end)
      ensures Listener.InStep(Setup(), Listener.Placed(old(Ear()), old(UpTo()), span.start))
      ensures Taken(span, old(carried)) && !old(Late(ai)) && old(Whole()) ==>
                Agrees(Listener.Pump(Setup(), Listener.Placed(old(Ear()), old(UpTo()), span.start), span.end, hears,
                                     ai),
                       events)
    {
      hide Pcm, Contiguous, Spliced, Region, LastSamples, Vad.Consistent, Listener.Pump, Listener.Placed,
           Listener.InStep,
           Listener.Fit, Valid, Sound;
      EarInStep(device);
      Listener.PlacedInStep(Setup(), Listener.Sight(Ear(), UpTo()), span.start);
      var accepted := Accept(span, device);
      if accepted.None? || accepted.value.FrameCount() == 0 {
        return Some([]);
      }
      Place(accepted.value, device);
      events := Pump(ai, hears, device);
    }

    /** The span is of a generation that is listened to, and not empty. */
    predicate Taken(span: AudioSpan, carried: Option<nat>)
      reads this`generation
    {
      (span.generation == generation || carried == Some(span.generation)) && span.start < span.end
    }

    /** Put a span behind the buffered samples, or restart the timeline at it. */
    method Place(span: AudioSpan, ghost device: seq<byte>)
      requires Valid(device) && span.Exact(device)
      modifies this, policy, preRoll
      ensures Valid(device) && generation == old(generation) && carried == old(carried)
      ensures old(Whole()) ==> Whole()
      ensures policy.View() == old(policy.View()) || policy.View() == Vad.RESET
      ensures discontinuities == old(discontinuities) ==> utteranceStart == old(utteranceStart)
      ensures discontinuities == old(discontinuities)
              + if old(UpTo()).Some? && span.start != old(UpTo()).value then 1 else 0
      ensures UpTo() == Some(span.end) && Ear() == Listener.Placed(old(Ear()), old(UpTo()), span.start)
    {
      hide Pcm, Contiguous, Spliced, Vad.Consistent;
      var buffered := |window| / 2;
      if windowStart.None? {
        windowStart := Some(span.start);
      } else if span.start != windowStart.value + buffered {
        RestartTimeline(span.start, device);
      }
      ExtendWindow(span, device);
    }

    method ExtendWindow(span: AudioSpan, ghost device: seq<byte>)
      requires Valid(device) && span.Exact(device) && windowStart.Some?
               && windowStart.value + |window| / 2 == span.start
      modifies this`window
      ensures Valid(device) && Whole() == old(Whole()) && window == old(window) + span.pcm
    {
      hide Pcm, Contiguous, Spliced, Region, Overlap, LastSamples, Vad.Consistent;
      RegionJoin(device, windowStart.value, span.start, span.end);
      window := window + span.pcm;
    }
  }

  // ---------------------------------------------------------------------------------------------
  // What survives a barge-in

  /** A gate takes in every span that is still queued, in the order of their generations: see `Accept`. */
  predicate AllAccepted(generation: nat, carried: Option<nat>, queued: seq<nat>)
    decreases |queued|
  {
    queued == []
    || (queued[0] == generation && AllAccepted(generation, None, queued[1..]))
    || (queued[0] != generation && carried == Some(queued[0]) && AllAccepted(generation, carried, queued[1..]))
  }

  /** The transport stamps spans with generations that only grow. */
  ghost predicate Stamped(queued: seq<nat>, generation: nat) {
    (forall i, j | 0 <= i < j < |queued| :: queued[i] <= queued[j])
    && forall i | 0 <= i < |queued| :: queued[i] <= generation
  }

  /**
   After a barge-in no queued span is refused, so that no gap discards the utterance, if and only if every one
   of them belongs to the new generation or to the single one carried over.
   */
  lemma {:induction false} SurvivesIff(generation: nat, carried: Option<nat>, queued: seq<nat>)
    requires Stamped(queued, generation) && (carried.Some? ==> carried.value < generation)
    ensures AllAccepted(generation, carried, queued)
            <==> forall g | g in queued :: g == generation || carried == Some(g)
    decreases |queued|
  {
    if queued != [] {
      var rest := queued[1..];
      assert queued == [queued[0]] + rest;
      if queued[0] == generation {
        SurvivesIff(generation, None, rest);
        forall g | g in rest
          ensures g == generation
        {
          var k :| 0 <= k < |rest| && rest[k] == g;
          assert queued[k + 1] == g;
        }
      } else {
        SurvivesIff(generation, carried, rest);
      }
    }
  }

  lemma OpenedIsSpliced(device: seq<byte>, from: nat, at: nat, skipped: nat, windowStart: nat, end: nat)
    requires from <= at <= end && windowStart <= end && 2 * end <= |device|
    requires skipped == if at < windowStart then windowStart - at else 0
    ensures var start := Max(at, windowStart);
            at + skipped == start
            && Region(device, from, at) + Region(device, start, end) == Spliced(device, from, at, skipped, end)
    ensures at == end ==> Region(device, from, at) == Spliced(device, from, at, skipped, end)
  {
  }

  lemma LastOfRegion(device: seq<byte>, from: nat, end: nat, capacity: nat, start: nat)
    requires from <= end && start <= end && 2 * end <= |device|
    requires |LastSamples(Region(device, from, end), capacity)| == 2 * (end - start)
    ensures LastSamples(Region(device, from, end), capacity) == Region(device, start, end)
  {
  }

  lemma SplicedGrows(device: seq<byte>, start: nat, gap: nat, skipped: nat, end: nat, until: nat)
    requires start <= gap && gap + skipped <= end <= until && 2 * until <= |device|
    ensures Spliced(device, start, gap, skipped, end) + Region(device, end, until)
            == Spliced(device, start, gap, skipped, until)
  {
    RegionJoin(device, gap + skipped, end, until);
    assert (Region(device, start, gap) + Region(device, gap + skipped, end)) + Region(device, end, until)
           == Region(device, start, gap) + (Region(device, gap + skipped, end) + Region(device, end, until));
  }

  lemma CutIsExact(device: seq<byte>, start: nat, gap: nat, end: nat, to: nat)
    requires start <= gap <= end && start <= to <= end && 2 * end <= |device|
    ensures Spliced(device, start, gap, 0, end) == Region(device, start, end)
    ensures Spliced(device, start, gap, 0, end)[..2 * (to - start)] == Region(device, start, to)
  {
    RegionJoin(device, start, gap, end);
    RegionPart(device, start, end, start, to);
  }

  lemma OverlapIsRegion(device: seq<byte>, start: nat, end: nat, from: nat, to: nat)
    requires start <= from <= to <= end && 2 * end <= |device|
    ensures Overlap(Region(device, start, end), start, from, to) == Region(device, from, to)
  {
    RegionPart(device, start, end, from, to);
    if from == to {
      assert Region(device, from, to) == [];
    }
  }
}
