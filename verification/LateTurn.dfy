/**
 A turn that is confirmed late, from the first window to the error it ends in.

 The user speaks for 192 ms while the assistant does, the assistant falls silent, and the idle threshold is
 found to have been reached 1472 samples before the window at hand. Those samples are in the ring and in no
 later window, so the utterance lacks them, and at the end of the turn the capture cannot be built.
 */
module LateTurn {
  import opened Bytes
  import opened Wrappers
  import opened Audio
  import opened PreRoll
  import opened TurnGate
  import Vad

  const WINDOW := 512

  /** The policy while voice is heard and the assistant speaks. */
  function Hearing(now: nat): Vad.Policy {
    if now == 0 then Vad.RESET else Vad.Policy(Some(now), Some(0), None, false)
  }

  /** The policy in the turn, silent since sample 3584. */
  function Quiet(now: nat): Vad.Policy {
    Vad.Policy(Some(now), Some(0), if now == 3584 then None else Some(3584), true)
  }

  /** Thirty windows of any device stream, and the gate that is to hear them. */
  method Prepare(device: seq<byte>) returns (gate: VoiceTurnGate)
    requires |device| == 2 * 30 * WINDOW
    ensures fresh(gate) && fresh(gate.policy) && fresh(gate.preRoll) && gate.Valid(device) && gate.Whole()
    ensures gate.frames == WINDOW && gate.maxUtterance == 480_000 && gate.policy.config == Vad.DEFAULT
    ensures gate.windowStart == Some(0) && |gate.window| == |device| && gate.policy.View() == Vad.RESET
            && gate.utteranceStart == None
  {
    hide Pcm, Contiguous, Spliced, Region, Vad.Consistent;
    var policy := new Vad.TurnPolicy(Vad.DEFAULT);
    var preRoll := new PreRollBuffer(5_600, 11_200, 5_600);
    gate := new VoiceTurnGate(policy, preRoll, WINDOW, 480_000, 0);
    var span := AudioSpan(device, 0, 30 * WINDOW, 0);
    WholeIsExact(device, span);
    gate.windowStart := Some(0);
    gate.ExtendWindow(span, device);
  }

  lemma WholeIsExact(device: seq<byte>, span: AudioSpan)
    requires |device| == 2 * 30 * WINDOW && span == AudioSpan(device, 0, 30 * WINDOW, 0)
    ensures span.Exact(device)
  {
  }

  /** Six voiced windows under the assistant's voice start no turn. */
  method HearSix(gate: VoiceTurnGate, ghost device: seq<byte>)
    requires Prepared(gate, device)
    modifies gate, gate.policy, gate.preRoll
    ensures gate.Valid(device) && gate.policy.View() == Hearing(3_072) && gate.utteranceStart == None
    ensures gate.windowStart == Some(3_072) && |gate.window| == 2 * 24 * WINDOW
    ensures gate.Late(false)
  {
    hide Pcm, Contiguous, Spliced, Region, Vad.Consistent;
    for i := 0 to 6
      invariant gate.Valid(device) && gate.policy.View() == Hearing(i * WINDOW) && gate.utteranceStart == None
      invariant gate.windowStart == Some(i * WINDOW) && |gate.window| == 2 * (30 - i) * WINDOW
    {
      var events := gate.ProcessVerdict(true, true, device);
    }
  }

  ghost predicate Prepared(gate: VoiceTurnGate, device: seq<byte>)
    reads gate, gate.policy, gate.preRoll
  {
    && gate.Valid(device) && gate.frames == WINDOW && gate.maxUtterance == 480_000 && gate.policy.config == Vad.DEFAULT
    && gate.windowStart == Some(0) && |gate.window| == 2 * 30 * WINDOW && gate.policy.View() == Vad.RESET
    && gate.utteranceStart == None
  }

  /** Late by 1472 samples, and at the end of the turn the source raises: the capture has fewer bytes than samples. */
  method LateTurnRaises(device: seq<byte>) returns (gate: VoiceTurnGate, events: Option<seq<GateEvent>>)
    requires |device| == 2 * 30 * WINDOW
    ensures gate.skipped == 1_472 && events == None
  {
    hide Pcm, Contiguous, Spliced, Region, Vad.Consistent;
    gate := Prepare(device);
    HearSix(gate, device);
    events := gate.ProcessVerdict(true, false, device);
    HearSilence(gate, device);
    events := gate.ProcessVerdict(false, false, device);
  }

  /** Ten silent windows do not end the turn. */
  method HearSilence(gate: VoiceTurnGate, ghost device: seq<byte>)
    requires gate.Valid(device) && gate.frames == WINDOW && gate.maxUtterance == 480_000
             && gate.policy.config == Vad.DEFAULT
    requires gate.policy.View() == Quiet(7 * WINDOW) && gate.utteranceStart.Some?
    requires gate.windowStart == Some(7 * WINDOW) && |gate.window| == 2 * 23 * WINDOW
    modifies gate, gate.policy, gate.preRoll
    ensures gate.Valid(device) && gate.policy.View() == Quiet(17 * WINDOW)
    ensures gate.utteranceStart == old(gate.utteranceStart) && gate.skipped == old(gate.skipped)
    ensures gate.windowStart == Some(17 * WINDOW) && |gate.window| == 2 * 13 * WINDOW
  {
    hide Pcm, Contiguous, Spliced, Region, Vad.Consistent;
    for i := 7 to 17
      invariant gate.Valid(device) && gate.policy.View() == Quiet(i * WINDOW)
      invariant gate.utteranceStart == old(gate.utteranceStart) && gate.skipped == old(gate.skipped)
      invariant gate.windowStart == Some(i * WINDOW) && |gate.window| == 2 * (30 - i) * WINDOW
    {
      var events := gate.ProcessVerdict(false, false, device);
    }
  }
}
