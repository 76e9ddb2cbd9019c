/**
 What an attempt makes of a stream, told without listening to it frame by frame.

 A stream is heeded as long as the generation is current whenever a frame of the attempt arrives and its text has
 not made three sentences. `HeardExactly` says what has been heard of a heeded stream, `StopsExactly` where
 listening stops, `EndsExactly` what the attempt then reports, and `RetriesExactly` when Luna is tried after Terra.
 */
module Attempts {
  import opened Streaming
  import opened Wrappers
  import Budget
  import SentenceGates

  // ---------------------------------------------------------------------------------------------
  // The frames of a stream that matter

  /** The frame names this generation and this attempt. */
  predicate Mine(frame: Frame, generation: nat, attempt: nat) {
    match frame
    case Text(text) => text.generation == generation && text.attempt == attempt
    case Call(g, a, _) => g == generation && a == attempt
    case UsageReport(g, usage) => g == generation && usage.attempt == attempt
    case Terminal(g, a, _, _, _) => g == generation && a == attempt
  }

  /** Whenever a frame of the attempt arrives, the generation is current. */
  predicate Live(arrivals: seq<Arrival>, generation: nat, attempt: nat) {
    forall i | 0 <= i < |arrivals| && Mine(arrivals[i].frame, generation, attempt) :: arrivals[i].current
  }

  predicate EndsAt(arrivals: seq<Arrival>, i: nat, generation: nat, attempt: nat)
    requires i < |arrivals|
  {
    arrivals[i].frame.Terminal? && Mine(arrivals[i].frame, generation, attempt)
  }

  /** The provider has not ended the attempt. */
  predicate Unended(arrivals: seq<Arrival>, generation: nat, attempt: nat) {
    forall i | 0 <= i < |arrivals| :: !EndsAt(arrivals, i, generation, attempt)
  }

  /** The provider has ended the attempt, first with this frame. */
  predicate EndedBy(arrivals: seq<Arrival>, frame: Frame, generation: nat, attempt: nat) {
    exists i | 0 <= i < |arrivals| ::
      arrivals[i].frame == frame && EndsAt(arrivals, i, generation, attempt)
      && Unended(arrivals[..i], generation, attempt)
  }

  /** The attempt's own texts, up to its end. */
  function Speech(arrivals: seq<Arrival>, generation: nat, attempt: nat): seq<string> {
    if arrivals == [] then []
    else
      var init, frame := arrivals[..|arrivals| - 1], arrivals[|arrivals| - 1].frame;
      Speech(init, generation, attempt)
      + if frame.Text? && Mine(frame, generation, attempt) && Unended(init, generation, attempt)
        then [frame.frame.text] else []
  }

  /** The attempt's own calls, up to its end. */
  function Requests(arrivals: seq<Arrival>, generation: nat, attempt: nat): seq<Frame> {
    if arrivals == [] then []
    else
      var init, frame := arrivals[..|arrivals| - 1], arrivals[|arrivals| - 1].frame;
      Requests(init, generation, attempt)
      + if frame.Call? && Mine(frame, generation, attempt) && Unended(init, generation, attempt) then [frame] else []
  }

  /** The calls among what was emitted. */
  function CallsIn(emitted: seq<Frame>): seq<Frame> {
    if emitted == [] then []
    else CallsIn(emitted[..|emitted| - 1])
         + if emitted[|emitted| - 1].Call? then [emitted[|emitted| - 1]] else []
  }

  predicate Reports(frames: seq<Frame>, i: nat, generation: nat, attempt: nat)
    requires i < |frames|
  {
    frames[i].UsageReport? && Mine(frames[i], generation, attempt)
  }

  /** What the attempt is charged for: its last own report, if there is one. */
  ghost predicate LastReport(frames: seq<Frame>, usage: Option<Budget.Usage>, generation: nat, attempt: nat) {
    match usage
    case None => forall i | 0 <= i < |frames| :: !Reports(frames, i, generation, attempt)
    case Some(u) =>
      exists i | 0 <= i < |frames| ::
        && Reports(frames, i, generation, attempt) && frames[i].usage == u
        && forall j | i < j < |frames| :: !Reports(frames, j, generation, attempt)
  }

  function FramesOf(arrivals: seq<Arrival>): seq<Frame> {
    seq(|arrivals|, i requires 0 <= i < |arrivals| => arrivals[i].frame)
  }

  /** Nothing overtakes the attempt, and its text does not come to three sentences. */
  predicate Heeded(ct: SentenceGates.CharTable, arrivals: seq<Arrival>, generation: nat, attempt: nat) {
    && Live(arrivals, generation, attempt)
    && |SentenceGates.Run(ct, Speech(arrivals, generation, attempt), 3).sentences| < 3
  }

  // ---------------------------------------------------------------------------------------------
  // One more frame

  lemma LiveOneMore(arrivals: seq<Arrival>, last: Arrival, generation: nat, attempt: nat)
    ensures Live(arrivals + [last], generation, attempt)
            <==> Live(arrivals, generation, attempt) && (Mine(last.frame, generation, attempt) ==> last.current)
  {
    var all := arrivals + [last];
    assert all[|arrivals|] == last;
    assert forall i | 0 <= i < |arrivals| :: all[i] == arrivals[i];
  }

  lemma UnendedOneMore(arrivals: seq<Arrival>, last: Arrival, generation: nat, attempt: nat)
    ensures Unended(arrivals + [last], generation, attempt)
            <==> Unended(arrivals, generation, attempt)
                 && !(last.frame.Terminal? && Mine(last.frame, generation, attempt))
  {
    var all := arrivals + [last];
    assert EndsAt(all, |arrivals|, generation, attempt)
           <==> last.frame.Terminal? && Mine(last.frame, generation, attempt);
    assert forall i | 0 <= i < |arrivals| ::
        EndsAt(all, i, generation, attempt) <==> EndsAt(arrivals, i, generation, attempt);
  }

  lemma EndedOneMore(arrivals: seq<Arrival>, last: Arrival, frame: Frame, generation: nat, attempt: nat)
    requires EndedBy(arrivals, frame, generation, attempt)
             || (Unended(arrivals, generation, attempt) && frame == last.frame && frame.Terminal?
                 && Mine(frame, generation, attempt))
    ensures EndedBy(arrivals + [last], frame, generation, attempt)
  {
    var all := arrivals + [last];
    hide Unended;
    if i :| 0 <= i < |arrivals| && arrivals[i].frame == frame && EndsAt(arrivals, i, generation, attempt)
            && Unended(arrivals[..i], generation, attempt) {
      assert all[..i] == arrivals[..i] && EndsAt(all, i, generation, attempt);
    } else {
      assert all[..|arrivals|] == arrivals && EndsAt(all, |arrivals|, generation, attempt);
    }
  }

  lemma ReportOneMore(frames: seq<Frame>, last: Frame, known: Option<Budget.Usage>, generation: nat, attempt: nat)
    requires LastReport(frames, known, generation, attempt)
    ensures LastReport(frames + [last],
                       if last.UsageReport? && Mine(last, generation, attempt) then Some(last.usage) else known,
                       generation, attempt)
  {
    var all := frames + [last];
    assert Reports(all, |frames|, generation, attempt) <==> last.UsageReport? && Mine(last, generation, attempt);
    assert forall i | 0 <= i < |frames| ::
        Reports(all, i, generation, attempt) <==> Reports(frames, i, generation, attempt);
    if !Reports(all, |frames|, generation, attempt) && known.Some? {
      var i :| 0 <= i < |frames| && Reports(frames, i, generation, attempt) && frames[i].usage == known.value
               && forall j | i < j < |frames| :: !Reports(frames, j, generation, attempt);
      assert Reports(all, i, generation, attempt) && all[i].usage == known.value;
    }
  }

  lemma {:induction false} LatestReport(frames: seq<Frame>, owed: seq<Frame>, known: Option<Budget.Usage>,
                                        generation: nat, attempt: nat)
    requires LastReport(frames, known, generation, attempt)
    ensures LastReport(frames + owed, LatestUsage(owed, generation, attempt, known), generation, attempt)
  {
    hide LastReport;
    if owed == [] {
      assert frames + owed == frames;
    } else {
      var init, last := owed[..|owed| - 1], owed[|owed| - 1];
      LatestReport(frames, init, known, generation, attempt);
      assert frames + owed == (frames + init) + [last];
      ReportOneMore(frames + init, last, LatestUsage(init, generation, attempt, known), generation, attempt);
    }
  }

  lemma {:induction false} SpeechOneMore(arrivals: seq<Arrival>, last: Arrival, generation: nat, attempt: nat)
    ensures Speech(arrivals + [last], generation, attempt)
            == Speech(arrivals, generation, attempt)
               + (if last.frame.Text? && Mine(last.frame, generation, attempt) && Unended(arrivals, generation, attempt)
                  then [last.frame.frame.text] else [])
    ensures Requests(arrivals + [last], generation, attempt)
            == Requests(arrivals, generation, attempt)
               + (if last.frame.Call? && Mine(last.frame, generation, attempt) && Unended(arrivals, generation, attempt)
                  then [last.frame] else [])
  {
    hide Unended;
    assert (arrivals + [last])[..|arrivals|] == arrivals;
  }

  lemma {:induction false} CallsAppend(a: seq<Frame>, b: seq<Frame>)
    ensures CallsIn(a + b) == CallsIn(a) + CallsIn(b)
  {
    if b == [] {
      assert a + b == a;
    } else {
      assert (a + b)[..|a + b| - 1] == a + b[..|b| - 1];
      CallsAppend(a, b[..|b| - 1]);
    }
  }

  lemma {:induction false} NoCallsSaid(frames: seq<SentenceGates.TextFrame>)
    ensures CallsIn(Said(frames)) == []
  {
    if frames != [] {
      NoCallsSaid(frames[..|frames| - 1]);
      CallsAppend(Said(frames[..|frames| - 1]), [Text(frames[|frames| - 1])]);
      assert CallsIn([Text(frames[|frames| - 1])]) == [];
    }
  }

  lemma {:induction false} OneCall(call: Frame)
    requires call.Call?
    ensures CallsIn([call]) == [call]
  {
    assert [call][..0] == [];
  }

  // ---------------------------------------------------------------------------------------------
  // What has been heard

  /** While the attempt is listened to: its texts, its calls, its end and its last usage, and nothing foreign. */
  ghost predicate KnowsAll(h: Heard, arrivals: seq<Arrival>, generation: nat, attempt: nat) {
    && h.texts == Speech(arrivals, generation, attempt)
    && CallsIn(h.emitted) == Requests(arrivals, generation, attempt)
    && (h.terminal.None? <==> Unended(arrivals, generation, attempt))
    && (h.terminal.Some? ==> EndedBy(arrivals, h.terminal.value, generation, attempt))
    && LastReport(FramesOf(arrivals), h.usage, generation, attempt)
  }

  lemma {:induction false} FramesOneMore(arrivals: seq<Arrival>, last: Arrival)
    ensures FramesOf(arrivals + [last]) == FramesOf(arrivals) + [last.frame]
  {
  }

  lemma {:induction false} HeardNothing(ct: SentenceGates.CharTable, generation: nat, attempt: nat)
    ensures KnowsAll(HearAll(ct, [], generation, attempt), [], generation, attempt)
  {
  }

  lemma KnowsOneMore(ct: SentenceGates.CharTable, h: Heard, arrivals: seq<Arrival>, last: Arrival, generation: nat,
                     attempt: nat)
    requires KnowsAll(h, arrivals, generation, attempt) && h.stop == Listening
    requires Mine(last.frame, generation, attempt) ==> last.current
    ensures KnowsAll(Hear(ct, h, last, generation, attempt), arrivals + [last], generation, attempt)
  {
    var next := Hear(ct, h, last, generation, attempt);
    SpeechOneMore(arrivals, last, generation, attempt);
    UnendedOneMore(arrivals, last, generation, attempt);
    if next.terminal.Some? {
      EndedOneMore(arrivals, last, next.terminal.value, generation, attempt);
    }
    FramesOneMore(arrivals, last);
    ReportOneMore(FramesOf(arrivals), last.frame, h.usage, generation, attempt);
    hide Unended, EndedBy, LastReport, FramesOf, Speech, Requests, Said, SentenceGates.FeedChunk, SentenceGates.Frames;
    if last.frame.Text? {
      var said := SentenceGates.Frames(SentenceGates.FeedChunk(ct, h.gate, last.frame.frame.text, 3).sentences,
                                       generation, attempt);
      NoCallsSaid(said);
      CallsAppend(h.emitted, Said(said));
    } else if last.frame.Call? {
      OneCall(last.frame);
      CallsAppend(h.emitted, [last.frame]);
    }
    hide CallsIn;
  }

  /** A limited gate releases no more. */
  lemma {:induction false} EnoughIsEnough(ct: SentenceGates.CharTable, texts: seq<string>, more: string)
    requires |SentenceGates.Run(ct, texts, 3).sentences| == 3 && SentenceGates.Run(ct, texts, 3).gate.limited
    ensures |SentenceGates.Run(ct, texts + [more], 3).sentences| == 3
            && SentenceGates.Run(ct, texts + [more], 3).gate.limited
  {
    SentenceGates.RunOneMore(ct, texts, more, 3);
  }

  /** The text of a stream that is listened to no more because it was enough, whatever else comes. */
  ghost predicate Full(ct: SentenceGates.CharTable, texts: seq<string>) {
    |SentenceGates.Run(ct, texts, 3).sentences| == 3 && SentenceGates.Run(ct, texts, 3).gate.limited
  }

  /**
   What has been heard. A stream is still listened to exactly as long as it is heeded, and then everything of it
   is known that matters.
   */
  lemma {:induction false} HeardExactly(ct: SentenceGates.CharTable, arrivals: seq<Arrival>, generation: nat,
                                        attempt: nat)
    ensures var h := HearAll(ct, arrivals, generation, attempt);
            && (h.stop == Listening <==> Heeded(ct, arrivals, generation, attempt))
            && (h.stop == Listening ==> KnowsAll(h, arrivals, generation, attempt))
            && (h.stop != Listening ==>
                  !Live(arrivals, generation, attempt) || Full(ct, Speech(arrivals, generation, attempt)))
  {
    hide Hear, KnowsAll, Live, Speech, Heeded, Full, SentenceGates.Run;
    if arrivals == [] {
      HeardNothing(ct, generation, attempt);
      NothingHeeded(ct, generation, attempt);
    } else {
      var init, last := arrivals[..|arrivals| - 1], arrivals[|arrivals| - 1];
      assert arrivals == init + [last];
      HeardExactly(ct, init, generation, attempt);
      HearAllInStep(ct, init, generation, attempt);
      HearAllInStep(ct, arrivals, generation, attempt);
      HeardOneMore(ct, HearAll(ct, init, generation, attempt), init, last, generation, attempt);
    }
  }

  lemma NothingHeeded(ct: SentenceGates.CharTable, generation: nat, attempt: nat)
    ensures Heeded(ct, [], generation, attempt)
  {
  }

  lemma {:induction false} HeardOneMore(ct: SentenceGates.CharTable, h: Heard, arrivals: seq<Arrival>, last: Arrival,
                                        generation: nat, attempt: nat)
    requires GateInStep(ct, h, generation, attempt)
    requires GateInStep(ct, Hear(ct, h, last, generation, attempt), generation, attempt)
    requires h.stop == Listening <==> Heeded(ct, arrivals, generation, attempt)
    requires h.stop == Listening ==> KnowsAll(h, arrivals, generation, attempt)
    requires h.stop != Listening ==>
               !Live(arrivals, generation, attempt) || Full(ct, Speech(arrivals, generation, attempt))
    ensures var next, all := Hear(ct, h, last, generation, attempt), arrivals + [last];
            && (next.stop == Listening <==> Heeded(ct, all, generation, attempt))
            && (next.stop == Listening ==> KnowsAll(next, all, generation, attempt))
            && (next.stop != Listening ==>
                  !Live(all, generation, attempt) || Full(ct, Speech(all, generation, attempt)))
  {
    var next, all := Hear(ct, h, last, generation, attempt), arrivals + [last];
    LiveOneMore(arrivals, last, generation, attempt);
    SpeechOneMore(arrivals, last, generation, attempt);
    hide Live, Unended, SentenceGates.Run, SentenceGates.FeedChunk, SentenceGates.Frames, Said, Texts, Speech;
    if h.stop != Listening {
      if Live(arrivals, generation, attempt) && last.frame.Text? {
        EnoughIsEnough(ct, Speech(arrivals, generation, attempt), last.frame.frame.text);
      }
      assert Speech(arrivals, generation, attempt) + [] == Speech(arrivals, generation, attempt);
    } else if Mine(last.frame, generation, attempt) ==> last.current {
      KnowsOneMore(ct, h, arrivals, last, generation, attempt);
    }
    hide CallsIn, Requests, EndedBy, LastReport, FramesOf;
  }

  /**
   Where listening stops: at the first frame that is no longer heeded. It stops as overtaken if the generation was
   not current then, and otherwise because a text has made the third sentence; what was known stays known.
   */
  lemma {:induction false} StopsExactly(ct: SentenceGates.CharTable, arrivals: seq<Arrival>, n: nat, generation: nat,
                                        attempt: nat)
    requires n < |arrivals| && Heeded(ct, arrivals[..n], generation, attempt)
    requires !Heeded(ct, arrivals[..n + 1], generation, attempt)
    ensures var h, frame := HearAll(ct, arrivals, generation, attempt), arrivals[n].frame;
            && Mine(frame, generation, attempt)
            && h.stop == (if arrivals[n].current then Enough else Overtaken)
            && (arrivals[n].current ==> frame.Text? && Unended(arrivals[..n], generation, attempt))
            && h.texts == Speech(arrivals[..if arrivals[n].current then n + 1 else n], generation, attempt)
            && CallsIn(h.emitted) == Requests(arrivals[..n], generation, attempt)
            && LastReport(FramesOf(arrivals[..n]), h.usage, generation, attempt)
  {
    var init, last := arrivals[..n], arrivals[n];
    assert arrivals[..n + 1] == init + [last];
    HeardExactly(ct, init, generation, attempt);
    HeardExactly(ct, arrivals[..n + 1], generation, attempt);
    HeardEnough(ct, arrivals, n + 1, generation, attempt);
    HearAllInStep(ct, arrivals[..n + 1], generation, attempt);
    StopsAt(ct, init, last, generation, attempt);
  }

  lemma {:induction false} StopsAt(ct: SentenceGates.CharTable, init: seq<Arrival>, last: Arrival, generation: nat,
                                   attempt: nat)
    requires var h := HearAll(ct, init, generation, attempt);
             h.stop == Listening && KnowsAll(h, init, generation, attempt)
    requires HearAll(ct, init + [last], generation, attempt).stop != Listening
    ensures var h := HearAll(ct, init + [last], generation, attempt);
            && Mine(last.frame, generation, attempt)
            && h.stop == (if last.current then Enough else Overtaken)
            && (last.current ==> last.frame.Text? && Unended(init, generation, attempt))
            && h.texts == Speech(if last.current then init + [last] else init, generation, attempt)
            && CallsIn(h.emitted) == Requests(init, generation, attempt)
            && LastReport(FramesOf(init), h.usage, generation, attempt)
  {
    assert (init + [last])[..|init|] == init;
    var h := HearAll(ct, init, generation, attempt);
    SpeechOneMore(init, last, generation, attempt);
    hide HearAll, Speech, Unended, EndedBy, Requests, LastReport, FramesOf, Said, SentenceGates.FeedChunk,
         SentenceGates.Frames;
    if last.frame.Text? {
      var said := SentenceGates.Frames(SentenceGates.FeedChunk(ct, h.gate, last.frame.frame.text, 3).sentences,
                                       generation, attempt);
      NoCallsSaid(said);
      CallsAppend(h.emitted, Said(said));
    }
    hide CallsIn;
  }

  // ---------------------------------------------------------------------------------------------
  // What the attempt reports

  /** The status, the error code and whether a retry is asked for, of a stream that was heeded to its end. */
  ghost predicate EndsBy(arrivals: seq<Arrival>, silent: bool, r: AttemptResult, generation: nat, attempt: nat) {
    if Unended(arrivals, generation, attempt)
    then r.status == Error && r.errorCode == Some("stream_incomplete") && r.retryLuna == silent
    else exists end: Frame ::
           && end.Terminal? && EndedBy(arrivals, end, generation, attempt)
           && if end.status.AttemptCompleted? then r.status == Completed && r.errorCode.None? && !r.retryLuna
              else r.status == Error && r.errorCode == end.errorCode && r.retryLuna == (end.transient && silent)
  }

  /**
   An attempt heeded to its end reports what its first terminal frame says, and an incomplete stream without one;
   a retry is asked for exactly after a transient failure before anything was said. It is charged its last own
   report.
   */
  lemma {:induction false} EndsExactly(ct: SentenceGates.CharTable, errorText: string, script: Script, generation: nat,
                                       attempt: nat)
    requires Heeded(ct, script.arrivals, generation, attempt)
    ensures var a := Attempt(ct, errorText, script, generation, attempt);
            var spoken := SentenceGates.Run(ct, Speech(script.arrivals, generation, attempt), 3).sentences;
            && EndsBy(script.arrivals, spoken == [], a.result, generation, attempt)
            && LastReport(FramesOf(script.arrivals), a.usage, generation, attempt)
  {
    HeardExactly(ct, script.arrivals, generation, attempt);
    HearAllInStep(ct, script.arrivals, generation, attempt);
    hide HearAll, Heeded, Speech, Unended, EndedBy, Requests, LastReport, FramesOf, Said, SentenceGates.Run,
         SentenceGates.Flush, SentenceGates.Frames, Texts, CallsIn;
  }

  /**
   An attempt that is not heeded to its end has completed if it had said three sentences, and was cancelled if
   the generation had changed; it asks for no retry, and is charged its last own report, what the provider still
   owed included.
   */
  lemma StopsWith(ct: SentenceGates.CharTable, errorText: string, script: Script, n: nat, generation: nat, attempt: nat)
    requires n < |script.arrivals| && Heeded(ct, script.arrivals[..n], generation, attempt)
    requires !Heeded(ct, script.arrivals[..n + 1], generation, attempt)
    ensures var a := Attempt(ct, errorText, script, generation, attempt);
            && a.result.status == (if script.arrivals[n].current then Completed else Cancelled)
            && a.result.errorCode.None? && !a.result.retryLuna
            && LastReport(FramesOf(script.arrivals[..n]) + script.owed, a.usage, generation, attempt)
  {
    StopsExactly(ct, script.arrivals, n, generation, attempt);
    HearAllInStep(ct, script.arrivals, generation, attempt);
    var h := HearAll(ct, script.arrivals, generation, attempt);
    LatestReport(FramesOf(script.arrivals[..n]), script.owed, h.usage, generation, attempt);
    hide HearAll, Heeded, Speech, Unended, Requests, LastReport, FramesOf, CallsIn, LatestUsage, GateInStep;
  }

  /** A stream that is not heeded has a first place where it is not. */
  lemma {:induction false} FirstUnheeded(ct: SentenceGates.CharTable, arrivals: seq<Arrival>, generation: nat,
                                         attempt: nat)
    returns (n: nat)
    requires !Heeded(ct, arrivals, generation, attempt)
    ensures n < |arrivals| && Heeded(ct, arrivals[..n], generation, attempt)
            && !Heeded(ct, arrivals[..n + 1], generation, attempt)
  {
    hide Heeded;
    if arrivals == [] {
      NothingHeeded(ct, generation, attempt);
      assert false;
    } else {
      var init := arrivals[..|arrivals| - 1];
      if Heeded(ct, init, generation, attempt) {
        n := |init|;
        assert arrivals[..n + 1] == arrivals;
      } else {
        n := FirstUnheeded(ct, init, generation, attempt);
        assert init[..n] == arrivals[..n] && init[..n + 1] == arrivals[..n + 1];
      }
    }
  }

  /** The provider failed for a passing reason, or did not end its stream, before anything was said. */
  ghost predicate FailsInSilence(ct: SentenceGates.CharTable, arrivals: seq<Arrival>, generation: nat, attempt: nat) {
    && Live(arrivals, generation, attempt)
    && SentenceGates.Run(ct, Speech(arrivals, generation, attempt), 3).sentences == []
    && (Unended(arrivals, generation, attempt)
        || exists end: Frame :: end.Terminal? && EndedBy(arrivals, end, generation, attempt)
                                && !end.status.AttemptCompleted? && end.transient)
  }

  lemma {:induction false} OneEnd(arrivals: seq<Arrival>, a: Frame, b: Frame, generation: nat, attempt: nat)
    requires EndedBy(arrivals, a, generation, attempt) && EndedBy(arrivals, b, generation, attempt)
    ensures a == b && !Unended(arrivals, generation, attempt)
  {
    var i :| 0 <= i < |arrivals| && arrivals[i].frame == a && EndsAt(arrivals, i, generation, attempt)
             && Unended(arrivals[..i], generation, attempt);
    var j :| 0 <= j < |arrivals| && arrivals[j].frame == b && EndsAt(arrivals, j, generation, attempt)
             && Unended(arrivals[..j], generation, attempt);
    if i < j {
      assert EndsAt(arrivals[..j], i, generation, attempt);
    } else if j < i {
      assert EndsAt(arrivals[..i], j, generation, attempt);
    }
  }

  /** A retry is asked for exactly after a failure in silence. */
  lemma AsksExactly(ct: SentenceGates.CharTable, errorText: string, script: Script, generation: nat, attempt: nat)
    ensures Attempt(ct, errorText, script, generation, attempt).result.retryLuna
            <==> FailsInSilence(ct, script.arrivals, generation, attempt)
  {
    var arrivals := script.arrivals;
    if Heeded(ct, arrivals, generation, attempt) {
      EndsExactly(ct, errorText, script, generation, attempt);
      forall a: Frame, b: Frame | EndedBy(arrivals, a, generation, attempt) && EndedBy(arrivals, b, generation, attempt)
        ensures a == b
      {
        OneEnd(arrivals, a, b, generation, attempt);
      }
    } else {
      var n := FirstUnheeded(ct, arrivals, generation, attempt);
      StopsWith(ct, errorText, script, n, generation, attempt);
    }
    hide Attempt, Unended, EndedBy, Speech, SentenceGates.Run, LastReport, FramesOf, Live;
  }

  // ---------------------------------------------------------------------------------------------
  // What is emitted in silence

  predicate SpokenOrCalled(emitted: seq<Frame>) {
    forall i | 0 <= i < |emitted| :: emitted[i].Text? || emitted[i].Call?
  }

  lemma {:induction false} SaidIsSpoken(frames: seq<SentenceGates.TextFrame>)
    ensures SpokenOrCalled(Said(frames))
  {
    if frames != [] {
      SaidIsSpoken(frames[..|frames| - 1]);
    }
  }

  lemma {:induction false} EmittedIsSpokenOrCalled(ct: SentenceGates.CharTable, arrivals: seq<Arrival>,
                                                   generation: nat, attempt: nat)
    ensures SpokenOrCalled(HearAll(ct, arrivals, generation, attempt).emitted)
  {
    hide SentenceGates.FeedChunk, SentenceGates.Frames, Said;
    if arrivals != [] {
      var init, last := arrivals[..|arrivals| - 1], arrivals[|arrivals| - 1];
      EmittedIsSpokenOrCalled(ct, init, generation, attempt);
      if last.frame.Text? {
        var gate := HearAll(ct, init, generation, attempt).gate;
        SaidIsSpoken(SentenceGates.Frames(SentenceGates.FeedChunk(ct, gate, last.frame.frame.text, 3).sentences,
                                          generation, attempt));
      }
    }
  }

  lemma {:induction false} OnlyCalls(emitted: seq<Frame>)
    requires SpokenOrCalled(emitted) && Texts(emitted) == []
    ensures CallsIn(emitted) == emitted
  {
    if emitted != [] {
      var init, last := emitted[..|emitted| - 1], emitted[|emitted| - 1];
      assert emitted == init + [last];
      TextsOneMore(init, last);
      OnlyCalls(init);
    }
  }

  /** An attempt that fails in silence has emitted its own calls and nothing else. */
  lemma {:induction false} SilenceEmits(ct: SentenceGates.CharTable, errorText: string, script: Script, generation: nat,
                                        attempt: nat)
    requires FailsInSilence(ct, script.arrivals, generation, attempt)
    ensures Attempt(ct, errorText, script, generation, attempt).emitted
            == Requests(script.arrivals, generation, attempt)
  {
    var h := HearAll(ct, script.arrivals, generation, attempt);
    HeardExactly(ct, script.arrivals, generation, attempt);
    AsksExactly(ct, errorText, script, generation, attempt);
    AttemptSpeaks(ct, errorText, script, generation, attempt);
    EmittedIsSpokenOrCalled(ct, script.arrivals, generation, attempt);
    HearAllInStep(ct, script.arrivals, generation, attempt);
    SilentConclusion(ct, errorText, h, script.owed, generation, attempt);
    OnlyCalls(h.emitted);
    hide HearAll, Conclude, Texts, CallsIn, Requests, SpokenOrCalled;
  }

  lemma SilentConclusion(ct: SentenceGates.CharTable, errorText: string, h: Heard, owed: seq<Frame>, generation: nat,
                         attempt: nat)
    requires h.terminal.Some? ==> h.terminal.value.Terminal?
    requires Conclude(ct, errorText, h, owed, generation, attempt).result.retryLuna
    ensures Conclude(ct, errorText, h, owed, generation, attempt).emitted == h.emitted
  {
  }

  /**
   Luna is tried after Terra exactly if Terra failed in silence, without raising, the sink took what there was
   to take, and the generation is still current.
   */
  lemma {:induction false} RetriesExactly(generator: ConversationGenerator, r: Budget.Reservation, generation: nat,
                       scripts: (Budget.Model, nat) -> Script)
    ensures var script := scripts(r.model, r.id);
            generator.Retries(r, generation, scripts)
            <==> && r.model.Terra? && !script.breaks && script.currentAfter
                 && FailsInSilence(generator.ct, script.arrivals, generation, r.id)
                 && (script.takes.Some? ==>
                       |Requests(script.arrivals, generation, r.id)| <= script.takes.value)
  {
    var script := scripts(r.model, r.id);
    generator.IsAttempted(r, generation, scripts);
    AsksExactly(generator.ct, generator.errorText, script, generation, r.id);
    if FailsInSilence(generator.ct, script.arrivals, generation, r.id) {
      SilenceEmits(generator.ct, generator.errorText, script, generation, r.id);
    }
    hide Attempt, FailsInSilence, Requests;
  }
}
