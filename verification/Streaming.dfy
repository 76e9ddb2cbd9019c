/**
 One bounded response: a reserved attempt, and a second one on Luna if Terra failed before anything was said.

 What a provider will stream, what it still owes after a cancellation, whether it or the sink raises, and
 whether the generation is still current at each of these moments are arbitrary; `Script` holds one such choice.
 `Attempt` says what an attempt makes of a script if nothing raises, `AttemptSpeaks` what that amounts to,
 `Play` how far it gets otherwise, and `Generate` that attempts are made, settled and counted as promised.
 */
module Streaming {
  import opened Wrappers
  import Budget
  import SentenceGates

  datatype TerminalStatus = AttemptCompleted | AttemptFailed | AttemptIncomplete | AttemptCancelled

  datatype Frame =
    | Text(frame: SentenceGates.TextFrame)
    | Call(generation: nat, attempt: nat, name: string)
    | UsageReport(generation: nat, usage: Budget.Usage)
    | Terminal(generation: nat, attempt: nat, status: TerminalStatus, transient: bool, errorCode: Option<string>)
  {
    predicate BelongsTo(generation: nat, attempt: nat) {
      match this
      case Text(f) => f.generation == generation && f.attempt == attempt
      case Call(g, a, _) => g == generation && a == attempt
      case UsageReport(g, u) => g == generation && u.attempt == attempt
      case Terminal(g, a, _, _, _) => g == generation && a == attempt
    }

    predicate Valid() {
      this.UsageReport? ==> usage.Valid()
    }
  }

  /** A frame and whether the generation is still current when it arrives. */
  datatype Arrival = Arrival(frame: Frame, current: bool)

  /**
   `breaks`: the provider raises, instead of ending its stream or instead of answering when it is asked to stop.
   `takes`: how many frames the sink takes before it raises.
   */
  datatype Script = Script(
    arrivals: seq<Arrival>, owed: seq<Frame>, currentAfter: bool, breaks: bool, takes: Option<nat>)
  {
    predicate Valid() {
      && (forall i | 0 <= i < |arrivals| :: arrivals[i].frame.Valid())
      && (forall i | 0 <= i < |owed| :: owed[i].Valid())
    }
  }

  datatype Status = Completed | Cancelled | Error | BudgetLocked

  datatype AttemptResult = AttemptResult(status: Status, sentences: nat, errorCode: Option<string>, retryLuna: bool)

  datatype GenerationResult = GenerationResult(status: Status, models: seq<Budget.Model>, sentences: nat,
                                               errorCode: Option<string>)

  /** The text among what was emitted. */
  function Texts(emitted: seq<Frame>): seq<SentenceGates.TextFrame> {
    if emitted == [] then []
    else Texts(emitted[..|emitted| - 1]) + if emitted[|emitted| - 1].Text? then [emitted[|emitted| - 1].frame] else []
  }

  lemma NoTexts()
    ensures Texts([]) == []
  {
  }

  lemma {:induction false} TextsOneMore(emitted: seq<Frame>, last: Frame)
    ensures Texts(emitted + [last]) == Texts(emitted) + if last.Text? then [last.frame] else []
  {
    assert (emitted + [last])[..|emitted|] == emitted;
  }

  lemma {:induction false} TextsAppend(a: seq<Frame>, b: seq<Frame>)
    ensures Texts(a + b) == Texts(a) + Texts(b)
  {
    if b == [] {
      assert a + b == a;
    } else {
      var init, last := b[..|b| - 1], b[|b| - 1];
      assert a + b == (a + init) + [last];
      TextsAppend(a, init);
      TextsOneMore(a + init, last);
      TextsOneMore(init, last);
      assert b == init + [last];
    }
  }

  /** The last usage that belongs to the attempt, or the one known before. */
  function LatestUsage(owed: seq<Frame>, generation: nat, attempt: nat,
                       known: Option<Budget.Usage>): Option<Budget.Usage>
  {
    if owed == [] then known
    else
      var last := owed[|owed| - 1];
      if last.UsageReport? && last.BelongsTo(generation, attempt) then Some(last.usage)
      else LatestUsage(owed[..|owed| - 1], generation, attempt, known)
  }

  lemma {:induction false} LatestIsOwn(owed: seq<Frame>, generation: nat, attempt: nat, known: Option<Budget.Usage>)
    requires forall i | 0 <= i < |owed| :: owed[i].Valid()
    requires known.Some? ==> known.value.Valid() && known.value.attempt == attempt
    ensures var u := LatestUsage(owed, generation, attempt, known);
            u.Some? ==> u.value.Valid() && u.value.attempt == attempt
  {
    if owed != [] {
      assert owed[|owed| - 1].Valid();
      LatestIsOwn(owed[..|owed| - 1], generation, attempt, known);
    }
  }

  // ---------------------------------------------------------------------------------------------
  // One attempt, as a function of its script

  datatype Stop = Listening | Overtaken | Enough

  /** What has been heard of a stream: the texts that went into the gate, and what came out of it. */
  datatype Heard = Heard(
    texts: seq<string>, gate: SentenceGates.Gate, emitted: seq<Frame>, usage: Option<Budget.Usage>,
    terminal: Option<Frame>, stop: Stop)

  function Said(frames: seq<SentenceGates.TextFrame>): seq<Frame> {
    if frames == [] then [] else Said(frames[..|frames| - 1]) + [Text(frames[|frames| - 1])]
  }

  /**
   One frame: foreign ones are ignored, a stale one ends the attempt, and after the terminal one only usage
   matters.
   */
  function Hear(ct: SentenceGates.CharTable, h: Heard, arrival: Arrival, generation: nat, attempt: nat): Heard {
    var frame := arrival.frame;
    if h.stop != Listening || !frame.BelongsTo(generation, attempt) then h
    else if !arrival.current then h.(stop := Overtaken)
    else if frame.UsageReport? then h.(usage := Some(frame.usage))
    else if h.terminal.Some? then h
    else
      match frame
      case Text(text) =>
        var fed := SentenceGates.FeedChunk(ct, h.gate, text.text, 3);
        h.(texts := h.texts + [text.text], gate := fed.gate,
           emitted := h.emitted + Said(SentenceGates.Frames(fed.sentences, generation, attempt)),
           stop := if fed.gate.limited then Enough else Listening)
      case Call(_, _, _) => h.(emitted := h.emitted + [frame])
      case Terminal(_, _, _, _, _) => h.(terminal := Some(frame))
  }

  function HearAll(ct: SentenceGates.CharTable, arrivals: seq<Arrival>, generation: nat, attempt: nat): Heard {
    if arrivals == [] then Heard([], SentenceGates.START, [], None, None, Listening)
    else
      Hear(ct, HearAll(ct, arrivals[..|arrivals| - 1], generation, attempt),
           arrivals[|arrivals| - 1], generation, attempt)
  }

  datatype Attempted = Attempted(emitted: seq<Frame>, usage: Option<Budget.Usage>, result: AttemptResult)

  function EndOf(terminal: Option<Frame>, generation: nat, attempt: nat): (end: Frame)
    requires terminal.Some? ==> terminal.value.Terminal?
    ensures end.Terminal?
  {
    if terminal.Some? then terminal.value
    else Terminal(generation, attempt, AttemptIncomplete, true, Some("stream_incomplete"))
  }

  /** An attempt that has been listened to for the last time. */
  function Conclude(ct: SentenceGates.CharTable, errorText: string, h: Heard, owed: seq<Frame>, generation: nat,
                    attempt: nat): Attempted
    requires h.terminal.Some? ==> h.terminal.value.Terminal?
  {
    if h.stop != Listening then
      Attempted(h.emitted, LatestUsage(owed, generation, attempt, h.usage),
                AttemptResult(if h.stop == Enough then Completed else Cancelled, h.gate.released, None, false))
    else
      var end := EndOf(h.terminal, generation, attempt);
      if end.status == AttemptCompleted then
        var last := SentenceGates.Flush(ct, h.gate, 3);
        Attempted(h.emitted + Said(SentenceGates.Frames(last.sentences, generation, attempt)), h.usage,
                  AttemptResult(Completed, last.gate.released, None, false))
      else if h.gate.released > 0 then
        Attempted(h.emitted + [Text(SentenceGates.TextFrame(errorText, generation, attempt))], h.usage,
                  AttemptResult(Error, h.gate.released + 1, end.errorCode, false))
      else
        Attempted(h.emitted, h.usage, AttemptResult(Error, 0, end.errorCode, end.transient))
  }

  function Attempt(ct: SentenceGates.CharTable, errorText: string, script: Script, generation: nat,
                   attempt: nat): Attempted
  {
    HearAllInStep(ct, script.arrivals, generation, attempt);
    Conclude(ct, errorText, HearAll(ct, script.arrivals, generation, attempt), script.owed, generation, attempt)
  }

  /** The sink takes all of it, or what it takes before it raises. */
  predicate Takes(takes: Option<nat>, frames: seq<Frame>) {
    takes.None? || |frames| <= takes.value
  }

  function Taken(takes: Option<nat>, frames: seq<Frame>): seq<Frame> {
    if Takes(takes, frames) then frames else frames[..takes.value]
  }

  /** The local error sentence is said last, after the settlement. */
  predicate Apologises(a: Attempted) {
    a.result.status == Error && a.result.sentences > 0
  }

  /** How far an attempt gets: no result if something raised, and whether the reservation has been settled by then. */
  datatype Outcome = Outcome(result: Option<AttemptResult>, emitted: seq<Frame>, settled: bool)

  function Play(ct: SentenceGates.CharTable, errorText: string, script: Script, generation: nat, attempt: nat): Outcome
  {
    var a := Attempt(ct, errorText, script, generation, attempt);
    if script.breaks then
      Outcome(None, Taken(script.takes, HearAll(ct, script.arrivals, generation, attempt).emitted), false)
    else
      Outcome(
        if Takes(script.takes, a.emitted) then Some(a.result) else None,
        Taken(script.takes, a.emitted),
        Takes(script.takes, a.emitted) || (Apologises(a) && script.takes.value == |a.emitted| - 1))
  }

  // ---------------------------------------------------------------------------------------------
  // What an attempt amounts to

  lemma {:induction false} TextsOfSaid(frames: seq<SentenceGates.TextFrame>)
    ensures Texts(Said(frames)) == frames
  {
    if frames != [] {
      TextsOfSaid(frames[..|frames| - 1]);
      TextsOneMore(Said(frames[..|frames| - 1]), Text(frames[|frames| - 1]));
    }
  }

  lemma {:induction false} FramesAppend(a: seq<string>, b: seq<string>, generation: nat, attempt: nat)
    ensures SentenceGates.Frames(a + b, generation, attempt)
            == SentenceGates.Frames(a, generation, attempt) + SentenceGates.Frames(b, generation, attempt)
  {
    if b == [] {
      assert a + b == a;
    } else {
      var init, last := b[..|b| - 1], b[|b| - 1];
      assert a + b == (a + init) + [last];
      FramesAppend(a, init, generation, attempt);
      SentenceGates.FramesOneMore(a + init, last, generation, attempt);
    }
  }

  /** The gate has seen exactly the texts, and the text emitted is exactly what it released. */
  ghost predicate GateInStep(ct: SentenceGates.CharTable, h: Heard, generation: nat, attempt: nat) {
    var run := SentenceGates.Run(ct, h.texts, 3);
    && h.gate == run.gate
    && Texts(h.emitted) == SentenceGates.Frames(run.sentences, generation, attempt)
    && |run.sentences| == h.gate.released <= 3
    && (h.gate.limited <==> h.gate.released == 3)
    && (h.gate.limited <==> h.stop == Enough)
  }

  lemma {:induction false} TextInStep(ct: SentenceGates.CharTable, h: Heard, text: string, generation: nat,
                                      attempt: nat)
    requires GateInStep(ct, h, generation, attempt) && h.stop == Listening
    ensures var fed := SentenceGates.FeedChunk(ct, h.gate, text, 3);
            GateInStep(ct, h.(texts := h.texts + [text], gate := fed.gate,
                              emitted := h.emitted + Said(SentenceGates.Frames(fed.sentences, generation, attempt)),
                              stop := if fed.gate.limited then Enough else Listening), generation, attempt)
  {
    var fed := SentenceGates.FeedChunk(ct, h.gate, text, 3);
    SentenceGates.FeedCounts(ct, h.gate, text, 3);
    SentenceGates.RunOneMore(ct, h.texts, text, 3);
    hide SentenceGates.Run, SentenceGates.FeedChunk, SentenceGates.Frames, Texts, Said;
    TextsOfSaid(SentenceGates.Frames(fed.sentences, generation, attempt));
    TextsAppend(h.emitted, Said(SentenceGates.Frames(fed.sentences, generation, attempt)));
    FramesAppend(SentenceGates.Run(ct, h.texts, 3).sentences, fed.sentences, generation, attempt);
  }

  lemma {:induction false} NothingInStep(ct: SentenceGates.CharTable, generation: nat, attempt: nat)
    ensures HearAll(ct, [], generation, attempt) == Heard([], SentenceGates.START, [], None, None, Listening)
    ensures GateInStep(ct, HearAll(ct, [], generation, attempt), generation, attempt)
  {
  }

  lemma SameGate(ct: SentenceGates.CharTable, h: Heard, t: Heard, generation: nat, attempt: nat)
    requires GateInStep(ct, h, generation, attempt)
    requires t.texts == h.texts && t.gate == h.gate && Texts(t.emitted) == Texts(h.emitted)
             && (t.stop == Enough <==> h.stop == Enough)
    ensures GateInStep(ct, t, generation, attempt)
  {
    hide SentenceGates.Run, SentenceGates.Frames, Texts;
  }

  lemma HearInStep(ct: SentenceGates.CharTable, h: Heard, last: Arrival, generation: nat, attempt: nat)
    requires GateInStep(ct, h, generation, attempt) && (h.terminal.Some? ==> h.terminal.value.Terminal?)
    ensures var next := Hear(ct, h, last, generation, attempt);
            GateInStep(ct, next, generation, attempt) && (next.terminal.Some? ==> next.terminal.value.Terminal?)
  {
    hide GateInStep, SentenceGates.FeedChunk, SentenceGates.Frames, Said, Texts;
    TextsOneMore(h.emitted, last.frame);
    var next := Hear(ct, h, last, generation, attempt);
    if next.texts == h.texts {
      SameGate(ct, h, next, generation, attempt);
    } else {
      TextInStep(ct, h, last.frame.frame.text, generation, attempt);
    }
  }

  lemma {:induction false} HearAllInStep(ct: SentenceGates.CharTable, arrivals: seq<Arrival>, generation: nat,
                                         attempt: nat)
    ensures var h := HearAll(ct, arrivals, generation, attempt);
            GateInStep(ct, h, generation, attempt) && (h.terminal.Some? ==> h.terminal.value.Terminal?)
  {
    hide GateInStep, Hear;
    if arrivals == [] {
      NothingInStep(ct, generation, attempt);
    } else {
      HearAllInStep(ct, arrivals[..|arrivals| - 1], generation, attempt);
      HearInStep(ct, HearAll(ct, arrivals[..|arrivals| - 1], generation, attempt), arrivals[|arrivals| - 1],
                 generation, attempt);
    }
  }

  /**
   What is heard of an attempt: the sentences the gate makes of its texts, the remainder only if it completed,
   the error sentence only if it broke off after something was said; and a retry is asked for only in silence.
   */
  lemma {:induction false} AttemptSpeaks(ct: SentenceGates.CharTable, errorText: string, script: Script,
                                         generation: nat, attempt: nat)
    ensures var h, a := HearAll(ct, script.arrivals, generation, attempt),
                        Attempt(ct, errorText, script, generation, attempt);
            && Texts(a.emitted) == SentenceGates.Frames(
                 (if a.result.status == Completed && h.stop == Listening then SentenceGates.Released(ct, h.texts, 3)
                  else SentenceGates.Run(ct, h.texts, 3).sentences)
                 + (if a.result.status == Error && h.gate.released > 0 then [errorText] else []), generation, attempt)
            && a.result.sentences == |Texts(a.emitted)| <= 3
            && (a.result.retryLuna ==> a.result.status == Error && Texts(a.emitted) == [])
  {
    HearAllInStep(ct, script.arrivals, generation, attempt);
    hide HearAll, LatestUsage, SentenceGates.Run, SentenceGates.Frames, SentenceGates.Flush, SentenceGates.Released,
         Texts, Said;
    var h := HearAll(ct, script.arrivals, generation, attempt);
    var released := SentenceGates.Run(ct, h.texts, 3).sentences;
    SentenceGates.FramesAre(released, generation, attempt);
    assert released + [] == released;
    var end := EndOf(h.terminal, generation, attempt);
    if h.stop == Listening && end.status == AttemptCompleted {
      FlushSpeaks(ct, h, generation, attempt);
      assert SentenceGates.Released(ct, h.texts, 3) + [] == SentenceGates.Released(ct, h.texts, 3);
    } else if h.stop == Listening && h.gate.released > 0 {
      TextsOneMore(h.emitted, Text(SentenceGates.TextFrame(errorText, generation, attempt)));
      SentenceGates.FramesOneMore(released, errorText, generation, attempt);
    }
  }

  lemma AttemptCounts(ct: SentenceGates.CharTable, errorText: string, script: Script, generation: nat, attempt: nat)
    ensures var a := Attempt(ct, errorText, script, generation, attempt);
            a.result.sentences == |Texts(a.emitted)| <= 3 && (a.result.retryLuna ==> Texts(a.emitted) == [])
  {
    hide Attempt, Texts;
    AttemptSpeaks(ct, errorText, script, generation, attempt);
  }

  lemma {:induction false} FlushSpeaks(ct: SentenceGates.CharTable, h: Heard, generation: nat, attempt: nat)
    requires GateInStep(ct, h, generation, attempt)
    ensures var last := SentenceGates.Flush(ct, h.gate, 3);
            && Texts(h.emitted + Said(SentenceGates.Frames(last.sentences, generation, attempt)))
               == SentenceGates.Frames(SentenceGates.Released(ct, h.texts, 3), generation, attempt)
            && last.gate.released
               == |SentenceGates.Frames(SentenceGates.Released(ct, h.texts, 3), generation, attempt)| <= 3
  {
    SentenceGates.FlushCounts(ct, h.gate, 3);
    hide SentenceGates.Flush, SentenceGates.Frames, SentenceGates.Run, Texts, Said;
    var last := SentenceGates.Flush(ct, h.gate, 3);
    TextsOfSaid(SentenceGates.Frames(last.sentences, generation, attempt));
    TextsAppend(h.emitted, Said(SentenceGates.Frames(last.sentences, generation, attempt)));
    FramesAppend(SentenceGates.Run(ct, h.texts, 3).sentences, last.sentences, generation, attempt);
    SentenceGates.FramesAre(SentenceGates.Released(ct, h.texts, 3), generation, attempt);
  }

  lemma {:induction false} HeardEnough(ct: SentenceGates.CharTable, arrivals: seq<Arrival>, i: nat, generation: nat,
                                       attempt: nat)
    requires i <= |arrivals| && HearAll(ct, arrivals[..i], generation, attempt).stop != Listening
    ensures HearAll(ct, arrivals, generation, attempt) == HearAll(ct, arrivals[..i], generation, attempt)
    decreases |arrivals|
  {
    if i < |arrivals| {
      var init := arrivals[..|arrivals| - 1];
      assert init[..i] == arrivals[..i];
      HeardEnough(ct, init, i, generation, attempt);
    } else {
      assert arrivals[..i] == arrivals;
    }
  }

  lemma {:induction false} EmittedGrows(ct: SentenceGates.CharTable, arrivals: seq<Arrival>, i: nat, generation: nat,
                                        attempt: nat)
    requires i <= |arrivals|
    ensures HearAll(ct, arrivals[..i], generation, attempt).emitted
            <= HearAll(ct, arrivals, generation, attempt).emitted
    decreases |arrivals|
  {
    hide SentenceGates.FeedChunk, Said;
    if i < |arrivals| {
      var init := arrivals[..|arrivals| - 1];
      assert init[..i] == arrivals[..i];
      EmittedGrows(ct, init, i, generation, attempt);
    } else {
      assert arrivals[..i] == arrivals;
    }
  }

  lemma ConcludeGrows(ct: SentenceGates.CharTable, errorText: string, h: Heard, owed: seq<Frame>, generation: nat,
                      attempt: nat)
    requires h.terminal.Some? ==> h.terminal.value.Terminal?
    ensures var a := Conclude(ct, errorText, h, owed, generation, attempt);
            h.emitted <= a.emitted && (Apologises(a) ==> |a.emitted| == |h.emitted| + 1)
  {
    hide SentenceGates.Flush, Said;
  }

  /** If the sink raises while the stream is still being heard, nothing is settled. */
  lemma {:induction false} RaisesWithin(ct: SentenceGates.CharTable, errorText: string, script: Script, i: nat,
                                        generation: nat,
                                        attempt: nat)
    requires i <= |script.arrivals|
             && !Takes(script.takes, HearAll(ct, script.arrivals[..i], generation, attempt).emitted)
    ensures Play(ct, errorText, script, generation, attempt)
            == Outcome(None, Taken(script.takes, HearAll(ct, script.arrivals[..i], generation, attempt).emitted), false)
  {
    HearAllInStep(ct, script.arrivals, generation, attempt);
    EmittedGrows(ct, script.arrivals, i, generation, attempt);
    hide HearAll, Conclude, GateInStep;
    ConcludeGrows(ct, errorText, HearAll(ct, script.arrivals, generation, attempt), script.owed, generation, attempt);
  }

  lemma {:induction false} FewerTexts(emitted: seq<Frame>, n: nat)
    requires n <= |emitted|
    ensures |Texts(emitted[..n])| <= |Texts(emitted)|
  {
    if n == |emitted| {
      assert emitted[..n] == emitted;
    } else {
      assert emitted[..|emitted| - 1][..n] == emitted[..n];
      FewerTexts(emitted[..|emitted| - 1], n);
    }
  }

  /** At most three sentences reach the sink whatever raises; and an attempt that returns has been settled. */
  lemma PlayCounts(ct: SentenceGates.CharTable, errorText: string, script: Script, generation: nat, attempt: nat)
    ensures var o := Play(ct, errorText, script, generation, attempt);
            && |Texts(o.emitted)| <= 3
            && (o.result.Some? ==>
                  o.settled && o.result.value == Attempt(ct, errorText, script, generation, attempt).result
                  && o.result.value.sentences == |Texts(o.emitted)|
                  && (o.result.value.retryLuna ==> Texts(o.emitted) == []))
  {
    hide HearAll, Conclude, Texts;
    HearAllInStep(ct, script.arrivals, generation, attempt);
    AttemptCounts(ct, errorText, script, generation, attempt);
    var h, a := HearAll(ct, script.arrivals, generation, attempt), Attempt(ct, errorText, script, generation, attempt);
    HeardCounts(ct, h, generation, attempt);
    if !Takes(script.takes, h.emitted) {
      FewerTexts(h.emitted, script.takes.value);
    }
    if !Takes(script.takes, a.emitted) {
      FewerTexts(a.emitted, script.takes.value);
    }
  }

  lemma HeardCounts(ct: SentenceGates.CharTable, h: Heard, generation: nat, attempt: nat)
    requires GateInStep(ct, h, generation, attempt)
    ensures |Texts(h.emitted)| <= 3
  {
    hide SentenceGates.Run, SentenceGates.Frames, Texts;
    SentenceGates.FramesAre(SentenceGates.Run(ct, h.texts, 3).sentences, generation, attempt);
  }

  lemma {:induction false} HeardOne(ct: SentenceGates.CharTable, script: Script, i: nat, generation: nat, attempt: nat)
    requires i < |script.arrivals|
    ensures var h := HearAll(ct, script.arrivals[..i], generation, attempt);
            && GateInStep(ct, h, generation, attempt) && (h.terminal.Some? ==> h.terminal.value.Terminal?)
            && HearAll(ct, script.arrivals[..i + 1], generation, attempt)
               == Hear(ct, h, script.arrivals[i], generation, attempt)
            && GateInStep(ct, HearAll(ct, script.arrivals[..i + 1], generation, attempt), generation, attempt)
  {
    assert script.arrivals[..i + 1][..i] == script.arrivals[..i];
    HearAllInStep(ct, script.arrivals[..i], generation, attempt);
    HearAllInStep(ct, script.arrivals[..i + 1], generation, attempt);
  }

  /** Usage that was heard is usage of this attempt. */
  lemma {:induction false} UsageIsOwn(ct: SentenceGates.CharTable, arrivals: seq<Arrival>, generation: nat,
                                      attempt: nat)
    requires forall i | 0 <= i < |arrivals| :: arrivals[i].frame.Valid()
    ensures var u := HearAll(ct, arrivals, generation, attempt).usage;
            u.Some? ==> u.value.Valid() && u.value.attempt == attempt
  {
    if arrivals != [] {
      UsageIsOwn(ct, arrivals[..|arrivals| - 1], generation, attempt);
      assert arrivals[|arrivals| - 1].frame.Valid();
    }
  }

  /** The open attempt is the newest reservation; settling it leaves exactly the others. */
  ghost predicate Newest(l: Budget.Ledger, r: Budget.Reservation) {
    l.active != [] && l.active[|l.active| - 1] == r
  }

  lemma SettleNewest(l: Budget.Ledger, r: Budget.Reservation, usage: Option<Budget.Usage>)
    requires Newest(l, r) && (usage.Some? ==> usage.value.Valid() && usage.value.attempt == r.id)
    ensures var o := Budget.Settle(l, r.id, usage);
            && o.Done? && o.value.reservation == r && o.value.usage == usage
            && o.ledger.active == l.active[..|l.active| - 1]
            && o.ledger.settled == l.settled + [o.value]
            && o.ledger.issued == l.issued
  {
    assert Budget.IndexOf(l.active, r.id) == Some(|l.active| - 1);
  }

  lemma {:induction false} SaidPrefix(frames: seq<SentenceGates.TextFrame>, i: nat)
    requires i <= |frames|
    ensures Said(frames[..i]) <= Said(frames)
  {
    if i == |frames| {
      assert frames[..i] == frames;
    } else {
      assert frames[..|frames| - 1][..i] == frames[..i];
      SaidPrefix(frames[..|frames| - 1], i);
    }
  }

  lemma SaidNext(frames: seq<SentenceGates.TextFrame>, i: nat)
    requires i < |frames|
    ensures Said(frames[..i + 1]) == Said(frames[..i]) + [Text(frames[i])]
  {
    assert frames[..i + 1][..i] == frames[..i];
  }

  lemma {:induction false} SaidUpTo(emitted: seq<Frame>, frames: seq<SentenceGates.TextFrame>, i: nat)
    requires i < |frames|
    ensures emitted + Said(frames[..i + 1]) == emitted + Said(frames[..i]) + [Text(frames[i])]
    ensures emitted + Said(frames[..i + 1]) <= emitted + Said(frames)
  {
    hide Said;
    SaidNext(frames, i);
    SaidPrefix(frames, i + 1);
    SameBeginning(emitted, Said(frames[..i + 1]), Said(frames));
  }

  lemma SameBeginning(emitted: seq<Frame>, part: seq<Frame>, whole: seq<Frame>)
    requires part <= whole
    ensures emitted + part <= emitted + whole
  {
  }

  lemma NothingSaid(emitted: seq<Frame>)
    ensures emitted + Said([]) == emitted
  {
  }

  /** A sink that raises within a part of the frames has taken of the whole what it takes of that part. */
  lemma TakenBefore(takes: Option<nat>, part: seq<Frame>, whole: seq<Frame>)
    requires part <= whole && !Takes(takes, part)
    ensures !Takes(takes, whole) && Taken(takes, whole) == Taken(takes, part)
  {
  }

  class ConversationGenerator {
    const ledger: Budget.BudgetLedger
    const ct: SentenceGates.CharTable
    const primary: Option<Budget.Model>
    const errorText: string

    constructor (ledger: Budget.BudgetLedger, ct: SentenceGates.CharTable, primary: Option<Budget.Model>,
                 errorText: string)
      ensures this.ledger == ledger && this.ct == ct && this.primary == primary && this.errorText == errorText
    {
      this.ledger, this.ct, this.primary, this.errorText := ledger, ct, primary, errorText;
    }

    /** The newest reservation is settled, with this usage, and nothing else has happened to the ledger. */
    twostate predicate Settled(r: Budget.Reservation, usage: Option<Budget.Usage>)
      reads ledger
    {
      && old(ledger.active) != []
      && ledger.active == old(ledger.active)[..|old(ledger.active)| - 1]
      && |ledger.settled| == |old(ledger.settled)| + 1 && old(ledger.settled) <= ledger.settled
      && ledger.settled[|old(ledger.settled)|].reservation == r && ledger.settled[|old(ledger.settled)|].usage == usage
      && ledger.issued == old(ledger.issued)
    }

    method SettleAttempt(r: Budget.Reservation, usage: Option<Budget.Usage>)
      requires Newest(ledger.View(), r) && (usage.Some? ==> usage.value.Valid() && usage.value.attempt == r.id)
      modifies ledger
      ensures Settled(r, usage)
    {
      SettleNewest(ledger.View(), r, usage);
      var settled := ledger.SettleAttempt(r.id, usage);
    }

    /** Give one frame to the sink, which may raise. */
    method Emit(frame: Frame, emitted: seq<Frame>, takes: Option<nat>) returns (after: seq<Frame>, ok: bool)
      requires Takes(takes, emitted)
      ensures ok == Takes(takes, emitted + [frame]) && after == Taken(takes, emitted + [frame])
    {
      if takes == Some(|emitted|) {
        return emitted, false;
      }
      return emitted + [frame], true;
    }

    /** Give the released sentences to the sink. */
    method EmitAll(frames: seq<SentenceGates.TextFrame>, emitted: seq<Frame>, takes: Option<nat>)
      returns (after: seq<Frame>, ok: bool)
      requires Takes(takes, emitted)
      ensures ok == Takes(takes, emitted + Said(frames)) && after == Taken(takes, emitted + Said(frames))
    {
      hide Said, Takes;
      after, ok := emitted, true;
      NothingSaid(emitted);
      assert frames[..0] == [];
      for i := 0 to |frames|
        invariant after == emitted + Said(frames[..i]) && Takes(takes, after) && ok
      {
        SaidUpTo(emitted, frames, i);
        after, ok := Emit(Text(frames[i]), after, takes);
        if !ok {
          TakenBefore(takes, emitted + Said(frames[..i + 1]), emitted + Said(frames));
          return;
        }
      }
      assert frames[..|frames|] == frames;
    }

    /** The gate stands where the attempt has got it. */
    ghost predicate InStep(gate: SentenceGates.SentenceGate, h: Heard, generation: nat, attempt: nat)
      reads gate
    {
      && gate.Valid() && gate.maxSentences == 3 && gate.ct == ct
      && gate.View() == h.gate
      && (gate.correlation.Some? ==> gate.correlation.value == (generation, attempt))
    }

    /** One text frame goes through the gate; what it releases is emitted. */
    method FeedGate(gate: SentenceGates.SentenceGate, frame: SentenceGates.TextFrame, ghost h: Heard,
                    emitted: seq<Frame>, takes: Option<nat>)
      returns (after: seq<Frame>, started: bool, ok: bool)
      requires InStep(gate, h, frame.generation, frame.attempt) && !gate.limited
      requires emitted == h.emitted && h.terminal.None? && h.stop == Listening && Takes(takes, emitted)
      requires GateInStep(ct, h, frame.generation, frame.attempt)
      modifies gate
      ensures var next := Hear(ct, h, Arrival(Text(frame), true), frame.generation, frame.attempt);
              && InStep(gate, next, frame.generation, frame.attempt)
              && ok == Takes(takes, next.emitted) && after == Taken(takes, next.emitted)
              && started == (next.gate.released > h.gate.released) && next.gate.released >= h.gate.released
    {
      hide SentenceGates.Drain, SentenceGates.Frames, SentenceGates.Run, Texts, Taken, Takes, Said;
      SentenceGates.FeedCounts(ct, gate.View(), frame.text, 3);
      ghost var fed := SentenceGates.FeedChunk(ct, gate.View(), frame.text, 3);
      SentenceGates.FramesAre(fed.sentences, frame.generation, frame.attempt);
      var result := gate.Feed(frame);
      after, ok := EmitAll(result.value.frames, emitted, takes);
      started := result.value.frames != [];
    }

    /** The provider has completed: what is left in the gate is the last sentence. */
    method FinishGate(gate: SentenceGates.SentenceGate, ghost h: Heard, emitted: seq<Frame>, takes: Option<nat>,
                      ghost generation: nat, ghost attempt: nat)
      returns (after: seq<Frame>, ok: bool)
      requires InStep(gate, h, generation, attempt) && emitted == h.emitted && Takes(takes, emitted)
      modifies gate
      ensures var last := SentenceGates.Flush(ct, h.gate, 3);
              var all := emitted + Said(SentenceGates.Frames(last.sentences, generation, attempt));
              gate.released == last.gate.released && ok == Takes(takes, all) && after == Taken(takes, all)
    {
      hide SentenceGates.Flush, SentenceGates.Frames, Taken, Takes;
      SentenceGates.NoFrames(generation, attempt);
      var result := gate.Finish();
      after, ok := EmitAll(result.frames, emitted, takes);
    }

    /** The attempt has got as far as `Play` says; its reservation has been settled with its usage, or is still open. */
    twostate predicate Played(script: Script, generation: nat, r: Budget.Reservation,
                              new result: Option<AttemptResult>, emitted: seq<Frame>)
      reads ledger
    {
      var o := Play(ct, errorText, script, generation, r.id);
      && result == o.result && emitted == o.emitted
      && (o.settled ==> Settled(r, Attempt(ct, errorText, script, generation, r.id).usage))
      && (!o.settled ==> ledger.View() == old(ledger.View()))
    }

    /**
     One attempt gets as far as `Play` says. Its reservation is settled exactly once, with the usage known by
     then, unless the provider raises or the sink does before the settlement: then it stays open.
     */
    method RunAttempt(generation: nat, r: Budget.Reservation, script: Script)
      returns (result: Option<AttemptResult>, emitted: seq<Frame>)
      requires Newest(ledger.View(), r) && script.Valid()
      modifies ledger
      ensures Played(script, generation, r, result, emitted)
    {
      hide SentenceGates.FeedChunk, SentenceGates.Flush, SentenceGates.Frames, SentenceGates.Run, Said, Texts;
      hide LatestUsage, Conclude, HearAll, Play, Attempt;
      var gate := new SentenceGates.SentenceGate(ct, 3);
      var usage: Option<Budget.Usage>, terminal: Option<Frame> := None, None;
      var started := false;
      emitted := [];
      ghost var h := HearAll(ct, [], generation, r.id);
      NothingInStep(ct, generation, r.id);
      var i := 0;
      while i < |script.arrivals|
        invariant 0 <= i <= |script.arrivals|
        invariant h == HearAll(ct, script.arrivals[..i], generation, r.id) && h.stop == Listening
        invariant fresh(gate) && InStep(gate, h, generation, r.id) && !gate.limited
        invariant emitted == h.emitted && usage == h.usage && terminal == h.terminal && Takes(script.takes, emitted)
        invariant started == (h.gate.released > 0)
        invariant ledger.View() == old(ledger.View())
      {
        var arrival := script.arrivals[i];
        var frame := arrival.frame;
        HeardOne(ct, script, i, generation, r.id);
        ghost var was := h;
        h := HearAll(ct, script.arrivals[..i + 1], generation, r.id);
        i := i + 1;
        if !frame.BelongsTo(generation, r.id) {
          continue;
        }
        if !arrival.current {
          result := StopListening(script, usage, h, i, generation, r, Cancelled, gate.released);
          return;
        }
        if frame.UsageReport? {
          usage := Some(frame.usage);
          continue;
        }
        if terminal.Some? {
          continue;
        }
        match frame {
          case Text(text) =>
            var now, ok;
            emitted, now, ok := FeedGate(gate, text, was, emitted, script.takes);
            if !ok {
              RaisesWithin(ct, errorText, script, i, generation, r.id);
              return None, emitted;
            }
            started := started || now;
            if gate.limited {
              result := StopListening(script, usage, h, i, generation, r, Completed, gate.released);
              return;
            }
          case Call(_, _, _) =>
            var ok;
            emitted, ok := Emit(frame, emitted, script.takes);
            if !ok {
              RaisesWithin(ct, errorText, script, i, generation, r.id);
              return None, emitted;
            }
          case Terminal(_, _, _, _, _) =>
            terminal := Some(frame);
          case UsageReport(_, _) =>
        }
      }
      assert script.arrivals[..i] == script.arrivals;
      HearAllInStep(ct, script.arrivals, generation, r.id);
      UsageIsOwn(ct, script.arrivals, generation, r.id);
      result, emitted := EndAttempt(gate, h, emitted, terminal, usage, started, generation, r, script);
    }

    /** `_cancel_drain_usage`, and then the settlement: what the provider still reports counts. */
    method StopListening(script: Script, known: Option<Budget.Usage>, ghost h: Heard, ghost i: nat,
                         generation: nat, r: Budget.Reservation, status: Status, released: nat)
      returns (result: Option<AttemptResult>)
      requires Newest(ledger.View(), r) && script.Valid() && i <= |script.arrivals|
      requires h == HearAll(ct, script.arrivals[..i], generation, r.id) && h.stop != Listening && known == h.usage
      requires Takes(script.takes, h.emitted)
      requires status == (if h.stop == Enough then Completed else Cancelled) && released == h.gate.released
      modifies ledger
      ensures Played(script, generation, r, result, h.emitted)
    {
      HeardEnough(ct, script.arrivals, i, generation, r.id);
      UsageIsOwn(ct, script.arrivals, generation, r.id);
      LatestIsOwn(script.owed, generation, r.id, known);
      hide HearAll;
      if script.breaks {
        return None;
      }
      var usage := LatestUsage(script.owed, generation, r.id, known);
      SettleAttempt(r, usage);
      return Some(AttemptResult(status, released, None, false));
    }

    /** The stream has ended by itself, or raised. */
    method EndAttempt(gate: SentenceGates.SentenceGate, ghost h: Heard, said: seq<Frame>, terminal: Option<Frame>,
                      usage: Option<Budget.Usage>, started: bool, generation: nat, r: Budget.Reservation,
                      script: Script)
      returns (result: Option<AttemptResult>, emitted: seq<Frame>)
      requires Newest(ledger.View(), r) && (usage.Some? ==> usage.value.Valid() && usage.value.attempt == r.id)
      requires InStep(gate, h, generation, r.id) && h.stop == Listening && (terminal.Some? ==> terminal.value.Terminal?)
      requires said == h.emitted && usage == h.usage && terminal == h.terminal && started == (h.gate.released > 0)
      requires h == HearAll(ct, script.arrivals, generation, r.id) && Takes(script.takes, said)
      modifies ledger, gate
      ensures Played(script, generation, r, result, emitted)
    {
      hide SentenceGates.Flush, SentenceGates.Frames, Said, HearAll;
      emitted := said;
      if script.breaks {
        return None, emitted;
      }
      var end := EndOf(terminal, generation, r.id);
      var ok;
      if end.status == AttemptCompleted {
        emitted, ok := FinishGate(gate, h, emitted, script.takes, generation, r.id);
        if !ok {
          return None, emitted;
        }
        SettleAttempt(r, usage);
        return Some(AttemptResult(Completed, gate.released, None, false)), emitted;
      }
      gate.Discard();
      SettleAttempt(r, usage);
      if started {
        emitted, ok := Emit(Text(SentenceGates.TextFrame(errorText, generation, r.id)), emitted, script.takes);
        return if ok then Some(AttemptResult(Error, gate.released + 1, end.errorCode, false)) else None, emitted;
      }
      return Some(AttemptResult(Error, gate.released, end.errorCode, end.transient && !started)), emitted;
    }

    /** How far the attempt on a reservation gets. */
    function PlayOf(r: Budget.Reservation, generation: nat, scripts: (Budget.Model, nat) -> Script): Outcome {
      Play(ct, errorText, scripts(r.model, r.id), generation, r.id)
    }

    function UsageOf(r: Budget.Reservation, generation: nat,
                     scripts: (Budget.Model, nat) -> Script): Option<Budget.Usage>
    {
      Attempt(ct, errorText, scripts(r.model, r.id), generation, r.id).usage
    }

    /** Terra has failed in silence, and may be followed by Luna. */
    predicate Retries(r: Budget.Reservation, generation: nat, scripts: (Budget.Model, nat) -> Script) {
      var result := PlayOf(r, generation, scripts).result;
      r.model == Budget.Terra && result.Some? && result.value.retryLuna && scripts(r.model, r.id).currentAfter
    }

    lemma IsAttempted(r: Budget.Reservation, generation: nat, scripts: (Budget.Model, nat) -> Script)
      ensures var script := scripts(r.model, r.id);
              var o := Play(ct, errorText, script, generation, r.id);
              && PlayOf(r, generation, scripts) == o
              && UsageOf(r, generation, scripts) == Attempt(ct, errorText, script, generation, r.id).usage
              && (Retries(r, generation, scripts) <==>
                    r.model == Budget.Terra && o.result.Some? && o.result.value.retryLuna && script.currentAfter)
    {
      hide Play, Attempt;
    }

    /**
     The attempts made are settled in order, each once and with what its own attempt knows of its usage; one
     that raised before its settlement is left open.
     */
    ghost predicate Accounted(made: seq<Budget.Reservation>, settled: seq<Budget.Settled>,
                              open: seq<Budget.Reservation>,
                              generation: nat, scripts: (Budget.Model, nat) -> Script)
    {
      && |made| == |settled| + |open|
      && (forall k | 0 <= k < |settled| ::
            && settled[k].reservation == made[k] && settled[k].usage == UsageOf(made[k], generation, scripts)
            && PlayOf(made[k], generation, scripts).settled)
      && (forall k | 0 <= k < |open| :: open[k] == made[|settled| + k] && !PlayOf(open[k], generation, scripts).settled)
    }

    lemma NothingMade(generation: nat, scripts: (Budget.Model, nat) -> Script)
      ensures Accounted([], [], [], generation, scripts)
      ensures Reported([], [], Some(GenerationResult(BudgetLocked, [], 0, Some("budget_locked"))), generation, scripts)
    {
    }

    lemma OneSettled(made: seq<Budget.Reservation>, settled: seq<Budget.Settled>, last: Budget.Settled,
                     generation: nat, scripts: (Budget.Model, nat) -> Script)
      requires Accounted(made, settled, [], generation, scripts)
      requires last.usage == UsageOf(last.reservation, generation, scripts)
               && PlayOf(last.reservation, generation, scripts).settled
      ensures Accounted(made + [last.reservation], settled + [last], [], generation, scripts)
    {
      hide PlayOf, UsageOf;
    }

    lemma OneOpen(made: seq<Budget.Reservation>, settled: seq<Budget.Settled>, last: Budget.Reservation,
                  generation: nat, scripts: (Budget.Model, nat) -> Script)
      requires Accounted(made, settled, [], generation, scripts) && !PlayOf(last, generation, scripts).settled
      ensures Accounted(made + [last], settled, [last], generation, scripts)
    {
      hide PlayOf, UsageOf;
    }

    function Models(made: seq<Budget.Reservation>): seq<Budget.Model> {
      if made == [] then [] else Models(made[..|made| - 1]) + [made[|made| - 1].model]
    }

    lemma NoModels()
      ensures Models([]) == []
    {
    }

    lemma {:induction false} ModelsOneMore(made: seq<Budget.Reservation>, last: Budget.Reservation)
      ensures Models(made + [last]) == Models(made) + [last.model]
    {
      assert (made + [last])[..|made|] == made;
    }

    /** What a call reports that has made these attempts; nothing if the last of them raised. */
    function Answer(made: seq<Budget.Reservation>, generation: nat,
                    scripts: (Budget.Model, nat) -> Script): Option<GenerationResult>
    {
      if made == [] then Some(GenerationResult(BudgetLocked, [], 0, Some("budget_locked")))
      else
        var last := made[|made| - 1];
        match PlayOf(last, generation, scripts).result
        case None => None
        case Some(result) =>
          Some(if Retries(last, generation, scripts)
               then GenerationResult(BudgetLocked, Models(made), 0, Some("budget_locked"))
               else GenerationResult(result.status, Models(made), result.sentences, result.errorCode))
    }

    /**
     The sink has been given what the attempts emit, and a second one is made only after a silent Terra that
     asks for it.
     */
    ghost predicate Reported(made: seq<Budget.Reservation>, emitted: seq<Frame>, result: Option<GenerationResult>,
                             generation: nat, scripts: (Budget.Model, nat) -> Script)
    {
      && |made| <= 2
      && result == Answer(made, generation, scripts)
      && emitted == (if |made| == 2 then PlayOf(made[0], generation, scripts).emitted else [])
                    + (if made == [] then [] else PlayOf(made[|made| - 1], generation, scripts).emitted)
      && (|made| == 2 ==> Retries(made[0], generation, scripts) && made[1].model == Budget.Luna)
    }

    lemma {:induction false} Answers(made: seq<Budget.Reservation>, attempt: Option<AttemptResult>, generation: nat,
                                     scripts: (Budget.Model, nat) -> Script)
      requires made != [] && attempt == PlayOf(made[|made| - 1], generation, scripts).result
      ensures attempt.None? ==> Answer(made, generation, scripts) == None
      ensures attempt.Some? ==>
                Answer(made, generation, scripts)
                == Some(if Retries(made[|made| - 1], generation, scripts)
                        then GenerationResult(BudgetLocked, Models(made), 0, Some("budget_locked"))
                        else GenerationResult(attempt.value.status, Models(made), attempt.value.sentences,
                                              attempt.value.errorCode))
    {
      hide PlayOf, Retries, Models;
    }

    /** The attempt on `last` ends the call. */
    lemma Reports(made: seq<Budget.Reservation>, last: Budget.Reservation, emitted: seq<Frame>,
                  generation: nat, scripts: (Budget.Model, nat) -> Script)
      requires |made| <= 1 && (made == [] ==> emitted == [])
      requires made != [] ==> last.model == Budget.Luna && Retries(made[0], generation, scripts)
                              && emitted == PlayOf(made[0], generation, scripts).emitted
      ensures Reported(made + [last], emitted + PlayOf(last, generation, scripts).emitted,
                       Answer(made + [last], generation, scripts), generation, scripts)
    {
      hide PlayOf, Retries, Answer;
    }

    /**
     `generate`. It ends after at most two attempts, however the providers and the sink behave; the open
     reservations of others are untouched; every reservation made is settled exactly once if the call returns,
     and if it raises only the last one may be left open; what is emitted and reported is what the attempts emit
     and report; and a second attempt is made exactly after a silent Terra that asks for it.
     */
    method Generate(generation: nat, period: Budget.Period, maxInput: int, maxOutput: int,
                    scripts: (Budget.Model, nat) -> Script)
      returns (result: Option<GenerationResult>, emitted: seq<Frame>,
               ghost made: seq<Budget.Reservation>, ghost settled: seq<Budget.Settled>,
               ghost open: seq<Budget.Reservation>)
      requires maxInput >= 0 && maxOutput > 0
      requires forall model, attempt :: scripts(model, attempt).Valid()
      modifies ledger
      ensures ledger.settled == old(ledger.settled) + settled && ledger.active == old(ledger.active) + open
      ensures Accounted(made, settled, open, generation, scripts)
      ensures Reported(made, emitted, result, generation, scripts)
      ensures result.Some? ==> open == [] && result.value.sentences == |Texts(emitted)|
      ensures |Texts(emitted)| <= 3
    {
      hide Budget.ReserveConversation, Budget.ReserveModel, Budget.Settle, Attempt, Play, Texts, Accounted;
      hide Reported, Answer, Models, PlayOf, UsageOf, Retries;
      NoTexts();
      NothingMade(generation, scripts);
      made, emitted, settled, open := [], [], [], [];
      NoModels();
      var reservation := ReserveFirst(period, maxInput, maxOutput);
      if reservation.None? {
        result := Some(GenerationResult(BudgetLocked, [], 0, Some("budget_locked")));
        return;
      }
      var r := reservation.value;
      var attempted: seq<Budget.Model>, sentences := [], 0;
      while true
        invariant ledger.active == old(ledger.active) + [r]
        invariant ledger.settled == old(ledger.settled) + settled && open == []
        invariant Accounted(made, settled, [], generation, scripts) && |made| <= 1 && attempted == Models(made)
        invariant made == [] ==> emitted == []
        invariant made != [] ==>
                    r.model == Budget.Luna && Retries(made[0], generation, scripts)
                    && emitted == PlayOf(made[0], generation, scripts).emitted
        invariant sentences == |Texts(emitted)| == 0
        decreases r.model == Budget.Terra
      {
        attempted := attempted + [r.model];
        var script := scripts(r.model, r.id);
        var attempt, said := RunAttempt(generation, r, script);
        PlayCounts(ct, errorText, script, generation, r.id);
        IsAttempted(r, generation, scripts);
        TextsAppend(emitted, said);
        ghost var before := emitted;
        emitted := emitted + said;
        if PlayOf(r, generation, scripts).settled {
          ghost var last := ledger.settled[|ledger.settled| - 1];
          OneSettled(made, settled, last, generation, scripts);
          settled := settled + [last];
        } else {
          OneOpen(made, settled, r, generation, scripts);
          open := [r];
        }
        ModelsOneMore(made, r);
        Reports(made, r, before, generation, scripts);
        made := made + [r];
        Answers(made, attempt, generation, scripts);
        if attempt.None? {
          result := None;
          return;
        }
        sentences := sentences + attempt.value.sentences;
        if !(attempt.value.retryLuna && r.model == Budget.Terra && script.currentAfter) {
          result := Some(GenerationResult(attempt.value.status, attempted, sentences, attempt.value.errorCode));
          return;
        }
        var again := ReserveLuna(period, maxInput, maxOutput);
        if again.None? {
          result := Some(GenerationResult(BudgetLocked, attempted, sentences, Some("budget_locked")));
          return;
        }
        r := again.value;
      }
    }

    /** The first reservation: the pinned model, or whichever of Terra and Luna the ledger selects. */
    method ReserveFirst(period: Budget.Period, maxInput: int, maxOutput: int) returns (r: Option<Budget.Reservation>)
      requires maxInput >= 0 && maxOutput > 0
      modifies ledger
      ensures var o := if primary.Some?
                       then Budget.ReserveModel(old(ledger.View()), ledger.config, period, primary.value, maxInput,
                                                maxOutput)
                       else Budget.ReserveConversation(old(ledger.View()), ledger.config, period, maxInput, maxOutput);
              ledger.View() == o.ledger && r == if o.Done? then Some(o.value) else None
      ensures ledger.settled == old(ledger.settled)
      ensures r.None? ==> ledger.active == old(ledger.active)
      ensures r.Some? ==> ledger.active == old(ledger.active) + [r.value]
    {
      if primary.Some? {
        r := ledger.Reserve(period, primary.value, maxInput, maxOutput);
      } else {
        r := ledger.Converse(period, maxInput, maxOutput);
      }
    }

    method ReserveLuna(period: Budget.Period, maxInput: int, maxOutput: int) returns (r: Option<Budget.Reservation>)
      requires maxInput >= 0 && maxOutput > 0
      modifies ledger
      ensures var o := Budget.ReserveModel(old(ledger.View()), ledger.config, period, Budget.Luna, maxInput, maxOutput);
              ledger.View() == o.ledger && r == if o.Done? then Some(o.value) else None
      ensures ledger.settled == old(ledger.settled)
      ensures r.None? ==> ledger.active == old(ledger.active)
      ensures r.Some? ==> ledger.active == old(ledger.active) + [r.value] && r.value.model == Budget.Luna
    {
      r := ledger.Reserve(period, Budget.Luna, maxInput, maxOutput);
    }
  }
}
