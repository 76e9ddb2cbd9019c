/**
 What a turn says, step by step: what is in hand, what goes to the device, and what is stored as said.

 The device is the tape of `Deliveries`, the fence a number; a sentence is stored when every chunk of its generation
 has been written, and at once if the turn is not spoken aloud. Each lemma says for every step what it does to one
 of these and that no other step does anything to it.
 */
module Speaking {
  import opened Session
  import opened Wrappers
  import Deliveries
  import Playback
  import Store
  import Sentences = SentenceGates

  // ---------------------------------------------------------------------------------------------
  // What holds in every reachable state besides

  /** No failure without a failed chunk, the device is never closed, and no generation is stopped that is current. */
  ghost predicate Sound(s: State) {
    Playback.FailuresKnown(s.sink) && !s.sink.closed && s.sink.stoppedBefore <= s.generation
  }

  lemma NewSound(capacity: nat, sessions: set<string>)
    ensures Sound(New(capacity, sessions))
  {
  }

  /** What a step does to the device. */
  function Plays(s: State, step: Step): Option<Playback.Step>
    requires Enabled(s, step)
  {
    match step
    case DoStopPlayback(g) => Some(Playback.DoStop(g))
    case DoTake => Some(Playback.DoTake)
    case DoLand(ok) => Some(Playback.DoLand(ok))
    case DoChunk(owner, data) =>
      if s.tasks[owner].generation == s.generation
      then Some(Playback.DoSubmit(Playback.Chunk(s.generation, data))) else None
    case _ => None
  }

  /** The sink takes the step, or waits for a drain, or does nothing. */
  lemma SinkSteps(s: State, step: Step, ct: Sentences.CharTable)
    requires Enabled(s, step) && |s.sink.accepted| == |s.sink.fate|
    ensures Plays(s, step).Some? ==>
              && Playback.Enabled(s.sink, Plays(s, step).value)
              && Next(s, step, ct).sink == Playback.Next(s.sink, Plays(s, step).value)
    ensures Plays(s, step).None? ==>
              Next(s, step, ct).sink == s.sink
              || exists g, entering :: Next(s, step, ct).sink == Playback.Drain(s.sink, g, entering)
  {
    if step.DoFinish? {
      FinishRow(s, step.owner, step.result);
    }
    hide Playback.Submit, Playback.Stop, Playback.Take, Playback.Land, Playback.Drain, Playback.DrainAnswer, Finish,
         Others, HostAccepts, Store.AdvanceSummary, Sentences.Strip, Store.AppendAssistantText,
         Store.BeginTurn, Store.AcceptUserTranscript;
    match step
    case DoSynthesisEnds(owner) => LookSink(s, owner, s.tasks[owner].at.target, s.tasks[owner].at.said, true);
    case DoWake(owner) => LookSink(s, owner, s.tasks[owner].at.target, s.tasks[owner].at.said, false);
    case _ =>
  }

  lemma LookSink(s: State, owner: nat, target: nat, said: Said, entering: bool)
    requires owner in s.tasks
    ensures LookForDrain(s, owner, target, said, entering).sink
            == Playback.Drain(s.sink, s.tasks[owner].generation, entering)
  {
    hide Playback.Drain, Playback.DrainAnswer, Store.AppendAssistantText;
  }

  lemma DrainIsDrain(sink: Playback.Sink, g: nat, entering: bool)
    requires |sink.accepted| == |sink.fate|
    ensures Playback.Next(sink, Playback.DoDrain(g, entering)) == Playback.Drain(sink, g, entering)
    ensures Deliveries.TapeOf(Playback.Drain(sink, g, entering)) == Deliveries.TapeOf(sink)
  {
  }

  /** What the device's tape is after a step, and that nothing else moves it. */
  lemma DeviceExactly(s: State, step: Step, ct: Sentences.CharTable)
    requires Consistent(s, ct) && Sound(s) && Enabled(s, step)
    ensures |s.sink.accepted| == |s.sink.fate|
    ensures var t := Next(s, step, ct);
            && |t.sink.accepted| == |t.sink.fate| && t.sink.capacity == s.sink.capacity
            && Playback.FailuresKnown(t.sink)
            && Deliveries.TapeOf(t.sink)
               == (if Plays(s, step).Some?
                   then Deliveries.Move(Deliveries.TapeOf(s.sink), Plays(s, step).value, s.sink.capacity)
                   else Deliveries.TapeOf(s.sink))
  {
    Playback.Recorded(s.sink);
    SinkSteps(s, step, ct);
    hide Playback.Consistent, Playback.FailuresKnown, Playback.Enabled, Playback.Next, Playback.Drain, Next, Plays,
         Deliveries.Move, Deliveries.TapeOf, Enabled;
    if Plays(s, step).Some? {
      Playback.NextKeeps(s.sink, Plays(s, step).value);
      Playback.NextKnown(s.sink, Plays(s, step).value);
      Deliveries.NextIsMove(s.sink, Plays(s, step).value);
    } else if Next(s, step, ct).sink != s.sink {
      var g, entering :| Next(s, step, ct).sink == Playback.Drain(s.sink, g, entering);
      DrainIsDrain(s.sink, g, entering);
      DrainEnabled(s.sink, g, entering);
      Playback.NextKeeps(s.sink, Playback.DoDrain(g, entering));
      Playback.NextKnown(s.sink, Playback.DoDrain(g, entering));
      Deliveries.NextIsMove(s.sink, Playback.DoDrain(g, entering));
    }
  }

  lemma DrainEnabled(sink: Playback.Sink, g: nat, entering: bool)
    ensures Playback.Enabled(sink, Playback.DoDrain(g, entering))
  {
  }

  /** The fence moves on with a cancellation, and when the device has no room for a chunk, or had none before. */
  lemma FenceExactly(s: State, step: Step, ct: Sentences.CharTable)
    requires Consistent(s, ct) && Sound(s) && Enabled(s, step)
    ensures |s.sink.accepted| == |s.sink.fate|
    ensures Next(s, step, ct).generation == s.generation + if step.DoCancel? || Overflows(s, step) then 1 else 0
  {
    Playback.Recorded(s.sink);
    match step
    case DoChunk(owner, data) => ChunkFence(s, owner, data, ct);
    case DoFinish(owner, result) => FinishRow(s, owner, result); hide Finish, Consistent;
    case _ => RestFence(s, step, ct);
  }

  lemma ChunkFence(s: State, owner: nat, data: seq<int>, ct: Sentences.CharTable)
    requires Consistent(s, ct) && Sound(s) && Enabled(s, DoChunk(owner, data)) && |s.sink.accepted| == |s.sink.fate|
    ensures ChunkArrives(s, owner, data).generation
            == s.generation + if Overflows(s, DoChunk(owner, data)) then 1 else 0
  {
    hide Playback.Submit, Playback.Consistent, Playback.FailuresKnown, Deliveries.Admits, Deliveries.Welcome,
         Deliveries.TapeOf;
    var chunk := Playback.Chunk(s.generation, data);
    Deliveries.AdmitsExactly(s.sink, chunk);
    Deliveries.WelcomeIs(s.sink, chunk);
    Overflowed(s.sink, chunk);
  }

  lemma RestFence(s: State, step: Step, ct: Sentences.CharTable)
    requires Enabled(s, step) && !step.DoChunk? && !step.DoFinish?
    ensures Next(s, step, ct).generation == s.generation + if step.DoCancel? then 1 else 0
  {
    hide Playback.Stop, Playback.Take, Playback.Land, Playback.Drain, Playback.DrainAnswer, Others, HostAccepts,
         Store.AdvanceSummary, Sentences.Strip, Store.AppendAssistantText, Store.BeginTurn, Store.AcceptUserTranscript;
  }

  /** A chunk of the current generation is not admitted, and there is no room for it or was none for another. */
  predicate Overflows(s: State, step: Step)
    requires Enabled(s, step) && |s.sink.accepted| == |s.sink.fate|
  {
    && step.DoChunk? && s.tasks[step.owner].generation == s.generation
    && var tape, chunk := Deliveries.TapeOf(s.sink), Playback.Chunk(s.generation, step.data);
       !Deliveries.Admits(tape, chunk, s.sink.capacity) && (s.sink.overflowed || Deliveries.Welcome(tape, chunk))
  }

  lemma Overflowed(sink: Playback.Sink, chunk: Playback.Chunk)
    ensures !Playback.Submit(sink, chunk).ok ==>
              (Playback.Submit(sink, chunk).sink.overflowed
               <==> sink.overflowed || (!sink.closed && !Playback.IsStopped(sink, chunk.generation)
                                        && chunk.generation !in sink.failed))
  {
  }

  lemma NextSound(s: State, step: Step, ct: Sentences.CharTable)
    requires Consistent(s, ct) && Sound(s) && Enabled(s, step)
    ensures Sound(Next(s, step, ct))
  {
    DeviceExactly(s, step, ct);
    FenceExactly(s, step, ct);
    StopsBehind(s, step);
    hide Consistent, Next, Playback.FailuresKnown;
  }

  lemma StopsBehind(s: State, step: Step)
    requires Enabled(s, step) && Sound(s) && |s.sink.accepted| == |s.sink.fate|
    ensures var t := if Plays(s, step).Some?
                     then Deliveries.Move(Deliveries.TapeOf(s.sink), Plays(s, step).value, s.sink.capacity)
                     else Deliveries.TapeOf(s.sink);
            !t.closed && t.stopped <= s.generation
  {
    hide Deliveries.Admits, Deliveries.Welcome, Deliveries.FateAfter;
  }

  lemma {:induction false} RunSound(s: State, steps: seq<Step>, ct: Sentences.CharTable)
    requires Consistent(s, ct) && Sound(s) && Possible(s, steps, ct)
    ensures Consistent(Run(s, steps, ct), ct) && Sound(Run(s, steps, ct))
    decreases |steps|
  {
    if steps != [] {
      NextKeeps(s, steps[0], ct);
      NextSound(s, steps[0], ct);
      hide Consistent, Sound, Next, Enabled;
      RunSound(Next(s, steps[0], ct), steps[1..], ct);
    }
  }

  // ---------------------------------------------------------------------------------------------
  // What is stored as said

  /** The frames of `owner` go to `turn`: it is the active turn, of the same generation, and that is current. */
  predicate Addressed(s: State, owner: nat, turn: nat) {
    && owner in s.tasks && turn in s.tasks && s.active == Some(turn)
    && s.tasks[turn].generation == s.generation == s.tasks[owner].generation
  }

  lemma TargetExactly(s: State, owner: nat)
    requires owner in s.tasks
    ensures forall turn: nat :: Target(s, owner) == Some(turn) <==> Addressed(s, owner, turn)
  {
  }

  /** The sentence in the task's hand has been heard: all of its generation is written, and nothing has moved on. */
  ghost predicate Heard(s: State, owner: nat) {
    && owner in s.tasks && s.tasks[owner].generation == s.generation && |s.sink.accepted| == |s.sink.fate|
    && Playback.AllWritten(s.sink, s.generation)
  }

  /** What a step adds to what a turn has said. */
  ghost function Uttered(s: State, step: Step, turn: nat, ct: Sentences.CharTable): seq<Said>
    requires Enabled(s, step)
  {
    match step
    case DoSentence(owner, text) =>
      var clean := Sentences.Strip(ct, text);
      if Addressed(s, owner, turn) && !s.tasks[turn].speakText && 1 <= |clean| <= 20_000 then [Said(clean, [], 0)]
      else []
    case DoSynthesisEnds(owner) => Finished(s, owner, turn)
    case DoWake(owner) => Finished(s, owner, turn)
    case _ => []
  }

  ghost function Finished(s: State, owner: nat, turn: nat): seq<Said>
    requires owner in s.tasks && !s.tasks[owner].at.Generating?
  {
    var hand := s.tasks[owner].at;
    if hand.target == turn && Heard(s, owner) && turn < |s.tables.turns| && s.tables.turns[turn].status.Pending?
       && 1 <= |hand.said.text| <= 20_000
    then [hand.said] else []
  }

  lemma CommitSays(s: State, owner: nat, target: nat, said: Said, turn: nat)
    requires owner in s.tasks
    ensures SaidOf(Commit(s, owner, target, said), turn)
            == SaidOf(s, turn)
               + if turn == target && target < |s.tables.turns| && s.tables.turns[target].status.Pending?
                    && 1 <= |said.text| <= 20_000
                 then [said] else []
  {
  }

  lemma LookSays(s: State, owner: nat, turn: nat, entering: bool)
    requires owner in s.tasks && !s.tasks[owner].at.Generating? && Sound(s) && Playback.Consistent(s.sink)
    ensures SaidOf(LookForDrain(s, owner, s.tasks[owner].at.target, s.tasks[owner].at.said, entering), turn)
            == SaidOf(s, turn) + Finished(s, owner, turn)
  {
    var g, hand := s.tasks[owner].generation, s.tasks[owner].at;
    var t := s.(sink := Playback.Drain(s.sink, g, entering));
    if g == s.generation {
      Playback.AnswerIs(s.sink, g, entering);
    }
    hide Playback.Consistent, Sound, Playback.Drain, Playback.DrainAnswer, Commit, Playback.AllWritten;
    CommitSays(t, owner, hand.target, hand.said, turn);
  }

  lemma FinishSays(s: State, owner: nat, result: Result, turn: nat)
    requires owner in s.tasks && owner < |s.tables.turns|
    ensures SaidOf(Finish(s, owner, result), turn) == SaidOf(s, turn)
  {
    FinishRow(s, owner, result);
    hide Finish;
  }

  /**
   What a turn has said grows exactly by the sentences that have been heard: a text sentence when it arrives, a spoken
   one when every chunk of its generation has been written, under the current fence, and while the turn is pending.
   */
  lemma SaidExactly(s: State, step: Step, turn: nat, ct: Sentences.CharTable)
    requires Consistent(s, ct) && Sound(s) && Enabled(s, step)
    ensures SaidOf(Next(s, step, ct), turn) == SaidOf(s, turn) + Uttered(s, step, turn, ct)
  {
    match step
    case DoSentence(owner, text) => SentenceSays(s, owner, text, turn, ct);
    case DoSynthesisEnds(owner) => LookSays(s, owner, turn, true);
    case DoWake(owner) => LookSays(s, owner, turn, false);
    case DoFinish(owner, result) => FinishSays(s, owner, result, turn);
    case _ => RestSays(s, step, turn, ct);
  }

  lemma SentenceSays(s: State, owner: nat, text: string, turn: nat, ct: Sentences.CharTable)
    requires Consistent(s, ct) && owner in s.tasks && Enabled(s, DoSentence(owner, text))
    ensures SaidOf(Sentence(s, owner, text, ct), turn)
            == SaidOf(s, turn) + Uttered(s, DoSentence(owner, text), turn, ct)
  {
    TargetExactly(s, owner);
    var clean := Sentences.Strip(ct, text);
    var target := Target(s, owner);
    if target.Some? {
      assert TaskInStep(s, target.value, ct);
      CommitSays(s, owner, target.value, Said(clean, [], 0), turn);
    }
    hide Consistent, Commit, Target, Sentences.Strip;
  }

  lemma RestSays(s: State, step: Step, turn: nat, ct: Sentences.CharTable)
    requires Enabled(s, step)
    requires !step.DoSentence? && !step.DoSynthesisEnds? && !step.DoWake? && !step.DoFinish?
    ensures SaidOf(Next(s, step, ct), turn) == SaidOf(s, turn) && Uttered(s, step, turn, ct) == []
  {
    hide Playback.Submit, Playback.Stop, Playback.Take, Playback.Land, Others, HostAccepts, Store.AdvanceSummary,
         Sentences.Strip, Store.BeginTurn, Store.AcceptUserTranscript;
  }

  // ---------------------------------------------------------------------------------------------
  // What is in hand

  /** Where the task is suspended after a step other than its end. */
  ghost function HandAfter(s: State, step: Step, owner: nat, ct: Sentences.CharTable): At
    requires Enabled(s, step) && owner in s.tasks && |s.sink.accepted| == |s.sink.fate|
  {
    var task := s.tasks[owner];
    match step
    case DoSentence(o, text) =>
      var clean := Sentences.Strip(ct, text);
      if o == owner && s.active.Some? && Addressed(s, owner, s.active.value)
         && s.tasks[s.active.value].speakText && 1 <= |clean| <= 8_000
      then Synthesizing(s.active.value, Said(clean, [], 0)) else task.at
    case DoChunk(o, data) =>
      if o != owner then task.at
      else if task.generation == s.generation
              && Deliveries.Admits(Deliveries.TapeOf(s.sink), Playback.Chunk(s.generation, data), s.sink.capacity)
      then
        var said := task.at.said;
        Synthesizing(task.at.target,
                     Said(said.text, said.chunks + [|s.sink.accepted|], said.synthesized + 1))
      else Generating
    case DoSynthesisFails(o, _) => if o == owner then Generating else task.at
    case DoSynthesisEnds(o) => if o == owner then Waits(s, owner, true) else task.at
    case DoWake(o) => if o == owner then Waits(s, owner, false) else task.at
    case _ => task.at
  }

  /** A drain waits as long as something is on its way, unless something had failed when it began. */
  ghost function Waits(s: State, owner: nat, entering: bool): At
    requires owner in s.tasks && !s.tasks[owner].at.Generating? && |s.sink.accepted| == |s.sink.fate|
  {
    var g, hand := s.tasks[owner].generation, s.tasks[owner].at;
    if g >= s.sink.stoppedBefore && Playback.OnTheWay(s.sink, g) && !(entering && Playback.SomeFailed(s.sink, g))
    then Draining(hand.target, hand.said) else Generating
  }

  lemma CommitHand(s: State, owner: nat, target: nat, said: Said, other: nat)
    requires owner in s.tasks && other in s.tasks
    ensures var t := Commit(s, owner, target, said);
            other in t.tasks && t.tasks[other].at == (if other == owner then Generating else s.tasks[other].at)
  {
    hide Store.AppendAssistantText;
  }

  lemma LookHand(s: State, owner: nat, other: nat, entering: bool)
    requires owner in s.tasks && other in s.tasks && !s.tasks[owner].at.Generating?
    requires Sound(s) && Playback.Consistent(s.sink) && |s.sink.accepted| == |s.sink.fate|
    ensures var t := LookForDrain(s, owner, s.tasks[owner].at.target, s.tasks[owner].at.said, entering);
            other in t.tasks
            && t.tasks[other].at == (if other == owner then Waits(s, owner, entering) else s.tasks[other].at)
  {
    WaitsAre(s, owner, entering);
    hide Playback.Consistent, Sound, Playback.Drain, Playback.DrainAnswer, Commit, Waits;
    var g, hand := s.tasks[owner].generation, s.tasks[owner].at;
    CommitHand(s.(sink := Playback.Drain(s.sink, g, entering)), owner, hand.target, hand.said, other);
  }

  lemma WaitsAre(s: State, owner: nat, entering: bool)
    requires owner in s.tasks && !s.tasks[owner].at.Generating?
    requires Sound(s) && Playback.Consistent(s.sink) && |s.sink.accepted| == |s.sink.fate|
    ensures var g, hand := s.tasks[owner].generation, s.tasks[owner].at;
            Waits(s, owner, entering)
            == if Playback.DrainAnswer(s.sink, g, entering).None? then Draining(hand.target, hand.said) else Generating
  {
    hide Playback.Consistent, Playback.DrainAnswer, Playback.OnTheWay, Playback.SomeFailed, Playback.AllWritten;
    var g := s.tasks[owner].generation;
    if g >= s.sink.stoppedBefore {
      Playback.AnswerIs(s.sink, g, entering);
    } else {
      StoppedAnswers(s.sink, g, entering);
    }
  }

  lemma StoppedAnswers(sink: Playback.Sink, g: nat, entering: bool)
    requires g < sink.stoppedBefore
    ensures Playback.DrainAnswer(sink, g, entering) == Some(false)
  {
  }

  lemma SentenceHand(s: State, owner: nat, text: string, other: nat, ct: Sentences.CharTable)
    requires Enabled(s, DoSentence(owner, text)) && other in s.tasks && |s.sink.accepted| == |s.sink.fate|
    ensures var t := Sentence(s, owner, text, ct);
            other in t.tasks && t.tasks[other].at == HandAfter(s, DoSentence(owner, text), other, ct)
  {
    TargetExactly(s, owner);
    if Target(s, owner).Some? {
      CommitHand(s, owner, Target(s, owner).value, Said(Sentences.Strip(ct, text), [], 0), other);
    }
    hide Commit, Target, Sentences.Strip;
  }

  lemma ChunkHand(s: State, owner: nat, data: seq<int>, other: nat, ct: Sentences.CharTable)
    requires Enabled(s, DoChunk(owner, data)) && other in s.tasks && |s.sink.accepted| == |s.sink.fate|
    requires Playback.Consistent(s.sink) && Playback.FailuresKnown(s.sink)
    ensures var t := ChunkArrives(s, owner, data);
            other in t.tasks && t.tasks[other].at == HandAfter(s, DoChunk(owner, data), other, ct)
  {
    Deliveries.AdmitsExactly(s.sink, Playback.Chunk(s.generation, data));
    hide Playback.Submit, Playback.Consistent, Playback.FailuresKnown, Deliveries.Admits, Deliveries.TapeOf;
  }

  /**
   A sentence is taken in hand as it was said; every chunk the device admits is put to it, and the first one it does
   not admit, a failure, or the end of the drain lets it go.
   */
  lemma HandExactly(s: State, step: Step, owner: nat, ct: Sentences.CharTable)
    requires Consistent(s, ct) && Sound(s) && Enabled(s, step) && owner in s.tasks
    requires !(step.DoFinish? && step.owner == owner)
    ensures |s.sink.accepted| == |s.sink.fate|
    ensures var t := Next(s, step, ct); owner in t.tasks && t.tasks[owner].at == HandAfter(s, step, owner, ct)
  {
    Playback.Recorded(s.sink);
    match step
    case DoSentence(o, text) => SentenceHand(s, o, text, owner, ct);
    case DoChunk(o, data) => ChunkHand(s, o, data, owner, ct);
    case DoSynthesisEnds(o) => LookHand(s, o, owner, true);
    case DoWake(o) => LookHand(s, o, owner, false);
    case DoFinish(o, result) => FinishHand(s, o, result, owner);
    case DoBegin(session, g, text, speakText) =>
      assert TaskInStep(s, owner, ct);
      BeginHand(s, session, g, text, speakText, owner, ct);
    case _ => RestHand(s, step, owner, ct);
  }

  lemma FinishHand(s: State, owner: nat, result: Result, other: nat)
    requires owner in s.tasks && owner < |s.tables.turns| && other in s.tasks && other != owner
    ensures var t := Finish(s, owner, result); other in t.tasks && t.tasks[other] == s.tasks[other]
  {
    FinishRow(s, owner, result);
    hide Finish;
  }

  lemma BeginHand(s: State, session: string, g: nat, text: string, speakText: bool, other: nat,
                  ct: Sentences.CharTable)
    requires other in s.tasks && other < |s.tables.turns|
    ensures var t := Begin(s, session, g, text, speakText, ct);
            other in t.tasks && t.tasks[other] == s.tasks[other]
  {
    hide Sentences.Strip, Store.BeginTurn, Store.AcceptUserTranscript;
  }

  lemma RestHand(s: State, step: Step, owner: nat, ct: Sentences.CharTable)
    requires Enabled(s, step) && owner in s.tasks && |s.sink.accepted| == |s.sink.fate|
    requires !step.DoSentence? && !step.DoChunk? && !step.DoSynthesisEnds? && !step.DoWake? && !step.DoFinish?
             && !step.DoBegin?
    ensures var t := Next(s, step, ct); owner in t.tasks && t.tasks[owner].at == HandAfter(s, step, owner, ct)
  {
    hide Playback.Stop, Playback.Take, Playback.Land, Others, HostAccepts, Store.AdvanceSummary;
  }

  // ---------------------------------------------------------------------------------------------
  // How a turn begins

  /** A turn begins for a transcript that is not blank, under the current fence, in a known session. */
  lemma BeginsExactly(s: State, session: string, generation: nat, text: string, speakText: bool,
                      ct: Sentences.CharTable)
    ensures var t, clean, turn := Begin(s, session, generation, text, speakText, ct), Sentences.Strip(ct, text),
                                  |s.tables.turns|;
            var heard := clean != "" && generation == s.generation && session in s.tables.sessions;
            && (!heard ==> t == s)
            && (heard ==> |t.tables.turns| == turn + 1 && t.tables.turns[..turn] == s.tables.turns
                          && t.tables.turns[turn].user == if |clean| <= 20_000 then Some(clean) else None)
            && (heard && |clean| <= 20_000 ==>
                  && t.active == Some(turn)
                  && t.tasks == s.tasks[turn := Task(generation, speakText, false, false, false, 0, 0, 0, Generating)])
            && (heard && |clean| > 20_000 ==> t.tasks == s.tasks && t.active == s.active)
  {
    hide Sentences.Strip, Store.MaxSequence;
  }
}
