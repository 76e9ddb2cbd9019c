/**
 Which turns are completed.

 `FinishCompletes` says what the end of a turn comes to, in terms of its record alone. `CompleteIffEarned` says it
 over runs, in terms of what has happened: the complete turns are exactly those finished by a generation that had
 completed, under the fence they began under, after a sentence of theirs was stored, and until then no sentence of
 theirs had failed, been refused or been too long to speak.
 */
module Endings {
  import opened Session
  import opened Wrappers
  import Playback
  import Speaking
  import Store
  import Sentences = SentenceGates
  import Summaries

  /** The generation completed, something was said, nothing failed, and nobody has cancelled. */
  predicate Deserves(s: State, task: Task, result: Result) {
    result == Completed && !task.faulted && !task.failed && task.spoke && task.generation == s.generation
  }

  /** A turn is completed exactly if it deserves it; otherwise it is cancelled and leaves nothing behind. */
  lemma FinishCompletes(s: State, turn: nat, result: Result, ct: Sentences.CharTable)
    requires Consistent(s, ct) && turn in s.tasks
    ensures turn < |s.tables.turns| == |Finish(s, turn, result).tables.turns|
    ensures var t := Finish(s, turn, result);
            && t.tables.turns[turn].status == (if Deserves(s, s.tasks[turn], result) then Store.Complete
                                               else Store.Cancelled)
            && (!Deserves(s, s.tasks[turn], result) ==>
                  t.tables.memories == s.tables.memories && t.tables.events == s.tables.events
                  && t.tables.affinity == s.tables.affinity)
  {
    assert TaskInStep(s, turn, ct);
    assert RowInStep(s, turn, ct);
    hide Consistent, RowInStep, Others, CommitProposals;
    CommitProposalsTurns(Ended(s, turn), s.tasks[turn].generation);
  }

  // ---------------------------------------------------------------------------------------------
  // Flaws

  /** The sentence in hand has been heard, but it is longer than the store takes. */
  ghost predicate Refused(s: State, owner: nat, turn: nat)
    requires owner in s.tasks && !s.tasks[owner].at.Generating?
  {
    s.tasks[owner].at.target == turn && Speaking.Heard(s, owner) && |s.tasks[owner].at.said.text| > 20_000
  }

  /** A typed answer that is longer than the store takes, or a sentence that is too long to be spoken. */
  predicate Unsayable(s: State, owner: nat, turn: nat, text: string, ct: Sentences.CharTable)
    requires owner in s.tasks
  {
    && s.active.Some? && Speaking.Addressed(s, owner, s.active.value)
    && if s.tasks[s.active.value].speakText then owner == turn && |Sentences.Strip(ct, text)| > 8_000
       else s.active == Some(turn) && |Sentences.Strip(ct, text)| > 20_000
  }

  /** The step spoils a turn in flight: a sentence of it fails, is refused, or breaks its provider loop. */
  ghost predicate Flaws(s: State, step: Step, turn: nat, ct: Sentences.CharTable)
    requires Enabled(s, step)
  {
    && turn in s.tasks
    && match step
       case DoSynthesisFails(owner, cancelled) => !cancelled && s.tasks[owner].at.target == turn
       case DoSynthesisEnds(owner) => Refused(s, owner, turn)
       case DoWake(owner) => Refused(s, owner, turn)
       case DoSentence(owner, text) => Unsayable(s, owner, turn, text, ct)
       case _ => false
  }

  predicate Spoilt(task: Task) {
    task.failed || task.faulted
  }

  /** The task goes on, with these changes to its record. */
  predicate GoesOn(s: State, t: State, turn: nat, flawed: bool, spoken: bool)
    requires turn in s.tasks
  {
    && turn in t.tasks && t.tasks[turn].generation == s.tasks[turn].generation
    && (Spoilt(t.tasks[turn]) <==> Spoilt(s.tasks[turn]) || flawed)
    && (t.tasks[turn].spoke <==> s.tasks[turn].spoke || spoken)
  }

  lemma CommitGoesOn(s: State, owner: nat, target: nat, said: Said, turn: nat)
    requires owner in s.tasks && turn in s.tasks && (target == turn ==> turn < |s.tables.turns|)
    requires target == turn ==> s.tables.turns[turn].status.Pending? && said.text != ""
    ensures GoesOn(s, Commit(s, owner, target, said), turn,
                   target == turn && |said.text| > 20_000, target == turn && |said.text| <= 20_000)
  {
  }

  lemma SentenceGoesOn(s: State, owner: nat, text: string, turn: nat, ct: Sentences.CharTable)
    requires Consistent(s, ct) && Enabled(s, DoSentence(owner, text)) && turn in s.tasks
    ensures GoesOn(s, Sentence(s, owner, text, ct), turn, Unsayable(s, owner, turn, text, ct),
                   Speaking.Uttered(s, DoSentence(owner, text), turn, ct) != [])
  {
    Speaking.TargetExactly(s, owner);
    assert TaskInStep(s, turn, ct);
    var clean := Sentences.Strip(ct, text);
    var target := Target(s, owner);
    if target.Some? && clean != "" {
      CommitGoesOn(s, owner, target.value, Said(clean, [], 0), turn);
    }
    hide Consistent, Commit, Target, Sentences.Strip;
  }

  lemma LookGoesOn(s: State, owner: nat, entering: bool, turn: nat, ct: Sentences.CharTable)
    requires Consistent(s, ct) && Speaking.Sound(s) && owner in s.tasks && turn in s.tasks
    requires !s.tasks[owner].at.Generating?
    ensures GoesOn(s, LookForDrain(s, owner, s.tasks[owner].at.target, s.tasks[owner].at.said, entering), turn,
                   Refused(s, owner, turn), Speaking.Finished(s, owner, turn) != [])
  {
    PendingRow(s, turn, ct);
    assert TaskInStep(s, owner, ct);
    assert s.tasks[owner].at.said.text != "";
    HeardIs(s, owner, entering, ct);
    hide Consistent, TaskInStep, Speaking.Sound, Speaking.Heard, InHand;
    HeardGoesOn(s, owner, entering, turn);
  }

  lemma HeardIs(s: State, owner: nat, entering: bool, ct: Sentences.CharTable)
    requires Consistent(s, ct) && Speaking.Sound(s) && owner in s.tasks
    ensures Speaking.Heard(s, owner)
            <==> s.tasks[owner].generation == s.generation
                 && Playback.DrainAnswer(s.sink, s.generation, entering) == Some(true)
  {
    if s.tasks[owner].generation == s.generation {
      Playback.AnswerIs(s.sink, s.generation, entering);
    }
    hide Playback.Consistent, Playback.DrainAnswer, Playback.AllWritten;
  }

  lemma HeardGoesOn(s: State, owner: nat, entering: bool, turn: nat)
    requires owner in s.tasks && turn in s.tasks && !s.tasks[owner].at.Generating? && turn < |s.tables.turns|
    requires s.tables.turns[turn].status.Pending? && s.tasks[owner].at.said.text != ""
    requires Speaking.Heard(s, owner)
             <==> s.tasks[owner].generation == s.generation
                  && Playback.DrainAnswer(s.sink, s.generation, entering) == Some(true)
    ensures GoesOn(s, LookForDrain(s, owner, s.tasks[owner].at.target, s.tasks[owner].at.said, entering), turn,
                   Refused(s, owner, turn), Speaking.Finished(s, owner, turn) != [])
  {
    var hand := s.tasks[owner].at;
    CommitGoesOn(s.(sink := Playback.Drain(s.sink, s.tasks[owner].generation, entering)), owner, hand.target, hand.said,
                 turn);
    hide Playback.Drain, Playback.DrainAnswer, Commit, Speaking.Heard;
  }

  lemma RestGoesOn(s: State, step: Step, turn: nat, ct: Sentences.CharTable)
    requires Enabled(s, step) && turn in s.tasks
    requires !step.DoSentence? && !step.DoSynthesisEnds? && !step.DoWake? && !step.DoFinish? && !step.DoBegin?
    ensures GoesOn(s, Next(s, step, ct), turn, Flaws(s, step, turn, ct), false)
  {
    hide Others, HostAccepts, Store.AdvanceSummary, Playback.Submit, Playback.Stop, Playback.Take, Playback.Land;
  }

  lemma SameGoesOn(s: State, t: State, turn: nat)
    requires turn in s.tasks && turn in t.tasks && t.tasks[turn] == s.tasks[turn]
    ensures GoesOn(s, t, turn, false, false)
  {
  }

  /** Others finish or begin. */
  lemma OthersGoOn(s: State, step: Step, turn: nat, ct: Sentences.CharTable)
    requires Consistent(s, ct) && Enabled(s, step) && turn in s.tasks
    requires step.DoBegin? || (step.DoFinish? && step.owner != turn)
    ensures GoesOn(s, Next(s, step, ct), turn, false, false)
  {
    PendingRow(s, turn, ct);
    hide Consistent, Begin, Finish, GoesOn;
    if step.DoFinish? {
      Speaking.FinishHand(s, step.owner, step.result, turn);
    } else {
      Speaking.BeginHand(s, step.session, step.generation, step.text, step.speakText, turn, ct);
    }
    SameGoesOn(s, Next(s, step, ct), turn);
  }

  /** A turn is spoilt exactly by a flaw, and has spoken exactly when a sentence of it has been stored. */
  lemma FlagsExactly(s: State, step: Step, turn: nat, ct: Sentences.CharTable)
    requires Consistent(s, ct) && Speaking.Sound(s) && Enabled(s, step) && turn in s.tasks
    requires !(step.DoFinish? && step.owner == turn)
    ensures GoesOn(s, Next(s, step, ct), turn, Flaws(s, step, turn, ct), Speaking.Uttered(s, step, turn, ct) != [])
  {
    hide Consistent, Speaking.Sound, Sentence, LookForDrain, Unsayable, Refused, Speaking.Finished, GoesOn;
    match step
    case DoSentence(owner, text) => SentenceGoesOn(s, owner, text, turn, ct);
    case DoSynthesisEnds(owner) => LookGoesOn(s, owner, true, turn, ct);
    case DoWake(owner) => LookGoesOn(s, owner, false, turn, ct);
    case DoFinish(_, _) => hide Next; OthersGoOn(s, step, turn, ct);
    case DoBegin(_, _, _, _) => hide Next; OthersGoOn(s, step, turn, ct);
    case _ => hide Next; RestGoesOn(s, step, turn, ct);
  }

  /** The turn is not complete and can no longer deserve to be. */
  ghost predicate Doomed(s: State, turn: nat) {
    && turn < |s.tables.turns| && s.tables.turns[turn].status != Store.Complete
    && (turn in s.tasks ==> s.tasks[turn].failed || s.tasks[turn].faulted)
  }

  /** No task forgets that it has failed, and none is begun for a turn that is there already. */
  ghost predicate FlawsStay(s: State, t: State) {
    forall turn | turn in t.tasks && turn < |s.tables.turns| ::
      turn in s.tasks && (s.tasks[turn].failed ==> t.tasks[turn].failed)
      && (s.tasks[turn].faulted ==> t.tasks[turn].faulted)
  }

  lemma CommitStays(s: State, owner: nat, target: nat, said: Said)
    requires owner in s.tasks
    ensures FlawsStay(s, Commit(s, owner, target, said))
  {
  }

  lemma SentenceStays(s: State, owner: nat, text: string, ct: Sentences.CharTable)
    requires owner in s.tasks
    ensures FlawsStay(s, Sentence(s, owner, text, ct))
  {
    hide Commit, Sentences.Strip, Target;
    if Target(s, owner).Some? {
      CommitStays(s, owner, Target(s, owner).value, Said(Sentences.Strip(ct, text), [], 0));
    }
  }

  lemma LookStays(s: State, owner: nat, target: nat, said: Said, entering: bool)
    requires owner in s.tasks
    ensures FlawsStay(s, LookForDrain(s, owner, target, said, entering))
  {
    hide Commit, Playback.Drain, Playback.DrainAnswer;
    CommitStays(s.(sink := Playback.Drain(s.sink, s.tasks[owner].generation, entering)), owner, target, said);
  }

  lemma FinishStays(s: State, owner: nat, result: Result, ct: Sentences.CharTable)
    requires Consistent(s, ct) && owner in s.tasks
    ensures FlawsStay(s, Finish(s, owner, result))
  {
    TasksHaveRows(s, ct);
    FinishRow(s, owner, result);
    hide Consistent, Finish;
  }

  lemma BeginStays(s: State, session: string, generation: nat, text: string, speakText: bool, ct: Sentences.CharTable)
    ensures FlawsStay(s, Begin(s, session, generation, text, speakText, ct))
  {
    BeginRow(s, session, generation, text, speakText, ct);
    hide Begin;
  }

  lemma RestStays(s: State, step: Step, ct: Sentences.CharTable)
    requires Enabled(s, step)
    requires !step.DoBegin? && !step.DoSentence? && !step.DoSynthesisEnds? && !step.DoWake? && !step.DoFinish?
    ensures FlawsStay(s, Next(s, step, ct))
  {
    hide Others, HostAccepts, Store.AdvanceSummary, Playback.Submit, Playback.Stop, Playback.Take, Playback.Land;
  }

  lemma NextStays(s: State, step: Step, ct: Sentences.CharTable)
    requires Consistent(s, ct) && Enabled(s, step)
    ensures FlawsStay(s, Next(s, step, ct))
  {
    hide Consistent, Begin, Sentence, LookForDrain, Finish, FlawsStay;
    match step
    case DoBegin(session, g, text, speakText) => BeginStays(s, session, g, text, speakText, ct);
    case DoSentence(owner, text) => SentenceStays(s, owner, text, ct);
    case DoSynthesisEnds(owner) => LookStays(s, owner, s.tasks[owner].at.target, s.tasks[owner].at.said, true);
    case DoWake(owner) => LookStays(s, owner, s.tasks[owner].at.target, s.tasks[owner].at.said, false);
    case DoFinish(owner, result) => FinishStays(s, owner, result, ct);
    case _ => RestStays(s, step, ct);
  }

  // ---------------------------------------------------------------------------------------------
  // Only finishing completes

  /** The step finishes the turn, and it deserves to be complete. */
  predicate Earns(s: State, step: Step, turn: nat)
    requires Enabled(s, step)
  {
    step == DoFinish(turn, Completed) && turn in s.tasks && Deserves(s, s.tasks[turn], Completed)
  }

  predicate IsComplete(s: State, turn: nat) {
    turn < |s.tables.turns| && s.tables.turns[turn].status == Store.Complete
  }

  lemma NextCompletes(s: State, step: Step, turn: nat, of: string, ct: Sentences.CharTable)
    requires Consistent(s, ct) && Enabled(s, step) && Store.RowsOrdered(s.tables.turns, of)
    ensures var t := Next(s, step, ct);
            && Store.RowsOrdered(t.tables.turns, of) && |s.tables.turns| <= |t.tables.turns|
            && (!IsComplete(s, turn) ==> (IsComplete(t, turn) <==> Earns(s, step, turn)))
            && (IsComplete(s, turn) ==> IsComplete(t, turn))
  {
    if step.DoAdvance? {
      AdvanceTurns(s.tables, step.session, step.chunk, step.content);
      hide Consistent, Store.RowsOrdered, Store.AdvanceSummary;
    } else {
      Summaries.NextTurns(s, step, of, ct);
      if step.DoFinish? {
        FinishCompletes(s, step.owner, step.result, ct);
      }
      hide Consistent, Store.RowsOrdered, Next, Finish;
      NextOnFinish(s, step, ct);
    }
  }

  lemma NextOnFinish(s: State, step: Step, ct: Sentences.CharTable)
    requires Enabled(s, step)
    ensures step.DoFinish? ==> Next(s, step, ct) == Finish(s, step.owner, step.result)
  {
    hide Finish;
  }

  lemma NextDooms(s: State, step: Step, turn: nat, of: string, ct: Sentences.CharTable)
    requires Consistent(s, ct) && Enabled(s, step) && Store.RowsOrdered(s.tables.turns, of) && Doomed(s, turn)
    ensures Doomed(Next(s, step, ct), turn)
  {
    NextStays(s, step, ct);
    NextCompletes(s, step, turn, of, ct);
    hide Consistent, Next, Store.RowsOrdered;
  }

  lemma {:induction false} RunDooms(s: State, steps: seq<Step>, turn: nat, of: string, ct: Sentences.CharTable)
    requires Consistent(s, ct) && Possible(s, steps, ct) && Store.RowsOrdered(s.tables.turns, of) && Doomed(s, turn)
    ensures Doomed(Run(s, steps, ct), turn)
    decreases |steps|
  {
    if steps != [] {
      hide Consistent, Next, Store.RowsOrdered, Doomed, Enabled;
      NextKeeps(s, steps[0], ct);
      NextCompletes(s, steps[0], turn, of, ct);
      NextDooms(s, steps[0], turn, of, ct);
      RunDooms(Next(s, steps[0], ct), steps[1..], turn, of, ct);
    }
  }

  lemma FlawDooms(s: State, step: Step, turn: nat, of: string, ct: Sentences.CharTable)
    requires Consistent(s, ct) && Speaking.Sound(s) && Enabled(s, step) && Store.RowsOrdered(s.tables.turns, of)
    requires Flaws(s, step, turn, ct)
    ensures Doomed(Next(s, step, ct), turn)
  {
    PendingRow(s, turn, ct);
    NextCompletes(s, step, turn, of, ct);
    FlagsExactly(s, step, turn, ct);
    hide Consistent, Speaking.Sound, Store.RowsOrdered, Next;
  }

  lemma PendingRow(s: State, turn: nat, ct: Sentences.CharTable)
    requires Consistent(s, ct) && turn in s.tasks
    ensures turn < |s.tables.turns| && s.tables.turns[turn].status == Store.Pending
    ensures forall owner | owner in s.tasks && !s.tasks[owner].at.Generating? ::
              s.tasks[owner].at.target < |s.tables.turns|
  {
    assert TaskInStep(s, turn, ct);
    forall owner | owner in s.tasks && !s.tasks[owner].at.Generating?
      ensures s.tasks[owner].at.target < |s.tables.turns|
    {
      assert TaskInStep(s, owner, ct);
    }
  }

  lemma CommitKeys(s: State, owner: nat, target: nat, said: Said)
    requires owner in s.tasks
    ensures Commit(s, owner, target, said).tasks.Keys == s.tasks.Keys
  {
    hide Store.AppendAssistantText;
  }

  lemma SentenceKeys(s: State, owner: nat, text: string, ct: Sentences.CharTable)
    requires owner in s.tasks
    ensures Sentence(s, owner, text, ct).tasks.Keys == s.tasks.Keys
  {
    var clean := Sentences.Strip(ct, text);
    if Target(s, owner).Some? {
      CommitKeys(s, owner, Target(s, owner).value, Said(clean, [], 0));
    }
    hide Commit, Target, Sentences.Strip;
  }

  lemma LookKeys(s: State, owner: nat, target: nat, said: Said, entering: bool)
    requires owner in s.tasks
    ensures LookForDrain(s, owner, target, said, entering).tasks.Keys == s.tasks.Keys
  {
    CommitKeys(s.(sink := Playback.Drain(s.sink, s.tasks[owner].generation, entering)), owner, target, said);
    hide Commit, Playback.Drain, Playback.DrainAnswer;
  }

  lemma RestKeys(s: State, step: Step, ct: Sentences.CharTable)
    requires Enabled(s, step)
    requires !step.DoBegin? && !step.DoSentence? && !step.DoSynthesisEnds? && !step.DoWake? && !step.DoFinish?
    ensures Next(s, step, ct).tasks.Keys == s.tasks.Keys
  {
    hide Others, HostAccepts, Store.AdvanceSummary, Playback.Submit, Playback.Stop, Playback.Take, Playback.Land;
  }

  /** A turn that is not there yet begins with a clean record. */
  lemma NewcomersAreClean(s: State, step: Step, turn: nat, ct: Sentences.CharTable)
    requires Enabled(s, step) && turn !in s.tasks && turn in Next(s, step, ct).tasks
    ensures !Spoilt(Next(s, step, ct).tasks[turn]) && !Next(s, step, ct).tasks[turn].spoke
  {
    hide Begin, Sentence, LookForDrain, Finish;
    match step
    case DoBegin(session, g, text, speakText) => Speaking.BeginsExactly(s, session, g, text, speakText, ct);
    case DoSentence(owner, text) => SentenceKeys(s, owner, text, ct);
    case DoSynthesisEnds(owner) => LookKeys(s, owner, s.tasks[owner].at.target, s.tasks[owner].at.said, true);
    case DoWake(owner) => LookKeys(s, owner, s.tasks[owner].at.target, s.tasks[owner].at.said, false);
    case DoFinish(owner, result) => FinishRow(s, owner, result);
    case _ => RestKeys(s, step, ct);
  }

  lemma {:induction false} CompletionStays(s: State, steps: seq<Step>, turn: nat, of: string, ct: Sentences.CharTable)
    requires Consistent(s, ct) && Possible(s, steps, ct) && Store.RowsOrdered(s.tables.turns, of) && IsComplete(s, turn)
    ensures IsComplete(Run(s, steps, ct), turn)
    decreases |steps|
  {
    if steps != [] {
      hide Consistent, Next, Store.RowsOrdered, IsComplete, Enabled;
      NextKeeps(s, steps[0], ct);
      NextCompletes(s, steps[0], turn, of, ct);
      CompletionStays(Next(s, steps[0], ct), steps[1..], turn, of, ct);
    }
  }

  /**
   The run finishes the turn with a completed generation, under the fence it began under, after something of it has
   been stored, and with no flaw until then. `spoken`: something has been stored already.
   */
  ghost predicate Fulfils(s: State, steps: seq<Step>, turn: nat, spoken: bool, ct: Sentences.CharTable)
    requires Possible(s, steps, ct)
    decreases |steps|
  {
    && steps != []
    && if steps[0].DoFinish? && steps[0].owner == turn
       then steps[0].result == Completed && spoken && s.tasks[turn].generation == s.generation
       else !Flaws(s, steps[0], turn, ct)
            && Fulfils(Next(s, steps[0], ct), steps[1..], turn,
                       turn in s.tasks && (spoken || Speaking.Uttered(s, steps[0], turn, ct) != []), ct)
  }

  /** The record of the turn, if it has one, is clean, and says whether anything of it has been stored. */
  predicate Recorded(s: State, turn: nat, spoken: bool) {
    if turn in s.tasks then !Spoilt(s.tasks[turn]) && s.tasks[turn].spoke == spoken else !spoken
  }

  lemma {:induction false} CompletesExactly(s: State, steps: seq<Step>, turn: nat, spoken: bool, of: string,
                                            ct: Sentences.CharTable)
    requires Consistent(s, ct) && Speaking.Sound(s) && Possible(s, steps, ct) && Store.RowsOrdered(s.tables.turns, of)
    requires !IsComplete(s, turn) && Recorded(s, turn, spoken)
    ensures IsComplete(Run(s, steps, ct), turn) <==> Fulfils(s, steps, turn, spoken, ct)
    decreases |steps|
  {
    if steps != [] {
      var t := Next(s, steps[0], ct);
      NextKeeps(s, steps[0], ct);
      Speaking.NextSound(s, steps[0], ct);
      NextCompletes(s, steps[0], turn, of, ct);
      if steps[0].DoFinish? && steps[0].owner == turn {
        Finishes(s, steps[0], turn, spoken, of, ct);
        hide Consistent, Speaking.Sound, Next, Store.RowsOrdered, IsComplete, Enabled, Doomed;
        if IsComplete(t, turn) {
          CompletionStays(t, steps[1..], turn, of, ct);
        } else {
          RunDooms(t, steps[1..], turn, of, ct);
          DoomedIsNot(Run(t, steps[1..], ct), turn);
        }
      } else if Flaws(s, steps[0], turn, ct) {
        FlawDooms(s, steps[0], turn, of, ct);
        hide Consistent, Speaking.Sound, Next, Store.RowsOrdered, IsComplete, Enabled, Doomed, Flaws;
        RunDooms(t, steps[1..], turn, of, ct);
        DoomedIsNot(Run(t, steps[1..], ct), turn);
      } else {
        StaysRecorded(s, steps[0], turn, spoken, ct);
        hide Consistent, Speaking.Sound, Next, Store.RowsOrdered, IsComplete, Enabled, Flaws, Recorded;
        CompletesExactly(t, steps[1..], turn,
                         turn in s.tasks && (spoken || Speaking.Uttered(s, steps[0], turn, ct) != []), of, ct);
      }
    }
  }

  lemma DoomedIsNot(s: State, turn: nat)
    requires Doomed(s, turn)
    ensures !IsComplete(s, turn)
  {
  }

  lemma Finishes(s: State, step: Step, turn: nat, spoken: bool, of: string, ct: Sentences.CharTable)
    requires Consistent(s, ct) && Enabled(s, step) && step.DoFinish? && step.owner == turn
    requires Store.RowsOrdered(s.tables.turns, of) && !IsComplete(s, turn) && Recorded(s, turn, spoken)
    ensures var t := Next(s, step, ct);
            && (IsComplete(t, turn)
                <==> step.result == Completed && spoken && s.tasks[turn].generation == s.generation)
            && (!IsComplete(t, turn) ==> Doomed(t, turn))
  {
    NextCompletes(s, step, turn, of, ct);
    NextOnFinish(s, step, ct);
    FinishCompletes(s, turn, step.result, ct);
    FinishRow(s, turn, step.result);
    hide Consistent, Store.RowsOrdered, Next, Finish;
  }

  lemma StaysRecorded(s: State, step: Step, turn: nat, spoken: bool, ct: Sentences.CharTable)
    requires Consistent(s, ct) && Speaking.Sound(s) && Enabled(s, step) && Recorded(s, turn, spoken)
    requires !(step.DoFinish? && step.owner == turn) && !Flaws(s, step, turn, ct)
    ensures Recorded(Next(s, step, ct), turn,
                     turn in s.tasks && (spoken || Speaking.Uttered(s, step, turn, ct) != []))
  {
    if turn in s.tasks {
      FlagsExactly(s, step, turn, ct);
    } else if turn in Next(s, step, ct).tasks {
      NewcomersAreClean(s, step, turn, ct);
    }
    hide Consistent, Speaking.Sound, Next, Flaws, Speaking.Uttered;
  }

  /**
   In every reachable state the complete turns are exactly those that the run has finished with a completed generation,
   under the fence they began under, after something of them had been stored, and with no flaw until then.
   */
  lemma {:induction false} CompleteIffEarned(capacity: nat, sessions: set<string>, steps: seq<Step>, turn: nat,
                                             ct: Sentences.CharTable)
    requires Possible(New(capacity, sessions), steps, ct)
    ensures IsComplete(Run(New(capacity, sessions), steps, ct), turn)
            <==> Fulfils(New(capacity, sessions), steps, turn, false, ct)
  {
    NewConsistent(capacity, sessions, ct);
    Speaking.NewSound(capacity, sessions);
    CompletesExactly(New(capacity, sessions), steps, turn, false, "", ct);
  }
}
