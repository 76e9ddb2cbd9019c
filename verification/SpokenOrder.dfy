/**
 The order in which a turn is heard, when no two turns are in flight in one generation.

 Then the frames of a task go to its own turn, one sentence at a time, and every sentence has been handed to the
 device after the one before it (`SpokenInOrder`). With two turns in one generation two sentences of a turn can
 be in hand at once and their audio interleave.
 */
module SpokenOrder {
  import opened Session
  import opened Wrappers
  import Playback
  import Store
  import Sentences = SentenceGates

  /** Each sentence was handed to the device after the one before it. */
  ghost predicate InOrder(said: seq<Said>) {
    forall a, b, i, j | 0 <= a < b < |said| && i in said[a].chunks && j in said[b].chunks :: i < j
  }

  /** A sentence in hand is the next one of the task's own turn. */
  ghost predicate OwnHand(s: State, owner: nat)
    requires owner in s.tasks
  {
    !s.tasks[owner].at.Generating? ==>
      s.tasks[owner].at.target == owner && InOrder(SaidOf(s, owner) + [s.tasks[owner].at.said])
  }

  ghost predicate Ordered(s: State) {
    && OneTaskPerGeneration(s.tasks)
    && (forall owner | owner in s.tasks :: OwnHand(s, owner))
    && (forall turn | turn in s.said :: InOrder(s.said[turn]))
  }

  lemma NewOrdered(capacity: nat, sessions: set<string>)
    ensures Ordered(New(capacity, sessions))
  {
  }

  lemma NoChunks(said: seq<Said>, text: string)
    requires InOrder(said)
    ensures InOrder(said + [Said(text, [], 0)])
  {
    var more := said + [Said(text, [], 0)];
    forall a, b, i, j | 0 <= a < b < |more| && i in more[a].chunks && j in more[b].chunks
      ensures i < j
    {
      assert more[b] == said[b];
    }
  }

  /** A chunk accepted just now comes after every chunk the turn has had. */
  lemma NewestChunk(said: seq<Said>, x: Said, chunk: nat)
    requires InOrder(said + [x]) && forall y, i | y in said && i in y.chunks :: i < chunk
    ensures InOrder(said + [OneMore(x, chunk)])
  {
    var shorter, longer := said + [x], said + [OneMore(x, chunk)];
    forall a, b, i, j | 0 <= a < b < |longer| && i in longer[a].chunks && j in longer[b].chunks
      ensures i < j
    {
      assert longer[a] == shorter[a] == said[a];
      if b < |said| || j in x.chunks { assert j in shorter[b].chunks; } else { assert said[a] in said; }
    }
  }

  /** Steps that leave the record of sentences and the hands of the other tasks alone. */
  lemma HandMoves(s: State, t: State, owner: nat)
    requires Ordered(s) && t.said == s.said && owner in s.tasks
    requires t.tasks.Keys == s.tasks.Keys && OwnHand(t, owner)
    requires forall other | other in s.tasks :: t.tasks[other].generation == s.tasks[other].generation
    requires forall other | other in s.tasks && other != owner :: t.tasks[other].at == s.tasks[other].at
    ensures Ordered(t)
  {
    forall other | other in t.tasks
      ensures OwnHand(t, other)
    {
      assert OwnHand(s, other);
    }
  }

  lemma ResumeOrdered(s: State, t: State, owner: nat, at: At)
    requires Ordered(s) && owner in s.tasks && t.said == s.said && t.tasks == Resume(s, owner, at).tasks
    requires !at.Generating? ==> at.target == owner && InOrder(SaidOf(s, owner) + [at.said])
    ensures Ordered(t)
  {
    hide InOrder;
    assert SaidOf(t, owner) == SaidOf(s, owner);
    HandMoves(s, t, owner);
  }

  /** With one turn in flight per generation, frames go to the turn of their task. */
  lemma TargetIsOwner(s: State, owner: nat)
    requires Ordered(s) && owner in s.tasks
    ensures Target(s, owner).Some? ==> Target(s, owner).value == owner
  {
  }

  lemma SoFarInOrder(s: State, turn: nat)
    requires Ordered(s)
    ensures InOrder(SaidOf(s, turn))
  {
  }

  lemma CommitOrdered(s: State, owner: nat, said: Said)
    requires Ordered(s) && owner in s.tasks && InOrder(SaidOf(s, owner) + [said])
    ensures Ordered(Commit(s, owner, owner, said))
  {
    var t := Commit(s, owner, owner, said);
    forall other | other in t.tasks
      ensures OwnHand(t, other)
    {
      assert OwnHand(s, other);
    }
    forall turn | turn in t.said
      ensures InOrder(t.said[turn])
    {
      if turn != owner { assert InOrder(s.said[turn]); }
    }
  }

  lemma SentenceOrdered(s: State, owner: nat, text: string, ct: Sentences.CharTable)
    requires Ordered(s) && owner in s.tasks
    ensures Ordered(Sentence(s, owner, text, ct))
  {
    TargetIsOwner(s, owner);
    SoFarInOrder(s, owner);
    hide Ordered, InOrder, Commit, Sentences.Strip, Target;
    var clean, t := Sentences.Strip(ct, text), Sentence(s, owner, text, ct);
    NoChunks(SaidOf(s, owner), clean);
    if Target(s, owner).Some? && clean != "" {
      if !s.tasks[owner].speakText {
        CommitOrdered(s, owner, Said(clean, [], 0));
      } else {
        HandMoves(s, t, owner);
      }
    }
  }

  /** What the arrival of a chunk does to the tasks. */
  lemma ChunkHand(s: State, owner: nat, data: seq<int>) returns (at: At)
    requires owner in s.tasks && s.tasks[owner].at.Synthesizing?
    ensures var t := ChunkArrives(s, owner, data); t.said == s.said && t.tasks == Resume(s, owner, at).tasks
    ensures at == Generating
            || at == Synthesizing(s.tasks[owner].at.target, OneMore(s.tasks[owner].at.said, |s.sink.accepted|))
  {
    hide Playback.Submit, OneMore;
    at := ChunkArrives(s, owner, data).tasks[owner].at;
  }

  lemma ChunkOrdered(s: State, owner: nat, data: seq<int>, ct: Sentences.CharTable)
    requires Consistent(s, ct) && Ordered(s) && owner in s.tasks && s.tasks[owner].at.Synthesizing?
    ensures Ordered(ChunkArrives(s, owner, data))
  {
    assert OwnHand(s, owner);
    EarlierChunks(s, owner, ct);
    hide Consistent, Ordered, InOrder, ChunkArrives, SaidOf, OneMore;
    NewestChunk(SaidOf(s, owner), s.tasks[owner].at.said, |s.sink.accepted|);
    var at := ChunkHand(s, owner, data);
    ResumeOrdered(s, ChunkArrives(s, owner, data), owner, at);
  }

  lemma EarlierChunks(s: State, turn: nat, ct: Sentences.CharTable)
    requires Consistent(s, ct) && turn in s.tasks
    ensures forall y, i | y in SaidOf(s, turn) && i in y.chunks :: i < |s.sink.accepted|
  {
    TasksHaveRows(s, ct);
    assert RowInStep(s, turn, ct);
    hide Consistent, Sayable;
  }

  lemma LookOrdered(s: State, owner: nat, entering: bool)
    requires Ordered(s) && owner in s.tasks && !s.tasks[owner].at.Generating?
    ensures Ordered(LookForDrain(s, owner, s.tasks[owner].at.target, s.tasks[owner].at.said, entering))
  {
    assert OwnHand(s, owner);
    var g, said := s.tasks[owner].generation, s.tasks[owner].at.said;
    var t := s.(sink := Playback.Drain(s.sink, g, entering));
    var answer := Playback.DrainAnswer(s.sink, g, entering);
    SinkIsNoHand(s, t);
    hide Ordered, InOrder, Commit, Playback.Drain, Playback.DrainAnswer, SaidOf;
    if answer == Some(true) && g == s.generation {
      CommitOrdered(t, owner, said);
    } else {
      ResumeOrdered(s, LookForDrain(s, owner, owner, said, entering), owner,
                    if answer.None? then Draining(owner, said) else Generating);
    }
  }

  lemma SinkIsNoHand(s: State, t: State)
    requires Ordered(s) && t.tasks == s.tasks && t.said == s.said
    ensures Ordered(t) && forall owner :: SaidOf(t, owner) == SaidOf(s, owner)
  {
    hide InOrder;
    forall owner | owner in t.tasks
      ensures OwnHand(t, owner)
    {
      assert OwnHand(s, owner);
    }
  }

  lemma FailureOrdered(s: State, owner: nat, cancelled: bool)
    requires Ordered(s) && owner in s.tasks && s.tasks[owner].at.Synthesizing?
    ensures Ordered(SynthesisFails(s, owner, cancelled))
  {
    hide Ordered, InOrder;
    HandMoves(s, SynthesisFails(s, owner, cancelled), owner);
  }

  lemma BeginOrdered(s: State, session: string, generation: nat, text: string, speakText: bool, ct: Sentences.CharTable)
    requires Ordered(s) && forall turn | turn in s.tasks :: s.tasks[turn].generation != generation
    ensures Ordered(Begin(s, session, generation, text, speakText, ct))
  {
    BeginRow(s, session, generation, text, speakText, ct);
    hide Begin, InOrder, Store.MaxSequence;
    var t := Begin(s, session, generation, text, speakText, ct);
    forall owner | owner in t.tasks
      ensures OwnHand(t, owner)
    {
      if owner in s.tasks && t.tasks[owner] == s.tasks[owner] { assert OwnHand(s, owner); }
    }
  }

  lemma FinishOrdered(s: State, owner: nat, result: Result, ct: Sentences.CharTable)
    requires Consistent(s, ct) && Ordered(s) && owner in s.tasks
    ensures Ordered(Finish(s, owner, result))
  {
    TasksHaveRows(s, ct);
    FinishRow(s, owner, result);
    hide Consistent, Finish, InOrder;
    var t := Finish(s, owner, result);
    forall other | other in t.tasks
      ensures OwnHand(t, other)
    {
      assert OwnHand(s, other);
    }
  }

  lemma NextOrdered(s: State, step: Step, ct: Sentences.CharTable)
    requires Consistent(s, ct) && Ordered(s) && Enabled(s, step) && Exclusive(s, step)
    ensures Ordered(Next(s, step, ct))
  {
    match step
    case DoBegin(session, g, text, speakText) => BeginOrdered(s, session, g, text, speakText, ct);
    case DoSentence(owner, text) => SentenceOrdered(s, owner, text, ct);
    case DoChunk(owner, data) => ChunkOrdered(s, owner, data, ct);
    case DoSynthesisEnds(owner) => LookOrdered(s, owner, true);
    case DoSynthesisFails(owner, cancelled) => FailureOrdered(s, owner, cancelled);
    case DoWake(owner) => LookOrdered(s, owner, false);
    case DoFinish(owner, result) => FinishOrdered(s, owner, result, ct);
    case _ => RestOrdered(s, step, ct);
  }

  /** Proposals only count; everything else is not about tasks. */
  lemma RestOrdered(s: State, step: Step, ct: Sentences.CharTable)
    requires Ordered(s) && Enabled(s, step)
    requires !step.DoBegin? && !step.DoSentence? && !step.DoChunk? && !step.DoSynthesisEnds? && !step.DoSynthesisFails?
             && !step.DoWake? && !step.DoFinish?
    ensures Ordered(Next(s, step, ct))
  {
    hide InOrder, HostAccepts, Others, Playback.Stop, Playback.Take, Playback.Land, Store.AdvanceSummary;
    var t := Next(s, step, ct);
    assert t.said == s.said && t.tasks.Keys == s.tasks.Keys;
    forall owner | owner in t.tasks
      ensures OwnHand(t, owner) && t.tasks[owner].generation == s.tasks[owner].generation
    {
      assert OwnHand(s, owner);
    }
  }

  lemma {:induction false} RunOrdered(s: State, steps: seq<Step>, ct: Sentences.CharTable)
    requires Consistent(s, ct) && Ordered(s) && Possible(s, steps, ct) && ExclusiveRun(s, steps, ct)
    ensures Ordered(Run(s, steps, ct))
    decreases |steps|
  {
    hide Consistent, Ordered, Next, Enabled, Exclusive;
    if steps != [] {
      NextKeeps(s, steps[0], ct);
      NextOrdered(s, steps[0], ct);
      RunOrdered(Next(s, steps[0], ct), steps[1..], ct);
    }
  }

  /** With one turn in flight per generation, every turn's sentences went to the device one after the other. */
  lemma {:induction false} SpokenInOrder(capacity: nat, sessions: set<string>, steps: seq<Step>, turn: nat,
                                         ct: Sentences.CharTable)
    requires Possible(New(capacity, sessions), steps, ct) && ExclusiveRun(New(capacity, sessions), steps, ct)
    ensures InOrder(SaidOf(Run(New(capacity, sessions), steps, ct), turn))
  {
    NewConsistent(capacity, sessions, ct);
    NewOrdered(capacity, sessions);
    hide Consistent, Possible, Run, ExclusiveRun, InOrder;
    RunOrdered(New(capacity, sessions), steps, ct);
    SoFarInOrder(Run(New(capacity, sessions), steps, ct), turn);
  }
}
