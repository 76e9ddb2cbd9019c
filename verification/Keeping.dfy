/**
 What a turn asks to be kept, and what is kept of it.

 `OffersExactly` says which proposals are pending after every step, `FinishKeeps` which of them are stored when their
 turn is completed: memories first, each once, then steps of the score within their limits; in the order in which they
 were proposed, and for pending turns only.
 */
module Keeping {
  import opened Session
  import opened Wrappers
  import Endings
  import Playback
  import Speaking
  import Store
  import Writes
  import Sentences = SentenceGates

  // ---------------------------------------------------------------------------------------------
  // What is proposed

  /** The proposals of all other generations, in their order. */
  function Without<P>(ps: seq<Proposal<P>>, generation: nat): seq<Proposal<P>> {
    if ps == [] then []
    else
      var last := ps[|ps| - 1];
      Without(ps[..|ps| - 1], generation) + if last.generation != generation then [last] else []
  }

  lemma {:induction false} OthersOneMore<P>(ps: seq<Proposal<P>>, last: Proposal<P>, generation: nat)
    ensures Others(ps + [last], generation)
            == Others(ps, generation) + if last.generation == generation then [] else [last]
  {
    if ps == [] {
      assert ps + [last] == [last];
    } else {
      assert (ps + [last])[1..] == ps[1..] + [last];
      OthersOneMore(ps[1..], last, generation);
    }
  }

  lemma {:induction false} OthersAre<P>(ps: seq<Proposal<P>>, generation: nat)
    ensures Others(ps, generation) == Without(ps, generation)
  {
    if ps != [] {
      var init, last := ps[..|ps| - 1], ps[|ps| - 1];
      assert ps == init + [last];
      OthersAre(init, generation);
      OthersOneMore(init, last, generation);
    }
  }

  /** No proposal has this identifier, and the turn is pending under the current generation. */
  predicate Fresh(s: State, turn: nat, id: nat) {
    && turn < |s.tables.turns| && s.tables.turns[turn].status.Pending?
    && s.tables.turns[turn].generation == s.generation
    && (forall i | 0 <= i < |s.memories| :: s.memories[i].id != id)
    && (forall i | 0 <= i < |s.affinities| :: s.affinities[i].id != id)
  }

  /** What a step proposes to remember. */
  function Remembers(s: State, step: Step): seq<Proposal<string>>
    requires Enabled(s, step)
  {
    if step.DoProposeMemory? && step.valid && s.active.Some? && Speaking.Addressed(s, step.owner, s.active.value)
       && s.tasks[s.active.value].memoryCalls == 0 && Fresh(s, s.active.value, step.id)
    then [Proposal(step.id, s.generation, s.tables.turns[s.active.value].session, s.active.value, step.normalized)]
    else []
  }

  /** What a step proposes for the score. */
  function Scores(s: State, step: Step): seq<Proposal<int>>
    requires Enabled(s, step)
  {
    if step.DoProposeAffinity? && step.valid && s.active.Some? && Speaking.Addressed(s, step.owner, s.active.value)
       && s.tasks[s.active.value].affinityCalls == 0 && Fresh(s, s.active.value, step.id)
       && (step.delta == 1 || step.delta == -1)
    then [Proposal(step.id, s.generation, s.tables.turns[s.active.value].session, s.active.value, step.delta)]
    else []
  }

  /** The generation whose proposals a step gives up or decides on. */
  function Settles(s: State, step: Step): Option<nat>
    requires Enabled(s, step)
  {
    match step
    case DoDropProposals(g) => Some(g)
    case DoFinish(owner, _) => Some(s.tasks[owner].generation)
    case _ => None
  }

  lemma ProposeOffers(s: State, step: Step, ct: Sentences.CharTable)
    requires Consistent(s, ct) && Enabled(s, step) && (step.DoProposeMemory? || step.DoProposeAffinity?)
    ensures var t := Next(s, step, ct);
            t.memories == s.memories + Remembers(s, step) && t.affinities == s.affinities + Scores(s, step)
  {
    hide Consistent, Target, TaskInStep;
    Speaking.TargetExactly(s, step.owner);
    if s.active.Some? && s.active.value in s.tasks {
      HasRow(s, s.active.value, ct);
    }
  }

  /** A valid call uses up the turn's allowance of its kind, whether or not it is then taken up; nothing else does. */
  lemma AllowanceExactly(s: State, step: Step, ct: Sentences.CharTable)
    requires Consistent(s, ct) && Enabled(s, step) && (step.DoProposeMemory? || step.DoProposeAffinity?)
    ensures var heard := step.valid && s.active.Some? && Speaking.Addressed(s, step.owner, s.active.value);
            && (heard && step.DoProposeMemory? && s.tasks[s.active.value].memoryCalls == 0 ==>
                  Next(s, step, ct).tasks
                  == s.tasks[s.active.value := s.tasks[s.active.value].(memoryCalls := 1)])
            && (heard && step.DoProposeAffinity? && s.tasks[s.active.value].affinityCalls == 0
                && (step.delta == 1 || step.delta == -1) ==>
                  Next(s, step, ct).tasks
                  == s.tasks[s.active.value := s.tasks[s.active.value].(affinityCalls := 1)])
            && (!heard || (step.DoProposeMemory? && s.tasks[s.active.value].memoryCalls > 0)
                || (step.DoProposeAffinity?
                    && (s.tasks[s.active.value].affinityCalls > 0 || !(step.delta == 1 || step.delta == -1))) ==>
                  Next(s, step, ct).tasks == s.tasks)
  {
    hide Consistent, Target, TaskInStep, HostAccepts;
    Speaking.TargetExactly(s, step.owner);
    if s.active.Some? && s.active.value in s.tasks {
      HasRow(s, s.active.value, ct);
    }
  }

  lemma HasRow(s: State, turn: nat, ct: Sentences.CharTable)
    requires Consistent(s, ct) && turn in s.tasks
    ensures turn < |s.tables.turns|
  {
    assert TaskInStep(s, turn, ct);
  }

  lemma FinishOffers(s: State, owner: nat, result: Result)
    requires owner in s.tasks
    ensures Finish(s, owner, result).memories == Others(s.memories, s.tasks[owner].generation)
    ensures Finish(s, owner, result).affinities == Others(s.affinities, s.tasks[owner].generation)
  {
    OthersTwice(s.memories, s.tasks[owner].generation);
    OthersTwice(s.affinities, s.tasks[owner].generation);
    hide Others, CommitMemories, CommitAffinities;
  }

  lemma {:induction false} OthersTwice<P>(ps: seq<Proposal<P>>, generation: nat)
    ensures Others(Others(ps, generation), generation) == Others(ps, generation)
  {
    if ps != [] {
      OthersTwice(ps[1..], generation);
      var rest := Others(ps[1..], generation);
      if ps[0].generation == generation {
        assert [] + rest == rest;
      } else {
        assert ([ps[0]] + rest)[1..] == rest;
      }
    }
  }

  lemma RestOffers(s: State, step: Step, ct: Sentences.CharTable)
    requires Enabled(s, step)
    requires !step.DoProposeMemory? && !step.DoProposeAffinity? && !step.DoFinish? && !step.DoDropProposals?
    ensures var t := Next(s, step, ct); t.memories == s.memories && t.affinities == s.affinities
  {
    hide Store.AppendAssistantText, Store.AdvanceSummary, Playback.Submit, Playback.Stop, Playback.Take, Playback.Land,
         Playback.Drain, Playback.DrainAnswer, Sentences.Strip, Store.BeginTurn, Store.AcceptUserTranscript, Target;
  }

  /**
   What is proposed after a step: what was, in its order and without the generation that was dropped or finished, and
   then what the step proposes, at most one of each kind a turn.
   */
  lemma OffersExactly(s: State, step: Step, ct: Sentences.CharTable)
    requires Consistent(s, ct) && Enabled(s, step)
    ensures var t, g := Next(s, step, ct), Settles(s, step);
            && t.memories == (if g.Some? then Without(s.memories, g.value) else s.memories) + Remembers(s, step)
            && t.affinities == (if g.Some? then Without(s.affinities, g.value) else s.affinities) + Scores(s, step)
  {
    match step
    case DoProposeMemory(_, _, _, _) => ProposeOffers(s, step, ct);
    case DoProposeAffinity(_, _, _, _) => ProposeOffers(s, step, ct);
    case DoFinish(owner, result) =>
      FinishOffers(s, owner, result);
      OthersAre(s.memories, s.tasks[owner].generation);
      OthersAre(s.affinities, s.tasks[owner].generation);
      hide Consistent, Finish, Others, Without;
    case DoDropProposals(g) =>
      OthersAre(s.memories, g);
      OthersAre(s.affinities, g);
      hide Consistent, Others, Without;
    case _ => RestOffers(s, step, ct); hide Consistent, Next;
  }

  // ---------------------------------------------------------------------------------------------
  // What is kept

  /** The proposal is of this generation, and its turn is still pending where it says. */
  predicate Due<P>(turns: seq<Store.Turn>, p: Proposal<P>, generation: nat) {
    && p.generation == generation && p.turn < |turns| && turns[p.turn].status.Pending?
    && turns[p.turn].session == p.session && turns[p.turn].generation == generation
  }

  /** What is remembered once the proposals have been gone through: each that is due, unless it is known already. */
  function Remembered(turns: seq<Store.Turn>, known: seq<Store.Memory>, ps: seq<Proposal<string>>,
                      generation: nat): seq<Store.Memory>
  {
    if ps == [] then known
    else
      var before, p := Remembered(turns, known, ps[..|ps| - 1], generation), ps[|ps| - 1];
      if Due(turns, p, generation)
         && forall i | 0 <= i < |before| :: before[i].id != p.id && before[i].normalized != p.payload
      then before + [Store.Memory(p.id, p.payload, p.turn)] else before
  }

  datatype Score = Score(value: int, events: seq<Store.Event>)

  /**
   The score can take the step: the turn has taken none, the session stays within three, and the score in its
   range.
   */
  predicate Allowed(before: Score, p: Proposal<int>) {
    && (p.payload == 1 || p.payload == -1) && !Writes.SeenBefore(before.events, p.id, p.turn)
    && -3 <= Writes.Moved(before.events, p.session) + p.payload <= 3 && 0 <= before.value + p.payload <= 100
  }

  function Scored(turns: seq<Store.Turn>, score: Score, ps: seq<Proposal<int>>, generation: nat): Score {
    if ps == [] then score
    else
      var before, p := Scored(turns, score, ps[..|ps| - 1], generation), ps[|ps| - 1];
      if Due(turns, p, generation) && Allowed(before, p)
      then Score(before.value + p.payload,
                 before.events
                 + [Store.Event(p.id, p.session, p.turn, generation, p.payload, before.value + p.payload)])
      else before
  }

  lemma {:induction false} CommitOneMore(tables: Store.Tables, ps: seq<Proposal<string>>, last: Proposal<string>,
                                         generation: nat)
    ensures CommitMemories(tables, ps + [last], generation)
            == CommitMemories(CommitMemories(tables, ps, generation), [last], generation)
    decreases |ps|
  {
    if ps == [] {
      assert ps + [last] == [last];
    } else {
      assert (ps + [last])[1..] == ps[1..] + [last];
      var p := ps[0];
      var added := Store.AddMemory(tables, Store.Memory(p.id, p.payload, p.turn));
      hide Store.AddMemory;
      CommitOneMore(if p.generation == generation && Store.TurnMatches(tables, p.turn, p.session, p.generation)
                       && added.Stored?
                    then added.tables else tables, ps[1..], last, generation);
    }
  }

  lemma {:induction false} CommitsExactly(tables: Store.Tables, ps: seq<Proposal<string>>, generation: nat)
    ensures CommitMemories(tables, ps, generation)
            == tables.(memories := Remembered(tables.turns, tables.memories, ps, generation))
  {
    if ps != [] {
      var init, last := ps[..|ps| - 1], ps[|ps| - 1];
      assert ps == init + [last];
      CommitsExactly(tables, init, generation);
      CommitOneMore(tables, init, last, generation);
      var before := CommitMemories(tables, init, generation);
      Writes.MemoryExactly(before, Store.Memory(last.id, last.payload, last.turn));
      CommitOne(before, last, generation);
      hide Store.AddMemory, CommitMemories;
    }
  }

  lemma {:induction false} CommitOne(tables: Store.Tables, p: Proposal<string>, generation: nat)
    ensures var added := Store.AddMemory(tables, Store.Memory(p.id, p.payload, p.turn));
            CommitMemories(tables, [p], generation)
            == if Due(tables.turns, p, generation) && added.Stored? then added.tables else tables
  {
    assert [p][1..] == [];
    hide Store.AddMemory;
  }

  lemma {:induction false} ScoreOneMore(tables: Store.Tables, ps: seq<Proposal<int>>, last: Proposal<int>,
                                        generation: nat)
    ensures CommitAffinities(tables, ps + [last], generation)
            == CommitAffinities(CommitAffinities(tables, ps, generation), [last], generation)
    decreases |ps|
  {
    if ps == [] {
      assert ps + [last] == [last];
    } else {
      assert (ps + [last])[1..] == ps[1..] + [last];
      var p := ps[0];
      var applied := Store.ApplyAffinity(tables, p.id, p.session, p.turn, p.generation, p.payload);
      hide Store.ApplyAffinity;
      ScoreOneMore(if p.generation == generation && Store.TurnMatches(tables, p.turn, p.session, p.generation)
                      && applied.Changed?
                   then applied.tables else tables, ps[1..], last, generation);
    }
  }

  lemma {:induction false} ScoreOne(tables: Store.Tables, p: Proposal<int>, generation: nat)
    ensures var applied := Store.ApplyAffinity(tables, p.id, p.session, p.turn, p.generation, p.payload);
            CommitAffinities(tables, [p], generation)
            == if Due(tables.turns, p, generation) && applied.Changed? then applied.tables else tables
  {
    assert [p][1..] == [];
    hide Store.ApplyAffinity;
  }

  lemma AppliedKeeps(tables: Store.Tables, p: Proposal<int>)
    requires Store.AffinityConsistent(tables)
    ensures var a := Store.ApplyAffinity(tables, p.id, p.session, p.turn, p.generation, p.payload);
            a.Changed? ==> Store.AffinityConsistent(a.tables)
  {
    Store.AffinityStep(tables, p.id, p.session, p.turn, p.generation, p.payload);
    hide Store.ApplyAffinity, Store.AffinityConsistent;
  }

  /** One more proposal, in terms of the tables. */
  lemma {:induction false} ScoreStep(tables: Store.Tables, p: Proposal<int>, generation: nat)
    requires Store.AffinityConsistent(tables)
    ensures var score, t := Score(tables.affinity, tables.events), CommitAffinities(tables, [p], generation);
            && Store.AffinityConsistent(t)
            && t == (if Due(tables.turns, p, generation) && Allowed(score, p)
                     then tables.(affinity := score.value + p.payload,
                                  events := score.events + [Store.Event(p.id, p.session, p.turn, generation, p.payload,
                                                                        score.value + p.payload)])
                     else tables)
  {
    hide Store.ApplyAffinity, CommitAffinities, Store.AffinityConsistent, Writes.Moved, Writes.SeenBefore;
    Writes.AffinityExactly(tables, p.id, p.session, p.turn, p.generation, p.payload);
    AppliedKeeps(tables, p);
    ScoreOne(tables, p, generation);
  }

  lemma {:induction false} ScoresExactly(tables: Store.Tables, ps: seq<Proposal<int>>, generation: nat)
    requires Store.AffinityConsistent(tables)
    ensures var t := CommitAffinities(tables, ps, generation);
            var score := Scored(tables.turns, Score(tables.affinity, tables.events), ps, generation);
            t == tables.(affinity := score.value, events := score.events) && Store.AffinityConsistent(t)
  {
    hide Store.AffinityConsistent, Due, Allowed;
    if ps != [] {
      var init, last := ps[..|ps| - 1], ps[|ps| - 1];
      assert ps == init + [last];
      ScoresExactly(tables, init, generation);
      ScoreOneMore(tables, init, last, generation);
      ScoreStep(CommitAffinities(tables, init, generation), last, generation);
      hide CommitAffinities;
    }
  }

  /**
   A turn that is completed leaves, in this order, what it and its generation have proposed: the memories that are not
   known yet, and the steps the score can take; and nothing of that stays proposed. One that is not leaves nothing.
   */
  lemma FinishKeeps(s: State, turn: nat, result: Result, ct: Sentences.CharTable)
    requires Consistent(s, ct) && turn in s.tasks && Store.AffinityConsistent(s.tables)
    ensures var t, g, completed := Finish(s, turn, result), s.tasks[turn].generation,
                                   Endings.Deserves(s, s.tasks[turn], result);
            var score := Scored(s.tables.turns, Score(s.tables.affinity, s.tables.events), s.affinities, g);
            && t.tables.memories
               == (if completed then Remembered(s.tables.turns, s.tables.memories, s.memories, g)
                   else s.tables.memories)
            && t.tables.affinity == (if completed then score.value else s.tables.affinity)
            && t.tables.events == (if completed then score.events else s.tables.events)
            && t.memories == Without(s.memories, g) && t.affinities == Without(s.affinities, g)
  {
    var g := s.tasks[turn].generation;
    FinishOffers(s, turn, result);
    OthersAre(s.memories, g);
    OthersAre(s.affinities, g);
    Endings.FinishCompletes(s, turn, result, ct);
    if Endings.Deserves(s, s.tasks[turn], result) {
      var kept := CommitMemories(s.tables, s.memories, g);
      CommitsExactly(s.tables, s.memories, g);
      AffinityStays(s.tables, kept);
      ScoresExactly(kept, s.affinities, g);
      CommittedFinish(s, turn, result);
    }
    hide Consistent, Finish, CommitMemories, CommitAffinities, Others, Without, Remembered, Scored,
         Store.AffinityConsistent;
  }

  lemma AffinityStays(s: Store.Tables, t: Store.Tables)
    requires Store.AffinityConsistent(s) && t == s.(memories := t.memories)
    ensures Store.AffinityConsistent(t)
  {
  }

  lemma CommittedFinish(s: State, turn: nat, result: Result)
    requires turn in s.tasks && turn < |s.tables.turns| == |Finish(s, turn, result).tables.turns|
    requires s.tables.turns[turn].status == Store.Pending
             && Finish(s, turn, result).tables.turns[turn].status == Store.Complete
    ensures var t := CommitAffinities(CommitMemories(s.tables, s.memories, s.tasks[turn].generation), s.affinities,
                                      s.tasks[turn].generation);
            Finish(s, turn, result).tables == t.(turns := Finish(s, turn, result).tables.turns)
  {
    CommitProposalsTurns(Ended(s, turn), s.tasks[turn].generation);
    hide CommitMemories, CommitAffinities, Others;
  }

  // ---------------------------------------------------------------------------------------------
  // The score over runs

  /** Rows keep their session, generation and number, and the score and its events stay what they are. */
  ghost predicate Unscored(s: Store.Tables, t: Store.Tables) {
    Store.KeepsRows(s.turns, t.turns) && t.events == s.events && t.affinity == s.affinity
  }

  lemma CommitUnscored(s: State, owner: nat, target: nat, said: Said)
    requires owner in s.tasks
    ensures Unscored(s.tables, Commit(s, owner, target, said).tables)
  {
  }

  lemma SentenceUnscored(s: State, owner: nat, text: string, ct: Sentences.CharTable)
    requires owner in s.tasks
    ensures Unscored(s.tables, Sentence(s, owner, text, ct).tables)
  {
    hide Commit, Target, Sentences.Strip;
    if Target(s, owner).Some? {
      CommitUnscored(s, owner, Target(s, owner).value, Said(Sentences.Strip(ct, text), [], 0));
    }
  }

  lemma LookUnscored(s: State, owner: nat, target: nat, said: Said, entering: bool)
    requires owner in s.tasks
    ensures Unscored(s.tables, LookForDrain(s, owner, target, said, entering).tables)
  {
    hide Commit, Playback.Drain, Playback.DrainAnswer;
    CommitUnscored(s.(sink := Playback.Drain(s.sink, s.tasks[owner].generation, entering)), owner, target, said);
  }

  lemma RestUnscored(s: State, step: Step, ct: Sentences.CharTable)
    requires Enabled(s, step) && !step.DoSentence? && !step.DoSynthesisEnds? && !step.DoWake? && !step.DoFinish?
    ensures Unscored(s.tables, Next(s, step, ct).tables)
  {
    hide Others, HostAccepts, Store.Unsummarized, Playback.Submit, Playback.Stop, Playback.Take, Playback.Land,
         Sentences.Strip, Store.MaxSequence;
  }

  lemma NextScores(s: State, step: Step, ct: Sentences.CharTable)
    requires Consistent(s, ct) && Enabled(s, step) && Store.AffinityConsistent(s.tables)
    ensures Store.AffinityConsistent(Next(s, step, ct).tables)
  {
    hide Consistent, Store.AffinityConsistent, Sentence, LookForDrain, Finish, Unscored;
    match step
    case DoSentence(owner, text) =>
      SentenceUnscored(s, owner, text, ct); UnscoredKeeps(s.tables, Next(s, step, ct).tables);
    case DoSynthesisEnds(owner) =>
      LookUnscored(s, owner, s.tasks[owner].at.target, s.tasks[owner].at.said, true);
      UnscoredKeeps(s.tables, Next(s, step, ct).tables);
    case DoWake(owner) =>
      LookUnscored(s, owner, s.tasks[owner].at.target, s.tasks[owner].at.said, false);
      UnscoredKeeps(s.tables, Next(s, step, ct).tables);
    case DoFinish(owner, result) => FinishScores(s, owner, result, ct);
    case _ => RestUnscored(s, step, ct); UnscoredKeeps(s.tables, Next(s, step, ct).tables);
  }

  lemma UnscoredKeeps(s: Store.Tables, t: Store.Tables)
    requires Store.AffinityConsistent(s) && Unscored(s, t)
    ensures Store.AffinityConsistent(t)
  {
    hide Store.AffinityConsistent, Store.KeepsRows;
    Store.RowsKeepAffinity(s, t);
  }

  lemma FinishScores(s: State, turn: nat, result: Result, ct: Sentences.CharTable)
    requires Consistent(s, ct) && turn in s.tasks && Store.AffinityConsistent(s.tables)
    ensures Store.AffinityConsistent(Finish(s, turn, result).tables)
  {
    hide Consistent, Finish, CommitMemories, CommitAffinities, Store.AffinityConsistent, Others, Remembered;
    var g, t := s.tasks[turn].generation, Finish(s, turn, result).tables;
    FinishKeeps(s, turn, result, ct);
    Endings.FinishCompletes(s, turn, result, ct);
    FinishRow(s, turn, result);
    if Endings.Deserves(s, s.tasks[turn], result) {
      ScoresExactly(s.tables, s.affinities, g);
      hide Scored;
      UnscoredKeeps(CommitAffinities(s.tables, s.affinities, g), t);
    } else {
      UnscoredKeeps(s.tables, t);
    }
  }

  /** Over every interleaving the score is 50 plus its events, within 0..100, and moved by at most 3 a session. */
  lemma {:induction false} RunScores(s: State, steps: seq<Step>, ct: Sentences.CharTable)
    requires Consistent(s, ct) && Possible(s, steps, ct) && Store.AffinityConsistent(s.tables)
    ensures Store.AffinityConsistent(Run(s, steps, ct).tables)
    decreases |steps|
  {
    hide Consistent, Store.AffinityConsistent, Next, Enabled;
    if steps != [] {
      NextKeeps(s, steps[0], ct);
      NextScores(s, steps[0], ct);
      RunScores(Next(s, steps[0], ct), steps[1..], ct);
    }
  }
}
