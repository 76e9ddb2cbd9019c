/**
 What a run of the session machine leaves in memory and in the relationship score.

 With one turn in flight per generation, every stored memory and every score event comes from a complete
 turn, and a turn leaves at most one of each (`MemoriesAreEarned`, `SupersededLeavesNothing`). Two turns may
 share a generation, because choosing the default devices writes the idle state; then a finishing turn also
 commits what the other has proposed. `FinishEarns` says exactly when a finishing turn stores only its own.
 */
module Proposals {
  import opened Session
  import opened Wrappers
  import Store
  import Playback
  import Sentences = SentenceGates

  // ---------------------------------------------------------------------------------------------
  // The invariant

  /** Proposals belong to turns that are still running, under the turn's generation. */
  ghost predicate Owned<P>(ps: seq<Proposal<P>>, tasks: map<nat, Task>) {
    forall p | p in ps :: p.turn in tasks && tasks[p.turn].generation == p.generation
  }

  ghost predicate OnePerTurn<P>(ps: seq<Proposal<P>>) {
    forall i, j | 0 <= i < j < |ps| :: ps[i].turn != ps[j].turn
  }

  /** A proposal has used up its turn's allowance. */
  ghost predicate Counted(s: State) {
    && (forall p | p in s.memories :: p.turn in s.tasks && s.tasks[p.turn].memoryCalls >= 1)
    && (forall p | p in s.affinities :: p.turn in s.tasks && s.tasks[p.turn].affinityCalls >= 1)
  }

  ghost predicate IsComplete(turns: seq<Store.Turn>, turn: nat) {
    turn < |turns| && turns[turn].status == Store.Complete
  }

  ghost predicate SourcesComplete(tables: Store.Tables) {
    forall m | m in tables.memories :: IsComplete(tables.turns, m.sourceTurn)
  }

  ghost predicate OneMemoryPerTurn(memories: seq<Store.Memory>) {
    forall i, j | 0 <= i < j < |memories| :: memories[i].sourceTurn != memories[j].sourceTurn
  }

  ghost predicate EventsComplete(tables: Store.Tables) {
    forall e | e in tables.events :: IsComplete(tables.turns, e.turn)
  }

  ghost predicate Waiting(s: State) {
    && OneTaskPerGeneration(s.tasks)
    && Owned(s.memories, s.tasks) && Owned(s.affinities, s.tasks)
    && OnePerTurn(s.memories) && OnePerTurn(s.affinities)
    && Counted(s)
  }

  ghost predicate Earned(tables: Store.Tables) {
    && SourcesComplete(tables) && OneMemoryPerTurn(tables.memories)
    && EventsComplete(tables) && Store.AffinityConsistent(tables)
  }

  // ---------------------------------------------------------------------------------------------
  // Steps that concern neither proposals nor what is stored

  ghost predicate SameTasks(before: map<nat, Task>, after: map<nat, Task>) {
    && before.Keys == after.Keys
    && forall turn | turn in before ::
         && after[turn].generation == before[turn].generation
         && after[turn].memoryCalls >= before[turn].memoryCalls
         && after[turn].affinityCalls >= before[turn].affinityCalls
  }

  ghost predicate SameRecords(before: Store.Tables, after: Store.Tables) {
    && after.memories == before.memories && after.events == before.events && after.affinity == before.affinity
    && Store.KeepsRows(before.turns, after.turns)
    && forall turn: nat :: IsComplete(before.turns, turn) ==> IsComplete(after.turns, turn)
  }

  lemma RecordsStay(before: Store.Tables, after: Store.Tables)
    requires Earned(before) && SameRecords(before, after)
    ensures Earned(after)
  {
    hide Store.AffinityConsistent, IsComplete;
    Store.RowsKeepAffinity(before, after);
  }

  lemma TasksStay(s: State, t: State)
    requires Waiting(s) && SameTasks(s.tasks, t.tasks) && t.memories == s.memories && t.affinities == s.affinities
    ensures Waiting(t)
  {
  }

  /** Neither proposals nor anything that is stored besides turns. */
  ghost predicate Quiet(s: State, t: State) {
    SameTasks(s.tasks, t.tasks) && SameRecords(s.tables, t.tables) && t.memories == s.memories
    && t.affinities == s.affinities
  }

  lemma CommitIsQuiet(s: State, owner: nat, target: nat, said: Said)
    requires owner in s.tasks
    ensures Quiet(s, Commit(s, owner, target, said))
  {
    hide Mark, SameTasks, SameRecords;
    var t := Resume(s, owner, Generating);
    ResumeIsQuiet(s, owner, Generating);
    if Store.AppendAssistantText(s.tables, target, said.text).None? {
      MarkIsQuiet(t, target, false);
    } else {
      StoredIsQuiet(t, target, said);
      MarkIsQuiet(Stored(t, target, said), target, true);
    }
    SameTasksTwice(s.tasks, t.tasks, Commit(s, owner, target, said).tasks);
  }

  lemma SameTasksTwice(a: map<nat, Task>, b: map<nat, Task>, c: map<nat, Task>)
    requires SameTasks(a, b) && SameTasks(b, c)
    ensures SameTasks(a, c)
  {
  }

  lemma MarkIsQuiet(s: State, turn: nat, spoke: bool)
    ensures var t := Mark(s, turn, spoke);
            SameTasks(s.tasks, t.tasks) && t.tables == s.tables && t.memories == s.memories
            && t.affinities == s.affinities
  {
  }

  lemma StoredIsQuiet(s: State, target: nat, said: Said)
    requires Store.AppendAssistantText(s.tables, target, said.text).Some?
    ensures SameRecords(s.tables, Stored(s, target, said).tables)
  {
  }

  lemma SentenceIsQuiet(s: State, owner: nat, text: string, ct: Sentences.CharTable)
    requires owner in s.tasks
    ensures Quiet(s, Sentence(s, owner, text, ct))
  {
    hide Commit, Sentences.Strip, Target;
    if Target(s, owner).Some? {
      CommitIsQuiet(s, owner, Target(s, owner).value, Said(Sentences.Strip(ct, text), [], 0));
    }
  }

  lemma LookIsQuiet(s: State, owner: nat, target: nat, said: Said, entering: bool)
    requires owner in s.tasks
    ensures Quiet(s, LookForDrain(s, owner, target, said, entering))
  {
    hide Commit, Playback.Drain, Playback.DrainAnswer;
    CommitIsQuiet(s.(sink := Playback.Drain(s.sink, s.tasks[owner].generation, entering)), owner, target, said);
  }

  // ---------------------------------------------------------------------------------------------
  // Steps that make or drop proposals

  lemma {:induction false} OthersKept<P>(ps: seq<Proposal<P>>, generation: nat)
    ensures forall p | p in Others(ps, generation) :: p in ps && p.generation != generation
    ensures OnePerTurn(ps) ==> OnePerTurn(Others(ps, generation))
    decreases |ps|
  {
    if ps != [] {
      OthersKept(ps[1..], generation);
      if OnePerTurn(ps) {
        var rest, all := Others(ps[1..], generation), Others(ps, generation);
        assert OnePerTurn(ps[1..]);
        forall q | q in rest
          ensures q.turn != ps[0].turn
        {
          var k :| 0 <= k < |ps[1..]| && ps[1..][k] == q;
          assert ps[k + 1] == q;
        }
        assert all == rest || all == [ps[0]] + rest;
      }
    }
  }

  /** Dropping a generation keeps the rest in order; tasks outside the generation still own what is theirs. */
  lemma DropKeeps(s: State, generation: nat, tasks: map<nat, Task>)
    requires Waiting(s) && OneTaskPerGeneration(tasks)
    requires forall turn | turn in s.tasks && s.tasks[turn].generation != generation ::
               turn in tasks && tasks[turn] == s.tasks[turn]
    ensures Waiting(DropProposals(s, generation).(tasks := tasks))
  {
    OthersKept(s.memories, generation);
    OthersKept(s.affinities, generation);
    hide Others;
  }

  lemma MoreTasksWait(s: State, t: State, turn: nat)
    requires Waiting(s) && t.memories == s.memories && t.affinities == s.affinities
    requires turn !in s.tasks && turn in t.tasks && t.tasks == s.tasks[turn := t.tasks[turn]]
    requires forall other | other in s.tasks :: s.tasks[other].generation != t.tasks[turn].generation
    ensures Waiting(t)
  {
    hide OnePerTurn;
  }

  lemma BeginWaits(s: State, session: string, generation: nat, text: string, speakText: bool, ct: Sentences.CharTable)
    requires Consistent(s, ct) && Waiting(s) && Earned(s.tables)
    requires forall turn | turn in s.tasks :: s.tasks[turn].generation != generation
    ensures var t := Begin(s, session, generation, text, speakText, ct); Waiting(t) && Earned(t.tables)
  {
    BeginRow(s, session, generation, text, speakText, ct);
    TasksHaveRows(s, ct);
    hide Consistent, Begin, Waiting, Earned;
    var t := Begin(s, session, generation, text, speakText, ct);
    RecordsStay(s.tables, t.tables);
    if t.tasks != s.tasks { MoreTasksWait(s, t, |s.tables.turns|); } else { TasksStay(s, t); }
  }

  lemma ProposeMemoryWaits(s: State, owner: nat, id: nat, normalized: string, valid: bool)
    requires Waiting(s) && owner in s.tasks
    ensures var t := ProposeMemory(s, owner, id, normalized, valid); Waiting(t) && t.tables == s.tables
  {
    hide HostAccepts;
    var t := ProposeMemory(s, owner, id, normalized, valid);
    if t != s {
      var turn := Target(s, owner).value;
      var counted := Put(s, turn, s.tasks[turn].(memoryCalls := s.tasks[turn].memoryCalls + 1));
      TasksStay(s, counted);
      assert t == counted.(memories := t.memories);
      assert forall p | p in s.memories :: p.turn != turn;
    }
  }

  lemma ProposeAffinityWaits(s: State, owner: nat, id: nat, delta: int, valid: bool)
    requires Waiting(s) && owner in s.tasks
    ensures var t := ProposeAffinity(s, owner, id, delta, valid); Waiting(t) && t.tables == s.tables
  {
    hide HostAccepts;
    var t := ProposeAffinity(s, owner, id, delta, valid);
    if t != s {
      var turn := Target(s, owner).value;
      var counted := Put(s, turn, s.tasks[turn].(affinityCalls := s.tasks[turn].affinityCalls + 1));
      TasksStay(s, counted);
      assert t == counted.(affinities := t.affinities);
      assert forall p | p in s.affinities :: p.turn != turn;
    }
  }

  // ---------------------------------------------------------------------------------------------
  // The finishing step

  lemma {:induction false} CommitNothing(tables: Store.Tables, ps: seq<Proposal<string>>, generation: nat)
    requires forall p | p in ps :: p.generation != generation
    ensures CommitMemories(tables, ps, generation) == tables
    decreases |ps|
  {
    if ps != [] {
      CommitNothing(tables, ps[1..], generation);
    }
  }

  /** When the generation has one turn, at most its one memory is stored. */
  lemma {:induction false} CommitOwnMemory(tables: Store.Tables, ps: seq<Proposal<string>>, generation: nat, turn: nat)
    requires OnePerTurn(ps) && forall p | p in ps && p.generation == generation :: p.turn == turn
    ensures var after := CommitMemories(tables, ps, generation);
            && after == tables.(memories := after.memories)
            && (after.memories == tables.memories
                || exists m: Store.Memory :: m.sourceTurn == turn && after.memories == tables.memories + [m])
    decreases |ps|
  {
    if ps != [] {
      var p := ps[0];
      if p.generation == generation {
        forall q | q in ps[1..]
          ensures q.generation != generation
        {
          var k :| 0 <= k < |ps[1..]| && ps[1..][k] == q;
          assert ps[k + 1] == q && q in ps;
        }
        var m := Store.Memory(p.id, p.payload, p.turn);
        var added := Store.AddMemory(tables, m);
        var next := if Store.TurnMatches(tables, p.turn, p.session, p.generation) && added.Stored? then added.tables
                    else tables;
        CommitNothing(next, ps[1..], generation);
        assert p in ps && m.sourceTurn == turn;
      } else {
        assert OnePerTurn(ps[1..]);
        CommitOwnMemory(tables, ps[1..], generation, turn);
      }
    }
  }

  lemma {:induction false} CommitOwnEvents(tables: Store.Tables, ps: seq<Proposal<int>>, generation: nat, turn: nat)
    requires Store.AffinityConsistent(tables) && forall p | p in ps && p.generation == generation :: p.turn == turn
    ensures var after := CommitAffinities(tables, ps, generation);
            && Store.AffinityConsistent(after)
            && after == tables.(affinity := after.affinity, events := after.events)
            && (forall e | e in after.events :: e in tables.events || e.turn == turn)
    decreases |ps|
  {
    hide Store.AffinityConsistent;
    if ps != [] {
      var p := ps[0];
      assert p in ps;
      var applied := Store.ApplyAffinity(tables, p.id, p.session, p.turn, p.generation, p.payload);
      var next := if p.generation == generation && Store.TurnMatches(tables, p.turn, p.session, p.generation)
                     && applied.Changed?
                  then applied.tables else tables;
      Store.ApplyKeepsAffinity(tables, Store.OpAffinity(p.id, p.session, p.turn, p.generation, p.payload));
      CommitOwnEvents(next, ps[1..], generation, turn);
    }
  }

  /** The tables after a commit, with the turn's row marked. */
  function Marked(s: Store.Tables, committed: Store.Tables, turn: nat, status: Store.Status): Store.Tables
    requires turn < |s.turns|
  {
    committed.(turns := s.turns[turn := s.turns[turn].(status := status)])
  }

  /** A turn that has spoken and is current completes: nothing it has committed has to be regretted. */
  lemma FinishCompletes(s: State, turn: nat, result: Result, ct: Sentences.CharTable)
    requires Consistent(s, ct) && turn in s.tasks && Outcome(s, s.tasks[turn], result) == Completed
    ensures var t, g := Finish(s, turn, result), s.tasks[turn].generation;
            var committed := CommitAffinities(CommitMemories(s.tables, s.memories, g), s.affinities, g);
            && turn < |s.tables.turns| && s.tables.turns[turn].status == Store.Pending
            && committed.turns == s.tables.turns
            && t == DropProposals(Ended(s, turn).(tables := Marked(s.tables, committed, turn, Store.Complete)), g)
  {
    assert TaskInStep(s, turn, ct);
    hide Consistent, Others, CommitMemories, CommitAffinities;
    CommitProposalsTurns(Ended(s, turn), s.tasks[turn].generation);
  }

  lemma FinishDiscards(s: State, turn: nat, result: Result, ct: Sentences.CharTable)
    requires Consistent(s, ct) && turn in s.tasks && Outcome(s, s.tasks[turn], result) != Completed
    ensures var t := Finish(s, turn, result);
            && turn < |s.tables.turns| && s.tables.turns[turn].status == Store.Pending
            && t == DropProposals(Ended(s, turn).(tables := Marked(s.tables, s.tables, turn, Store.Cancelled)),
                                  s.tasks[turn].generation)
  {
    assert TaskInStep(s, turn, ct);
    hide Consistent, Others, CommitMemories, CommitAffinities;
  }

  /** Marking a pending turn complete turns what it has just stored into what a complete turn has stored. */
  lemma CompletedEarns(s: Store.Tables, committed: Store.Tables, turn: nat)
    requires Earned(s) && turn < |s.turns| && s.turns[turn].status == Store.Pending
    requires Store.AffinityConsistent(committed) && committed.turns == s.turns
    requires committed.memories == s.memories
             || exists m: Store.Memory :: m.sourceTurn == turn && committed.memories == s.memories + [m]
    requires forall e | e in committed.events :: e in s.events || e.turn == turn
    ensures Earned(Marked(s, committed, turn, Store.Complete))
  {
    var t := Marked(s, committed, turn, Store.Complete);
    Store.RowsKeepAffinity(committed, t);
    hide Store.AffinityConsistent;
    assert forall m | m in s.memories :: m.sourceTurn != turn;
    assert SourcesComplete(t);
    forall i, j | 0 <= i < j < |t.memories|
      ensures t.memories[i].sourceTurn != t.memories[j].sourceTurn
    {
      assert t.memories[i] in s.memories;
    }
  }

  lemma FinishEarned(s: State, turn: nat, result: Result, ct: Sentences.CharTable)
    requires Consistent(s, ct) && Waiting(s) && Earned(s.tables) && turn in s.tasks
    ensures var t := Finish(s, turn, result); Waiting(t) && Earned(t.tables)
  {
    hide Consistent, Earned, Finish, Others, OnePerTurn, Counted;
    var g := s.tasks[turn].generation;
    DropKeeps(s, g, s.tasks - {turn});
    hide Waiting;
    if Outcome(s, s.tasks[turn], result) == Completed {
      FinishCompletes(s, turn, result, ct);
      assert Store.AffinityConsistent(s.tables) by { EarnedAffinity(s.tables); }
      hide Store.AffinityConsistent, CommitMemories, CommitAffinities;
      CommitOwnMemory(s.tables, s.memories, g, turn);
      var stored := CommitMemories(s.tables, s.memories, g);
      Store.RowsKeepAffinity(s.tables, stored);
      CommitOwnEvents(stored, s.affinities, g, turn);
      CompletedEarns(s.tables, CommitAffinities(stored, s.affinities, g), turn);
      TasksStay(DropProposals(s, g).(tasks := s.tasks - {turn}), Finish(s, turn, result));
    } else {
      FinishDiscards(s, turn, result, ct);
      var t := Finish(s, turn, result);
      TasksStay(DropProposals(s, g).(tasks := s.tasks - {turn}), t);
      RecordsStay(s.tables, t.tables);
    }
  }

  lemma EarnedAffinity(tables: Store.Tables)
    requires Earned(tables)
    ensures Store.AffinityConsistent(tables)
  {
  }

  // ---------------------------------------------------------------------------------------------
  // Every step and every run

  lemma ResumeIsQuiet(s: State, turn: nat, at: At)
    requires turn in s.tasks
    ensures SameTasks(s.tasks, s.tasks[turn := s.tasks[turn].(at := at)]) && SameRecords(s.tables, s.tables)
  {
  }

  lemma ChunkIsQuiet(s: State, owner: nat, data: seq<int>)
    requires owner in s.tasks && s.tasks[owner].at.Synthesizing?
    ensures Quiet(s, ChunkArrives(s, owner, data))
  {
    hide Playback.Submit, SameTasks, SameRecords;
    ResumeIsQuiet(s, owner, ChunkArrives(s, owner, data).tasks[owner].at);
  }

  lemma FailureIsQuiet(s: State, owner: nat, cancelled: bool)
    requires owner in s.tasks && s.tasks[owner].at.Synthesizing?
    ensures Quiet(s, SynthesisFails(s, owner, cancelled))
  {
  }

  lemma AdvanceIsQuiet(s: State, session: string, chunk: seq<Store.TurnRef>, content: string)
    ensures SameRecords(s.tables, Store.OrSame(s.tables, Store.AdvanceSummary(s.tables, session, chunk, content)))
  {
    hide Store.Unsummarized;
  }

  predicate IsQuiet(step: Step) {
    !step.DoBegin? && !step.DoDropProposals? && !step.DoProposeMemory? && !step.DoProposeAffinity? && !step.DoFinish?
  }

  lemma NextIsQuiet(s: State, step: Step, ct: Sentences.CharTable)
    requires Enabled(s, step) && IsQuiet(step)
    ensures Quiet(s, Next(s, step, ct))
  {
    hide Sentence, LookForDrain, ChunkArrives, SynthesisFails, Playback.Stop, Playback.Take, Playback.Land,
         Store.AdvanceSummary;
    match step
    case DoChunk(owner, data) => ChunkIsQuiet(s, owner, data);
    case DoSentence(owner, text) => SentenceIsQuiet(s, owner, text, ct);
    case DoSynthesisEnds(owner) => LookIsQuiet(s, owner, s.tasks[owner].at.target, s.tasks[owner].at.said, true);
    case DoSynthesisFails(owner, cancelled) => FailureIsQuiet(s, owner, cancelled);
    case DoWake(owner) => LookIsQuiet(s, owner, s.tasks[owner].at.target, s.tasks[owner].at.said, false);
    case DoAdvance(session, chunk, content) => AdvanceIsQuiet(s, session, chunk, content);
    case _ =>
  }

  lemma NextEarned(s: State, step: Step, ct: Sentences.CharTable)
    requires Consistent(s, ct) && Waiting(s) && Earned(s.tables) && Enabled(s, step) && Exclusive(s, step)
    ensures var t := Next(s, step, ct); Waiting(t) && Earned(t.tables)
  {
    if IsQuiet(step) {
      hide Next, Enabled, Consistent, Waiting, Earned, SameTasks, SameRecords;
      NextIsQuiet(s, step, ct);
      TasksStay(s, Next(s, step, ct));
      RecordsStay(s.tables, Next(s, step, ct).tables);
    } else {
      hide Consistent, Waiting, Earned, Begin, Finish, Others, ProposeMemory, ProposeAffinity;
      match step
      case DoBegin(session, g, text, speakText) => BeginWaits(s, session, g, text, speakText, ct);
      case DoDropProposals(g) => WaitingTasks(s); DropKeeps(s, g, s.tasks);
      case DoProposeMemory(turn, id, normalized, valid) => ProposeMemoryWaits(s, turn, id, normalized, valid);
      case DoProposeAffinity(turn, id, delta, valid) => ProposeAffinityWaits(s, turn, id, delta, valid);
      case DoFinish(turn, result) => FinishEarned(s, turn, result, ct);
    }
  }

  lemma WaitingTasks(s: State)
    requires Waiting(s)
    ensures OneTaskPerGeneration(s.tasks)
  {
  }

  lemma {:induction false} RunEarned(s: State, steps: seq<Step>, ct: Sentences.CharTable)
    requires Consistent(s, ct) && Waiting(s) && Earned(s.tables) && Possible(s, steps, ct) && ExclusiveRun(s, steps, ct)
    ensures var t := Run(s, steps, ct); Consistent(t, ct) && Waiting(t) && Earned(t.tables)
    decreases |steps|
  {
    hide Consistent, Waiting, Earned, Next, Enabled, Exclusive;
    if steps != [] {
      NextKeeps(s, steps[0], ct);
      NextEarned(s, steps[0], ct);
      RunEarned(Next(s, steps[0], ct), steps[1..], ct);
    }
  }

  lemma NewEarned(capacity: nat, sessions: set<string>)
    ensures var s := New(capacity, sessions); Waiting(s) && Earned(s.tables)
  {
    Store.FreshAffinity(sessions);
  }

  /**
   With one turn in flight per generation, at every step boundary: each stored memory and each score event
   comes from a complete turn, a turn has at most one of either, and the score is the sum of its events.
   */
  lemma {:induction false} MemoriesAreEarned(capacity: nat, sessions: set<string>, steps: seq<Step>,
                                             ct: Sentences.CharTable)
    requires Possible(New(capacity, sessions), steps, ct) && ExclusiveRun(New(capacity, sessions), steps, ct)
    ensures Earned(Run(New(capacity, sessions), steps, ct).tables)
  {
    NewConsistent(capacity, sessions, ct);
    NewEarned(capacity, sessions);
    hide Consistent, Waiting, Earned, Possible, Run, ExclusiveRun;
    RunEarned(New(capacity, sessions), steps, ct);
  }

  /** Whatever a superseded turn has proposed, it leaves no memory and no score event, now or later. */
  lemma {:induction false} SupersededLeavesNothing(s: State, steps: seq<Step>, stale: nat, ct: Sentences.CharTable)
    requires Consistent(s, ct) && Waiting(s) && Earned(s.tables) && Possible(s, steps, ct) && ExclusiveRun(s, steps, ct)
    requires stale < |s.tables.turns| && s.tables.turns[stale].generation < s.generation
             && s.tables.turns[stale].status != Store.Complete
    ensures var t := Run(s, steps, ct);
            (forall m | m in t.tables.memories :: m.sourceTurn != stale)
            && (forall e | e in t.tables.events :: e.turn != stale)
  {
    hide Consistent, Waiting, Possible, Run, ExclusiveRun, Store.AffinityConsistent, OneMemoryPerTurn;
    RunEarned(s, steps, ct);
    StaleIsFrozen(s, steps, stale, ct);
  }

  // ---------------------------------------------------------------------------------------------
  // Without that assumption

  /** Memories come from nowhere but the proposals of the generation that is being committed. */
  lemma {:induction false} CommitFrom(tables: Store.Tables, ps: seq<Proposal<string>>, generation: nat)
    ensures forall m | m in CommitMemories(tables, ps, generation).memories ::
              m in tables.memories
              || exists p :: p in ps && p.generation == generation && m == Store.Memory(p.id, p.payload, p.turn)
    decreases |ps|
  {
    if ps != [] {
      var p := ps[0];
      var added := Store.AddMemory(tables, Store.Memory(p.id, p.payload, p.turn));
      var next := if p.generation == generation && Store.TurnMatches(tables, p.turn, p.session, p.generation)
                     && added.Stored?
                  then added.tables else tables;
      CommitFrom(next, ps[1..], generation);
      assert p in ps;
      assert forall q | q in ps[1..] :: q in ps;
    }
  }

  /** What the score gets from a proposal. */
  ghost predicate EventOf(e: Store.Event, p: Proposal<int>) {
    e.id == p.id && e.session == p.session && e.turn == p.turn && e.generation == p.generation && e.delta == p.payload
  }

  lemma {:induction false} ApplyFrom(tables: Store.Tables, ps: seq<Proposal<int>>, generation: nat)
    ensures forall e | e in CommitAffinities(tables, ps, generation).events ::
              e in tables.events || exists p :: p in ps && p.generation == generation && EventOf(e, p)
    decreases |ps|
  {
    if ps != [] {
      var p := ps[0];
      var applied := Store.ApplyAffinity(tables, p.id, p.session, p.turn, p.generation, p.payload);
      var next := if p.generation == generation && Store.TurnMatches(tables, p.turn, p.session, p.generation)
                     && applied.Changed?
                  then applied.tables else tables;
      ApplyFrom(next, ps[1..], generation);
      assert p in ps;
      assert forall q | q in ps[1..] :: q in ps;
    }
  }

  /** Every new memory and every new score event is a proposal of the generation that is current. */
  ghost predicate NewAreCurrent(s: State, t: Store.Tables) {
    && (forall m | m in t.memories ::
          m in s.tables.memories || exists p :: p in s.memories && p.generation == s.generation && m == MemoryOf(p))
    && (forall e | e in t.events ::
          e in s.tables.events || exists p :: p in s.affinities && p.generation == s.generation && EventOf(e, p))
  }

  /**
   In any interleaving nothing but finishing a turn stores a memory or moves the score, and only by current
   proposals.
   */
  lemma CommittedIsCurrent(s: State, step: Step, ct: Sentences.CharTable)
    requires Consistent(s, ct) && Enabled(s, step)
    ensures var t := Next(s, step, ct).tables;
            NewAreCurrent(s, t) && (t.memories != s.tables.memories || t.events != s.tables.events ==> step.DoFinish?)
  {
    hide Consistent, Begin, Finish, Others, HostAccepts, EventOf, SameTasks;
    if IsQuiet(step) {
      hide Next;
      NextIsQuiet(s, step, ct);
    } else {
      match step
      case DoBegin(session, g, text, speakText) => BeginRow(s, session, g, text, speakText, ct);
      case DoFinish(turn, result) => FinishStores(s, turn, result, ct);
      case _ =>
    }
  }

  lemma FinishStores(s: State, turn: nat, result: Result, ct: Sentences.CharTable)
    requires Consistent(s, ct) && turn in s.tasks
    ensures NewAreCurrent(s, Finish(s, turn, result).tables)
  {
    hide Consistent, Finish, Others, CommitMemories, CommitAffinities, EventOf;
    var g := s.tasks[turn].generation;
    if Outcome(s, s.tasks[turn], result) == Completed {
      FinishCompletes(s, turn, result, ct);
      var stored := CommitMemories(s.tables, s.memories, g);
      CommitMemoriesTurns(s.tables, s.memories, g);
      CommitAffinitiesTurns(stored, s.affinities, g);
      CommitFrom(s.tables, s.memories, g);
      ApplyFrom(stored, s.affinities, g);
    } else {
      FinishDiscards(s, turn, result, ct);
    }
  }

  ghost predicate Matches<P>(tables: Store.Tables, p: Proposal<P>, generation: nat) {
    p.generation == generation && Store.TurnMatches(tables, p.turn, p.session, p.generation)
  }

  /** A proposal that a commit of its generation stores: its turn is pending and its content is new. */
  ghost predicate Storable(tables: Store.Tables, ps: seq<Proposal<string>>, generation: nat, i: nat)
    requires i < |ps|
  {
    && Matches(tables, ps[i], generation)
    && (forall m | m in tables.memories :: m.normalized != ps[i].payload)
    && (forall j | 0 <= j < i && Matches(tables, ps[j], generation) :: ps[j].payload != ps[i].payload)
  }

  /** Identifiers are random and never repeat. */
  ghost predicate FreshIds(tables: Store.Tables, ps: seq<Proposal<string>>) {
    && (forall p, m | p in ps && m in tables.memories :: p.id != m.id)
    && (forall i, j | 0 <= i < j < |ps| :: ps[i].id != ps[j].id)
  }

  function MemoryOf(p: Proposal<string>): Store.Memory {
    Store.Memory(p.id, p.payload, p.turn)
  }

  lemma {:induction false} CommitStores(tables: Store.Tables, ps: seq<Proposal<string>>, generation: nat)
    requires FreshIds(tables, ps)
    ensures var after := CommitMemories(tables, ps, generation).memories;
            && (forall m | m in tables.memories :: m in after)
            && (forall i: nat | i < |ps| && Storable(tables, ps, generation, i) :: MemoryOf(ps[i]) in after)
            && (forall m | m in after ::
                  m in tables.memories
                  || exists i: nat :: i < |ps| && Storable(tables, ps, generation, i) && m == MemoryOf(ps[i]))
    decreases |ps|
  {
    if ps != [] {
      var p, rest := ps[0], ps[1..];
      var added := Store.AddMemory(tables, MemoryOf(p));
      var next := if Matches(tables, p, generation) && added.Stored? then added.tables else tables;
      FirstStored(tables, ps, generation);
      CommitStores(next, rest, generation);
      hide Storable;
      var after := CommitMemories(next, rest, generation).memories;
      assert CommitMemories(tables, ps, generation).memories == after;
      forall i: nat | i < |ps| && Storable(tables, ps, generation, i)
        ensures MemoryOf(ps[i]) in after
      {
        if i > 0 {
          assert rest[i - 1] == ps[i] && Storable(next, rest, generation, i - 1);
        }
      }
      forall m | m in after
        ensures m in tables.memories
                || exists i: nat :: i < |ps| && Storable(tables, ps, generation, i) && m == MemoryOf(ps[i])
      {
        if m !in next.memories {
          var k: nat :| k < |rest| && Storable(next, rest, generation, k) && m == MemoryOf(rest[k]);
          assert rest[k] == ps[k + 1] && Storable(tables, ps, generation, k + 1);
        }
      }
    }
  }

  /** The first proposal is stored exactly if it is storable; what can be stored of the rest is unchanged by that. */
  lemma FirstStored(tables: Store.Tables, ps: seq<Proposal<string>>, generation: nat)
    requires FreshIds(tables, ps) && ps != []
    ensures var added := Store.AddMemory(tables, MemoryOf(ps[0]));
            var next := if Matches(tables, ps[0], generation) && added.Stored? then added.tables else tables;
            && FreshIds(next, ps[1..])
            && next.memories
               == tables.memories + (if Storable(tables, ps, generation, 0) then [MemoryOf(ps[0])] else [])
            && forall i: nat | i < |ps| - 1 ::
                 Storable(next, ps[1..], generation, i) <==> Storable(tables, ps, generation, i + 1)
  {
    var p, rest := ps[0], ps[1..];
    var added := Store.AddMemory(tables, MemoryOf(p));
    var next := if Matches(tables, p, generation) && added.Stored? then added.tables else tables;
    assert forall i | 0 <= i < |rest| :: rest[i] == ps[i + 1];
    forall i: nat | i < |rest|
      ensures Storable(next, rest, generation, i) <==> Storable(tables, ps, generation, i + 1)
    {
      assert forall j | 0 <= j < i :: Matches(next, rest[j], generation) == Matches(tables, ps[j + 1], generation);
      assert forall j | 0 < j <= i :: ps[j] == rest[j - 1];
    }
  }

  /**
   Exactly when finishing a turn leaves every stored memory with a complete source: unless it commits
   something new that another turn of the same generation has proposed.
   */
  lemma FinishEarns(s: State, turn: nat, result: Result, ct: Sentences.CharTable)
    requires Consistent(s, ct) && turn in s.tasks && SourcesComplete(s.tables) && FreshIds(s.tables, s.memories)
    ensures SourcesComplete(Finish(s, turn, result).tables)
            <==> (Outcome(s, s.tasks[turn], result) == Completed ==>
                    forall i: nat | i < |s.memories| && Storable(s.tables, s.memories, s.tasks[turn].generation, i) ::
                      s.memories[i].turn == turn)
  {
    hide Consistent, Finish, Others, CommitMemories, CommitAffinities, FreshIds;
    var g, t := s.tasks[turn].generation, Finish(s, turn, result);
    if Outcome(s, s.tasks[turn], result) == Completed {
      FinishCompletes(s, turn, result, ct);
      CommitAffinitiesTurns(CommitMemories(s.tables, s.memories, g), s.affinities, g);
      CommitStores(s.tables, s.memories, g);
      assert forall m | m in s.tables.memories :: IsComplete(t.tables.turns, m.sourceTurn);
      forall i: nat | i < |s.memories| && Storable(s.tables, s.memories, g, i)
        ensures MemoryOf(s.memories[i]) in t.tables.memories
        ensures IsComplete(t.tables.turns, s.memories[i].turn) <==> s.memories[i].turn == turn
      {
      }
    } else {
      FinishDiscards(s, turn, result, ct);
    }
  }

  /** A score proposal that a commit of its generation applies, after those before it. */
  ghost predicate AppliesAt(tables: Store.Tables, ps: seq<Proposal<int>>, generation: nat, i: nat)
    requires i < |ps|
  {
    var p, before := ps[i], CommitAffinities(tables, ps[..i], generation);
    Matches(tables, p, generation)
    && Store.ApplyAffinity(before, p.id, p.session, p.turn, p.generation, p.payload).Changed?
  }

  function ApplyOne(tables: Store.Tables, p: Proposal<int>, generation: nat): Store.Tables {
    var applied := Store.ApplyAffinity(tables, p.id, p.session, p.turn, p.generation, p.payload);
    if p.generation == generation && Store.TurnMatches(tables, p.turn, p.session, p.generation) && applied.Changed?
    then applied.tables else tables
  }

  lemma AppliesLater(tables: Store.Tables, ps: seq<Proposal<int>>, generation: nat, i: nat)
    requires 0 < i < |ps|
    ensures AppliesAt(tables, ps, generation, i)
            == AppliesAt(ApplyOne(tables, ps[0], generation), ps[1..], generation, i - 1)
  {
    hide Store.ApplyAffinity, Store.TurnMatches;
    var next := ApplyOne(tables, ps[0], generation);
    assert ps[..i][0] == ps[0] && ps[..i][1..] == ps[1..][..i - 1];
    assert CommitAffinities(tables, ps[..i], generation) == CommitAffinities(next, ps[1..][..i - 1], generation);
    SameMatches(tables, ps[0], generation, ps[i]);
  }

  lemma SameMatches(tables: Store.Tables, p: Proposal<int>, generation: nat, q: Proposal<int>)
    ensures Matches(ApplyOne(tables, p, generation), q, generation) == Matches(tables, q, generation)
  {
  }

  lemma {:induction false} AppliesFirst(tables: Store.Tables, ps: seq<Proposal<int>>, generation: nat)
    requires ps != []
    ensures var next := ApplyOne(tables, ps[0], generation);
            && CommitAffinities(tables, ps, generation) == CommitAffinities(next, ps[1..], generation)
            && (if AppliesAt(tables, ps, generation, 0) then
                  |next.events| == |tables.events| + 1 && next.events[..|tables.events|] == tables.events
                  && next.events[|tables.events|].turn == ps[0].turn
                else next.events == tables.events)
  {
    assert ps[..0] == [];
    hide Store.SessionSum;
  }

  lemma {:induction false} CommitApplies(tables: Store.Tables, ps: seq<Proposal<int>>, generation: nat)
    ensures var after := CommitAffinities(tables, ps, generation).events;
            && (forall e | e in tables.events :: e in after)
            && (forall i: nat | i < |ps| && AppliesAt(tables, ps, generation, i) ::
                  exists e :: e in after && e.turn == ps[i].turn)
            && (forall e | e in after ::
                  e in tables.events
                  || exists i: nat :: i < |ps| && AppliesAt(tables, ps, generation, i) && e.turn == ps[i].turn)
    decreases |ps|
  {
    if ps != [] {
      var next, rest := ApplyOne(tables, ps[0], generation), ps[1..];
      AppliesFirst(tables, ps, generation);
      CommitApplies(next, rest, generation);
      hide CommitAffinities, AppliesAt, ApplyOne;
      var after := CommitAffinities(tables, ps, generation).events;
      var n := |tables.events|;
      forall i: nat | i < |ps| && AppliesAt(tables, ps, generation, i)
        ensures exists e :: e in after && e.turn == ps[i].turn
      {
        if i == 0 {
          assert next.events[n] in next.events;
        } else {
          AppliesLater(tables, ps, generation, i);
          assert rest[i - 1] == ps[i];
        }
      }
      forall e | e in after
        ensures e in tables.events
                || exists i: nat :: i < |ps| && AppliesAt(tables, ps, generation, i) && e.turn == ps[i].turn
      {
        if e in next.events {
          var k :| 0 <= k < |next.events| && next.events[k] == e;
          assert k < n ==> next.events[..n][k] == e;
        } else {
          var k: nat :| k < |rest| && AppliesAt(next, rest, generation, k) && e.turn == rest[k].turn;
          AppliesLater(tables, ps, generation, k + 1);
          assert rest[k] == ps[k + 1];
        }
      }
    }
  }

  /**
   The same for the score: finishing a turn leaves every event with a complete turn, unless it applies what
   another turn of the same generation has proposed.
   */
  lemma FinishEarnsScore(s: State, turn: nat, result: Result, ct: Sentences.CharTable)
    requires Consistent(s, ct) && turn in s.tasks && EventsComplete(s.tables)
    ensures var g := s.tasks[turn].generation;
            var stored := CommitMemories(s.tables, s.memories, g);
            EventsComplete(Finish(s, turn, result).tables)
            <==> (Outcome(s, s.tasks[turn], result) == Completed ==>
                    forall i: nat | i < |s.affinities| && AppliesAt(stored, s.affinities, g, i) ::
                      s.affinities[i].turn == turn)
  {
    hide Consistent, Finish, Others, CommitMemories, CommitAffinities;
    var g, t := s.tasks[turn].generation, Finish(s, turn, result);
    if Outcome(s, s.tasks[turn], result) == Completed {
      var stored := CommitMemories(s.tables, s.memories, g);
      FinishCompletes(s, turn, result, ct);
      CommitMemoriesTurns(s.tables, s.memories, g);
      CommitApplies(stored, s.affinities, g);
      assert forall e | e in s.tables.events :: IsComplete(t.tables.turns, e.turn);
      forall i: nat | i < |s.affinities| && AppliesAt(stored, s.affinities, g, i)
        ensures IsComplete(t.tables.turns, s.affinities[i].turn) <==> s.affinities[i].turn == turn
      {
      }
    } else {
      FinishDiscards(s, turn, result, ct);
    }
  }

  // ---------------------------------------------------------------------------------------------
  // Two turns of one generation

  lemma {:induction false} RunStep(s: State, step: Step, rest: seq<Step>, ct: Sentences.CharTable)
    requires Enabled(s, step) && Possible(Next(s, step, ct), rest, ct)
    ensures Possible(s, [step] + rest, ct) && Run(s, [step] + rest, ct) == Run(Next(s, step, ct), rest, ct)
  {
    assert ([step] + rest)[1..] == rest;
  }

  /** A turn of generation 0 that has answered and is not finished. */
  ghost predicate HasAnswered(s: State, session: string) {
    && s.generation == 0 && s.memories == [] && s.affinities == [] && s.tables.memories == []
    && s.tables.sessions == {session} && |s.tables.turns| >= 1
    && 0 in s.tasks && s.tasks[0] == Task(0, false, true, false, false, 1, 0, 0, Generating)
    && var row := s.tables.turns[0];
       row.session == session && row.generation == 0 && row.status == Store.Pending && row.user.Some?
       && row.assistant.Some?
  }

  lemma FirstAnswers(capacity: nat, session: string, text: string, ct: Sentences.CharTable)
    requires Sayable(ct, text) && |text| <= Store.MAX_CONTENT
    ensures var s := Next(New(capacity, {session}), DoBegin(session, 0, text, false), ct);
            && Enabled(s, DoSentence(0, text))
            && var t := Next(s, DoSentence(0, text), ct);
               HasAnswered(t, session) && |t.tables.turns| == 1
  {
    hide Sentences.Strip, Store.MaxSequence;
    var s := Next(New(capacity, {session}), DoBegin(session, 0, text, false), ct);
    assert |s.tables.turns| == 1 && s.tasks == map[0 := Task(0, false, false, false, false, 0, 0, 0, Generating)];
  }

  /** A second turn of the generation begins and proposes. */
  lemma SecondProposes(s: State, session: string, text: string, ct: Sentences.CharTable)
    requires HasAnswered(s, session) && |s.tables.turns| == 1 && Sayable(ct, text) && |text| <= Store.MAX_CONTENT
    ensures var t := Next(s, DoBegin(session, 0, text, false), ct);
            && Enabled(t, DoProposeMemory(1, 0, text, true))
            && var u := Next(t, DoProposeMemory(1, 0, text, true), ct);
               && HasAnswered(u.(memories := []), session) && |u.tables.turns| == 2
               && u.memories == [Proposal(0, 0, session, 1, text)] && Store.TurnMatches(u.tables, 1, session, 0)
  {
    hide Sentences.Strip, Store.MaxSequence;
    var t := Next(s, DoBegin(session, 0, text, false), ct);
    assert |t.tables.turns| == 2 && t.tasks == s.tasks[1 := Task(0, false, false, false, false, 0, 0, 0, Generating)];
    assert t.tables.turns[0] == s.tables.turns[0] && Store.TurnMatches(t.tables, 1, session, 0);
  }

  lemma FinishLeaks(s: State, session: string, text: string)
    requires HasAnswered(s.(memories := []), session) && |s.tables.turns| == 2
    requires s.memories == [Proposal(0, 0, session, 1, text)] && Store.TurnMatches(s.tables, 1, session, 0)
    ensures !SourcesComplete(Finish(s, 0, Completed).tables)
  {
    hide CommitAffinities, Others;
    var m := Store.Memory(0, text, 1);
    assert CommitMemories(s.tables, s.memories, 0) == s.tables.(memories := [m]) by {
      assert CommitMemories(s.tables.(memories := [m]), [], 0) == s.tables.(memories := [m]);
      assert s.memories[1..] == [];
    }
    CommitAffinitiesTurns(CommitMemories(s.tables, s.memories, 0), s.affinities, 0);
    var t := Finish(s, 0, Completed);
    assert m in t.tables.memories && !IsComplete(t.tables.turns, 1);
  }

  function LeakingRun(session: string, text: string): seq<Step> {
    var begin := DoBegin(session, 0, text, false);
    [begin]
    + ([DoSentence(0, text)] + ([begin] + ([DoProposeMemory(1, 0, text, true)] + ([DoFinish(0, Completed)] + []))))
  }

  lemma {:induction false} LeakingRunLeaks(capacity: nat, session: string, text: string, ct: Sentences.CharTable)
    requires Sayable(ct, text) && |text| <= Store.MAX_CONTENT
    ensures Possible(New(capacity, {session}), LeakingRun(session, text), ct)
    ensures !SourcesComplete(Run(New(capacity, {session}), LeakingRun(session, text), ct).tables)
  {
    hide Next, New, SourcesComplete, Possible, Run;
    var begin, propose, say, finish := DoBegin(session, 0, text, false), DoProposeMemory(1, 0, text, true),
                                       DoSentence(0, text), DoFinish(0, Completed);
    FirstAnswers(capacity, session, text, ct);
    var s0 := New(capacity, {session});
    var s1 := Next(s0, begin, ct);
    var s2 := Next(s1, say, ct);
    SecondProposes(s2, session, text, ct);
    var s3 := Next(s2, begin, ct);
    var s4 := Next(s3, propose, ct);
    FinishLeaks(s4, session, text);
    NextFinishes(s4, ct);
    RunNothing(Next(s4, finish, ct), ct);
    RunStep(s4, finish, [], ct);
    RunStep(s3, propose, [finish] + [], ct);
    RunStep(s2, begin, [propose] + ([finish] + []), ct);
    RunStep(s1, say, [begin] + ([propose] + ([finish] + [])), ct);
    RunStep(s0, begin, [say] + ([begin] + ([propose] + ([finish] + []))), ct);
  }

  lemma NextFinishes(s: State, ct: Sentences.CharTable)
    requires Enabled(s, DoFinish(0, Completed))
    ensures Next(s, DoFinish(0, Completed), ct) == Finish(s, 0, Completed)
  {
  }

  /** A second transcript of one generation, and the first answer commits what the second turn has proposed. */
  lemma {:induction false} SharedGenerationLeaks(capacity: nat, session: string, text: string, ct: Sentences.CharTable)
    requires Sayable(ct, text) && |text| <= Store.MAX_CONTENT
    ensures exists steps ::
              && Possible(New(capacity, {session}), steps, ct)
              && !SourcesComplete(Run(New(capacity, {session}), steps, ct).tables)
  {
    hide LeakingRun, New, SourcesComplete, Possible, Run;
    LeakingRunLeaks(capacity, session, text, ct);
  }

  lemma {:induction false} RunNothing(s: State, ct: Sentences.CharTable)
    ensures Possible(s, [], ct) && Run(s, [], ct) == s
  {
  }
}
