/**
 Rolling summaries beside the turns of a session: the store's promise and the session's, joined.

 The store misses a turn that completes behind the covered range (`MissedTurns.TurnsCanBeMissed`). With one turn
 in flight per generation that cannot happen, because only the latest turn can complete; so every complete turn is
 in exactly one of covered and still to be summarized, at every moment of every run (`SummariesMissNothing`).
 */
module Summaries {
  import opened Session
  import opened Wrappers
  import Store
  import Playback
  import Sentences = SentenceGates

  // ---------------------------------------------------------------------------------------------
  // What a step does to the turn table

  /** Rows keep their places; at most `completing` becomes complete, and nothing ceases to be. */
  ghost predicate TurnsMove(before: seq<Store.Turn>, after: seq<Store.Turn>, completing: Option<nat>) {
    && |before| <= |after|
    && (forall i | 0 <= i < |before| ::
          && after[i].session == before[i].session && after[i].sequence == before[i].sequence
          && (before[i].status == Store.Complete ==> after[i].status == Store.Complete)
          && (after[i].status == Store.Complete ==> before[i].status == Store.Complete || completing == Some(i)))
    && (forall i | |before| <= i < |after| :: after[i].status != Store.Complete)
  }

  lemma CommitTurns(s: State, owner: nat, target: nat, said: Said)
    requires owner in s.tasks
    ensures var t := Commit(s, owner, target, said).tables;
            TurnsMove(s.tables.turns, t.turns, None) && |t.turns| == |s.tables.turns|
            && t.summaries == s.tables.summaries
  {
  }

  lemma FinishTurns(s: State, owner: nat, result: Result)
    requires owner in s.tasks && owner < |s.tables.turns| && s.tables.turns[owner].status != Store.Complete
    ensures var t := Finish(s, owner, result).tables;
            && |t.turns| == |s.tables.turns| && t.summaries == s.tables.summaries
            && TurnsMove(s.tables.turns, t.turns,
                         if s.tasks[owner].generation == s.generation then Some(owner) else None)
  {
    FinishRow(s, owner, result);
    FinishSummaries(s, owner, result);
    hide Finish;
  }

  lemma FinishSummaries(s: State, owner: nat, result: Result)
    requires owner in s.tasks
    ensures Finish(s, owner, result).tables.summaries == s.tables.summaries
  {
    var g := s.tasks[owner].generation;
    CommitMemoriesTurns(s.tables, s.memories, g);
    ScoreSummaries(CommitMemories(s.tables, s.memories, g), s.affinities, g);
    hide CommitMemories, CommitAffinities, Others;
  }

  lemma {:induction false} ScoreSummaries(tables: Store.Tables, ps: seq<Proposal<int>>, generation: nat)
    ensures CommitAffinities(tables, ps, generation).summaries == tables.summaries
    decreases |ps|
  {
    if ps != [] {
      var p := ps[0];
      var applied := Store.ApplyAffinity(tables, p.id, p.session, p.turn, p.generation, p.payload);
      ScoreSummaries(if p.generation == generation && Store.TurnMatches(tables, p.turn, p.session, p.generation)
                        && applied.Changed?
                     then applied.tables else tables, ps[1..], generation);
    }
  }

  lemma BeginTurns(s: State, session: string, generation: nat, text: string, speakText: bool, ct: Sentences.CharTable,
                   of: string)
    requires Store.RowsOrdered(s.tables.turns, of)
    ensures var t := Begin(s, session, generation, text, speakText, ct).tables;
            TurnsMove(s.tables.turns, t.turns, None) && t.summaries == s.tables.summaries
            && Store.RowsOrdered(t.turns, of)
  {
    BeginRow(s, session, generation, text, speakText, ct);
    hide Begin;
    var before, after := s.tables.turns, Begin(s, session, generation, text, speakText, ct).tables.turns;
    if after != before {
      assert after == before + [after[|before|]];
      forall i, j | 0 <= i < j < |after| && after[i].session == of && after[j].session == of
        ensures after[i].sequence < after[j].sequence
      {
        assert after[i] == before[i] && before[i] in before;
      }
    }
  }

  /** The turn that a step may complete. */
  function Completing(s: State, step: Step): Option<nat>
    requires Enabled(s, step)
  {
    if step.DoFinish? && s.tasks[step.owner].generation == s.generation then Some(step.owner) else None
  }

  lemma OrderMoves(before: seq<Store.Turn>, after: seq<Store.Turn>, completing: Option<nat>, of: string)
    requires Store.RowsOrdered(before, of) && TurnsMove(before, after, completing) && |after| == |before|
    ensures Store.RowsOrdered(after, of)
  {
  }

  lemma TurnsStay(turns: seq<Store.Turn>)
    ensures TurnsMove(turns, turns, None)
  {
  }

  lemma NextTurns(s: State, step: Step, of: string, ct: Sentences.CharTable)
    requires Consistent(s, ct) && Enabled(s, step) && !step.DoAdvance? && Store.RowsOrdered(s.tables.turns, of)
    ensures var t := Next(s, step, ct).tables;
            TurnsMove(s.tables.turns, t.turns, Completing(s, step)) && t.summaries == s.tables.summaries
            && Store.RowsOrdered(t.turns, of)
  {
    TurnsStay(s.tables.turns);
    hide Consistent, TurnsMove, Store.RowsOrdered, Begin, Sentence, LookForDrain, Finish, Others, HostAccepts, Target,
         Playback.Submit, Playback.Stop, Playback.Take, Playback.Land;
    var t := Next(s, step, ct);
    match step
    case DoBegin(session, g, text, speakText) => BeginTurns(s, session, g, text, speakText, ct, of);
    case DoSentence(owner, text) => SentenceTurns(s, owner, text, of, ct);
    case DoSynthesisEnds(owner) => LookTurns(s, owner, true, of);
    case DoWake(owner) => LookTurns(s, owner, false, of);
    case DoFinish(owner, result) =>
      PendingTurn(s, owner, ct);
      FinishTurns(s, owner, result);
      OrderMoves(s.tables.turns, t.tables.turns, Completing(s, step), of);
    case _ =>
  }

  lemma PendingTurn(s: State, owner: nat, ct: Sentences.CharTable)
    requires Consistent(s, ct) && owner in s.tasks
    ensures owner < |s.tables.turns| && s.tables.turns[owner].status == Store.Pending
  {
    assert TaskInStep(s, owner, ct);
  }

  lemma SentenceTurns(s: State, owner: nat, text: string, of: string, ct: Sentences.CharTable)
    requires owner in s.tasks && Store.RowsOrdered(s.tables.turns, of)
    ensures var t := Sentence(s, owner, text, ct).tables;
            TurnsMove(s.tables.turns, t.turns, None) && t.summaries == s.tables.summaries
            && Store.RowsOrdered(t.turns, of)
  {
    TurnsStay(s.tables.turns);
    hide TurnsMove, Store.RowsOrdered, Commit, Sentences.Strip, Target;
    var t := Sentence(s, owner, text, ct);
    if Target(s, owner).Some? {
      var said := Said(Sentences.Strip(ct, text), [], 0);
      CommitTurns(s, owner, Target(s, owner).value, said);
      OrderMoves(s.tables.turns, Commit(s, owner, Target(s, owner).value, said).tables.turns, None, of);
    }
  }

  lemma LookTurns(s: State, owner: nat, entering: bool, of: string)
    requires owner in s.tasks && !s.tasks[owner].at.Generating? && Store.RowsOrdered(s.tables.turns, of)
    ensures var t := LookForDrain(s, owner, s.tasks[owner].at.target, s.tasks[owner].at.said, entering).tables;
            TurnsMove(s.tables.turns, t.turns, None) && t.summaries == s.tables.summaries
            && Store.RowsOrdered(t.turns, of)
  {
    TurnsStay(s.tables.turns);
    hide TurnsMove, Store.RowsOrdered, Commit, Playback.Drain, Playback.DrainAnswer;
    var g, target, said := s.tasks[owner].generation, s.tasks[owner].at.target, s.tasks[owner].at.said;
    var t := s.(sink := Playback.Drain(s.sink, g, entering));
    CommitTurns(t, owner, target, said);
    OrderMoves(s.tables.turns, Commit(t, owner, target, said).tables.turns, None, of);
  }

  // ---------------------------------------------------------------------------------------------
  // Only the latest turn can complete

  /** A task whose generation is current works for the latest row. */
  ghost predicate LatestInFlight(s: State) {
    forall owner | owner in s.tasks && s.tasks[owner].generation == s.generation :: owner == |s.tables.turns| - 1
  }

  lemma TasksAreNotAhead(s: State, ct: Sentences.CharTable)
    requires Consistent(s, ct)
    ensures forall owner | owner in s.tasks :: s.tasks[owner].generation <= s.generation
  {
    TasksHaveRows(s, ct);
    forall owner | owner in s.tasks
      ensures s.tasks[owner].generation <= s.generation
    {
      assert RowInStep(s, owner, ct);
    }
  }

  /** What a step that begins no turn does to the tasks, as far as it matters here. */
  ghost predicate TasksGoOn(s: State, t: State) {
    && s.generation <= t.generation && |t.tables.turns| == |s.tables.turns|
    && forall owner | owner in t.tasks :: owner in s.tasks && t.tasks[owner].generation == s.tasks[owner].generation
  }

  lemma GoingOnKeepsLatest(s: State, t: State, ct: Sentences.CharTable)
    requires Consistent(s, ct) && LatestInFlight(s) && TasksGoOn(s, t)
    ensures LatestInFlight(t)
  {
    TasksAreNotAhead(s, ct);
    hide Consistent;
  }

  lemma CommitGoesOn(s: State, owner: nat, target: nat, said: Said)
    requires owner in s.tasks
    ensures TasksGoOn(s, Commit(s, owner, target, said))
  {
  }

  lemma SentenceGoesOn(s: State, owner: nat, text: string, ct: Sentences.CharTable)
    requires owner in s.tasks
    ensures TasksGoOn(s, Sentence(s, owner, text, ct))
  {
    hide Commit, Sentences.Strip, Target;
    if Target(s, owner).Some? {
      CommitGoesOn(s, owner, Target(s, owner).value, Said(Sentences.Strip(ct, text), [], 0));
    }
  }

  lemma LookGoesOn(s: State, owner: nat, target: nat, said: Said, entering: bool)
    requires owner in s.tasks
    ensures TasksGoOn(s, LookForDrain(s, owner, target, said, entering))
  {
    hide Commit, Playback.Drain, Playback.DrainAnswer;
    CommitGoesOn(s.(sink := Playback.Drain(s.sink, s.tasks[owner].generation, entering)), owner, target, said);
  }

  lemma FinishGoesOn(s: State, owner: nat, result: Result, ct: Sentences.CharTable)
    requires Consistent(s, ct) && owner in s.tasks
    ensures TasksGoOn(s, Finish(s, owner, result))
  {
    TasksHaveRows(s, ct);
    FinishRow(s, owner, result);
    hide Consistent, Finish;
  }

  lemma BeginKeepsLatest(s: State, session: string, generation: nat, text: string, speakText: bool,
                         ct: Sentences.CharTable)
    requires LatestInFlight(s) && forall turn | turn in s.tasks :: s.tasks[turn].generation != generation
    ensures LatestInFlight(Begin(s, session, generation, text, speakText, ct))
  {
    BeginRow(s, session, generation, text, speakText, ct);
    hide Begin, Store.MaxSequence;
  }

  lemma NextKeepsLatest(s: State, step: Step, ct: Sentences.CharTable)
    requires Consistent(s, ct) && LatestInFlight(s) && Enabled(s, step) && Exclusive(s, step)
    ensures LatestInFlight(Next(s, step, ct))
  {
    if step.DoBegin? {
      hide Begin, LatestInFlight;
      BeginKeepsLatest(s, step.session, step.generation, step.text, step.speakText, ct);
    } else {
      NextGoesOn(s, step, ct);
      hide Next, TasksGoOn, LatestInFlight;
      GoingOnKeepsLatest(s, Next(s, step, ct), ct);
    }
  }

  lemma NextGoesOn(s: State, step: Step, ct: Sentences.CharTable)
    requires Consistent(s, ct) && Enabled(s, step) && !step.DoBegin?
    ensures TasksGoOn(s, Next(s, step, ct))
  {
    hide Consistent, Sentence, LookForDrain, Finish, TasksGoOn;
    match step
    case DoSentence(owner, text) => SentenceGoesOn(s, owner, text, ct);
    case DoSynthesisEnds(owner) => LookGoesOn(s, owner, s.tasks[owner].at.target, s.tasks[owner].at.said, true);
    case DoWake(owner) => LookGoesOn(s, owner, s.tasks[owner].at.target, s.tasks[owner].at.said, false);
    case DoFinish(owner, result) => FinishGoesOn(s, owner, result, ct);
    case _ => RestGoesOn(s, step, ct);
  }

  lemma RestGoesOn(s: State, step: Step, ct: Sentences.CharTable)
    requires Enabled(s, step)
    requires !step.DoBegin? && !step.DoSentence? && !step.DoSynthesisEnds? && !step.DoWake? && !step.DoFinish?
    ensures TasksGoOn(s, Next(s, step, ct))
  {
    hide Others, HostAccepts, Store.AdvanceSummary, Playback.Submit, Playback.Stop, Playback.Take, Playback.Land;
    if step.DoAdvance? {
      AdvanceTurns(s.tables, step.session, step.chunk, step.content);
    }
  }

  // ---------------------------------------------------------------------------------------------
  // Coverage

  /** What is covered of a session, kept along a run. */
  function Track(c: Store.Covering, s: State, step: Step, session: string, ct: Sentences.CharTable): Store.Covering
    requires Enabled(s, step)
  {
    if step.DoAdvance? then Store.Cover(c, session, Store.OpAdvance(step.session, step.chunk, step.content))
    else c.(tables := Next(s, step, ct).tables)
  }

  function TrackRun(c: Store.Covering, s: State, steps: seq<Step>, session: string,
                    ct: Sentences.CharTable): Store.Covering
    requires Possible(s, steps, ct)
    decreases |steps|
  {
    if steps == [] then c
    else TrackRun(Track(c, s, steps[0], session, ct), Next(s, steps[0], ct), steps[1..], session, ct)
  }

  /** Coverage is kept by a step that completes nothing but the latest turn. */
  lemma LatestKeepsCoverage(c: Store.Covering, tables: Store.Tables, completing: Option<nat>, session: string)
    requires Store.CoverageConsistent(c, session) && Store.NothingMissed(c, session)
    requires TurnsMove(c.tables.turns, tables.turns, completing) && tables.summaries == c.tables.summaries
    requires Store.RowsOrdered(tables.turns, session)
    requires completing.Some? ==>
               completing.value == |c.tables.turns| - 1 && c.tables.turns[completing.value].status != Store.Complete
    ensures Store.CoverageConsistent(c.(tables := tables), session)
            && Store.NothingMissed(c.(tables := tables), session)
  {
    var d, until := c.(tables := tables), Store.CoveredUntil(c.tables, session);
    forall r | r in c.covered
      ensures Store.Refers(tables.turns, session, r)
    {
      assert Store.Refers(c.tables.turns, session, r);
    }
    forall i | 0 <= i < |tables.turns| && tables.turns[i].session == session && tables.turns[i].status == Store.Complete
               && tables.turns[i].sequence <= Store.CoveredUntil(tables, session)
      ensures Store.TurnRef(i, tables.turns[i].sequence) in d.covered
    {
      assert i < |c.tables.turns|;
      if completing == Some(i) && c.covered != [] {
        LastCovered(c, session);
      }
    }
  }

  lemma LastCovered(c: Store.Covering, session: string)
    requires Store.CoverageConsistent(c, session) && c.covered != []
    ensures var last := c.covered[|c.covered| - 1];
            last.sequence == Store.CoveredUntil(c.tables, session) && Store.Refers(c.tables.turns, session, last)
  {
    assert c.covered[|c.covered| - 1] in c.covered;
  }

  lemma TrackKeeps(c: Store.Covering, s: State, step: Step, session: string, ct: Sentences.CharTable)
    requires Consistent(s, ct) && LatestInFlight(s) && Enabled(s, step) && c.tables == s.tables
    requires Store.CoverageConsistent(c, session) && Store.NothingMissed(c, session)
    ensures var d := Track(c, s, step, session, ct);
            d.tables == Next(s, step, ct).tables && Store.CoverageConsistent(d, session)
            && Store.NothingMissed(d, session)
  {
    if step.DoAdvance? {
      var op := Store.OpAdvance(step.session, step.chunk, step.content);
      Store.ApplyKeepsCoverage(c, session, op);
      Store.CompletionMissesNothing(c, session, op);
      hide Store.CoverageConsistent, Store.NothingMissed, Store.AdvanceSummary;
    } else {
      CompletingIsLatest(s, step, ct);
      Ordered(c, session);
      NextTurns(s, step, session, ct);
      hide Consistent, Next, TurnsMove, Store.CoverageConsistent, Store.NothingMissed, Store.RowsOrdered, Completing;
      LatestKeepsCoverage(c, Next(s, step, ct).tables, Completing(s, step), session);
    }
  }

  lemma Ordered(c: Store.Covering, session: string)
    requires Store.CoverageConsistent(c, session)
    ensures Store.RowsOrdered(c.tables.turns, session)
  {
  }

  lemma CompletingIsLatest(s: State, step: Step, ct: Sentences.CharTable)
    requires Consistent(s, ct) && LatestInFlight(s) && Enabled(s, step)
    ensures var i := Completing(s, step);
            i.Some? ==> i.value == |s.tables.turns| - 1 && s.tables.turns[i.value].status != Store.Complete
  {
    if Completing(s, step).Some? {
      PendingTurn(s, step.owner, ct);
    }
  }

  lemma {:induction false} RunMissesNothing(c: Store.Covering, s: State, steps: seq<Step>, session: string,
                                            ct: Sentences.CharTable)
    requires Consistent(s, ct) && LatestInFlight(s) && Possible(s, steps, ct) && ExclusiveRun(s, steps, ct)
             && c.tables == s.tables
    requires Store.CoverageConsistent(c, session) && Store.NothingMissed(c, session)
    ensures var d := TrackRun(c, s, steps, session, ct);
            && d.tables == Run(s, steps, ct).tables
            && Store.CoverageConsistent(d, session) && Store.NothingMissed(d, session)
    decreases |steps|
  {
    hide Consistent, LatestInFlight, Next, Enabled, Exclusive, Track, Store.CoverageConsistent, Store.NothingMissed;
    if steps != [] {
      NextKeeps(s, steps[0], ct);
      NextKeepsLatest(s, steps[0], ct);
      TrackKeeps(c, s, steps[0], session, ct);
      RunMissesNothing(Track(c, s, steps[0], session, ct), Next(s, steps[0], ct), steps[1..], session, ct);
    }
  }

  lemma NewCoverage(capacity: nat, sessions: set<string>, session: string)
    ensures var c := Store.Covering(New(capacity, sessions).tables, [], 0);
            Store.CoverageConsistent(c, session) && Store.NothingMissed(c, session)
            && LatestInFlight(New(capacity, sessions))
  {
  }

  /**
   With one turn in flight per generation, at every step boundary and for every session: coverage is four turns an
   advance, in order, and every complete turn is in exactly one of covered and still to be summarized.
   */
  lemma {:induction false} SummariesMissNothing(capacity: nat, sessions: set<string>, steps: seq<Step>,
                                                session: string, turn: nat,
                                                ct: Sentences.CharTable)
    requires Possible(New(capacity, sessions), steps, ct) && ExclusiveRun(New(capacity, sessions), steps, ct)
    ensures var s := Run(New(capacity, sessions), steps, ct);
            var c := TrackRun(Store.Covering(New(capacity, sessions).tables, [], 0), New(capacity, sessions), steps,
                              session, ct);
            && c.tables == s.tables && Store.CoverageConsistent(c, session)
            && (turn < |s.tables.turns| && s.tables.turns[turn].session == session
                && s.tables.turns[turn].status == Store.Complete ==>
                  var r := Store.TurnRef(turn, s.tables.turns[turn].sequence);
                  r in c.covered <==> r !in Store.Unsummarized(s.tables, session))
  {
    NewConsistent(capacity, sessions, ct);
    NewCoverage(capacity, sessions, session);
    hide Consistent, LatestInFlight, Possible, Run, TrackRun, ExclusiveRun, Store.CoverageConsistent,
         Store.NothingMissed, Store.Unsummarized;
    var first := New(capacity, sessions);
    var c := Store.Covering(first.tables, [], 0);
    RunMissesNothing(c, first, steps, session, ct);
    var d := TrackRun(c, first, steps, session, ct);
    if turn < |d.tables.turns| && d.tables.turns[turn].session == session
       && d.tables.turns[turn].status == Store.Complete
    {
      Store.CoveredOrUnsummarized(d, session, turn);
    }
  }
}
