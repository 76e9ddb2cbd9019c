/**
 The turn, memory, relationship and summary tables; each function is one atomic write block.

 A turn's identifier is its row. Three promises hold over every run of writes: the relationship score is
 the sum of its events within its bounds (`AffinityOverRuns`), summaries cover the complete turns four by
 four without overlap (`CoverageOverRuns`), and they miss no complete turn exactly as long as no turn is
 completed behind the covered range (`RunMissesNothing`).
 */
module Store {
  import opened Wrappers

  datatype Status = Pending | Complete | Cancelled

  datatype Turn = Turn(session: string, generation: nat, sequence: nat, status: Status, user: Option<string>,
                       assistant: Option<string>)

  datatype Memory = Memory(id: nat, normalized: string, sourceTurn: nat)

  datatype Event = Event(id: nat, session: string, turn: nat, generation: nat, delta: int, resulting: int)

  datatype Coverage = Coverage(start: nat, end: nat, count: nat)

  datatype Tables = Tables(
    sessions: set<string>, turns: seq<Turn>, memories: seq<Memory>, affinity: int, events: seq<Event>,
    summaries: map<string, Coverage>)

  const MAX_CONTENT := 20_000

  /** `None` where the source raises; a write that raises is rolled back. */
  type Write = Option<Tables>

  // ---------------------------------------------------------------------------------------------
  // Turns

  function MaxSequence(turns: seq<Turn>, session: string): (max: nat)
    ensures forall t | t in turns && t.session == session :: t.sequence <= max
  {
    if turns == [] then 0
    else
      var rest := MaxSequence(turns[1..], session);
      if turns[0].session == session && turns[0].sequence > rest then turns[0].sequence else rest
  }

  function BeginTurn(s: Tables, session: string, generation: nat): Write {
    if session !in s.sessions then None
    else Some(s.(turns := s.turns
                 + [Turn(session, generation, MaxSequence(s.turns, session) + 1, Pending, None, None)]))
  }

  predicate IsPending(s: Tables, turn: nat) {
    turn < |s.turns| && s.turns[turn].status == Pending
  }

  /** Content arrives stripped; the store refuses empty and overlong content. */
  predicate ValidContent(content: string) {
    0 < |content| <= MAX_CONTENT
  }

  function SetTurn(s: Tables, turn: nat, row: Turn): Tables
    requires turn < |s.turns|
  {
    s.(turns := s.turns[turn := row])
  }

  function AcceptUserTranscript(s: Tables, turn: nat, content: string): Write {
    if !ValidContent(content) || !IsPending(s, turn) || s.turns[turn].user.Some? then None
    else Some(SetTurn(s, turn, s.turns[turn].(user := Some(content))))
  }

  function AssistantText(t: Turn): string {
    if t.assistant.None? then "" else t.assistant.value
  }

  function AppendAssistantText(s: Tables, turn: nat, content: string): Write {
    if !ValidContent(content) || !IsPending(s, turn) then None
    else Some(SetTurn(s, turn, s.turns[turn].(assistant := Some(AssistantText(s.turns[turn]) + content))))
  }

  function CompleteTurn(s: Tables, turn: nat): Write {
    if !IsPending(s, turn) || s.turns[turn].user.None? || s.turns[turn].assistant.None? then None
    else Some(SetTurn(s, turn, s.turns[turn].(status := Complete)))
  }

  function CancelTurn(s: Tables, turn: nat): Write {
    if !IsPending(s, turn) then None else Some(SetTurn(s, turn, s.turns[turn].(status := Cancelled)))
  }

  predicate TurnMatches(s: Tables, turn: nat, session: string, generation: nat) {
    IsPending(s, turn) && s.turns[turn].session == session && s.turns[turn].generation == generation
  }

  // ---------------------------------------------------------------------------------------------
  // Memories and the relationship score

  datatype Added = Stored(tables: Tables) | Duplicate | MissingTurn

  function AddMemory(s: Tables, memory: Memory): Added {
    if exists m | m in s.memories :: m.normalized == memory.normalized || m.id == memory.id then Duplicate
    else if memory.sourceTurn >= |s.turns| then MissingTurn
    else Stored(s.(memories := s.memories + [memory]))
  }

  function SumDeltas(events: seq<Event>): int {
    if events == [] then 0 else SumDeltas(events[..|events| - 1]) + events[|events| - 1].delta
  }

  function SessionSum(events: seq<Event>, session: string): int {
    if events == [] then 0
    else
      var last := events[|events| - 1];
      SessionSum(events[..|events| - 1], session) + if last.session == session then last.delta else 0
  }

  datatype Applied = Changed(tables: Tables, event: Event) | Declined | Invalid

  function ApplyAffinity(s: Tables, id: nat, session: string, turn: nat, generation: nat, delta: int): Applied {
    if delta != 1 && delta != -1 then Invalid
    else if exists e | e in s.events :: e.id == id || e.turn == turn then Declined
    else if turn >= |s.turns| || s.turns[turn].session != session then Invalid
    else if s.turns[turn].generation != generation then Invalid
    else
      var sum := SessionSum(s.events, session) + delta;
      if sum > 3 || sum < -3 then Declined
      else
        var resulting := s.affinity + delta;
        if !(0 <= resulting <= 100) then Declined
        else
          var event := Event(id, session, turn, generation, delta, resulting);
          Changed(s.(affinity := resulting, events := s.events + [event]), event)
  }

  // ---------------------------------------------------------------------------------------------
  // Summaries

  datatype TurnRef = TurnRef(id: nat, sequence: nat)

  function CoveredUntil(s: Tables, session: string): nat {
    if session in s.summaries then s.summaries[session].end else 0
  }

  predicate CompleteAfter(t: Turn, session: string, after: nat) {
    t.session == session && t.status == Complete && t.sequence > after
  }

  /** The complete turns of a session behind `after`, in row order, which is sequence order within a session. */
  function CompleteTurns(turns: seq<Turn>, session: string, after: nat): seq<TurnRef> {
    if turns == [] then []
    else
      var n := |turns| - 1;
      CompleteTurns(turns[..n], session, after)
      + if CompleteAfter(turns[n], session, after) then [TurnRef(n, turns[n].sequence)] else []
  }

  function Unsummarized(s: Tables, session: string): seq<TurnRef> {
    CompleteTurns(s.turns, session, CoveredUntil(s, session))
  }

  /** Advance by exactly the next four complete turns; anything else is refused. */
  function AdvanceSummary(s: Tables, session: string, chunk: seq<TurnRef>, content: string): Write {
    var next := Unsummarized(s, session);
    if |chunk| != 4 || !ValidContent(content) then None
    else if session !in s.sessions || |next| < 4 || next[..4] != chunk then None
    else if session !in s.summaries then
      Some(s.(summaries := s.summaries[session := Coverage(chunk[0].sequence, chunk[3].sequence, 4)]))
    else
      var c := s.summaries[session];
      Some(s.(summaries := s.summaries[session := Coverage(c.start, chunk[3].sequence, c.count + 4)]))
  }

  /** `maybe_summarize`, first half: what would be summarized, if it is time. */
  function ChunkIfDue(s: Tables, session: string, current: bool): Option<seq<TurnRef>> {
    var next := Unsummarized(s, session);
    if |next| <= 12 || !current then None else Some(next[..4])
  }

  /** `maybe_summarize`, second half, after the model has answered; tables and fence may have moved meanwhile. */
  function FinishSummary(s: Tables, session: string, chunk: seq<TurnRef>, content: string, current: bool): Write {
    if !current then None else AdvanceSummary(s, session, chunk, content)
  }

  // ---------------------------------------------------------------------------------------------
  // Every run of writes

  datatype Op =
    | OpBegin(session: string, generation: nat)
    | OpUser(turn: nat, content: string)
    | OpAssistant(turn: nat, content: string)
    | OpComplete(turn: nat)
    | OpCancel(turn: nat)
    | OpMemory(memory: Memory)
    | OpAffinity(id: nat, session: string, turn: nat, generation: nat, delta: int)
    | OpAdvance(session: string, chunk: seq<TurnRef>, content: string)

  function OrSame(s: Tables, w: Write): Tables {
    if w.None? then s else w.value
  }

  function Apply(s: Tables, op: Op): Tables {
    match op
    case OpBegin(session, generation) => OrSame(s, BeginTurn(s, session, generation))
    case OpUser(turn, content) => OrSame(s, AcceptUserTranscript(s, turn, content))
    case OpAssistant(turn, content) => OrSame(s, AppendAssistantText(s, turn, content))
    case OpComplete(turn) => OrSame(s, CompleteTurn(s, turn))
    case OpCancel(turn) => OrSame(s, CancelTurn(s, turn))
    case OpMemory(memory) => var a := AddMemory(s, memory); if a.Stored? then a.tables else s
    case OpAffinity(id, session, turn, generation, delta) =>
      var a := ApplyAffinity(s, id, session, turn, generation, delta); if a.Changed? then a.tables else s
    case OpAdvance(session, chunk, content) => OrSame(s, AdvanceSummary(s, session, chunk, content))
  }

  function Run(s: Tables, ops: seq<Op>): Tables
    decreases |ops|
  {
    if ops == [] then s else Run(Apply(s, ops[0]), ops[1..])
  }

  function Fresh(sessions: set<string>): Tables {
    Tables(sessions, [], [], 50, [], map[])
  }

  // ---------------------------------------------------------------------------------------------
  // The relationship score

  /** No session moves the score by more than three. */
  ghost predicate SessionsBounded(events: seq<Event>) {
    forall session: string :: -3 <= SessionSum(events, session) <= 3
  }

  /** Every event records the score it led to. */
  ghost predicate ResultsRecorded(events: seq<Event>) {
    forall i | 0 <= i < |events| ::
      events[i].resulting == 50 + SumDeltas(events[..i + 1]) && 0 <= events[i].resulting <= 100
  }

  ghost predicate OneEventPerTurn(events: seq<Event>) {
    forall i, j | 0 <= i < j < |events| :: events[i].turn != events[j].turn && events[i].id != events[j].id
  }

  ghost predicate AffinityConsistent(s: Tables) {
    && s.affinity == 50 + SumDeltas(s.events)
    && 0 <= s.affinity <= 100
    && SessionsBounded(s.events)
    && ResultsRecorded(s.events)
    && OneEventPerTurn(s.events)
    && (forall i | 0 <= i < |s.events| :: s.events[i].delta in {-1, 1} && EventBelongs(s.turns, s.events[i]))
  }

  predicate EventBelongs(turns: seq<Turn>, e: Event) {
    e.turn < |turns| && turns[e.turn].session == e.session && turns[e.turn].generation == e.generation
  }

  lemma {:induction false} SessionsStayBounded(events: seq<Event>, e: Event)
    requires SessionsBounded(events) && -3 <= SessionSum(events, e.session) + e.delta <= 3
    ensures SessionsBounded(events + [e])
  {
    assert (events + [e])[..|events|] == events;
  }

  lemma {:induction false} ResultIsRecorded(events: seq<Event>, e: Event)
    requires ResultsRecorded(events) && e.resulting == 50 + SumDeltas(events) + e.delta && 0 <= e.resulting <= 100
    ensures ResultsRecorded(events + [e]) && SumDeltas(events + [e]) == SumDeltas(events) + e.delta
  {
    var after := events + [e];
    assert after[..|events|] == events;
    forall i | 0 <= i < |after|
      ensures after[i].resulting == 50 + SumDeltas(after[..i + 1]) && 0 <= after[i].resulting <= 100
    {
      if i < |events| {
        assert after[..i + 1] == events[..i + 1];
      } else {
        assert after[..i + 1] == after;
      }
    }
  }

  lemma AffinityStep(s: Tables, id: nat, session: string, turn: nat, generation: nat, delta: int)
    requires AffinityConsistent(s)
    ensures AffinityConsistent(Apply(s, OpAffinity(id, session, turn, generation, delta)))
  {
    hide SessionsBounded, ResultsRecorded, SessionSum, SumDeltas;
    var a := ApplyAffinity(s, id, session, turn, generation, delta);
    if a.Changed? {
      SessionsStayBounded(s.events, a.event);
      ResultIsRecorded(s.events, a.event);
    }
  }

  /** Rows never change hands: what identifies a turn is there to stay. */
  ghost predicate KeepsRows(before: seq<Turn>, after: seq<Turn>) {
    && |before| <= |after|
    && forall i | 0 <= i < |before| ::
         after[i].session == before[i].session && after[i].generation == before[i].generation
         && after[i].sequence == before[i].sequence
  }

  lemma ApplyKeepsRows(s: Tables, op: Op)
    ensures KeepsRows(s.turns, Apply(s, op).turns)
    ensures !op.OpAffinity? ==> Apply(s, op).events == s.events && Apply(s, op).affinity == s.affinity
  {
  }

  lemma RowsKeepAffinity(s: Tables, t: Tables)
    requires AffinityConsistent(s) && KeepsRows(s.turns, t.turns) && t.events == s.events && t.affinity == s.affinity
    ensures AffinityConsistent(t)
  {
    hide SessionsBounded, ResultsRecorded, OneEventPerTurn;
  }

  lemma ApplyKeepsAffinity(s: Tables, op: Op)
    requires AffinityConsistent(s)
    ensures AffinityConsistent(Apply(s, op))
  {
    hide AffinityConsistent, Apply;
    if op.OpAffinity? {
      AffinityStep(s, op.id, op.session, op.turn, op.generation, op.delta);
    } else {
      ApplyKeepsRows(s, op);
      RowsKeepAffinity(s, Apply(s, op));
    }
  }

  /** Over every run the score is 50 plus its events, stays within 0..100, and moves by at most 3 per session. */
  lemma {:induction false} AffinityOverRuns(s: Tables, ops: seq<Op>)
    requires AffinityConsistent(s)
    ensures AffinityConsistent(Run(s, ops))
    decreases |ops|
  {
    hide AffinityConsistent, Apply;
    if ops != [] {
      ApplyKeepsAffinity(s, ops[0]);
      AffinityOverRuns(Apply(s, ops[0]), ops[1..]);
    }
  }

  lemma FreshAffinity(sessions: set<string>)
    ensures AffinityConsistent(Fresh(sessions))
  {
  }

  // ---------------------------------------------------------------------------------------------
  // Summary coverage

  /** The tables, and the turns of one session summarized so far, in the order in which they were. */
  datatype Covering = Covering(tables: Tables, covered: seq<TurnRef>, advances: nat)

  function Cover(c: Covering, session: string, op: Op): Covering {
    var after := Apply(c.tables, op);
    if op.OpAdvance? && op.session == session && AdvanceSummary(c.tables, session, op.chunk, op.content).Some?
    then Covering(after, c.covered + op.chunk, c.advances + 1)
    else c.(tables := after)
  }

  function CoverRun(c: Covering, session: string, ops: seq<Op>): Covering
    decreases |ops|
  {
    if ops == [] then c else CoverRun(Cover(c, session, ops[0]), session, ops[1..])
  }

  /** Later rows of a session have higher sequence numbers. */
  ghost predicate RowsOrdered(turns: seq<Turn>, session: string) {
    && (forall i | 0 <= i < |turns| :: turns[i].sequence > 0)
    && (forall i, j | 0 <= i < j < |turns| && turns[i].session == session && turns[j].session == session ::
          turns[i].sequence < turns[j].sequence)
  }

  ghost predicate Increasing(refs: seq<TurnRef>) {
    forall i, j | 0 <= i < j < |refs| :: refs[i].sequence < refs[j].sequence
  }

  predicate Refers(turns: seq<Turn>, session: string, r: TurnRef) {
    r.id < |turns| && turns[r.id].session == session && turns[r.id].sequence == r.sequence
    && turns[r.id].status == Complete
  }

  /** Four turns an advance, all complete, each covered once, in order, up to where the summary says. */
  ghost predicate CoverageConsistent(c: Covering, session: string) {
    && RowsOrdered(c.tables.turns, session)
    && |c.covered| == 4 * c.advances
    && (session in c.tables.summaries <==> c.covered != [])
    && (c.covered != [] ==>
          c.tables.summaries[session]
          == Coverage(c.covered[0].sequence, c.covered[|c.covered| - 1].sequence, |c.covered|))
    && Increasing(c.covered)
    && (forall r | r in c.covered :: Refers(c.tables.turns, session, r))
  }

  /** No complete turn lies behind the end of the covered range without being covered. */
  ghost predicate NothingMissed(c: Covering, session: string) {
    forall i | 0 <= i < |c.tables.turns| && c.tables.turns[i].session == session && c.tables.turns[i].status == Complete
               && c.tables.turns[i].sequence <= CoveredUntil(c.tables, session) ::
      TurnRef(i, c.tables.turns[i].sequence) in c.covered
  }

  lemma {:induction false} CompleteTurnsAre(turns: seq<Turn>, session: string, after: nat)
    requires RowsOrdered(turns, session)
    ensures var refs := CompleteTurns(turns, session, after);
            && Increasing(refs)
            && (forall r | r in refs :: Refers(turns, session, r) && r.sequence > after)
            && (forall i | 0 <= i < |turns| && CompleteAfter(turns[i], session, after) ::
                  TurnRef(i, turns[i].sequence) in refs)
  {
    if turns != [] {
      var n := |turns| - 1;
      CompleteTurnsAre(turns[..n], session, after);
      var before := CompleteTurns(turns[..n], session, after);
      forall r | r in before
        ensures Refers(turns, session, r) && r.sequence > after
      {
        assert Refers(turns[..n], session, r);
      }
      if CompleteAfter(turns[n], session, after) {
        forall k | 0 <= k < |before|
          ensures before[k].sequence < turns[n].sequence
        {
          assert before[k] in before && Refers(turns[..n], session, before[k]);
        }
      }
      forall i | 0 <= i < |turns| && CompleteAfter(turns[i], session, after)
        ensures TurnRef(i, turns[i].sequence) in CompleteTurns(turns, session, after)
      {
        if i < n {
          assert CompleteAfter(turns[..n][i], session, after);
        }
      }
    }
  }

  /** What an accepted advance covers: the next four complete turns, behind everything covered before. */
  lemma AdvanceCovers(c: Covering, session: string, chunk: seq<TurnRef>, content: string)
    requires CoverageConsistent(c, session) && AdvanceSummary(c.tables, session, chunk, content).Some?
    ensures |chunk| == 4 && Increasing(chunk) && chunk == Unsummarized(c.tables, session)[..4]
    ensures forall r | r in chunk :: Refers(c.tables.turns, session, r) && r.sequence > CoveredUntil(c.tables, session)
  {
    CompleteTurnsAre(c.tables.turns, session, CoveredUntil(c.tables, session));
    var next := Unsummarized(c.tables, session);
    forall r | r in chunk
      ensures r in next
    {
      var k :| 0 <= k < 4 && chunk[k] == r;
      assert next[k] == r;
    }
  }

  lemma AdvanceKeepsCoverage(c: Covering, session: string, chunk: seq<TurnRef>, content: string)
    requires CoverageConsistent(c, session) && AdvanceSummary(c.tables, session, chunk, content).Some?
    ensures CoverageConsistent(Cover(c, session, OpAdvance(session, chunk, content)), session)
  {
    AdvanceCovers(c, session, chunk, content);
    hide Unsummarized;
    var d := Cover(c, session, OpAdvance(session, chunk, content));
    forall i, j | 0 <= i < j < |d.covered|
      ensures d.covered[i].sequence < d.covered[j].sequence
    {
      if i < |c.covered| <= j {
        assert c.covered[i].sequence <= CoveredUntil(c.tables, session);
        assert chunk[j - |c.covered|] in chunk;
      }
    }
  }

  /** Sequence numbers only grow, complete turns stay complete, and no write but an advance touches a summary. */
  lemma ApplyKeepsCoverage(c: Covering, session: string, op: Op)
    requires CoverageConsistent(c, session)
    ensures CoverageConsistent(Cover(c, session, op), session)
  {
    if op.OpAdvance? && op.session == session && AdvanceSummary(c.tables, session, op.chunk, op.content).Some? {
      AdvanceKeepsCoverage(c, session, op.chunk, op.content);
    } else {
      var d := Cover(c, session, op);
      ApplyKeepsRows(c.tables, op);
      ApplyKeepsOrder(c.tables, session, op);
      forall r | r in c.covered
        ensures Refers(d.tables.turns, session, r)
      {
        assert Refers(c.tables.turns, session, r);
        CompleteStays(c.tables, op, r.id);
      }
      OthersKeepSummary(c.tables, session, op);
      hide Apply;
    }
  }

  lemma ApplyKeepsOrder(s: Tables, session: string, op: Op)
    requires RowsOrdered(s.turns, session)
    ensures RowsOrdered(Apply(s, op).turns, session)
  {
    if op.OpBegin? && op.session in s.sessions {
      var before, after := s.turns, Apply(s, op).turns;
      assert after == before + [after[|before|]];
      forall i, j | 0 <= i < j < |after| && after[i].session == session && after[j].session == session
        ensures after[i].sequence < after[j].sequence
      {
        assert after[i] == before[i] && before[i] in before;
      }
    }
  }

  lemma CompleteStays(s: Tables, op: Op, turn: nat)
    requires turn < |s.turns| && s.turns[turn].status == Complete
    ensures turn < |Apply(s, op).turns| && Apply(s, op).turns[turn] == s.turns[turn]
  {
  }

  lemma OthersKeepSummary(s: Tables, session: string, op: Op)
    requires !(op.OpAdvance? && op.session == session && AdvanceSummary(s, session, op.chunk, op.content).Some?)
    ensures session in Apply(s, op).summaries <==> session in s.summaries
    ensures session in s.summaries ==> Apply(s, op).summaries[session] == s.summaries[session]
  {
    hide Unsummarized;
  }

  /** Over every run coverage is four turns an advance, in order, each turn at most once. */
  lemma {:induction false} CoverageOverRuns(c: Covering, session: string, ops: seq<Op>)
    requires CoverageConsistent(c, session)
    ensures CoverageConsistent(CoverRun(c, session, ops), session)
    decreases |ops|
  {
    hide CoverageConsistent, Cover;
    if ops != [] {
      ApplyKeepsCoverage(c, session, ops[0]);
      CoverageOverRuns(Cover(c, session, ops[0]), session, ops[1..]);
    }
  }

  /** When nothing was missed, every complete turn is either covered or still to be summarized, and never both. */
  lemma CoveredOrUnsummarized(c: Covering, session: string, turn: nat)
    requires CoverageConsistent(c, session) && turn < |c.tables.turns|
    requires c.tables.turns[turn].session == session && c.tables.turns[turn].status == Complete
    ensures var r := TurnRef(turn, c.tables.turns[turn].sequence);
            && !(r in c.covered && r in Unsummarized(c.tables, session))
            && (NothingMissed(c, session) ==> r in c.covered || r in Unsummarized(c.tables, session))
  {
    CompleteTurnsAre(c.tables.turns, session, CoveredUntil(c.tables, session));
    var r := TurnRef(turn, c.tables.turns[turn].sequence);
    if r in c.covered {
      var k :| 0 <= k < |c.covered| && c.covered[k] == r;
      assert r.sequence <= CoveredUntil(c.tables, session);
    }
  }

  lemma AmongFirstFour(refs: seq<TurnRef>, k: nat)
    requires Increasing(refs) && k < |refs| && 4 <= |refs|
    ensures refs[k].sequence <= refs[3].sequence ==> k <= 3
  {
  }

  lemma AdvanceMissesNothing(c: Covering, session: string, chunk: seq<TurnRef>, content: string)
    requires CoverageConsistent(c, session) && NothingMissed(c, session)
    requires AdvanceSummary(c.tables, session, chunk, content).Some?
    ensures NothingMissed(Cover(c, session, OpAdvance(session, chunk, content)), session)
  {
    var d := Cover(c, session, OpAdvance(session, chunk, content));
    var next, until := Unsummarized(c.tables, session), CoveredUntil(c.tables, session);
    AdvanceCovers(c, session, chunk, content);
    CompleteTurnsAre(c.tables.turns, session, until);
    hide Unsummarized, CompleteTurns;
    var turns := c.tables.turns;
    forall i | 0 <= i < |turns| && turns[i].session == session && turns[i].status == Complete
               && turns[i].sequence <= CoveredUntil(d.tables, session)
      ensures TurnRef(i, turns[i].sequence) in d.covered
    {
      if turns[i].sequence > until {
        assert CompleteAfter(turns[i], session, until);
        var r := TurnRef(i, turns[i].sequence);
        var k :| 0 <= k < |next| && next[k] == r;
        assert chunk[3] == next[3];
        AmongFirstFour(next, k);
        assert chunk[k] == r;
      }
    }
  }

  /**
   Nothing is missed as long as, and only as long as, no turn is completed behind the end of the covered
   range: a turn that completes there is neither covered nor ever offered for summarizing.
   */
  lemma CompletionMissesNothing(c: Covering, session: string, op: Op)
    requires CoverageConsistent(c, session) && NothingMissed(c, session)
    ensures NothingMissed(Cover(c, session, op), session)
            <==> (op.OpComplete? && CompleteTurn(c.tables, op.turn).Some? && c.tables.turns[op.turn].session == session
                  ==> c.tables.turns[op.turn].sequence > CoveredUntil(c.tables, session))
  {
    var d := Cover(c, session, op);
    if op.OpAdvance? && op.session == session && AdvanceSummary(c.tables, session, op.chunk, op.content).Some? {
      AdvanceMissesNothing(c, session, op.chunk, op.content);
    } else {
      OthersKeepSummary(c.tables, session, op);
      assert d.covered == c.covered && CoveredUntil(d.tables, session) == CoveredUntil(c.tables, session);
      if op.OpComplete? && CompleteTurn(c.tables, op.turn).Some? && c.tables.turns[op.turn].session == session {
        var r := TurnRef(op.turn, c.tables.turns[op.turn].sequence);
        assert !Refers(c.tables.turns, session, r);
        var row := d.tables.turns[op.turn];
        assert row.session == session && row.status == Complete;
        if row.sequence > CoveredUntil(c.tables, session) {
          forall i | 0 <= i < |d.tables.turns| && d.tables.turns[i].session == session
                     && d.tables.turns[i].status == Complete
                     && d.tables.turns[i].sequence <= CoveredUntil(d.tables, session)
            ensures TurnRef(i, d.tables.turns[i].sequence) in d.covered
          {
            assert d.tables.turns[i] == c.tables.turns[i];
          }
        }
      } else {
        SameComplete(c.tables, session, op);
      }
    }
  }

  /** The write completes a turn behind the covered range. */
  predicate CompletesBehind(c: Covering, session: string, op: Op) {
    && op.OpComplete? && CompleteTurn(c.tables, op.turn).Some? && c.tables.turns[op.turn].session == session
    && c.tables.turns[op.turn].sequence <= CoveredUntil(c.tables, session)
  }

  predicate SomeCompletesBehind(c: Covering, session: string, ops: seq<Op>)
    decreases |ops|
  {
    ops != []
    && (CompletesBehind(c, session, ops[0]) || SomeCompletesBehind(Cover(c, session, ops[0]), session, ops[1..]))
  }

  /** A turn that was missed stays missed: no later advance goes back to it. */
  lemma MissedStaysMissed(c: Covering, session: string, op: Op)
    requires CoverageConsistent(c, session) && !NothingMissed(c, session)
    ensures !NothingMissed(Cover(c, session, op), session)
  {
    var turns, until := c.tables.turns, CoveredUntil(c.tables, session);
    var i :| 0 <= i < |turns| && turns[i].session == session && turns[i].status == Complete
             && turns[i].sequence <= until
             && TurnRef(i, turns[i].sequence) !in c.covered;
    var r, d := TurnRef(i, turns[i].sequence), Cover(c, session, op);
    CompleteStays(c.tables, op, i);
    hide Apply, CompleteTurns, Unsummarized;
    if op.OpAdvance? && op.session == session && AdvanceSummary(c.tables, session, op.chunk, op.content).Some? {
      AdvanceCovers(c, session, op.chunk, op.content);
      AdvanceMovesOn(c, session, op.chunk, op.content);
      assert r !in op.chunk;
    } else {
      OthersKeepSummary(c.tables, session, op);
    }
  }

  lemma AdvanceMovesOn(c: Covering, session: string, chunk: seq<TurnRef>, content: string)
    requires CoverageConsistent(c, session) && AdvanceSummary(c.tables, session, chunk, content).Some?
    ensures CoveredUntil(Cover(c, session, OpAdvance(session, chunk, content)).tables, session)
            > CoveredUntil(c.tables, session)
  {
    AdvanceCovers(c, session, chunk, content);
    assert chunk[3] in chunk;
    hide Unsummarized;
  }

  /**
   Over every run nothing is missed if and only if no write of it completes a turn behind the covered range;
   together with `CoveredOrUnsummarized`, every complete turn is then in exactly one of the two.
   */
  lemma {:induction false} RunMissesNothing(c: Covering, session: string, ops: seq<Op>)
    requires CoverageConsistent(c, session)
    ensures NothingMissed(CoverRun(c, session, ops), session)
            <==> NothingMissed(c, session) && !SomeCompletesBehind(c, session, ops)
    decreases |ops|
  {
    hide CoverageConsistent, NothingMissed, Cover, CompleteTurn, CoveredUntil;
    if ops != [] {
      var d := Cover(c, session, ops[0]);
      ApplyKeepsCoverage(c, session, ops[0]);
      RunMissesNothing(d, session, ops[1..]);
      if NothingMissed(c, session) {
        CompletionMissesNothing(c, session, ops[0]);
      } else {
        MissedStaysMissed(c, session, ops[0]);
      }
    }
  }

  lemma {:induction false} NoneAfter(turns: seq<Turn>, session: string, after: nat)
    requires forall i | 0 <= i < |turns| && turns[i].session == session :: turns[i].sequence <= after
    ensures CompleteTurns(turns, session, after) == []
  {
    if turns != [] {
      NoneAfter(turns[..|turns| - 1], session, after);
    }
  }

  /** What is complete behind the `k`-th complete turn is all but the first `k`. */
  lemma {:induction false} DropCovered(turns: seq<Turn>, session: string, after: nat, k: nat)
    requires RowsOrdered(turns, session) && 0 < k <= |CompleteTurns(turns, session, after)|
    ensures var refs := CompleteTurns(turns, session, after);
            CompleteTurns(turns, session, refs[k - 1].sequence) == refs[k..]
  {
    var n := |turns| - 1;
    var init, refs := turns[..n], CompleteTurns(turns, session, after);
    var before := CompleteTurns(init, session, after);
    CompleteTurnsAre(init, session, after);
    if k <= |before| {
      DropCovered(init, session, after, k);
      assert refs[k - 1] == before[k - 1] && before[k - 1] in before;
    } else {
      NoneAfter(init, session, refs[k - 1].sequence);
    }
  }

  /**
   `maybe_summarize`, whatever has happened to the tables while the model was answering: a summary is accepted
   only for exactly the turns it was made from, if they are still the next four, and then takes just these off.
   */
  lemma SummaryTakesFour(s: Tables, t: Tables, session: string, content: string, current: bool)
    requires ChunkIfDue(s, session, true).Some? && RowsOrdered(t.turns, session)
    requires FinishSummary(t, session, ChunkIfDue(s, session, true).value, content, current).Some?
    ensures var after := FinishSummary(t, session, ChunkIfDue(s, session, true).value, content, current).value;
            && current && |Unsummarized(s, session)| > 12 && |Unsummarized(t, session)| >= 4
            && Unsummarized(s, session)[..4] == Unsummarized(t, session)[..4]
            && Unsummarized(after, session) == Unsummarized(t, session)[4..]
            && forall other | other != session :: Unsummarized(after, other) == Unsummarized(t, other)
  {
    DropCovered(t.turns, session, CoveredUntil(t, session), 4);
    hide CompleteTurns;
  }

  lemma SameComplete(s: Tables, session: string, op: Op)
    requires !(op.OpComplete? && CompleteTurn(s, op.turn).Some? && s.turns[op.turn].session == session)
    ensures forall i | 0 <= i < |Apply(s, op).turns| && Apply(s, op).turns[i].session == session
                   && Apply(s, op).turns[i].status == Complete ::
              i < |s.turns| && s.turns[i] == Apply(s, op).turns[i]
  {
  }

  // ---------------------------------------------------------------------------------------------
  // The class

  class MemoryStore {
    var sessions: set<string>
    var turns: seq<Turn>
    var memories: seq<Memory>
    var affinity: int
    var events: seq<Event>
    var summaries: map<string, Coverage>

    function View(): Tables
      reads this
    {
      Tables(sessions, turns, memories, affinity, events, summaries)
    }

    constructor (sessions: set<string>)
      ensures View() == Fresh(sessions)
    {
      this.sessions := sessions;
      turns, memories, affinity, events, summaries := [], [], 50, [], map[];
    }

    /** The new row, or `None` for an unknown session. */
    method Begin(session: string, generation: nat) returns (turn: Option<nat>)
      modifies this`turns
      ensures View() == OrSame(old(View()), BeginTurn(old(View()), session, generation))
      ensures turn == if BeginTurn(old(View()), session, generation).Some? then Some(|old(turns)|) else None
    {
      if session !in sessions {
        return None;
      }
      var highest := 0;
      for i := 0 to |turns|
        invariant turns == old(turns)
        invariant MaxSequence(turns[..i], session) == highest
      {
        MaxOneMore(turns[..i], turns[i], session);
        assert turns[..i + 1] == turns[..i] + [turns[i]];
        if turns[i].session == session && turns[i].sequence > highest {
          highest := turns[i].sequence;
        }
      }
      assert turns[..|turns|] == turns;
      turns := turns + [Turn(session, generation, highest + 1, Pending, None, None)];
      turn := Some(|turns| - 1);
    }

    method AcceptTranscript(turn: nat, content: string) returns (ok: bool)
      modifies this`turns
      ensures ok <==> AcceptUserTranscript(old(View()), turn, content).Some?
      ensures View() == OrSame(old(View()), AcceptUserTranscript(old(View()), turn, content))
    {
      if content == "" || |content| > MAX_CONTENT || turn >= |turns| || turns[turn].status != Pending
         || turns[turn].user.Some? {
        return false;
      }
      turns := turns[turn := turns[turn].(user := Some(content))];
      return true;
    }

    method AppendAssistant(turn: nat, content: string) returns (ok: bool)
      modifies this`turns
      ensures ok <==> AppendAssistantText(old(View()), turn, content).Some?
      ensures View() == OrSame(old(View()), AppendAssistantText(old(View()), turn, content))
    {
      if content == "" || |content| > MAX_CONTENT || turn >= |turns| || turns[turn].status != Pending {
        return false;
      }
      if turns[turn].assistant.None? {
        turns := turns[turn := turns[turn].(assistant := Some(content))];
        assert "" + content == content;
      } else {
        turns := turns[turn := turns[turn].(assistant := Some(turns[turn].assistant.value + content))];
      }
      return true;
    }

    method Complete(turn: nat) returns (ok: bool)
      modifies this`turns
      ensures ok <==> CompleteTurn(old(View()), turn).Some?
      ensures View() == OrSame(old(View()), CompleteTurn(old(View()), turn))
    {
      if turn >= |turns| || turns[turn].status != Pending || turns[turn].user.None? || turns[turn].assistant.None? {
        return false;
      }
      turns := turns[turn := turns[turn].(status := Status.Complete)];
      return true;
    }

    method Cancel(turn: nat) returns (ok: bool)
      modifies this`turns
      ensures ok <==> CancelTurn(old(View()), turn).Some?
      ensures View() == OrSame(old(View()), CancelTurn(old(View()), turn))
    {
      if turn >= |turns| || turns[turn].status != Pending {
        return false;
      }
      turns := turns[turn := turns[turn].(status := Cancelled)];
      return true;
    }

    method Remember(memory: Memory) returns (outcome: Added)
      modifies this`memories
      ensures outcome == AddMemory(old(View()), memory)
      ensures View() == if outcome.Stored? then outcome.tables else old(View())
    {
      if exists m | m in memories :: m.normalized == memory.normalized || m.id == memory.id {
        return Duplicate;
      }
      if memory.sourceTurn >= |turns| {
        return MissingTurn;
      }
      memories := memories + [memory];
      return Stored(View());
    }

    method ChangeAffinity(id: nat, session: string, turn: nat, generation: nat, delta: int) returns (outcome: Applied)
      modifies this`affinity, this`events
      ensures outcome == ApplyAffinity(old(View()), id, session, turn, generation, delta)
      ensures View() == if outcome.Changed? then outcome.tables else old(View())
    {
      if delta != 1 && delta != -1 {
        return Invalid;
      }
      if exists e | e in events :: e.id == id || e.turn == turn {
        return Declined;
      }
      if turn >= |turns| || turns[turn].session != session || turns[turn].generation != generation {
        return Invalid;
      }
      var sum := 0;
      for i := 0 to |events|
        invariant sum == SessionSum(events[..i], session)
      {
        assert events[..i + 1][..i] == events[..i];
        if events[i].session == session {
          sum := sum + events[i].delta;
        }
      }
      assert events[..|events|] == events;
      if sum + delta > 3 || sum + delta < -3 {
        return Declined;
      }
      var resulting := affinity + delta;
      if resulting < 0 || resulting > 100 {
        return Declined;
      }
      var event := Event(id, session, turn, generation, delta, resulting);
      affinity := resulting;
      events := events + [event];
      return Changed(View(), event);
    }

    method Advance(session: string, chunk: seq<TurnRef>, content: string) returns (ok: bool)
      modifies this`summaries
      ensures ok <==> AdvanceSummary(old(View()), session, chunk, content).Some?
      ensures View() == OrSame(old(View()), AdvanceSummary(old(View()), session, chunk, content))
    {
      if |chunk| != 4 || content == "" || |content| > MAX_CONTENT || session !in sessions {
        return false;
      }
      var expected := Unsummarized(View(), session);
      if |expected| < 4 || expected[..4] != chunk {
        return false;
      }
      if session !in summaries {
        summaries := summaries[session := Coverage(chunk[0].sequence, chunk[3].sequence, 4)];
      } else {
        var current := summaries[session];
        summaries := summaries[session := Coverage(current.start, chunk[3].sequence, current.count + 4)];
      }
      return true;
    }
  }

  lemma {:induction false} MaxOneMore(turns: seq<Turn>, last: Turn, session: string)
    ensures var before := MaxSequence(turns, session);
            MaxSequence(turns + [last], session)
            == if last.session == session && last.sequence > before then last.sequence else before
  {
    if turns == [] {
      assert turns + [last] == [last];
    } else {
      assert (turns + [last])[1..] == turns[1..] + [last];
      MaxOneMore(turns[1..], last, session);
    }
  }
}
