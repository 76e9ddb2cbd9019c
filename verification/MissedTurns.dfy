/**
 A run in which summaries miss a turn: the first of five turns completes after the other four were summarized.

 `TurnsCanBeMissed` is why `Store.RunMissesNothing` has a condition; `Summaries` shows when a session meets it.
 */
module MissedTurns {
  import opened Store
  import opened Wrappers

  lemma {:induction false} RunAppend(c: Covering, session: string, a: seq<Op>, b: seq<Op>)
    ensures CoverRun(c, session, a + b) == CoverRun(CoverRun(c, session, a), session, b)
    ensures SomeCompletesBehind(c, session, a + b)
            <==> SomeCompletesBehind(c, session, a) || SomeCompletesBehind(CoverRun(c, session, a), session, b)
    decreases |a|
  {
    hide Cover, CompletesBehind;
    if a == [] {
      assert a + b == b;
    } else {
      assert (a + b)[1..] == a[1..] + b;
      RunAppend(Cover(c, session, a[0]), session, a[1..], b);
    }
  }

  /** Turns with both messages, all pending. */
  function Answered(session: string, n: nat): Tables {
    Fresh({session}).(turns := seq(n, i requires 0 <= i < n => Turn(session, 0, i + 1, Pending, Some("u"), Some("a"))))
  }

  function Answering(session: string, n: nat): seq<Op> {
    if n == 0 then []
    else Answering(session, n - 1) + [OpBegin(session, 0), OpUser(n - 1, "u"), OpAssistant(n - 1, "a")]
  }

  lemma {:induction false} AnsweredMax(session: string, n: nat)
    ensures MaxSequence(Answered(session, n).turns, session) == n
  {
    if n > 0 {
      AnsweredMax(session, n - 1);
      var turns := Answered(session, n).turns;
      assert turns == Answered(session, n - 1).turns + [turns[n - 1]];
      MaxOneMore(Answered(session, n - 1).turns, turns[n - 1], session);
    }
  }

  lemma {:induction false} AnswerOne(session: string, n: nat)
    ensures var c := Covering(Answered(session, n), [], 0);
            CoverRun(c, session, [OpBegin(session, 0), OpUser(n, "u"), OpAssistant(n, "a")])
            == Covering(Answered(session, n + 1), [], 0)
  {
    AnsweredMax(session, n);
    hide MaxSequence;
    var c := Covering(Answered(session, n), [], 0);
    var begin, user, assistant := OpBegin(session, 0), OpUser(n, "u"), OpAssistant(n, "a");
    var d := Cover(c, session, begin);
    var e := Cover(d, session, user);
    var f := Cover(e, session, assistant);
    assert d.tables.turns == c.tables.turns + [Turn(session, 0, n + 1, Pending, None, None)];
    assert e.tables.turns == c.tables.turns + [Turn(session, 0, n + 1, Pending, Some("u"), None)];
    assert "" + "a" == "a";
    assert f.tables.turns == c.tables.turns + [Turn(session, 0, n + 1, Pending, Some("u"), Some("a"))];
    assert f.tables.turns == Answered(session, n + 1).turns;
    assert f == Covering(Answered(session, n + 1), [], 0);
    hide Cover;
    assert [begin, user, assistant][1..] == [user, assistant] && [user, assistant][1..] == [assistant]
           && [assistant][1..] == [];
    assert CoverRun(f, session, []) == f;
    assert CoverRun(e, session, [assistant]) == f;
    assert CoverRun(d, session, [user, assistant]) == f;
  }

  lemma {:induction false} AnswerAll(session: string, n: nat)
    ensures CoverRun(Covering(Fresh({session}), [], 0), session, Answering(session, n))
            == Covering(Answered(session, n), [], 0)
  {
    if n == 0 {
      assert Answered(session, 0).turns == [];
    } else {
      hide Answered, Cover;
      AnswerAll(session, n - 1);
      AnswerOne(session, n - 1);
      RunAppend(Covering(Fresh({session}), [], 0), session, Answering(session, n - 1),
                [OpBegin(session, 0), OpUser(n - 1, "u"), OpAssistant(n - 1, "a")]);
    }
  }

  /** Five turns, of which the last four complete first. */
  function LastFour(session: string): Tables {
    Answered(session, 5).(turns := seq(5, i requires 0 <= i < 5 =>
      Turn(session, 0, i + 1, if i == 0 then Pending else Complete, Some("u"), Some("a"))))
  }

  const FOUR := [TurnRef(1, 2), TurnRef(2, 3), TurnRef(3, 4), TurnRef(4, 5)]

  lemma {:induction false} LastFourComplete(session: string)
    ensures CoverRun(Covering(Answered(session, 5), [], 0), session,
                     [OpComplete(1), OpComplete(2), OpComplete(3), OpComplete(4)])
            == Covering(LastFour(session), [], 0)
  {
    var c := Covering(Answered(session, 5), [], 0);
    var ops := [OpComplete(1), OpComplete(2), OpComplete(3), OpComplete(4)];
    var d1 := Cover(c, session, ops[0]);
    var d2 := Cover(d1, session, ops[1]);
    var d3 := Cover(d2, session, ops[2]);
    var d4 := Cover(d3, session, ops[3]);
    assert d4.tables.turns == LastFour(session).turns;
    hide Cover;
    assert ops[1..][1..] == ops[2..] && ops[2..][1..] == ops[3..] && ops[3..][1..] == [];
    assert CoverRun(d3, session, ops[3..]) == d4;
    assert CoverRun(d2, session, ops[2..]) == d4;
    assert CoverRun(d1, session, ops[1..]) == d4;
  }

  lemma LastFourAreNext(session: string)
    ensures Unsummarized(LastFour(session), session) == FOUR
  {
    var turns := LastFour(session).turns;
    assert turns[..1][..0] == [] && turns[..2][..1] == turns[..1] && turns[..3][..2] == turns[..2]
           && turns[..4][..3] == turns[..3];
    assert CompleteTurns(turns[..1], session, 0) == [];
    assert CompleteTurns(turns[..2], session, 0) == FOUR[..1];
    assert CompleteTurns(turns[..3], session, 0) == FOUR[..2];
    assert CompleteTurns(turns[..4], session, 0) == FOUR[..3];
    assert CompleteTurns(turns, session, 0) == FOUR;
  }

  lemma {:induction false} FirstComesTooLate(session: string)
    ensures SomeCompletesBehind(Covering(LastFour(session), [], 0), session,
                                [OpAdvance(session, FOUR, "s"), OpComplete(0)])
  {
    LastFourAreNext(session);
    hide Unsummarized;
    var c := Covering(LastFour(session), [], 0);
    var ops := [OpAdvance(session, FOUR, "s"), OpComplete(0)];
    var d := Cover(c, session, ops[0]);
    assert CoveredUntil(d.tables, session) == 5 && d.tables.turns == c.tables.turns;
    assert CompletesBehind(d, session, OpComplete(0));
    assert ops[1..] == [OpComplete(0)];
    assert SomeCompletesBehind(d, session, ops[1..]);
  }

  /** It happens: when the first of five turns completes after the other four were summarized, it is missed for good. */
  lemma {:induction false} TurnsCanBeMissed(session: string)
    ensures exists ops :: !NothingMissed(CoverRun(Covering(Fresh({session}), [], 0), session, ops), session)
  {
    hide Fresh, Answered, LastFour, Cover, CompletesBehind, NothingMissed, Answering, CoverageConsistent;
    var c := Covering(Fresh({session}), [], 0);
    var completes := [OpComplete(1), OpComplete(2), OpComplete(3), OpComplete(4)];
    var late := [OpAdvance(session, FOUR, "s"), OpComplete(0)];
    var ops := Answering(session, 5) + (completes + late);
    AnswerAll(session, 5);
    RunAppend(c, session, Answering(session, 5), completes + late);
    LastFourComplete(session);
    RunAppend(Covering(Answered(session, 5), [], 0), session, completes, late);
    FirstComesTooLate(session);
    FreshCoverage(session);
    RunMissesNothing(c, session, ops);
  }

  lemma FreshCoverage(session: string)
    ensures CoverageConsistent(Covering(Fresh({session}), [], 0), session)
  {
  }
}
