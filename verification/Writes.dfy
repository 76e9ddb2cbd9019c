/**
 What each write of the store does, told row by row.

 For every write: exactly when it is accepted, what is different afterwards, and that nothing else is. The numbers
 and the order of the refusals are spelled out here.
 */
module Writes {
  import opened Store
  import opened Wrappers

  // ---------------------------------------------------------------------------------------------
  // Turns

  /** The number of the next turn: one above every earlier turn of the session, and 1 for its first. */
  ghost predicate NextNumber(turns: seq<Turn>, session: string, k: nat) {
    && k >= 1
    && (forall t | t in turns && t.session == session :: t.sequence < k)
    && (k == 1 || exists t | t in turns :: t.session == session && t.sequence == k - 1)
  }

  lemma {:induction false} HighestIsTaken(turns: seq<Turn>, session: string)
    ensures MaxSequence(turns, session) == 0
            || exists t | t in turns :: t.session == session && t.sequence == MaxSequence(turns, session)
  {
    if turns != [] {
      HighestIsTaken(turns[1..], session);
      var rest := MaxSequence(turns[1..], session);
      if turns[0].session == session && turns[0].sequence > rest {
        assert turns[0] in turns;
      } else if rest > 0 {
        var t :| t in turns[1..] && t.session == session && t.sequence == rest;
        assert t in turns;
      }
    }
  }

  /** A turn begins in every known session, as a pending row without text and with the next number. */
  lemma BeginExactly(s: Tables, session: string, generation: nat)
    ensures BeginTurn(s, session, generation).Some? <==> session in s.sessions
    ensures session in s.sessions ==>
              var t := BeginTurn(s, session, generation).value;
              && t == s.(turns := t.turns) && |t.turns| == |s.turns| + 1 && t.turns[..|s.turns|] == s.turns
              && var row := t.turns[|s.turns|];
                 && row == Turn(session, generation, row.sequence, Pending, None, None)
                 && NextNumber(s.turns, session, row.sequence)
  {
    HighestIsTaken(s.turns, session);
  }

  /** Only the row of `turn` may differ. */
  ghost predicate OnlyRow(before: Tables, after: Tables, turn: nat) {
    && after == before.(turns := after.turns) && |after.turns| == |before.turns|
    && forall i | 0 <= i < |before.turns| && i != turn :: after.turns[i] == before.turns[i]
  }

  /** The row of a turn before and after: who it is stays, and what it says and how it stands is given. */
  ghost predicate Becomes(before: Turn, after: Turn, status: Status, user: Option<string>, assistant: Option<string>) {
    && after.session == before.session && after.generation == before.generation && after.sequence == before.sequence
    && after.status == status && after.user == user && after.assistant == assistant
  }

  /** The user is heard once, while the turn is pending, in 1 to 20000 characters. */
  lemma TranscriptExactly(s: Tables, turn: nat, content: string)
    ensures AcceptUserTranscript(s, turn, content).Some?
            <==> 1 <= |content| <= 20_000 && turn < |s.turns| && s.turns[turn].status.Pending?
                 && s.turns[turn].user.None?
    ensures AcceptUserTranscript(s, turn, content).Some? ==>
              var t := AcceptUserTranscript(s, turn, content).value;
              && OnlyRow(s, t, turn)
              && Becomes(s.turns[turn], t.turns[turn], Pending, Some(content), s.turns[turn].assistant)
  {
  }

  /** The assistant's text grows at its end, with nothing in between. */
  lemma AppendExactly(s: Tables, turn: nat, content: string)
    ensures AppendAssistantText(s, turn, content).Some?
            <==> 1 <= |content| <= 20_000 && turn < |s.turns| && s.turns[turn].status.Pending?
    ensures AppendAssistantText(s, turn, content).Some? ==>
              var t, said := AppendAssistantText(s, turn, content).value, s.turns[turn].assistant;
              && OnlyRow(s, t, turn)
              && Becomes(s.turns[turn], t.turns[turn], Pending, s.turns[turn].user,
                         Some(match said case None => content case Some(text) => text + content))
  {
    if AppendAssistantText(s, turn, content).Some? {
      assert "" + content == content;
    }
  }

  /** A turn is completed once both have spoken; a pending one may be cancelled at any time. */
  lemma EndExactly(s: Tables, turn: nat)
    ensures CancelTurn(s, turn).Some? <==> turn < |s.turns| && s.turns[turn].status.Pending?
    ensures CompleteTurn(s, turn).Some?
            <==> CancelTurn(s, turn).Some? && s.turns[turn].user.Some? && s.turns[turn].assistant.Some?
    ensures CompleteTurn(s, turn).Some? ==>
              var t := CompleteTurn(s, turn).value;
              && OnlyRow(s, t, turn)
              && Becomes(s.turns[turn], t.turns[turn], Complete, s.turns[turn].user, s.turns[turn].assistant)
    ensures CancelTurn(s, turn).Some? ==>
              var t := CancelTurn(s, turn).value;
              && OnlyRow(s, t, turn)
              && Becomes(s.turns[turn], t.turns[turn], Cancelled, s.turns[turn].user, s.turns[turn].assistant)
  {
  }

  // ---------------------------------------------------------------------------------------------
  // Memories and the relationship score

  /** A memory is stored once under its identifier and once under its text, whatever turn it names then. */
  lemma MemoryExactly(s: Tables, memory: Memory)
    ensures AddMemory(s, memory).Duplicate?
            <==> exists i | 0 <= i < |s.memories| ::
                   s.memories[i].id == memory.id || s.memories[i].normalized == memory.normalized
    ensures AddMemory(s, memory).MissingTurn?
            <==> !AddMemory(s, memory).Duplicate? && memory.sourceTurn >= |s.turns|
    ensures AddMemory(s, memory).Stored? ==>
              AddMemory(s, memory).tables == s.(memories := s.memories + [memory])
  {
  }

  /** The events of a session that go one way. */
  function Moves(events: seq<Event>, session: string, delta: int): set<nat> {
    set i: nat | i < |events| && events[i].session == session && events[i].delta == delta
  }

  lemma MovesOneMore(events: seq<Event>, last: Event, session: string, delta: int)
    ensures |Moves(events + [last], session, delta)|
            == |Moves(events, session, delta)| + if last.session == session && last.delta == delta then 1 else 0
  {
    var counts := last.session == session && last.delta == delta;
    assert Moves(events + [last], session, delta)
           == Moves(events, session, delta) + if counts then {|events|} else {};
  }

  lemma {:induction false} SumIsMoves(events: seq<Event>, session: string)
    requires forall i | 0 <= i < |events| :: events[i].delta == 1 || events[i].delta == -1
    ensures SessionSum(events, session) == Moved(events, session)
  {
    hide Moves;
    if events == [] {
      assert SessionSum(events, session) == 0;
      NoMoves(session);
    } else {
      var init, last := events[..|events| - 1], events[|events| - 1];
      assert events == init + [last];
      SumIsMoves(init, session);
      MovesOneMore(init, last, session, 1);
      MovesOneMore(init, last, session, -1);
    }
  }

  lemma NoMoves(session: string)
    ensures Moved([], session) == 0
  {
  }

  /** Where a session has moved the score, in steps of one. */
  function Moved(events: seq<Event>, session: string): int {
    |Moves(events, session, 1)| - |Moves(events, session, -1)|
  }

  predicate SeenBefore(events: seq<Event>, id: nat, turn: nat) {
    exists i | 0 <= i < |events| :: events[i].id == id || events[i].turn == turn
  }

  /** The turn is one of the session's, of that generation. */
  predicate IsTheirs(s: Tables, session: string, turn: nat, generation: nat) {
    turn < |s.turns| && s.turns[turn].session == session && s.turns[turn].generation == generation
  }

  /**
   A step of one is taken by a turn that has taken none, of that session and generation, unless the session would
   then have moved the score by more than three or the score leave its range. A wrong step is an error first; then
   a repetition is passed over, then a foreign turn is an error, and the limits come last.
   */
  lemma AffinityExactly(s: Tables, id: nat, session: string, turn: nat, generation: nat, delta: int)
    requires AffinityConsistent(s)
    ensures var a, step := ApplyAffinity(s, id, session, turn, generation, delta), delta == 1 || delta == -1;
            var seen, theirs := SeenBefore(s.events, id, turn), IsTheirs(s, session, turn, generation);
            && (a.Invalid? <==> !step || (!seen && !theirs))
            && (a.Changed? <==> step && !seen && theirs && -3 <= Moved(s.events, session) + delta <= 3
                                && 0 <= s.affinity + delta <= 100)
            && (a.Changed? ==>
                  && a.event == Event(id, session, turn, generation, delta, s.affinity + delta)
                  && a.tables == s.(affinity := s.affinity + delta, events := s.events + [a.event]))
  {
    SumIsMoves(s.events, session);
    hide SessionSum, SessionsBounded, ResultsRecorded, SumDeltas;
    if SeenBefore(s.events, id, turn) {
      var i :| 0 <= i < |s.events| && (s.events[i].id == id || s.events[i].turn == turn);
      assert s.events[i] in s.events;
    }
  }

  // ---------------------------------------------------------------------------------------------
  // Summaries

  /** The `k`-th of the references is the first complete turn of the session behind the one before. */
  ghost predicate IsNext(turns: seq<Turn>, session: string, after: nat, r: TurnRef) {
    && r.id < |turns| && turns[r.id].sequence == r.sequence
    && turns[r.id].session == session && turns[r.id].status.Complete? && r.sequence > after
    && forall i | 0 <= i < |turns| && turns[i].session == session && turns[i].status.Complete?
                  && after < turns[i].sequence ::
         r.sequence <= turns[i].sequence
  }

  /** A chain of next turns. */
  ghost predicate Follow(turns: seq<Turn>, session: string, after: nat, chunk: seq<TurnRef>)
    decreases |chunk|
  {
    chunk != [] ==> IsNext(turns, session, after, chunk[0])
                    && Follow(turns, session, chunk[0].sequence, chunk[1..])
  }

  /** Two chains of one length from one place are the same. */
  lemma {:induction false} FollowIsOne(turns: seq<Turn>, session: string, after: nat, a: seq<TurnRef>, b: seq<TurnRef>)
    requires RowsOrdered(turns, session) && |a| == |b|
    requires Follow(turns, session, after, a) && Follow(turns, session, after, b)
    ensures a == b
    decreases |a|
  {
    if a != [] {
      assert a[0].sequence == b[0].sequence;
      assert a[0].id == b[0].id;
      FollowIsOne(turns, session, a[0].sequence, a[1..], b[1..]);
      assert a == [a[0]] + a[1..] && b == [b[0]] + b[1..];
    }
  }

  /** The complete turns behind a place, in order, are a chain, and nothing follows them. */
  lemma {:induction false} CompleteFollow(turns: seq<Turn>, session: string, after: nat, n: nat)
    requires RowsOrdered(turns, session) && n <= |CompleteTurns(turns, session, after)|
    ensures Follow(turns, session, after, CompleteTurns(turns, session, after)[..n])
    decreases n
  {
    var refs := CompleteTurns(turns, session, after);
    if n > 0 {
      CompleteTurnsAre(turns, session, after);
      assert refs[0] in refs;
      forall i | 0 <= i < |turns| && turns[i].session == session && turns[i].status.Complete?
                 && after < turns[i].sequence
        ensures refs[0].sequence <= turns[i].sequence
      {
        assert CompleteAfter(turns[i], session, after);
        var r := TurnRef(i, turns[i].sequence);
        assert r in refs;
        var k :| 0 <= k < |refs| && refs[k] == r;
      }
      DropCovered(turns, session, after, 1);
      CompleteFollow(turns, session, refs[0].sequence, n - 1);
      assert refs[..n][1..] == refs[1..][..n - 1];
    }
  }

  /** No chain is longer than the complete turns. */
  lemma {:induction false} FollowIsComplete(turns: seq<Turn>, session: string, after: nat, chunk: seq<TurnRef>)
    requires RowsOrdered(turns, session) && Follow(turns, session, after, chunk)
    ensures |chunk| <= |CompleteTurns(turns, session, after)|
    decreases |chunk|
  {
    var refs := CompleteTurns(turns, session, after);
    if chunk != [] {
      CompleteTurnsAre(turns, session, after);
      assert CompleteAfter(turns[chunk[0].id], session, after);
      assert chunk[0] in refs;
      CompleteFollow(turns, session, after, 1);
      FollowIsOne(turns, session, after, chunk[..1], refs[..1]);
      assert chunk[..1][0] == refs[..1][0];
      DropCovered(turns, session, after, 1);
      FollowIsComplete(turns, session, chunk[0].sequence, chunk[1..]);
    }
  }

  /** Where the summary of a session ends. */
  function Until(s: Tables, session: string): nat {
    if session !in s.summaries then 0 else s.summaries[session].end
  }

  /**
   A summary is accepted exactly for the four complete turns that follow one another behind what it covers
   already, in 1 to 20000 characters; it then ends with the last of them, counts four more, and begins where it
   began.
   */
  lemma {:induction false} AdvanceExactly(s: Tables, session: string, chunk: seq<TurnRef>, content: string)
    requires RowsOrdered(s.turns, session)
    ensures AdvanceSummary(s, session, chunk, content).Some?
            <==> |chunk| == 4 && 1 <= |content| <= 20_000 && session in s.sessions
                 && Follow(s.turns, session, Until(s, session), chunk)
    ensures AdvanceSummary(s, session, chunk, content).Some? ==>
              AdvanceSummary(s, session, chunk, content).value
              == s.(summaries :=
                      s.summaries[session :=
                        if session in s.summaries
                        then Coverage(s.summaries[session].start, chunk[3].sequence, s.summaries[session].count + 4)
                        else Coverage(chunk[0].sequence, chunk[3].sequence, 4)])
  {
    var next, until := Unsummarized(s, session), Until(s, session);
    assert next == CompleteTurns(s.turns, session, until);
    if |chunk| == 4 {
      if Follow(s.turns, session, until, chunk) {
        FollowIsComplete(s.turns, session, until, chunk);
      }
      if |next| >= 4 {
        CompleteFollow(s.turns, session, until, 4);
        if Follow(s.turns, session, until, chunk) {
          FollowIsOne(s.turns, session, until, chunk, next[..4]);
        }
      }
    }
    hide Unsummarized, CompleteTurns, Follow, RowsOrdered;
  }

  /** A summary is due exactly when more than twelve complete turns follow, and is then of the next four. */
  lemma {:induction false} DueExactly(s: Tables, session: string, current: bool)
    requires RowsOrdered(s.turns, session)
    ensures ChunkIfDue(s, session, current).Some?
            <==> current && exists more :: |more| == 13 && Follow(s.turns, session, Until(s, session), more)
    ensures ChunkIfDue(s, session, current).Some? ==>
              |ChunkIfDue(s, session, current).value| == 4
              && Follow(s.turns, session, Until(s, session), ChunkIfDue(s, session, current).value)
  {
    var next, until := Unsummarized(s, session), Until(s, session);
    assert next == CompleteTurns(s.turns, session, until);
    if |next| >= 13 {
      CompleteFollow(s.turns, session, until, 13);
      CompleteFollow(s.turns, session, until, 4);
      assert |next[..13]| == 13;
    }
    if more :| |more| == 13 && Follow(s.turns, session, until, more) {
      FollowIsComplete(s.turns, session, until, more);
    }
    hide Unsummarized, CompleteTurns, Follow, RowsOrdered;
  }
}
