/**
 The turn path from a final transcript to a stored turn, as a machine of atomic steps.

 Each step is what runs between two suspension points of the turn tasks, of the playback writer, of a
 cancellation or of a summary; a run is any interleaving of any number of them. The frames of a task go to the
 active turn, which is the latest one begun: another one, if two turns share a generation.
 Results: `StaleIsFrozen` (a turn behind the fence gains nothing and is never completed) and `CompleteIsSpoken`
 (a complete turn's text is exactly the sentences whose audio was written). `SpokenOrder`, `Proposals` and
 `Summaries` say what holds besides when no two turns are in flight in one generation.
 Cancellation advances the fence at once; stopping playback and dropping proposals follow at any later time.
 */
module Session {
  import opened Wrappers
  import Playback
  import Store
  import Sentences = SentenceGates

  const MAX_SPEECH := 8_000

  /** A sentence that reached the listener, with the positions of its chunks among all accepted chunks. */
  datatype Said = Said(text: string, chunks: seq<nat>, synthesized: nat)

  /**
   Where a turn task is suspended: for its provider, or for the voice or the playback of a sentence of the turn
   `target`.
   */
  datatype At =
    | Generating
    | Synthesizing(target: nat, said: Said)
    | Draining(target: nat, said: Said)

  /** A task and what is recorded for its turn; `faulted` is an exception in its provider loop. */
  datatype Task = Task(
    generation: nat, speakText: bool, spoke: bool, failed: bool, faulted: bool, played: nat, memoryCalls: nat,
    affinityCalls: nat, at: At)

  /** What a turn asks to be kept: a memory's normalized content, or a step of the relationship score. */
  datatype Proposal<P> = Proposal(id: nat, generation: nat, session: string, turn: nat, payload: P)

  /** `said` is a record beside the program's state: per turn, the sentences that were stored for it. */
  datatype State = State(
    generation: nat, sink: Playback.Sink, tables: Store.Tables, tasks: map<nat, Task>, active: Option<nat>,
    memories: seq<Proposal<string>>, affinities: seq<Proposal<int>>, said: map<nat, seq<Said>>)

  datatype Result = Completed | Cancelled | Failed | BudgetLocked

  function New(capacity: nat, sessions: set<string>): State {
    State(0, Playback.New(capacity), Store.Fresh(sessions), map[], None, [], [], map[])
  }

  function SaidOf(s: State, turn: nat): seq<Said> {
    if turn in s.said then s.said[turn] else []
  }

  // ---------------------------------------------------------------------------------------------
  // Steps of a turn

  function Put(s: State, turn: nat, task: Task): State {
    s.(tasks := s.tasks[turn := task])
  }

  function Resume(s: State, turn: nat, at: At): State
    requires turn in s.tasks
  {
    Put(s, turn, s.tasks[turn].(at := at))
  }

  /** The start of `_run_turn`: a stale or empty transcript leaves nothing behind. */
  function Begin(s: State, session: string, generation: nat, text: string, speakText: bool,
                 ct: Sentences.CharTable): State
  {
    var clean := Sentences.Strip(ct, text);
    if clean == "" || generation != s.generation then s
    else
      var begun := Store.BeginTurn(s.tables, session, generation);
      if begun.None? then s
      else
        var turn := |s.tables.turns|;
        var accepted := Store.AcceptUserTranscript(begun.value, turn, clean);
        if accepted.None? then s.(tables := begun.value)
        else Put(s.(tables := accepted.value, active := Some(turn)), turn, NewTask(generation, speakText))
  }

  function NewTask(generation: nat, speakText: bool): Task {
    Task(generation, speakText, false, false, false, 0, 0, 0, Generating)
  }

  /** The turn that the frames of a task go to: the active one, if it has the frames' generation and that is current. */
  function Target(s: State, owner: nat): Option<nat>
    requires owner in s.tasks
  {
    if s.active.None? || s.active.value !in s.tasks then None
    else if s.tasks[s.active.value].generation != s.tasks[owner].generation then None
    else if s.tasks[owner].generation != s.generation then None
    else s.active
  }

  /** The record of a turn that may be finished already. */
  function Mark(s: State, turn: nat, spoke: bool): State {
    if turn !in s.tasks then s
    else if spoke then Put(s, turn, s.tasks[turn].(spoke := true, played := s.tasks[turn].played + 1))
    else Put(s, turn, s.tasks[turn].(failed := true))
  }

  /** The store takes a sentence, or the turn has failed; the task goes on. */
  function Commit(s: State, owner: nat, target: nat, said: Said): State
    requires owner in s.tasks
  {
    var t := Resume(s, owner, Generating);
    var appended := Store.AppendAssistantText(s.tables, target, said.text);
    if appended.None? then Mark(t, target, false)
    else Mark(t.(tables := appended.value, said := s.said[target := SaidOf(s, target) + [said]]), target, true)
  }

  /** A text frame: spoken or delivered; ignored when stale or blank, and fatal to the task when too long to speak. */
  function Sentence(s: State, owner: nat, text: string, ct: Sentences.CharTable): State
    requires owner in s.tasks
  {
    var clean := Sentences.Strip(ct, text);
    match Target(s, owner)
    case None => s
    case Some(target) =>
      if clean == "" then s
      else if !s.tasks[target].speakText then Commit(s, owner, target, Said(clean, [], 0))
      else if |clean| > MAX_SPEECH then Put(s, owner, s.tasks[owner].(faulted := true))
      else Resume(s, owner, Synthesizing(target, Said(clean, [], 0)))
  }

  /** The voice has produced a chunk: submit it, or give the sentence up. An overflow cancels the generation. */
  function ChunkArrives(s: State, owner: nat, data: seq<int>): State
    requires owner in s.tasks && s.tasks[owner].at.Synthesizing?
  {
    var task := s.tasks[owner];
    if task.generation != s.generation then Resume(s, owner, Generating)
    else
      var submitted := Playback.Submit(s.sink, Playback.Chunk(task.generation, data));
      var t := s.(sink := submitted.sink);
      if submitted.ok then Resume(t, owner, Synthesizing(task.at.target, OneMore(task.at.said, |s.sink.accepted|)))
      else Resume(if t.sink.overflowed then t.(generation := t.generation + 1) else t, owner, Generating)
  }

  function OneMore(said: Said, chunk: nat): Said {
    said.(chunks := said.chunks + [chunk], synthesized := said.synthesized + 1)
  }

  function SynthesisFails(s: State, owner: nat, cancelled: bool): State
    requires owner in s.tasks && s.tasks[owner].at.Synthesizing?
  {
    var t := Resume(s, owner, Generating);
    if cancelled then t else Mark(t, s.tasks[owner].at.target, false)
  }

  /** A look at the playback queue: wait, give the sentence up, or store it if the generation is still current. */
  function LookForDrain(s: State, owner: nat, target: nat, said: Said, entering: bool): State
    requires owner in s.tasks
  {
    var g := s.tasks[owner].generation;
    var t := s.(sink := Playback.Drain(s.sink, g, entering));
    match Playback.DrainAnswer(s.sink, g, entering)
    case None => Resume(t, owner, Draining(target, said))
    case Some(written) =>
      if written && g == s.generation then Commit(t, owner, target, said) else Resume(t, owner, Generating)
  }

  /** The proposal is new to the host and for a turn that is pending under this generation. */
  predicate HostAccepts(s: State, turn: nat, id: nat)
    requires turn in s.tasks && turn < |s.tables.turns|
  {
    && !(exists p | p in s.memories :: p.id == id) && !(exists p | p in s.affinities :: p.id == id)
    && Store.TurnMatches(s.tables, turn, s.tables.turns[turn].session, s.tasks[turn].generation)
  }

  /** A memory proposal: one per turn. `valid` sums up the field checks. */
  function ProposeMemory(s: State, owner: nat, id: nat, normalized: string, valid: bool): State
    requires owner in s.tasks
  {
    match Target(s, owner)
    case None => s
    case Some(turn) =>
      var task := s.tasks[turn];
      if !valid || task.memoryCalls >= 1 || turn >= |s.tables.turns| then s
      else
        var counted := Put(s, turn, task.(memoryCalls := task.memoryCalls + 1));
        if !HostAccepts(s, turn, id) then counted
        else counted.(memories := s.memories
                      + [Proposal(id, task.generation, s.tables.turns[turn].session, turn, normalized)])
  }

  function ProposeAffinity(s: State, owner: nat, id: nat, delta: int, valid: bool): State
    requires owner in s.tasks
  {
    match Target(s, owner)
    case None => s
    case Some(turn) =>
      var task := s.tasks[turn];
      if !valid || (delta != 1 && delta != -1) || task.affinityCalls >= 1 || turn >= |s.tables.turns| then s
      else
        var counted := Put(s, turn, task.(affinityCalls := task.affinityCalls + 1));
        if !HostAccepts(s, turn, id) then counted
        else counted.(affinities := s.affinities
                      + [Proposal(id, task.generation, s.tables.turns[turn].session, turn, delta)])
  }

  // ---------------------------------------------------------------------------------------------
  // The end of a turn

  function Others<P>(ps: seq<Proposal<P>>, generation: nat): seq<Proposal<P>> {
    if ps == [] then []
    else (if ps[0].generation == generation then [] else [ps[0]]) + Others(ps[1..], generation)
  }

  /** `cancel_generation`: nothing of the generation stays proposed. */
  function DropProposals(s: State, generation: nat): State {
    s.(memories := Others(s.memories, generation), affinities := Others(s.affinities, generation))
  }

  function CommitMemories(tables: Store.Tables, ps: seq<Proposal<string>>, generation: nat): Store.Tables
    decreases |ps|
  {
    if ps == [] then tables
    else
      var p := ps[0];
      var added := Store.AddMemory(tables, Store.Memory(p.id, p.payload, p.turn));
      var next := if p.generation == generation && Store.TurnMatches(tables, p.turn, p.session, p.generation)
                     && added.Stored?
                  then added.tables else tables;
      CommitMemories(next, ps[1..], generation)
  }

  function CommitAffinities(tables: Store.Tables, ps: seq<Proposal<int>>, generation: nat): Store.Tables
    decreases |ps|
  {
    if ps == [] then tables
    else
      var p := ps[0];
      var applied := Store.ApplyAffinity(tables, p.id, p.session, p.turn, p.generation, p.payload);
      var next := if p.generation == generation && Store.TurnMatches(tables, p.turn, p.session, p.generation)
                     && applied.Changed?
                  then applied.tables else tables;
      CommitAffinities(next, ps[1..], generation)
  }

  /** `commit_generation` for a generation that is still current. */
  function CommitProposals(s: State, generation: nat): State {
    var tables := CommitAffinities(CommitMemories(s.tables, s.memories, generation), s.affinities, generation);
    DropProposals(s.(tables := tables), generation)
  }

  function Discard(s: State, turn: nat, generation: nat): State {
    var dropped := DropProposals(s, generation);
    dropped.(tables := Store.OrSame(dropped.tables, Store.CancelTurn(dropped.tables, turn)))
  }

  /** `_outcome`; an exception in the generation counts as an error, whatever it would have returned. */
  function Outcome(s: State, task: Task, result: Result): Result {
    var status := if task.faulted then Failed else result;
    if status == BudgetLocked then BudgetLocked
    else if task.generation != s.generation || status == Cancelled then Cancelled
    else if task.failed || !task.spoke || status == Failed then Failed
    else Completed
  }

  /** The task is over; no frame goes to its turn any more. */
  function Ended(s: State, turn: nat): State {
    s.(tasks := s.tasks - {turn}, active := if s.active == Some(turn) then None else s.active)
  }

  /** `_finish_turn`: commit everything or nothing, in one step. */
  function Finish(s: State, turn: nat, result: Result): State
    requires turn in s.tasks
  {
    var task := s.tasks[turn];
    var ended := Ended(s, turn);
    if Outcome(s, task, result) != Completed then Discard(ended, turn, task.generation)
    else
      var committed := CommitProposals(ended, task.generation);
      var completed := Store.CompleteTurn(committed.tables, turn);
      if completed.None? then Discard(committed, turn, task.generation) else committed.(tables := completed.value)
  }

  // ---------------------------------------------------------------------------------------------
  // Runs

  datatype Step =
    | DoCancel
    | DoStopPlayback(generation: nat)
    | DoDropProposals(generation: nat)
    | DoTake
    | DoLand(ok: bool)
    | DoBegin(session: string, generation: nat, text: string, speakText: bool)
    | DoSentence(owner: nat, text: string)
    | DoChunk(owner: nat, data: seq<int>)
    | DoSynthesisEnds(owner: nat)
    | DoSynthesisFails(owner: nat, cancelled: bool)
    | DoWake(owner: nat)
    | DoProposeMemory(owner: nat, id: nat, normalized: string, valid: bool)
    | DoProposeAffinity(owner: nat, id: nat, delta: int, valid: bool)
    | DoFinish(owner: nat, result: Result)
    | DoAdvance(session: string, chunk: seq<Store.TurnRef>, content: string)

  predicate AtGenerating(s: State, turn: nat) {
    turn in s.tasks && turn < |s.tables.turns| && s.tasks[turn].at.Generating?
  }

  predicate Enabled(s: State, step: Step) {
    match step
    case DoCancel => true
    case DoStopPlayback(g) => g < s.generation && |s.sink.accepted| == |s.sink.fate|
    case DoDropProposals(g) => g < s.generation
    case DoTake => Playback.Enabled(s.sink, Playback.DoTake)
    case DoLand(_) => s.sink.inFlight.Some?
    case DoBegin(_, _, _, _) => true
    case DoSentence(turn, _) => AtGenerating(s, turn) && !s.tasks[turn].faulted
    case DoChunk(turn, _) => turn in s.tasks && s.tasks[turn].at.Synthesizing?
    case DoSynthesisEnds(turn) => turn in s.tasks && s.tasks[turn].at.Synthesizing?
    case DoSynthesisFails(turn, _) => turn in s.tasks && s.tasks[turn].at.Synthesizing?
    case DoWake(turn) => turn in s.tasks && s.tasks[turn].at.Draining?
    case DoProposeMemory(turn, _, _, _) => AtGenerating(s, turn)
    case DoProposeAffinity(turn, _, _, _) => AtGenerating(s, turn)
    case DoFinish(turn, _) => AtGenerating(s, turn)
    case DoAdvance(_, _, _) => true
  }

  function Next(s: State, step: Step, ct: Sentences.CharTable): State
    requires Enabled(s, step)
  {
    match step
    case DoCancel => s.(generation := s.generation + 1)
    case DoStopPlayback(g) => s.(sink := Playback.Stop(s.sink, g))
    case DoDropProposals(g) => DropProposals(s, g)
    case DoTake => s.(sink := Playback.Take(s.sink))
    case DoLand(ok) => s.(sink := Playback.Land(s.sink, ok))
    case DoBegin(session, g, text, speakText) => Begin(s, session, g, text, speakText, ct)
    case DoSentence(turn, text) => Sentence(s, turn, text, ct)
    case DoChunk(turn, data) => ChunkArrives(s, turn, data)
    case DoSynthesisEnds(turn) => LookForDrain(s, turn, s.tasks[turn].at.target, s.tasks[turn].at.said, true)
    case DoSynthesisFails(turn, cancelled) => SynthesisFails(s, turn, cancelled)
    case DoWake(turn) => LookForDrain(s, turn, s.tasks[turn].at.target, s.tasks[turn].at.said, false)
    case DoProposeMemory(turn, id, normalized, valid) => ProposeMemory(s, turn, id, normalized, valid)
    case DoProposeAffinity(turn, id, delta, valid) => ProposeAffinity(s, turn, id, delta, valid)
    case DoFinish(turn, result) => Finish(s, turn, result)
    case DoAdvance(session, chunk, content) =>
      s.(tables := Store.OrSame(s.tables, Store.AdvanceSummary(s.tables, session, chunk, content)))
  }

  ghost predicate Possible(s: State, steps: seq<Step>, ct: Sentences.CharTable)
    decreases |steps|
  {
    steps == [] || (Enabled(s, steps[0]) && Possible(Next(s, steps[0], ct), steps[1..], ct))
  }

  function Run(s: State, steps: seq<Step>, ct: Sentences.CharTable): State
    requires Possible(s, steps, ct)
    decreases |steps|
  {
    if steps == [] then s else Run(Next(s, steps[0], ct), steps[1..], ct)
  }

  // ---------------------------------------------------------------------------------------------
  // What a step does to the rows of the turn table

  /** Committing proposals leaves the turns alone. */
  lemma {:induction false} CommitMemoriesTurns(tables: Store.Tables, ps: seq<Proposal<string>>, generation: nat)
    ensures CommitMemories(tables, ps, generation).turns == tables.turns
    ensures CommitMemories(tables, ps, generation)
            == tables.(memories := CommitMemories(tables, ps, generation).memories)
    decreases |ps|
  {
    if ps != [] {
      var p := ps[0];
      var added := Store.AddMemory(tables, Store.Memory(p.id, p.payload, p.turn));
      CommitMemoriesTurns(if p.generation == generation && Store.TurnMatches(tables, p.turn, p.session, p.generation)
                             && added.Stored?
                          then added.tables else tables, ps[1..], generation);
    }
  }

  lemma {:induction false} CommitAffinitiesTurns(tables: Store.Tables, ps: seq<Proposal<int>>, generation: nat)
    ensures CommitAffinities(tables, ps, generation).turns == tables.turns
    ensures CommitAffinities(tables, ps, generation).memories == tables.memories
    decreases |ps|
  {
    if ps != [] {
      var p := ps[0];
      var applied := Store.ApplyAffinity(tables, p.id, p.session, p.turn, p.generation, p.payload);
      CommitAffinitiesTurns(if p.generation == generation && Store.TurnMatches(tables, p.turn, p.session, p.generation)
                               && applied.Changed?
                            then applied.tables else tables, ps[1..], generation);
    }
  }

  lemma CommitProposalsTurns(s: State, generation: nat)
    ensures var t := CommitProposals(s, generation);
            && t.tables.turns == s.tables.turns
            && t == s.(tables := t.tables, memories := t.memories, affinities := t.affinities)
  {
    CommitMemoriesTurns(s.tables, s.memories, generation);
    CommitAffinitiesTurns(CommitMemories(s.tables, s.memories, generation), s.affinities, generation);
  }

  /** Every other row stays what it is. */
  ghost predicate OnlyRow(before: seq<Store.Turn>, after: seq<Store.Turn>, turn: nat) {
    |after| == |before| && forall i | 0 <= i < |before| && i != turn :: after[i] == before[i]
  }

  lemma FinishRow(s: State, turn: nat, result: Result)
    requires turn in s.tasks && turn < |s.tables.turns|
    ensures var t, row := Finish(s, turn, result), s.tables.turns[turn];
            && OnlyRow(s.tables.turns, t.tables.turns, turn)
            && t.tasks == s.tasks - {turn} && t.active == Ended(s, turn).active
            && t.said == s.said && t.sink == s.sink && t.generation == s.generation
            && t.tables.turns[turn] == row.(status := t.tables.turns[turn].status)
            && (t.tables.turns[turn].status != row.status && t.tables.turns[turn].status == Store.Complete ==>
                  Outcome(s, s.tasks[turn], result) == Completed && s.tasks[turn].generation == s.generation)
  {
    hide CommitProposals, Others;
    var task := s.tasks[turn];
    CommitProposalsTurns(Ended(s, turn), task.generation);
  }

  // ---------------------------------------------------------------------------------------------
  // The invariant

  /** The chunks of a sentence are accepted chunks of its generation, in order, one for each the voice produced. */
  ghost predicate Submitted(sink: Playback.Sink, generation: nat, said: Said) {
    && |said.chunks| == said.synthesized
    && (forall i, j | 0 <= i < j < |said.chunks| :: said.chunks[i] < said.chunks[j])
    && forall i | i in said.chunks :: i < |sink.accepted| && sink.accepted[i].generation == generation
  }

  /** And every one of them was written to the device. */
  ghost predicate Played(sink: Playback.Sink, generation: nat, said: Said) {
    && Submitted(sink, generation, said)
    && |sink.accepted| == |sink.fate|
    && forall i | i in said.chunks :: sink.fate[i] == Playback.Written
  }

  ghost predicate Sayable(ct: Sentences.CharTable, text: string) {
    text != "" && Sentences.Strip(ct, text) == text
  }

  /** A sentence in hand is for a turn of the task's generation. */
  ghost predicate InHand(s: State, task: Task, ct: Sentences.CharTable) {
    !task.at.Generating? ==>
      && task.at.target < |s.tables.turns| && s.tables.turns[task.at.target].generation == task.generation
      && Sayable(ct, task.at.said.text) && Submitted(s.sink, task.generation, task.at.said)
  }

  /** A task works for a pending turn of its own generation. */
  ghost predicate TaskInStep(s: State, turn: nat, ct: Sentences.CharTable)
    requires turn in s.tasks
  {
    var task := s.tasks[turn];
    && turn < |s.tables.turns|
    && s.tables.turns[turn].status == Store.Pending
    && s.tables.turns[turn].generation == task.generation
    && s.tables.turns[turn].user.Some?
    && (task.spoke ==> s.tables.turns[turn].assistant.Some?)
    && InHand(s, task, ct)
  }

  function SaidText(said: seq<Said>): string {
    if said == [] then "" else SaidText(said[..|said| - 1]) + said[|said| - 1].text
  }

  /** A turn's text is its sentences, and all their audio was played. */
  ghost predicate RowInStep(s: State, turn: nat, ct: Sentences.CharTable)
    requires turn < |s.tables.turns|
  {
    var row, said := s.tables.turns[turn], SaidOf(s, turn);
    && row.generation <= s.generation
    && Store.AssistantText(row) == SaidText(said)
    && (row.status == Store.Complete ==> said != [])
    && (said == [] ==> row.assistant.None?)
    && (forall x | x in said :: Sayable(ct, x.text) && Played(s.sink, row.generation, x))
  }

  ghost predicate Consistent(s: State, ct: Sentences.CharTable) {
    && Playback.Consistent(s.sink)
    && (forall turn | turn in s.tasks :: TaskInStep(s, turn, ct))
    && (forall turn: nat | turn < |s.tables.turns| :: RowInStep(s, turn, ct))
    && (forall turn | turn in s.said :: turn < |s.tables.turns|)
  }

  lemma NewConsistent(capacity: nat, sessions: set<string>, ct: Sentences.CharTable)
    ensures Consistent(New(capacity, sessions), ct)
  {
    Playback.NewConsistent(capacity);
    hide Playback.Consistent;
  }

  lemma PlayedStays(a: Playback.Sink, b: Playback.Sink, generation: nat, said: Said)
    requires Playback.Advances(a, b)
    ensures Submitted(a, generation, said) ==> Submitted(b, generation, said)
    ensures Played(a, generation, said) ==> Played(b, generation, said)
  {
  }

  lemma SubmittedMore(a: Playback.Sink, chunk: Playback.Chunk, said: Said)
    requires Submitted(a, chunk.generation, said) && Playback.Submit(a, chunk).ok
    ensures Submitted(Playback.Submit(a, chunk).sink, chunk.generation, OneMore(said, |a.accepted|))
  {
    var more := said.chunks + [|a.accepted|];
    forall i, j | 0 <= i < j < |more|
      ensures more[i] < more[j]
    {
      assert more[i] in said.chunks;
    }
  }

  /** Playback moving on disturbs no turn, nor does the fence. */
  lemma SinkMoves(s: State, sink: Playback.Sink, generation: nat, ct: Sentences.CharTable)
    requires Consistent(s, ct) && Playback.Consistent(sink) && Playback.Advances(s.sink, sink)
             && generation >= s.generation
    ensures Consistent(s.(sink := sink, generation := generation), ct)
  {
    hide Playback.Consistent, Playback.Advances, Submitted, Played, Sayable;
    var t := s.(sink := sink, generation := generation);
    forall turn | turn in t.tasks
      ensures TaskInStep(t, turn, ct)
    {
      assert TaskInStep(s, turn, ct);
      if !s.tasks[turn].at.Generating? {
        PlayedStays(s.sink, sink, s.tasks[turn].generation, s.tasks[turn].at.said);
      }
    }
    forall turn: nat | turn < |t.tables.turns|
      ensures RowInStep(t, turn, ct)
    {
      assert RowInStep(s, turn, ct);
      forall x | x in SaidOf(s, turn)
        ensures Played(sink, t.tables.turns[turn].generation, x)
      {
        PlayedStays(s.sink, sink, t.tables.turns[turn].generation, x);
      }
    }
  }

  /** A task may change its mind about anything but its generation, and has spoken only if its turn has text. */
  lemma TaskMoves(s: State, turn: nat, task: Task, ct: Sentences.CharTable)
    requires Consistent(s, ct) && turn in s.tasks && task.generation == s.tasks[turn].generation && InHand(s, task, ct)
    requires task.spoke ==> s.tasks[turn].spoke || (turn < |s.tables.turns| && s.tables.turns[turn].assistant.Some?)
    ensures Consistent(Put(s, turn, task), ct)
  {
    hide Playback.Consistent, Submitted, Played, Sayable;
    var t := Put(s, turn, task);
    forall other | other in t.tasks
      ensures TaskInStep(t, other, ct)
    {
      assert TaskInStep(s, other, ct);
    }
    forall row: nat | row < |t.tables.turns|
      ensures RowInStep(t, row, ct)
    {
      assert RowInStep(s, row, ct);
    }
  }

  lemma RestMoves(s: State, turn: nat, ct: Sentences.CharTable)
    requires Consistent(s, ct) && turn in s.tasks
    ensures Consistent(Resume(s, turn, Generating), ct)
  {
    hide Consistent;
    TaskMoves(s, turn, s.tasks[turn].(at := Generating), ct);
  }

  /** Proposals, the active turn and everything stored besides the turns are nobody's business but their own. */
  lemma OthersMove(s: State, t: State, ct: Sentences.CharTable)
    requires Consistent(s, ct) && t.tables.turns == s.tables.turns
    requires t == s.(tables := t.tables, active := t.active, memories := t.memories, affinities := t.affinities)
    ensures Consistent(t, ct)
  {
    hide Playback.Consistent, Submitted, Played, Sayable;
    forall turn | turn in t.tasks ensures TaskInStep(t, turn, ct) { assert TaskInStep(s, turn, ct); }
    forall turn: nat | turn < |t.tables.turns| ensures RowInStep(t, turn, ct) { assert RowInStep(s, turn, ct); }
  }

  lemma TasksHaveRows(s: State, ct: Sentences.CharTable)
    requires Consistent(s, ct)
    ensures forall turn | turn in s.tasks ::
              turn < |s.tables.turns| && s.tables.turns[turn].generation == s.tasks[turn].generation
  {
    forall turn | turn in s.tasks
      ensures turn < |s.tables.turns| && s.tables.turns[turn].generation == s.tasks[turn].generation
    {
      assert TaskInStep(s, turn, ct);
    }
  }

  lemma HandOf(s: State, turn: nat, ct: Sentences.CharTable)
    requires Consistent(s, ct) && turn in s.tasks
    ensures InHand(s, s.tasks[turn], ct)
  {
    assert TaskInStep(s, turn, ct);
  }

  /** Beginning a turn adds at most a row and, for a current generation, its task. */
  lemma {:induction false} BeginRow(s: State, session: string, generation: nat, text: string, speakText: bool,
                                    ct: Sentences.CharTable)
    ensures var t, n := Begin(s, session, generation, text, speakText, ct), |s.tables.turns|;
            && t == s.(tables := s.tables.(turns := t.tables.turns), tasks := t.tasks, active := t.active)
            && (t != s ==>
                  && |t.tables.turns| == n + 1 && t.tables.turns[..n] == s.tables.turns
                  && t.tables.turns[n].session == session && session in s.tables.sessions
                  && t.tables.turns[n].sequence == Store.MaxSequence(s.tables.turns, session) + 1
                  && t.tables.turns[n].generation == generation == s.generation
                  && t.tables.turns[n].status == Store.Pending && t.tables.turns[n].assistant.None?)
            && (if t.tasks != s.tasks then
                  t.tables.turns[n].user.Some? && t.active == Some(n)
                  && t.tasks == s.tasks[n := NewTask(generation, speakText)]
                else t.active == s.active || n in s.tasks)
  {
    hide Sentences.Strip, Store.MaxSequence;
    var t := Begin(s, session, generation, text, speakText, ct);
  }

  lemma BeginKeeps(s: State, session: string, generation: nat, text: string, speakText: bool, ct: Sentences.CharTable)
    requires Consistent(s, ct)
    ensures Consistent(Begin(s, session, generation, text, speakText, ct), ct)
  {
    hide Playback.Consistent, Submitted, Played, Sayable, Begin, Store.MaxSequence;
    BeginRow(s, session, generation, text, speakText, ct);
    var t, n := Begin(s, session, generation, text, speakText, ct), |s.tables.turns|;
    TasksHaveRows(s, ct);
    assert n !in s.said;
    forall turn | turn in t.tasks
      ensures TaskInStep(t, turn, ct)
    {
      if turn != n { assert turn in s.tasks && TaskInStep(s, turn, ct); }
    }
    forall turn: nat | turn < |t.tables.turns|
      ensures RowInStep(t, turn, ct)
    {
      if turn < n { assert RowInStep(s, turn, ct); }
    }
  }

  lemma {:induction false} SaidTextSnoc(said: seq<Said>, x: Said)
    ensures SaidText(said + [x]) == SaidText(said) + x.text
  {
    assert (said + [x])[..|said|] == said;
  }

  /** The sentence as the store and the record of sentences take it. */
  function Stored(s: State, target: nat, said: Said): State
    requires Store.AppendAssistantText(s.tables, target, said.text).Some?
  {
    s.(tables := Store.AppendAssistantText(s.tables, target, said.text).value,
       said := s.said[target := SaidOf(s, target) + [said]])
  }

  lemma StoredTasks(s: State, target: nat, said: Said, ct: Sentences.CharTable)
    requires Consistent(s, ct) && Store.AppendAssistantText(s.tables, target, said.text).Some?
    ensures forall turn | turn in s.tasks :: TaskInStep(Stored(s, target, said), turn, ct)
  {
    hide Playback.Consistent, Submitted, Played, Sayable, RowInStep;
    forall turn | turn in s.tasks
      ensures TaskInStep(Stored(s, target, said), turn, ct)
    {
      assert TaskInStep(s, turn, ct);
    }
  }

  lemma StoredRow(s: State, target: nat, said: Said, ct: Sentences.CharTable)
    requires Consistent(s, ct) && Store.AppendAssistantText(s.tables, target, said.text).Some?
    requires Sayable(ct, said.text) && Played(s.sink, s.tables.turns[target].generation, said)
    ensures RowInStep(Stored(s, target, said), target, ct)
  {
    assert RowInStep(s, target, ct);
    SaidTextSnoc(SaidOf(s, target), said);
    hide Consistent, TaskInStep, Submitted, Played, Sayable, SaidText;
  }

  lemma StoredKeeps(s: State, target: nat, said: Said, ct: Sentences.CharTable)
    requires Consistent(s, ct) && Store.AppendAssistantText(s.tables, target, said.text).Some?
    requires Sayable(ct, said.text) && Played(s.sink, s.tables.turns[target].generation, said)
    ensures Consistent(Stored(s, target, said), ct)
  {
    StoredTasks(s, target, said, ct);
    StoredRow(s, target, said, ct);
    hide Playback.Consistent, TaskInStep, Submitted, Played, Sayable;
    var t := Stored(s, target, said);
    forall row: nat | row < |t.tables.turns|
      ensures RowInStep(t, row, ct)
    {
      if row != target { assert RowInStep(s, row, ct); }
    }
  }

  lemma MarkKeeps(s: State, turn: nat, spoke: bool, ct: Sentences.CharTable)
    requires Consistent(s, ct) && (spoke ==> turn < |s.tables.turns| && s.tables.turns[turn].assistant.Some?)
    ensures Consistent(Mark(s, turn, spoke), ct)
  {
    if turn in s.tasks {
      HandOf(s, turn, ct);
      hide Consistent, Submitted, Sayable;
      var task := s.tasks[turn];
      TaskMoves(s, turn, if spoke then task.(spoke := true, played := task.played + 1) else task.(failed := true), ct);
    }
  }

  lemma CommitKeeps(s: State, owner: nat, target: nat, said: Said, ct: Sentences.CharTable)
    requires Consistent(s, ct) && owner in s.tasks && target < |s.tables.turns|
    requires Sayable(ct, said.text) && Played(s.sink, s.tables.turns[target].generation, said)
    ensures Consistent(Commit(s, owner, target, said), ct)
  {
    hide Consistent, Played, Sayable, Mark;
    var t := Resume(s, owner, Generating);
    RestMoves(s, owner, ct);
    if Store.AppendAssistantText(s.tables, target, said.text).None? {
      MarkKeeps(t, target, false, ct);
    } else {
      StoredKeeps(t, target, said, ct);
      MarkKeeps(Stored(t, target, said), target, true, ct);
    }
  }

  /** The row of a turn that finishes is in step: to be completed it must have spoken. */
  lemma FinishRowKeeps(s: State, turn: nat, result: Result, row: nat, ct: Sentences.CharTable)
    requires turn in s.tasks && turn < |s.tables.turns| && TaskInStep(s, turn, ct)
    requires row < |s.tables.turns| && RowInStep(s, row, ct)
    ensures row < |Finish(s, turn, result).tables.turns| && RowInStep(Finish(s, turn, result), row, ct)
  {
    FinishRow(s, turn, result);
    hide Playback.Consistent, Submitted, Played, Sayable, Finish, SaidText, InHand;
  }

  lemma FinishKeeps(s: State, turn: nat, result: Result, ct: Sentences.CharTable)
    requires Consistent(s, ct) && turn in s.tasks
    ensures Consistent(Finish(s, turn, result), ct)
  {
    hide Playback.Consistent, Submitted, Played, Sayable, Finish, SaidText, Outcome, RowInStep;
    assert TaskInStep(s, turn, ct);
    FinishRow(s, turn, result);
    var t := Finish(s, turn, result);
    forall other | other in t.tasks
      ensures TaskInStep(t, other, ct)
    {
      assert TaskInStep(s, other, ct);
    }
    forall row: nat | row < |t.tables.turns|
      ensures RowInStep(t, row, ct)
    {
      assert RowInStep(s, row, ct);
      FinishRowKeeps(s, turn, result, row, ct);
    }
  }

  /** Frames go to a live turn of the task's generation. */
  lemma TargetLives(s: State, owner: nat, ct: Sentences.CharTable)
    requires Consistent(s, ct) && owner in s.tasks && Target(s, owner).Some?
    ensures var target := Target(s, owner).value;
            && target in s.tasks && target < |s.tables.turns|
            && s.tables.turns[target].generation == s.tasks[owner].generation
            && s.tasks[owner].generation == s.generation
  {
    TasksHaveRows(s, ct);
  }

  lemma SentenceKeeps(s: State, owner: nat, text: string, ct: Sentences.CharTable)
    requires Consistent(s, ct) && owner in s.tasks && s.tasks[owner].at.Generating?
    ensures Consistent(Sentence(s, owner, text, ct), ct)
  {
    hide Consistent, Sentences.Strip, Commit, Playback.Consistent, Target;
    Sentences.StripTwice(ct, text);
    if Target(s, owner).Some? {
      TargetLives(s, owner, ct);
      var target, clean := Target(s, owner).value, Sentences.Strip(ct, text);
      SinkIsRecorded(s, ct);
      if clean == "" {
      } else if !s.tasks[target].speakText {
        CommitKeeps(s, owner, target, Said(clean, [], 0), ct);
      } else if |clean| > MAX_SPEECH {
        TaskMoves(s, owner, s.tasks[owner].(faulted := true), ct);
      } else {
        TaskMoves(s, owner, s.tasks[owner].(at := Synthesizing(target, Said(clean, [], 0))), ct);
      }
    }
  }

  lemma SinkIsRecorded(s: State, ct: Sentences.CharTable)
    requires Consistent(s, ct)
    ensures Playback.Consistent(s.sink) && |s.sink.accepted| == |s.sink.fate|
  {
  }

  lemma SubmitAdvances(s: State, chunk: Playback.Chunk, ct: Sentences.CharTable)
    requires Consistent(s, ct)
    ensures Playback.Consistent(Playback.Submit(s.sink, chunk).sink)
            && Playback.Advances(s.sink, Playback.Submit(s.sink, chunk).sink)
  {
    hide Playback.Submit, Playback.Advances, Playback.Consistent, TaskInStep, RowInStep;
    Playback.NextAdvances(s.sink, Playback.DoSubmit(chunk));
  }

  lemma AcceptedKeeps(s: State, owner: nat, chunk: Playback.Chunk, ct: Sentences.CharTable)
    requires Consistent(s, ct) && owner in s.tasks && s.tasks[owner].at.Synthesizing?
    requires chunk.generation == s.tasks[owner].generation && Playback.Submit(s.sink, chunk).ok
    ensures Consistent(Resume(s.(sink := Playback.Submit(s.sink, chunk).sink), owner,
              Synthesizing(s.tasks[owner].at.target, OneMore(s.tasks[owner].at.said, |s.sink.accepted|))), ct)
  {
    HandOf(s, owner, ct);
    SubmitAdvances(s, chunk, ct);
    var task := s.tasks[owner];
    SubmittedMore(s.sink, chunk, task.at.said);
    hide Consistent, Playback.Consistent, Playback.Advances, Submitted, Sayable, Playback.Submit;
    var t := s.(sink := Playback.Submit(s.sink, chunk).sink);
    SinkMoves(s, t.sink, s.generation, ct);
    assert t == s.(sink := t.sink, generation := s.generation);
    TaskMoves(t, owner, task.(at := Synthesizing(task.at.target, OneMore(task.at.said, |s.sink.accepted|))), ct);
  }

  lemma ChunkKeeps(s: State, owner: nat, data: seq<int>, ct: Sentences.CharTable)
    requires Consistent(s, ct) && owner in s.tasks && s.tasks[owner].at.Synthesizing?
    ensures Consistent(ChunkArrives(s, owner, data), ct)
  {
    hide Consistent, Playback.Consistent, Playback.Advances, Playback.Submit;
    var task := s.tasks[owner];
    var chunk := Playback.Chunk(task.generation, data);
    SubmitAdvances(s, chunk, ct);
    if task.generation != s.generation {
      RestMoves(s, owner, ct);
    } else if Playback.Submit(s.sink, chunk).ok {
      AcceptedKeeps(s, owner, chunk, ct);
    } else {
      var sink := Playback.Submit(s.sink, chunk).sink;
      var moved := if sink.overflowed then s.generation + 1 else s.generation;
      SinkMoves(s, sink, moved, ct);
      RestMoves(s.(sink := sink, generation := moved), owner, ct);
    }
  }

  lemma FailureKeeps(s: State, owner: nat, cancelled: bool, ct: Sentences.CharTable)
    requires Consistent(s, ct) && owner in s.tasks && s.tasks[owner].at.Synthesizing?
    ensures Consistent(SynthesisFails(s, owner, cancelled), ct)
  {
    hide Consistent, Mark;
    RestMoves(s, owner, ct);
    MarkKeeps(Resume(s, owner, Generating), s.tasks[owner].at.target, false, ct);
  }

  lemma LookKeeps(s: State, owner: nat, entering: bool, ct: Sentences.CharTable)
    requires Consistent(s, ct) && owner in s.tasks && !s.tasks[owner].at.Generating?
    ensures Consistent(LookForDrain(s, owner, s.tasks[owner].at.target, s.tasks[owner].at.said, entering), ct)
  {
    HandOf(s, owner, ct);
    SinkIsRecorded(s, ct);
    var task := s.tasks[owner];
    var g, target, said := task.generation, task.at.target, task.at.said;
    Playback.NextAdvances(s.sink, Playback.DoDrain(g, entering));
    if Playback.DrainAnswer(s.sink, g, entering) == Some(true) {
      Playback.DrainedIsWritten(s.sink, g, entering);
    }
    hide Consistent, Playback.Consistent, Playback.Advances, Commit, Sayable, Playback.DrainAnswer;
    var t := s.(sink := Playback.Drain(s.sink, g, entering));
    SinkMoves(s, t.sink, s.generation, ct);
    assert t == s.(sink := t.sink, generation := s.generation);
    match Playback.DrainAnswer(s.sink, g, entering)
    case None => WaitKeeps(s, t, owner, ct);
    case Some(written) =>
      if written && g == s.generation {
        CommitKeeps(t, owner, target, said, ct);
      } else {
        RestMoves(t, owner, ct);
      }
  }

  lemma WaitKeeps(s: State, t: State, owner: nat, ct: Sentences.CharTable)
    requires Consistent(t, ct) && owner in t.tasks && !t.tasks[owner].at.Generating?
    ensures Consistent(Resume(t, owner, Draining(t.tasks[owner].at.target, t.tasks[owner].at.said)), ct)
  {
    HandOf(t, owner, ct);
    hide Consistent, Submitted, Sayable;
    TaskMoves(t, owner, t.tasks[owner].(at := Draining(t.tasks[owner].at.target, t.tasks[owner].at.said)), ct);
  }

  lemma ProposeMemoryKeeps(s: State, owner: nat, id: nat, normalized: string, valid: bool, ct: Sentences.CharTable)
    requires Consistent(s, ct) && owner in s.tasks
    ensures Consistent(ProposeMemory(s, owner, id, normalized, valid), ct)
  {
    var t := ProposeMemory(s, owner, id, normalized, valid);
    if t != s {
      var turn := Target(s, owner).value;
      HandOf(s, turn, ct);
      hide Consistent, Submitted, Sayable, HostAccepts;
      var counted := Put(s, turn, s.tasks[turn].(memoryCalls := s.tasks[turn].memoryCalls + 1));
      TaskMoves(s, turn, counted.tasks[turn], ct);
      OthersMove(counted, t, ct);
    }
  }

  lemma ProposeAffinityKeeps(s: State, owner: nat, id: nat, delta: int, valid: bool, ct: Sentences.CharTable)
    requires Consistent(s, ct) && owner in s.tasks
    ensures Consistent(ProposeAffinity(s, owner, id, delta, valid), ct)
  {
    var t := ProposeAffinity(s, owner, id, delta, valid);
    if t != s {
      var turn := Target(s, owner).value;
      HandOf(s, turn, ct);
      hide Consistent, Submitted, Sayable, HostAccepts;
      var counted := Put(s, turn, s.tasks[turn].(affinityCalls := s.tasks[turn].affinityCalls + 1));
      TaskMoves(s, turn, counted.tasks[turn], ct);
      OthersMove(counted, t, ct);
    }
  }

  lemma AdvanceTurns(tables: Store.Tables, session: string, chunk: seq<Store.TurnRef>, content: string)
    ensures Store.OrSame(tables, Store.AdvanceSummary(tables, session, chunk, content)).turns == tables.turns
  {
    hide Store.Unsummarized;
  }

  /** The steps of playback, of the fence and of summaries. */
  lemma BackgroundKeeps(s: State, step: Step, ct: Sentences.CharTable)
    requires Consistent(s, ct) && Enabled(s, step)
    requires step.DoCancel? || step.DoStopPlayback? || step.DoDropProposals? || step.DoTake? || step.DoLand?
             || step.DoAdvance?
    ensures Consistent(Next(s, step, ct), ct)
  {
    SinkIsRecorded(s, ct);
    Playback.NothingAdvances(s.sink);
    hide Consistent, Playback.Consistent, Playback.Advances, Others, Playback.Stop, Playback.Take, Playback.Land,
         Store.AdvanceSummary;
    match step
    case DoCancel => SinkMoves(s, s.sink, s.generation + 1, ct);
    case DoStopPlayback(g) =>
      Playback.NextAdvances(s.sink, Playback.DoStop(g));
      SinkMoves(s, Playback.Stop(s.sink, g), s.generation, ct);
    case DoDropProposals(g) => OthersMove(s, DropProposals(s, g), ct);
    case DoTake =>
      Playback.NextAdvances(s.sink, Playback.DoTake);
      SinkMoves(s, Playback.Take(s.sink), s.generation, ct);
    case DoLand(ok) =>
      Playback.NextAdvances(s.sink, Playback.DoLand(ok));
      SinkMoves(s, Playback.Land(s.sink, ok), s.generation, ct);
    case DoAdvance(session, chunk, content) =>
      AdvanceTurns(s.tables, session, chunk, content);
      OthersMove(s, Next(s, step, ct), ct);
  }

  lemma NextKeeps(s: State, step: Step, ct: Sentences.CharTable)
    requires Consistent(s, ct) && Enabled(s, step)
    ensures Consistent(Next(s, step, ct), ct)
  {
    hide Consistent, Begin, Sentence, ChunkArrives, LookForDrain, SynthesisFails, Finish, ProposeMemory,
         ProposeAffinity, Others,
         Playback.Stop, Playback.Take, Playback.Land, Store.AdvanceSummary;
    match step
    case DoBegin(session, g, text, speakText) => BeginKeeps(s, session, g, text, speakText, ct);
    case DoSentence(turn, text) => SentenceKeeps(s, turn, text, ct);
    case DoChunk(turn, data) => ChunkKeeps(s, turn, data, ct);
    case DoSynthesisEnds(turn) => LookKeeps(s, turn, true, ct);
    case DoSynthesisFails(turn, cancelled) => FailureKeeps(s, turn, cancelled, ct);
    case DoWake(turn) => LookKeeps(s, turn, false, ct);
    case DoProposeMemory(turn, id, normalized, valid) => ProposeMemoryKeeps(s, turn, id, normalized, valid, ct);
    case DoProposeAffinity(turn, id, delta, valid) => ProposeAffinityKeeps(s, turn, id, delta, valid, ct);
    case DoFinish(turn, result) => FinishKeeps(s, turn, result, ct);
    case _ => BackgroundKeeps(s, step, ct);
  }

  lemma {:induction false} RunConsistent(s: State, steps: seq<Step>, ct: Sentences.CharTable)
    requires Consistent(s, ct) && Possible(s, steps, ct)
    ensures Consistent(Run(s, steps, ct), ct)
    decreases |steps|
  {
    hide Consistent, Next, Enabled;
    if steps != [] {
      NextKeeps(s, steps[0], ct);
      RunConsistent(Next(s, steps[0], ct), steps[1..], ct);
    }
  }

  // ---------------------------------------------------------------------------------------------
  // A complete turn was spoken

  /**
   Whatever the interleaving, the text stored for a complete turn is the concatenation of stripped, non-empty
   sentences, and each of them was played in full: every chunk the voice made of it was written.
   */
  lemma {:induction false} CompleteIsSpoken(capacity: nat, sessions: set<string>, steps: seq<Step>, turn: nat,
                                            ct: Sentences.CharTable)
    requires Possible(New(capacity, sessions), steps, ct)
    requires turn < |Run(New(capacity, sessions), steps, ct).tables.turns|
    requires Run(New(capacity, sessions), steps, ct).tables.turns[turn].status == Store.Complete
    ensures var s := Run(New(capacity, sessions), steps, ct);
            var row, said := s.tables.turns[turn], SaidOf(s, turn);
            && said != [] && row.assistant == Some(SaidText(said))
            && (forall x | x in said :: Sayable(ct, x.text) && Played(s.sink, row.generation, x))
  {
    NewConsistent(capacity, sessions, ct);
    RunConsistent(New(capacity, sessions), steps, ct);
    hide Run, Possible, Playback.Consistent, Sayable, Played;
    var s := Run(New(capacity, sessions), steps, ct);
    assert RowInStep(s, turn, ct);
    assert SaidOf(s, turn)[|SaidOf(s, turn)| - 1] in SaidOf(s, turn);
    SaidTextIsLong(SaidOf(s, turn), ct);
  }

  lemma {:induction false} SaidTextIsLong(said: seq<Said>, ct: Sentences.CharTable)
    requires said != [] && forall x | x in said :: Sayable(ct, x.text)
    ensures SaidText(said) != ""
  {
    assert said[|said| - 1] in said;
  }

  // ---------------------------------------------------------------------------------------------
  // A turn behind the fence

  /** The row keeps its text, and is complete only if it was. */
  ghost predicate Frozen(s: State, t: State, turn: nat) {
    && turn < |s.tables.turns| <= |t.tables.turns|
    && s.generation <= t.generation
    && t.tables.turns[turn] == s.tables.turns[turn].(status := t.tables.turns[turn].status)
    && (t.tables.turns[turn].status == Store.Complete <==> s.tables.turns[turn].status == Store.Complete)
    && SaidOf(t, turn) == SaidOf(s, turn)
  }

  lemma CommitFreezes(s: State, owner: nat, target: nat, said: Said, stale: nat)
    requires owner in s.tasks && stale < |s.tables.turns| && target != stale
    ensures Frozen(s, Commit(s, owner, target, said), stale)
  {
  }

  lemma FinishFreezes(s: State, turn: nat, result: Result, stale: nat, ct: Sentences.CharTable)
    requires Consistent(s, ct) && turn in s.tasks && stale < |s.tables.turns|
             && s.tables.turns[stale].generation < s.generation
    ensures Frozen(s, Finish(s, turn, result), stale)
  {
    assert TaskInStep(s, turn, ct);
    FinishRow(s, turn, result);
    hide Finish, RowInStep, Playback.Consistent, InHand;
  }

  lemma SentenceFreezes(s: State, owner: nat, text: string, stale: nat, ct: Sentences.CharTable)
    requires Consistent(s, ct) && owner in s.tasks
    requires stale < |s.tables.turns| && s.tables.turns[stale].generation < s.generation
    ensures Frozen(s, Sentence(s, owner, text, ct), stale)
  {
    hide Consistent, Commit, Sentences.Strip, Target;
    if Target(s, owner).Some? {
      TargetLives(s, owner, ct);
      CommitFreezes(s, owner, Target(s, owner).value, Said(Sentences.Strip(ct, text), [], 0), stale);
    }
  }

  lemma BeginFreezes(s: State, session: string, generation: nat, text: string, speakText: bool, stale: nat,
                     ct: Sentences.CharTable)
    requires stale < |s.tables.turns|
    ensures Frozen(s, Begin(s, session, generation, text, speakText, ct), stale)
  {
    hide Begin, Store.MaxSequence;
    BeginRow(s, session, generation, text, speakText, ct);
  }

  lemma LookFreezes(s: State, owner: nat, entering: bool, stale: nat, ct: Sentences.CharTable)
    requires Consistent(s, ct) && owner in s.tasks && !s.tasks[owner].at.Generating?
    requires stale < |s.tables.turns| && s.tables.turns[stale].generation < s.generation
    ensures Frozen(s, LookForDrain(s, owner, s.tasks[owner].at.target, s.tasks[owner].at.said, entering), stale)
  {
    HandOf(s, owner, ct);
    hide Consistent, Commit, Playback.DrainAnswer, Playback.Drain, Submitted, Sayable;
    var task := s.tasks[owner];
    if task.at.target != stale {
      CommitFreezes(s.(sink := Playback.Drain(s.sink, task.generation, entering)), owner, task.at.target, task.at.said,
                    stale);
    }
  }

  lemma NextFreezes(s: State, step: Step, stale: nat, ct: Sentences.CharTable)
    requires Consistent(s, ct) && Enabled(s, step)
    requires stale < |s.tables.turns| && s.tables.turns[stale].generation < s.generation
    ensures Frozen(s, Next(s, step, ct), stale)
  {
    hide Consistent, Begin, Sentence, LookForDrain, Finish, Others, Target, HostAccepts, Store.AdvanceSummary,
         Playback.Submit, Playback.Stop, Playback.Take, Playback.Land;
    match step
    case DoBegin(session, g, text, speakText) => BeginFreezes(s, session, g, text, speakText, stale, ct);
    case DoSentence(turn, text) => SentenceFreezes(s, turn, text, stale, ct);
    case DoSynthesisEnds(turn) => LookFreezes(s, turn, true, stale, ct);
    case DoWake(turn) => LookFreezes(s, turn, false, stale, ct);
    case DoFinish(turn, result) => FinishFreezes(s, turn, result, stale, ct);
    case DoAdvance(session, chunk, content) => AdvanceTurns(s.tables, session, chunk, content);
    case _ =>
  }

  /**
   Once the fence has moved past its generation, a turn gains no text and never becomes complete, in any
   interleaving.
   */
  lemma {:induction false} StaleIsFrozen(s: State, steps: seq<Step>, stale: nat, ct: Sentences.CharTable)
    requires Consistent(s, ct) && Possible(s, steps, ct)
    requires stale < |s.tables.turns| && s.tables.turns[stale].generation < s.generation
    ensures Frozen(s, Run(s, steps, ct), stale)
    decreases |steps|
  {
    hide Consistent, Next, Enabled;
    if steps != [] {
      NextKeeps(s, steps[0], ct);
      NextFreezes(s, steps[0], stale, ct);
      StaleIsFrozen(Next(s, steps[0], ct), steps[1..], stale, ct);
    }
  }

  // ---------------------------------------------------------------------------------------------
  // One turn in flight per generation

  /** No turn begins in a generation in which another one is in flight. */
  predicate Exclusive(s: State, step: Step) {
    step.DoBegin? ==> forall turn | turn in s.tasks :: s.tasks[turn].generation != step.generation
  }

  ghost predicate ExclusiveRun(s: State, steps: seq<Step>, ct: Sentences.CharTable)
    requires Possible(s, steps, ct)
    decreases |steps|
  {
    steps == [] || (Exclusive(s, steps[0]) && ExclusiveRun(Next(s, steps[0], ct), steps[1..], ct))
  }

  ghost predicate OneTaskPerGeneration(tasks: map<nat, Task>) {
    forall a, b | a in tasks && b in tasks && tasks[a].generation == tasks[b].generation :: a == b
  }
}
