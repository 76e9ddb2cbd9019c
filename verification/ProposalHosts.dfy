/**
 The object that keeps proposals until their generation is committed or cancelled.

 Its methods are what the steps of `Session` do to proposals: `CommitGeneration` writes to the store exactly
 what `CommitMemories` and `CommitAffinities` say, and neither way out leaves anything of the generation behind.
 */
module ProposalHosts {
  import opened Session
  import Sentences = SentenceGates
  import Store

  const CATEGORIES := {"stable_preference", "important_person_or_event", "explicit_plan", "explicit_request"}

  /** The host takes a proposal, declines it, or raises an error. */
  datatype Verdict = Accepted | Declined | Invalid

  /** What a memory proposal says, beside what it is kept under. */
  datatype Remark = Remark(content: string, category: string, importance: real)

  predicate ValidRemark(ct: Sentences.CharTable, remark: Remark) {
    Sentences.Strip(ct, remark.content) != "" && remark.category in CATEGORIES && 0.0 <= remark.importance <= 1.0
  }

  /** The folding of a content to what duplicates are told by is a parameter. */
  class ProposalHost {
    const store: Store.MemoryStore
    const ct: Sentences.CharTable
    const normalize: string -> string
    var memory: seq<Proposal<string>>
    var affinity: seq<Proposal<int>>

    constructor (store: Store.MemoryStore, ct: Sentences.CharTable, normalize: string -> string)
      ensures this.store == store && this.ct == ct && this.normalize == normalize && memory == [] && affinity == []
    {
      this.store, this.ct, this.normalize := store, ct, normalize;
      memory, affinity := [], [];
    }

    predicate Known(id: nat)
      reads this
    {
      (exists p | p in memory :: p.id == id) || (exists p | p in affinity :: p.id == id)
    }

    /** Declined before it is looked at when known or for another turn; only then its content can be an error. */
    method ProposeMemory(id: nat, generation: nat, session: string, turn: nat, remark: Remark)
      returns (verdict: Verdict)
      modifies this`memory
      ensures verdict == if old(Known(id)) || !Store.TurnMatches(store.View(), turn, session, generation) then Declined
                         else if !ValidRemark(ct, remark) then Invalid else Accepted
      ensures memory == if verdict == Accepted
                        then old(memory) + [Proposal(id, generation, session, turn, normalize(remark.content))]
                        else old(memory)
    {
      if Known(id) {
        return Declined;
      }
      if !Store.TurnMatches(store.View(), turn, session, generation) {
        return Declined;
      }
      if Sentences.Strip(ct, remark.content) == "" {
        return Invalid;
      }
      if remark.category !in CATEGORIES {
        return Invalid;
      }
      if remark.importance < 0.0 || remark.importance > 1.0 {
        return Invalid;
      }
      memory := memory + [Proposal(id, generation, session, turn, normalize(remark.content))];
      return Accepted;
    }

    /** Here the delta is looked at first. */
    method ProposeAffinity(id: nat, generation: nat, session: string, turn: nat, delta: int) returns (verdict: Verdict)
      modifies this`affinity
      ensures verdict == if delta !in {-1, 1} then Invalid
                         else if old(Known(id)) || !Store.TurnMatches(store.View(), turn, session, generation)
                              then Declined
                         else Accepted
      ensures affinity
              == if verdict == Accepted then old(affinity) + [Proposal(id, generation, session, turn, delta)]
                 else old(affinity)
    {
      if delta != -1 && delta != 1 {
        return Invalid;
      }
      if Known(id) {
        return Declined;
      }
      if !Store.TurnMatches(store.View(), turn, session, generation) {
        return Declined;
      }
      affinity := affinity + [Proposal(id, generation, session, turn, delta)];
      return Accepted;
    }

    /** The number of proposals dropped. */
    method CancelGeneration(generation: nat) returns (dropped: nat)
      modifies this`memory, this`affinity
      ensures memory == Others(old(memory), generation) && affinity == Others(old(affinity), generation)
      ensures dropped == |old(memory)| - |memory| + |old(affinity)| - |affinity|
    {
      var memories := Without(memory, generation);
      var affinities := Without(affinity, generation);
      OthersShorter(memory, generation);
      OthersShorter(affinity, generation);
      dropped := |memory| - |memories| + |affinity| - |affinities|;
      memory, affinity := memories, affinities;
    }

    /** Write the generation's proposals to the store if it is current; in any case forget them. */
    method CommitGeneration(generation: nat, current: bool)
      modifies this`memory, this`affinity, store
      ensures memory == Others(old(memory), generation) && affinity == Others(old(affinity), generation)
      ensures store.View()
              == if current
                 then CommitAffinities(CommitMemories(old(store.View()), old(memory), generation), old(affinity),
                                       generation)
                              else old(store.View())
    {
      if current {
        StoreMemories(generation);
        StoreAffinities(generation);
      }
      var _ := CancelGeneration(generation);
    }

    method StoreMemories(generation: nat)
      modifies store
      ensures store.View() == CommitMemories(old(store.View()), memory, generation)
    {
      hide Store.AddMemory, Store.TurnMatches;
      var i := 0;
      assert memory[0..] == memory;
      while i < |memory|
        invariant 0 <= i <= |memory|
        invariant CommitMemories(store.View(), memory[i..], generation)
                  == CommitMemories(old(store.View()), memory, generation)
      {
        var p := memory[i];
        assert memory[i..][0] == p && memory[i..][1..] == memory[i + 1..];
        if p.generation == generation && Store.TurnMatches(store.View(), p.turn, p.session, p.generation) {
          var outcome := store.Remember(Store.Memory(p.id, p.payload, p.turn));
        }
        i := i + 1;
      }
    }

    method StoreAffinities(generation: nat)
      modifies store
      ensures store.View() == CommitAffinities(old(store.View()), affinity, generation)
    {
      hide Store.ApplyAffinity, Store.TurnMatches;
      var i := 0;
      assert affinity[0..] == affinity;
      while i < |affinity|
        invariant 0 <= i <= |affinity|
        invariant CommitAffinities(store.View(), affinity[i..], generation)
                  == CommitAffinities(old(store.View()), affinity, generation)
      {
        var p := affinity[i];
        assert affinity[i..][0] == p && affinity[i..][1..] == affinity[i + 1..];
        if p.generation == generation && Store.TurnMatches(store.View(), p.turn, p.session, p.generation) {
          var outcome := store.ChangeAffinity(p.id, p.session, p.turn, p.generation, p.payload);
        }
        i := i + 1;
      }
    }
  }

  method Without<P>(ps: seq<Proposal<P>>, generation: nat) returns (kept: seq<Proposal<P>>)
    ensures kept == Others(ps, generation)
  {
    kept := [];
    var i := 0;
    while i < |ps|
      invariant 0 <= i <= |ps|
      invariant kept + Others(ps[i..], generation) == Others(ps, generation)
    {
      assert ps[i..][0] == ps[i] && ps[i..][1..] == ps[i + 1..];
      if ps[i].generation != generation {
        kept := kept + [ps[i]];
      }
      i := i + 1;
    }
  }

  lemma {:induction false} OthersShorter<P>(ps: seq<Proposal<P>>, generation: nat)
    ensures |Others(ps, generation)| <= |ps|
  {
    if ps != [] {
      OthersShorter(ps[1..], generation);
    }
  }
}
