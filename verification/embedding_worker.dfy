/**
 The search store and the embedding worker as the objects they are. What a worker does to the store is
 a run of the queue protocol, and a drain that stops early leaves nothing to claim.
 */
module EmbeddingWorkers {
  import opened Wrappers
  import opened EmbeddingTables
  import opened EmbeddingProtocol
  import opened EmbeddingJobs

  // How many entries of a batch pass the fence and the hash check.
  function StoredCount(t: Tables, entries: seq<(Claim, Embedding)>, now: nat): nat {
    if entries == [] then 0
    else
      var last := |entries| - 1;
      var before := StoreAll(t, entries[..last], now);
      StoredCount(t, entries[..last], now)
      + if Fenced(before, entries[last].0) && Unchanged(before, entries[last].0) then 1 else 0
  }

  // Jobs of one generation that can be claimed, and have a document.
  function Waiting(t: Tables, g: nat, now: nat): set<Slot> {
    set slot | slot in t.jobs && slot.generation == g && Claimable(t.jobs[slot], now)
  }

  class SearchStore {
    var docs: map<nat, Source>
    var active: set<nat>
    var jobs: map<Slot, Job>
    var vectors: map<Slot, Vector>
    var generation: Option<nat>

    constructor ()
      ensures Tables() == EmbeddingTables.Tables(map[], {}, map[], map[], None)
    {
      docs, active, jobs, vectors, generation := map[], {}, map[], map[], None;
    }

    function Tables(): EmbeddingTables.Tables
      reads this
    {
      EmbeddingTables.Tables(docs, active, jobs, vectors, generation)
    }

    // LIMIT: some of the candidates, each once.
    static method Choose(candidates: set<Slot>, limit: nat) returns (order: seq<Slot>)
      ensures |order| <= limit && (|order| == 0 ==> limit == 0 || candidates == {})
      ensures forall i :: 0 <= i < |order| ==> order[i] in candidates
      ensures forall i, j :: 0 <= i < j < |order| ==> order[i] != order[j]
    {
      order := [];
      var rest := candidates;
      while |order| < limit && rest != {}
        invariant rest <= candidates && |order| <= limit && (|order| == 0 ==> rest == candidates)
        invariant forall i :: 0 <= i < |order| ==> order[i] in candidates && order[i] !in rest
        invariant forall i, j :: 0 <= i < j < |order| ==> order[i] != order[j]
        decreases rest
      {
        var slot :| slot in rest;
        order, rest := order + [slot], rest - {slot};
      }
    }

    // Rows locked by other transactions are skipped; the order by run time is not modelled, so any of the
    // others may be taken.
    method Claim(g: nat, worker: string, now: nat, until: nat, limit: nat, locked: set<Slot>)
      returns (claims: seq<EmbeddingTables.Claim>, ghost picked: set<Slot>)
      requires forall slot :: slot in jobs && slot.generation == g ==> slot.version in docs
      modifies this`jobs
      ensures picked <= Waiting(old(Tables()), g, now)
      ensures Tables() == ClaimJobs(old(Tables()), picked, worker, until)
      ensures |claims| <= limit
      ensures |claims| == 0 ==> picked == {} && (limit == 0 || Waiting(old(Tables()), g, now) <= locked)
      ensures forall i :: 0 <= i < |claims| ==>
        claims[i].slot in picked && claims[i] == ClaimOf(old(Tables()), claims[i].slot)
      ensures forall i, j :: 0 <= i < j < |claims| ==> claims[i].slot != claims[j].slot
    {
      var candidates := (set slot | slot in jobs && slot.generation == g && Claimable(jobs[slot], now)) - locked;
      assert candidates == {} ==> Waiting(Tables(), g, now) <= locked by {
        assert forall slot | slot in Waiting(Tables(), g, now) && slot !in locked :: slot in candidates;
      }
      var order := Choose(candidates, limit);
      var chosen := set i | 0 <= i < |order| :: order[i];
      picked := chosen;
      claims := seq(|order|, i requires 0 <= i < |order| && order[i] in jobs && order[i].version in docs reads this =>
        var j := jobs[order[i]];
        EmbeddingTables.Claim(order[i], j.hash, docs[order[i].version].document, j.token + 1, j.attempts));
      jobs := map slot | slot in jobs :: if slot in chosen then Lease(jobs[slot], worker, until) else jobs[slot];
    }

    method StoreEmbeddings(entries: seq<(EmbeddingTables.Claim, Embedding)>, now: nat) returns (stored: nat)
      modifies this`jobs, this`vectors
      ensures Tables() == StoreAll(old(Tables()), entries, now)
      ensures stored == StoredCount(old(Tables()), entries, now)
      ensures DistinctEntries(entries) ==>
        forall i :: 0 <= i < |entries| && entries[i].0.slot in old(jobs) ==>
          Stored(old(Tables()), Tables(), entries[i].0, entries[i].1, now)
    {
      stored := 0;
      for i := 0 to |entries|
        invariant Tables() == StoreAll(old(Tables()), entries[..i], now)
        invariant stored == StoredCount(old(Tables()), entries[..i], now)
      {
        assert entries[..i + 1][..i] == entries[..i];
        var (c, e) := entries[i];
        if c.slot !in jobs || jobs[c.slot].token != c.token {
          continue;
        }
        if c.slot.version !in docs || HashOf(docs[c.slot.version]) != c.hash {
          jobs := jobs[c.slot := jobs[c.slot].(state := Pending, owner := None, leaseUntil := None, nextRun := now)];
          continue;
        }
        vectors := vectors[c.slot := Vector(c.hash, e, true)];
        jobs := jobs[c.slot := jobs[c.slot].(state := Done, owner := None, leaseUntil := None)];
        stored := stored + 1;
      }
      assert entries[..|entries|] == entries;
      if DistinctEntries(entries) { StoresMean(old(Tables()), entries, now); }
    }

    method FailJobs(claims: seq<EmbeddingTables.Claim>, maxAttempts: nat, nextRun: nat -> nat)
      returns (retried: nat, dead: nat)
      modifies this`jobs
      ensures Tables() == FailAll(old(Tables()), claims, maxAttempts, nextRun)
      ensures dead == Exhausted(claims, maxAttempts) && retried + dead == |claims|
      ensures Distinct(claims) ==>
        forall i :: 0 <= i < |claims| && claims[i].slot in old(jobs) ==>
          Fails(old(Tables()), Tables(), claims[i], maxAttempts, nextRun(claims[i].attempts))
      ensures Distinct(claims) && AllHeld(old(Tables()), claims) ==> dead == |DeadAt(jobs, claims)|
    {
      retried, dead := 0, 0;
      for i := 0 to |claims|
        invariant Tables() == FailAll(old(Tables()), claims[..i], maxAttempts, nextRun)
        invariant dead == Exhausted(claims[..i], maxAttempts) && retried + dead == i
      {
        assert claims[..i + 1][..i] == claims[..i];
        var c := claims[i];
        var exhausted := c.attempts + 1 >= maxAttempts;
        if c.slot in jobs && jobs[c.slot].token == c.token {
          jobs := jobs[c.slot := jobs[c.slot].(
            attempts := c.attempts + 1, state := if exhausted then Dead else Pending,
            owner := None, leaseUntil := None, nextRun := nextRun(c.attempts))];
        }
        if exhausted {
          dead := dead + 1;
        } else {
          retried := retried + 1;
        }
      }
      assert claims[..|claims|] == claims;
      if Distinct(claims) {
        FailuresMean(old(Tables()), claims, maxAttempts, nextRun);
        if AllHeld(old(Tables()), claims) { DeadAreCounted(old(Tables()), claims, maxAttempts, nextRun); }
      }
    }
  }

  /* ---- Runs ---- */

  // What a worker does.
  predicate Working(step: Step) { step.Take? || step.Store? || step.Fail? }

  ghost predicate Reached(embed: string -> Embedding, s0: Sys, s: Sys) {
    exists steps: seq<Step> :: ValidRun(embed, s0, steps) && Final(embed, s0, steps) == s
      && forall i :: 0 <= i < |steps| ==> Working(steps[i])
  }

  lemma OneMore(embed: string -> Embedding, s0: Sys, s: Sys, step: Step)
    requires Reached(embed, s0, s) && Enabled(s, step) && Working(step)
    ensures Reached(embed, s0, Exec(embed, s, step))
  {
    var steps: seq<Step> :| ValidRun(embed, s0, steps) && Final(embed, s0, steps) == s
      && forall i :: 0 <= i < |steps| ==> Working(steps[i]);
    RunGrows(embed, s0, steps, step);
    assert forall i | 0 <= i < |steps + [step]| :: Working((steps + [step])[i]);
  }

  // Jobs of the generation are for the text their document has.
  predicate InStep(t: Tables, g: nat) {
    forall slot :: slot in t.jobs && slot.generation == g ==>
      slot.version in t.docs && t.jobs[slot].hash == HashOf(t.docs[slot.version])
  }

  lemma WorkKeepsStep(embed: string -> Embedding, s: Sys, step: Step, g: nat)
    requires InStep(s.t, g) && Enabled(s, step) && Working(step)
    ensures InStep(Exec(embed, s, step).t, g)
  {
    match step
    case Take(_, _, _, _) =>
    case Store(batch, now) => BatchKeeps((u: Tables) => InStep(u, g), embed, s.t, batch, now);
    case Fail(batch, max, nextRun) => FailureKeeps((u: Tables) => InStep(u, g), s.t, batch, max, nextRun);
  }

  lemma {:induction false} RunKeepsStep(embed: string -> Embedding, s: Sys, steps: seq<Step>, g: nat)
    requires InStep(s.t, g) && ValidRun(embed, s, steps) && forall i :: 0 <= i < |steps| ==> Working(steps[i])
    ensures InStep(Final(embed, s, steps).t, g)
    decreases |steps|
  {
    if steps != [] {
      assert Working(steps[0]) && forall i | 0 <= i < |steps[1..]| :: steps[1..][i] == steps[i + 1];
      WorkKeepsStep(embed, s, steps[0], g);
      RunKeepsStep(embed, Exec(embed, s, steps[0]), steps[1..], g);
    }
  }

  lemma ReachedKeeps(embed: string -> Embedding, s0: Sys, s: Sys, g: nat)
    requires Kept(s0.t, s0.claims, s0.made) && Reached(embed, s0, s)
    ensures Kept(s.t, s.claims, s.made) && (InStep(s0.t, g) ==> InStep(s.t, g))
  {
    var steps: seq<Step> :| ValidRun(embed, s0, steps) && Final(embed, s0, steps) == s
      && forall i :: 0 <= i < |steps| ==> Working(steps[i]);
    RunIsKept(embed, s0, steps);
    if InStep(s0.t, g) { RunKeepsStep(embed, s0, steps, g); }
  }

  // Storing the claims just made, each of another job and for the current text, stores them all.
  lemma {:induction false} FreshClaimsStore(t: Tables, entries: seq<(Claim, Embedding)>, now: nat)
    requires forall i :: 0 <= i < |entries| ==> Fenced(t, entries[i].0) && Unchanged(t, entries[i].0)
    requires forall i, j :: 0 <= i < j < |entries| ==> entries[i].0.slot != entries[j].0.slot
    ensures StoredCount(t, entries, now) == |entries|
    ensures var d := StoreAll(t, entries, now); d.docs == t.docs && forall slot :: slot in t.jobs ==> slot in d.jobs
    ensures var d := StoreAll(t, entries, now);
      forall slot :: slot in t.jobs && (forall i :: 0 <= i < |entries| ==> entries[i].0.slot != slot) ==>
        d.jobs[slot] == t.jobs[slot]
  {
    if entries != [] {
      FreshClaimsStore(t, entries[..|entries| - 1], now);
    }
  }

  class EmbeddingWorker {
    const store: SearchStore
    const generation: nat
    const workerId: string
    const concurrency: nat
    const batchSize: nat
    const leaseMs: nat
    const maxAttempts: nat
    var processed: nat
    var failed: nat
    var deadLettered: nat

    constructor (store: SearchStore, generation: nat, workerId: string,
                 concurrency: nat, batchSize: nat, leaseMs: nat, maxAttempts: nat)
      ensures this.store == store && this.generation == generation && this.concurrency == concurrency
      ensures this.batchSize == batchSize && processed == failed == deadLettered == 0
    {
      this.store, this.generation, this.workerId := store, generation, workerId;
      this.concurrency, this.batchSize, this.leaseMs, this.maxAttempts := concurrency, batchSize, leaseMs, maxAttempts;
      processed, failed, deadLettered := 0, 0, 0;
    }

    // The provider embeds every document of a batch, or the whole batch fails.
    method ProcessBatch(claims: seq<Claim>, embed: string -> Embedding, answers: bool, now: nat, nextRun: nat -> nat,
                        ghost s0: Sys, ghost known: set<Claim>) returns (stored: nat)
      requires Reached(embed, s0, Sys(store.Tables(), known, s0.made))
      requires forall i :: 0 <= i < |claims| ==> claims[i] in known
      modifies this, store
      ensures Reached(embed, s0, Sys(store.Tables(), known, s0.made))
      ensures answers ==> stored == StoredCount(old(store.Tables()), Embedded(claims, embed), now)
      ensures processed == old(processed) + stored
      ensures failed + deadLettered == old(failed + deadLettered) + if answers then 0 else |claims|
    {
      ghost var s := Sys(store.Tables(), known, s0.made);
      if answers {
        stored := store.StoreEmbeddings(Embedded(claims, embed), now);
        OneMore(embed, s0, s, Store(claims, now));
        processed := processed + stored;
      } else {
        var retried, dead := store.FailJobs(claims, maxAttempts, nextRun);
        OneMore(embed, s0, s, Fail(claims, maxAttempts, nextRun));
        failed, deadLettered := failed + retried, deadLettered + dead;
        stored := 0;
      }
    }

    // One drain pass.
    method RunOnce(embed: string -> Embedding, answers: nat -> bool, now: nat, nextRun: nat -> nat, locked: set<Slot>,
                   ghost s0: Sys, ghost known: set<Claim>) returns (stored: nat, ghost claims: set<Claim>)
      requires Kept(s0.t, s0.claims, s0.made) && generation > 0 && generation in s0.made
      requires Reached(embed, s0, Sys(store.Tables(), known, s0.made))
      modifies this, store
      ensures Reached(embed, s0, Sys(store.Tables(), claims, s0.made))
      ensures processed == old(processed) + stored
      ensures InStep(s0.t, generation) && stored == 0 && (forall b :: answers(b))
              && concurrency > 0 && batchSize > 0 ==>
        Waiting(store.Tables(), generation, now) <= locked
    {
      stored, claims := 0, known;
      for b := 0 to concurrency
        invariant Reached(embed, s0, Sys(store.Tables(), claims, s0.made))
        invariant processed == old(processed) + stored
        invariant InStep(s0.t, generation) && (forall k :: answers(k)) && batchSize > 0 && b > 0 ==> stored > 0
      {
        ghost var s := Sys(store.Tables(), claims, s0.made);
        ReachedKeeps(embed, s0, s, generation);
        var batch, picked := store.Claim(generation, workerId, now, now + leaseMs, batchSize, locked);
        ghost var take := Take(picked, workerId, now, now + leaseMs);
        OneMore(embed, s0, s, take);
        claims := claims + NewClaims(s.t, picked);
        if |batch| == 0 {
          NothingTaken(s.t, picked, workerId, now + leaseMs);
          break;
        }
        assert forall i | 0 <= i < |batch| :: batch[i] in claims;
        ghost var t := store.Tables();
        var count := ProcessBatch(batch, embed, answers(b), now, nextRun, s0, claims);
        if InStep(s.t, generation) {
          BatchStores(s.t, t, generation, picked, workerId, now + leaseMs, batch, embed, now);
        }
        stored := stored + count;
      }
    }

    static lemma NothingTaken(t: Tables, picked: set<Slot>, worker: string, until: nat)
      requires picked == {}
      ensures ClaimJobs(t, picked, worker, until) == t
    {
      assert ClaimJobs(t, picked, worker, until).jobs == t.jobs;
    }

    static lemma BatchStores(before: Tables, t: Tables, g: nat, picked: set<Slot>, worker: string, until: nat,
                             batch: seq<Claim>, embed: string -> Embedding, now: nat)
      requires InStep(before, g) && t == ClaimJobs(before, picked, worker, until)
      requires forall i :: 0 <= i < |batch| ==>
        batch[i].slot in picked && batch[i].slot in before.jobs && batch[i].slot.generation == g
        && batch[i].slot.version in before.docs && batch[i] == ClaimOf(before, batch[i].slot)
      requires forall i, j :: 0 <= i < j < |batch| ==> batch[i].slot != batch[j].slot
      ensures StoredCount(t, Embedded(batch, embed), now) == |batch|
    {
      FreshClaimsStore(t, Embedded(batch, embed), now);
    }

    // Drains until a pass stores nothing or the passes are used up. A drain that stops early, with a
    // provider that answers and no rows locked by others, leaves nothing that could be claimed.
    method Drain(embed: string -> Embedding, answers: nat -> bool, now: nat, nextRun: nat -> nat, maxPasses: nat,
                 ghost s0: Sys, ghost known: set<Claim>)
      returns (total: nat, ghost claims: set<Claim>, ghost passes: nat)
      requires Kept(s0.t, s0.claims, s0.made) && generation > 0 && generation in s0.made
      requires Reached(embed, s0, Sys(store.Tables(), known, s0.made))
      modifies this, store
      ensures Reached(embed, s0, Sys(store.Tables(), claims, s0.made)) 
      ensures InStep(s0.t, generation) ==> InStep(store.Tables(), generation)
      ensures processed == old(processed) + total
      ensures passes <= maxPasses
      ensures InStep(s0.t, generation) && passes < maxPasses && (forall b :: answers(b))
              && concurrency > 0 && batchSize > 0 ==>
        Waiting(store.Tables(), generation, now) == {}
    {
      total, claims, passes := 0, known, 0;
      for pass := 0 to maxPasses
        invariant Reached(embed, s0, Sys(store.Tables(), claims, s0.made))
        invariant processed == old(processed) + total && passes == pass
      {
        var stored;
        stored, claims := RunOnce(embed, answers, now, nextRun, {}, s0, claims);
        total := total + stored;
        if stored == 0 {
          break;
        }
        passes := passes + 1;
      }
      ReachedKeeps(embed, s0, Sys(store.Tables(), claims, s0.made), generation);
    }
  }
}
