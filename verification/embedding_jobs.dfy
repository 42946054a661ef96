/**
 What becomes of index jobs, job by job: when they can be claimed, what a stored, a changed and a failed
 claim leave behind, and how many failures end a job.
 */
module EmbeddingJobs {
  import opened Wrappers
  import opened EmbeddingTables
  import opened EmbeddingProtocol

  /* ---- When a job can be claimed ---- */

  // A job that can be claimed from a time on, and not before.
  ghost predicate FreeFrom(j: Job, time: nat) {
    forall now: nat :: Claimable(j, now) <==> time <= now
  }

  ghost predicate NeverFree(j: Job) { forall now: nat :: !Claimable(j, now) }

  // A lease keeps every other claim away until it has run out, and then the job is free again.
  lemma LeaseExcludes(t: Tables, picked: set<Slot>, worker: string, until: nat, slot: Slot)
    requires slot in t.jobs
    ensures var d := ClaimJobs(t, picked, worker, until);
      && slot in d.jobs && d.docs == t.docs && d.vectors == t.vectors
      && (slot !in picked ==> d.jobs[slot] == t.jobs[slot])
      && (slot in picked ==>
            && d.jobs[slot].token == t.jobs[slot].token + 1 && d.jobs[slot].owner == Some(worker)
            && d.jobs[slot].hash == t.jobs[slot].hash && d.jobs[slot].attempts == t.jobs[slot].attempts
            && FreeFrom(d.jobs[slot], if t.jobs[slot].nextRun <= until then until + 1 else t.jobs[slot].nextRun))
  {
  }

  /* ---- Failures ---- */

  predicate Distinct(claims: seq<Claim>) {
    forall i, j :: 0 <= i < j < |claims| ==> claims[i].slot != claims[j].slot
  }

  predicate NoneOf(claims: seq<Claim>, slot: Slot) {
    forall i :: 0 <= i < |claims| ==> claims[i].slot != slot
  }

  // The row a failure leaves: one more attempt, no lease, dead if that reaches the limit and otherwise free from
  // its backoff time on.
  ghost predicate Failed(was: Job, j: Job, c: Claim, maxAttempts: nat, backoff: nat) {
    && j.attempts == c.attempts + 1 && j.owner == None && j.leaseUntil == None
    && j.hash == was.hash && j.token == was.token
    && (j.state == Dead <==> maxAttempts <= j.attempts)
    && (j.state == Dead ==> NeverFree(j))
    && (j.state != Dead ==> j.state == Pending && FreeFrom(j, backoff))
  }

  // The fate of the job of one claim: it fails if the claim holds it, and is left alone otherwise.
  ghost predicate Fails(t: Tables, d: Tables, c: Claim, maxAttempts: nat, backoff: nat) {
    c.slot in t.jobs && c.slot in d.jobs
    && if t.jobs[c.slot].token == c.token
       then Failed(t.jobs[c.slot], d.jobs[c.slot], c, maxAttempts, backoff)
       else d.jobs[c.slot] == t.jobs[c.slot]
  }

  lemma OneFails(t: Tables, c: Claim, maxAttempts: nat, backoff: nat)
    ensures var d := FailOne(t, c, maxAttempts, backoff);
      && d == t.(jobs := d.jobs) && d.jobs.Keys == t.jobs.Keys
      && (forall slot :: slot in t.jobs && slot != c.slot ==> d.jobs[slot] == t.jobs[slot])
      && (c.slot in t.jobs ==> Fails(t, d, c, maxAttempts, backoff))
  {
  }

  lemma SameRowFails(t: Tables, u: Tables, d: Tables, c: Claim, maxAttempts: nat, backoff: nat)
    requires c.slot in t.jobs && c.slot in u.jobs && c.slot in d.jobs
    requires (u.jobs[c.slot] == t.jobs[c.slot] && Fails(u, d, c, maxAttempts, backoff))
             || (d.jobs[c.slot] == u.jobs[c.slot] && Fails(t, u, c, maxAttempts, backoff))
    ensures Fails(t, d, c, maxAttempts, backoff)
  {
  }

  // Every job of a batch that is held under the current token fails, and nothing else changes.
  lemma {:induction false} FailuresMean(t: Tables, claims: seq<Claim>, maxAttempts: nat, nextRun: nat -> nat)
    requires Distinct(claims)
    ensures var d := FailAll(t, claims, maxAttempts, nextRun);
      && d == t.(jobs := d.jobs) && d.jobs.Keys == t.jobs.Keys
      && (forall slot :: slot in t.jobs && NoneOf(claims, slot) ==> d.jobs[slot] == t.jobs[slot])
      && forall i :: 0 <= i < |claims| && claims[i].slot in t.jobs ==>
           Fails(t, d, claims[i], maxAttempts, nextRun(claims[i].attempts))
  {
    if claims != [] {
      var last := |claims| - 1;
      var init, c := claims[..last], claims[last];
      assert forall i | 0 <= i < last :: init[i] == claims[i];
      FailuresMean(t, init, maxAttempts, nextRun);
      var u, d := FailAll(t, init, maxAttempts, nextRun), FailAll(t, claims, maxAttempts, nextRun);
      OneFails(u, c, maxAttempts, nextRun(c.attempts));
      assert NoneOf(init, c.slot);
      forall slot | slot in t.jobs && NoneOf(claims, slot) ensures d.jobs[slot] == t.jobs[slot] {
        assert claims[last].slot != slot && NoneOf(init, slot);
      }
      forall i | 0 <= i < |claims| && claims[i].slot in t.jobs
        ensures Fails(t, d, claims[i], maxAttempts, nextRun(claims[i].attempts))
      {
        if i < last { assert Fails(t, u, init[i], maxAttempts, nextRun(init[i].attempts)); }
        SameRowFails(t, u, d, claims[i], maxAttempts, nextRun(claims[i].attempts));
      }
    }
  }

  function Exhausted(claims: seq<Claim>, maxAttempts: nat): nat {
    if claims == [] then 0
    else
      var last := |claims| - 1;
      Exhausted(claims[..last], maxAttempts) + if claims[last].attempts + 1 >= maxAttempts then 1 else 0
  }

  // Positions of the claims whose job is dead in some tables.
  function DeadAt(jobs: map<Slot, Job>, claims: seq<Claim>): set<nat> {
    set i: nat | 0 <= i < |claims| && claims[i].slot in jobs && jobs[claims[i].slot].state == Dead
  }

  lemma {:induction false} ExhaustedAre(claims: seq<Claim>, maxAttempts: nat, jobs: map<Slot, Job>)
    requires forall i :: 0 <= i < |claims| ==> claims[i].slot in jobs
    requires forall i :: 0 <= i < |claims| ==>
      (jobs[claims[i].slot].state == Dead <==> maxAttempts <= claims[i].attempts + 1)
    ensures Exhausted(claims, maxAttempts) == |DeadAt(jobs, claims)|
  {
    if claims == [] {
      assert DeadAt(jobs, claims) == {};
    } else {
      var last: nat := |claims| - 1;
      assert forall i | 0 <= i < last :: claims[..last][i] == claims[i];
      ExhaustedAre(claims[..last], maxAttempts, jobs);
      OneMoreDead(jobs, claims);
    }
  }

  lemma OneMoreDead(jobs: map<Slot, Job>, claims: seq<Claim>)
    requires claims != []
    ensures var last := |claims| - 1;
      |DeadAt(jobs, claims)| == |DeadAt(jobs, claims[..last])|
        + if claims[last].slot in jobs && jobs[claims[last].slot].state == Dead then 1 else 0
  {
    var last: nat := |claims| - 1;
    var before := DeadAt(jobs, claims[..last]);
    assert forall i | 0 <= i < last :: claims[..last][i] == claims[i];
    if claims[last].slot in jobs && jobs[claims[last].slot].state == Dead {
      assert DeadAt(jobs, claims) == before + {last};
      assert last !in before;
    } else {
      assert DeadAt(jobs, claims) == before;
    }
  }

  predicate AllHeld(t: Tables, claims: seq<Claim>) {
    forall i :: 0 <= i < |claims| ==> claims[i].slot in t.jobs && t.jobs[claims[i].slot].token == claims[i].token
  }

  // For distinct jobs that are all still held the count of dead ones is the number of dead rows.
  lemma DeadAreCounted(t: Tables, claims: seq<Claim>, maxAttempts: nat, nextRun: nat -> nat)
    requires Distinct(claims)
    requires AllHeld(t, claims)
    ensures var d := FailAll(t, claims, maxAttempts, nextRun);
      Exhausted(claims, maxAttempts) == |DeadAt(d.jobs, claims)|
  {
    FailuresMean(t, claims, maxAttempts, nextRun);
    var d := FailAll(t, claims, maxAttempts, nextRun);
    forall i | 0 <= i < |claims|
      ensures d.jobs[claims[i].slot].state == Dead <==> maxAttempts <= claims[i].attempts + 1
    {
      assert Fails(t, d, claims[i], maxAttempts, nextRun(claims[i].attempts));
    }
    ExhaustedAre(claims, maxAttempts, d.jobs);
  }

  /* ---- How often a job is retried ---- */

  // k rounds of taking a job and failing it.
  function Rounds(t: Tables, slot: Slot, worker: string, until: nat, max: nat, nextRun: nat -> nat, k: nat): Tables {
    if k == 0 then t
    else
      var p := Rounds(t, slot, worker, until, max, nextRun, k - 1);
      if slot in p.jobs && slot.version in p.docs
      then FailAll(ClaimJobs(p, {slot}, worker, until), [ClaimOf(p, slot)], max, nextRun)
      else p
  }

  // One round: the job has one more attempt, and is free again from its backoff on unless that was the last.
  lemma OneRound(p: Tables, slot: Slot, worker: string, until: nat, max: nat, nextRun: nat -> nat)
    requires slot in p.jobs && slot.version in p.docs
    ensures var d := FailAll(ClaimJobs(p, {slot}, worker, until), [ClaimOf(p, slot)], max, nextRun);
      && slot in d.jobs && d.docs == p.docs
      && d.jobs[slot].attempts == p.jobs[slot].attempts + 1 && d.jobs[slot].hash == p.jobs[slot].hash
      && (d.jobs[slot].attempts < max ==>
            d.jobs[slot].state == Pending && FreeFrom(d.jobs[slot], nextRun(p.jobs[slot].attempts)))
      && (max <= d.jobs[slot].attempts ==> d.jobs[slot].state == Dead && NeverFree(d.jobs[slot]))
  {
    var taken, c := ClaimJobs(p, {slot}, worker, until), ClaimOf(p, slot);
    FailuresMean(taken, [c], max, nextRun);
    assert [c][0].slot in taken.jobs && taken.jobs[slot].token == c.token;
    assert Fails(taken, FailAll(taken, [c], max, nextRun), [c][0], max, nextRun([c][0].attempts));
  }

  // After k rounds of a new job: k attempts; if that is below the limit it is free again from the last backoff on, and
  // if it reaches the limit it is dead.
  ghost predicate Retried(t: Tables, d: Tables, slot: Slot, max: nat, nextRun: nat -> nat, k: nat)
    requires slot in t.jobs
  {
    && slot in d.jobs && d.docs == t.docs && d.jobs[slot].attempts == k && d.jobs[slot].hash == t.jobs[slot].hash
    && (0 < k < max ==> d.jobs[slot].state == Pending && FreeFrom(d.jobs[slot], nextRun((k - 1) as nat)))
    && (0 < k == max ==> d.jobs[slot].state == Dead && NeverFree(d.jobs[slot]))
  }

  lemma OneMoreRound(t: Tables, p: Tables, slot: Slot, worker: string, until: nat, max: nat, nextRun: nat -> nat,
                     k: nat)
    requires slot in t.jobs && slot.version in t.docs && 0 < k <= max && Retried(t, p, slot, max, nextRun, k - 1)
    ensures Retried(t, FailAll(ClaimJobs(p, {slot}, worker, until), [ClaimOf(p, slot)], max, nextRun),
                    slot, max, nextRun, k)
  {
    OneRound(p, slot, worker, until, max, nextRun);
  }

  // A new job with a limit of max attempts is retried, each time from its backoff on, until the max-th failure and
  // not longer: that one ends it.
  lemma {:induction false} RetriesEnd(t: Tables, slot: Slot, worker: string, until: nat, max: nat,
                                      nextRun: nat -> nat, k: nat)
    requires slot in t.jobs && slot.version in t.docs && t.jobs[slot].attempts == 0 && t.jobs[slot].state == Pending
    requires k <= max
    ensures Retried(t, Rounds(t, slot, worker, until, max, nextRun, k), slot, max, nextRun, k)
  {
    if k > 0 {
      RetriesEnd(t, slot, worker, until, max, nextRun, k - 1);
      OneMoreRound(t, Rounds(t, slot, worker, until, max, nextRun, k - 1), slot, worker, until, max, nextRun, k);
    }
  }

  /* ---- Stores ---- */

  // What an entry leaves: nothing if the job was claimed again; the vector and a finished job if the text is still
  // the claimed one; otherwise a job that is free from now on.
  ghost predicate Stored(t: Tables, d: Tables, c: Claim, e: Embedding, now: nat) {
    && c.slot in t.jobs && c.slot in d.jobs
    && var was, j := t.jobs[c.slot], d.jobs[c.slot];
       if was.token != c.token then j == was && SameVector(t, d, c.slot)
       else
         && j.owner == None && j.leaseUntil == None && j.hash == was.hash && j.token == was.token
         && j.attempts == was.attempts
         && if c.slot.version in t.docs && HashOf(t.docs[c.slot.version]) == c.hash
            then j.state == Done && NeverFree(j)
                 && c.slot in d.vectors && d.vectors[c.slot] == Vector(c.hash, e, true)
            else j.state == Pending && FreeFrom(j, now) && SameVector(t, d, c.slot)
  }

  predicate SameVector(t: Tables, d: Tables, slot: Slot) {
    (slot in d.vectors <==> slot in t.vectors) && (slot in t.vectors ==> d.vectors[slot] == t.vectors[slot])
  }

  predicate DistinctEntries(entries: seq<(Claim, Embedding)>) {
    forall i, j :: 0 <= i < j < |entries| ==> entries[i].0.slot != entries[j].0.slot
  }

  predicate NoEntry(entries: seq<(Claim, Embedding)>, slot: Slot) {
    forall i :: 0 <= i < |entries| ==> entries[i].0.slot != slot
  }

  lemma OneIsStored(t: Tables, c: Claim, e: Embedding, now: nat)
    ensures var d := StoreOne(t, c, e, now);
      && d == t.(jobs := d.jobs, vectors := d.vectors) && d.jobs.Keys == t.jobs.Keys
      && (forall slot :: slot != c.slot ==>
            SameVector(t, d, slot) && (slot in t.jobs ==> d.jobs[slot] == t.jobs[slot]))
      && (c.slot in t.jobs ==> Stored(t, d, c, e, now))
  {
  }

  lemma SameRowIsStored(t: Tables, u: Tables, d: Tables, c: Claim, e: Embedding, now: nat)
    requires c.slot in t.jobs && c.slot in u.jobs && c.slot in d.jobs && u.docs == t.docs
    requires (u.jobs[c.slot] == t.jobs[c.slot] && SameVector(t, u, c.slot) && Stored(u, d, c, e, now))
             || (d.jobs[c.slot] == u.jobs[c.slot] && SameVector(u, d, c.slot) && Stored(t, u, c, e, now))
    ensures Stored(t, d, c, e, now)
  {
  }

  // A batch does to each of its jobs what its entry says, and nothing to any other.
  lemma {:induction false} StoresMean(t: Tables, entries: seq<(Claim, Embedding)>, now: nat)
    requires DistinctEntries(entries)
    ensures var d := StoreAll(t, entries, now);
      && d == t.(jobs := d.jobs, vectors := d.vectors) && d.jobs.Keys == t.jobs.Keys
      && (forall slot :: NoEntry(entries, slot) ==>
            SameVector(t, d, slot) && (slot in t.jobs ==> d.jobs[slot] == t.jobs[slot]))
      && forall i :: 0 <= i < |entries| && entries[i].0.slot in t.jobs ==>
           Stored(t, d, entries[i].0, entries[i].1, now)
  {
    if entries != [] {
      var last := |entries| - 1;
      var init := entries[..last];
      assert forall i | 0 <= i < last :: init[i] == entries[i];
      StoresMean(t, init, now);
      var u, d := StoreAll(t, init, now), StoreAll(t, entries, now);
      OneIsStored(u, entries[last].0, entries[last].1, now);
      assert NoEntry(init, entries[last].0.slot);
      forall slot | NoEntry(entries, slot)
        ensures SameVector(t, d, slot) && (slot in t.jobs ==> d.jobs[slot] == t.jobs[slot])
      {
        assert entries[last].0.slot != slot && NoEntry(init, slot);
      }
      forall i | 0 <= i < |entries| && entries[i].0.slot in t.jobs
        ensures Stored(t, d, entries[i].0, entries[i].1, now)
      {
        if i < last { assert Stored(t, u, init[i].0, init[i].1, now); }
        SameRowIsStored(t, u, d, entries[i].0, entries[i].1, now);
      }
    }
  }

  /* ---- Queueing ---- */

  function Earlier(a: nat, b: nat): nat { if b < a then b else a }

  // Inserting the missing work gives every active document without a current vector a job for its text: a new one
  // is free at once, a dead one stays dead, a finished one for that text stays finished, and any other is queued
  // again, free no later than now. Nothing else changes.
  lemma InsertingQueues(t: Tables, g: nat, now: nat, v: nat)
    requires v in t.docs
    ensures var d, slot := InsertMissing(t, g, now), Slot(v, g);
      && d.docs == t.docs && d.vectors == t.vectors
      && (v in t.active && !Current(t, g, v) ==>
            && slot in d.jobs && d.jobs[slot].hash == HashOf(t.docs[v])
            && (slot !in t.jobs ==> d.jobs[slot].attempts == 0 && FreeFrom(d.jobs[slot], now))
            && (slot in t.jobs ==>
                  var was, j := t.jobs[slot], d.jobs[slot];
                  && j.attempts == was.attempts && j.token == was.token
                  && (was.state == Dead ==> j.state == Dead)
                  && (was.state == Done && was.hash == j.hash ==> j.state == Done)
                  && (was.state != Dead && !(was.state == Done && was.hash == j.hash) ==>
                        FreeFrom(j, Earlier(was.nextRun, now)))))
      && (v !in t.active || Current(t, g, v) ==>
            (slot in d.jobs <==> slot in t.jobs) && (slot in t.jobs ==> d.jobs[slot] == t.jobs[slot]))
  {
  }

  // An unassigned job moves to the generation and is free from now on, unless the generation has one already.
  lemma AdoptionQueues(t: Tables, g: nat, now: nat, v: nat)
    requires g > 0
    ensures var d := Adopt(t, g, now);
      && d.docs == t.docs && d.vectors == t.vectors
      && (Slot(v, g) in t.jobs ==> Slot(v, g) in d.jobs && d.jobs[Slot(v, g)] == t.jobs[Slot(v, g)])
      && (Slot(v, g) !in t.jobs && Slot(v, 0) in t.jobs ==>
            && Slot(v, g) in d.jobs && Slot(v, 0) !in d.jobs && FreeFrom(d.jobs[Slot(v, g)], now)
            && d.jobs[Slot(v, g)].hash == t.jobs[Slot(v, 0)].hash)
      && (Slot(v, g) !in t.jobs && Slot(v, 0) !in t.jobs ==> Slot(v, g) !in d.jobs)
  {
    assert Adopted(t.jobs, Slot(v, 0), g) <==> Slot(v, 0) in t.jobs && Slot(v, g) !in t.jobs;
  }

  // Reviving frees exactly the dead jobs of the generation, with all their attempts back.
  lemma RevivingFrees(t: Tables, g: nat, now: nat, slot: Slot)
    requires slot in t.jobs
    ensures var was, d := t.jobs[slot], Revive(t, g, now);
      && slot in d.jobs
      && (slot.generation == g && was.state == Dead ==>
            d.jobs[slot].attempts == 0 && FreeFrom(d.jobs[slot], now) && d.jobs[slot].hash == was.hash)
      && (slot.generation != g || was.state != Dead ==> d.jobs[slot] == was)
  {
  }

  // A changed text puts the job of the active generation back in the queue; the same text leaves it as it is.
  lemma IndexingQueues(t: Tables, v: nat, source: Source, retired: set<nat>)
    ensures var d := IndexVersion(t, v, source, retired);
      var slot := Slot(v, if t.generation.Some? then t.generation.value else 0);
      && v in d.docs && d.docs[v] == source && v in d.active && d.vectors == t.vectors
      && slot in d.jobs && d.jobs[slot].hash == HashOf(source)
      && (slot !in t.jobs ==> d.jobs[slot].attempts == 0 && FreeFrom(d.jobs[slot], 0))
      && (slot in t.jobs && t.jobs[slot].hash == HashOf(source) ==> d.jobs[slot] == t.jobs[slot])
      && (slot in t.jobs && t.jobs[slot].hash != HashOf(source) ==>
            FreeFrom(d.jobs[slot], t.jobs[slot].nextRun) && d.jobs[slot].attempts == t.jobs[slot].attempts)
      && forall other :: other in t.jobs && other != slot ==> other in d.jobs && d.jobs[other] == t.jobs[other]
  {
  }

  /* ---- Coverage ---- */

  // The numbers of a coverage report: active documents, those with a ready vector of their text, jobs that wait or
  // are leased, and dead jobs.
  lemma CoverageCounts(t: Tables, g: nat)
    ensures var c := IndexCoverage(t, g);
      && c.expected == |set v | v in t.docs && v in t.active|
      && c.indexed == |set v | v in t.docs && v in t.active && Slot(v, g) in t.vectors && t.vectors[Slot(v, g)].ready
                                && t.vectors[Slot(v, g)].hash == HashOf(t.docs[v])|
      && c.pending == |set slot | slot in t.jobs && slot.generation == g
                                  && (t.jobs[slot].state == Pending || t.jobs[slot].state == Leased)|
      && c.failed == |set slot | slot in t.jobs && slot.generation == g && t.jobs[slot].state == Dead|
  {
    assert ExpectedVersions(t) == set v | v in t.docs && v in t.active;
    assert IndexedVersions(t, g) == set v | v in t.docs && v in t.active && Slot(v, g) in t.vectors
      && t.vectors[Slot(v, g)].ready && t.vectors[Slot(v, g)].hash == HashOf(t.docs[v]);
    assert InState(t, g, {Pending, Leased}) == set slot | slot in t.jobs && slot.generation == g
      && (t.jobs[slot].state == Pending || t.jobs[slot].state == Leased);
    assert InState(t, g, {Dead}) == set slot | slot in t.jobs && slot.generation == g && t.jobs[slot].state == Dead;
  }
}
