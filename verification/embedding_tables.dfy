/**
 The embedding queue as values: search documents, index jobs, vectors per model generation, and what
 each statement of the catalog, of the search store and of its workers does to them.
 */
module EmbeddingTables {
  import opened Wrappers

  // What is hashed: the document that gets embedded, and the parts that only lexical search reads.
  datatype Source = Source(document: string, lexical: string)
  // A source hash stands for exactly one source.
  datatype Hash = HashOf(source: Source)

  type Embedding = seq<real>

  datatype JobState = Pending | Leased | Done | Dead
  datatype Job = Job(
    hash: Hash, state: JobState, token: nat, attempts: nat,
    owner: Option<string>, leaseUntil: Option<nat>, nextRun: nat)

  // Jobs and vectors are unique per version and generation; generation 0 is "not assigned yet".
  datatype Slot = Slot(version: nat, generation: nat)

  datatype Vector = Vector(hash: Hash, embedding: Embedding, ready: bool)

  datatype Tables = Tables(
    docs: map<nat, Source>, active: set<nat>, jobs: map<Slot, Job>, vectors: map<Slot, Vector>, generation: Option<nat>)

  // What a worker holds after claiming a job.
  datatype Claim = Claim(slot: Slot, hash: Hash, document: string, token: nat, attempts: nat)

  datatype Coverage = Coverage(expected: nat, indexed: nat, pending: nat, failed: nat, complete: bool)

  // The vector of a version is that of its current text.
  predicate Current(t: Tables, g: nat, v: nat) {
    && v in t.docs && Slot(v, g) in t.vectors
    && t.vectors[Slot(v, g)].ready && t.vectors[Slot(v, g)].hash == HashOf(t.docs[v])
  }

  /* ---- Request path ---- */

  function Queued(jobs: map<Slot, Job>, slot: Slot, hash: Hash): Job {
    if slot !in jobs then Job(hash, Pending, 0, 0, None, None, 0)
    else jobs[slot].(hash := hash, state := if jobs[slot].hash == hash then jobs[slot].state else Pending)
  }

  // A version becomes, or stays, active; `retired` are the versions it supersedes.
  function IndexVersion(t: Tables, v: nat, source: Source, retired: set<nat>): Tables {
    var slot := Slot(v, t.generation.GetOr(0));
    t.(docs := t.docs[v := source], active := t.active - retired + {v},
       jobs := t.jobs[slot := Queued(t.jobs, slot, HashOf(source))])
  }

  /* ---- Generations ---- */

  function ActivateGeneration(t: Tables, g: nat): Tables { t.(generation := Some(g)) }

  predicate Adopted(jobs: map<Slot, Job>, slot: Slot, g: nat) {
    slot in jobs && slot.generation == 0 && Slot(slot.version, g) !in jobs
  }

  // Jobs written before there was a generation move to this one.
  function Adopt(t: Tables, g: nat, now: nat): Tables {
    var moved := set slot | slot in t.jobs && Adopted(t.jobs, slot, g) :: Slot(slot.version, g);
    t.(jobs := map slot | slot in t.jobs.Keys + moved && !Adopted(t.jobs, slot, g) ::
         if slot in t.jobs then t.jobs[slot] else t.jobs[Slot(slot.version, 0)].(state := Pending, nextRun := now))
  }

  function DropUnassigned(t: Tables): Tables {
    t.(jobs := map slot | slot in t.jobs && slot.generation != 0 :: t.jobs[slot])
  }

  predicate Missing(t: Tables, g: nat, v: nat) { v in t.docs && v in t.active && !Current(t, g, v) }

  function Requeued(t: Tables, slot: Slot, hash: Hash, now: nat): Job {
    if slot !in t.jobs then Job(hash, Pending, 0, 0, None, None, now)
    else
      var j := t.jobs[slot];
      j.(hash := hash,
         state := if j.state.Dead? then Dead else if j.hash == hash && j.state.Done? then Done else Pending,
         nextRun := if j.nextRun < now then j.nextRun else now)
  }

  // A job for every active document without a current vector.
  function InsertMissing(t: Tables, g: nat, now: nat): Tables {
    var wanted := set v | v in t.docs && Missing(t, g, v) :: Slot(v, g);
    t.(jobs := map slot | slot in t.jobs.Keys + wanted ::
         if slot in wanted then Requeued(t, slot, HashOf(t.docs[slot.version]), now) else t.jobs[slot])
  }

  /* ---- Workers ---- */

  predicate Claimable(j: Job, now: nat) {
    j.nextRun <= now && (j.state.Pending? || (j.state.Leased? && j.leaseUntil.Some? && j.leaseUntil.value < now))
  }

  function Lease(j: Job, worker: string, until: nat): Job {
    j.(state := Leased, owner := Some(worker), leaseUntil := Some(until), token := j.token + 1)
  }

  function ClaimJobs(t: Tables, picked: set<Slot>, worker: string, until: nat): Tables {
    t.(jobs := map slot | slot in t.jobs ::
         if slot in picked then Lease(t.jobs[slot], worker, until) else t.jobs[slot])
  }

  // The claim a worker gets for one of the picked jobs.
  function ClaimOf(t: Tables, slot: Slot): Claim
    requires slot in t.jobs && slot.version in t.docs
  {
    Claim(slot, t.jobs[slot].hash, t.docs[slot.version].document, t.jobs[slot].token + 1, t.jobs[slot].attempts)
  }

  predicate Fenced(t: Tables, c: Claim) { c.slot in t.jobs && t.jobs[c.slot].token == c.token }

  predicate Unchanged(t: Tables, c: Claim) { c.slot.version in t.docs && HashOf(t.docs[c.slot.version]) == c.hash }

  // One entry of a batch: nothing when the fence is lost, back to the queue when the text changed.
  function StoreOne(t: Tables, c: Claim, e: Embedding, now: nat): Tables {
    if !Fenced(t, c) then t
    else if !Unchanged(t, c) then
      t.(jobs := t.jobs[c.slot := t.jobs[c.slot].(state := Pending, owner := None, leaseUntil := None, nextRun := now)])
    else
      t.(vectors := t.vectors[c.slot := Vector(c.hash, e, true)],
         jobs := t.jobs[c.slot := t.jobs[c.slot].(state := Done, owner := None, leaseUntil := None)])
  }

  function StoreAll(t: Tables, entries: seq<(Claim, Embedding)>, now: nat): Tables {
    if entries == [] then t
    else
      var last := |entries| - 1;
      StoreOne(StoreAll(t, entries[..last], now), entries[last].0, entries[last].1, now)
  }

  function FailOne(t: Tables, c: Claim, maxAttempts: nat, nextRun: nat): Tables {
    if !Fenced(t, c) then t
    else
      t.(jobs := t.jobs[c.slot := t.jobs[c.slot].(
           attempts := c.attempts + 1, state := if c.attempts + 1 >= maxAttempts then Dead else Pending,
           owner := None, leaseUntil := None, nextRun := nextRun)])
  }

  function FailAll(t: Tables, claims: seq<Claim>, maxAttempts: nat, nextRun: nat -> nat): Tables {
    if claims == [] then t
    else
      var last := |claims| - 1;
      var before := FailAll(t, claims[..last], maxAttempts, nextRun);
      FailOne(before, claims[last], maxAttempts, nextRun(claims[last].attempts))
  }

  function MarkStale(t: Tables, g: nat): Tables {
    t.(vectors := map slot | slot in t.vectors ::
         var x := t.vectors[slot];
         if slot.generation == g && slot.version in t.docs && x.ready && x.hash != HashOf(t.docs[slot.version])
         then x.(ready := false) else x)
  }

  function Revive(t: Tables, g: nat, now: nat): Tables {
    t.(jobs := map slot | slot in t.jobs ::
         if slot.generation == g && t.jobs[slot].state.Dead?
         then t.jobs[slot].(state := Pending, attempts := 0, nextRun := now) else t.jobs[slot])
  }

  /* ---- Coverage ---- */

  function ExpectedVersions(t: Tables): set<nat> { set v | v in t.docs && v in t.active }

  function IndexedVersions(t: Tables, g: nat): set<nat> { set v | v in t.docs && v in t.active && Current(t, g, v) }

  function InState(t: Tables, g: nat, states: set<JobState>): set<Slot> {
    set slot | slot in t.jobs && slot.generation == g && t.jobs[slot].state in states
  }

  function IndexCoverage(t: Tables, g: nat): Coverage {
    var expected, indexed := |ExpectedVersions(t)|, |IndexedVersions(t, g)|;
    var pending, failed := |InState(t, g, {Pending, Leased})|, |InState(t, g, {Dead})|;
    Coverage(expected, indexed, pending, failed, expected == indexed && pending == 0 && failed == 0)
  }
}
