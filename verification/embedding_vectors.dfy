/**
 Whether the vectors of the active generation are those of the texts: exactly when they stay so whatever
 happens next, and that they do when no other generation was ever active.
 */
module EmbeddingVectors {
  import opened Wrappers
  import opened EmbeddingTables
  import opened EmbeddingProtocol

  /* ---- What has to be true of jobs, vectors and claims ---- */

  // The hash of a job stands for a text that embeds like the document's.
  predicate JobTrue(embed: string -> Embedding, t: Tables, slot: Slot) {
    slot in t.jobs && slot.version in t.docs ==>
      embed(t.docs[slot.version].document) == embed(t.jobs[slot].hash.source.document)
  }

  predicate VectorTrue(embed: string -> Embedding, t: Tables, slot: Slot) {
    slot in t.vectors && t.vectors[slot].ready ==>
      t.vectors[slot].embedding == embed(t.vectors[slot].hash.source.document)
  }

  predicate ClaimTrue(embed: string -> Embedding, t: Tables, c: Claim) {
    Fenced(t, c) ==> embed(c.document) == embed(c.hash.source.document)
  }

  // An unassigned job that this generation may still adopt.
  predicate Adoptable(t: Tables, g: nat, v: nat) { Slot(v, 0) in t.jobs && Slot(v, g) !in t.jobs }

  // Jobs of the generation and those it may adopt are for their documents, ready vectors are for their
  // hashes, and so are the claims that can still be used.
  ghost predicate Truthful(embed: string -> Embedding, t: Tables, claims: set<Claim>, g: nat) {
    && (forall v :: JobTrue(embed, t, Slot(v, g)))
    && (forall v :: Adoptable(t, g, v) ==> JobTrue(embed, t, Slot(v, 0)))
    && (forall v :: VectorTrue(embed, t, Slot(v, g)))
    && (forall c :: c in claims && c.slot.generation == g ==> ClaimTrue(embed, t, c))
  }

  /* ---- Every statement keeps it while the generation is served ---- */

  // Statements that keep documents, tokens and hashes, and make no vector ready.
  lemma QuietKeepsTruth(embed: string -> Embedding, t: Tables, d: Tables, claims: set<Claim>, g: nat)
    requires Truthful(embed, t, claims, g) && d.docs == t.docs
    requires forall slot :: slot in d.jobs ==> slot in t.jobs && d.jobs[slot].hash == t.jobs[slot].hash
    requires forall slot :: slot in d.jobs ==> d.jobs[slot].token == t.jobs[slot].token
    requires forall slot :: slot in t.jobs && slot.generation != 0 ==> slot in d.jobs
    requires forall slot :: slot in d.vectors && d.vectors[slot].ready ==>
      slot in t.vectors && d.vectors[slot] == t.vectors[slot]
    requires g > 0
    ensures Truthful(embed, d, claims, g)
  {
    forall v ensures JobTrue(embed, d, Slot(v, g)) { assert JobTrue(embed, t, Slot(v, g)); }
    forall v | Adoptable(d, g, v) ensures JobTrue(embed, d, Slot(v, 0)) {
      assert Adoptable(t, g, v) && JobTrue(embed, t, Slot(v, 0));
    }
    forall v ensures VectorTrue(embed, d, Slot(v, g)) { assert VectorTrue(embed, t, Slot(v, g)); }
    forall c | c in claims && c.slot.generation == g ensures ClaimTrue(embed, d, c) { assert ClaimTrue(embed, t, c); }
  }

  lemma IndexKeepsTruth(embed: string -> Embedding, s: Sys, g: nat, v: nat, source: Source, retired: set<nat>)
    requires Kept(s.t, s.claims, s.made) && Serving(s, g) && Truthful(embed, s.t, s.claims, g)
    ensures Truthful(embed, IndexVersion(s.t, v, source, retired), s.claims, g)
  {
    var t, d := s.t, IndexVersion(s.t, v, source, retired);
    forall w ensures JobTrue(embed, d, Slot(w, g)) {
      assert JobTrue(embed, t, Slot(w, g));
      assert Slot(w, g) in t.jobs ==> Placed(t, s.made, Slot(w, g));
    }
    forall w | Adoptable(d, g, w) ensures JobTrue(embed, d, Slot(w, 0)) {
      if w != v { assert Adoptable(t, g, w) && JobTrue(embed, t, Slot(w, 0)); }
    }
    forall w ensures VectorTrue(embed, d, Slot(w, g)) { assert VectorTrue(embed, t, Slot(w, g)); }
    forall c | c in s.claims && c.slot.generation == g ensures ClaimTrue(embed, d, c) {
      assert Issued(t, s.made, c) && ClaimTrue(embed, t, c);
    }
  }

  lemma AdoptKeepsTruth(embed: string -> Embedding, s: Sys, g: nat, h: nat, now: nat)
    requires Kept(s.t, s.claims, s.made) && g > 0 && h in s.made && Truthful(embed, s.t, s.claims, g)
    ensures Truthful(embed, Adopt(s.t, h, now), s.claims, g)
  {
    var t, d := s.t, Adopt(s.t, h, now);
    forall v ensures JobTrue(embed, d, Slot(v, g)) {
      assert JobTrue(embed, t, Slot(v, g));
      if Slot(v, g) in d.jobs && Slot(v, g) !in t.jobs { assert Adoptable(t, g, v) && JobTrue(embed, t, Slot(v, 0)); }
    }
    forall v | Adoptable(d, g, v) ensures JobTrue(embed, d, Slot(v, 0)) {
      assert Adoptable(t, g, v) && JobTrue(embed, t, Slot(v, 0));
    }
    forall v ensures VectorTrue(embed, d, Slot(v, g)) { assert VectorTrue(embed, t, Slot(v, g)); }
    forall c | c in s.claims && c.slot.generation == g ensures ClaimTrue(embed, d, c) {
      assert Issued(t, s.made, c) && ClaimTrue(embed, t, c);
    }
  }

  lemma InsertKeepsTruth(embed: string -> Embedding, s: Sys, g: nat, h: nat, now: nat)
    requires Kept(s.t, s.claims, s.made) && g > 0 && h in s.made && Truthful(embed, s.t, s.claims, g)
    ensures Truthful(embed, InsertMissing(s.t, h, now), s.claims, g)
  {
    var t, d := s.t, InsertMissing(s.t, h, now);
    forall v ensures JobTrue(embed, d, Slot(v, g)) { assert JobTrue(embed, t, Slot(v, g)); }
    forall v | Adoptable(d, g, v) ensures JobTrue(embed, d, Slot(v, 0)) {
      assert Adoptable(t, g, v) && JobTrue(embed, t, Slot(v, 0));
    }
    forall v ensures VectorTrue(embed, d, Slot(v, g)) { assert VectorTrue(embed, t, Slot(v, g)); }
    forall c | c in s.claims && c.slot.generation == g ensures ClaimTrue(embed, d, c) {
      assert Issued(t, s.made, c) && ClaimTrue(embed, t, c);
    }
  }

  // A new claim is for the text its job stands for; it takes the place of the older ones.
  lemma TakeKeepsTruth(embed: string -> Embedding, s: Sys, g: nat, picked: set<Slot>, worker: string, until: nat)
    requires Kept(s.t, s.claims, s.made) && Truthful(embed, s.t, s.claims, g)
    ensures Truthful(embed, ClaimJobs(s.t, picked, worker, until), s.claims + NewClaims(s.t, picked), g)
  {
    var t, d := s.t, ClaimJobs(s.t, picked, worker, until);
    forall v ensures JobTrue(embed, d, Slot(v, g)) { assert JobTrue(embed, t, Slot(v, g)); }
    forall v | Adoptable(d, g, v) ensures JobTrue(embed, d, Slot(v, 0)) {
      assert Adoptable(t, g, v) && JobTrue(embed, t, Slot(v, 0));
    }
    forall v ensures VectorTrue(embed, d, Slot(v, g)) { assert VectorTrue(embed, t, Slot(v, g)); }
    forall c | c in s.claims + NewClaims(t, picked) && c.slot.generation == g ensures ClaimTrue(embed, d, c) {
      if c in s.claims {
        assert Issued(t, s.made, c) && ClaimTrue(embed, t, c);
      } else {
        assert c.slot == Slot(c.slot.version, g) && JobTrue(embed, t, Slot(c.slot.version, g));
      }
    }
  }

  lemma StoreOneKeepsTruth(embed: string -> Embedding, t: Tables, claims: set<Claim>, g: nat, c: Claim, now: nat)
    requires Truthful(embed, t, claims, g) && c in claims
    ensures Truthful(embed, StoreOne(t, c, embed(c.document), now), claims, g)
  {
    var d := StoreOne(t, c, embed(c.document), now);
    forall v ensures JobTrue(embed, d, Slot(v, g)) { assert JobTrue(embed, t, Slot(v, g)); }
    forall v | Adoptable(d, g, v) ensures JobTrue(embed, d, Slot(v, 0)) {
      assert Adoptable(t, g, v) && JobTrue(embed, t, Slot(v, 0));
    }
    forall v ensures VectorTrue(embed, d, Slot(v, g)) {
      assert VectorTrue(embed, t, Slot(v, g));
      assert c.slot.generation == g ==> ClaimTrue(embed, t, c);
    }
    forall b | b in claims && b.slot.generation == g ensures ClaimTrue(embed, d, b) { assert ClaimTrue(embed, t, b); }
  }

  lemma BatchKeepsTruth(embed: string -> Embedding, t: Tables, claims: set<Claim>, g: nat, batch: seq<Claim>, now: nat)
    requires Truthful(embed, t, claims, g) && forall i :: 0 <= i < |batch| ==> batch[i] in claims
    ensures Truthful(embed, StoreAll(t, Embedded(batch, embed), now), claims, g)
  {
    forall u: Tables, i | Truthful(embed, u, claims, g) && 0 <= i < |batch|
      ensures Truthful(embed, StoreOne(u, batch[i], embed(batch[i].document), now), claims, g)
    {
      StoreOneKeepsTruth(embed, u, claims, g, batch[i], now);
    }
    BatchKeeps((u: Tables) => Truthful(embed, u, claims, g), embed, t, batch, now);
  }

  lemma FailureKeepsTruth(embed: string -> Embedding, t: Tables, claims: set<Claim>, g: nat,
                          batch: seq<Claim>, max: nat, nextRun: nat -> nat)
    requires Truthful(embed, t, claims, g) && g > 0
    ensures Truthful(embed, FailAll(t, batch, max, nextRun), claims, g)
  {
    forall u: Tables, i, at | Truthful(embed, u, claims, g) && 0 <= i < |batch|
      ensures Truthful(embed, FailOne(u, batch[i], max, at), claims, g)
    {
      QuietKeepsTruth(embed, u, FailOne(u, batch[i], max, at), claims, g);
    }
    FailureKeeps((u: Tables) => Truthful(embed, u, claims, g), t, batch, max, nextRun);
  }

  lemma StepKeepsTruth(embed: string -> Embedding, s: Sys, step: Step, g: nat)
    requires Kept(s.t, s.claims, s.made) && g > 0 && Serving(s, g) && Truthful(embed, s.t, s.claims, g)
    requires Enabled(s, step) && Stays(step, g)
    ensures var b := Exec(embed, s, step); Serving(b, g) && Truthful(embed, b.t, b.claims, g)
  {
    var b := Exec(embed, s, step);
    match step
    case Index(v, source, retired) => IndexKeepsTruth(embed, s, g, v, source, retired);
    case AdoptJobs(h, now) => AdoptKeepsTruth(embed, s, g, h, now);
    case Insert(h, now) => InsertKeepsTruth(embed, s, g, h, now);
    case Take(picked, worker, _, until) => TakeKeepsTruth(embed, s, g, picked, worker, until);
    case Store(batch, now) =>
      BatchKeepsTruth(embed, s.t, s.claims, g, batch, now);
      BatchKeeps((u: Tables) => u.generation == s.t.generation, embed, s.t, batch, now);
    case Fail(batch, max, nextRun) =>
      FailureKeepsTruth(embed, s.t, s.claims, g, batch, max, nextRun);
      FailureKeeps((u: Tables) => u.generation == s.t.generation, s.t, batch, max, nextRun);
    case _ => QuietKeepsTruth(embed, s.t, b.t, s.claims, g);
  }

  lemma {:induction false} RunKeepsTruth(embed: string -> Embedding, s: Sys, steps: seq<Step>, g: nat)
    requires Kept(s.t, s.claims, s.made) && g > 0 && Serving(s, g) && Truthful(embed, s.t, s.claims, g)
    requires ValidRun(embed, s, steps) && Steady(steps, g)
    ensures var f := Final(embed, s, steps);
      Kept(f.t, f.claims, f.made) && Serving(f, g) && Truthful(embed, f.t, f.claims, g)
    decreases |steps|
  {
    if steps != [] {
      assert Stays(steps[0], g) && forall i | 0 <= i < |steps[1..]| :: steps[1..][i] == steps[i + 1];
      StepIsKept(embed, s, steps[0]);
      StepKeepsTruth(embed, s, steps[0], g);
      RunKeepsTruth(embed, Exec(embed, s, steps[0]), steps[1..], g);
    }
  }

  /* ---- Without it a run ends wrong ---- */

  // A vector is served as current and is not that of its document.
  predicate Wrong(embed: string -> Embedding, t: Tables, g: nat, v: nat) {
    Current(t, g, v) && t.vectors[Slot(v, g)].embedding != embed(t.docs[v].document)
  }

  ghost predicate CanGoWrong(embed: string -> Embedding, s: Sys, g: nat) {
    exists steps: seq<Step>, v ::
      ValidRun(embed, s, steps) && Steady(steps, g) && Wrong(embed, Final(embed, s, steps).t, g, v)
  }

  lemma WrongNow(embed: string -> Embedding, s: Sys, g: nat, v: nat)
    requires Wrong(embed, s.t, g, v)
    ensures CanGoWrong(embed, s, g)
  {
    assert ValidRun(embed, s, []) && Final(embed, s, []) == s && Steady([], g);
  }

  lemma WrongLater(embed: string -> Embedding, s: Sys, g: nat, step: Step)
    requires Enabled(s, step) && Stays(step, g) && CanGoWrong(embed, Exec(embed, s, step), g)
    ensures CanGoWrong(embed, s, g)
  {
    var rest: seq<Step>, v :| ValidRun(embed, Exec(embed, s, step), rest) && Steady(rest, g)
      && Wrong(embed, Final(embed, Exec(embed, s, step), rest).t, g, v);
    RunStarts(embed, s, step, rest);
    assert Steady([step] + rest, g);
  }

  // A false vector: the document takes on the text of its hash.
  lemma FalseVector(embed: string -> Embedding, s: Sys, g: nat, v: nat)
    requires !VectorTrue(embed, s.t, Slot(v, g))
    ensures CanGoWrong(embed, s, g)
  {
    var step := Index(v, s.t.vectors[Slot(v, g)].hash.source, {});
    WrongNow(embed, Exec(embed, s, step), g, v);
    WrongLater(embed, s, g, step);
  }

  // A false claim: the document takes on the text of the claimed hash, and the worker returns.
  lemma FalseClaim(embed: string -> Embedding, s: Sys, g: nat, c: Claim)
    requires s.t.generation == Some(g) && c in s.claims && c.slot.generation == g && !ClaimTrue(embed, s.t, c)
    ensures CanGoWrong(embed, s, g)
  {
    var index := Index(c.slot.version, c.hash.source, {});
    var m := Exec(embed, s, index);
    assert Fenced(m.t, c) && Unchanged(m.t, c);
    var b := Exec(embed, m, Store([c], 0));
    StoreSingle(embed, m.t, c);
    assert c.slot == Slot(c.slot.version, g);
    WrongNow(embed, b, g, c.slot.version);
    WrongLater(embed, m, g, Store([c], 0));
    WrongLater(embed, s, g, index);
  }

  // A false job in the queue: a worker takes it, and with it a false claim.
  lemma FalsePendingJob(embed: string -> Embedding, s: Sys, g: nat, v: nat)
    requires s.t.generation == Some(g) && g > 0 && g in s.made
    requires !JobTrue(embed, s.t, Slot(v, g)) && s.t.jobs[Slot(v, g)].state.Pending?
    ensures CanGoWrong(embed, s, g)
  {
    var slot := Slot(v, g);
    var take := Take({slot}, "", s.t.jobs[slot].nextRun, 0);
    var b := Exec(embed, s, take);
    assert ClaimOf(s.t, slot) in NewClaims(s.t, {slot});
    FalseClaim(embed, b, g, ClaimOf(s.t, slot));
    WrongLater(embed, s, g, take);
  }

  // Any false job goes back to the queue: a dead one is revived, a finished or leased one is failed by
  // the worker that claimed it.
  lemma FalseJob(embed: string -> Embedding, s: Sys, g: nat, v: nat)
    requires Kept(s.t, s.claims, s.made) && s.t.generation == Some(g) && !JobTrue(embed, s.t, Slot(v, g))
    ensures CanGoWrong(embed, s, g)
  {
    var slot := Slot(v, g);
    match s.t.jobs[slot].state
    case Pending => FalsePendingJob(embed, s, g, v);
    case Dead =>
      FalsePendingJob(embed, Exec(embed, s, Reset(g, 0)), g, v);
      WrongLater(embed, s, g, Reset(g, 0));
    case _ =>
      assert Held(s.t, s.claims, slot);
      var c :| c in s.claims && c.slot == slot && Fenced(s.t, c);
      var fail := Fail([c], c.attempts + 2, (n: nat) => 0);
      FailSingle(s.t, c, c.attempts + 2, (n: nat) => 0);
      FalsePendingJob(embed, Exec(embed, s, fail), g, v);
      WrongLater(embed, s, g, fail);
  }

  // A false unassigned job is adopted.
  lemma FalseUnassignedJob(embed: string -> Embedding, s: Sys, g: nat, v: nat)
    requires Kept(s.t, s.claims, s.made) && s.t.generation == Some(g)
    requires Adoptable(s.t, g, v) && !JobTrue(embed, s.t, Slot(v, 0))
    ensures CanGoWrong(embed, s, g)
  {
    var b := Exec(embed, s, AdoptJobs(g, 0));
    assert Adopted(s.t.jobs, Slot(v, 0), g);
    assert !JobTrue(embed, b.t, Slot(v, g)) && b.t.jobs[Slot(v, g)].state.Pending?;
    FalsePendingJob(embed, b, g, v);
    WrongLater(embed, s, g, AdoptJobs(g, 0));
  }

  /* ---- Exactly when ---- */

  // Whatever happens next, every vector served as current is that of its document's text.
  ghost predicate AgreesForever(embed: string -> Embedding, s: Sys, g: nat) {
    forall after: seq<Step>, v ::
      ValidRun(embed, s, after) && Steady(after, g) ==> !Wrong(embed, Final(embed, s, after).t, g, v)
  }

  // At any moment of any history, generations switched in any order: every vector the active generation
  // will ever serve as current is that of its document's text, as long as the generation stays active, if
  // and only if its jobs, ready vectors and usable claims are truthful at that moment.
  lemma VectorsAgreeIff(embed: string -> Embedding, before: seq<Step>, g: nat)
    requires ValidRun(embed, EMPTY, before) && Final(embed, EMPTY, before).t.generation == Some(g)
    ensures var s := Final(embed, EMPTY, before);
      AgreesForever(embed, s, g) <==> Truthful(embed, s.t, s.claims, g)
  {
    var s := Final(embed, EMPTY, before);
    RunIsKept(embed, EMPTY, before);
    if Truthful(embed, s.t, s.claims, g) {
      forall after: seq<Step>, v | ValidRun(embed, s, after) && Steady(after, g)
        ensures !Wrong(embed, Final(embed, s, after).t, g, v)
      {
        RunKeepsTruth(embed, s, after, g);
        assert VectorTrue(embed, Final(embed, s, after).t, Slot(v, g));
      }
    } else {
      UntruthGoesWrong(embed, s, g);
    }
  }

  lemma UntruthGoesWrong(embed: string -> Embedding, s: Sys, g: nat)
    requires Kept(s.t, s.claims, s.made) && s.t.generation == Some(g) && !Truthful(embed, s.t, s.claims, g)
    ensures CanGoWrong(embed, s, g)
  {
    if v :| !JobTrue(embed, s.t, Slot(v, g)) {
      FalseJob(embed, s, g, v);
    } else if v :| Adoptable(s.t, g, v) && !JobTrue(embed, s.t, Slot(v, 0)) {
      FalseUnassignedJob(embed, s, g, v);
    } else if v :| !VectorTrue(embed, s.t, Slot(v, g)) {
      FalseVector(embed, s, g, v);
    } else {
      var c :| c in s.claims && c.slot.generation == g && !ClaimTrue(embed, s.t, c);
      FalseClaim(embed, s, g, c);
    }
  }

  // In every history in which only one generation was ever activated, a ready vector whose hash is its
  // document's is the embedding of the text the document has now, however claims expired, texts changed
  // in flight and workers returned late.
  lemma VectorsAgree(embed: string -> Embedding, steps: seq<Step>, g: nat, v: nat)
    requires ValidRun(embed, EMPTY, steps) && Steady(steps, g) && g > 0
    requires Current(Final(embed, EMPTY, steps).t, g, v)
    ensures var t := Final(embed, EMPTY, steps).t; t.vectors[Slot(v, g)].embedding == embed(t.docs[v].document)
  {
    RunKeepsTruth(embed, EMPTY, steps, g);
    assert VectorTrue(embed, Final(embed, EMPTY, steps).t, Slot(v, g));
  }

  /* ---- Coverage ---- */

  lemma SubsetOfSameSize<T>(a: set<T>, b: set<T>)
    requires a <= b && |a| == |b|
    ensures a == b
  {
    assert b == a + (b - a);
  }

  // From any truthful moment on, complete coverage means what it says: every active document has the
  // embedding of its text.
  lemma CompleteMeansCovered(embed: string -> Embedding, before: seq<Step>, after: seq<Step>, g: nat, v: nat)
    requires ValidRun(embed, EMPTY, before) && g > 0
    requires var s := Final(embed, EMPTY, before);
      Serving(s, g) && Truthful(embed, s.t, s.claims, g) && ValidRun(embed, s, after) && Steady(after, g)
    requires var t := Final(embed, Final(embed, EMPTY, before), after).t;
      IndexCoverage(t, g).complete && v in t.docs && v in t.active
    ensures var t := Final(embed, Final(embed, EMPTY, before), after).t;
      Current(t, g, v) && t.vectors[Slot(v, g)].embedding == embed(t.docs[v].document)
  {
    var t := Final(embed, Final(embed, EMPTY, before), after).t;
    SubsetOfSameSize(IndexedVersions(t, g), ExpectedVersions(t));
    assert v in ExpectedVersions(t);
    RunIsKept(embed, EMPTY, before);
    RunKeepsTruth(embed, Final(embed, EMPTY, before), after, g);
    assert VectorTrue(embed, t, Slot(v, g));
  }
}
