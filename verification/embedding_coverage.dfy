/**
 Whether the queue of the active generation ever forgets a document, and what complete coverage says
 about the queue.
 */
module EmbeddingCoverage {
  import opened Wrappers
  import opened EmbeddingTables
  import opened EmbeddingProtocol

  /* ---- Nothing is forgotten ---- */

  // Every active document has a current vector, or a job that somebody still has to finish.
  predicate Served(t: Tables, g: nat, v: nat) {
    v in t.docs && v in t.active ==>
      Current(t, g, v) || (Slot(v, g) in t.jobs && !t.jobs[Slot(v, g)].state.Done?)
  }

  // A finished job is for its document and has its vector; a job that is for another text is not about to
  // be finished by a claim for this one.
  ghost predicate JobAccounted(t: Tables, claims: set<Claim>, slot: Slot) {
    slot in t.jobs && slot.version in t.docs ==>
      && (t.jobs[slot].state.Done? ==>
            t.jobs[slot].hash == HashOf(t.docs[slot.version]) && Current(t, slot.generation, slot.version))
      && (t.jobs[slot].hash != HashOf(t.docs[slot.version]) ==>
            forall c :: c in claims && c.slot == slot && Fenced(t, c) ==> !Unchanged(t, c))
  }

  ghost predicate Accounted(t: Tables, claims: set<Claim>, g: nat) {
    forall v :: JobAccounted(t, claims, Slot(v, g))
  }

  // Every active document has a current vector or a job.
  predicate Tracked(t: Tables, g: nat) {
    forall v :: v in t.docs && v in t.active ==> Current(t, g, v) || Slot(v, g) in t.jobs
  }

  lemma TrackedIsServed(t: Tables, claims: set<Claim>, g: nat)
    requires Accounted(t, claims, g) && Tracked(t, g)
    ensures forall v :: Served(t, g, v)
  {
    forall v ensures Served(t, g, v) {
      assert JobAccounted(t, claims, Slot(v, g));
    }
  }

  lemma InsertTracks(t: Tables, g: nat, now: nat)
    ensures Tracked(InsertMissing(t, g, now), g)
  {
    var d := InsertMissing(t, g, now);
    forall v | v in d.docs && v in d.active ensures Current(d, g, v) || Slot(v, g) in d.jobs {
      if !Current(t, g, v) { assert Missing(t, g, v); }
    }
  }

  /* ---- Every statement keeps the account while the generation is served ---- */

  // Statements that change no document, finish no job and take no vector of a finished one.
  lemma QuietKeepsAccount(t: Tables, d: Tables, claims: set<Claim>, g: nat)
    requires Accounted(t, claims, g) && g > 0 && d.docs == t.docs
    requires forall slot :: slot in d.jobs && slot.generation == g ==> (
      && slot in t.jobs && d.jobs[slot].hash == t.jobs[slot].hash && d.jobs[slot].token == t.jobs[slot].token
      && (d.jobs[slot].state.Done? ==> t.jobs[slot].state.Done?))
    requires forall v :: Current(t, g, v) ==> Current(d, g, v)
    ensures Accounted(d, claims, g)
  {
    forall v ensures JobAccounted(d, claims, Slot(v, g)) { assert JobAccounted(t, claims, Slot(v, g)); }
  }

  lemma IndexKeepsAccount(s: Sys, g: nat, v: nat, source: Source, retired: set<nat>)
    requires Kept(s.t, s.claims, s.made) && g > 0 && Serving(s, g) && Accounted(s.t, s.claims, g)
    ensures Accounted(IndexVersion(s.t, v, source, retired), s.claims, g)
  {
    var d := IndexVersion(s.t, v, source, retired);
    forall w ensures JobAccounted(d, s.claims, Slot(w, g)) {
      assert JobAccounted(s.t, s.claims, Slot(w, g));
      assert Slot(w, g) in s.t.jobs ==> Placed(s.t, s.made, Slot(w, g));
    }
  }

  lemma AdoptKeepsAccount(s: Sys, g: nat, h: nat, now: nat)
    requires Kept(s.t, s.claims, s.made) && g > 0 && Accounted(s.t, s.claims, g)
    ensures Accounted(Adopt(s.t, h, now), s.claims, g)
  {
    var d := Adopt(s.t, h, now);
    forall v ensures JobAccounted(d, s.claims, Slot(v, g)) {
      assert JobAccounted(s.t, s.claims, Slot(v, g));
      assert forall c | c in s.claims :: Issued(s.t, s.made, c);
    }
  }

  lemma InsertKeepsAccount(s: Sys, g: nat, h: nat, now: nat)
    requires Kept(s.t, s.claims, s.made) && g > 0 && Accounted(s.t, s.claims, g)
    ensures Accounted(InsertMissing(s.t, h, now), s.claims, g)
  {
    var d := InsertMissing(s.t, h, now);
    forall v ensures JobAccounted(d, s.claims, Slot(v, g)) {
      assert JobAccounted(s.t, s.claims, Slot(v, g));
      assert forall c | c in s.claims :: Issued(s.t, s.made, c);
    }
  }

  lemma TakeKeepsAccount(s: Sys, g: nat, picked: set<Slot>, worker: string, now: nat, until: nat)
    requires Kept(s.t, s.claims, s.made) && Accounted(s.t, s.claims, g)
    requires Enabled(s, Take(picked, worker, now, until))
    ensures Accounted(ClaimJobs(s.t, picked, worker, until), s.claims + NewClaims(s.t, picked), g)
  {
    var d, after := ClaimJobs(s.t, picked, worker, until), s.claims + NewClaims(s.t, picked);
    forall v ensures JobAccounted(d, after, Slot(v, g)) {
      assert JobAccounted(s.t, s.claims, Slot(v, g));
      assert forall c | c in s.claims :: Issued(s.t, s.made, c);
    }
  }

  lemma StoreOneKeepsAccount(t: Tables, claims: set<Claim>, g: nat, c: Claim, e: Embedding, now: nat)
    requires Accounted(t, claims, g) && c in claims
    ensures Accounted(StoreOne(t, c, e, now), claims, g)
  {
    var d := StoreOne(t, c, e, now);
    forall v ensures JobAccounted(d, claims, Slot(v, g)) { assert JobAccounted(t, claims, Slot(v, g)); }
  }

  lemma BatchKeepsAccount(embed: string -> Embedding, t: Tables, claims: set<Claim>, g: nat, batch: seq<Claim>,
      now: nat)
    requires Accounted(t, claims, g) && forall i :: 0 <= i < |batch| ==> batch[i] in claims
    ensures Accounted(StoreAll(t, Embedded(batch, embed), now), claims, g)
  {
    forall u: Tables, i | Accounted(u, claims, g) && 0 <= i < |batch|
      ensures Accounted(StoreOne(u, batch[i], embed(batch[i].document), now), claims, g)
    {
      StoreOneKeepsAccount(u, claims, g, batch[i], embed(batch[i].document), now);
    }
    BatchKeeps((u: Tables) => Accounted(u, claims, g), embed, t, batch, now);
  }

  lemma FailureKeepsAccount(t: Tables, claims: set<Claim>, g: nat, batch: seq<Claim>, max: nat, nextRun: nat -> nat)
    requires Accounted(t, claims, g) && g > 0
    ensures Accounted(FailAll(t, batch, max, nextRun), claims, g)
  {
    forall u: Tables, i, at | Accounted(u, claims, g) && 0 <= i < |batch|
      ensures Accounted(FailOne(u, batch[i], max, at), claims, g)
    {
      QuietKeepsAccount(u, FailOne(u, batch[i], max, at), claims, g);
    }
    FailureKeeps((u: Tables) => Accounted(u, claims, g), t, batch, max, nextRun);
  }

  lemma StepKeepsAccount(embed: string -> Embedding, s: Sys, step: Step, g: nat)
    requires Kept(s.t, s.claims, s.made) && g > 0 && Serving(s, g) && Accounted(s.t, s.claims, g)
    requires Enabled(s, step) && Stays(step, g)
    ensures var b := Exec(embed, s, step); Serving(b, g) && Accounted(b.t, b.claims, g)
  {
    var b := Exec(embed, s, step);
    match step
    case Index(v, source, retired) => IndexKeepsAccount(s, g, v, source, retired);
    case AdoptJobs(h, now) => AdoptKeepsAccount(s, g, h, now);
    case Insert(h, now) => InsertKeepsAccount(s, g, h, now);
    case Take(picked, worker, now, until) => TakeKeepsAccount(s, g, picked, worker, now, until);
    case Store(batch, now) =>
      BatchKeepsAccount(embed, s.t, s.claims, g, batch, now);
      BatchKeeps((u: Tables) => u.generation == s.t.generation, embed, s.t, batch, now);
    case Fail(batch, max, nextRun) =>
      FailureKeepsAccount(s.t, s.claims, g, batch, max, nextRun);
      FailureKeeps((u: Tables) => u.generation == s.t.generation, s.t, batch, max, nextRun);
    case _ => QuietKeepsAccount(s.t, b.t, s.claims, g);
  }

  /* ---- Tracked documents stay tracked ---- */

  lemma StepTracks(embed: string -> Embedding, s: Sys, step: Step, g: nat)
    requires s.t.generation == Some(g) && g > 0 && Enabled(s, step) && Tracked(s.t, g) && Stays(step, g)
    ensures Tracked(Exec(embed, s, step).t, g)
  {
    var b := Exec(embed, s, step);
    match step
    case Store(batch, now) => BatchKeeps((u: Tables) => Tracked(u, g), embed, s.t, batch, now);
    case Fail(batch, max, nextRun) => FailureKeeps((u: Tables) => Tracked(u, g), s.t, batch, max, nextRun);
    case Stale(h) =>
      forall v | v in b.t.docs && v in b.t.active ensures Current(b.t, g, v) || Slot(v, g) in b.t.jobs {
        assert Current(s.t, g, v) ==> Current(b.t, g, v);
      }
    case _ =>
  }

  lemma {:induction false} RunKeepsAccount(embed: string -> Embedding, s: Sys, steps: seq<Step>, g: nat)
    requires Kept(s.t, s.claims, s.made) && g > 0 && Serving(s, g) && Accounted(s.t, s.claims, g)
    requires ValidRun(embed, s, steps) && Steady(steps, g)
    ensures var f := Final(embed, s, steps);
      && Kept(f.t, f.claims, f.made) && Serving(f, g) && Accounted(f.t, f.claims, g)
      && (s.t.generation == Some(g) ==> f.t.generation == Some(g))
      && (s.t.generation == Some(g) && Tracked(s.t, g) ==> Tracked(f.t, g))
    decreases |steps|
  {
    if steps != [] {
      assert Stays(steps[0], g) && forall i | 0 <= i < |steps[1..]| :: steps[1..][i] == steps[i + 1];
      StepIsKept(embed, s, steps[0]);
      StepKeepsAccount(embed, s, steps[0], g);
      if s.t.generation == Some(g) && Tracked(s.t, g) { StepTracks(embed, s, steps[0], g); }
      RunKeepsAccount(embed, Exec(embed, s, steps[0]), steps[1..], g);
    }
  }

  /* ---- Without the account a document is forgotten ---- */

  ghost predicate CanForget(embed: string -> Embedding, s: Sys, g: nat) {
    exists steps: seq<Step>, v ::
      ValidRun(embed, s, steps) && Steady(steps, g) && !Served(Final(embed, s, steps).t, g, v)
  }

  lemma ForgottenNow(embed: string -> Embedding, s: Sys, g: nat, v: nat)
    requires !Served(s.t, g, v)
    ensures CanForget(embed, s, g)
  {
    assert ValidRun(embed, s, []) && Final(embed, s, []) == s && Steady([], g);
  }

  lemma ForgottenLater(embed: string -> Embedding, s: Sys, g: nat, step: Step)
    requires Enabled(s, step) && Stays(step, g) && CanForget(embed, Exec(embed, s, step), g)
    ensures CanForget(embed, s, g)
  {
    var rest: seq<Step>, v :| ValidRun(embed, Exec(embed, s, step), rest) && Steady(rest, g)
      && !Served(Final(embed, Exec(embed, s, step), rest).t, g, v);
    RunStarts(embed, s, step, rest);
    assert Steady([step] + rest, g);
  }

  // A finished job without its vector: its document becomes active with that text.
  lemma BareJob(embed: string -> Embedding, s: Sys, g: nat, v: nat)
    requires s.t.generation == Some(g) && Slot(v, g) in s.t.jobs && s.t.jobs[Slot(v, g)].state.Done?
    requires var slot := Slot(v, g);
      slot in s.t.vectors && s.t.vectors[slot].ready ==> s.t.vectors[slot].hash != s.t.jobs[slot].hash
    ensures CanForget(embed, s, g)
  {
    var step := Index(v, s.t.jobs[Slot(v, g)].hash.source, {});
    ForgottenNow(embed, Exec(embed, s, step), g, v);
    ForgottenLater(embed, s, g, step);
  }

  // A finished job for another text: its vector goes stale, and the document takes on the job's text.
  lemma ForeignJob(embed: string -> Embedding, s: Sys, g: nat, v: nat)
    requires Kept(s.t, s.claims, s.made) && s.t.generation == Some(g) && v in s.t.docs
    requires Slot(v, g) in s.t.jobs && s.t.jobs[Slot(v, g)].state.Done?
    requires s.t.jobs[Slot(v, g)].hash != HashOf(s.t.docs[v])
    ensures CanForget(embed, s, g)
  {
    BareJob(embed, Exec(embed, s, Stale(g)), g, v);
    ForgottenLater(embed, s, g, Stale(g));
  }

  lemma UnaccountedIsForgotten(embed: string -> Embedding, s: Sys, g: nat, v: nat)
    requires Kept(s.t, s.claims, s.made) && s.t.generation == Some(g)
    requires !JobAccounted(s.t, s.claims, Slot(v, g))
    ensures CanForget(embed, s, g)
  {
    var slot := Slot(v, g);
    if s.t.jobs[slot].state.Done? && s.t.jobs[slot].hash == HashOf(s.t.docs[v]) && !Current(s.t, g, v) {
      BareJob(embed, s, g, v);
    } else if s.t.jobs[slot].state.Done? {
      ForeignJob(embed, s, g, v);
    } else {
      var c :| c in s.claims && c.slot == slot && Fenced(s.t, c) && Unchanged(s.t, c);
      var b := Exec(embed, s, Store([c], 0));
      StoreSingle(embed, s.t, c);
      StepIsKept(embed, s, Store([c], 0));
      ForeignJob(embed, b, g, v);
      ForgottenLater(embed, s, g, Store([c], 0));
    }
  }

  lemma CarelessForgets(embed: string -> Embedding, s: Sys, g: nat)
    requires Kept(s.t, s.claims, s.made) && s.t.generation == Some(g)
    requires !(Tracked(s.t, g) && Accounted(s.t, s.claims, g))
    ensures CanForget(embed, s, g)
  {
    if v :| !JobAccounted(s.t, s.claims, Slot(v, g)) {
      UnaccountedIsForgotten(embed, s, g, v);
    } else {
      var v :| v in s.t.docs && v in s.t.active && !(Current(s.t, g, v) || Slot(v, g) in s.t.jobs);
      ForgottenNow(embed, s, g, v);
    }
  }

  /* ---- Exactly when ---- */

  // Whatever happens next, every active document has a current vector or an unfinished job.
  ghost predicate NeverForgets(embed: string -> Embedding, s: Sys, g: nat) {
    forall after: seq<Step>, v ::
      ValidRun(embed, s, after) && Steady(after, g) ==> Served(Final(embed, s, after).t, g, v)
  }

  // At any moment of any history, generations switched in any order: as long as the active generation
  // stays active, no active document will ever be without both a current vector and an unfinished job, if
  // and only if at that moment every one is tracked and every job is accounted for.
  lemma NothingForgottenIff(embed: string -> Embedding, before: seq<Step>, g: nat)
    requires ValidRun(embed, EMPTY, before) && Final(embed, EMPTY, before).t.generation == Some(g)
    ensures var s := Final(embed, EMPTY, before);
      NeverForgets(embed, s, g) <==> Tracked(s.t, g) && Accounted(s.t, s.claims, g)
  {
    var s := Final(embed, EMPTY, before);
    RunIsKept(embed, EMPTY, before);
    if Tracked(s.t, g) && Accounted(s.t, s.claims, g) {
      forall after: seq<Step>, v | ValidRun(embed, s, after) && Steady(after, g)
        ensures Served(Final(embed, s, after).t, g, v)
      {
        RunKeepsAccount(embed, s, after, g);
        TrackedIsServed(Final(embed, s, after).t, Final(embed, s, after).claims, g);
      }
    } else {
      CarelessForgets(embed, s, g);
    }
  }

  // From any accounted moment on, the first activation of any generation included: once the missing jobs
  // were inserted, at any later time the index is complete if and only if the queue of the generation
  // holds nothing unfinished.
  lemma CompleteIffQueueEmpty(embed: string -> Embedding, before: seq<Step>, between: seq<Step>, now: nat,
                              after: seq<Step>, g: nat)
    requires ValidRun(embed, EMPTY, before) && g > 0
    requires var s := Final(embed, EMPTY, before);
      Serving(s, g) && Accounted(s.t, s.claims, g) && ValidRun(embed, s, between) && Steady(between, g)
    requires var m := Final(embed, Final(embed, EMPTY, before), between);
      m.t.generation == Some(g) && Enabled(m, Insert(g, now))
      && ValidRun(embed, Exec(embed, m, Insert(g, now)), after) && Steady(after, g)
    ensures var m := Final(embed, Final(embed, EMPTY, before), between);
      var t := Final(embed, Exec(embed, m, Insert(g, now)), after).t;
      IndexCoverage(t, g).complete
      <==> forall slot :: slot in t.jobs && slot.generation == g ==> t.jobs[slot].state.Done?
  {
    RunIsKept(embed, EMPTY, before);
    RunKeepsAccount(embed, Final(embed, EMPTY, before), between, g);
    var m := Final(embed, Final(embed, EMPTY, before), between);
    var b := Exec(embed, m, Insert(g, now));
    StepIsKept(embed, m, Insert(g, now));
    StepKeepsAccount(embed, m, Insert(g, now), g);
    InsertTracks(m.t, g, now);
    RunKeepsAccount(embed, b, after, g);
    var f := Final(embed, b, after);
    TrackedCoverage(f.t, f.claims, g);
  }

  lemma TrackedCoverage(t: Tables, claims: set<Claim>, g: nat)
    requires Tracked(t, g) && Accounted(t, claims, g)
    ensures IndexCoverage(t, g).complete
            <==> forall slot :: slot in t.jobs && slot.generation == g ==> t.jobs[slot].state.Done?
  {
    if forall slot :: slot in t.jobs && slot.generation == g ==> t.jobs[slot].state.Done? {
      assert InState(t, g, {Pending, Leased}) == {} && InState(t, g, {Dead}) == {};
      forall v | v in ExpectedVersions(t) ensures v in IndexedVersions(t, g) {
        assert JobAccounted(t, claims, Slot(v, g));
      }
      assert IndexedVersions(t, g) == ExpectedVersions(t);
    } else {
      var slot :| slot in t.jobs && slot.generation == g && !t.jobs[slot].state.Done?;
      assert slot in InState(t, g, {Pending, Leased}) || slot in InState(t, g, {Dead});
      Nonempty(InState(t, g, {Pending, Leased}));
      Nonempty(InState(t, g, {Dead}));
    }
  }

  lemma Nonempty<T>(s: set<T>)
    ensures s != {} ==> |s| > 0
  {
  }
}
