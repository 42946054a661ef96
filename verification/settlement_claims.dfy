/**
 What a claim answers at any later moment of any run: who owns a record until when, and who may take it over.
 */
module SettlementClaims {
  import opened Wrappers
  import opened SettlementTables
  import opened SettlementProtocol
  import opened SettlementOwners

  // An envelope or an answer is stored, so no claim makes anybody the owner any more.
  predicate Settled(rec: Record) { rec.hash.Some? || rec.response.Some? }

  predicate LeasedTo(rec: Record, worker: string, until: nat) {
    rec.status.Preparing? && rec.workerId == Some(worker) && rec.leaseUntil == Some(until)
  }

  // A claimed record with nothing stored is being prepared under a lease.
  predicate Tended(rec: Record) {
    rec.amount.Some? && !Settled(rec) ==> rec.status.Preparing? && rec.workerId.Some? && rec.leaseUntil.Some?
  }

  predicate HasEnvelope(db: Db, id: nat) { id < |db.records| && db.records[id].hash.Some? }

  // A process that marks a record holds the row of a stored envelope.
  predicate InHand(db: Db, p: Proc) {
    && (p.StoredIt? ==> HasEnvelope(db, p.id))
    && (p.Submit? || p.Marking? || p.Polling? ==> HasEnvelope(db, p.row.id))
  }

  ghost predicate Orderly(s: Sys) {
    && (forall pid :: pid in s.procs ==> InHand(s.db, s.procs[pid]))
    && (forall i :: 0 <= i < |s.db.records| ==> Tended(s.db.records[i]))
  }

  /* ---- Envelopes stay ---- */

  ghost predicate EnvelopesKept(a: Db, b: Db) {
    && |a.records| <= |b.records|
    && forall i :: 0 <= i < |a.records| && a.records[i].hash.Some? ==> b.records[i].hash.Some?
  }

  lemma AnsweringKeepsEnvelopes(s: Sys, step: Step)
    requires Enabled(s, step) && Answering(step)
    ensures EnvelopesKept(s.db, Exec(s, step).db)
  {
  }

  lemma StartKeepsEnvelopes(s: Sys, step: Step)
    requires Enabled(s, step) && (step.Start? || step.Verify?)
    ensures EnvelopesKept(s.db, Exec(s, step).db)
  {
  }

  lemma MarkingKeepsEnvelopes(s: Sys, step: Step)
    requires Enabled(s, step) && (Marks(step) || step.Store?)
    ensures EnvelopesKept(s.db, Exec(s, step).db)
  {
  }

  lemma StepKeepsEnvelopes(s: Sys, step: Step)
    requires Enabled(s, step)
    ensures EnvelopesKept(s.db, Exec(s, step).db)
  {
    if Answering(step) {
      AnsweringKeepsEnvelopes(s, step);
    } else if step.Start? || step.Verify? {
      StartKeepsEnvelopes(s, step);
    } else if Marks(step) || step.Store? {
      MarkingKeepsEnvelopes(s, step);
    } else {
      OtherStepsLeaveRecords(s, step);
    }
  }

  predicate Marked(p: Proc) { p.StoredIt? || p.Submit? || p.Marking? || p.Polling? }

  function RecordOf(p: Proc): nat
    requires Marked(p)
  {
    if p.StoredIt? then p.id else p.row.id
  }

  lemma StartMarks(s: Sys, step: Step)
    requires Enabled(s, step) && step.Start?
    requires step.pid in Exec(s, step).procs && Marked(Exec(s, step).procs[step.pid])
    ensures HasEnvelope(Exec(s, step).db, RecordOf(Exec(s, step).procs[step.pid]))
  {
  }

  lemma StoreMarks(s: Sys, step: Step)
    requires Enabled(s, step) && step.Store?
    requires step.pid in Exec(s, step).procs && Marked(Exec(s, step).procs[step.pid])
    ensures HasEnvelope(Exec(s, step).db, RecordOf(Exec(s, step).procs[step.pid]))
  {
  }

  lemma OthersKeepMarked(s: Sys, step: Step, pid: nat)
    requires Enabled(s, step) && (step.Start? || step.Store? ==> pid != step.pid)
    requires pid in Exec(s, step).procs && Marked(Exec(s, step).procs[pid])
    ensures pid in s.procs && Marked(s.procs[pid]) && RecordOf(s.procs[pid]) == RecordOf(Exec(s, step).procs[pid])
  {
  }

  // A process comes to hold a stored envelope only by a store or by a claim that finds one.
  lemma Markers(s: Sys, step: Step, pid: nat)
    requires Enabled(s, step)
    requires pid in Exec(s, step).procs && Marked(Exec(s, step).procs[pid])
    ensures var q := Exec(s, step).procs[pid];
      || (pid in s.procs && Marked(s.procs[pid]) && RecordOf(s.procs[pid]) == RecordOf(q))
      || HasEnvelope(Exec(s, step).db, RecordOf(q))
  {
    if step.Start? && pid == step.pid {
      StartMarks(s, step);
    } else if step.Store? && pid == step.pid {
      StoreMarks(s, step);
    } else {
      OthersKeepMarked(s, step, pid);
    }
  }

  /* ---- Only a claim changes a record with nothing stored ---- */

  // The record is as before, settled, or freshly leased by the step.
  predicate ChangedBy(step: Step, a: Record, b: Record) {
    || b == a || Settled(b)
    || (step.Start? && step.req.key == b.key && LeasedTo(b, step.workerId, step.leaseUntil)
        && b.amount == Some(step.req.amount))
  }

  ghost predicate OpenChangedBy(step: Step, a: Db, b: Db) {
    && |a.records| <= |b.records|
    && forall i :: 0 <= i < |a.records| ==> ChangedBy(step, a.records[i], b.records[i])
  }

  lemma StartChanges(s: Sys, step: Step)
    requires Enabled(s, step) && step.Start?
    ensures OpenChangedBy(step, s.db, Exec(s, step).db)
    ensures forall i :: |s.db.records| <= i < |Exec(s, step).db.records| ==> Tended(Exec(s, step).db.records[i])
  {
    var e := Register(s.db, step.req);
    assert e.records[IndexOf(e.records, step.req.key)].key == step.req.key;
  }

  lemma AnsweringChanges(s: Sys, step: Step)
    requires Enabled(s, step) && Answering(step)
    ensures OpenChangedBy(step, s.db, Exec(s, step).db) && |Exec(s, step).db.records| == |s.db.records|
  {
  }

  lemma MarkingChanges(s: Sys, step: Step)
    requires Orderly(s) && Enabled(s, step) && Marks(step)
    ensures OpenChangedBy(step, s.db, Exec(s, step).db) && |Exec(s, step).db.records| == |s.db.records|
  {
    assert InHand(s.db, s.procs[step.pid]);
  }

  lemma StepChanges(s: Sys, step: Step)
    requires Orderly(s) && Enabled(s, step)
    ensures OpenChangedBy(step, s.db, Exec(s, step).db)
    ensures forall i :: |s.db.records| <= i < |Exec(s, step).db.records| ==> Tended(Exec(s, step).db.records[i])
  {
    if step.Start? {
      StartChanges(s, step);
    } else if Answering(step) {
      AnsweringChanges(s, step);
    } else if Marks(step) {
      MarkingChanges(s, step);
    } else if !step.Verify? && !step.Store? {
      OtherStepsLeaveRecords(s, step);
    }
  }

  lemma StepKeepsOrder(s: Sys, step: Step)
    requires Orderly(s) && Enabled(s, step)
    ensures Orderly(Exec(s, step))
  {
    var b := Exec(s, step);
    StepChanges(s, step);
    StepKeepsEnvelopes(s, step);
    forall i | 0 <= i < |b.db.records| ensures Tended(b.db.records[i]) {
      if i < |s.db.records| {
        assert Tended(s.db.records[i]) && ChangedBy(step, s.db.records[i], b.db.records[i]);
      }
    }
    forall pid | pid in b.procs ensures InHand(b.db, b.procs[pid]) {
      if Marked(b.procs[pid]) {
        Markers(s, step, pid);
        if pid in s.procs { assert InHand(s.db, s.procs[pid]); }
      }
    }
  }

  lemma RunKeepsOrder(s: Sys, steps: seq<Step>)
    requires Orderly(s) && ValidRun(s, steps)
    ensures Orderly(Final(s, steps))
    decreases |steps|
  {
    if steps != [] {
      StepKeepsOrder(s, steps[0]);
      RunKeepsOrder(Exec(s, steps[0]), steps[1..]);
    }
  }

  /* ---- The second claim ---- */

  // What a claim gets for a record as it stands: who holds it decides between waiting and owning.
  ghost predicate Gets(rec: Record, i: nat, req: Request, worker: string, now: nat, result: ClaimResult) {
    && (req.fingerprint != rec.fingerprint ==> result == FingerprintConflict)
    && (req.fingerprint == rec.fingerprint && Some(req.amount) != rec.amount ==> result == AmountConflict)
    && (req.fingerprint == rec.fingerprint && Some(req.amount) == rec.amount ==>
          && (rec.response.Some? ==> result == Cached(i, rec.response.value))
          && (rec.response.None? && rec.hash.Some? ==> result == Resume(i))
          && (!Settled(rec) ==>
                exists owner, until :: LeasedTo(rec, owner, until) && Admits(owner, until, i, worker, now, result)))
  }

  // A lease of `owner` up to `until` keeps every other worker waiting before that moment and nobody from it on.
  predicate Admits(owner: string, until: nat, i: nat, worker: string, now: nat, result: ClaimResult) {
    && (worker == owner ==> result == Owner(i))
    && (worker != owner && now < until ==> result == Wait(i))
    && (worker != owner && until <= now ==> result == Owner(i))
  }

  lemma ClaimGets(db: Db, req: Request, worker: string, now: nat, until: nat)
    requires var i := IndexOf(db.records, req.key);
      i < |db.records| && db.records[i].amount.Some? && Tended(db.records[i])
    ensures var i := IndexOf(db.records, req.key);
      Gets(db.records[i], i, req, worker, now, Claim(db, req, worker, now, until).1)
  {
    var i := IndexOf(db.records, req.key);
    var rec := db.records[i];
    if !Settled(rec) {
      assert LeasedTo(rec, rec.workerId.value, rec.leaseUntil.value);
    }
  }

  // Once a claim made somebody the owner, every later claim of the key, at any moment of any run, names the same
  // record, and the lease that stands then decides it unless something was stored or answered.
  lemma SecondClaim(s0: Sys, before: seq<Step>, first: Step, between: seq<Step>,
                    req: Request, worker: string, now: nat, until: nat)
    requires Init(s0) && ValidRun(s0, before)
    requires first.Start? && Enabled(Final(s0, before), first)
    requires Claim(Final(s0, before).db, first.req, first.workerId, first.now, first.leaseUntil).1.Owner?
    requires ValidRun(Exec(Final(s0, before), first), between)
    requires req.key == first.req.key
    ensures var a, m := Exec(Final(s0, before), first), Final(Exec(Final(s0, before), first), between);
      var i := IndexOf(a.db.records, first.req.key);
      && i < |m.db.records| && i == IndexOf(m.db.records, first.req.key)
      && m.db.records[i].fingerprint == first.req.fingerprint && m.db.records[i].amount == Some(first.req.amount)
      && Gets(m.db.records[i], i, req, worker, now, Claim(m.db, req, worker, now, until).1)
  {
    var s := Final(s0, before);
    var a, m := Exec(s, first), Final(Exec(s, first), between);
    RunKeepsOrder(s0, before);
    StepKeepsOrder(s, first);
    RunKeepsOrder(a, between);
    GrantMatches(s, first);
    RunKeepsRequests(a, between);
    KeysFindTheSameRecord(a.db, m.db, first.req.key);
    var i := IndexOf(m.db.records, first.req.key);
    assert SameRequest(a.db.records[i], m.db.records[i]);
    ClaimGets(m.db, req, worker, now, until);
  }

  // The first owner's lease, while it stands: it keeps every other worker waiting up to its end and not longer.
  lemma StandingLeaseDecides(s0: Sys, before: seq<Step>, first: Step, between: seq<Step>,
                             worker: string, now: nat, until: nat)
    requires Init(s0) && ValidRun(s0, before)
    requires first.Start? && Enabled(Final(s0, before), first)
    requires Claim(Final(s0, before).db, first.req, first.workerId, first.now, first.leaseUntil).1.Owner?
    requires ValidRun(Exec(Final(s0, before), first), between)
    requires var m := Final(Exec(Final(s0, before), first), between); var i := IndexOf(m.db.records, first.req.key);
      && i < |m.db.records| && m.db.records[i].hash.None? && m.db.records[i].response.None?
      && m.db.records[i].workerId == Some(first.workerId) && m.db.records[i].leaseUntil == Some(first.leaseUntil)
    ensures var m := Final(Exec(Final(s0, before), first), between); var i := IndexOf(m.db.records, first.req.key);
      var result := Claim(m.db, first.req, worker, now, until).1;
      && (worker == first.workerId ==> result == Owner(i))
      && (worker != first.workerId && now < first.leaseUntil ==> result == Wait(i))
      && (worker != first.workerId && first.leaseUntil <= now ==> result == Owner(i))
  {
    SecondClaim(s0, before, first, between, first.req, worker, now, until);
  }

  /* ---- The lease over a run ---- */

  // The lease of a record stands until something is stored or answered.
  predicate HeldBy(rec: Record, owner: string, until: nat) { Settled(rec) || LeasedTo(rec, owner, until) }

  // Claims of a key that come from other workers while a lease lasts.
  predicate Intrudes(step: Step, key: Key, owner: string, until: nat) {
    step.Start? && step.req.key == key ==> step.workerId != owner && step.now < until
  }

  lemma IntruderIsRefused(s: Sys, step: Step, i: nat, owner: string, until: nat)
    requires Orderly(s) && Enabled(s, step) && i < |s.db.records|
    requires i == IndexOf(s.db.records, s.db.records[i].key) && s.db.records[i].amount.Some?
    requires HeldBy(s.db.records[i], owner, until)
    requires Intrudes(step, s.db.records[i].key, owner, until)
    ensures i < |Exec(s, step).db.records| && HeldBy(Exec(s, step).db.records[i], owner, until)
    ensures step.Start? && step.req.key == s.db.records[i].key ==>
      !Claim(s.db, step.req, step.workerId, step.now, step.leaseUntil).1.Owner?
  {
    StepChanges(s, step);
    assert ChangedBy(step, s.db.records[i], Exec(s, step).db.records[i]);
    if step.Start? && step.req.key == s.db.records[i].key {
      ClaimGets(s.db, step.req, step.workerId, step.now, step.leaseUntil);
      assert Register(s.db, step.req) == s.db;
    } else {
      StepKeepsRequests(s, step);
      assert SameRequest(s.db.records[i], Exec(s, step).db.records[i]);
    }
  }

  // Nobody became the owner of this key in the run.
  predicate NoneGranted(s: Sys, steps: seq<Step>, key: Key)
    requires ValidRun(s, steps)
    decreases |steps|
  {
    steps == []
    || (&& (steps[0].Start? && steps[0].req.key == key ==>
              !Claim(s.db, steps[0].req, steps[0].workerId, steps[0].now, steps[0].leaseUntil).1.Owner?)
        && NoneGranted(Exec(s, steps[0]), steps[1..], key))
  }

  lemma HeldExcludes(s: Sys, steps: seq<Step>, i: nat, owner: string, until: nat)
    requires Orderly(s) && ValidRun(s, steps) && i < |s.db.records|
    requires i == IndexOf(s.db.records, s.db.records[i].key) && s.db.records[i].amount.Some?
    requires HeldBy(s.db.records[i], owner, until)
    requires forall k :: 0 <= k < |steps| ==> Intrudes(steps[k], s.db.records[i].key, owner, until)
    ensures i < |Final(s, steps).db.records| && HeldBy(Final(s, steps).db.records[i], owner, until)
    ensures NoneGranted(s, steps, s.db.records[i].key)
    decreases |steps|
  {
    if steps != [] {
      var b := Exec(s, steps[0]);
      IntruderIsRefused(s, steps[0], i, owner, until);
      StepKeepsOrder(s, steps[0]);
      StepKeepsRequests(s, steps[0]);
      KeysFindTheSameRecord(s.db, b.db, s.db.records[i].key);
      assert SameRequest(s.db.records[i], b.db.records[i]);
      HeldExcludes(b, steps[1..], i, owner, until);
    }
  }

  // While the lease of an owner lasts no other worker becomes owner of the key, whatever else happens, and the
  // record keeps that lease until an envelope or an answer is stored.
  lemma LeaseExcludes(s0: Sys, before: seq<Step>, first: Step, between: seq<Step>)
    requires Init(s0) && ValidRun(s0, before)
    requires first.Start? && Enabled(Final(s0, before), first)
    requires Claim(Final(s0, before).db, first.req, first.workerId, first.now, first.leaseUntil).1.Owner?
    requires ValidRun(Exec(Final(s0, before), first), between)
    requires forall k :: 0 <= k < |between| ==>
      Intrudes(between[k], first.req.key, first.workerId, first.leaseUntil)
    ensures var a, m := Exec(Final(s0, before), first), Final(Exec(Final(s0, before), first), between);
      var i := IndexOf(a.db.records, first.req.key);
      && i < |m.db.records| && HeldBy(m.db.records[i], first.workerId, first.leaseUntil)
      && NoneGranted(a, between, first.req.key)
  {
    var s := Final(s0, before);
    var a := Exec(s, first);
    RunKeepsOrder(s0, before);
    StepKeepsOrder(s, first);
    GrantMatches(s, first);
    GrantLeases(s, first);
    HeldExcludes(a, between, IndexOf(a.db.records, first.req.key), first.workerId, first.leaseUntil);
  }

  lemma GrantLeases(s: Sys, step: Step)
    requires Enabled(s, step) && step.Start?
    requires Claim(s.db, step.req, step.workerId, step.now, step.leaseUntil).1.Owner?
    ensures var db := Exec(s, step).db; var i := IndexOf(db.records, step.req.key);
      i < |db.records| && LeasedTo(db.records[i], step.workerId, step.leaseUntil)
  {
    GrantMatches(s, step);
    var e := Register(s.db, step.req);
    var d := Exec(s, step).db;
    var i, k := IndexOf(e.records, step.req.key), IndexOf(d.records, step.req.key);
    assert forall j | 0 <= j < |e.records| :: d.records[j].key == e.records[j].key;
    assert d.records[i].key == step.req.key;
    assert i == k;
  }
}
