/**
 One owner at a time is enough: while a claim is granted only when no live process owns the record, every
 envelope and every refusal of an owner finds its record fresh.
 */
module SettlementSingleOwner {
  import opened Wrappers
  import opened SettlementTables
  import opened SettlementProtocol
  import opened SettlementQuarantine
  import opened SettlementInvariant
  import opened SettlementSteps

  predicate OwnersApart(s: Sys) {
    forall p, q :: p in s.procs && q in s.procs && p != q && Owned(s.procs[p]).Some?
      ==> Owned(s.procs[p]) != Owned(s.procs[q])
  }

  // Nothing was stored or answered for the record the process owns.
  predicate Fresh(db: Db, p: Proc) {
    Owned(p).Some? ==>
      var i := Owned(p).value; i < |db.records| && db.records[i].hash.None? && db.records[i].response.None?
  }

  predicate AllFresh(s: Sys) { forall pid :: pid in s.procs ==> Fresh(s.db, s.procs[pid]) }

  predicate Sole(s: Sys) { OwnersApart(s) && AllFresh(s) }

  lemma FreshWrites(s: Sys, step: Step)
    requires Sole(s) && Enabled(s, step)
    ensures WritesFresh(s, step)
  {
    if step.Store? || step.Refuse? { assert Fresh(s.db, s.procs[step.pid]); }
  }

  // Only a claim makes an owner.
  lemma OwnersStay(s: Sys, step: Step, q: nat)
    requires Enabled(s, step) && q in Exec(s, step).procs && Owned(Exec(s, step).procs[q]).Some?
    requires !(step.Start? && step.pid == q)
    ensures q in s.procs && Owned(s.procs[q]) == Owned(Exec(s, step).procs[q])
  {
  }

  lemma NewOwner(s: Sys, step: Step)
    requires Inv(s) && Enabled(s, step) && step.Start? && SingleOwner(s, step)
    requires step.pid in Exec(s, step).procs && Owned(Exec(s, step).procs[step.pid]).Some?
    ensures Fresh(Exec(s, step).db, Exec(s, step).procs[step.pid])
    ensures forall q :: q in s.procs ==> Owned(s.procs[q]) != Owned(Exec(s, step).procs[step.pid])
  {
    ClaimGrows(s.db, step.req, step.workerId, step.now, step.leaseUntil);
  }

  // A record that gets an answer from a ledger lookup has an envelope, so nobody owns it.
  lemma LookedUpHasNoOwner(s: Sys, step: Step, q: nat)
    requires Inv(s) && Sole(s) && Enabled(s, step) && (step.Finish? || step.WriteVerdict?) && q in s.procs
    ensures Owned(s.procs[q]) != Some(Written(s, step))
  {
    assert ProcOk(s.db, s.ledger, s.procs[step.pid]) && Fresh(s.db, s.procs[q]);
    if step.WriteVerdict? { assert RowOk(s.db, s.procs[step.pid].todo[0]); }
  }

  // The owner that writes its record drops it.
  lemma WrittenIsDropped(s: Sys, step: Step, q: nat)
    requires Inv(s) && Sole(s) && Enabled(s, step) && (Answering(step) || step.Store?)
    requires q in Exec(s, step).procs && Written(s, step) < |s.db.records|
    ensures Owned(Exec(s, step).procs[q]) != Some(Written(s, step))
  {
    if Owned(Exec(s, step).procs[q]).Some? {
      OwnersStay(s, step, q);
      if step.Finish? || step.WriteVerdict? {
        LookedUpHasNoOwner(s, step, q);
      } else if q == step.pid {
        OwnerWrites(s, step);
      }
    }
  }

  lemma OwnerWrites(s: Sys, step: Step)
    requires Enabled(s, step) && (step.Refuse? || step.Store?) && Written(s, step) < |s.db.records|
    ensures step.pid in Exec(s, step).procs ==> Owned(Exec(s, step).procs[step.pid]).None?
  {
  }

  lemma StaysFresh(s: Sys, step: Step, q: nat)
    requires Inv(s) && Sole(s) && Enabled(s, step) && SingleOwner(s, step)
    requires q in Exec(s, step).procs && !(step.Start? && step.pid == q)
    ensures Fresh(Exec(s, step).db, Exec(s, step).procs[q])
  {
    if Owned(Exec(s, step).procs[q]).Some? {
      OwnersStay(s, step, q);
      assert Fresh(s.db, s.procs[q]);
      FreshWrites(s, step);
      StepGrows(s, step);
      if (Answering(step) || step.Store?) && Written(s, step) < |s.db.records| { WrittenIsDropped(s, step, q); }
    }
  }

  lemma StepKeepsSole(s: Sys, step: Step)
    requires Inv(s) && Sole(s) && Enabled(s, step) && SingleOwner(s, step)
    ensures Sole(Exec(s, step))
  {
    var b := Exec(s, step);
    forall q | q in b.procs ensures Fresh(b.db, b.procs[q]) {
      if !(step.Start? && step.pid == q) {
        StaysFresh(s, step, q);
      } else if Owned(b.procs[q]).Some? {
        NewOwner(s, step);
      }
    }
    forall p, q | p in b.procs && q in b.procs && p != q && Owned(b.procs[p]).Some?
      ensures Owned(b.procs[p]) != Owned(b.procs[q])
    {
      if Owned(b.procs[q]).Some? { OwnersStayApart(s, step, p, q); }
    }
  }

  lemma OwnersStayApart(s: Sys, step: Step, p: nat, q: nat)
    requires Inv(s) && Sole(s) && Enabled(s, step) && SingleOwner(s, step)
    requires p != q && p in Exec(s, step).procs && q in Exec(s, step).procs
    requires Owned(Exec(s, step).procs[p]).Some? && Owned(Exec(s, step).procs[q]).Some?
    ensures Owned(Exec(s, step).procs[p]) != Owned(Exec(s, step).procs[q])
  {
    if step.Start? && step.pid == p {
      NewOwner(s, step);
      OwnersStay(s, step, q);
    } else if step.Start? && step.pid == q {
      NewOwner(s, step);
      OwnersStay(s, step, p);
    } else {
      OwnersStay(s, step, p);
      OwnersStay(s, step, q);
    }
  }

  // A run in which every record has one owner at a time is guarded: what is proved of guarded runs holds
  // of it.
  lemma SingleOwnerIsGuarded(s: Sys, steps: seq<Step>)
    requires Inv(s) && Sole(s) && ValidRun(s, steps) && DisciplinedRun(s, steps)
    ensures GuardedRun(s, steps)
    decreases |steps|
  {
    if steps != [] {
      FreshWrites(s, steps[0]);
      StepKeeps(s, steps[0]);
      StepKeepsSole(s, steps[0]);
      SingleOwnerIsGuarded(Exec(s, steps[0]), steps[1..]);
    }
  }
}
