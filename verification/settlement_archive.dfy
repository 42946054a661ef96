/**
 The archive race: when an archive miss is final, and that passes which wait until it is need no other
 hypothesis about the ledger.
 */
module SettlementArchive {
  import opened Wrappers
  import opened SettlementTables
  import opened SettlementProtocol
  import opened SettlementQuarantine
  import opened SettlementInvariant
  import opened SettlementSteps
  import opened SettlementSafety
  import opened SettlementSingleOwner

  // An envelope past its maximum time is not applied any more.
  lemma MissingStaysMissing(s: Sys, step: Step, rec: Record)
    requires Enabled(s, step) && Expired(rec, s.ledger) && WellFormed(rec) && rec.hash.Some?
    requires rec.hash.value !in s.ledger.applied
    ensures rec.hash.value !in Exec(s, step).ledger.applied
  {
    if !step.Apply? { OnlyApplyApplies(s, step); }
  }

  lemma OnlyApplyApplies(s: Sys, step: Step)
    requires Enabled(s, step) && !step.Apply?
    ensures Exec(s, step).ledger.applied == s.ledger.applied
  {
  }

  lemma CloseTimeRises(s: Sys, step: Step)
    requires Enabled(s, step)
    ensures s.ledger.closeTime <= Exec(s, step).ledger.closeTime
  {
  }

  /* ---- Exactly when a miss is final ---- */

  // The ledger will not take the envelope up any more, or it has no maximum time and never reads as expired.
  predicate Settled(rec: Record, ledger: Ledger) {
    rec.hash.Some? && rec.envelope.Some? ==>
      || rec.envelope.value.maxTime.None?
      || (rec.hash.value !in ledger.applied && (Expired(rec, ledger) || rec.hash.value in ledger.rejected))
  }

  lemma SettledStays(s: Sys, step: Step, rec: Record)
    requires Enabled(s, step) && WellFormed(rec) && Settled(rec, s.ledger) && LedgerOk(s.ledger)
    ensures Settled(rec, Exec(s, step).ledger)
  {
    if rec.hash.Some? && rec.envelope.value.maxTime.Some? {
      CloseTimeRises(s, step);
      if Expired(rec, s.ledger) { MissingStaysMissing(s, step, rec); }
    }
  }

  lemma RunStaysSettled(s: Sys, steps: seq<Step>, rec: Record)
    requires ValidRun(s, steps) && WellFormed(rec) && Settled(rec, s.ledger) && LedgerOk(s.ledger)
    ensures Settled(rec, Final(s, steps).ledger)
    decreases |steps|
  {
    if steps != [] {
      SettledStays(s, steps[0], rec);
      RunStaysSettled(Exec(s, steps[0]), steps[1..], rec);
    }
  }

  // Whatever valid run follows, if the pass is then still at the row and reads the close time, its expiry
  // answer is right.
  ghost predicate MissHolds(m: Sys, pid: nat) {
    forall after: seq<Step> ::
      (ValidRun(m, after) && pid in m.procs && pid in Final(m, after).procs
       && Final(m, after).procs[pid] == m.procs[pid] && Enabled(Final(m, after), ReadExpiry(pid, true)))
      ==> OneLedger(Final(m, after), ReadExpiry(pid, true))
  }

  // For an envelope that was submitted, an archive miss is final if and only if at that moment the ledger
  // has closed past the maximum time, or the network answered ERROR, or there is no maximum time to expire.
  lemma MissIsFinalIff(s: Sys, pid: nat)
    requires Inv(s) && Enabled(s, AskArchive(pid, NotFound))
    requires s.procs[pid].todo[0].rec.hash.value in s.ledger.submitted
    ensures MissHolds(Exec(s, AskArchive(pid, NotFound)), pid) <==> Settled(s.procs[pid].todo[0].rec, s.ledger)
  {
    var m := Exec(s, AskArchive(pid, NotFound));
    var rec := s.procs[pid].todo[0].rec;
    assert ProcOk(s.db, s.ledger, s.procs[pid]) && RowOk(s.db, s.procs[pid].todo[0]);
    if Settled(rec, s.ledger) {
      forall after: seq<Step> | ValidRun(m, after) ensures Settled(rec, Final(m, after).ledger) {
        RunStaysSettled(m, after, rec);
      }
    } else {
      LateApplication(m, pid, rec.envelope.value.maxTime.value);
    }
  }

  // The ledger applies the envelope after the miss, and closes past its maximum time.
  lemma LateApplication(m: Sys, pid: nat, maxTime: nat)
    requires Visiting(m, pid) && m.procs[pid].stage.Expiry? && WellFormed(m.procs[pid].todo[0].rec)
    requires m.procs[pid].todo[0].rec.envelope.value.maxTime == Some(maxTime)
    requires Enabled(m, Apply(m.procs[pid].todo[0].rec.hash.value, true))
    ensures !MissHolds(m, pid)
  {
    var h := m.procs[pid].todo[0].rec.hash.value;
    var applied := Exec(m, Apply(h, true));
    var closed := Exec(applied, CloseLedger(maxTime + 1));
    var after := [Apply(h, true), CloseLedger(maxTime + 1)];
    assert ValidRun(m, []) && Final(m, []) == m;
    RunGrows(m, [], Apply(h, true));
    RunGrows(m, [] + [Apply(h, true)], CloseLedger(maxTime + 1));
    assert after == [] + [Apply(h, true)] + [CloseLedger(maxTime + 1)];
    assert !OneLedger(closed, ReadExpiry(pid, true));
  }

  /* ---- Waiting is enough ---- */

  // A pass takes a miss for an answer only when it is final.
  predicate Patient(s: Sys, step: Step)
    requires Enabled(s, step)
  {
    step.AskArchive? && step.archive.NotFound? ==> Settled(s.procs[step.pid].todo[0].rec, s.ledger)
  }

  predicate PatientRun(s: Sys, steps: seq<Step>)
    requires ValidRun(s, steps)
    decreases |steps|
  {
    steps == []
    || (WritesFresh(s, steps[0]) && Patient(s, steps[0]) && PatientRun(Exec(s, steps[0]), steps[1..]))
  }

  predicate MissSettled(p: Proc, ledger: Ledger) {
    p.Recovering? && p.stage.Expiry? && p.todo != [] ==> Settled(p.todo[0].rec, ledger)
  }

  predicate MissesSettled(s: Sys) { forall pid :: pid in s.procs ==> MissSettled(s.procs[pid], s.ledger) }

  lemma PatientStep(s: Sys, step: Step)
    requires Inv(s) && MissesSettled(s) && Enabled(s, step) && Patient(s, step)
    ensures OneLedger(s, step) && MissesSettled(Exec(s, step))
  {
    var b := Exec(s, step);
    if step.ReadExpiry? { assert MissSettled(s.procs[step.pid], s.ledger); }
    forall q | q in b.procs ensures MissSettled(b.procs[q], b.ledger) {
      if HasMover(step) && step.pid == q {
        MoverIsSettled(s, step);
      } else {
        BystandersStay(s, step, q);
        assert MissSettled(s.procs[q], s.ledger) && ProcOk(s.db, s.ledger, s.procs[q]);
        if b.procs[q].Recovering? && b.procs[q].stage.Expiry? && b.procs[q].todo != [] {
          assert RowOk(s.db, s.procs[q].todo[0]);
          SettledStays(s, step, s.procs[q].todo[0].rec);
        }
      }
    }
  }

  lemma MoverIsSettled(s: Sys, step: Step)
    requires Enabled(s, step) && Patient(s, step) && HasMover(step) && step.pid in Exec(s, step).procs
    ensures MissSettled(Exec(s, step).procs[step.pid], Exec(s, step).ledger)
  {
  }

  // A run whose passes are patient meets the hypothesis on the ledger: it is guarded.
  lemma PatientIsGuarded(s: Sys, steps: seq<Step>)
    requires Inv(s) && MissesSettled(s) && ValidRun(s, steps) && PatientRun(s, steps)
    ensures GuardedRun(s, steps)
    decreases |steps|
  {
    if steps != [] {
      PatientStep(s, steps[0]);
      StepKeeps(s, steps[0]);
      PatientIsGuarded(Exec(s, steps[0]), steps[1..]);
    }
  }

  // Every claim is granted to a single owner and every pass is patient.
  predicate CarefulRun(s: Sys, steps: seq<Step>)
    requires ValidRun(s, steps)
    decreases |steps|
  {
    steps == []
    || (SingleOwner(s, steps[0]) && Patient(s, steps[0]) && CarefulRun(Exec(s, steps[0]), steps[1..]))
  }

  // Both kinds of care together need no hypothesis on what is written or on what the ledger does.
  lemma CarefulIsGuarded(s: Sys, steps: seq<Step>)
    requires Inv(s) && Sole(s) && MissesSettled(s) && ValidRun(s, steps) && CarefulRun(s, steps)
    ensures GuardedRun(s, steps)
    decreases |steps|
  {
    if steps != [] {
      FreshWrites(s, steps[0]);
      PatientStep(s, steps[0]);
      StepKeeps(s, steps[0]);
      StepKeepsSole(s, steps[0]);
      CarefulIsGuarded(Exec(s, steps[0]), steps[1..]);
    }
  }
}
