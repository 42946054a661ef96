/**
 Every guarded step keeps the invariant, and no other step does: the guards are exactly what the two
 writes of an owner and the expiry answer need.
 */
module SettlementSteps {
  import opened Wrappers
  import opened SettlementTables
  import opened SettlementProtocol
  import opened SettlementQuarantine
  import opened SettlementInvariant

  /* ---- What a step writes ---- */

  // The record whose envelope or answer the step writes, or an index out of range.
  function Written(s: Sys, step: Step): nat
    requires Enabled(s, step)
  {
    match step
    case Store(pid, day, scope, limits) =>
      var p := s.procs[pid];
      if StoreDecision(s.db, p.id, p.lease, p.prepared, day, scope, limits).Stored? then p.id else |s.db.records|
    case Refuse(pid) => s.procs[pid].id
    case Finish(pid) => s.procs[pid].id
    case WriteVerdict(pid) => s.procs[pid].todo[0].id
    case _ => |Exec(s, step).db.records|
  }

  lemma AnsweringGrows(s: Sys, step: Step)
    requires Inv(s) && Enabled(s, step) && Answering(step)
    ensures DbGrows(s.db, Exec(s, step).db, Written(s, step)) && Amounts(Exec(s, step).db)
    ensures Written(s, step) < |s.db.records| && |Exec(s, step).db.records| == |s.db.records|
    ensures Exec(s, step).db.records[Written(s, step)].response.Some?
  {
    var p := s.procs[step.pid];
    assert ProcOk(s.db, s.ledger, p);
    match step
    case Refuse(_) => CompleteGrows(s.db, p.id, Refused(None, p.reason), false);
    case Finish(_) => CompleteGrows(s.db, p.id, p.outcome, p.ledgerApplied);
    case WriteVerdict(_) =>
      assert RowOk(s.db, p.todo[0]);
      CompleteGrows(s.db, p.todo[0].id, p.stage.outcome, p.stage.ledgerApplied);
  }

  lemma StoreStepGrows(s: Sys, step: Step)
    requires Inv(s) && Enabled(s, step) && WritesFresh(s, step) && step.Store?
    ensures DbGrows(s.db, Exec(s, step).db, Written(s, step)) && Amounts(Exec(s, step).db)
  {
    var p := s.procs[step.pid];
    assert ProcOk(s.db, s.ledger, p);
    StoreGrows(s.db, p.id, p.lease, p.prepared, step.day, step.scope, step.limits);
  }

  lemma RegisterStepGrows(s: Sys, step: Step)
    requires Inv(s) && Enabled(s, step) && (step.Verify? || step.Start?)
    ensures DbGrows(s.db, Exec(s, step).db, Written(s, step)) && Amounts(Exec(s, step).db)
  {
    if step.Verify? {
      RegisterGrows(s.db, step.req);
    } else {
      ClaimGrows(s.db, step.req, step.workerId, step.now, step.leaseUntil);
    }
  }

  lemma QuietStepGrows(s: Sys, step: Step)
    requires Inv(s) && Enabled(s, step)
    requires !Answering(step) && !step.Verify? && !step.Start? && !step.Store?
    ensures DbGrows(s.db, Exec(s, step).db, Written(s, step)) && Amounts(Exec(s, step).db)
  {
    if Marks(step) {
      MarkGrows(s.db, s.procs[step.pid].row.id);
    } else {
      OtherStepsLeaveRecords(s, step);
    }
  }

  lemma StepGrows(s: Sys, step: Step)
    requires Inv(s) && Enabled(s, step) && WritesFresh(s, step)
    ensures DbGrows(s.db, Exec(s, step).db, Written(s, step)) && Amounts(Exec(s, step).db)
  {
    if Answering(step) {
      AnsweringGrows(s, step);
    } else if step.Verify? || step.Start? {
      RegisterStepGrows(s, step);
    } else if step.Store? {
      StoreStepGrows(s, step);
    } else {
      QuietStepGrows(s, step);
    }
  }

  lemma LedgerIsLeft(s: Sys, step: Step)
    requires Enabled(s, step) && !step.Apply? && !step.CloseLedger? && !step.Send?
    ensures Exec(s, step).ledger == s.ledger
  {
  }

  lemma StepGrowsLedger(s: Sys, step: Step)
    requires Inv(s) && Enabled(s, step)
    ensures LedgerGrows(s.ledger, Exec(s, step).ledger) && LedgerOk(Exec(s, step).ledger)
  {
    if !step.Apply? && !step.CloseLedger? && !step.Send? { LedgerIsLeft(s, step); }
  }

  /* ---- Tables after a step ---- */

  lemma AnsweringAgrees(s: Sys, step: Step)
    requires Inv(s) && Enabled(s, step) && Answering(step)
    ensures Agree(Exec(s, step).db)
  {
    var p := s.procs[step.pid];
    match step
    case Refuse(_) => CompleteKeeps(s.db, p.id, Refused(None, p.reason), false);
    case Finish(_) => CompleteKeeps(s.db, p.id, p.outcome, p.ledgerApplied);
    case WriteVerdict(_) => CompleteKeeps(s.db, p.todo[0].id, p.stage.outcome, p.stage.ledgerApplied);
  }

  lemma StoreAgrees(s: Sys, step: Step)
    requires Inv(s) && Enabled(s, step) && step.Store? && WritesFresh(s, step)
    ensures Agree(Exec(s, step).db)
  {
    var p := s.procs[step.pid];
    assert ProcOk(s.db, s.ledger, p);
    if StoreDecision(s.db, p.id, p.lease, p.prepared, step.day, step.scope, step.limits).Stored? {
      StoreKeepsIff(s.db, p.id, p.lease, p.prepared, step.day, step.scope, step.limits);
    }
  }

  lemma StepAgrees(s: Sys, step: Step)
    requires Inv(s) && Enabled(s, step) && WritesFresh(s, step)
    ensures Agree(Exec(s, step).db)
  {
    if Answering(step) {
      AnsweringAgrees(s, step);
    } else if Marks(step) {
      MarkKeeps(s.db, s.procs[step.pid].row.id);
    } else if !WritesTables(step) {
      OtherStepsLeaveTables(s, step);
    } else {
      TableStepAgrees(s, step);
    }
  }

  lemma TableStepAgrees(s: Sys, step: Step)
    requires Inv(s) && Enabled(s, step) && WritesFresh(s, step)
    requires WritesTables(step) && !Answering(step) && !Marks(step)
    ensures Agree(Exec(s, step).db)
  {
    match step
    case Verify(req) => RegisterKeeps(s.db, req);
    case Boot(network, addresses) => SyncKeeps(s.db, network, addresses);
    case DisableKey(cid) => DisableKeeps(s.db, cid);
    case Start(_, req, workerId, now, leaseUntil) => ClaimKeeps(s.db, req, workerId, now, leaseUntil);
    case TakeLease(_, cid, workerId, now, leaseUntil) => LeaseKeeps(s.db, cid, workerId, now, leaseUntil);
    case Release(_) => ReleaseKeeps(s.db, s.procs[step.pid].lease);
    case Store(_, _, _, _) => StoreAgrees(s, step);
  }

  /* ---- The answer a step writes ---- */

  lemma WrittenIsTrue(s: Sys, step: Step)
    requires Inv(s) && Enabled(s, step) && WritesFresh(s, step) && Answering(step)
    ensures var b := Exec(s, step); Written(s, step) < |b.db.records| && AnswerOk(b.db, b.ledger, Written(s, step))
  {
    AnsweringGrows(s, step);
    if step.WriteVerdict? {
      VerdictIsTrue(s, step);
    } else {
      assert ProcOk(s.db, s.ledger, s.procs[step.pid]);
    }
  }

  lemma VerdictIsTrue(s: Sys, step: Step)
    requires Inv(s) && Enabled(s, step) && step.WriteVerdict?
    ensures var b := Exec(s, step); Written(s, step) < |b.db.records| && AnswerOk(b.db, b.ledger, Written(s, step))
  {
    var p := s.procs[step.pid];
    assert ProcOk(s.db, s.ledger, p) && RowOk(s.db, p.todo[0]);
    CompleteGrows(s.db, p.todo[0].id, p.stage.outcome, p.stage.ledgerApplied);
  }

  lemma StoredIsUnanswered(s: Sys, step: Step)
    requires Inv(s) && Enabled(s, step) && WritesFresh(s, step) && !Answering(step)
    ensures Written(s, step) < |Exec(s, step).db.records| ==>
      AnswerOk(Exec(s, step).db, Exec(s, step).ledger, Written(s, step))
  {
  }

  /* ---- What the process that moved knows ---- */

  predicate HasMover(step: Step) {
    !step.Apply? && !step.CloseLedger? && !step.Verify? && !step.Boot? && !step.DisableKey?
  }

  // The process of the step, if there still is one, knows what its place in the code needs.
  predicate MoverOk(step: Step, b: Sys) {
    HasMover(step) && step.pid in b.procs ==> ProcOk(b.db, b.ledger, b.procs[step.pid])
  }

  lemma StarterKnows(s: Sys, step: Step)
    requires Inv(s) && Enabled(s, step) && step.Start?
    ensures MoverOk(step, Exec(s, step))
  {
    var result := Claim(s.db, step.req, step.workerId, step.now, step.leaseUntil).1;
    ClaimKeeps(s.db, step.req, step.workerId, step.now, step.leaseUntil);
    ClaimGrows(s.db, step.req, step.workerId, step.now, step.leaseUntil);
    if result.Resume? { assert RecordOk(Exec(s, step).db, result.id); }
  }

  lemma OwnerKnows(s: Sys, step: Step)
    requires Inv(s) && Enabled(s, step) && WritesFresh(s, step)
    requires step.NoChannel? || step.TakeLease? || step.Prepare? || step.Release? || step.Refuse?
    ensures MoverOk(step, Exec(s, step))
  {
    assert ProcOk(s.db, s.ledger, s.procs[step.pid]);
  }

  lemma StorerKnows(s: Sys, step: Step)
    requires Inv(s) && Enabled(s, step) && WritesFresh(s, step) && step.Store?
    ensures MoverOk(step, Exec(s, step))
  {
    assert ProcOk(s.db, s.ledger, s.procs[step.pid]);
  }

  lemma ReaderKnows(s: Sys, step: Step)
    requires Inv(s) && Enabled(s, step) && step.ReadBack?
    ensures MoverOk(step, Exec(s, step))
  {
    var p := s.procs[step.pid];
    assert ProcOk(s.db, s.ledger, p) && RecordOk(s.db, p.id);
  }

  lemma SenderKnows(s: Sys, step: Step)
    requires Inv(s) && Enabled(s, step) && step.Send?
    ensures MoverOk(step, Exec(s, step))
  {
    assert ProcOk(s.db, s.ledger, s.procs[step.pid]);
  }

  lemma MarkerKnows(s: Sys, step: Step)
    requires Inv(s) && Enabled(s, step) && step.Mark?
    ensures MoverOk(step, Exec(s, step))
  {
    var p := s.procs[step.pid];
    assert ProcOk(s.db, s.ledger, p);
    MarkGrows(s.db, p.row.id);
  }

  lemma PollerKnows(s: Sys, step: Step)
    requires Inv(s) && Enabled(s, step) && step.PollFound?
    ensures MoverOk(step, Exec(s, step))
  {
    assert ProcOk(s.db, s.ledger, s.procs[step.pid]);
  }

  lemma ListerKnows(s: Sys, step: Step)
    requires Inv(s) && Enabled(s, step) && step.Recover?
    ensures MoverOk(step, Exec(s, step))
  {
    forall k | 0 <= k < |step.ids| ensures RowOk(s.db, Exec(s, step).procs[step.pid].todo[k]) {
      assert RecordOk(s.db, step.ids[k]);
    }
  }

  lemma LookerKnows(s: Sys, step: Step)
    requires Inv(s) && Enabled(s, step) && (step.Ask? || step.AskArchive?)
    ensures MoverOk(step, Exec(s, step))
  {
    var p := s.procs[step.pid];
    assert ProcOk(s.db, s.ledger, p) && RowOk(s.db, p.todo[0]);
  }

  lemma VisitorKnows(s: Sys, step: Step)
    requires Inv(s) && Enabled(s, step) && OneLedger(s, step)
    requires step.SkipForeign? || step.ReadExpiry? || step.Abandon?
    ensures MoverOk(step, Exec(s, step))
  {
    var p := s.procs[step.pid];
    assert ProcOk(s.db, s.ledger, p) && RowOk(s.db, p.todo[0]);
  }

  lemma WriterKnows(s: Sys, step: Step)
    requires Inv(s) && Enabled(s, step) && step.WriteVerdict?
    ensures MoverOk(step, Exec(s, step))
  {
    assert ProcOk(s.db, s.ledger, s.procs[step.pid]);
    AnsweringGrows(s, step);
    WriterMovesOn(s, step);
    RestStaysOk(s.db, Exec(s, step).db, s.procs[step.pid].todo, Written(s, step));
  }

  lemma WriterMovesOn(s: Sys, step: Step)
    requires Enabled(s, step) && step.WriteVerdict?
    ensures var p := s.procs[step.pid];
      && step.pid in Exec(s, step).procs
      && Exec(s, step).procs[step.pid] == Recovering(p.networks, p.todo[1..], Asking)
  {
  }

  lemma RestStaysOk(a: Db, b: Db, todo: seq<Row>, t: nat)
    requires todo != [] && DbGrows(a, b, t) && Amounts(a)
    requires forall k :: 0 <= k < |todo| ==> RowOk(a, todo[k])
    ensures forall k :: 0 <= k < |todo[1..]| ==> RowOk(b, todo[1..][k])
  {
    forall k | 0 <= k < |todo[1..]| ensures RowOk(b, todo[1..][k]) {
      assert RowOk(a, todo[k + 1]);
    }
  }

  lemma PassMoverKnows(s: Sys, step: Step)
    requires Inv(s) && Enabled(s, step) && OneLedger(s, step) && PassStep(step)
    ensures MoverOk(step, Exec(s, step))
  {
    if step.WriteVerdict? {
      WriterKnows(s, step);
    } else if step.Ask? || step.AskArchive? {
      LookerKnows(s, step);
    } else {
      VisitorKnows(s, step);
    }
  }

  predicate AfterStore(step: Step) {
    step.ReadBack? || step.Send? || step.Mark? || step.PollFound? || step.PollTimeout? || step.Finish?
  }

  lemma SubmitterKnows(s: Sys, step: Step)
    requires Inv(s) && Enabled(s, step) && AfterStore(step)
    ensures MoverOk(step, Exec(s, step))
  {
    if step.ReadBack? {
      ReaderKnows(s, step);
    } else if step.Send? {
      SenderKnows(s, step);
    } else if step.Mark? {
      MarkerKnows(s, step);
    } else if step.PollFound? {
      PollerKnows(s, step);
    }
  }

  lemma MoverKnows(s: Sys, step: Step)
    requires Inv(s) && Enabled(s, step) && Guarded(s, step)
    ensures MoverOk(step, Exec(s, step))
  {
    if PassStep(step) {
      PassMoverKnows(s, step);
    } else if AfterStore(step) {
      SubmitterKnows(s, step);
    } else if step.Start? {
      StarterKnows(s, step);
    } else if step.Store? {
      StorerKnows(s, step);
    } else if step.Recover? {
      ListerKnows(s, step);
    } else if HasMover(step) && !step.Crash? {
      OwnerKnows(s, step);
    }
  }

  /* ---- The invariant after a step ---- */

  lemma BystandersStay(s: Sys, step: Step, q: nat)
    requires Enabled(s, step) && q in Exec(s, step).procs && !(HasMover(step) && step.pid == q)
    ensures q in s.procs && Exec(s, step).procs[q] == s.procs[q]
  {
  }

  lemma StepKeepsProcs(s: Sys, step: Step)
    requires Inv(s) && Enabled(s, step) && Guarded(s, step)
    ensures Procs(Exec(s, step))
  {
    var b := Exec(s, step);
    StepGrows(s, step);
    StepGrowsLedger(s, step);
    MoverKnows(s, step);
    forall q | q in b.procs ensures ProcOk(b.db, b.ledger, b.procs[q]) {
      if !(HasMover(step) && step.pid == q) {
        BystandersStay(s, step, q);
        ProcIsStable(s, b, s.procs[q], Written(s, step));
      }
    }
  }

  lemma StepKeepsAnswers(s: Sys, step: Step)
    requires Inv(s) && Enabled(s, step) && Guarded(s, step)
    ensures Answers(Exec(s, step).db, Exec(s, step).ledger)
  {
    StepGrows(s, step);
    StepGrowsLedger(s, step);
    if Answering(step) { WrittenIsTrue(s, step); } else { StoredIsUnanswered(s, step); }
    AnswersAreStable(s, Exec(s, step), Written(s, step));
  }

  lemma StepKeeps(s: Sys, step: Step)
    requires Inv(s) && Enabled(s, step) && Guarded(s, step)
    ensures Inv(Exec(s, step))
  {
    StepGrows(s, step);
    StepGrowsLedger(s, step);
    StepAgrees(s, step);
    StepKeepsProcs(s, step);
    StepKeepsAnswers(s, step);
  }

  /* ---- Exactly the guarded steps ---- */

  lemma UnguardedStoreBreaks(s: Sys, step: Step)
    requires Inv(s) && Enabled(s, step) && step.Store? && !WritesFresh(s, step)
    ensures !Agree(Exec(s, step).db)
  {
    var p := s.procs[step.pid];
    assert ProcOk(s.db, s.ledger, p);
    StoreKeepsIff(s.db, p.id, p.lease, p.prepared, step.day, step.scope, step.limits);
  }

  // A refusal leaves a true answer in its record if and only if the record holds no envelope then, and the
  // verdict of an answer that was there stays if and only if it does.
  lemma RefusalIsTrueIff(s: Sys, step: Step)
    requires Inv(s) && Enabled(s, step) && step.Refuse?
    ensures var i := Written(s, step); var b := Exec(s, step);
      && i < |s.db.records| == |b.db.records| && b.db.records[i].response.Some?
      && (Truth(b.db.records[i], b.db.records[i].response.value, b.ledger) <==> s.db.records[i].hash.None?)
      && (s.db.records[i].response.Some? ==>
            (VerdictOf(b.db.records[i].response.value) == VerdictOf(s.db.records[i].response.value)
             <==> s.db.records[i].hash.None?))
  {
    var p := s.procs[step.pid];
    assert ProcOk(s.db, s.ledger, p);
    assert AnswerOk(s.db, s.ledger, p.id);
    CompleteGrows(s.db, p.id, Refused(None, p.reason), false);
  }

  lemma EarlyExpiryBreaks(s: Sys, step: Step)
    requires Inv(s) && Enabled(s, step) && !OneLedger(s, step)
    ensures !Procs(Exec(s, step))
  {
    var b := Exec(s, step);
    assert step.pid in b.procs && !ProcOk(b.db, b.ledger, b.procs[step.pid]);
  }

  // From any state that satisfies the invariant, a step keeps it if and only if it is guarded.
  lemma StepKeepsIff(s: Sys, step: Step)
    requires Inv(s) && Enabled(s, step)
    ensures Inv(Exec(s, step)) <==> Guarded(s, step)
  {
    if Guarded(s, step) {
      StepKeeps(s, step);
    } else if !OneLedger(s, step) {
      EarlyExpiryBreaks(s, step);
    } else if step.Store? {
      UnguardedStoreBreaks(s, step);
    } else {
      RefusalIsTrueIff(s, step);
      assert !AnswerOk(Exec(s, step).db, Exec(s, step).ledger, Written(s, step));
    }
  }
}
