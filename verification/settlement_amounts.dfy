/** What amount a stored success reports, over every run. */
module SettlementAmounts {
  import opened Wrappers
  import opened SettlementTables
  import opened SettlementProtocol
  import opened SettlementOwners

  // An upto success reports the amount that was claimed, an exact one none.
  predicate Reports(rec: Record, outcome: Outcome) {
    outcome.Succeeded? ==>
      && rec.amount.Some?
      && (rec.scheme.Upto? ==> outcome.amount == rec.amount)
      && (rec.scheme.Exact? ==> outcome.amount.None?)
  }

  // The request a record was claimed for.
  predicate For(db: Db, id: nat, req: Request) {
    id < |db.records| && db.records[id].amount == Some(req.amount) && db.records[id].scheme == req.scheme
  }

  // A row as it was read still shows the amount and the scheme.
  predicate Shows(db: Db, row: Row) {
    && row.id < |db.records| && row.rec.amount.Some? && row.rec.amount == db.records[row.id].amount
    && row.rec.scheme == db.records[row.id].scheme
  }

  // The request a process works for and the record it works on, up to its answer.
  function Work(p: Proc): Option<(Request, nat)> {
    if p.Claimed? || p.Holding? || p.Ready? || p.StoredIt? then Some((p.req, p.id))
    else if p.Submit? || p.Marking? || p.Polling? then Some((p.req, p.row.id))
    else None
  }

  predicate Reporting(db: Db, p: Proc) {
    && (Work(p).Some? ==> For(db, Work(p).value.1, Work(p).value.0))
    && (p.Finishing? ==> p.id < |db.records| && Reports(db.records[p.id], p.outcome))
    && (p.Recovering? ==>
          && (forall k :: 0 <= k < |p.todo| ==> Shows(db, p.todo[k]))
          && (p.stage.Writing? ==> p.todo != [] && Reports(db.records[p.todo[0].id], p.stage.outcome)))
  }

  // The fingerprint covers the accepted requirements, so it determines the scheme.
  predicate SchemeKept(step: Step, schemeOf: string -> Scheme) {
    step.Start? || step.Verify? ==> step.req.scheme == schemeOf(step.req.fingerprint)
  }

  predicate RecordReports(rec: Record, schemeOf: string -> Scheme) {
    && rec.scheme == schemeOf(rec.fingerprint) && (rec.hash.Some? ==> rec.amount.Some?)
    && (rec.response.Some? ==> Reports(rec, rec.response.value))
  }

  ghost predicate AllReport(s: Sys, schemeOf: string -> Scheme) {
    && (forall i :: 0 <= i < |s.db.records| ==> RecordReports(s.db.records[i], schemeOf))
    && (forall pid :: pid in s.procs ==> Reporting(s.db, s.procs[pid]))
  }

  lemma StaysReporting(a: Db, b: Db, p: Proc)
    requires Reporting(a, p) && RequestsKept(a, b)
    ensures Reporting(b, p)
  {
    if p.Recovering? {
      forall k | 0 <= k < |p.todo| ensures Shows(b, p.todo[k]) {
        assert Shows(a, p.todo[k]) && SameRequest(a.records[p.todo[k].id], b.records[p.todo[k].id]);
      }
    }
  }

  lemma StartReports(s: Sys, step: Step, schemeOf: string -> Scheme)
    requires AllReport(s, schemeOf) && Enabled(s, step) && step.Start? && SchemeKept(step, schemeOf)
    ensures var b := Exec(s, step); forall i :: 0 <= i < |b.db.records| ==> RecordReports(b.db.records[i], schemeOf)
  {
  }

  lemma StarterReports(s: Sys, step: Step, schemeOf: string -> Scheme)
    requires AllReport(s, schemeOf) && Enabled(s, step) && step.Start? && SchemeKept(step, schemeOf)
    requires step.pid in Exec(s, step).procs
    ensures Reporting(Exec(s, step).db, Exec(s, step).procs[step.pid])
  {
    var e := Register(s.db, step.req);
    var i := IndexOf(e.records, step.req.key);
    assert i < |s.db.records| ==> RecordReports(s.db.records[i], schemeOf);
  }

  lemma AnsweringReports(s: Sys, step: Step, schemeOf: string -> Scheme)
    requires AllReport(s, schemeOf) && Enabled(s, step) && Answering(step)
    ensures var b := Exec(s, step); forall i :: 0 <= i < |b.db.records| ==> RecordReports(b.db.records[i], schemeOf)
  {
    assert Reporting(s.db, s.procs[step.pid]);
  }

  lemma MarkingReports(s: Sys, step: Step, schemeOf: string -> Scheme)
    requires AllReport(s, schemeOf) && Enabled(s, step) && Marks(step)
    ensures var b := Exec(s, step); forall i :: 0 <= i < |b.db.records| ==> RecordReports(b.db.records[i], schemeOf)
  {
  }

  lemma VerifyReports(s: Sys, step: Step, schemeOf: string -> Scheme)
    requires AllReport(s, schemeOf) && Enabled(s, step) && step.Verify? && SchemeKept(step, schemeOf)
    ensures var b := Exec(s, step); forall i :: 0 <= i < |b.db.records| ==> RecordReports(b.db.records[i], schemeOf)
  {
  }

  lemma StoreReports(s: Sys, step: Step, schemeOf: string -> Scheme)
    requires AllReport(s, schemeOf) && Enabled(s, step) && step.Store?
    ensures var b := Exec(s, step); forall i :: 0 <= i < |b.db.records| ==> RecordReports(b.db.records[i], schemeOf)
  {
    assert Reporting(s.db, s.procs[step.pid]);
  }

  lemma RecordsReport(s: Sys, step: Step, schemeOf: string -> Scheme)
    requires AllReport(s, schemeOf) && Enabled(s, step) && SchemeKept(step, schemeOf)
    ensures var b := Exec(s, step); forall i :: 0 <= i < |b.db.records| ==> RecordReports(b.db.records[i], schemeOf)
  {
    if step.Start? {
      StartReports(s, step, schemeOf);
    } else if Answering(step) {
      AnsweringReports(s, step, schemeOf);
    } else if step.Store? {
      StoreReports(s, step, schemeOf);
    } else if Marks(step) {
      MarkingReports(s, step, schemeOf);
    } else if step.Verify? {
      VerifyReports(s, step, schemeOf);
    } else {
      OtherStepsLeaveRecords(s, step);
    }
  }

  // A pass that comes to write a verdict writes one of the row it is at.
  lemma PassAnswers(s: Sys, step: Step)
    requires Enabled(s, step) && (step.Ask? || step.AskArchive? || step.ReadExpiry?)
    requires Shows(s.db, s.procs[step.pid].todo[0])
    ensures var p, q := s.procs[step.pid], Exec(s, step).procs[step.pid];
      && q.Recovering?
      && (q.todo == p.todo || (q.todo == p.todo[1..] && !q.stage.Writing?))
      && (q.stage.Writing? ==> Reports(s.db.records[p.todo[0].id], q.stage.outcome))
  {
  }

  lemma PassAdvances(s: Sys, step: Step)
    requires Enabled(s, step) && PassStep(step) && !step.Ask? && !step.AskArchive? && !step.ReadExpiry?
    ensures var p, q := s.procs[step.pid], Exec(s, step).procs[step.pid];
      q == p.(todo := p.todo[1..], stage := Asking)
  {
  }

  lemma PassReports(s: Sys, step: Step)
    requires Enabled(s, step) && PassStep(step)
    requires Reporting(s.db, s.procs[step.pid]) && RequestsKept(s.db, Exec(s, step).db)
    ensures Reporting(Exec(s, step).db, Exec(s, step).procs[step.pid])
  {
    assert Shows(s.db, s.procs[step.pid].todo[0]);
    StaysReporting(s.db, Exec(s, step).db, s.procs[step.pid]);
    if step.Ask? || step.AskArchive? || step.ReadExpiry? {
      OtherStepsLeaveTables(s, step);
      PassAnswers(s, step);
    } else {
      PassAdvances(s, step);
    }
  }

  lemma RecoverReports(s: Sys, step: Step, schemeOf: string -> Scheme)
    requires AllReport(s, schemeOf) && Enabled(s, step) && step.Recover?
    ensures Reporting(Exec(s, step).db, Exec(s, step).procs[step.pid])
  {
    forall k | 0 <= k < |step.ids| ensures Shows(s.db, Rows(s.db, step.ids)[k]) {
      assert RecordReports(s.db.records[step.ids[k]], schemeOf);
    }
  }

  // A process that sends or polls comes to finish with an answer of its own.
  lemma AskerReports(s: Sys, step: Step, schemeOf: string -> Scheme)
    requires AllReport(s, schemeOf) && Enabled(s, step) && (step.Send? || step.PollFound?)
    ensures Reporting(Exec(s, step).db, Exec(s, step).procs[step.pid])
  {
    assert Reporting(s.db, s.procs[step.pid]);
  }

  predicate OtherMove(step: Step) {
    !step.Start? && !step.Recover? && !PassStep(step) && !step.Send? && !step.PollFound?
  }

  // Every other move keeps the request and the record.
  lemma WorkStays(s: Sys, step: Step, pid: nat)
    requires Enabled(s, step) && OtherMove(step)
    requires pid in Exec(s, step).procs && pid in s.procs && Exec(s, step).procs[pid] != s.procs[pid]
    ensures var q := Exec(s, step).procs[pid];
      (Work(q).Some? ==> Work(q) == Work(s.procs[pid])) && !q.Finishing? && !q.Recovering?
  {
  }

  lemma OtherMoverReports(s: Sys, step: Step, pid: nat)
    requires Enabled(s, step) && OtherMove(step)
    requires pid in Exec(s, step).procs && pid in s.procs && Exec(s, step).procs[pid] != s.procs[pid]
    requires Reporting(s.db, s.procs[pid]) && RequestsKept(s.db, Exec(s, step).db)
    ensures Reporting(Exec(s, step).db, Exec(s, step).procs[pid])
  {
    WorkStays(s, step, pid);
    StaysReporting(s.db, Exec(s, step).db, s.procs[pid]);
  }

  lemma OnlyMoverMoves(s: Sys, step: Step, pid: nat)
    requires Enabled(s, step) && pid in Exec(s, step).procs
    requires pid in s.procs ==> Exec(s, step).procs[pid] != s.procs[pid]
    ensures step.Start? || step.Recover? || PassStep(step) || step.Send? || step.PollFound? ==> pid == step.pid
    ensures !step.Start? && !step.Recover? ==> pid in s.procs
  {
  }

  lemma MoverReports(s: Sys, step: Step, pid: nat, schemeOf: string -> Scheme)
    requires AllReport(s, schemeOf) && Enabled(s, step) && SchemeKept(step, schemeOf)
    requires pid in Exec(s, step).procs && (pid in s.procs ==> Exec(s, step).procs[pid] != s.procs[pid])
    ensures Reporting(Exec(s, step).db, Exec(s, step).procs[pid])
  {
    OnlyMoverMoves(s, step, pid);
    if step.Start? {
      StarterReports(s, step, schemeOf);
    } else if step.Recover? {
      RecoverReports(s, step, schemeOf);
    } else if PassStep(step) {
      StepKeepsRequests(s, step);
      PassReports(s, step);
    } else if step.Send? || step.PollFound? {
      AskerReports(s, step, schemeOf);
    } else {
      StepKeepsRequests(s, step);
      OtherMoverReports(s, step, pid);
    }
  }

  lemma StepKeepsReports(s: Sys, step: Step, schemeOf: string -> Scheme)
    requires AllReport(s, schemeOf) && Enabled(s, step) && SchemeKept(step, schemeOf)
    ensures AllReport(Exec(s, step), schemeOf)
  {
    var b := Exec(s, step);
    RecordsReport(s, step, schemeOf);
    forall pid | pid in b.procs ensures Reporting(b.db, b.procs[pid]) {
      if pid in s.procs && b.procs[pid] == s.procs[pid] {
        StepKeepsRequests(s, step);
        StaysReporting(s.db, b.db, s.procs[pid]);
      } else {
        MoverReports(s, step, pid, schemeOf);
      }
    }
  }

  lemma RunKeepsReports(s: Sys, steps: seq<Step>, schemeOf: string -> Scheme)
    requires AllReport(s, schemeOf) && ValidRun(s, steps)
    requires forall k :: 0 <= k < |steps| ==> SchemeKept(steps[k], schemeOf)
    ensures AllReport(Final(s, steps), schemeOf)
    decreases |steps|
  {
    if steps != [] {
      StepKeepsReports(s, steps[0], schemeOf);
      RunKeepsReports(Exec(s, steps[0]), steps[1..], schemeOf);
    }
  }

  // Whoever writes it, a poller for its own request or a recovery pass from the row it read, a success of an upto
  // payment reports the claimed amount and one of an exact payment none.
  lemma SuccessReportsAmount(s: Sys, steps: seq<Step>, schemeOf: string -> Scheme, i: nat)
    requires Init(s) && ValidRun(s, steps)
    requires forall k :: 0 <= k < |steps| ==> SchemeKept(steps[k], schemeOf)
    requires i < |Final(s, steps).db.records| && Final(s, steps).db.records[i].response.Some?
    ensures Reports(Final(s, steps).db.records[i], Final(s, steps).db.records[i].response.value)
  {
    RunKeepsReports(s, steps, schemeOf);
    assert RecordReports(Final(s, steps).db.records[i], schemeOf);
  }
}
