/**
 Recovery drains the quarantine: one pass, interleaved with anything but new stores, leaves no record
 of a served network waiting and no channel of a served network quarantined.
 */
module SettlementRecovery {
  import opened Wrappers
  import opened SettlementTables
  import opened SettlementProtocol
  import opened SettlementQuarantine
  import opened SettlementInvariant
  import opened SettlementSteps
  import opened SettlementSafety
  import opened SettlementArchive

  predicate InPass(s: Sys, pid: nat) { pid in s.procs && s.procs[pid].Recovering? }

  // No envelope is stored, the pass is not killed and raises no error, and every lookup answers.
  predicate Calm(step: Step, pid: nat) {
    && !step.Store?
    && !(step.Crash? && step.pid == pid)
    && !(step.Abandon? && step.pid == pid)
    && !(step.AskArchive? && step.pid == pid && step.archive.NoAnswer?)
    && (step.ReadExpiry? && step.pid == pid ==> step.answered)
  }

  predicate CalmRun(steps: seq<Step>, pid: nat) {
    forall k :: 0 <= k < |steps| ==> Calm(steps[k], pid)
  }

  predicate PastMaxTime(todo: seq<Row>, ledger: Ledger) {
    forall k :: 0 <= k < |todo| ==> Expired(todo[k].rec, ledger)
  }

  predicate OnList(todo: seq<Row>, id: nat) {
    exists k :: 0 <= k < |todo| && todo[k].id == id
  }

  // Every record of a served network that still waits is ahead of the pass.
  predicate Covers(s: Sys, pid: nat)
    requires InPass(s, pid)
  {
    forall i :: 0 <= i < |s.db.records| && Waiting(s.db.records[i]) ==>
      (s.db.records[i].Network() in s.procs[pid].networks ==> OnList(s.procs[pid].todo, i))
  }

  // Between rows the pass is asking; once the archive missed a hash it stays missing.
  predicate OnTrack(p: Proc, ledger: Ledger)
    requires p.Recovering?
  {
    && (!p.stage.Asking? ==> p.todo != [] && p.todo[0].rec.Network() in p.networks)
    && (p.stage.Expiry? ==> p.todo[0].rec.hash.Some? && p.todo[0].rec.hash.value !in ledger.applied)
  }

  predicate Draining(s: Sys, pid: nat) {
    && InPass(s, pid) && Covers(s, pid)
    && PastMaxTime(s.procs[pid].todo, s.ledger) && OnTrack(s.procs[pid], s.ledger)
  }

  // Guarded, but for the expiry answers of the pass itself.
  predicate GuardedBeside(s: Sys, step: Step, pid: nat)
    requires Enabled(s, step)
  {
    WritesFresh(s, step) && (OneLedger(s, step) || (step.ReadExpiry? && step.pid == pid))
  }

  predicate GuardedRunBeside(s: Sys, steps: seq<Step>, pid: nat)
    requires ValidRun(s, steps)
    decreases |steps|
  {
    steps == [] || (GuardedBeside(s, steps[0], pid) && GuardedRunBeside(Exec(s, steps[0]), steps[1..], pid))
  }

  lemma GuardedIsGuardedBeside(s: Sys, steps: seq<Step>, pid: nat)
    requires ValidRun(s, steps) && GuardedRun(s, steps)
    ensures GuardedRunBeside(s, steps, pid)
    decreases |steps|
  {
    if steps != [] { GuardedIsGuardedBeside(Exec(s, steps[0]), steps[1..], pid); }
  }

  // Without a store nothing starts to wait.
  lemma NothingStartsWaiting(s: Sys, step: Step)
    requires Inv(s) && Enabled(s, step) && WritesFresh(s, step) && !step.Store?
    ensures var b := Exec(s, step);
      forall i :: 0 <= i < |b.db.records| && Waiting(b.db.records[i]) ==>
        i < |s.db.records| && Waiting(s.db.records[i]) && b.db.records[i].Network() == s.db.records[i].Network()
  {
    StepGrows(s, step);
    if Answering(step) { AnsweringGrows(s, step); }
  }

  lemma PassIsLeftAlone(s: Sys, step: Step, pid: nat)
    requires Enabled(s, step) && InPass(s, pid)
    requires !(step.Crash? && step.pid == pid) && !(PassStep(step) && step.pid == pid)
    ensures pid in Exec(s, step).procs && Exec(s, step).procs[pid] == s.procs[pid]
  {
  }

  // A pass stays at its row, or leaves it because it is foreign or answered.
  predicate Moved(p: Proc, q: Proc, db: Db)
    requires p.Recovering? && q.Recovering?
  {
    && q.networks == p.networks
    && (q.todo == p.todo
        || (p.todo != [] && q.todo == p.todo[1..]
            && (p.todo[0].rec.Network() !in p.networks
                || (p.todo[0].id < |db.records| && db.records[p.todo[0].id].response.Some?))))
  }

  lemma PassMoves(s: Sys, step: Step, pid: nat)
    requires Inv(s) && Enabled(s, step) && InPass(s, pid) && Calm(step, pid)
    requires PastMaxTime(s.procs[pid].todo, s.ledger)
    ensures InPass(Exec(s, step), pid)
    ensures Moved(s.procs[pid], Exec(s, step).procs[pid], Exec(s, step).db)
  {
    if PassStep(step) && step.pid == pid {
      assert ProcOk(s.db, s.ledger, s.procs[pid]);
    } else {
      PassIsLeftAlone(s, step, pid);
    }
  }

  lemma OwnStepKeepsTrack(s: Sys, step: Step)
    requires Enabled(s, step) && PassStep(step) && Calm(step, step.pid)
    requires PastMaxTime(s.procs[step.pid].todo, s.ledger) && OnTrack(s.procs[step.pid], s.ledger)
    ensures var t := RecoveryStep(s, step); InPass(t, step.pid) && OnTrack(t.procs[step.pid], t.ledger)
  {
  }

  lemma StepKeepsTrack(s: Sys, step: Step, pid: nat)
    requires Inv(s) && Enabled(s, step) && Draining(s, pid) && Calm(step, pid)
    ensures InPass(Exec(s, step), pid) && OnTrack(Exec(s, step).procs[pid], Exec(s, step).ledger)
  {
    var p := s.procs[pid];
    if PassStep(step) && step.pid == pid {
      OwnStepKeepsTrack(s, step);
    } else {
      PassIsLeftAlone(s, step, pid);
      if p.stage.Expiry? {
        assert ProcOk(s.db, s.ledger, p);
        assert RowOk(s.db, p.todo[0]) && Expired(p.todo[0].rec, s.ledger);
        MissingStaysMissing(s, step, p.todo[0].rec);
      }
    }
  }

  lemma StepKeepsDraining(s: Sys, step: Step, pid: nat)
    requires Inv(s) && Enabled(s, step) && WritesFresh(s, step) && Draining(s, pid) && Calm(step, pid)
    ensures Draining(Exec(s, step), pid)
    ensures Exec(s, step).procs[pid].networks == s.procs[pid].networks
  {
    var b := Exec(s, step);
    NothingStartsWaiting(s, step);
    PassMoves(s, step, pid);
    StepKeepsTrack(s, step, pid);
    CloseTimeRises(s, step);
    assert ProcOk(s.db, s.ledger, s.procs[pid]);
    LeftIsCovered(s, b, pid);
  }

  // What is left of a pass after a step still covers what waits, and is still past its maximum times.
  lemma LeftIsCovered(s: Sys, b: Sys, pid: nat)
    requires InPass(s, pid) && InPass(b, pid) && ProcOk(s.db, s.ledger, s.procs[pid])
    requires Covers(s, pid) && PastMaxTime(s.procs[pid].todo, s.ledger) && s.ledger.closeTime <= b.ledger.closeTime
    requires forall i :: 0 <= i < |b.db.records| && Waiting(b.db.records[i]) ==>
      i < |s.db.records| && Waiting(s.db.records[i]) && b.db.records[i].Network() == s.db.records[i].Network()
    requires Moved(s.procs[pid], b.procs[pid], b.db)
    ensures Covers(b, pid) && PastMaxTime(b.procs[pid].todo, b.ledger)
  {
    var p, q := s.procs[pid], b.procs[pid];
    forall k | 0 <= k < |q.todo| ensures Expired(q.todo[k].rec, b.ledger) {
      assert Expired(p.todo[k].rec, s.ledger);
      assert k + 1 < |p.todo| ==> Expired(p.todo[k + 1].rec, s.ledger);
    }
    forall i | 0 <= i < |b.db.records| && Waiting(b.db.records[i]) && b.db.records[i].Network() in q.networks
      ensures OnList(q.todo, i)
    {
      assert OnList(p.todo, i);
      var k :| 0 <= k < |p.todo| && p.todo[k].id == i;
      if q.todo != p.todo {
        assert RowOk(s.db, p.todo[k]);
        assert k != 0;
        assert q.todo[k - 1].id == i;
      }
    }
  }

  lemma RunKeepsDraining(s: Sys, steps: seq<Step>, pid: nat)
    requires Inv(s) && ValidRun(s, steps) && GuardedRunBeside(s, steps, pid)
    requires Draining(s, pid) && CalmRun(steps, pid)
    ensures GuardedRun(s, steps) && Draining(Final(s, steps), pid)
    ensures Final(s, steps).procs[pid].networks == s.procs[pid].networks
    decreases |steps|
  {
    if steps != [] {
      assert Calm(steps[0], pid);
      StepKeeps(s, steps[0]);
      StepKeepsDraining(s, steps[0], pid);
      assert CalmRun(steps[1..], pid);
      RunKeepsDraining(Exec(s, steps[0]), steps[1..], pid);
    }
  }

  // A pass that just listed the waiting records.
  lemma PassStarts(s: Sys, start: Step)
    requires Inv(s) && start.Recover? && Enabled(s, start)
    requires PastMaxTime(Rows(s.db, start.ids), s.ledger)
    ensures Draining(Exec(s, start), start.pid)
  {
    var m := Exec(s, start);
    forall i | 0 <= i < |m.db.records| && Waiting(m.db.records[i]) && m.db.records[i].Network() in start.networks
      ensures OnList(m.procs[start.pid].todo, i)
    {
      assert RecordOk(s.db, i);
      var k :| 0 <= k < |start.ids| && start.ids[k] == i;
      assert m.procs[start.pid].todo[k].id == i;
    }
  }

  ghost predicate Drained(db: Db, networks: set<string>) {
    && (forall i :: 0 <= i < |db.records| && Waiting(db.records[i]) ==> db.records[i].Network() !in networks)
    && (forall cid :: cid in db.channels && db.channels[cid].status.Unresolved? ==> cid.network !in networks)
  }

  lemma FinishedPassDrained(f: Sys, pid: nat)
    requires Inv(f) && Draining(f, pid) && f.procs[pid].todo == []
    ensures Drained(f.db, f.procs[pid].networks)
  {
    var todo := f.procs[pid].todo;
    assert forall i: nat :: !OnList(todo, i);
    Correspondence(f.db);
  }

  // A waiting record that waits no longer was answered.
  lemma WaitedAndAnswered(m: Sys, f: Sys, i: nat)
    requires Advances(m, f) && i < |m.db.records| && m.db.records[i].hash.Some?
    ensures i < |f.db.records| && f.db.records[i].key == m.db.records[i].key
    ensures f.db.records[i].response.Some? || Waiting(f.db.records[i])
  {
    assert RowAdvances(m.db.records[i], f.db.records[i]);
  }

  // From any state that satisfies the invariant, when a pass starts, every listed envelope is past its
  // maximum time and the run stays calm until the pass has visited its last row, then no record of a
  // served network waits any more, no channel of a served network is quarantined, and every listed
  // record of a served network is answered.
  lemma PassDrainsFrom(a: Sys, start: Step, after: seq<Step>)
    requires Inv(a) && start.Recover? && Enabled(a, start)
    requires PastMaxTime(Rows(a.db, start.ids), a.ledger)
    requires ValidRun(Exec(a, start), after) && GuardedRunBeside(Exec(a, start), after, start.pid)
    requires CalmRun(after, start.pid)
    requires var f := Final(Exec(a, start), after);
      InPass(f, start.pid) && f.procs[start.pid].todo == []
    ensures Drained(Final(Exec(a, start), after).db, start.networks)
    ensures var f := Final(Exec(a, start), after);
      forall k :: 0 <= k < |start.ids| && a.db.records[start.ids[k]].Network() in start.networks
        ==> start.ids[k] < |f.db.records| && f.db.records[start.ids[k]].response.Some?
  {
    var m := Exec(a, start);
    var f := Final(m, after);
    StepKeeps(a, start);
    PassStarts(a, start);
    RunKeepsDraining(m, after, start.pid);
    RunKeeps(m, after);
    RunAdvances(m, after);
    FinishedPassDrained(f, start.pid);
    forall k | 0 <= k < |start.ids| && a.db.records[start.ids[k]].Network() in start.networks
      ensures start.ids[k] < |f.db.records| && f.db.records[start.ids[k]].response.Some?
    {
      WaitedAndAnswered(m, f, start.ids[k]);
    }
  }

  // The same from any reachable state.
  lemma PassDrains(s: Sys, before: seq<Step>, start: Step, after: seq<Step>)
    requires Init(s) && ValidRun(s, before) && GuardedRun(s, before)
    requires start.Recover? && Enabled(Final(s, before), start)
    requires PastMaxTime(Rows(Final(s, before).db, start.ids), Final(s, before).ledger)
    requires var m := Exec(Final(s, before), start);
      ValidRun(m, after) && GuardedRunBeside(m, after, start.pid) && CalmRun(after, start.pid)
    requires var f := Final(Exec(Final(s, before), start), after);
      InPass(f, start.pid) && f.procs[start.pid].todo == []
    ensures Drained(Final(Exec(Final(s, before), start), after).db, start.networks)
  {
    RunKeeps(s, before);
    PassDrainsFrom(Final(s, before), start, after);
  }

  /* ---- The pass can always go on ---- */

  function Rank(stage: Stage): nat {
    match stage
    case Asking => 3
    case Archive => 2
    case Expiry => 1
    case Writing(_, _) => 0
  }

  function Left(p: Proc): nat
    requires p.Recovering?
  {
    if p.todo == [] then 0 else 4 * (|p.todo| - 1) + Rank(p.stage) + 1
  }

  // What the pass does next when every lookup answers.
  function NextStep(s: Sys, pid: nat): Step
    requires InPass(s, pid) && s.procs[pid].todo != [] && s.procs[pid].todo[0].rec.hash.Some?
  {
    var p := s.procs[pid];
    var found := p.todo[0].rec.hash.value in s.ledger.applied;
    match p.stage
    case Asking => if p.todo[0].rec.Network() in p.networks then Ask(pid, found) else SkipForeign(pid)
    case Archive => AskArchive(pid, if found then Found else NotFound)
    case Expiry => ReadExpiry(pid, true)
    case Writing(_, _) => WriteVerdict(pid)
  }

  // A draining pass with rows left is never stuck: it has an enabled, guarded and calm step that
  // shortens what is left.
  lemma PassProgresses(s: Sys, pid: nat)
    requires Inv(s) && Draining(s, pid) && s.procs[pid].todo != []
    ensures s.procs[pid].todo[0].rec.hash.Some?
    ensures var step := NextStep(s, pid);
      && Enabled(s, step) && Guarded(s, step) && Calm(step, pid)
      && InPass(Exec(s, step), pid) && Left(Exec(s, step).procs[pid]) < Left(s.procs[pid])
  {
    assert ProcOk(s.db, s.ledger, s.procs[pid]);
    assert RowOk(s.db, s.procs[pid].todo[0]);
    NextStepShortens(s, pid);
  }

  lemma NextStepShortens(s: Sys, pid: nat)
    requires InPass(s, pid) && s.procs[pid].todo != [] && s.procs[pid].todo[0].rec.hash.Some?
    requires Enabled(s, NextStep(s, pid))
    ensures var b := Exec(s, NextStep(s, pid)); InPass(b, pid) && Left(b.procs[pid]) < Left(s.procs[pid])
  {
  }

  // One such step, and the pass is still draining.
  lemma PassSteps(s: Sys, pid: nat) returns (step: Step, t: Sys)
    requires Inv(s) && Draining(s, pid) && s.procs[pid].todo != []
    ensures Enabled(s, step) && Guarded(s, step) && Calm(step, pid) && t == Exec(s, step)
    ensures Inv(t) && Draining(t, pid) && Left(t.procs[pid]) < Left(s.procs[pid])
  {
    PassProgresses(s, pid);
    step := NextStep(s, pid);
    t := Exec(s, step);
    StepKeeps(s, step);
    StepKeepsDraining(s, step, pid);
  }

  lemma StepFirst(s: Sys, step: Step, rest: seq<Step>, pid: nat)
    requires Enabled(s, step) && Guarded(s, step) && Calm(step, pid)
    requires ValidRun(Exec(s, step), rest) && GuardedRun(Exec(s, step), rest) && CalmRun(rest, pid)
    ensures ValidRun(s, [step] + rest) && GuardedRun(s, [step] + rest) && CalmRun([step] + rest, pid)
    ensures Final(s, [step] + rest) == Final(Exec(s, step), rest)
  {
    assert ([step] + rest)[1..] == rest;
  }

  // So every pass over n rows can be completed calmly, in at most 4n steps.
  lemma PassCanFinish(s: Sys, pid: nat) returns (steps: seq<Step>)
    requires Inv(s) && Draining(s, pid)
    ensures ValidRun(s, steps) && GuardedRun(s, steps) && CalmRun(steps, pid)
    ensures InPass(Final(s, steps), pid) && Final(s, steps).procs[pid].todo == []
    ensures |steps| <= Left(s.procs[pid]) <= 4 * |s.procs[pid].todo|
    decreases Left(s.procs[pid])
  {
    if s.procs[pid].todo == [] {
      steps := [];
    } else {
      var step, t := PassSteps(s, pid);
      var rest := PassCanFinish(t, pid);
      StepFirst(s, step, rest, pid);
      steps := [step] + rest;
    }
  }
}
