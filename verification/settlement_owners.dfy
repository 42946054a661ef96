/**
 What holds of owners without any hypothesis, and what two owners of one record can do to each other.
 */
module SettlementOwners {
  import opened Wrappers
  import opened SettlementTables
  import opened SettlementProtocol

  // A record keeps the request it was made for, and its amount once one was claimed.
  predicate SameRequest(a: Record, b: Record) {
    && a.key == b.key && a.fingerprint == b.fingerprint && a.scheme == b.scheme
    && (a.amount.Some? ==> b.amount == a.amount)
  }

  ghost predicate RequestsKept(a: Db, b: Db) {
    && |a.records| <= |b.records|
    && forall i :: 0 <= i < |a.records| ==> SameRequest(a.records[i], b.records[i])
  }

  lemma StartKeepsRequests(s: Sys, step: Step)
    requires Enabled(s, step) && step.Start?
    ensures RequestsKept(s.db, Exec(s, step).db)
  {
  }

  lemma AnsweringKeepsRequests(s: Sys, step: Step)
    requires Enabled(s, step) && Answering(step)
    ensures RequestsKept(s.db, Exec(s, step).db)
  {
  }

  lemma StepKeepsRequests(s: Sys, step: Step)
    requires Enabled(s, step)
    ensures RequestsKept(s.db, Exec(s, step).db)
  {
    if step.Start? {
      StartKeepsRequests(s, step);
    } else if Answering(step) {
      AnsweringKeepsRequests(s, step);
    } else if !Marks(step) && !step.Verify? && !step.Store? {
      OtherStepsLeaveRecords(s, step);
    }
  }

  lemma RunKeepsRequests(s: Sys, steps: seq<Step>)
    requires ValidRun(s, steps)
    ensures RequestsKept(s.db, Final(s, steps).db)
    decreases |steps|
  {
    if steps != [] {
      var b := Exec(s, steps[0]);
      StepKeepsRequests(s, steps[0]);
      RunKeepsRequests(b, steps[1..]);
      var f := Final(s, steps);
      forall i | 0 <= i < |s.db.records| ensures SameRequest(s.db.records[i], f.db.records[i]) {
        assert SameRequest(s.db.records[i], b.db.records[i]);
        assert SameRequest(b.db.records[i], f.db.records[i]);
      }
    }
  }

  lemma GrantMatches(s: Sys, step: Step)
    requires Enabled(s, step) && step.Start?
    requires Claim(s.db, step.req, step.workerId, step.now, step.leaseUntil).1.Owner?
    ensures var db := Exec(s, step).db; var i := IndexOf(db.records, step.req.key);
      && i < |db.records| && db.records[i].key == step.req.key
      && db.records[i].fingerprint == step.req.fingerprint && db.records[i].amount == Some(step.req.amount)
  {
    var e := Register(s.db, step.req);
    var d := Exec(s, step).db;
    var i := IndexOf(e.records, step.req.key);
    assert d.records[i].key == step.req.key;
    assert forall j | 0 <= j < |e.records| :: d.records[j].key == e.records[j].key;
    var k := IndexOf(d.records, step.req.key);
    assert d.records[k].key == e.records[k].key;
  }

  // A grant never changes which record a key finds.
  lemma KeysFindTheSameRecord(a: Db, b: Db, key: Key)
    requires RequestsKept(a, b) && IndexOf(a.records, key) < |a.records|
    ensures IndexOf(b.records, key) == IndexOf(a.records, key)
  {
    var i, j := IndexOf(a.records, key), IndexOf(b.records, key);
    assert forall k | 0 <= k <= i :: SameRequest(a.records[k], b.records[k]);
    assert b.records[i].key == key;
    assert forall k | 0 <= k < i :: b.records[k].key != key;
  }

  // All owners of a key, at any two moments of any run, agree on fingerprint and settlement amount.
  lemma OwnersAgree(s: Sys, first: Step, between: seq<Step>, second: Step)
    requires first.Start? && Enabled(s, first) && ValidRun(Exec(s, first), between)
    requires second.Start? && Enabled(Final(Exec(s, first), between), second)
    requires first.req.key == second.req.key
    requires Claim(s.db, first.req, first.workerId, first.now, first.leaseUntil).1.Owner?
    requires var m := Final(Exec(s, first), between);
      Claim(m.db, second.req, second.workerId, second.now, second.leaseUntil).1.Owner?
    ensures first.req.fingerprint == second.req.fingerprint && first.req.amount == second.req.amount
  {
    var a := Exec(s, first);
    var m := Final(a, between);
    GrantMatches(s, first);
    RunKeepsRequests(a, between);
    KeysFindTheSameRecord(a.db, m.db, first.req.key);
    var i := IndexOf(m.db.records, first.req.key);
    assert SameRequest(a.db.records[i], m.db.records[i]);
  }

  /* ---- An orphaned channel ---- */

  // Quarantined for a record that was since stored on another channel.
  predicate Orphaned(db: Db, cid: ChannelId) {
    && cid in db.channels && db.channels[cid].status.Unresolved? && db.channels[cid].settlement.Some?
    && var i := db.channels[cid].settlement.value;
       i < |db.records| && db.records[i].channel.Some? && db.ChannelOf(i) != cid
  }

  // The network of the lease in hand is the network of the record it is for.
  predicate Placed(db: Db, p: Proc) {
    && ((p.Claimed? || p.Holding? || p.Ready?) ==> p.id < |db.records| && db.records[p.id].key == p.req.key)
    && ((p.Holding? || p.Ready?) ==> p.lease.id.network == p.req.key.scope.network)
  }

  ghost predicate AllPlaced(s: Sys) {
    forall pid :: pid in s.procs ==> Placed(s.db, s.procs[pid])
  }

  lemma StartIsPlaced(s: Sys, step: Step)
    requires Enabled(s, step) && step.Start?
    ensures step.pid in Exec(s, step).procs ==> Placed(Exec(s, step).db, Exec(s, step).procs[step.pid])
  {
    if Claim(s.db, step.req, step.workerId, step.now, step.leaseUntil).1.Owner? {
      var e := Register(s.db, step.req);
      assert e.records[IndexOf(e.records, step.req.key)].key == step.req.key;
    }
  }

  predicate Early(p: Proc) { p.Claimed? || p.Holding? || p.Ready? }

  // A process that has not stored yet keeps its request, its record and, once granted, its lease.
  lemma EarlyMoves(s: Sys, step: Step, pid: nat)
    requires Enabled(s, step) && !step.Start?
    requires pid in Exec(s, step).procs && Early(Exec(s, step).procs[pid])
    ensures var q := Exec(s, step).procs[pid];
      && pid in s.procs && Early(s.procs[pid]) && q.req == s.procs[pid].req && q.id == s.procs[pid].id
      && (!q.Claimed? ==>
            q.lease.id.network == q.req.key.scope.network
            || (!s.procs[pid].Claimed? && q.lease == s.procs[pid].lease))
  {
  }

  lemma MoverIsPlaced(s: Sys, step: Step, pid: nat)
    requires AllPlaced(s) && Enabled(s, step) && !step.Start?
    requires pid in Exec(s, step).procs
    ensures Placed(Exec(s, step).db, Exec(s, step).procs[pid])
  {
    if Early(Exec(s, step).procs[pid]) {
      StepKeepsRequests(s, step);
      EarlyMoves(s, step, pid);
      assert Placed(s.db, s.procs[pid]);
    }
  }

  lemma StepKeepsPlaced(s: Sys, step: Step)
    requires AllPlaced(s) && Enabled(s, step)
    ensures AllPlaced(Exec(s, step))
  {
    var b := Exec(s, step);
    forall pid | pid in b.procs ensures Placed(b.db, b.procs[pid]) {
      if !step.Start? {
        MoverIsPlaced(s, step, pid);
      } else if pid == step.pid {
        StartIsPlaced(s, step);
      } else {
        StepKeepsRequests(s, step);
        assert Placed(s.db, s.procs[pid]);
      }
    }
  }

  lemma AnswerKeepsOrphan(db: Db, id: nat, outcome: Outcome, ledgerApplied: bool, cid: ChannelId)
    requires Orphaned(db, cid)
    ensures Orphaned(Complete(db, id, outcome, ledgerApplied), cid)
  {
  }

  lemma AnsweringKeepsOrphan(s: Sys, step: Step, cid: ChannelId)
    requires Enabled(s, step) && Answering(step) && Orphaned(s.db, cid)
    ensures Orphaned(Exec(s, step).db, cid)
  {
    var p := s.procs[step.pid];
    match step
    case Refuse(_) => AnswerKeepsOrphan(s.db, p.id, Refused(None, p.reason), false, cid);
    case Finish(_) => AnswerKeepsOrphan(s.db, p.id, p.outcome, p.ledgerApplied, cid);
    case WriteVerdict(_) => AnswerKeepsOrphan(s.db, p.todo[0].id, p.stage.outcome, p.stage.ledgerApplied, cid);
  }

  lemma StoreKeepsOrphan(s: Sys, step: Step, cid: ChannelId)
    requires AllPlaced(s) && Enabled(s, step) && step.Store? && Orphaned(s.db, cid)
    ensures Orphaned(Exec(s, step).db, cid)
  {
    assert Placed(s.db, s.procs[step.pid]);
  }

  lemma StartKeepsOrphan(s: Sys, step: Step, cid: ChannelId)
    requires Enabled(s, step) && step.Start? && Orphaned(s.db, cid)
    ensures Orphaned(Exec(s, step).db, cid)
  {
    StartKeepsRequests(s, step);
    var i := s.db.channels[cid].settlement.value;
    assert SameRequest(s.db.records[i], Exec(s, step).db.records[i]);
    assert Exec(s, step).db.records[i].channel == s.db.records[i].channel;
  }

  lemma StepKeepsOrphan(s: Sys, step: Step, cid: ChannelId)
    requires AllPlaced(s) && Enabled(s, step) && Orphaned(s.db, cid)
    ensures Orphaned(Exec(s, step).db, cid)
  {
    if step.Start? {
      StartKeepsOrphan(s, step, cid);
    } else if step.Store? {
      StoreKeepsOrphan(s, step, cid);
    } else if Answering(step) {
      AnsweringKeepsOrphan(s, step, cid);
    } else {
      if !Marks(step) && !step.Verify? { OtherStepsLeaveRecords(s, step); }
    }
  }

  // Nothing ever releases an orphaned channel: no answer, recovery pass, boot or operator.
  lemma OrphanIsForever(s: Sys, steps: seq<Step>, cid: ChannelId)
    requires AllPlaced(s) && ValidRun(s, steps) && Orphaned(s.db, cid)
    ensures Orphaned(Final(s, steps).db, cid)
    decreases |steps|
  {
    if steps != [] {
      StepKeepsPlaced(s, steps[0]);
      StepKeepsOrphan(s, steps[0], cid);
      OrphanIsForever(Exec(s, steps[0]), steps[1..], cid);
    }
  }
}
