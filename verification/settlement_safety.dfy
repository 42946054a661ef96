/** What guarded runs guarantee, for every interleaving, crash and recovery pass. */
module SettlementSafety {
  import opened Wrappers
  import opened SettlementTables
  import opened SettlementProtocol
  import opened SettlementQuarantine
  import opened SettlementInvariant
  import opened SettlementSteps

  /* ---- Every reachable state ---- */

  lemma RunKeeps(s: Sys, steps: seq<Step>)
    requires Inv(s) && ValidRun(s, steps) && GuardedRun(s, steps)
    ensures Inv(Final(s, steps))
    decreases |steps|
  {
    if steps != [] {
      StepKeeps(s, steps[0]);
      RunKeeps(Exec(s, steps[0]), steps[1..]);
    }
  }

  ghost predicate InvThroughout(s: Sys, steps: seq<Step>)
    requires ValidRun(s, steps)
    decreases |steps|
  {
    Inv(s) && (steps == [] || InvThroughout(Exec(s, steps[0]), steps[1..]))
  }

  // A run keeps the invariant in all its states if and only if every step of it is guarded.
  lemma {:induction false} RunKeepsIff(s: Sys, steps: seq<Step>)
    requires Inv(s) && ValidRun(s, steps)
    ensures InvThroughout(s, steps) <==> GuardedRun(s, steps)
    decreases |steps|
  {
    if steps != [] {
      StepKeepsIff(s, steps[0]);
      if Guarded(s, steps[0]) { RunKeepsIff(Exec(s, steps[0]), steps[1..]); }
    }
  }

  // A stored answer is what the ledger did: a success was applied and succeeded, a transaction
  // failure was applied and failed, and after any other refusal of a stored hash the ledger has not
  // applied that hash and never can.
  lemma StoredAnswersAreTrue(s: Sys, steps: seq<Step>)
    requires Init(s) && ValidRun(s, steps) && GuardedRun(s, steps)
    ensures var f := Final(s, steps);
      forall i :: 0 <= i < |f.db.records| && f.db.records[i].response.Some? ==>
        var rec := f.db.records[i];
        match rec.response.value
        case Succeeded(h, amount) =>
          && rec.hash == Some(h) && h in f.ledger.applied && f.ledger.applied[h]
          && (amount.Some? ==> amount == rec.amount)
        case Refused(None, reason) => rec.hash.None? && BeforeStore(reason)
        case Refused(Some(h), reason) =>
          && rec.hash == Some(h)
          && (if reason.TransactionFailed? then h in f.ledger.applied && !f.ledger.applied[h]
              else (reason.ExpiredUnconfirmed? || reason.SubmissionFailed?) && Dead(h, f.ledger))
  {
    RunKeeps(s, steps);
    var f := Final(s, steps);
    forall i | 0 <= i < |f.db.records| && f.db.records[i].response.Some?
      ensures Truth(f.db.records[i], f.db.records[i].response.value, f.ledger)
    {
      assert AnswerOk(f.db, f.ledger, i);
    }
  }

  // No quarantined channel is unknown to recovery, and no listed record has lost its channel.
  lemma QuarantineAlwaysMatches(s: Sys, steps: seq<Step>)
    requires Init(s) && ValidRun(s, steps) && GuardedRun(s, steps)
    ensures var db := Final(s, steps).db;
      && (forall cid :: cid in db.channels && db.channels[cid].status.Unresolved? ==>
            && db.channels[cid].settlement.Some?
            && db.channels[cid].settlement.value < |db.records|
            && db.records[db.channels[cid].settlement.value].Listed()
            && Quarantines(db, cid, db.channels[cid].settlement.value))
      && (forall i :: 0 <= i < |db.records| && db.records[i].Listed() ==>
            && db.records[i].channel.Some? && Quarantines(db, db.ChannelOf(i), i)
            && db.channels[db.ChannelOf(i)].status.Unresolved?)
      && (forall cid, other ::
            (cid in db.channels && other in db.channels && db.channels[cid].settlement.Some?
             && db.channels[cid].settlement == db.channels[other].settlement)
            ==> cid == other)
  {
    RunKeeps(s, steps);
    Correspondence(Final(s, steps).db);
  }

  /* ---- What a run never takes back ---- */

  // Two true answers for one record are one verdict, whoever gives them.
  lemma TrueAnswersAgree(rec: Record, first: Outcome, second: Outcome, ledger: Ledger)
    requires LedgerOk(ledger) && Truth(rec, first, ledger) && Truth(rec, second, ledger)
    ensures VerdictOf(first) == VerdictOf(second)
  {
  }

  // Identities, claimed amounts and stored envelopes stay; answers keep their verdict; the ledger
  // revokes nothing and never revives a dead hash.
  ghost predicate Advances(a: Sys, b: Sys) {
    && |a.db.records| <= |b.db.records|
    && (forall i :: 0 <= i < |a.db.records| ==> RowAdvances(a.db.records[i], b.db.records[i]))
    && (forall i :: 0 <= i < |a.db.records| && a.db.records[i].response.Some? ==>
          VerdictOf(b.db.records[i].response.value) == VerdictOf(a.db.records[i].response.value))
    && LedgerGrows(a.ledger, b.ledger)
  }

  lemma StepAdvances(s: Sys, step: Step)
    requires Inv(s) && Enabled(s, step) && Guarded(s, step)
    ensures Advances(s, Exec(s, step))
  {
    var b := Exec(s, step);
    StepKeeps(s, step);
    StepGrows(s, step);
    StepGrowsLedger(s, step);
    forall i | 0 <= i < |s.db.records| && s.db.records[i].response.Some?
      ensures VerdictOf(b.db.records[i].response.value) == VerdictOf(s.db.records[i].response.value)
    {
      assert AnswerOk(s.db, s.ledger, i) && AnswerOk(b.db, b.ledger, i);
      TrueAnswersAgree(b.db.records[i], s.db.records[i].response.value, b.db.records[i].response.value, b.ledger);
    }
  }

  lemma RunAdvances(s: Sys, steps: seq<Step>)
    requires Inv(s) && ValidRun(s, steps) && GuardedRun(s, steps)
    ensures Advances(s, Final(s, steps))
    decreases |steps|
  {
    if steps != [] {
      var b := Exec(s, steps[0]);
      StepKeeps(s, steps[0]);
      StepAdvances(s, steps[0]);
      RunAdvances(b, steps[1..]);
      AdvancesTransitive(s, b, Final(b, steps[1..]));
    }
  }

  lemma AdvancesTransitive(a: Sys, b: Sys, c: Sys)
    requires Advances(a, b) && Advances(b, c)
    ensures Advances(a, c)
  {
    forall i | 0 <= i < |a.db.records| ensures RowAdvances(a.db.records[i], c.db.records[i]) {
      assert RowAdvances(a.db.records[i], b.db.records[i]);
      assert RowAdvances(b.db.records[i], c.db.records[i]);
    }
  }

  // The verdict and the hash of an answered record are final, even when a poller and a recovery pass
  // both answer it: between any two states of a run.
  lemma VerdictIsFinal(s: Sys, before: seq<Step>, after: seq<Step>, i: nat)
    requires Init(s) && ValidRun(s, before) && GuardedRun(s, before)
    requires var m := Final(s, before); ValidRun(m, after) && GuardedRun(m, after)
    requires i < |Final(s, before).db.records| && Final(s, before).db.records[i].response.Some?
    ensures var m := Final(s, before); var f := Final(m, after);
      && i < |f.db.records| && f.db.records[i].response.Some?
      && f.db.records[i].hash == m.db.records[i].hash
      && VerdictOf(f.db.records[i].response.value) == VerdictOf(m.db.records[i].response.value)
  {
    RunKeeps(s, before);
    RunAdvances(Final(s, before), after);
    assert RowAdvances(Final(s, before).db.records[i], Final(Final(s, before), after).db.records[i]);
  }

  // A hash answered as expired or rejected is never applied later.
  lemma DeadHashNeverApplies(s: Sys, before: seq<Step>, after: seq<Step>, i: nat, h: Hash, reason: Reason)
    requires Init(s) && ValidRun(s, before) && GuardedRun(s, before)
    requires var m := Final(s, before); ValidRun(m, after) && GuardedRun(m, after)
    requires var m := Final(s, before);
      i < |m.db.records| && m.db.records[i].response == Some(Refused(Some(h), reason)) && !reason.TransactionFailed?
    ensures h !in Final(Final(s, before), after).ledger.applied
  {
    RunKeeps(s, before);
    assert AnswerOk(Final(s, before).db, Final(s, before).ledger, i);
    RunAdvances(Final(s, before), after);
  }

  // A record receives at most one envelope: once it has a hash it keeps that hash, envelope, channel,
  // token and sequence, and no later claim of its key makes anyone an owner again.
  lemma OneEnvelopePerRecord(s: Sys, before: seq<Step>, after: seq<Step>, i: nat,
                             req: Request, workerId: string, now: nat, leaseUntil: nat)
    requires Init(s) && ValidRun(s, before) && GuardedRun(s, before)
    requires var m := Final(s, before); ValidRun(m, after) && GuardedRun(m, after)
    requires i < |Final(s, before).db.records| && Final(s, before).db.records[i].hash.Some?
    requires req.key == Final(s, before).db.records[i].key
    ensures var m := Final(s, before); var f := Final(m, after);
      && i < |f.db.records|
      && f.db.records[i].hash == m.db.records[i].hash && f.db.records[i].envelope == m.db.records[i].envelope
      && f.db.records[i].channel == m.db.records[i].channel && f.db.records[i].token == m.db.records[i].token
      && f.db.records[i].sequence == m.db.records[i].sequence
      && (match Claim(f.db, req, workerId, now, leaseUntil).1
          case Owner(_) => false
          case Wait(_) => false
          case Resume(id) => id == i
          case Cached(id, _) => id == i
          case _ => true)
  {
    RunKeeps(s, before);
    RunAdvances(Final(s, before), after);
    RunKeeps(Final(s, before), after);
    var f := Final(Final(s, before), after);
    assert RowAdvances(Final(s, before).db.records[i], f.db.records[i]);
    var found := IndexOf(f.db.records, req.key);
    assert f.db.records[i].key == req.key;
    assert UniqueKeys(f.db);
    assert found == i;
  }
}
