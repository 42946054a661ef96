/**
 The invariant of guarded runs: tables agree, processes hold what they read, and every stored answer is
 what the ledger did.
 */
module SettlementInvariant {
  import opened Wrappers
  import opened SettlementTables
  import opened SettlementProtocol
  import opened SettlementQuarantine

  /* ---- What an answer says ---- */

  predicate BeforeStore(reason: Reason) {
    reason.UnexpectedError? || reason.VerificationFailed? || reason.BudgetRefused? || reason.FenceRefused?
  }

  // The hash can never be applied any more.
  predicate Dead(h: Hash, ledger: Ledger) {
    h !in ledger.applied
    && (h in ledger.rejected || (h.envelope.maxTime.Some? && ledger.closeTime > h.envelope.maxTime.value))
  }

  predicate Truth(rec: Record, outcome: Outcome, ledger: Ledger) {
    match outcome
    case Succeeded(h, amount) =>
      rec.hash == Some(h) && h in ledger.applied && ledger.applied[h] && (amount.Some? ==> rec.amount == amount)
    case Refused(None, reason) => rec.hash.None? && BeforeStore(reason)
    case Refused(Some(h), reason) =>
      && rec.hash == Some(h)
      && (reason.TransactionFailed? || reason.SubmissionFailed? || reason.ExpiredUnconfirmed?)
      && (reason.TransactionFailed? ==> h in ledger.applied && !ledger.applied[h])
      && (!reason.TransactionFailed? ==> Dead(h, ledger))
  }

  // Answers that a lookup of the hash gave.
  predicate FromLedger(outcome: Outcome) {
    outcome.Succeeded? || outcome.reason.TransactionFailed?
  }

  // Whether the payment went through, and under which hash.
  function VerdictOf(outcome: Outcome): (bool, Option<Hash>) {
    match outcome
    case Succeeded(h, _) => (true, Some(h))
    case Refused(h, _) => (false, h)
  }

  predicate Sound(rec: Record, outcome: Outcome, ledgerApplied: bool, ledger: Ledger) {
    Truth(rec, outcome, ledger) && (ledgerApplied <==> FromLedger(outcome))
  }

  /* ---- What a process knows ---- */

  predicate RowOk(db: Db, row: Row) {
    && row.id < |db.records| && row.rec.hash.Some? && WellFormed(row.rec)
    && row.rec.hash == db.records[row.id].hash
    && row.rec.amount == db.records[row.id].amount
    && row.rec.key == db.records[row.id].key
  }

  predicate Matches(rec: Record, req: Request) {
    rec.key == req.key && rec.fingerprint == req.fingerprint && rec.amount == Some(req.amount)
  }

  predicate OwnerOk(db: Db, req: Request, id: nat) { id < |db.records| && Matches(db.records[id], req) }

  predicate ProcOk(db: Db, ledger: Ledger, p: Proc) {
    match p
    case Claimed(req, id) => OwnerOk(db, req, id)
    case Holding(req, id, lease) => OwnerOk(db, req, id) && lease.id.network == req.key.scope.network
    case Ready(req, id, lease, _) => OwnerOk(db, req, id) && lease.id.network == req.key.scope.network
    case Releasing(req, id, _, refusal) => OwnerOk(db, req, id) && (refusal.Some? ==> BeforeStore(refusal.value))
    case Refusing(req, id, reason) => OwnerOk(db, req, id) && BeforeStore(reason)
    case StoredIt(req, id) => id < |db.records| && Matches(db.records[id], req) && db.records[id].hash.Some?
    case Submit(req, row) => RowOk(db, row) && Matches(db.records[row.id], req)
    case Marking(req, row, _) => RowOk(db, row) && Matches(db.records[row.id], req)
    case Polling(req, row) => RowOk(db, row) && Matches(db.records[row.id], req)
    case Finishing(id, outcome, ledgerApplied) =>
      id < |db.records| && db.records[id].hash.Some? && Sound(db.records[id], outcome, ledgerApplied, ledger)
    case Recovering(_, todo, stage) =>
      && (forall k :: 0 <= k < |todo| ==> RowOk(db, todo[k]))
      && (stage.Writing? ==>
            todo != [] && Sound(db.records[todo[0].id], stage.outcome, stage.ledgerApplied, ledger))
  }

  /* ---- The invariant ---- */

  predicate LedgerOk(ledger: Ledger) { ledger.applied.Keys !! ledger.rejected }

  predicate AnswerOk(db: Db, ledger: Ledger, i: nat)
    requires i < |db.records|
  {
    db.records[i].response.Some? ==> Truth(db.records[i], db.records[i].response.value, ledger)
  }

  predicate Answers(db: Db, ledger: Ledger) {
    forall i :: 0 <= i < |db.records| ==> AnswerOk(db, ledger, i)
  }

  // An envelope is stored only for a claimed amount.
  predicate Amounts(db: Db) {
    forall i :: 0 <= i < |db.records| && db.records[i].hash.Some? ==> db.records[i].amount.Some?
  }

  predicate Procs(s: Sys) {
    forall pid :: pid in s.procs ==> ProcOk(s.db, s.ledger, s.procs[pid])
  }

  predicate Inv(s: Sys) {
    Agree(s.db) && LedgerOk(s.ledger) && Answers(s.db, s.ledger) && Amounts(s.db) && Procs(s)
  }

  /* ---- Stability ---- */

  // A record keeps its identity, its claimed amount and its stored envelope.
  predicate Grows(a: Record, b: Record) {
    && a.key == b.key && a.fingerprint == b.fingerprint && a.scheme == b.scheme
    && (a.amount.Some? ==> b.amount == a.amount)
    && (a.hash.Some? ==> b.hash == a.hash && b.envelope == a.envelope && b.channel == a.channel
                         && b.token == a.token && b.sequence == a.sequence)
  }

  predicate LedgerGrows(a: Ledger, b: Ledger) {
    && (forall h :: h in a.applied ==> h in b.applied && b.applied[h] == a.applied[h])
    && a.rejected <= b.rejected && a.closeTime <= b.closeTime
    && (forall h :: h in b.applied && h !in a.applied ==> !Dead(h, a))
  }

  predicate RowAdvances(a: Record, b: Record) {
    Grows(a, b) && (a.response.Some? ==> b.response.Some? && b.hash == a.hash)
  }

  // Every record advances, all but record `t` keep their envelope and answer, and new ones have neither.
  predicate DbGrows(a: Db, b: Db, t: nat) {
    && |a.records| <= |b.records|
    && (forall i :: 0 <= i < |a.records| ==> RowAdvances(a.records[i], b.records[i]))
    && (forall i :: 0 <= i < |a.records| && i != t ==>
          b.records[i].hash == a.records[i].hash && b.records[i].response == a.records[i].response)
    && (forall i :: |a.records| <= i < |b.records| ==> b.records[i].hash.None? && b.records[i].response.None?)
  }

  lemma ProcIsStable(a: Sys, b: Sys, p: Proc, t: nat)
    requires ProcOk(a.db, a.ledger, p) && Amounts(a.db)
    requires DbGrows(a.db, b.db, t) && LedgerGrows(a.ledger, b.ledger)
    ensures ProcOk(b.db, b.ledger, p)
  {
    match p
    case Recovering(_, todo, stage) =>
      forall k | 0 <= k < |todo| ensures RowOk(b.db, todo[k]) {
        assert RowOk(a.db, todo[k]);
      }
      if stage.Writing? {
        assert RowOk(a.db, todo[0]);
      }
    case Finishing(id, outcome, _) =>
    case _ =>
  }

  // Answers stay true in all records but the one that is written, and there if its answer is true.
  lemma AnswersAreStable(a: Sys, b: Sys, t: nat)
    requires Answers(a.db, a.ledger) && DbGrows(a.db, b.db, t) && LedgerGrows(a.ledger, b.ledger)
    requires t < |b.db.records| ==> AnswerOk(b.db, b.ledger, t)
    ensures Answers(b.db, b.ledger)
  {
    forall i | 0 <= i < |b.db.records| ensures AnswerOk(b.db, b.ledger, i) {
      if i < |a.db.records| && i != t && b.db.records[i].response.Some? {
        assert AnswerOk(a.db, a.ledger, i);
      }
    }
  }

  /* ---- What the statements do to records ---- */

  lemma RegisterGrows(db: Db, req: Request)
    requires Amounts(db)
    ensures var d := Register(db, req);
      DbGrows(db, d, |d.records|) && Amounts(d) && d.channels == db.channels
  {
  }

  lemma ClaimGrows(db: Db, req: Request, workerId: string, now: nat, leaseUntil: nat)
    requires Amounts(db)
    ensures var (d, result) := Claim(db, req, workerId, now, leaseUntil);
      DbGrows(db, d, |d.records|) && Amounts(d)
      && (result.Owner? ==>
            OwnerOk(d, req, result.id) && d.records[result.id].hash.None? && d.records[result.id].response.None?)
      && (result.Resume? ==> OwnerOk(d, req, result.id) && d.records[result.id].hash.Some?)
  {
  }

  lemma CompleteGrows(db: Db, id: nat, outcome: Outcome, ledgerApplied: bool)
    requires Amounts(db)
    ensures var d := Complete(db, id, outcome, ledgerApplied);
      DbGrows(db, d, id) && Amounts(d) && |d.records| == |db.records|
      && (id < |db.records| ==> d.records[id].response == Some(outcome) && d.records[id].hash == db.records[id].hash)
  {
  }

  lemma MarkGrows(db: Db, id: nat)
    requires Amounts(db)
    ensures DbGrows(db, MarkPending(db, id), |db.records|) && Amounts(MarkPending(db, id))
    ensures DbGrows(db, MarkUnknown(db, id), |db.records|) && Amounts(MarkUnknown(db, id))
    ensures |MarkPending(db, id).records| == |MarkUnknown(db, id).records| == |db.records|
  {
  }

  lemma StoreGrows(db: Db, id: nat, lease: Lease, p: Prepared, day: nat, scope: string, limits: Limits)
    requires Amounts(db) && id < |db.records| && db.records[id].amount.Some?
    requires StoreDecision(db, id, lease, p, day, scope, limits).Stored? ==>
      db.records[id].hash.None? && db.records[id].response.None?
    ensures var d := StorePrepared(db, id, lease, p, day, scope, limits);
      DbGrows(db, d, id) && Amounts(d) && |d.records| == |db.records|
      && d.records[id].response == db.records[id].response
  {
  }
}
