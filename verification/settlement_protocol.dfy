/**
 The settlement protocol as a state machine: any number of replicas run requests and recovery
 passes over one database and one ledger. A process is the program counter of one HTTP request or
 of one recovery pass together with the local variables it still needs; every step is one store
 transaction or one answer from outside, steps interleave freely, and a process may crash anywhere.
 */
module SettlementProtocol {
  import opened Wrappers
  import opened SettlementTables

  // `applied[h]` says whether the transaction succeeded; `rejected` are the hashes answered ERROR.
  datatype Ledger = Ledger(applied: map<Hash, bool>, submitted: set<Hash>, rejected: set<Hash>, closeTime: nat)

  // A row as a process read it.
  datatype Row = Row(id: nat, rec: Record)

  datatype Stage = Asking | Archive | Expiry | Writing(outcome: Outcome, ledgerApplied: bool)

  datatype Proc =
    // Owner of a record, before anything is stored.
    | Claimed(req: Request, id: nat)
    | Holding(req: Request, id: nat, lease: Lease)
    | Ready(req: Request, id: nat, lease: Lease, prepared: Prepared)
    | Releasing(req: Request, id: nat, lease: Lease, refusal: Option<Reason>)
    | Refusing(req: Request, id: nat, reason: Reason)
    // The envelope is in the record.
    | StoredIt(req: Request, id: nat)
    | Submit(req: Request, row: Row)
    | Marking(req: Request, row: Row, pending: bool)
    | Polling(req: Request, row: Row)
    | Finishing(id: nat, outcome: Outcome, ledgerApplied: bool)
    // A recovery pass: the registered networks and the rows still to visit, the head first.
    | Recovering(networks: set<string>, todo: seq<Row>, stage: Stage)

  // One successful store, kept as history.
  datatype StoreEvent = StoreEvent(
    lease: Lease, id: nat, hash: Hash, sequence: nat, day: nat, scope: string, fee: nat)

  datatype Sys = Sys(db: Db, ledger: Ledger, procs: map<nat, Proc>, history: seq<StoreEvent>)

  datatype PrepareAnswer = KeyMissing | Declined(reason: Reason) | Built(prepared: Prepared)
  // An ERROR that could not be written down is remembered by the ledger only.
  datatype SendAnswer = Accepted | Error | UnwrittenError | Lost
  datatype ArchiveAnswer = Found | NotFound | NoAnswer

  datatype Step =
    // Outside the service.
    | Apply(hash: Hash, succeeded: bool)
    | CloseLedger(time: nat)
    | Crash(pid: nat)
    // Other users of the tables.
    | Verify(req: Request)
    | Boot(network: string, addresses: seq<string>)
    | DisableKey(channel: ChannelId)
    // A settlement request.
    | Start(pid: nat, req: Request, workerId: string, now: nat, leaseUntil: nat)
    | NoChannel(pid: nat)
    | TakeLease(pid: nat, channel: ChannelId, workerId: string, now: nat, leaseUntil: nat)
    | Prepare(pid: nat, answer: PrepareAnswer)
    | Store(pid: nat, day: nat, scope: string, limits: Limits)
    | Release(pid: nat)
    | Refuse(pid: nat)
    | ReadBack(pid: nat)
    | Send(pid: nat, sent: SendAnswer, reached: bool)
    | Mark(pid: nat)
    | PollFound(pid: nat)
    | PollTimeout(pid: nat)
    | Finish(pid: nat)
    // A recovery pass.
    | Recover(pid: nat, networks: set<string>, ids: seq<nat>)
    | SkipForeign(pid: nat)
    | Ask(pid: nat, found: bool)
    | AskArchive(pid: nat, archive: ArchiveAnswer)
    | ReadExpiry(pid: nat, answered: bool)
    | WriteVerdict(pid: nat)
    | Abandon(pid: nat)

  function Put(s: Sys, pid: nat, p: Proc): Sys { s.(procs := s.procs[pid := p]) }
  function Drop(s: Sys, pid: nat): Sys { s.(procs := s.procs - {pid}) }

  predicate At(s: Sys, pid: nat) { pid in s.procs }

  // A recovery pass looking at its first row, whose network this replica serves.
  predicate Visiting(s: Sys, pid: nat) {
    && At(s, pid) && s.procs[pid].Recovering? && s.procs[pid].todo != []
    && s.procs[pid].todo[0].rec.Network() in s.procs[pid].networks
    && s.procs[pid].todo[0].rec.hash.Some?
  }

  // Hash in hand of a process that submits or polls.
  predicate HasHash(p: Proc) {
    (p.Submit? || p.Polling? || p.Marking?) && p.row.rec.hash.Some?
  }

  predicate Enabled(s: Sys, step: Step) {
    match step
    case Apply(h, _) =>
      && h in s.ledger.submitted && h !in s.ledger.rejected && h !in s.ledger.applied
      && (h.envelope.maxTime.Some? ==> s.ledger.closeTime <= h.envelope.maxTime.value)
    case CloseLedger(t) => t >= s.ledger.closeTime
    case Crash(pid) => At(s, pid)
    case Verify(_) => true
    case Boot(_, _) => true
    case DisableKey(id) => DisableChannel(s.db, id).Some?
    case Start(pid, _, _, _, _) => pid !in s.procs
    case NoChannel(pid) => At(s, pid) && s.procs[pid].Claimed?
    case TakeLease(pid, id, _, now, _) =>
      && At(s, pid) && s.procs[pid].Claimed? && id in s.db.channels
      && id.network == s.procs[pid].req.key.scope.network && Leasable(s.db.channels[id], now)
    case Prepare(pid, answer) =>
      && At(s, pid) && s.procs[pid].Holding?
      && (answer.Declined? ==> answer.reason.UnexpectedError? || answer.reason.VerificationFailed?)
    case Store(pid, _, _, _) => At(s, pid) && s.procs[pid].Ready?
    case Release(pid) => At(s, pid) && s.procs[pid].Releasing?
    case Refuse(pid) => At(s, pid) && s.procs[pid].Refusing?
    case ReadBack(pid) => At(s, pid) && s.procs[pid].StoredIt? && s.procs[pid].id < |s.db.records|
    case Send(pid, sent, _) =>
      && At(s, pid) && s.procs[pid].Submit? && HasHash(s.procs[pid])
      && (sent.Error? || sent.UnwrittenError? ==> s.procs[pid].row.rec.hash.value !in s.ledger.applied)
    case Mark(pid) => At(s, pid) && s.procs[pid].Marking?
    case PollFound(pid) =>
      && At(s, pid) && s.procs[pid].Polling? && HasHash(s.procs[pid])
      && s.procs[pid].row.rec.hash.value in s.ledger.applied
    case PollTimeout(pid) => At(s, pid) && s.procs[pid].Polling?
    case Finish(pid) => At(s, pid) && s.procs[pid].Finishing?
    case Recover(pid, _, ids) =>
      && pid !in s.procs
      && (forall k :: 0 <= k < |ids| ==> ids[k] < |s.db.records| && s.db.records[ids[k]].Listed())
      && (forall i :: 0 <= i < |s.db.records| && s.db.records[i].Listed() ==> i in ids)
    case SkipForeign(pid) =>
      && At(s, pid) && s.procs[pid].Recovering? && s.procs[pid].todo != [] && s.procs[pid].stage.Asking?
      && s.procs[pid].todo[0].rec.Network() !in s.procs[pid].networks
    case Ask(pid, found) =>
      && Visiting(s, pid) && s.procs[pid].stage.Asking?
      && (found ==> s.procs[pid].todo[0].rec.hash.value in s.ledger.applied)
    case AskArchive(pid, answer) =>
      && Visiting(s, pid) && s.procs[pid].stage.Archive?
      && (answer.Found? ==> s.procs[pid].todo[0].rec.hash.value in s.ledger.applied)
      && (answer.NotFound? ==> s.procs[pid].todo[0].rec.hash.value !in s.ledger.applied)
    case ReadExpiry(pid, _) => Visiting(s, pid) && s.procs[pid].stage.Expiry?
    case WriteVerdict(pid) => Visiting(s, pid) && s.procs[pid].stage.Writing?
    case Abandon(pid) => Visiting(s, pid)
  }

  // Verdict of an applied hash, as a poller writes it (`amount` only for the upto scheme).
  function Verdict(h: Hash, ledger: Ledger, scheme: Scheme, amount: Option<int>): Outcome
    requires h in ledger.applied
  {
    if ledger.applied[h] then Succeeded(h, if scheme.Upto? then amount else None)
    else Refused(Some(h), TransactionFailed)
  }

  predicate Expired(rec: Record, ledger: Ledger) {
    rec.envelope.Some? && rec.envelope.value.maxTime.Some? && ledger.closeTime > rec.envelope.value.maxTime.value
  }

  function Rows(db: Db, ids: seq<nat>): seq<Row>
    requires forall k :: 0 <= k < |ids| ==> ids[k] < |db.records|
  {
    seq(|ids|, k requires 0 <= k < |ids| => Row(ids[k], db.records[ids[k]]))
  }

  function Refusal(result: StoreResult): Option<Reason>
    requires !result.Stored?
  {
    match result
    case BudgetExceeded => Some(BudgetRefused)
    case FenceLost => Some(FenceRefused)
    case _ => None
  }

  function StoreStep(s: Sys, pid: nat, day: nat, scope: string, limits: Limits): Sys
    requires At(s, pid) && s.procs[pid].Ready?
  {
    var p := s.procs[pid];
    var result := StoreDecision(s.db, p.id, p.lease, p.prepared, day, scope, limits);
    match result
    case Stored =>
      var db := StorePrepared(s.db, p.id, p.lease, p.prepared, day, scope, limits);
      var stored := p.prepared;
      var event := StoreEvent(p.lease, p.id, HashOf(stored.envelope), stored.sequence, day, scope, stored.fee);
      Put(s, pid, StoredIt(p.req, p.id)).(db := db, history := s.history + [event])
    case ForeignKeyViolation => Drop(s, pid)
    case _ => Put(s, pid, Releasing(p.req, p.id, p.lease, Refusal(result)))
  }

  function StartStep(s: Sys, pid: nat, req: Request, workerId: string, now: nat, leaseUntil: nat): Sys
    requires pid !in s.procs
  {
    var (db, result) := Claim(s.db, req, workerId, now, leaseUntil);
    match result
    case Owner(id) => Put(s, pid, Claimed(req, id)).(db := db)
    case Resume(id) => Put(s, pid, Polling(req, Row(id, db.records[id]))).(db := db)
    case _ => s.(db := db)
  }

  function SendStep(s: Sys, pid: nat, answer: SendAnswer, reached: bool): Sys
    requires At(s, pid) && s.procs[pid].Submit? && HasHash(s.procs[pid])
  {
    var p := s.procs[pid];
    var h := p.row.rec.hash.value;
    var sent := if reached then s.ledger.(submitted := s.ledger.submitted + {h}) else s.ledger;
    match answer
    case Accepted => Put(s, pid, Marking(p.req, p.row, true)).(ledger := sent)
    case Lost => Put(s, pid, Marking(p.req, p.row, false)).(ledger := sent)
    case Error =>
      Put(s, pid, Finishing(p.row.id, Refused(Some(h), SubmissionFailed), false))
      .(ledger := sent.(rejected := sent.rejected + {h}))
    case UnwrittenError =>
      Put(s, pid, Marking(p.req, p.row, false)).(ledger := sent.(rejected := sent.rejected + {h}))
  }

  // The steps of a recovery pass at a row.
  predicate PassStep(step: Step) {
    step.SkipForeign? || step.Ask? || step.AskArchive? || step.ReadExpiry? || step.WriteVerdict? || step.Abandon?
  }

  function RecoveryStep(s: Sys, step: Step): Sys
    requires Enabled(s, step)
    requires PassStep(step)
  {
    var p := s.procs[step.pid];
    var row := p.todo[0];
    var next := p.(todo := p.todo[1..], stage := Asking);
    match step
    case Ask(pid, found) =>
      if found
      then
        var verdict := Verdict(row.rec.hash.value, s.ledger, row.rec.scheme, row.rec.amount);
        Put(s, pid, p.(stage := Writing(verdict, true)))
      else Put(s, pid, p.(stage := Archive))
    case AskArchive(pid, answer) => (
      match answer
      case Found =>
        var verdict := Verdict(row.rec.hash.value, s.ledger, row.rec.scheme, row.rec.amount);
        Put(s, pid, p.(stage := Writing(verdict, true)))
      case NotFound => Put(s, pid, p.(stage := Expiry))
      case NoAnswer => Put(s, pid, next))
    case ReadExpiry(pid, answered) =>
      if answered && Expired(row.rec, s.ledger)
      then Put(s, pid, p.(stage := Writing(Refused(row.rec.hash, ExpiredUnconfirmed), false)))
      else Put(s, pid, next)
    case WriteVerdict(pid) =>
      Put(s, pid, next).(db := Complete(s.db, row.id, p.stage.outcome, p.stage.ledgerApplied))
    case _ => Put(s, step.pid, next)
  }

  function Exec(s: Sys, step: Step): Sys
    requires Enabled(s, step)
  {
    match step
    case Apply(h, succeeded) => s.(ledger := s.ledger.(applied := s.ledger.applied[h := succeeded]))
    case CloseLedger(t) => s.(ledger := s.ledger.(closeTime := t))
    case Crash(pid) => Drop(s, pid)
    case Verify(req) => s.(db := Register(s.db, req))
    case Boot(network, addresses) => s.(db := SyncChannels(s.db, network, addresses))
    case DisableKey(id) => s.(db := DisableChannel(s.db, id).value)
    case Start(pid, req, workerId, now, leaseUntil) => StartStep(s, pid, req, workerId, now, leaseUntil)
    case NoChannel(pid) => Drop(s, pid)
    case TakeLease(pid, id, workerId, _, leaseUntil) =>
      Put(s, pid, Holding(s.procs[pid].req, s.procs[pid].id, Lease(id, s.db.channels[id].token + 1)))
      .(db := LeaseChannel(s.db, id, workerId, leaseUntil))
    case Prepare(pid, answer) => (
      var p := s.procs[pid];
      match answer
      case KeyMissing => Put(s, pid, Releasing(p.req, p.id, p.lease, None))
      case Declined(reason) => Put(s, pid, Releasing(p.req, p.id, p.lease, Some(reason)))
      case Built(prepared) => Put(s, pid, Ready(p.req, p.id, p.lease, prepared)))
    case Store(pid, day, scope, limits) => StoreStep(s, pid, day, scope, limits)
    case Release(pid) =>
      var p := s.procs[pid];
      (if p.refusal.Some? then Put(s, pid, Refusing(p.req, p.id, p.refusal.value)) else Drop(s, pid))
      .(db := ReleaseChannel(s.db, p.lease))
    case Refuse(pid) =>
      Drop(s, pid).(db := Complete(s.db, s.procs[pid].id, Refused(None, s.procs[pid].reason), false))
    case ReadBack(pid) =>
      Put(s, pid, Submit(s.procs[pid].req, Row(s.procs[pid].id, s.db.records[s.procs[pid].id])))
    case Send(pid, answer, reached) => SendStep(s, pid, answer, reached)
    case Mark(pid) =>
      var p := s.procs[pid];
      Put(s, pid, Polling(p.req, p.row))
      .(db := if p.pending then MarkPending(s.db, p.row.id) else MarkUnknown(s.db, p.row.id))
    case PollFound(pid) =>
      var p := s.procs[pid];
      Put(s, pid, Finishing(p.row.id, Verdict(p.row.rec.hash.value, s.ledger, p.req.scheme, Some(p.req.amount)), true))
    case PollTimeout(pid) => Drop(s, pid).(db := MarkUnknown(s.db, s.procs[pid].row.id))
    case Finish(pid) =>
      var p := s.procs[pid];
      Drop(s, pid).(db := Complete(s.db, p.id, p.outcome, p.ledgerApplied))
    case Recover(pid, networks, ids) => Put(s, pid, Recovering(networks, Rows(s.db, ids), Asking))
    case _ => RecoveryStep(s, step)
  }

  /* ---- Which steps write records ---- */

  predicate Answering(step: Step) { step.Refuse? || step.Finish? || step.WriteVerdict? }

  predicate Marks(step: Step) { step.Mark? || step.PollTimeout? }

  predicate WritesTables(step: Step) {
    || Answering(step) || Marks(step) || step.Verify? || step.Boot? || step.DisableKey? || step.Start?
    || step.TakeLease? || step.Release? || step.Store?
  }

  lemma OtherStepsLeaveTables(s: Sys, step: Step)
    requires Enabled(s, step) && !WritesTables(step)
    ensures Exec(s, step).db == s.db
  {
  }

  lemma OtherStepsLeaveRecords(s: Sys, step: Step)
    requires Enabled(s, step)
    requires !Answering(step) && !Marks(step) && !step.Verify? && !step.Start? && !step.Store?
    ensures Exec(s, step).db.records == s.db.records
  {
    if !WritesTables(step) { OtherStepsLeaveTables(s, step); }
  }

  /* ---- Runs ---- */

  // A database with no records and no channels, beside any ledger that has not both applied and
  // rejected a hash.
  predicate Init(s: Sys) {
    && s.db == Db([], map[], map[]) && s.procs == map[] && s.history == []
    && s.ledger.applied.Keys !! s.ledger.rejected
  }

  predicate ValidRun(s: Sys, steps: seq<Step>)
    decreases |steps|
  {
    steps == [] || (Enabled(s, steps[0]) && ValidRun(Exec(s, steps[0]), steps[1..]))
  }

  function Final(s: Sys, steps: seq<Step>): Sys
    requires ValidRun(s, steps)
    decreases |steps|
  {
    if steps == [] then s else Final(Exec(s, steps[0]), steps[1..])
  }

  /* ---- Guards ---- */

  // The two writes of an owner find the record as the claim left it: an envelope goes in where none was
  // stored and nothing was answered, a refusal where no envelope was stored. The code checks neither.
  predicate WritesFresh(s: Sys, step: Step)
    requires Enabled(s, step)
  {
    match step
    case Store(pid, day, scope, limits) =>
      var p := s.procs[pid];
      StoreDecision(s.db, p.id, p.lease, p.prepared, day, scope, limits).Stored? ==>
        s.db.records[p.id].hash.None? && s.db.records[p.id].response.None?
    case Refuse(pid) =>
      s.procs[pid].id < |s.db.records| ==> s.db.records[s.procs[pid].id].hash.None?
    case _ => true
  }

  // One ledger: an archive that reported the hash missing is still right when the close time is read.
  predicate OneLedger(s: Sys, step: Step)
    requires Enabled(s, step)
  {
    step.ReadExpiry? && step.answered && Expired(s.procs[step.pid].todo[0].rec, s.ledger)
    ==> s.procs[step.pid].todo[0].rec.hash.value !in s.ledger.applied
  }

  predicate Guarded(s: Sys, step: Step)
    requires Enabled(s, step)
  {
    WritesFresh(s, step) && OneLedger(s, step)
  }

  predicate GuardedRun(s: Sys, steps: seq<Step>)
    requires ValidRun(s, steps)
    decreases |steps|
  {
    steps == [] || (Guarded(s, steps[0]) && GuardedRun(Exec(s, steps[0]), steps[1..]))
  }

  /* ---- Single owner ---- */

  // The record a process owns and has stored nothing for yet.
  function Owned(p: Proc): Option<nat> {
    if p.Claimed? || p.Holding? || p.Ready? || p.Releasing? || p.Refusing? then Some(p.id) else None
  }

  // A claim is granted only while no live process owns the record.
  predicate SingleOwner(s: Sys, step: Step) {
    step.Start? ==>
      var result := Claim(s.db, step.req, step.workerId, step.now, step.leaseUntil).1;
      result.Owner? ==> forall pid :: pid in s.procs ==> Owned(s.procs[pid]) != Some(result.id)
  }

  predicate DisciplinedRun(s: Sys, steps: seq<Step>)
    requires ValidRun(s, steps)
    decreases |steps|
  {
    steps == []
    || (SingleOwner(s, steps[0]) && OneLedger(s, steps[0]) && DisciplinedRun(Exec(s, steps[0]), steps[1..]))
  }

  // A run is extended at its end.
  lemma RunGrows(s: Sys, steps: seq<Step>, step: Step)
    requires ValidRun(s, steps) && Enabled(Final(s, steps), step)
    ensures ValidRun(s, steps + [step]) && Final(s, steps + [step]) == Exec(Final(s, steps), step)
    ensures DisciplinedRun(s, steps) && SingleOwner(Final(s, steps), step) && OneLedger(Final(s, steps), step)
            ==> DisciplinedRun(s, steps + [step])
    decreases |steps|
  {
    if steps == [] {
      assert (steps + [step])[1..] == [];
    } else {
      assert (steps + [step])[1..] == steps[1..] + [step];
      RunGrows(Exec(s, steps[0]), steps[1..], step);
    }
  }
}
