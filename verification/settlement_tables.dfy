/**
 The three tables behind settlement (records, channel accounts, sponsor usage) as values, and
 what each statement of the store does to them. A transaction is one atomic step; the clock and
 the calendar day are arguments, because every replica reads its own.
 */
module SettlementTables {
  import opened Wrappers

  // A transaction hash stands for exactly one envelope, so it is modelled as a constructor over it.
  datatype Envelope = Envelope(body: string, maxTime: Option<nat>)
  datatype Hash = HashOf(envelope: Envelope)

  // The idempotency scope embeds the network, the sponsor and the recipient.
  datatype PaymentScope = PaymentScope(network: string, sponsor: string, payTo: string)
  datatype Key = Key(scope: PaymentScope, id: string)
  datatype Scheme = Exact | Upto
  datatype Request = Request(key: Key, fingerprint: string, scheme: Scheme, amount: int)

  datatype Reason =
    | UnexpectedError | VerificationFailed | BudgetRefused | FenceRefused
    | SubmissionFailed | TransactionFailed | ExpiredUnconfirmed

  // `tx` is None when nothing was ever stored for the record.
  datatype Outcome =
    | Succeeded(tx: Hash, amount: Option<int>)
    | Refused(hash: Option<Hash>, reason: Reason)

  datatype RecordStatus = Verified | Preparing | Submitting | Pending | Success | Failed | Unknown

  datatype Record = Record(
    key: Key, fingerprint: string, scheme: Scheme, status: RecordStatus,
    amount: Option<int>, workerId: Option<string>, leaseUntil: Option<nat>,
    payer: Option<string>, channel: Option<string>, token: Option<nat>, sequence: Option<nat>,
    envelope: Option<Envelope>, hash: Option<Hash>, fee: Option<nat>, response: Option<Outcome>)
  {
    function Network(): string { key.scope.network }

    // The predicate of `listUnresolved`.
    predicate Listed() {
      hash.Some? && response.None? && (status.Submitting? || status.Pending? || status.Unknown?)
    }
  }

  datatype ChannelId = ChannelId(network: string, address: string)
  datatype ChannelStatus = Idle | Leased | Unresolved | Disabled
  datatype Channel = Channel(
    status: ChannelStatus, leaseOwner: Option<string>, leaseUntil: Option<nat>,
    token: nat, settlement: Option<nat>, lastSequence: Option<nat>)

  datatype BudgetScope = Global | Principal(name: string)
  datatype UsageKey = UsageKey(day: nat, scope: BudgetScope)

  datatype Db = Db(
    records: seq<Record>, channels: map<ChannelId, Channel>, usage: map<UsageKey, nat>)
  {
    function Used(day: nat, scope: BudgetScope): nat {
      if UsageKey(day, scope) in usage then usage[UsageKey(day, scope)] else 0
    }

    // The channel a record was stored on.
    function ChannelOf(id: nat): ChannelId
      requires id < |records| && records[id].channel.Some?
    {
      ChannelId(records[id].Network(), records[id].channel.value)
    }
  }

  datatype Lease = Lease(id: ChannelId, token: nat)
  datatype Prepared = Prepared(payer: string, envelope: Envelope, sequence: nat, fee: nat)
  datatype Limits = Limits(perScope: nat, global: nat)

  datatype ClaimResult =
    | Owner(id: nat) | Wait(id: nat) | Resume(id: nat) | Cached(id: nat, response: Outcome)
    | FingerprintConflict | AmountConflict

  // `ForeignKeyViolation` is the thrown error of a settlement id that names no record.
  datatype StoreResult = Stored | BudgetExceeded | FenceLost | StaleSequence | ForeignKeyViolation

  const FRESH_CHANNEL := Channel(Idle, None, None, 0, None, None)

  /* ---- Records ---- */

  // Position of the record with this key, or the number of records when there is none.
  function IndexOf(records: seq<Record>, key: Key): (i: nat)
    ensures i <= |records|
    ensures i < |records| ==> records[i].key == key
    ensures forall j :: 0 <= j < i ==> records[j].key != key
  {
    if records == [] then 0
    else if records[0].key == key then 0
    else 1 + IndexOf(records[1..], key)
  }

  function NewRecord(req: Request): Record {
    Record(req.key, req.fingerprint, req.scheme, Verified,
           None, None, None, None, None, None, None, None, None, None, None)
  }

  // INSERT ... ON CONFLICT DO NOTHING, the first statement of a claim; also what a verification
  // request does to this table.
  function Register(db: Db, req: Request): (r: Db)
    ensures IndexOf(r.records, req.key) == IndexOf(db.records, req.key) < |r.records|
  {
    if IndexOf(db.records, req.key) < |db.records| then db
    else
      IndexOfAppended(db.records, NewRecord(req));
      db.(records := db.records + [NewRecord(req)])
  }

  lemma IndexOfAppended(records: seq<Record>, rec: Record)
    requires IndexOf(records, rec.key) == |records|
    ensures IndexOf(records + [rec], rec.key) == |records|
  {
    var all := records + [rec];
    assert all[|records|] == rec && forall j | 0 <= j < |records| :: all[j] == records[j];
  }

  // What a claim decides for a record that is already in the table.
  function Decide(id: nat, rec: Record, req: Request, workerId: string, now: nat): ClaimResult {
    if rec.fingerprint != req.fingerprint then FingerprintConflict
    else if rec.amount.Some? && rec.amount.value != req.amount then AmountConflict
    else if rec.response.Some? then Cached(id, rec.response.value)
    else if rec.hash.Some? then Resume(id)
    else if rec.status.Preparing? && (rec.leaseUntil.Some? && rec.leaseUntil.value > now)
            && rec.workerId != Some(workerId) then Wait(id)
    else Owner(id)
  }

  function Own(rec: Record, req: Request, workerId: string, leaseUntil: nat): Record {
    rec.(status := Preparing, amount := Some(req.amount),
         workerId := Some(workerId), leaseUntil := Some(leaseUntil))
  }

  function Claim(db: Db, req: Request, workerId: string, now: nat, leaseUntil: nat): (Db, ClaimResult)
  {
    var registered := Register(db, req);
    var id := IndexOf(registered.records, req.key);
    var rec := registered.records[id];
    var result := Decide(id, rec, req, workerId, now);
    (if result.Owner?
     then registered.(records := registered.records[id := Own(rec, req, workerId, leaseUntil)])
     else registered, result)
  }

  /* ---- Channels ---- */

  predicate Leasable(ch: Channel, now: nat) {
    ch.status.Idle?
    || (ch.status.Leased? && ch.leaseUntil.Some? && ch.leaseUntil.value < now && ch.settlement.None?)
  }

  function LeaseChannel(db: Db, id: ChannelId, workerId: string, leaseUntil: nat): Db
    requires id in db.channels
  {
    var ch := db.channels[id];
    db.(channels := db.channels[id :=
      ch.(status := Leased, leaseOwner := Some(workerId), leaseUntil := Some(leaseUntil), token := ch.token + 1)])
  }

  // The row condition shared by a release and by the fence of a store.
  predicate Holds(db: Db, lease: Lease) {
    lease.id in db.channels && db.channels[lease.id].token == lease.token
    && db.channels[lease.id].status.Leased?
  }

  function Freed(ch: Channel): Channel {
    ch.(status := Idle, leaseOwner := None, leaseUntil := None, settlement := None)
  }

  function ReleaseChannel(db: Db, lease: Lease): Db {
    if Holds(db, lease) then db.(channels := db.channels[lease.id := Freed(db.channels[lease.id])])
    else db
  }

  function Synced(channels: map<ChannelId, Channel>, id: ChannelId, known: bool): Channel {
    if id !in channels then FRESH_CHANNEL
    else if channels[id].settlement.Some? then channels[id]
    else channels[id].(status := if known then Idle else Disabled)
  }

  // What a booting replica does with the channel keys it holds for one network.
  function SyncChannels(db: Db, network: string, addresses: seq<string>): Db {
    db.(channels :=
      map id | id in db.channels.Keys + (set a | a in addresses :: ChannelId(network, a)) ::
        if id.network == network then Synced(db.channels, id, id.address in addresses) else db.channels[id])
  }

  // None is the error thrown for a channel that still has a settlement.
  function DisableChannel(db: Db, id: ChannelId): Option<Db> {
    if id !in db.channels then Some(db)
    else if db.channels[id].settlement.Some? then None
    else Some(db.(channels := db.channels[id := db.channels[id].(status := Disabled)]))
  }

  /* ---- Storing an envelope ---- */

  function Spend(db: Db, day: nat, scope: string, fee: nat): Db {
    db.(usage := db.usage[UsageKey(day, Principal(scope)) := db.Used(day, Principal(scope)) + fee]
                         [UsageKey(day, Global) := db.Used(day, Global) + fee])
  }

  function Envelop(rec: Record, lease: Lease, p: Prepared): Record {
    rec.(status := Submitting, payer := Some(p.payer), channel := Some(lease.id.address),
         token := Some(lease.token), envelope := Some(p.envelope), hash := Some(HashOf(p.envelope)),
         fee := Some(p.fee), sequence := Some(p.sequence))
  }

  function StoreDecision(db: Db, id: nat, lease: Lease, p: Prepared, day: nat, scope: string,
      limits: Limits): StoreResult
  {
    if !Holds(db, lease) then FenceLost
    else if db.channels[lease.id].lastSequence.Some? && p.sequence <= db.channels[lease.id].lastSequence.value
      then StaleSequence
    else if db.Used(day, Principal(scope)) + p.fee > limits.perScope
            || db.Used(day, Global) + p.fee > limits.global then BudgetExceeded
    else if id >= |db.records| then ForeignKeyViolation
    else Stored
  }

  function StorePrepared(db: Db, id: nat, lease: Lease, p: Prepared, day: nat, scope: string, limits: Limits): Db
  {
    if !StoreDecision(db, id, lease, p, day, scope, limits).Stored? then db
    else
      Spend(db, day, scope, p.fee).(
        records := db.records[id := Envelop(db.records[id], lease, p)],
        channels := db.channels[lease.id := db.channels[lease.id].(status := Unresolved, settlement := Some(id))])
  }

  /* ---- Later writes to a record ---- */

  function SetStatus(db: Db, id: nat, status: RecordStatus): Db {
    if id < |db.records| then db.(records := db.records[id := db.records[id].(status := status)]) else db
  }

  function MarkPending(db: Db, id: nat): Db { SetStatus(db, id, Pending) }

  function MarkUnknown(db: Db, id: nat): Db {
    if id < |db.records|
    then db.(records := db.records[id := db.records[id].(status := Unknown, workerId := None, leaseUntil := None)])
    else db
  }

  function Answered(rec: Record, outcome: Outcome): Record {
    rec.(status := if outcome.Succeeded? then Success else Failed, response := Some(outcome))
  }

  // GREATEST(COALESCE(last_sequence, 0), sequence), or the old value when there is no sequence.
  function Raise(last: Option<nat>, sequence: Option<nat>): Option<nat> {
    match sequence
    case None => last
    case Some(s) => Some(if last.GetOr(0) < s then s else last.GetOr(0))
  }

  function Complete(db: Db, id: nat, outcome: Outcome, ledgerApplied: bool): Db {
    if id >= |db.records| then db
    else
      var rec := db.records[id];
      var answered := db.(records := db.records[id := Answered(rec, outcome)]);
      if rec.channel.None? then answered
      else
        var cid := db.ChannelOf(id);
        if cid in db.channels && db.channels[cid].settlement == Some(id)
        then
          var ch := db.channels[cid];
          answered.(channels := db.channels[cid :=
            Freed(ch).(lastSequence := Raise(ch.lastSequence, if ledgerApplied then rec.sequence else None))])
        else answered
  }
}
