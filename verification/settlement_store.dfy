/**
 The settlement store as the object it is: three tables that its methods update statement by
 statement. Every method is tied to the table function of the same name.
 */
module SettlementStore {
  import opened Wrappers
  import opened SettlementTables

  class StateStore {
    var records: seq<Record>
    var channels: map<ChannelId, Channel>
    var usage: map<UsageKey, nat>

    constructor ()
      ensures Tables() == Db([], map[], map[])
    {
      records, channels, usage := [], map[], map[];
    }

    function Tables(): Db
      reads this
    {
      Db(records, channels, usage)
    }

    // Linear search standing for the unique index on (scope, idempotency_key).
    method FindRecord(key: Key) returns (i: nat)
      ensures i == IndexOf(records, key)
    {
      i := 0;
      while i < |records| && records[i].key != key
        invariant i <= |records|
        invariant forall j :: 0 <= j < i ==> records[j].key != key
      {
        i := i + 1;
      }
    }

    method RegisterIdempotency(req: Request) returns (conflict: bool, response: Option<Outcome>)
      modifies this
      ensures Tables() == Register(old(Tables()), req)
      ensures var rec := records[IndexOf(records, req.key)];
              conflict == (rec.fingerprint != req.fingerprint) && response == rec.response
    {
      var id := FindRecord(req.key);
      if id == |records| {
        records := records + [NewRecord(req)];
      }
      IndexOfFound(records, id, req.key);
      conflict, response := records[id].fingerprint != req.fingerprint, records[id].response;
    }

    lemma IndexOfFound(rows: seq<Record>, id: nat, key: Key)
      requires id < |rows| && rows[id].key == key
      requires forall j :: 0 <= j < id ==> rows[j].key != key
      ensures IndexOf(rows, key) == id
    {
      assert rows[id].key == key;
    }

    method ClaimSettlement(req: Request, workerId: string, now: nat, leaseUntil: nat) returns (result: ClaimResult)
      modifies this
      ensures (Tables(), result) == Claim(old(Tables()), req, workerId, now, leaseUntil)
    {
      var id := FindRecord(req.key);
      if id == |records| {
        records := records + [NewRecord(req)];
      }
      IndexOfFound(records, id, req.key);
      var row := records[id];
      if row.fingerprint != req.fingerprint {
        return FingerprintConflict;
      }
      if row.amount.Some? && row.amount.value != req.amount {
        return AmountConflict;
      }
      if row.response.Some? {
        return Cached(id, row.response.value);
      }
      if row.hash.Some? {
        return Resume(id);
      }
      var leaseAlive := row.leaseUntil.Some? && row.leaseUntil.value > now;
      if row.status.Preparing? && leaseAlive && row.workerId != Some(workerId) {
        return Wait(id);
      }
      records := records[id :=
        row.(status := Preparing, amount := Some(req.amount),
             workerId := Some(workerId), leaseUntil := Some(leaseUntil))];
      return Owner(id);
    }

    // Rows locked by other transactions are skipped; which of the remaining candidates is taken
    // depends on row timestamps that are not modelled, so any of them may be.
    method Lease(network: string, workerId: string, now: nat, leaseUntil: nat,
                 allowed: set<string>, locked: set<ChannelId>) returns (lease: Option<SettlementTables.Lease>)
      modifies this
      ensures lease.None? ==> Tables() == old(Tables())
      ensures lease.None? <==>
        forall id | id in old(channels) && id.network == network && id.address in allowed && id !in locked
          :: !Leasable(old(channels)[id], now)
      ensures lease.Some? ==>
        var id := lease.value.id;
        && id in old(channels) && id.network == network && id.address in allowed && id !in locked
        && Leasable(old(channels)[id], now)
        && Tables() == LeaseChannel(old(Tables()), id, workerId, leaseUntil)
        && lease.value.token == old(channels)[id].token + 1
    {
      var candidates := set id | id in channels && id.network == network && id.address in allowed
                                 && id !in locked && Leasable(channels[id], now);
      if candidates == {} {
        forall id | id in channels && id.network == network && id.address in allowed && id !in locked
          ensures !Leasable(channels[id], now)
        {
          assert id !in candidates;
        }
        return None;
      }
      var id :| id in candidates;
      var ch := channels[id];
      channels := channels[id :=
        ch.(status := Leased, leaseOwner := Some(workerId), leaseUntil := Some(leaseUntil), token := ch.token + 1)];
      return Some(SettlementTables.Lease(id, ch.token + 1));
    }

    method Release(lease: SettlementTables.Lease)
      modifies this`channels
      ensures Tables() == ReleaseChannel(old(Tables()), lease)
    {
      if lease.id in channels {
        var ch := channels[lease.id];
        if ch.token == lease.token && ch.status.Leased? {
          channels := channels[lease.id :=
            ch.(status := Idle, leaseOwner := None, leaseUntil := None, settlement := None)];
        }
      }
    }

    static function HalfSynced(before: map<ChannelId, Channel>, network: string, addresses: seq<string>, done: nat,
                               id: ChannelId): Channel
      requires done <= |addresses| && (id in before || (id.network == network && id.address in addresses[..done]))
    {
      if id.network != network then before[id]
      else if id.address in addresses[..done] then Synced(before, id, true)
      else if id.address in addresses then before[id]
      else Synced(before, id, false)
    }

    // What `Sync` has made of the table once the first `done` addresses have been written back.
    static ghost function Halfway(before: map<ChannelId, Channel>, network: string, addresses: seq<string>, done: nat)
      : (r: map<ChannelId, Channel>)
      requires done <= |addresses|
      ensures forall id :: id in r <==> id in before || (id.network == network && id.address in addresses[..done])
      ensures forall id :: id in r ==> r[id] == HalfSynced(before, network, addresses, done, id)
    {
      map id | id in before.Keys + (set k | 0 <= k < done :: ChannelId(network, addresses[k])) ::
        HalfSynced(before, network, addresses, done, id)
    }

    static lemma HalfwayStarts(before: map<ChannelId, Channel>, network: string, addresses: seq<string>)
      ensures Halfway(before, network, addresses, 0) == map id | id in before ::
        if id.network == network && id.address !in addresses && before[id].settlement.None?
        then before[id].(status := Disabled) else before[id]
    {
    }

    static lemma HalfwayMoves(before: map<ChannelId, Channel>, network: string, addresses: seq<string>, i: nat)
      requires i < |addresses|
      ensures var now := Halfway(before, network, addresses, i); var id := ChannelId(network, addresses[i]);
        Halfway(before, network, addresses, i + 1) == (
          if id !in now then now[id := FRESH_CHANNEL]
          else if now[id].settlement.None? then now[id := now[id].(status := Idle)]
          else now)
    {
      assert forall a :: a in addresses[..i + 1] <==> a in addresses[..i] || a == addresses[i];
    }

    static lemma HalfwayEnds(db: Db, network: string, addresses: seq<string>)
      ensures Halfway(db.channels, network, addresses, |addresses|) == SyncChannels(db, network, addresses).channels
    {
      assert addresses[..|addresses|] == addresses;
    }

    method Sync(network: string, addresses: seq<string>)
      modifies this`channels
      ensures Tables() == SyncChannels(old(Tables()), network, addresses)
    {
      ghost var before := channels;
      channels := map id | id in channels ::
        if id.network == network && id.address !in addresses && channels[id].settlement.None?
        then channels[id].(status := Disabled) else channels[id];
      HalfwayStarts(before, network, addresses);
      for i := 0 to |addresses|
        invariant channels == Halfway(before, network, addresses, i)
      {
        HalfwayMoves(before, network, addresses, i);
        var id := ChannelId(network, addresses[i]);
        if id !in channels {
          channels := channels[id := FRESH_CHANNEL];
        } else if channels[id].settlement.None? {
          channels := channels[id := channels[id].(status := Idle)];
        }
      }
      HalfwayEnds(old(Tables()), network, addresses);
    }

    method Disable(id: ChannelId) returns (refused: bool)
      modifies this`channels
      ensures refused <==> DisableChannel(old(Tables()), id).None?
      ensures Tables() == DisableChannel(old(Tables()), id).GetOr(old(Tables()))
    {
      if id !in channels {
        return false;
      }
      if channels[id].settlement.Some? {
        return true;
      }
      channels := channels[id := channels[id].(status := Disabled)];
      return false;
    }

    // INSERT of both usage rows, the two limit tests, and the UPDATE of both rows.
    method ReserveBudget(day: nat, scope: string, fee: nat, limits: Limits) returns (reserved: bool)
      modifies this`usage
      ensures reserved <==>
        old(Tables()).Used(day, Principal(scope)) + fee <= limits.perScope
        && old(Tables()).Used(day, Global) + fee <= limits.global
      ensures reserved ==> Tables() == Spend(old(Tables()), day, scope, fee)
    {
      var mine, all := UsageKey(day, Principal(scope)), UsageKey(day, Global);
      if mine !in usage {
        usage := usage[mine := 0];
      }
      if all !in usage {
        usage := usage[all := 0];
      }
      if usage[mine] + fee > limits.perScope || usage[all] + fee > limits.global {
        return false;
      }
      usage := usage[mine := usage[mine] + fee];
      usage := usage[all := usage[all] + fee];
      assert usage == Spend(old(Tables()), day, scope, fee).usage;
      return true;
    }

    // BEGIN keeps the tables, every failing branch rolls back to them.
    method StorePreparedAndReserve(id: nat, lease: SettlementTables.Lease, p: Prepared,
                                   day: nat, scope: string, limits: Limits) returns (result: StoreResult)
      modifies this
      ensures result == StoreDecision(old(Tables()), id, lease, p, day, scope, limits)
      ensures Tables() == StorePrepared(old(Tables()), id, lease, p, day, scope, limits)
      ensures !result.Stored? ==> Tables() == old(Tables())
    {
      var began := Tables();
      if lease.id !in channels || channels[lease.id].token != lease.token || !channels[lease.id].status.Leased? {
        return FenceLost;
      }
      var applied := channels[lease.id].lastSequence;
      if applied.Some? && p.sequence <= applied.value {
        return StaleSequence;
      }
      var allowed := ReserveBudget(day, scope, p.fee, limits);
      if !allowed {
        records, channels, usage := began.records, began.channels, began.usage;
        return BudgetExceeded;
      }
      if id >= |records| {
        records, channels, usage := began.records, began.channels, began.usage;
        return ForeignKeyViolation;
      }
      records := records[id := Envelop(records[id], lease, p)];
      channels := channels[lease.id := channels[lease.id].(status := Unresolved, settlement := Some(id))];
      return Stored;
    }

    method SetPending(id: nat)
      modifies this`records
      ensures Tables() == MarkPending(old(Tables()), id)
    {
      if id < |records| {
        records := records[id := records[id].(status := Pending)];
      }
    }

    method SetUnknown(id: nat)
      modifies this`records
      ensures Tables() == MarkUnknown(old(Tables()), id)
    {
      if id < |records| {
        records := records[id := records[id].(status := Unknown, workerId := None, leaseUntil := None)];
      }
    }

    method CompleteSettlement(id: nat, outcome: Outcome, ledgerApplied: bool)
      modifies this
      ensures Tables() == Complete(old(Tables()), id, outcome, ledgerApplied)
    {
      if id >= |records| {
        return;
      }
      records := records[id := Answered(records[id], outcome)];
      var row := records[id];
      if row.channel.Some? {
        var cid := ChannelId(row.Network(), row.channel.value);
        if cid in channels && channels[cid].settlement == Some(id) {
          var ch := channels[cid];
          channels := channels[cid :=
            ch.(status := Idle, leaseOwner := None, leaseUntil := None, settlement := None,
                lastSequence := Raise(ch.lastSequence, if ledgerApplied then row.sequence else None))];
        }
      }
    }

    // The ids of the listed records; the order of a result set sorted by row timestamps is not modelled.
    method ListUnresolved() returns (ids: seq<nat>)
      ensures forall i: nat :: i in ids <==> i < |records| && records[i].Listed()
      ensures forall a, b :: 0 <= a < b < |ids| ==> ids[a] != ids[b]
    {
      ids := [];
      for i := 0 to |records|
        invariant forall k: nat :: k in ids <==> k < i && records[k].Listed()
        invariant forall a, b :: 0 <= a < b < |ids| ==> ids[a] != ids[b]
      {
        if records[i].Listed() {
          ids := ids + [i];
        }
      }
    }
  }
}
