/**
 Quarantine: the channels that carry an unanswered envelope and the records that wait for an answer
 name each other. Every statement of the store keeps this, except a store, which keeps it exactly
 when the record had neither an envelope nor an answer.
 */
module SettlementQuarantine {
  import opened Wrappers
  import opened SettlementTables

  // An envelope was stored and nobody has answered yet.
  predicate Waiting(rec: Record) { rec.hash.Some? && rec.response.None? }

  // The columns written together by a store are present together.
  predicate WellFormed(rec: Record) {
    && (rec.hash.Some? ==> rec.envelope.Some? && rec.hash.value == HashOf(rec.envelope.value))
    && (rec.hash.Some? <==> rec.channel.Some?)
    && (rec.hash.Some? <==> rec.sequence.Some?)
    && (rec.hash.Some? <==> rec.token.Some?)
    && (Waiting(rec) ==> rec.Listed())
  }

  predicate Sequenced(ch: Channel, rec: Record) {
    rec.sequence.Some? && (ch.lastSequence.Some? ==> ch.lastSequence.value < rec.sequence.value)
  }

  // Channel `cid` is quarantined for record `i`.
  predicate Quarantines(db: Db, cid: ChannelId, i: nat) {
    && cid in db.channels && db.channels[cid].settlement == Some(i) && i < |db.records|
    && Waiting(db.records[i])
    && db.records[i].channel == Some(cid.address) && db.records[i].Network() == cid.network
    && db.records[i].token == Some(db.channels[cid].token)
    && Sequenced(db.channels[cid], db.records[i])
  }

  predicate ChannelOk(db: Db, cid: ChannelId)
    requires cid in db.channels
  {
    var ch := db.channels[cid];
    && (ch.settlement.Some? <==> ch.status.Unresolved?)
    && (ch.settlement.Some? ==> Quarantines(db, cid, ch.settlement.value))
  }

  predicate RecordOk(db: Db, i: nat)
    requires i < |db.records|
  {
    && WellFormed(db.records[i])
    && (Waiting(db.records[i]) ==> Quarantines(db, db.ChannelOf(i), i))
  }

  predicate UniqueKeys(db: Db) {
    forall i, j :: 0 <= i < j < |db.records| ==> db.records[i].key != db.records[j].key
  }

  predicate Agree(db: Db) {
    && UniqueKeys(db)
    && (forall cid :: cid in db.channels ==> ChannelOk(db, cid))
    && (forall i :: 0 <= i < |db.records| ==> RecordOk(db, i))
  }

  // In an agreeing database the quarantined channels and the listed records correspond one to one.
  lemma Correspondence(db: Db)
    requires Agree(db)
    ensures forall cid :: cid in db.channels && db.channels[cid].status.Unresolved? ==>
      && db.channels[cid].settlement.Some?
      && db.channels[cid].settlement.value < |db.records|
      && db.records[db.channels[cid].settlement.value].Listed()
      && Quarantines(db, cid, db.channels[cid].settlement.value)
    ensures forall i :: 0 <= i < |db.records| && db.records[i].Listed() ==>
      && db.records[i].channel.Some?
      && Quarantines(db, db.ChannelOf(i), i)
      && db.channels[db.ChannelOf(i)].status.Unresolved?
    ensures forall cid, other ::
      (cid in db.channels && other in db.channels && db.channels[cid].settlement.Some?
       && db.channels[cid].settlement == db.channels[other].settlement)
      ==> cid == other
  {
    forall cid | cid in db.channels && db.channels[cid].status.Unresolved?
      ensures Quarantines(db, cid, db.channels[cid].settlement.value)
      ensures db.records[db.channels[cid].settlement.value].Listed()
    {
      assert ChannelOk(db, cid);
      assert RecordOk(db, db.channels[cid].settlement.value);
    }
    forall i | 0 <= i < |db.records| && db.records[i].Listed()
      ensures db.records[i].channel.Some? && Quarantines(db, db.ChannelOf(i), i)
      ensures db.channels[db.ChannelOf(i)].status.Unresolved?
    {
      assert RecordOk(db, i);
      assert ChannelOk(db, db.ChannelOf(i));
    }
    forall cid, other | cid in db.channels && other in db.channels && db.channels[cid].settlement.Some?
                        && db.channels[cid].settlement == db.channels[other].settlement
      ensures cid == other
    {
      assert ChannelOk(db, cid) && ChannelOk(db, other);
    }
  }

  /* ---- Statements that keep it ---- */

  lemma RegisterKeeps(db: Db, req: Request)
    requires Agree(db)
    ensures Agree(Register(db, req))
  {
    var d := Register(db, req);
    assert forall i | 0 <= i < |db.records| :: RecordOk(db, i);
    assert forall i | 0 <= i < |db.records| :: d.records[i] == db.records[i];
    forall cid | cid in d.channels ensures ChannelOk(d, cid) { assert ChannelOk(db, cid); }
    forall i | 0 <= i < |d.records| ensures RecordOk(d, i) {
      if i < |db.records| { assert RecordOk(db, i); }
    }
  }

  lemma ClaimKeeps(db: Db, req: Request, workerId: string, now: nat, leaseUntil: nat)
    requires Agree(db)
    ensures Agree(Claim(db, req, workerId, now, leaseUntil).0)
  {
    RegisterKeeps(db, req);
    var e := Register(db, req);
    var d := Claim(db, req, workerId, now, leaseUntil).0;
    forall cid | cid in d.channels ensures ChannelOk(d, cid) { assert ChannelOk(e, cid); }
    forall i | 0 <= i < |d.records| ensures RecordOk(d, i) { assert RecordOk(e, i); }
    assert forall i | 0 <= i < |d.records| :: d.records[i].key == e.records[i].key;
  }

  // Channel rows may change freely while they carry no settlement.
  lemma FreeChannelsKeep(db: Db, d: Db)
    requires Agree(db)
    requires d.records == db.records && db.channels.Keys <= d.channels.Keys
    requires forall cid :: cid in d.channels ==>
      (cid in db.channels && d.channels[cid] == db.channels[cid])
      || ((cid in db.channels ==> db.channels[cid].settlement.None?)
          && d.channels[cid].settlement.None? && !d.channels[cid].status.Unresolved?)
    ensures Agree(d)
  {
    forall cid | cid in d.channels ensures ChannelOk(d, cid) {
      if cid in db.channels { assert ChannelOk(db, cid); }
    }
    forall i | 0 <= i < |d.records| ensures RecordOk(d, i) { assert RecordOk(db, i); }
  }

  lemma LeaseKeeps(db: Db, cid: ChannelId, workerId: string, now: nat, leaseUntil: nat)
    requires Agree(db) && cid in db.channels && Leasable(db.channels[cid], now)
    ensures Agree(LeaseChannel(db, cid, workerId, leaseUntil))
  {
    assert ChannelOk(db, cid);
    FreeChannelsKeep(db, LeaseChannel(db, cid, workerId, leaseUntil));
  }

  lemma ReleaseKeeps(db: Db, lease: Lease)
    requires Agree(db)
    ensures Agree(ReleaseChannel(db, lease))
  {
    if Holds(db, lease) { assert ChannelOk(db, lease.id); }
    FreeChannelsKeep(db, ReleaseChannel(db, lease));
  }

  lemma SyncKeeps(db: Db, network: string, addresses: seq<string>)
    requires Agree(db)
    ensures Agree(SyncChannels(db, network, addresses))
  {
    FreeChannelsKeep(db, SyncChannels(db, network, addresses));
  }

  lemma DisableKeeps(db: Db, cid: ChannelId)
    requires Agree(db) && DisableChannel(db, cid).Some?
    ensures Agree(DisableChannel(db, cid).value)
  {
    FreeChannelsKeep(db, DisableChannel(db, cid).value);
  }

  lemma MarkKeeps(db: Db, id: nat)
    requires Agree(db)
    ensures Agree(MarkPending(db, id)) && Agree(MarkUnknown(db, id))
  {
    StatusKeeps(db, MarkPending(db, id), id);
    StatusKeeps(db, MarkUnknown(db, id), id);
  }

  lemma StatusKeeps(db: Db, d: Db, id: nat)
    requires Agree(db)
    requires d.channels == db.channels
    requires id >= |db.records| ==> d.records == db.records
    requires id < |db.records| ==>
      exists status, workerId, leaseUntil ::
        (status == Pending || status == Unknown)
        && d.records == db.records[
             id := db.records[id].(status := status, workerId := workerId, leaseUntil := leaseUntil)]
    ensures Agree(d)
  {
    forall cid | cid in d.channels ensures ChannelOk(d, cid) { assert ChannelOk(db, cid); }
    forall i | 0 <= i < |d.records| ensures RecordOk(d, i) { assert RecordOk(db, i); }
    assert forall i | 0 <= i < |d.records| :: d.records[i].key == db.records[i].key;
  }

  // An answer releases the channel of its record and no other, whoever gives it and however often.
  lemma CompleteKeeps(db: Db, id: nat, outcome: Outcome, ledgerApplied: bool)
    requires Agree(db)
    ensures Agree(Complete(db, id, outcome, ledgerApplied))
  {
    if id < |db.records| {
      var d := Complete(db, id, outcome, ledgerApplied);
      CompleteKeepsChannels(db, id, outcome, ledgerApplied);
      CompleteKeepsRecords(db, id, outcome, ledgerApplied);
      assert forall i | 0 <= i < |d.records| :: d.records[i].key == db.records[i].key;
    }
  }

  lemma CompleteKeepsChannels(db: Db, id: nat, outcome: Outcome, ledgerApplied: bool)
    requires Agree(db) && id < |db.records|
    ensures var d := Complete(db, id, outcome, ledgerApplied);
      forall cid :: cid in d.channels ==> ChannelOk(d, cid)
  {
    var d := Complete(db, id, outcome, ledgerApplied);
    assert RecordOk(db, id);
    forall cid | cid in d.channels ensures ChannelOk(d, cid) {
      assert ChannelOk(db, cid);
    }
  }

  lemma CompleteKeepsRecords(db: Db, id: nat, outcome: Outcome, ledgerApplied: bool)
    requires Agree(db) && id < |db.records|
    ensures var d := Complete(db, id, outcome, ledgerApplied);
      forall i :: 0 <= i < |d.records| ==> RecordOk(d, i)
  {
    var d := Complete(db, id, outcome, ledgerApplied);
    forall i | 0 <= i < |d.records| ensures RecordOk(d, i) {
      assert RecordOk(db, i);
      if i != id && Waiting(d.records[i]) {
        assert Quarantines(db, db.ChannelOf(i), i);
      }
    }
  }

  // Spelled out: on a record that was answered before, a second answer leaves every channel alone.
  lemma SecondAnswerLeavesChannels(db: Db, id: nat, outcome: Outcome, ledgerApplied: bool)
    requires Agree(db) && id < |db.records| && db.records[id].response.Some?
    ensures Complete(db, id, outcome, ledgerApplied).channels == db.channels
  {
    if db.records[id].channel.Some? && db.ChannelOf(id) in db.channels {
      assert ChannelOk(db, db.ChannelOf(id));
    }
  }

  // The first answer of a stored record frees its channel; a ledger verdict moves the channel's
  // sequence strictly up, to the one the envelope consumed.
  lemma FirstAnswerFreesChannel(db: Db, id: nat, outcome: Outcome, ledgerApplied: bool)
    requires Agree(db) && id < |db.records| && Waiting(db.records[id])
    ensures db.records[id].channel.Some? && db.ChannelOf(id) in db.channels
    ensures var cid := db.ChannelOf(id);
      var was, now := db.channels[cid], Complete(db, id, outcome, ledgerApplied).channels[cid];
      && was.status.Unresolved? && now.status.Idle? && now.settlement.None? && now.token == was.token
      && now.leaseOwner.None? && now.leaseUntil.None?
      && (!ledgerApplied ==> now.lastSequence == was.lastSequence)
      && (ledgerApplied ==> now.lastSequence == db.records[id].sequence
                            && (was.lastSequence.Some? ==> was.lastSequence.value < now.lastSequence.value))
    ensures forall other :: other in db.channels && other != db.ChannelOf(id) ==>
      Complete(db, id, outcome, ledgerApplied).channels[other] == db.channels[other]
  {
    assert RecordOk(db, id);
    assert ChannelOk(db, db.ChannelOf(id));
  }

  /* ---- The store: exactly when ---- */

  // A store keeps the agreement if and only if the record had no envelope and no answer.
  lemma StoreKeepsIff(db: Db, id: nat, lease: Lease, p: Prepared, day: nat, scope: string, limits: Limits)
    requires Agree(db)
    requires StoreDecision(db, id, lease, p, day, scope, limits).Stored?
    requires lease.id.network == db.records[id].Network()
    ensures Agree(StorePrepared(db, id, lease, p, day, scope, limits))
            <==> db.records[id].hash.None? && db.records[id].response.None?
  {
    var d := StorePrepared(db, id, lease, p, day, scope, limits);
    var rec := db.records[id];
    assert RecordOk(db, id) && ChannelOk(db, lease.id);
    if rec.hash.None? && rec.response.None? {
      forall cid | cid in d.channels ensures ChannelOk(d, cid) {
        assert ChannelOk(db, cid);
      }
      forall i | 0 <= i < |d.records| ensures RecordOk(d, i) {
        assert RecordOk(db, i);
        if i != id && Waiting(d.records[i]) {
          assert Quarantines(db, db.ChannelOf(i), i);
        }
      }
      assert forall i | 0 <= i < |d.records| :: d.records[i].key == db.records[i].key;
    } else if rec.response.Some? {
      assert !Quarantines(d, lease.id, id);
      assert !ChannelOk(d, lease.id);
    } else {
      var first := db.ChannelOf(id);
      assert Quarantines(db, first, id) && first != lease.id;
      assert d.channels[first] == db.channels[first];
      assert !Quarantines(d, first, id);
      assert !ChannelOk(d, first);
    }
  }
}
