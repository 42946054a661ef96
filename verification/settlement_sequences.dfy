/** The channel sequences that the ledger consumed, over guarded runs. */
module SettlementSequences {
  import opened Wrappers
  import opened SettlementTables
  import opened SettlementProtocol
  import opened SettlementQuarantine
  import opened SettlementInvariant
  import opened SettlementSteps
  import opened SettlementSafety

  predicate Consumed(rec: Record) { rec.response.Some? && FromLedger(rec.response.value) }

  predicate OnChannel(rec: Record, cid: ChannelId) {
    rec.channel == Some(cid.address) && rec.Network() == cid.network && rec.token.Some? && rec.sequence.Some?
  }

  // Every envelope was stored under a token that is spent, and a consumed sequence is confirmed.
  predicate Spent(db: Db, i: nat)
    requires i < |db.records|
  {
    var rec := db.records[i];
    rec.hash.Some? ==>
      && rec.channel.Some? && db.ChannelOf(i) in db.channels && OnChannel(rec, db.ChannelOf(i))
      && var ch := db.channels[db.ChannelOf(i)];
         && rec.token.value <= ch.token && (rec.token.value == ch.token ==> !ch.status.Leased?)
         && (Consumed(rec) ==> ch.lastSequence.Some? && rec.sequence.value <= ch.lastSequence.value)
  }

  // Two envelopes of one channel have different tokens, and a consumed one precedes every later one.
  predicate Ordered(a: Record, b: Record) {
    a.hash.Some? && b.hash.Some? && a.channel == b.channel && a.Network() == b.Network()
    && a.token.Some? && b.token.Some? && a.sequence.Some? && b.sequence.Some? ==>
      && a.token != b.token
      && (Consumed(a) && a.token.value < b.token.value ==> a.sequence.value < b.sequence.value)
  }

  predicate Sequences(db: Db) {
    && (forall i :: 0 <= i < |db.records| ==> Spent(db, i))
    && (forall i, j :: 0 <= i < |db.records| && 0 <= j < |db.records| && i != j ==>
      Ordered(db.records[i], db.records[j]))
  }

  // What decides `Sequences` is unchanged in a record.
  predicate SameOnChannel(a: Record, b: Record) {
    && a.key == b.key && a.hash == b.hash && a.channel == b.channel && a.token == b.token && a.sequence == b.sequence
    && Consumed(a) == Consumed(b)
  }

  ghost predicate RecordsKept(a: Db, b: Db) {
    && |a.records| <= |b.records|
    && (forall i :: 0 <= i < |a.records| ==> SameOnChannel(a.records[i], b.records[i]))
    && (forall i :: |a.records| <= i < |b.records| ==> b.records[i].hash.None?)
  }

  predicate ChannelKept(a: Channel, b: Channel) {
    && a.lastSequence == b.lastSequence && a.token <= b.token
    && (a.token == b.token && b.status.Leased? ==> a.status.Leased?)
  }

  ghost predicate ChannelsKept(a: Db, b: Db) {
    forall cid :: cid in a.channels ==> cid in b.channels && ChannelKept(a.channels[cid], b.channels[cid])
  }

  lemma UntouchedKeep(a: Db, b: Db)
    requires Sequences(a) && RecordsKept(a, b) && ChannelsKept(a, b)
    ensures Sequences(b)
  {
    forall i | 0 <= i < |b.records| ensures Spent(b, i) {
      if i < |a.records| { assert Spent(a, i); }
    }
    forall i, j | 0 <= i < |b.records| && 0 <= j < |b.records| && i != j ensures Ordered(b.records[i], b.records[j]) {
      if i < |a.records| && j < |a.records| { assert Ordered(a.records[i], a.records[j]); }
    }
  }

  lemma StoreOrders(db: Db, id: nat, lease: Lease, p: Prepared, day: nat, scope: string, limits: Limits)
    requires Sequences(db) && id < |db.records| && db.records[id].hash.None? && db.records[id].response.None?
    requires lease.id.network == db.records[id].Network()
    requires StoreDecision(db, id, lease, p, day, scope, limits).Stored?
    ensures Sequences(StorePrepared(db, id, lease, p, day, scope, limits))
  {
    var d := StorePrepared(db, id, lease, p, day, scope, limits);
    forall i | 0 <= i < |d.records| ensures Spent(d, i) { assert Spent(db, i); }
    forall i, j | 0 <= i < |d.records| && 0 <= j < |d.records| && i != j ensures Ordered(d.records[i], d.records[j]) {
      assert Spent(db, i) && Spent(db, j) && Ordered(db.records[i], db.records[j]);
    }
  }

  lemma FirstAnswerOrders(db: Db, id: nat, outcome: Outcome, ledgerApplied: bool)
    requires Agree(db) && Sequences(db) && id < |db.records| && Waiting(db.records[id])
    requires ledgerApplied <==> FromLedger(outcome)
    ensures Sequences(Complete(db, id, outcome, ledgerApplied))
  {
    var d := Complete(db, id, outcome, ledgerApplied);
    FirstAnswerFreesChannel(db, id, outcome, ledgerApplied);
    assert RecordOk(db, id);
    forall i | 0 <= i < |d.records| ensures Spent(d, i) {
      assert Spent(db, i);
    }
    forall i, j | 0 <= i < |d.records| && 0 <= j < |d.records| && i != j ensures Ordered(d.records[i], d.records[j]) {
      assert Ordered(db.records[i], db.records[j]);
      assert Spent(db, i) && Spent(db, j);
    }
  }

  lemma LaterAnswerOrders(db: Db, id: nat, outcome: Outcome, ledgerApplied: bool)
    requires Agree(db) && Sequences(db) && id < |db.records|
    requires db.records[id].response.Some? && FromLedger(db.records[id].response.value) == FromLedger(outcome)
    ensures Sequences(Complete(db, id, outcome, ledgerApplied))
  {
    SecondAnswerLeavesChannels(db, id, outcome, ledgerApplied);
    UntouchedKeep(db, Complete(db, id, outcome, ledgerApplied));
  }

  lemma AnswerOrders(s: Sys, id: nat, outcome: Outcome, ledgerApplied: bool)
    requires Inv(s) && Sequences(s.db) && id < |s.db.records|
    requires Sound(s.db.records[id], outcome, ledgerApplied, s.ledger)
    ensures Sequences(Complete(s.db, id, outcome, ledgerApplied))
  {
    assert AnswerOk(s.db, s.ledger, id) && RecordOk(s.db, id);
    if s.db.records[id].response.Some? {
      LaterAnswerOrders(s.db, id, outcome, ledgerApplied);
    } else if s.db.records[id].hash.Some? {
      FirstAnswerOrders(s.db, id, outcome, ledgerApplied);
    } else {
      UntouchedKeep(s.db, Complete(s.db, id, outcome, ledgerApplied));
    }
  }

  lemma AnsweringKeepsSequences(s: Sys, step: Step)
    requires Inv(s) && Sequences(s.db) && Enabled(s, step) && Answering(step) && WritesFresh(s, step)
    ensures Sequences(Exec(s, step).db)
  {
    var p := s.procs[step.pid];
    assert ProcOk(s.db, s.ledger, p);
    match step
    case Refuse(_) => AnswerOrders(s, p.id, Refused(None, p.reason), false);
    case Finish(_) => AnswerOrders(s, p.id, p.outcome, p.ledgerApplied);
    case WriteVerdict(_) =>
      assert RowOk(s.db, p.todo[0]);
      AnswerOrders(s, p.todo[0].id, p.stage.outcome, p.stage.ledgerApplied);
  }

  // Steps that store nothing and answer nothing.
  predicate StoresNothing(step: Step) { !Answering(step) && !step.Store? }

  lemma IdleStepsKeepRecords(s: Sys, step: Step)
    requires Enabled(s, step) && StoresNothing(step)
    ensures RecordsKept(s.db, Exec(s, step).db)
  {
    if step.Start? {
      ClaimStoresNothing(s.db, step.req, step.workerId, step.now, step.leaseUntil);
    } else if !Marks(step) && !step.Verify? {
      OtherStepsLeaveRecords(s, step);
    }
  }

  lemma ClaimStoresNothing(db: Db, req: Request, workerId: string, now: nat, leaseUntil: nat)
    ensures RecordsKept(db, Claim(db, req, workerId, now, leaseUntil).0)
  {
  }

  lemma IdleStepsKeepChannels(s: Sys, step: Step)
    requires Enabled(s, step) && StoresNothing(step)
    ensures ChannelsKept(s.db, Exec(s, step).db)
  {
    if !WritesTables(step) { OtherStepsLeaveTables(s, step); }
  }

  lemma StepKeepsSequences(s: Sys, step: Step)
    requires Inv(s) && Sequences(s.db) && Enabled(s, step) && WritesFresh(s, step)
    ensures Sequences(Exec(s, step).db)
  {
    if Answering(step) {
      AnsweringKeepsSequences(s, step);
    } else if step.Store? {
      var p := s.procs[step.pid];
      assert ProcOk(s.db, s.ledger, p);
      if StoreDecision(s.db, p.id, p.lease, p.prepared, step.day, step.scope, step.limits).Stored? {
        StoreOrders(s.db, p.id, p.lease, p.prepared, step.day, step.scope, step.limits);
      }
    } else {
      IdleStepsKeepRecords(s, step);
      IdleStepsKeepChannels(s, step);
      UntouchedKeep(s.db, Exec(s, step).db);
    }
  }

  lemma RunKeepsSequences(s: Sys, steps: seq<Step>)
    requires Inv(s) && Sequences(s.db) && ValidRun(s, steps) && GuardedRun(s, steps)
    ensures Sequences(Final(s, steps).db)
    decreases |steps|
  {
    if steps != [] {
      StepKeeps(s, steps[0]);
      StepKeepsSequences(s, steps[0]);
      RunKeepsSequences(Exec(s, steps[0]), steps[1..]);
    }
  }

  lemma ConsumedPair(s: Sys, i: nat, j: nat)
    requires Inv(s) && Sequences(s.db)
    requires i < |s.db.records| && j < |s.db.records| && i != j
    requires Consumed(s.db.records[i]) && Consumed(s.db.records[j])
    requires s.db.records[i].channel == s.db.records[j].channel
      && s.db.records[i].Network() == s.db.records[j].Network()
    ensures var a, b := s.db.records[i], s.db.records[j];
      && a.token.Some? && b.token.Some? && a.sequence.Some? && b.sequence.Some? && a.token != b.token
      && (a.token.value < b.token.value <==> a.sequence.value < b.sequence.value)
      && a.channel.Some? && s.db.ChannelOf(i) in s.db.channels
      && s.db.channels[s.db.ChannelOf(i)].lastSequence.Some?
      && a.sequence.value <= s.db.channels[s.db.ChannelOf(i)].lastSequence.value
  {
    assert AnswerOk(s.db, s.ledger, i) && AnswerOk(s.db, s.ledger, j);
    assert Spent(s.db, i) && Spent(s.db, j);
    assert Ordered(s.db.records[i], s.db.records[j]) && Ordered(s.db.records[j], s.db.records[i]);
  }

  // On each channel the sequences that the ledger consumed rise strictly with the tokens they were
  // stored under, and none lies above the channel's confirmed sequence.
  lemma ConsumedSequencesRise(s: Sys, steps: seq<Step>, i: nat, j: nat)
    requires Init(s) && ValidRun(s, steps) && GuardedRun(s, steps)
    requires var db := Final(s, steps).db;
      && i < |db.records| && j < |db.records| && i != j
      && Consumed(db.records[i]) && Consumed(db.records[j])
      && db.records[i].channel == db.records[j].channel && db.records[i].Network() == db.records[j].Network()
    ensures var db := Final(s, steps).db; var a, b := db.records[i], db.records[j];
      && a.token.Some? && b.token.Some? && a.sequence.Some? && b.sequence.Some? && a.token != b.token
      && (a.token.value < b.token.value <==> a.sequence.value < b.sequence.value)
      && a.channel.Some? && db.ChannelOf(i) in db.channels
      && db.channels[db.ChannelOf(i)].lastSequence.Some?
      && a.sequence.value <= db.channels[db.ChannelOf(i)].lastSequence.value
  {
    RunKeeps(s, steps);
    RunKeepsSequences(s, steps);
    var f := Final(s, steps);
    ConsumedPair(f, i, j);
  }
}
