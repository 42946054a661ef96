/** What a store answers and writes, at any moment of any run. */
module SettlementWrites {
  import opened Wrappers
  import opened SettlementTables
  import opened SettlementProtocol
  import opened SettlementOwners
  import opened SettlementFencing
  import opened SettlementBudget

  // The lease in hand is the one the channel is under.
  predicate UnderFence(db: Db, lease: Lease) {
    lease.id in db.channels && db.channels[lease.id].status.Leased? && db.channels[lease.id].token == lease.token
  }

  // The sequence is above the last one known to be consumed.
  predicate AboveLast(db: Db, lease: Lease, sequence: nat) {
    lease.id in db.channels && db.channels[lease.id].lastSequence.Some? ==>
      db.channels[lease.id].lastSequence.value < sequence
  }

  // The fees of everything stored on the day leave room for one more, for the principal and for all.
  predicate InBudget(h: seq<StoreEvent>, day: nat, scope: string, fee: nat, limits: Limits) {
    Fees(h, day, Some(scope)) + fee <= limits.perScope && Fees(h, day, None) + fee <= limits.global
  }

  lemma ReachedState(s: Sys, steps: seq<Step>)
    requires Init(s) && ValidRun(s, steps)
    ensures Fenced(Final(s, steps)) && AllPlaced(Final(s, steps)) && Booked(Final(s, steps))
  {
    RunKeepsFences(s, steps);
    RunKeepsPlaced(s, steps);
    RunKeepsBooks(s, steps, Limits(0, 0));
  }

  lemma RunKeepsPlaced(s: Sys, steps: seq<Step>)
    requires AllPlaced(s) && ValidRun(s, steps)
    ensures AllPlaced(Final(s, steps))
    decreases |steps|
  {
    if steps != [] {
      StepKeepsPlaced(s, steps[0]);
      RunKeepsPlaced(Exec(s, steps[0]), steps[1..]);
    }
  }

  // What the step leaves of the process and of the tables when it refuses.
  predicate TurnsAway(s: Sys, b: Sys, pid: nat, refusal: Option<Reason>)
    requires pid in s.procs && s.procs[pid].Ready?
  {
    && b.db == s.db && b.history == s.history
    && pid in b.procs && b.procs[pid] == Releasing(s.procs[pid].req, s.procs[pid].id, s.procs[pid].lease, refusal)
  }

  // The store happens exactly under the fence, above the last sequence and within both limits, as the fees stored
  // so far leave room; the first of the three that fails decides the refusal, and a refusal writes nothing.
  lemma StoreAnswers(s: Sys, steps: seq<Step>, step: Step)
    requires Init(s) && ValidRun(s, steps) && Enabled(Final(s, steps), step) && step.Store?
    ensures var m, b, pid := Final(s, steps), Exec(Final(s, steps), step), step.pid;
      var p := m.procs[pid];
      var above := AboveLast(m.db, p.lease, p.prepared.sequence);
      var room := InBudget(m.history, step.day, step.scope, p.prepared.fee, step.limits);
      && pid in b.procs
      && (b.procs[pid].StoredIt? <==> UnderFence(m.db, p.lease) && above && room)
      && (!UnderFence(m.db, p.lease) ==> TurnsAway(m, b, pid, Some(FenceRefused)))
      && (UnderFence(m.db, p.lease) && !above ==> TurnsAway(m, b, pid, None))
      && (UnderFence(m.db, p.lease) && above && !room ==> TurnsAway(m, b, pid, Some(BudgetRefused)))
  {
    ReachedState(s, steps);
    assert Placed(Final(s, steps).db, Final(s, steps).procs[step.pid]);
  }

  // A store writes the envelope with its hash, lease, sequence and fee into the record, and quarantines the channel
  // for that record; the payment, every other record and every other channel are as before.
  lemma StoreWrites(s: Sys, steps: seq<Step>, step: Step)
    requires Init(s) && ValidRun(s, steps) && Enabled(Final(s, steps), step) && step.Store?
    requires step.pid in Exec(Final(s, steps), step).procs && Exec(Final(s, steps), step).procs[step.pid].StoredIt?
    ensures var m, b := Final(s, steps), Exec(Final(s, steps), step);
      var p := m.procs[step.pid];
      && p.id < |m.db.records| == |b.db.records| && p.lease.id in m.db.channels
      && b.db.channels.Keys == m.db.channels.Keys
      && (forall i :: 0 <= i < |m.db.records| && i != p.id ==> b.db.records[i] == m.db.records[i])
      && (forall cid :: cid in m.db.channels && cid != p.lease.id ==> b.db.channels[cid] == m.db.channels[cid])
      && Enveloped(m.db.records[p.id], b.db.records[p.id], p.lease, p.prepared)
      && Quarantined(m.db.channels[p.lease.id], b.db.channels[p.lease.id], p.id)
  {
    ReachedState(s, steps);
    assert Placed(Final(s, steps).db, Final(s, steps).procs[step.pid]);
  }

  ghost predicate Enveloped(a: Record, b: Record, lease: Lease, p: Prepared) {
    && SameRequest(a, b) && b.amount == a.amount && b.response == a.response && b.status.Submitting?
    && b.workerId == a.workerId && b.leaseUntil == a.leaseUntil
    && b.envelope == Some(p.envelope) && b.hash == Some(HashOf(p.envelope)) && b.payer == Some(p.payer)
    && b.channel == Some(lease.id.address) && b.token == Some(lease.token)
    && b.sequence == Some(p.sequence) && b.fee == Some(p.fee)
  }

  ghost predicate Quarantined(a: Channel, b: Channel, id: nat) {
    && b.status.Unresolved? && b.settlement == Some(id)
    && b.leaseOwner == a.leaseOwner && b.leaseUntil == a.leaseUntil && b.token == a.token
    && b.lastSequence == a.lastSequence
  }

  /* ---- Later writes ---- */

  // The record whose answer the step writes, and the answer.
  function Answer(s: Sys, step: Step): (nat, Outcome)
    requires Enabled(s, step) && Answering(step)
  {
    var p := s.procs[step.pid];
    if step.Refuse? then (p.id, Refused(None, p.reason))
    else if step.Finish? then (p.id, p.outcome)
    else (p.todo[0].id, p.stage.outcome)
  }

  // The record keeps everything but its status and its answer.
  ghost predicate AnsweredAs(a: Record, b: Record, outcome: Outcome) {
    && b.response == Some(outcome)
    && b.status == (if outcome.Succeeded? then Success else Failed)
    && b == a.(status := b.status, response := b.response)
  }

  // An answer goes into its record, whose status says whether it is a success, and into no other.
  lemma AnswerWrites(s: Sys, step: Step)
    requires Enabled(s, step) && Answering(step)
    ensures var b := Exec(s, step).db; var (id, outcome) := Answer(s, step);
      && |b.records| == |s.db.records| && b.usage == s.db.usage
      && (forall i :: 0 <= i < |b.records| && i != id ==> b.records[i] == s.db.records[i])
      && (id < |b.records| ==> AnsweredAs(s.db.records[id], b.records[id], outcome))
  {
  }

  // The record keeps everything but its status and, when nothing is known of the payment, its claim.
  ghost predicate MarkedAs(a: Record, b: Record, known: bool) {
    && b.status == (if known then Pending else Unknown)
    && (!known ==> b.workerId.None? && b.leaseUntil.None?)
    && b == a.(status := b.status, workerId := if known then a.workerId else None,
               leaseUntil := if known then a.leaseUntil else None)
  }

  // After a send that was accepted the record is pending; after one that was lost, or a poll without an answer, it is
  // unknown and nobody claims it any more.
  lemma MarkWrites(s: Sys, step: Step)
    requires Enabled(s, step) && Marks(step)
    ensures var b, p := Exec(s, step).db, s.procs[step.pid];
      && |b.records| == |s.db.records| && b.usage == s.db.usage && b.channels == s.db.channels
      && (forall i :: 0 <= i < |b.records| && i != p.row.id ==> b.records[i] == s.db.records[i])
      && (p.row.id < |b.records| ==>
            MarkedAs(s.db.records[p.row.id], b.records[p.row.id], step.Mark? && p.pending))
  {
  }
}
