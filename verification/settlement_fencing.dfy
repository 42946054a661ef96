/**
 Channel fencing, for every run whatever the processes do: no hypothesis on owners or on the ledger.
 */
module SettlementFencing {
  import opened Wrappers
  import opened SettlementTables
  import opened SettlementProtocol

  // The token names a lease that can no longer store or release.
  predicate Lost(db: Db, lease: Lease) {
    && lease.id in db.channels && lease.token <= db.channels[lease.id].token
    && (lease.token == db.channels[lease.id].token ==> !db.channels[lease.id].status.Leased?)
  }

  function LeaseOf(p: Proc): Option<Lease> {
    if p.Holding? || p.Ready? || p.Releasing? then Some(p.lease) else None
  }

  // Leases in hand were granted, stored leases are spent, and each is used by one process only.
  ghost predicate Fenced(s: Sys) {
    LeasesGranted(s) && LeasesApart(s) && StoresSpent(s) && StoresOrdered(s) && OnlyUnresolvedSettle(s.db)
  }

  predicate Granted(db: Db, p: Proc) {
    LeaseOf(p).Some? ==>
      LeaseOf(p).value.id in db.channels && LeaseOf(p).value.token <= db.channels[LeaseOf(p).value.id].token
  }

  predicate LeasesGranted(s: Sys) {
    forall pid :: pid in s.procs ==> Granted(s.db, s.procs[pid])
  }

  predicate LeasesApart(s: Sys) {
    forall p, q :: p in s.procs && q in s.procs && p != q && LeaseOf(s.procs[p]).Some?
      ==> LeaseOf(s.procs[p]) != LeaseOf(s.procs[q])
  }

  predicate StoresSpent(s: Sys) {
    forall k :: 0 <= k < |s.history| ==> Lost(s.db, s.history[k].lease)
  }

  predicate StoresOrdered(s: Sys) {
    forall j, k :: 0 <= j < k < |s.history| && s.history[j].lease.id == s.history[k].lease.id
      ==> s.history[j].lease.token < s.history[k].lease.token
  }

  predicate OnlyUnresolvedSettle(db: Db) {
    forall cid :: cid in db.channels && db.channels[cid].settlement.Some? ==> db.channels[cid].status.Unresolved?
  }

  // Tokens only rise, a channel becomes leased only under a new token, and a sequence never falls.
  predicate ChannelAdvances(a: Channel, b: Channel) {
    && a.token <= b.token
    && (a.token == b.token && b.status.Leased? ==> a.status.Leased?)
    && (a.lastSequence.Some? ==> b.lastSequence.Some? && a.lastSequence.value <= b.lastSequence.value)
  }

  ghost predicate ChannelsAdvance(a: Db, b: Db) {
    forall cid :: cid in a.channels ==> cid in b.channels && ChannelAdvances(a.channels[cid], b.channels[cid])
  }

  lemma AnsweringAdvancesChannels(s: Sys, step: Step)
    requires Enabled(s, step) && Answering(step)
    ensures ChannelsAdvance(s.db, Exec(s, step).db)
  {
  }

  lemma StepAdvancesChannels(s: Sys, step: Step)
    requires Enabled(s, step)
    ensures ChannelsAdvance(s.db, Exec(s, step).db)
  {
    if Answering(step) { AnsweringAdvancesChannels(s, step); }
  }

  // Apart from a grant, processes only keep or drop leases.
  lemma StepKeepsLeases(s: Sys, step: Step)
    requires Enabled(s, step) && !step.TakeLease?
    ensures var b := Exec(s, step);
      forall pid :: pid in b.procs && LeaseOf(b.procs[pid]).Some? ==>
        pid in s.procs && LeaseOf(s.procs[pid]) == LeaseOf(b.procs[pid])
  {
  }

  lemma StepKeepsProcessFences(s: Sys, step: Step)
    requires Fenced(s) && Enabled(s, step)
    ensures LeasesGranted(Exec(s, step)) && LeasesApart(Exec(s, step))
  {
    var b := Exec(s, step);
    StepAdvancesChannels(s, step);
    if step.TakeLease? {
      forall pid | pid in b.procs ensures Granted(b.db, b.procs[pid]) {
        assert pid != step.pid ==> Granted(s.db, s.procs[pid]);
      }
      forall pid | pid in s.procs && pid != step.pid ensures LeaseOf(s.procs[pid]) != LeaseOf(b.procs[step.pid]) {
        assert Granted(s.db, s.procs[pid]);
      }
    } else {
      StepKeepsLeases(s, step);
      forall pid | pid in b.procs ensures Granted(b.db, b.procs[pid]) {
        assert pid in s.procs ==> Granted(s.db, s.procs[pid]);
      }
    }
  }

  lemma StepKeepsSettlements(s: Sys, step: Step)
    requires OnlyUnresolvedSettle(s.db) && Enabled(s, step)
    ensures OnlyUnresolvedSettle(Exec(s, step).db)
  {
    if Answering(step) {
      AnsweringKeepsSettlements(s, step);
    } else if !WritesTables(step) {
      OtherStepsLeaveTables(s, step);
    }
  }

  lemma AnsweringKeepsSettlements(s: Sys, step: Step)
    requires OnlyUnresolvedSettle(s.db) && Enabled(s, step) && Answering(step)
    ensures OnlyUnresolvedSettle(Exec(s, step).db)
  {
  }

  lemma StepKeepsFences(s: Sys, step: Step)
    requires Fenced(s) && Enabled(s, step)
    ensures Fenced(Exec(s, step))
  {
    var b := Exec(s, step);
    StepAdvancesChannels(s, step);
    StepKeepsProcessFences(s, step);
    StepKeepsSettlements(s, step);
    assert forall k | 0 <= k < |s.history| :: b.history[k] == s.history[k];
    forall k | 0 <= k < |b.history| ensures Lost(b.db, b.history[k].lease) {
      if k < |s.history| { assert Lost(s.db, s.history[k].lease); }
    }
    forall j, k | 0 <= j < k < |b.history| && b.history[j].lease.id == b.history[k].lease.id
      ensures b.history[j].lease.token < b.history[k].lease.token
    {
      assert Lost(s.db, s.history[j].lease);
    }
  }

  lemma RunAdvancesChannels(s: Sys, steps: seq<Step>)
    requires ValidRun(s, steps)
    ensures ChannelsAdvance(s.db, Final(s, steps).db)
    decreases |steps|
  {
    if steps != [] {
      var b := Exec(s, steps[0]);
      StepAdvancesChannels(s, steps[0]);
      RunAdvancesChannels(b, steps[1..]);
      forall cid | cid in s.db.channels
        ensures cid in Final(s, steps).db.channels
        ensures ChannelAdvances(s.db.channels[cid], Final(s, steps).db.channels[cid])
      {
        assert cid in b.db.channels;
      }
    }
  }

  lemma RunKeepsFences(s: Sys, steps: seq<Step>)
    requires Fenced(s) && ValidRun(s, steps)
    ensures Fenced(Final(s, steps))
    decreases |steps|
  {
    if steps != [] {
      StepKeepsFences(s, steps[0]);
      RunKeepsFences(Exec(s, steps[0]), steps[1..]);
    }
  }

  // In every run, at most one process ever stores under a token, and stores on one channel happen
  // under strictly rising tokens.
  lemma OneStorePerToken(s: Sys, steps: seq<Step>)
    requires Init(s) && ValidRun(s, steps)
    ensures var h := Final(s, steps).history;
      forall j, k :: 0 <= j < k < |h| && h[j].lease.id == h[k].lease.id ==> h[j].lease.token < h[k].lease.token
  {
    RunKeepsFences(s, steps);
  }

  // A lease that was taken over, disabled, reset by another replica's boot, released or spent stays
  // lost: from then on every store under it is refused as fence_lost and every release does nothing.
  lemma LostLeaseStaysLost(s: Sys, steps: seq<Step>, lease: Lease, id: nat, p: Prepared,
                           day: nat, scope: string, limits: Limits)
    requires ValidRun(s, steps) && Lost(s.db, lease)
    ensures var db := Final(s, steps).db;
      && Lost(db, lease)
      && StoreDecision(db, id, lease, p, day, scope, limits) == FenceLost
      && StorePrepared(db, id, lease, p, day, scope, limits) == db
      && ReleaseChannel(db, lease) == db
  {
    RunAdvancesChannels(s, steps);
  }

  // The events that lose a lease somebody still holds.
  lemma LeasesAreLostBy(s: Sys, step: Step, lease: Lease)
    requires Fenced(s) && Enabled(s, step) && Holds(s.db, lease)
    requires (step.TakeLease? && step.channel == lease.id)
             || (step.DisableKey? && step.channel == lease.id)
             || (step.Boot? && step.network == lease.id.network)
    ensures Lost(Exec(s, step).db, lease)
  {
  }

  // A granted lease is new: it raises the token, so no process holds it and no store was made under it.
  lemma GrantedLeaseIsNew(s: Sys, step: Step)
    requires Fenced(s) && Enabled(s, step) && step.TakeLease?
    ensures var b := Exec(s, step); var lease := LeaseOf(b.procs[step.pid]);
      && lease.Some? && Holds(b.db, lease.value)
      && lease.value.token == s.db.channels[step.channel].token + 1
      && (forall pid :: pid in s.procs && LeaseOf(s.procs[pid]).Some? ==> LeaseOf(s.procs[pid]) != lease)
      && (forall k :: 0 <= k < |s.history| ==> s.history[k].lease != lease.value)
  {
    var lease := LeaseOf(Exec(s, step).procs[step.pid]).value;
    forall k | 0 <= k < |s.history| ensures s.history[k].lease != lease {
      assert Lost(s.db, s.history[k].lease);
    }
  }

  // Over any run a channel's confirmed sequence never falls, and a store is accepted only above it.
  lemma SequencesNeverFall(s: Sys, steps: seq<Step>, cid: ChannelId)
    requires ValidRun(s, steps) && cid in s.db.channels && s.db.channels[cid].lastSequence.Some?
    ensures cid in Final(s, steps).db.channels
    ensures var last := Final(s, steps).db.channels[cid].lastSequence;
      && last.Some? && s.db.channels[cid].lastSequence.value <= last.value
      && forall id: nat, token: nat, p: Prepared, day: nat, scope: string, limits: Limits ::
           StoreDecision(Final(s, steps).db, id, Lease(cid, token), p, day, scope, limits).Stored?
           ==> last.value < p.sequence
  {
    RunAdvancesChannels(s, steps);
  }
}
