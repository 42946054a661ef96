/**
 Which channels can be leased, over every run: a lease in force, an operator's disabling and a boot each decide
 it until a later step overrides them.
 */
module SettlementChannels {
  import opened Wrappers
  import opened SettlementTables
  import opened SettlementProtocol
  import opened SettlementFencing

  // Some process could lease the channel at this moment.
  ghost predicate Available(s: Sys, cid: ChannelId, now: nat) {
    forall pid, worker, until ::
      pid in s.procs && s.procs[pid].Claimed? && s.procs[pid].req.key.scope.network == cid.network
      ==> Enabled(s, TakeLease(pid, cid, worker, now, until))
  }

  // No process can lease the channel at this moment.
  ghost predicate Unavailable(s: Sys, cid: ChannelId, now: nat) {
    forall pid, worker, until :: !Enabled(s, TakeLease(pid, cid, worker, now, until))
  }

  /* ---- A lease in force ---- */

  // While nobody else is granted the channel its lease runs until the moment it was granted for.
  predicate Runs(ch: Channel, token: nat, until: nat) {
    token <= ch.token && (ch.token == token && ch.status.Leased? ==> ch.leaseUntil == Some(until))
  }

  lemma AnsweringKeepsLease(s: Sys, step: Step, cid: ChannelId, token: nat, until: nat)
    requires Enabled(s, step) && Answering(step)
    requires cid in s.db.channels && Runs(s.db.channels[cid], token, until)
    ensures cid in Exec(s, step).db.channels && Runs(Exec(s, step).db.channels[cid], token, until)
  {
  }

  lemma StepKeepsLease(s: Sys, step: Step, cid: ChannelId, token: nat, until: nat)
    requires Enabled(s, step)
    requires cid in s.db.channels && Runs(s.db.channels[cid], token, until)
    ensures cid in Exec(s, step).db.channels && Runs(Exec(s, step).db.channels[cid], token, until)
  {
    if Answering(step) {
      AnsweringKeepsLease(s, step, cid, token, until);
    } else if !WritesTables(step) {
      OtherStepsLeaveTables(s, step);
    }
  }

  lemma RunKeepsLease(s: Sys, steps: seq<Step>, cid: ChannelId, token: nat, until: nat)
    requires ValidRun(s, steps)
    requires cid in s.db.channels && Runs(s.db.channels[cid], token, until)
    ensures cid in Final(s, steps).db.channels && Runs(Final(s, steps).db.channels[cid], token, until)
    decreases |steps|
  {
    if steps != [] {
      StepKeepsLease(s, steps[0], cid, token, until);
      RunKeepsLease(Exec(s, steps[0]), steps[1..], cid, token, until);
    }
  }

  // Leased until t: free to every claimant strictly after t and to nobody before. Idle: free. Otherwise not.
  ghost predicate FreeAfter(s: Sys, cid: ChannelId, until: nat, now: nat)
    requires cid in s.db.channels
  {
    var ch := s.db.channels[cid];
    && (ch.status.Leased? && until < now ==> Available(s, cid, now))
    && (ch.status.Leased? && now <= until ==> Unavailable(s, cid, now))
    && (ch.status.Idle? ==> Available(s, cid, now))
    && (ch.status.Unresolved? || ch.status.Disabled? ==> Unavailable(s, cid, now))
  }

  lemma LeaseDecides(s: Sys, cid: ChannelId, until: nat, now: nat)
    requires Fenced(s) && cid in s.db.channels
    requires Runs(s.db.channels[cid], s.db.channels[cid].token, until)
    ensures FreeAfter(s, cid, until, now)
  {
  }

  // What a grant until t means for as long as nobody else is granted the channel, at any later moment of any run.
  lemma GrantedUntil(s: Sys, step: Step, steps: seq<Step>, now: nat)
    requires Fenced(s) && Enabled(s, step) && step.TakeLease?
    requires ValidRun(Exec(s, step), steps)
    ensures var a, m := Exec(s, step), Final(Exec(s, step), steps);
      && step.channel in a.db.channels && a.db.channels[step.channel].status.Leased?
      && a.db.channels[step.channel].leaseOwner == Some(step.workerId)
      && step.channel in m.db.channels
      && (m.db.channels[step.channel].token == a.db.channels[step.channel].token
          ==> FreeAfter(m, step.channel, step.leaseUntil, now))
  {
    var a, m := Exec(s, step), Final(Exec(s, step), steps);
    StepKeepsFences(s, step);
    RunKeepsFences(a, steps);
    RunKeepsLease(a, steps, step.channel, a.db.channels[step.channel].token, step.leaseUntil);
    if m.db.channels[step.channel].token == a.db.channels[step.channel].token {
      LeaseDecides(m, step.channel, step.leaseUntil, now);
    }
  }

  // Giving a lease back frees the channel for everybody at once if it is still the one in force, and changes nothing
  // otherwise. The fencing token and the confirmed sequence stay.
  lemma ReleaseFrees(s: Sys, step: Step, now: nat)
    requires Fenced(s) && Enabled(s, step) && step.Release?
    ensures var b, lease := Exec(s, step), s.procs[step.pid].lease;
      && lease.id in s.db.channels && lease.id in b.db.channels
      && (forall cid :: cid in s.db.channels && cid != lease.id ==>
            cid in b.db.channels && b.db.channels[cid] == s.db.channels[cid])
      && var was := s.db.channels[lease.id];
         if was.status.Leased? && was.token == lease.token
         then Available(b, lease.id, now) && b.db.channels[lease.id]
                == Channel(Idle, None, None, was.token, None, was.lastSequence)
         else b.db == s.db
  {
    assert Granted(s.db, s.procs[step.pid]);
  }

  /* ---- A disabled channel ---- */

  predicate Off(db: Db, cid: ChannelId) { cid in db.channels && db.channels[cid].status.Disabled? }

  // A replica that boots with the key of the channel.
  predicate Restores(step: Step, cid: ChannelId) {
    step.Boot? && step.network == cid.network && cid.address in step.addresses
  }

  lemma AnsweringKeepsOff(s: Sys, step: Step, cid: ChannelId)
    requires Fenced(s) && Enabled(s, step) && Answering(step) && Off(s.db, cid)
    ensures Off(Exec(s, step).db, cid)
  {
  }

  lemma StepKeepsOff(s: Sys, step: Step, cid: ChannelId)
    requires Fenced(s) && Enabled(s, step) && Off(s.db, cid) && !Restores(step, cid)
    ensures Off(Exec(s, step).db, cid)
  {
    if Answering(step) {
      AnsweringKeepsOff(s, step, cid);
    } else if !WritesTables(step) {
      OtherStepsLeaveTables(s, step);
    }
  }

  // A disabled channel is never leased again, by anybody at any time, until a replica boots with its key.
  lemma DisabledStaysDisabled(s: Sys, steps: seq<Step>, cid: ChannelId, now: nat)
    requires Fenced(s) && ValidRun(s, steps) && Off(s.db, cid)
    requires forall k :: 0 <= k < |steps| ==> !Restores(steps[k], cid)
    ensures Off(Final(s, steps).db, cid) && Unavailable(Final(s, steps), cid, now)
    decreases |steps|
  {
    if steps != [] {
      StepKeepsOff(s, steps[0], cid);
      StepKeepsFences(s, steps[0]);
      DisabledStaysDisabled(Exec(s, steps[0]), steps[1..], cid, now);
    }
  }

  // An operator takes a known channel out of use for as long as no replica boots with its key.
  lemma OperatorDisables(s: Sys, step: Step, steps: seq<Step>, now: nat)
    requires Fenced(s) && Enabled(s, step) && step.DisableKey? && step.channel in s.db.channels
    requires ValidRun(Exec(s, step), steps)
    requires forall k :: 0 <= k < |steps| ==> !Restores(steps[k], step.channel)
    ensures Unavailable(Final(Exec(s, step), steps), step.channel, now)
    ensures forall cid :: cid in s.db.channels && cid != step.channel ==>
      cid in Exec(s, step).db.channels && Exec(s, step).db.channels[cid] == s.db.channels[cid]
  {
    StepKeepsFences(s, step);
    DisabledStaysDisabled(Exec(s, step), steps, step.channel, now);
  }

  // A boot decides availability by the keys it was given: at any time, every channel of the network without a
  // settlement is free exactly if its key was given. One with a settlement and every other network are as before.
  lemma BootDecides(s: Sys, step: Step, cid: ChannelId, now: nat)
    requires Fenced(s) && Enabled(s, step) && step.Boot?
    ensures var b := Exec(s, step);
      && (cid.network == step.network && cid.address in step.addresses ==> cid in b.db.channels)
      && (cid in b.db.channels ==>
            if cid in s.db.channels && (cid.network != step.network || s.db.channels[cid].settlement.Some?)
            then b.db.channels[cid] == s.db.channels[cid]
            else if cid.address in step.addresses then Available(b, cid, now) else Unavailable(b, cid, now))
  {
  }
}
