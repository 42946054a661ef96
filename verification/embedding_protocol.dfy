/**
 Any number of replicas and workers over one queue. A claim may be used at any later time, or never,
 however often its lease expired; vectors are what the model makes of the claimed text. Generations may
 be made, retired and activated again in any order.
 */
module EmbeddingProtocol {
  import opened Wrappers
  import opened EmbeddingTables

  // `claims` are all claims ever handed out, `made` all generations that ever had a row.
  datatype Sys = Sys(t: Tables, claims: set<Claim>, made: set<nat>)

  datatype Step =
    | Index(version: nat, source: Source, retired: set<nat>)
    | Activate(generation: nat)
    | AdoptJobs(generation: nat, now: nat)
    | DropJobs
    | Insert(generation: nat, now: nat)
    | Take(picked: set<Slot>, worker: string, now: nat, until: nat)
    | Store(batch: seq<Claim>, now: nat)
    | Fail(batch: seq<Claim>, maxAttempts: nat, nextRun: nat -> nat)
    | Stale(generation: nat)
    | Reset(generation: nat, now: nat)

  const EMPTY := Sys(Tables(map[], {}, map[], map[], None), {}, {})

  predicate Enabled(s: Sys, step: Step) {
    match step
    case Take(picked, _, now, _) =>
      forall slot :: slot in picked ==>
        0 < slot.generation && slot.generation in s.made && slot in s.t.jobs && Claimable(s.t.jobs[slot], now)
    case Store(batch, _) => forall i :: 0 <= i < |batch| ==> batch[i] in s.claims
    case Fail(batch, _, _) => forall i :: 0 <= i < |batch| ==> batch[i] in s.claims
    case Activate(g) => g > 0
    case AdoptJobs(g, _) => g in s.made
    case Insert(g, _) => g in s.made
    case Stale(g) => g in s.made
    case Reset(g, _) => g in s.made
    case _ => true
  }

  function Embedded(batch: seq<Claim>, embed: string -> Embedding): (r: seq<(Claim, Embedding)>)
    ensures |r| == |batch|
  {
    seq(|batch|, i requires 0 <= i < |batch| => (batch[i], embed(batch[i].document)))
  }

  function NewClaims(t: Tables, picked: set<Slot>): set<Claim> {
    set slot | slot in picked && slot in t.jobs && slot.version in t.docs :: ClaimOf(t, slot)
  }

  function Exec(embed: string -> Embedding, s: Sys, step: Step): Sys
    requires Enabled(s, step)
  {
    match step
    case Index(v, source, retired) => s.(t := IndexVersion(s.t, v, source, retired))
    case Activate(g) => s.(t := ActivateGeneration(s.t, g), made := s.made + {g})
    case AdoptJobs(g, now) => s.(t := Adopt(s.t, g, now))
    case DropJobs => s.(t := DropUnassigned(s.t))
    case Insert(g, now) => s.(t := InsertMissing(s.t, g, now))
    case Take(picked, worker, _, until) =>
      s.(t := ClaimJobs(s.t, picked, worker, until), claims := s.claims + NewClaims(s.t, picked))
    case Store(batch, now) => s.(t := StoreAll(s.t, Embedded(batch, embed), now))
    case Fail(batch, max, nextRun) => s.(t := FailAll(s.t, batch, max, nextRun))
    case Stale(g) => s.(t := MarkStale(s.t, g))
    case Reset(g, now) => s.(t := Revive(s.t, g, now))
  }

  ghost predicate ValidRun(embed: string -> Embedding, s: Sys, steps: seq<Step>)
    decreases |steps|
  {
    steps == [] || (Enabled(s, steps[0]) && ValidRun(embed, Exec(embed, s, steps[0]), steps[1..]))
  }

  function Final(embed: string -> Embedding, s: Sys, steps: seq<Step>): Sys
    requires ValidRun(embed, s, steps)
    decreases |steps|
  {
    if steps == [] then s else Final(embed, Exec(embed, s, steps[0]), steps[1..])
  }

  // No other generation is activated.
  predicate Stays(step: Step, g: nat) { step.Activate? ==> step.generation == g }

  predicate Steady(steps: seq<Step>, g: nat) { forall i :: 0 <= i < |steps| ==> Stays(steps[i], g) }

  // A run is extended in front.
  lemma RunStarts(embed: string -> Embedding, s: Sys, step: Step, rest: seq<Step>)
    requires Enabled(s, step) && ValidRun(embed, Exec(embed, s, step), rest)
    ensures ValidRun(embed, s, [step] + rest)
    ensures Final(embed, s, [step] + rest) == Final(embed, Exec(embed, s, step), rest)
  {
    assert ([step] + rest)[1..] == rest;
  }

  // A run is extended at its end.
  lemma {:induction false} RunGrows(embed: string -> Embedding, s: Sys, steps: seq<Step>, step: Step)
    requires ValidRun(embed, s, steps) && Enabled(Final(embed, s, steps), step)
    ensures ValidRun(embed, s, steps + [step])
    ensures Final(embed, s, steps + [step]) == Exec(embed, Final(embed, s, steps), step)
    decreases |steps|
  {
    if steps == [] {
      assert (steps + [step])[1..] == [];
    } else {
      assert (steps + [step])[1..] == steps[1..] + [step];
      RunGrows(embed, Exec(embed, s, steps[0]), steps[1..], step);
    }
  }

  /* ---- Batches ---- */

  // What every entry keeps, a batch keeps.
  lemma {:induction false} BatchKeeps(inv: Tables -> bool, embed: string -> Embedding, t: Tables, batch: seq<Claim>,
      now: nat)
    requires inv(t)
    requires forall u: Tables, i :: inv(u) && 0 <= i < |batch| ==>
      inv(StoreOne(u, batch[i], embed(batch[i].document), now))
    ensures inv(StoreAll(t, Embedded(batch, embed), now))
  {
    if batch != [] {
      var last := |batch| - 1;
      assert forall i | 0 <= i < last :: batch[..last][i] == batch[i];
      BatchKeeps(inv, embed, t, batch[..last], now);
      assert Embedded(batch, embed)[..last] == Embedded(batch[..last], embed);
    }
  }

  lemma {:induction false} FailureKeeps(inv: Tables -> bool, t: Tables, batch: seq<Claim>, max: nat,
      nextRun: nat -> nat)
    requires inv(t)
    requires forall u: Tables, i, at :: inv(u) && 0 <= i < |batch| ==> inv(FailOne(u, batch[i], max, at))
    ensures inv(FailAll(t, batch, max, nextRun))
  {
    if batch != [] {
      var last := |batch| - 1;
      assert forall i | 0 <= i < last :: batch[..last][i] == batch[i];
      FailureKeeps(inv, t, batch[..last], max, nextRun);
    }
  }

  lemma StoreSingle(embed: string -> Embedding, t: Tables, c: Claim)
    ensures StoreAll(t, Embedded([c], embed), 0) == StoreOne(t, c, embed(c.document), 0)
  {
    assert Embedded([c], embed)[..0] == [];
  }

  lemma FailSingle(t: Tables, c: Claim, max: nat, nextRun: nat -> nat)
    ensures FailAll(t, [c], max, nextRun) == FailOne(t, c, max, nextRun(c.attempts))
  {
    assert [c][..0] == [];
  }

  /* ---- What every run keeps ---- */

  // A job has a document and, once assigned, a generation that was made.
  predicate Placed(t: Tables, made: set<nat>, slot: Slot) {
    slot.version in t.docs && (slot.generation == 0 || slot.generation in made)
  }

  // A claim is for a job that is still there, and no newer than its last lease.
  predicate Issued(t: Tables, made: set<nat>, c: Claim) {
    c.slot.generation in made && c.slot in t.jobs && c.token <= t.jobs[c.slot].token
  }

  // Somebody claimed the job last: the claim may still be used.
  ghost predicate Held(t: Tables, claims: set<Claim>, slot: Slot) {
    exists c :: c in claims && c.slot == slot && Fenced(t, c)
  }

  ghost predicate Kept(t: Tables, claims: set<Claim>, made: set<nat>) {
    && 0 !in made && (t.generation.Some? ==> t.generation.value in made)
    && (forall slot :: slot in t.jobs ==> Placed(t, made, slot))
    && (forall slot :: slot in t.vectors ==> slot.generation in made)
    && (forall c :: c in claims ==> Issued(t, made, c))
    && (forall slot :: slot in t.jobs && (t.jobs[slot].state.Leased? || t.jobs[slot].state.Done?) ==>
      Held(t, claims, slot))
  }

  // Statements that drop no assigned job, keep tokens and neither lease nor finish a job.
  lemma QuietKeeps(t: Tables, d: Tables, claims: set<Claim>, made: set<nat>)
    requires Kept(t, claims, made)
    requires d.generation == t.generation && t.docs.Keys <= d.docs.Keys && d.vectors.Keys == t.vectors.Keys
    requires forall slot :: slot in d.jobs ==> Placed(d, made, slot)
    requires forall slot :: slot in t.jobs && slot.generation != 0 ==>
      slot in d.jobs && d.jobs[slot].token == t.jobs[slot].token
    requires forall slot :: slot in d.jobs && (d.jobs[slot].state.Leased? || d.jobs[slot].state.Done?) ==>
      slot in t.jobs && d.jobs[slot].state == t.jobs[slot].state && d.jobs[slot].token == t.jobs[slot].token
    ensures Kept(d, claims, made)
  {
    forall c | c in claims ensures Issued(d, made, c) { assert Issued(t, made, c); }
    forall slot | slot in d.jobs && (d.jobs[slot].state.Leased? || d.jobs[slot].state.Done?)
      ensures Held(d, claims, slot)
    {
      assert Held(t, claims, slot);
      var c :| c in claims && c.slot == slot && Fenced(t, c);
      assert Fenced(d, c);
    }
  }

  lemma TakeIsKept(t: Tables, claims: set<Claim>, made: set<nat>, picked: set<Slot>, worker: string, until: nat)
    requires Kept(t, claims, made)
    requires forall slot :: slot in picked ==> slot.generation in made && slot in t.jobs
    ensures Kept(ClaimJobs(t, picked, worker, until), claims + NewClaims(t, picked), made)
  {
    var d, after := ClaimJobs(t, picked, worker, until), claims + NewClaims(t, picked);
    forall c | c in after ensures Issued(d, made, c) {
      if c in claims { assert Issued(t, made, c); }
    }
    forall slot | slot in d.jobs && (d.jobs[slot].state.Leased? || d.jobs[slot].state.Done?)
      ensures Held(d, after, slot)
    {
      if slot in picked {
        assert Placed(t, made, slot);
        assert ClaimOf(t, slot) in after && Fenced(d, ClaimOf(t, slot));
      } else {
        assert Held(t, claims, slot);
        var c :| c in claims && c.slot == slot && Fenced(t, c);
        assert Fenced(d, c);
      }
    }
  }

  lemma StoreOneIsKept(t: Tables, claims: set<Claim>, made: set<nat>, c: Claim, e: Embedding, now: nat)
    requires Kept(t, claims, made) && c in claims
    ensures Kept(StoreOne(t, c, e, now), claims, made)
  {
    var d := StoreOne(t, c, e, now);
    assert Issued(t, made, c);
    forall b | b in claims ensures Issued(d, made, b) { assert Issued(t, made, b); }
    forall slot | slot in d.jobs ensures Placed(d, made, slot) { assert Placed(t, made, slot); }
    forall slot | slot in d.jobs && (d.jobs[slot].state.Leased? || d.jobs[slot].state.Done?)
      ensures Held(d, claims, slot)
    {
      if slot == c.slot && Fenced(t, c) {
        assert Fenced(d, c);
      } else {
        assert Held(t, claims, slot);
        var b :| b in claims && b.slot == slot && Fenced(t, b);
        assert Fenced(d, b);
      }
    }
  }

  lemma FailOneIsKept(t: Tables, claims: set<Claim>, made: set<nat>, c: Claim, max: nat, at: nat)
    requires Kept(t, claims, made)
    ensures Kept(FailOne(t, c, max, at), claims, made)
  {
    var d := FailOne(t, c, max, at);
    forall slot | slot in d.jobs ensures Placed(d, made, slot) { assert Placed(t, made, slot); }
    QuietKeeps(t, d, claims, made);
  }

  lemma StepIsKept(embed: string -> Embedding, s: Sys, step: Step)
    requires Kept(s.t, s.claims, s.made) && Enabled(s, step)
    ensures var b := Exec(embed, s, step); Kept(b.t, b.claims, b.made)
  {
    var b := Exec(embed, s, step);
    match step
    case Activate(_) =>
      forall slot | slot in b.t.jobs ensures Placed(b.t, b.made, slot) { assert Placed(s.t, s.made, slot); }
      forall c | c in b.claims ensures Issued(b.t, b.made, c) { assert Issued(s.t, s.made, c); }
      forall slot | slot in b.t.jobs && (b.t.jobs[slot].state.Leased? || b.t.jobs[slot].state.Done?)
        ensures Held(b.t, b.claims, slot)
      {
        assert Held(s.t, s.claims, slot);
        var c :| c in s.claims && c.slot == slot && Fenced(s.t, c);
        assert Fenced(b.t, c);
      }
    case Take(picked, worker, _, until) => TakeIsKept(s.t, s.claims, s.made, picked, worker, until);
    case Store(batch, now) =>
      forall u: Tables, i | Kept(u, s.claims, s.made) && 0 <= i < |batch|
        ensures Kept(StoreOne(u, batch[i], embed(batch[i].document), now), s.claims, s.made)
      {
        StoreOneIsKept(u, s.claims, s.made, batch[i], embed(batch[i].document), now);
      }
      BatchKeeps((u: Tables) => Kept(u, s.claims, s.made), embed, s.t, batch, now);
    case Fail(batch, max, nextRun) =>
      forall u: Tables, i, at | Kept(u, s.claims, s.made) && 0 <= i < |batch|
        ensures Kept(FailOne(u, batch[i], max, at), s.claims, s.made)
      {
        FailOneIsKept(u, s.claims, s.made, batch[i], max, at);
      }
      FailureKeeps((u: Tables) => Kept(u, s.claims, s.made), s.t, batch, max, nextRun);
    case _ =>
      forall slot | slot in b.t.jobs ensures Placed(b.t, b.made, slot) {
        assert slot in s.t.jobs ==> Placed(s.t, s.made, slot);
        assert Slot(slot.version, 0) in s.t.jobs ==> Placed(s.t, s.made, Slot(slot.version, 0));
      }
      QuietKeeps(s.t, b.t, s.claims, s.made);
  }

  lemma {:induction false} RunIsKept(embed: string -> Embedding, s: Sys, steps: seq<Step>)
    requires Kept(s.t, s.claims, s.made) && ValidRun(embed, s, steps)
    ensures var f := Final(embed, s, steps); Kept(f.t, f.claims, f.made)
    decreases |steps|
  {
    if steps != [] {
      StepIsKept(embed, s, steps[0]);
      RunIsKept(embed, Exec(embed, s, steps[0]), steps[1..]);
    }
  }

  // Generation g is served, or there is none yet.
  predicate Serving(s: Sys, g: nat) { s.t.generation == Some(g) || s.made == {} }

  /* ---- Fences ---- */

  // Assigned jobs stay, and their tokens never fall.
  ghost predicate TokensRise(a: Tables, b: Tables) {
    forall slot :: slot in a.jobs && slot.generation != 0 ==> slot in b.jobs && a.jobs[slot].token <= b.jobs[slot].token
  }

  lemma {:induction false} StoreAllTokens(t: Tables, entries: seq<(Claim, Embedding)>, now: nat)
    ensures TokensRise(t, StoreAll(t, entries, now))
  {
    if entries != [] { StoreAllTokens(t, entries[..|entries| - 1], now); }
  }

  lemma {:induction false} FailAllTokens(t: Tables, batch: seq<Claim>, max: nat, nextRun: nat -> nat)
    ensures TokensRise(t, FailAll(t, batch, max, nextRun))
  {
    if batch != [] { FailAllTokens(t, batch[..|batch| - 1], max, nextRun); }
  }

  lemma StepTokens(embed: string -> Embedding, s: Sys, step: Step)
    requires Enabled(s, step)
    ensures TokensRise(s.t, Exec(embed, s, step).t)
  {
    match step
    case Store(batch, now) => StoreAllTokens(s.t, Embedded(batch, embed), now);
    case Fail(batch, max, nextRun) => FailAllTokens(s.t, batch, max, nextRun);
    case _ =>
  }

  lemma {:induction false} RunTokens(embed: string -> Embedding, s: Sys, steps: seq<Step>)
    requires ValidRun(embed, s, steps)
    ensures TokensRise(s.t, Final(embed, s, steps).t)
    decreases |steps|
  {
    if steps != [] {
      StepTokens(embed, s, steps[0]);
      RunTokens(embed, Exec(embed, s, steps[0]), steps[1..]);
    }
  }

  // A worker whose job was claimed again writes nothing, at any later time, whatever it computed.
  lemma LateWorkerWritesNothing(embed: string -> Embedding, s: Sys, c: Claim, take: Step, after: seq<Step>,
    e: Embedding, now: nat, max: nat, nextRun: nat)
    requires take.Take? && Enabled(s, take) && c.slot in take.picked && c.token <= s.t.jobs[c.slot].token
    requires ValidRun(embed, Exec(embed, s, take), after)
    ensures var t := Final(embed, Exec(embed, s, take), after).t;
      StoreOne(t, c, e, now) == t && FailOne(t, c, max, nextRun) == t
  {
    RunTokens(embed, Exec(embed, s, take), after);
    assert Exec(embed, s, take).t.jobs[c.slot].token == s.t.jobs[c.slot].token + 1;
  }
}
