/** Sponsor budgets: conservation and limits, for every run whatever the processes do. */
module SettlementBudget {
  import opened Wrappers
  import opened SettlementTables
  import opened SettlementProtocol

  predicate Counts(e: StoreEvent, day: nat, scope: Option<string>) {
    e.day == day && (scope.None? || e.scope == scope.value)
  }

  // Fees of the envelopes stored on a day, for one principal or (None) for all.
  function Fees(h: seq<StoreEvent>, day: nat, scope: Option<string>): nat {
    if h == [] then 0
    else Fees(h[..|h| - 1], day, scope) + if Counts(h[|h| - 1], day, scope) then h[|h| - 1].fee else 0
  }

  // Usage rows of a day summed over a set of principals.
  ghost function SumUsed(db: Db, day: nat, scopes: set<string>): nat {
    if scopes == {} then 0
    else var x :| x in scopes; db.Used(day, Principal(x)) + SumUsed(db, day, scopes - {x})
  }

  ghost function SumFees(h: seq<StoreEvent>, day: nat, scopes: set<string>): nat {
    if scopes == {} then 0
    else var x :| x in scopes; Fees(h, day, Some(x)) + SumFees(h, day, scopes - {x})
  }

  function PrincipalsOf(db: Db, day: nat): set<string> {
    set key | key in db.usage && key.day == day && key.scope.Principal? :: key.scope.name
  }

  ghost predicate Booked(s: Sys) {
    && (forall day, scope :: s.db.Used(day, Principal(scope)) == Fees(s.history, day, Some(scope)))
    && (forall day :: s.db.Used(day, Global) == Fees(s.history, day, None))
    && (forall k :: 0 <= k < |s.history| ==> UsageKey(s.history[k].day, Principal(s.history[k].scope)) in s.db.usage)
  }

  ghost predicate Within(db: Db, limits: Limits) {
    forall day :: db.Used(day, Global) <= limits.global
                  && forall scope :: db.Used(day, Principal(scope)) <= limits.perScope
  }

  // Every replica runs with the same configured limits.
  predicate SameLimits(steps: seq<Step>, limits: Limits) {
    forall k :: 0 <= k < |steps| && steps[k].Store? ==> steps[k].limits == limits
  }

  lemma FeesOfAppended(h: seq<StoreEvent>, e: StoreEvent, day: nat, scope: Option<string>)
    ensures Fees(h + [e], day, scope) == Fees(h, day, scope) + if Counts(e, day, scope) then e.fee else 0
  {
    assert (h + [e])[..|h|] == h;
  }

  lemma OnlyStoresSpend(s: Sys, step: Step)
    requires Enabled(s, step) && !step.Store?
    ensures Exec(s, step).db.usage == s.db.usage && Exec(s, step).history == s.history
  {
    NothingIsStored(s, step);
    if !WritesTables(step) { OtherStepsLeaveTables(s, step); }
  }

  lemma NothingIsStored(s: Sys, step: Step)
    requires Enabled(s, step) && !step.Store?
    ensures Exec(s, step).history == s.history
  {
  }

  // A store changes no usage row, or adds its fee to the two rows of its day and is within both limits.
  lemma StoreSpends(s: Sys, step: Step)
    requires Enabled(s, step) && step.Store?
    ensures var b := Exec(s, step);
      (b.db.usage == s.db.usage && b.history == s.history)
      || (exists e: StoreEvent ::
            && b.history == s.history + [e] && e.day == step.day && e.scope == step.scope
            && b.db.usage == Spend(s.db, e.day, e.scope, e.fee).usage
            && s.db.Used(e.day, Principal(e.scope)) + e.fee <= step.limits.perScope
            && s.db.Used(e.day, Global) + e.fee <= step.limits.global)
  {
    var b := Exec(s, step);
    if b.history != s.history {
      var e := b.history[|s.history|];
      assert b.history == s.history + [e];
    }
  }

  lemma SpendingKeepsBooks(s: Sys, b: Sys, e: StoreEvent)
    requires Booked(s) && b.history == s.history + [e]
    requires b.db.usage == Spend(s.db, e.day, e.scope, e.fee).usage
    ensures Booked(b)
  {
    forall day, scope ensures b.db.Used(day, Principal(scope)) == Fees(b.history, day, Some(scope)) {
      FeesOfAppended(s.history, e, day, Some(scope));
    }
    forall day ensures b.db.Used(day, Global) == Fees(b.history, day, None) {
      FeesOfAppended(s.history, e, day, None);
    }
  }

  lemma StepKeepsBooks(s: Sys, step: Step)
    requires Booked(s) && Enabled(s, step)
    ensures Booked(Exec(s, step))
  {
    var b := Exec(s, step);
    if step.Store? {
      StoreSpends(s, step);
      if b.history != s.history {
        var e: StoreEvent :| b.history == s.history + [e] && b.db.usage == Spend(s.db, e.day, e.scope, e.fee).usage;
        SpendingKeepsBooks(s, b, e);
      }
    } else {
      OnlyStoresSpend(s, step);
    }
  }

  lemma StepKeepsLimits(s: Sys, step: Step, limits: Limits)
    requires Enabled(s, step) && Within(s.db, limits) && (step.Store? ==> step.limits == limits)
    ensures Within(Exec(s, step).db, limits)
  {
    var b := Exec(s, step);
    if step.Store? { StoreSpends(s, step); } else { OnlyStoresSpend(s, step); }
    if b.db.usage == s.db.usage {
      SameUsage(s.db, b.db, limits);
    } else {
      var e: StoreEvent :|
        && b.db.usage == Spend(s.db, e.day, e.scope, e.fee).usage
        && s.db.Used(e.day, Principal(e.scope)) + e.fee <= limits.perScope
        && s.db.Used(e.day, Global) + e.fee <= limits.global;
      SpendingStaysWithin(s.db, b.db, e, limits);
    }
  }

  lemma SameUsage(a: Db, b: Db, limits: Limits)
    requires Within(a, limits) && b.usage == a.usage
    ensures Within(b, limits)
  {
    forall day
      ensures b.Used(day, Global) <= limits.global
      ensures forall scope :: b.Used(day, Principal(scope)) <= limits.perScope
    {
      assert a.Used(day, Global) <= limits.global;
      forall scope ensures b.Used(day, Principal(scope)) <= limits.perScope {
        assert a.Used(day, Principal(scope)) <= limits.perScope;
      }
    }
  }

  lemma SpendingStaysWithin(a: Db, b: Db, e: StoreEvent, limits: Limits)
    requires Within(a, limits) && b.usage == Spend(a, e.day, e.scope, e.fee).usage
    requires a.Used(e.day, Principal(e.scope)) + e.fee <= limits.perScope
    requires a.Used(e.day, Global) + e.fee <= limits.global
    ensures Within(b, limits)
  {
    forall day
      ensures b.Used(day, Global) <= limits.global
      ensures forall scope :: b.Used(day, Principal(scope)) <= limits.perScope
    {
      assert a.Used(day, Global) <= limits.global;
      forall scope ensures b.Used(day, Principal(scope)) <= limits.perScope {
        assert a.Used(day, Principal(scope)) <= limits.perScope;
      }
    }
  }

  lemma RunKeepsBooks(s: Sys, steps: seq<Step>, limits: Limits)
    requires Booked(s) && ValidRun(s, steps)
    ensures Booked(Final(s, steps))
    ensures Within(s.db, limits) && SameLimits(steps, limits) ==> Within(Final(s, steps).db, limits)
    decreases |steps|
  {
    if steps != [] {
      StepKeepsBooks(s, steps[0]);
      if Within(s.db, limits) && SameLimits(steps, limits) { StepKeepsLimits(s, steps[0], limits); }
      RunKeepsBooks(Exec(s, steps[0]), steps[1..], limits);
    }
  }

  lemma SumFeesWithout(h: seq<StoreEvent>, day: nat, scopes: set<string>, x: string)
    requires x in scopes
    ensures SumFees(h, day, scopes) == Fees(h, day, Some(x)) + SumFees(h, day, scopes - {x})
    decreases |scopes|
  {
    var y :| y in scopes && SumFees(h, day, scopes) == Fees(h, day, Some(y)) + SumFees(h, day, scopes - {y});
    if y != x {
      SumFeesWithout(h, day, scopes - {y}, x);
      SumFeesWithout(h, day, scopes - {x}, y);
      assert scopes - {y} - {x} == scopes - {x} - {y};
    }
  }

  lemma SumFeesOfAppended(h: seq<StoreEvent>, e: StoreEvent, day: nat, scopes: set<string>)
    ensures SumFees(h + [e], day, scopes)
            == SumFees(h, day, scopes) + if e.day == day && e.scope in scopes then e.fee else 0
    decreases |scopes|
  {
    if scopes != {} {
      var x := if e.scope in scopes then e.scope else var y :| y in scopes; y;
      SumFeesWithout(h, day, scopes, x);
      SumFeesWithout(h + [e], day, scopes, x);
      FeesOfAppended(h, e, day, Some(x));
      SumFeesOfAppended(h, e, day, scopes - {x});
    }
  }

  lemma {:induction false} FeesSplitByScope(h: seq<StoreEvent>, day: nat, scopes: set<string>)
    requires forall k :: 0 <= k < |h| && h[k].day == day ==> h[k].scope in scopes
    ensures SumFees(h, day, scopes) == Fees(h, day, None)
  {
    if h == [] {
      NoFees(day, scopes);
    } else {
      var front, e := h[..|h| - 1], h[|h| - 1];
      assert h == front + [e];
      FeesSplitByScope(front, day, scopes);
      SumFeesOfAppended(front, e, day, scopes);
    }
  }

  lemma NoFees(day: nat, scopes: set<string>)
    ensures SumFees([], day, scopes) == 0
  {
  }

  lemma {:induction false} UsedIsFees(s: Sys, day: nat, scopes: set<string>)
    requires Booked(s)
    ensures SumUsed(s.db, day, scopes) == SumFees(s.history, day, scopes)
    decreases |scopes|
  {
    if scopes != {} {
      var x :| x in scopes && SumUsed(s.db, day, scopes) == s.db.Used(day, Principal(x))
        + SumUsed(s.db, day, scopes - {x});
      SumFeesWithout(s.history, day, scopes, x);
      UsedIsFees(s, day, scopes - {x});
    }
  }

  // For every day of every run, the global usage is the sum of the usages of all principals and the
  // total fee of all envelopes stored that day, and neither row passes its limit.
  lemma BudgetIsConserved(s: Sys, steps: seq<Step>, limits: Limits, day: nat)
    requires Init(s) && ValidRun(s, steps)
    ensures var f := Final(s, steps);
      && f.db.Used(day, Global) == SumUsed(f.db, day, PrincipalsOf(f.db, day))
      && f.db.Used(day, Global) == Fees(f.history, day, None)
      && (forall scope :: f.db.Used(day, Principal(scope)) == Fees(f.history, day, Some(scope)))
      && (SameLimits(steps, limits) ==>
            f.db.Used(day, Global) <= limits.global
            && forall scope :: f.db.Used(day, Principal(scope)) <= limits.perScope)
  {
    RunKeepsBooks(s, steps, limits);
    var f := Final(s, steps);
    UsedIsFees(f, day, PrincipalsOf(f.db, day));
    forall k | 0 <= k < |f.history| && f.history[k].day == day
      ensures f.history[k].scope in PrincipalsOf(f.db, day)
    {
      assert UsageKey(f.history[k].day, Principal(f.history[k].scope)) in f.db.usage;
    }
    FeesSplitByScope(f.history, day, PrincipalsOf(f.db, day));
  }
}
