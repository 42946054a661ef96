/** Reciprocal-rank fusion of retrieval branches, and the demotion of over-represented origins. */
module Fusion {
  import opened Wrappers

  datatype Candidate = Candidate(resource: nat, version: nat)
  datatype Branch = Branch(name: string, weight: real, candidates: seq<Candidate>)
  datatype Fused = Fused(resource: nat, version: nat, score: real, ranks: map<string, nat>)

  /* ---- The formula ---- */

  function Ids(candidates: seq<Candidate>): set<nat> {
    set i | 0 <= i < |candidates| :: candidates[i].resource
  }

  predicate Holds(b: Branch, id: nat) { b.weight > 0.0 && id in Ids(b.candidates) }

  // Distinct ids up to the first occurrence.
  function Rank(candidates: seq<Candidate>, id: nat): (r: nat)
    requires id in Ids(candidates)
    ensures r >= 1
    decreases |candidates|
  {
    var init := candidates[..|candidates| - 1];
    if id in Ids(init) then Rank(init, id) else |Ids(init)| + 1
  }

  function FirstVersion(candidates: seq<Candidate>, id: nat): nat
    requires id in Ids(candidates)
    decreases |candidates|
  {
    var last := |candidates| - 1;
    if id in Ids(candidates[..last]) then FirstVersion(candidates[..last], id) else candidates[last].version
  }

  function Contribution(b: Branch, rrfK: nat, id: nat): real {
    if Holds(b, id) then b.weight / (rrfK + Rank(b.candidates, id)) as real else 0.0
  }

  function Score(branches: seq<Branch>, rrfK: nat, id: nat): real {
    if branches == [] then 0.0
    else Score(branches[..|branches| - 1], rrfK, id) + Contribution(branches[|branches| - 1], rrfK, id)
  }

  predicate Found(branches: seq<Branch>, id: nat) {
    exists b :: 0 <= b < |branches| && Holds(branches[b], id)
  }

  // The version its first branch chose.
  function ChosenVersion(branches: seq<Branch>, id: nat): nat
    requires Found(branches, id)
    decreases |branches|
  {
    var last := |branches| - 1;
    if Found(branches[..last], id) then ChosenVersion(branches[..last], id)
    else FirstVersion(branches[last].candidates, id)
  }

  function Ranks(branches: seq<Branch>, id: nat): map<string, nat> {
    if branches == [] then map[]
    else
      var last := branches[|branches| - 1];
      var rest := Ranks(branches[..|branches| - 1], id);
      if Holds(last, id) then rest[last.name := Rank(last.candidates, id)] else rest
  }

  function Expected(branches: seq<Branch>, rrfK: nat, id: nat): Fused
    requires Found(branches, id)
  {
    Fused(id, ChosenVersion(branches, id), Score(branches, rrfK, id), Ranks(branches, id))
  }

  /* ---- Order ---- */

  predicate Before(a: Fused, b: Fused) {
    a.score > b.score || (a.score == b.score && a.resource > b.resource)
  }

  function InsertResult(x: Fused, results: seq<Fused>): (r: seq<Fused>)
    ensures forall y :: y in r <==> y == x || y in results
    ensures |r| == |results| + 1
  {
    if results == [] || Before(x, results[0]) then [x] + results
    else
      assert results == [results[0]] + results[1..];
      [results[0]] + InsertResult(x, results[1..])
  }

  function SortResults(results: seq<Fused>): (r: seq<Fused>)
    ensures forall y :: y in r <==> y in results
    ensures |r| == |results|
  {
    if results == [] then []
    else
      assert results == results[..|results| - 1] + [results[|results| - 1]];
      InsertResult(results[|results| - 1], SortResults(results[..|results| - 1]))
  }

  predicate Ordered(results: seq<Fused>) {
    forall i, j :: 0 <= i < j < |results| ==> Before(results[i], results[j])
  }

  predicate DistinctIds(results: seq<Fused>) {
    forall i, j :: 0 <= i < j < |results| ==> results[i].resource != results[j].resource
  }

  lemma {:induction false} InsertOrders(x: Fused, results: seq<Fused>)
    requires Ordered(results) && forall i :: 0 <= i < |results| ==> results[i].resource != x.resource
    ensures Ordered(InsertResult(x, results))
  {
    if results != [] && !Before(x, results[0]) {
      InsertOrders(x, results[1..]);
      var rest := InsertResult(x, results[1..]);
      forall j | 0 <= j < |rest| ensures Before(results[0], rest[j]) {
        assert rest[j] in rest;
        if rest[j] != x {
          var i :| 0 <= i < |results[1..]| && results[1..][i] == rest[j];
          assert results[i + 1] == rest[j];
        }
      }
    }
  }

  lemma {:induction false} SortOrders(results: seq<Fused>)
    requires DistinctIds(results)
    ensures Ordered(SortResults(results))
  {
    if results != [] {
      var last := |results| - 1;
      SortOrders(results[..last]);
      var rest := SortResults(results[..last]);
      forall i | 0 <= i < |rest| ensures rest[i].resource != results[last].resource {
        assert rest[i] in rest;
        var j :| 0 <= j < last && results[..last][j] == rest[i];
        assert results[j] == rest[i];
      }
      InsertOrders(results[last], rest);
    }
  }

  /* ---- One more candidate ---- */

  lemma IdsGrow(candidates: seq<Candidate>, c: Candidate)
    ensures Ids(candidates + [c]) == Ids(candidates) + {c.resource}
  {
    var all := candidates + [c];
    assert all[|candidates|] == c;
    forall id | id in Ids(candidates) ensures id in Ids(all) {
      var i :| 0 <= i < |candidates| && candidates[i].resource == id;
      assert all[i] == candidates[i];
    }
  }

  // Earlier ids keep rank and version; a new id gets the next rank.
  lemma RankGrows(candidates: seq<Candidate>, c: Candidate, id: nat)
    requires id in Ids(candidates + [c])
    ensures Rank(candidates + [c], id) == if id in Ids(candidates) then Rank(candidates, id) else |Ids(candidates)| + 1
    ensures FirstVersion(candidates + [c], id)
            == if id in Ids(candidates) then FirstVersion(candidates, id) else c.version
  {
    assert (candidates + [c])[..|candidates|] == candidates;
  }

  // Ids outside the last branch are as before it.
  lemma LastBranch(branches: seq<Branch>, b: Branch, rrfK: nat, id: nat)
    ensures Found(branches + [b], id) <==> Found(branches, id) || Holds(b, id)
    ensures Score(branches + [b], rrfK, id) == Score(branches, rrfK, id) + Contribution(b, rrfK, id)
    ensures Ranks(branches + [b], id) ==
      if Holds(b, id) then Ranks(branches, id)[b.name := Rank(b.candidates, id)] else Ranks(branches, id)
    ensures Found(branches + [b], id) ==>
      ChosenVersion(branches + [b], id)
      == (if Found(branches, id) then ChosenVersion(branches, id) else FirstVersion(b.candidates, id))
  {
    var all := branches + [b];
    assert all[..|branches|] == branches && all[|branches|] == b;
    if Found(branches, id) {
      var i :| 0 <= i < |branches| && Holds(branches[i], id);
      assert Holds(all[i], id);
    }
    if Holds(b, id) { assert Holds(all[|branches|], id); }
  }

  // The table after some branches: an entry for every id found, with the formula's value.
  ghost predicate Tallied(table: map<nat, Fused>, branches: seq<Branch>, rrfK: nat) {
    forall id :: (id in table <==> Found(branches, id)) && (id in table ==> table[id] == Expected(branches, rrfK, id))
  }

  lemma SkipBranch(table: map<nat, Fused>, branches: seq<Branch>, b: Branch, rrfK: nat)
    requires Tallied(table, branches, rrfK) && (b.weight <= 0.0 || b.candidates == [])
    ensures Tallied(table, branches + [b], rrfK)
  {
    forall id ensures (id in table <==> Found(branches + [b], id))
      && (id in table ==> table[id] == Expected(branches + [b], rrfK, id))
    {
      LastBranch(branches, b, rrfK, id);
    }
  }

  lemma SkipDuplicate(table: map<nat, Fused>, branches: seq<Branch>, b: Branch, c: Candidate, rrfK: nat)
    requires Tallied(table, branches + [b], rrfK) && c.resource in Ids(b.candidates)
    ensures Tallied(table, branches + [b.(candidates := b.candidates + [c])], rrfK)
  {
    var b' := b.(candidates := b.candidates + [c]);
    IdsGrow(b.candidates, c);
    forall id ensures (id in table <==> Found(branches + [b'], id))
      && (id in table ==> table[id] == Expected(branches + [b'], rrfK, id))
    {
      LastBranch(branches, b, rrfK, id);
      LastBranch(branches, b', rrfK, id);
      if id in Ids(b'.candidates) { RankGrows(b.candidates, c, id); }
    }
  }

  // The entry of a resource after one more branch ranked it.
  function Counted(table: map<nat, Fused>, name: string, share: real, rank: nat, c: Candidate): Fused {
    if c.resource in table
    then table[c.resource].(score := table[c.resource].score + share, ranks := table[c.resource].ranks[name := rank])
    else Fused(c.resource, c.version, share, map[name := rank])
  }

  lemma OthersShare(b: Branch, c: Candidate, rrfK: nat, id: nat)
    requires id != c.resource
    ensures var b' := b.(candidates := b.candidates + [c]);
      && (Holds(b', id) <==> Holds(b, id)) && Contribution(b', rrfK, id) == Contribution(b, rrfK, id)
      && (Holds(b, id) ==> Rank(b'.candidates, id) == Rank(b.candidates, id)
                           && FirstVersion(b'.candidates, id) == FirstVersion(b.candidates, id))
  {
    IdsGrow(b.candidates, c);
    if id in Ids(b.candidates + [c]) { RankGrows(b.candidates, c, id); }
  }

  // Another resource keeps its entry, whether or not the last branch holds it.
  lemma OthersKeep(branches: seq<Branch>, b: Branch, c: Candidate, rrfK: nat, id: nat)
    requires id != c.resource
    ensures var b' := b.(candidates := b.candidates + [c]);
      && (Found(branches + [b'], id) <==> Found(branches + [b], id))
      && (Found(branches + [b], id) ==> Expected(branches + [b'], rrfK, id) == Expected(branches + [b], rrfK, id))
  {
    OthersShare(b, c, rrfK, id);
    LastBranch(branches, b, rrfK, id);
    LastBranch(branches, b.(candidates := b.candidates + [c]), rrfK, id);
  }

  // The resource itself gains a share of this branch.
  lemma OneGains(branches: seq<Branch>, b: Branch, c: Candidate, rrfK: nat, table: map<nat, Fused>)
    requires b.weight > 0.0 && c.resource !in Ids(b.candidates)
    requires c.resource in table <==> Found(branches, c.resource)
    requires c.resource in table ==> table[c.resource] == Expected(branches, rrfK, c.resource)
    ensures var b' := b.(candidates := b.candidates + [c]);
      && Found(branches + [b'], c.resource)
      && Expected(branches + [b'], rrfK, c.resource)
         == Counted(table, b.name, b.weight / (rrfK + |Ids(b.candidates)| + 1) as real, |Ids(b.candidates)| + 1, c)
  {
    var b' := b.(candidates := b.candidates + [c]);
    IdsGrow(b.candidates, c);
    LastBranch(branches, b', rrfK, c.resource);
    RankGrows(b.candidates, c, c.resource);
    if c.resource !in table { NotFoundYet(branches, rrfK, c.resource); }
  }

  lemma CountCandidate(table: map<nat, Fused>, after: map<nat, Fused>, branches: seq<Branch>, b: Branch, c: Candidate,
      rrfK: nat)
    requires Tallied(table, branches + [b], rrfK) && b.weight > 0.0 && c.resource !in Ids(b.candidates)
    requires after == table[c.resource :=
      Counted(table, b.name, b.weight / (rrfK + |Ids(b.candidates)| + 1) as real, |Ids(b.candidates)| + 1, c)]
    ensures Tallied(after, branches + [b.(candidates := b.candidates + [c])], rrfK)
  {
    var b' := b.(candidates := b.candidates + [c]);
    LastBranch(branches, b, rrfK, c.resource);
    OneGains(branches, b, c, rrfK, table);
    forall id ensures (id in after <==> Found(branches + [b'], id))
      && (id in after ==> after[id] == Expected(branches + [b'], rrfK, id))
    {
      if id != c.resource { OthersKeep(branches, b, c, rrfK, id); }
    }
  }

  lemma FoundInPrefix(branches: seq<Branch>, n: nat, id: nat)
    requires n <= |branches|
    ensures Found(branches[..n], id) ==> Found(branches, id)
  {
    if Found(branches[..n], id) {
      var i :| 0 <= i < n && Holds(branches[..n][i], id);
      assert Holds(branches[i], id);
    }
  }

  lemma {:induction false} NotFoundYet(branches: seq<Branch>, rrfK: nat, id: nat)
    requires !Found(branches, id)
    ensures Score(branches, rrfK, id) == 0.0 && Ranks(branches, id) == map[]
  {
    if branches != [] {
      var last := |branches| - 1;
      FoundInPrefix(branches, last, id);
      assert !Holds(branches[last], id);
      NotFoundYet(branches[..last], rrfK, id);
    }
  }

  /* ---- The loops ---- */

  method Fuse(branches: seq<Branch>, rrfK: nat) returns (results: seq<Fused>)
    ensures Ordered(results) && DistinctIds(results)
    ensures forall i, j :: 0 <= i < j < |results| ==>
      results[i].score >= results[j].score
      && (results[i].score == results[j].score ==> results[i].resource > results[j].resource)
    ensures forall id :: (exists r :: r in results && r.resource == id) <==> Found(branches, id)
    ensures forall r :: r in results ==> Found(branches, r.resource) && r == Expected(branches, rrfK, r.resource)
  {
    var fused: map<nat, Fused> := map[];
    var order: seq<nat> := [];
    for n := 0 to |branches|
      invariant Tallied(fused, branches[..n], rrfK)
      invariant Lists(order, fused)
    {
      assert branches[..n + 1] == branches[..n] + [branches[n]];
      fused, order := CountBranch(fused, order, branches[..n], branches[n], rrfK);
    }
    assert branches[..|branches|] == branches;
    results := SortResults(ValuesOf(order, fused));
    ResultsMeetTable(results, order, fused);
  }

  function ValuesOf(order: seq<nat>, table: map<nat, Fused>): (r: seq<Fused>)
    requires forall i :: 0 <= i < |order| ==> order[i] in table
    ensures |r| == |order| && forall i :: 0 <= i < |order| ==> r[i] == table[order[i]]
  {
    seq(|order|, i requires 0 <= i < |order| => table[order[i]])
  }

  // The keys in order of insertion.
  ghost predicate Lists(order: seq<nat>, table: map<nat, Fused>) {
    && (forall i, j :: 0 <= i < j < |order| ==> order[i] != order[j])
    && (forall i :: 0 <= i < |order| ==> order[i] in table)
    && (forall id :: id in table ==> id in order && table[id].resource == id)
  }

  lemma ListsUpdate(order: seq<nat>, table: map<nat, Fused>, id: nat, entry: Fused)
    requires Lists(order, table) && entry.resource == id
    ensures Lists(if id in table then order else order + [id], table[id := entry])
  {
  }

  lemma ResultsMeetTable(results: seq<Fused>, order: seq<nat>, table: map<nat, Fused>)
    requires Lists(order, table) && results == SortResults(ValuesOf(order, table))
    ensures Ordered(results) && DistinctIds(results)
    ensures forall r :: r in results <==> r.resource in table && r == table[r.resource]
    ensures forall id :: (exists r :: r in results && r.resource == id) <==> id in table
  {
    var values := ValuesOf(order, table);
    SortOrders(values);
    OrderedIsDistinct(results, values);
    forall r | r in results ensures r.resource in table && r == table[r.resource] {
      var i :| 0 <= i < |values| && values[i] == r;
    }
    forall id | id in table ensures table[id] in results {
      var i :| 0 <= i < |order| && order[i] == id;
      assert values[i] in values;
    }
  }

  method CountBranch(before: map<nat, Fused>, listed: seq<nat>, ghost earlier: seq<Branch>, b: Branch, rrfK: nat)
    returns (fused: map<nat, Fused>, order: seq<nat>)
    requires Tallied(before, earlier, rrfK) && Lists(listed, before)
    ensures Tallied(fused, earlier + [b], rrfK) && Lists(order, fused)
  {
    fused, order := before, listed;
    if b.weight <= 0.0 {
      SkipBranch(fused, earlier, b, rrfK);
      return;
    }
    var seen: set<nat> := {};
    var rank := 0;
    SkipBranch(fused, earlier, b.(candidates := []), rrfK);
    assert b.candidates[..0] == [];
    for i := 0 to |b.candidates|
      invariant seen == Ids(b.candidates[..i]) && rank == |seen|
      invariant Tallied(fused, earlier + [b.(candidates := b.candidates[..i])], rrfK)
      invariant Lists(order, fused)
    {
      var c := b.candidates[i];
      ghost var part := b.(candidates := b.candidates[..i]);
      NextPart(b, i);
      IdsGrow(b.candidates[..i], c);
      if c.resource in seen {
        SkipDuplicate(fused, earlier, part, c, rrfK);
        continue;
      }
      seen := seen + {c.resource};
      rank := rank + 1;
      var entry := Counted(fused, b.name, b.weight / (rrfK + rank) as real, rank, c);
      CountCandidate(fused, fused[c.resource := entry], earlier, part, c, rrfK);
      ListsUpdate(order, fused, c.resource, entry);
      if c.resource !in fused {
        order := order + [c.resource];
      }
      fused := fused[c.resource := entry];
    }
    assert b.candidates[..|b.candidates|] == b.candidates;
  }

  lemma NextPart(b: Branch, i: nat)
    requires i < |b.candidates|
    ensures b.candidates[..i + 1] == b.candidates[..i] + [b.candidates[i]]
    ensures var part := b.(candidates := b.candidates[..i]);
      part.(candidates := part.candidates + [b.candidates[i]]) == b.(candidates := b.candidates[..i + 1])
  {
  }

  lemma OrderedIsDistinct(results: seq<Fused>, values: seq<Fused>)
    requires Ordered(results) && DistinctIds(values) && forall y :: y in results ==> y in values
    ensures DistinctIds(results)
  {
    forall i, j | 0 <= i < j < |results| ensures results[i].resource != results[j].resource {
      assert results[i] in values && results[j] in values;
      assert Before(results[i], results[j]);
    }
  }

  /* ---- What the order means ---- */

  // Two results compare in one way only.
  lemma OrderIsStrictAndTotal(a: Fused, b: Fused, c: Fused)
    ensures !(Before(a, b) && Before(b, a))
    ensures a.resource != b.resource ==> Before(a, b) || Before(b, a)
    ensures Before(a, b) && Before(b, c) ==> Before(a, c)
  {
  }

  predicate AtLeastAsGood(b: Branch, id: nat, rival: nat) {
    Holds(b, rival) ==> Holds(b, id) && Rank(b.candidates, id) <= Rank(b.candidates, rival)
  }

  predicate Better(b: Branch, id: nat, rival: nat) {
    Holds(b, rival) && Holds(b, id) && Rank(b.candidates, id) < Rank(b.candidates, rival)
  }

  lemma ShareFalls(weight: real, near: nat, far: nat)
    requires weight > 0.0 && 0 < near < far
    ensures 0.0 < weight / far as real < weight / near as real
  {
    var n, f := near as real, far as real;
    assert weight / f * f == weight && weight / n * n == weight;
    Product(weight / n, weight / f, n, f);
  }

  lemma Product(p: real, q: real, n: real, f: real)
    requires 0.0 < n < f && q > 0.0 && p * n == q * f
    ensures q < p
  {
    assert q * (f - n) > 0.0;
    assert q * f == q * n + q * (f - n);
    assert (p - q) * n == q * (f - n);
  }

  lemma ContributionFalls(b: Branch, rrfK: nat, id: nat, rival: nat)
    requires AtLeastAsGood(b, id, rival)
    ensures Contribution(b, rrfK, id) >= Contribution(b, rrfK, rival)
    ensures Better(b, id, rival) ==> Contribution(b, rrfK, id) > Contribution(b, rrfK, rival)
  {
    if Better(b, id, rival) {
      ShareFalls(b.weight, rrfK + Rank(b.candidates, id), rrfK + Rank(b.candidates, rival));
    } else if Holds(b, id) {
      ShareFalls(b.weight, rrfK + Rank(b.candidates, id), rrfK + Rank(b.candidates, id) + 1);
    }
  }

  lemma {:induction false} ScoreDominates(branches: seq<Branch>, rrfK: nat, id: nat, rival: nat)
    requires forall b :: 0 <= b < |branches| ==> AtLeastAsGood(branches[b], id, rival)
    ensures Score(branches, rrfK, id) >= Score(branches, rrfK, rival)
    ensures (exists b :: 0 <= b < |branches| && Better(branches[b], id, rival)) ==>
      Score(branches, rrfK, id) > Score(branches, rrfK, rival)
  {
    if branches != [] {
      var last := |branches| - 1;
      ScoreDominates(branches[..last], rrfK, id, rival);
      ContributionFalls(branches[last], rrfK, id, rival);
      if b :| 0 <= b < last && Better(branches[b], id, rival) { assert Better(branches[..last][b], id, rival); }
    }
  }

  // A resource ranked at least as well as a rival in every branch that holds the rival, and better in
  // one, comes first.
  lemma DominantComesFirst(branches: seq<Branch>, rrfK: nat, results: seq<Fused>, i: nat, j: nat)
    requires Ordered(results) && i < |results| && j < |results|
    requires forall r :: r in results ==> Found(branches, r.resource) && r == Expected(branches, rrfK, r.resource)
    requires forall b :: 0 <= b < |branches| ==> AtLeastAsGood(branches[b], results[i].resource, results[j].resource)
    requires exists b :: 0 <= b < |branches| && Better(branches[b], results[i].resource, results[j].resource)
    ensures i < j
  {
    ScoreDominates(branches, rrfK, results[i].resource, results[j].resource);
    assert results[i] in results && results[j] in results;
    assert results[i].score > results[j].score;
  }

  lemma {:induction false} SameOrder(a: seq<Fused>, b: seq<Fused>)
    requires Ordered(a) && Ordered(b) && (forall r :: r in a <==> r in b)
    ensures a == b
    decreases |a|
  {
    assert b != [] ==> b[0] in b;
    if a != [] {
      assert a[0] in b;
      assert b[0] in a;
      var i :| 0 <= i < |b| && b[i] == a[0];
      var j :| 0 <= j < |a| && a[j] == b[0];
      assert a[0] == b[0];
      forall r ensures r in a[1..] <==> r in b[1..] {
        if r in a[1..] {
          var k :| 0 <= k < |a[1..]| && a[1..][k] == r;
          assert Before(a[0], a[k + 1]);
          assert r in a;
          assert r in b;
        }
        if r in b[1..] {
          var k :| 0 <= k < |b[1..]| && b[1..][k] == r;
          assert Before(b[0], b[k + 1]);
          assert r in b;
          assert r in a;
        }
      }
      SameOrder(a[1..], b[1..]);
    }
  }

  // The results are determined by the branches: no other list meets what `Fuse` promises.
  lemma ResultsAreUnique(branches: seq<Branch>, rrfK: nat, a: seq<Fused>, b: seq<Fused>)
    requires Ordered(a) && Ordered(b)
    requires forall id :: (exists r :: r in a && r.resource == id) <==> Found(branches, id)
    requires forall id :: (exists r :: r in b && r.resource == id) <==> Found(branches, id)
    requires forall r :: r in a ==> Found(branches, r.resource) && r == Expected(branches, rrfK, r.resource)
    requires forall r :: r in b ==> Found(branches, r.resource) && r == Expected(branches, rrfK, r.resource)
    ensures a == b
  {
    forall r ensures r in a <==> r in b {
      if r in a { var x :| x in b && x.resource == r.resource; }
      if r in b { var x :| x in a && x.resource == r.resource; }
    }
    SameOrder(a, b);
  }

  /* ---- Origins ---- */

  // A resource without a known origin is its own.
  datatype Origin = Known(url: string) | Own(resource: nat)

  function OriginOf(origins: map<nat, string>, r: Fused): Origin {
    if r.resource in origins then Known(origins[r.resource]) else Own(r.resource)
  }

  function CountOrigin(results: seq<Fused>, origins: map<nat, string>, origin: Origin): nat {
    if results == [] then 0
    else CountOrigin(results[..|results| - 1], origins, origin)
         + if OriginOf(origins, results[|results| - 1]) == origin then 1 else 0
  }

  // The results whose origin has fewer than `limit` earlier ones, and the others, both in order.
  function Split(results: seq<Fused>, origins: map<nat, string>, limit: nat): (r: (seq<Fused>, seq<Fused>)) {
    if results == [] then ([], [])
    else
      var last := |results| - 1;
      var (kept, overflow) := Split(results[..last], origins, limit);
      if CountOrigin(results[..last], origins, OriginOf(origins, results[last])) < limit
      then (kept + [results[last]], overflow) else (kept, overflow + [results[last]])
  }

  function Min(a: nat, b: nat): nat { if a < b then a else b }

  // Demoting drops nothing.
  lemma {:induction false} SplitKeepsAll(results: seq<Fused>, origins: map<nat, string>, limit: nat)
    ensures var (kept, overflow) := Split(results, origins, limit);
      multiset(kept) + multiset(overflow) == multiset(results)
  {
    if results != [] {
      var last := |results| - 1;
      SplitKeepsAll(results[..last], origins, limit);
      assert results == results[..last] + [results[last]];
    }
  }

  lemma CountLast(results: seq<Fused>, x: Fused, origins: map<nat, string>, origin: Origin)
    ensures CountOrigin(results + [x], origins, origin)
            == CountOrigin(results, origins, origin) + if OriginOf(origins, x) == origin then 1 else 0
  {
    assert (results + [x])[..|results|] == results;
  }

  // At most `limit` results of an origin stay in front, and as many as there are up to that limit.
  lemma {:induction false} SplitIsFair(results: seq<Fused>, origins: map<nat, string>, limit: nat, origin: Origin)
    ensures CountOrigin(Split(results, origins, limit).0, origins, origin)
            == Min(limit, CountOrigin(results, origins, origin))
  {
    if results != [] {
      var last := |results| - 1;
      SplitIsFair(results[..last], origins, limit, origin);
      CountLast(Split(results[..last], origins, limit).0, results[last], origins, origin);
    }
  }

  method ApplyOriginDiversity(results: seq<Fused>, origins: map<nat, string>, limit: int) returns (r: seq<Fused>)
    ensures limit <= 0 ==> r == results
    ensures limit > 0 ==> r == Split(results, origins, limit).0 + Split(results, origins, limit).1
    ensures multiset(r) == multiset(results)
  {
    if limit <= 0 {
      return results;
    }
    var seen: map<Origin, nat> := map[];
    var kept, overflow := [], [];
    for i := 0 to |results|
      invariant (kept, overflow) == Split(results[..i], origins, limit)
      invariant forall o :: (if o in seen then seen[o] else 0) == Min(limit, CountOrigin(results[..i], origins, o))
    {
      assert results[..i + 1][..i] == results[..i];
      var origin := OriginOf(origins, results[i]);
      var count := if origin in seen then seen[origin] else 0;
      if count >= limit {
        overflow := overflow + [results[i]];
        continue;
      }
      seen := seen[origin := count + 1];
      kept := kept + [results[i]];
    }
    assert results[..|results|] == results;
    SplitKeepsAll(results, origins, limit);
    r := kept + overflow;
  }

  // Positions of a list in rising order.
  predicate Rising(at: seq<nat>, n: nat) {
    && (forall k :: 0 <= k < |at| ==> at[k] < n)
    && forall j, k :: 0 <= j < k < |at| ==> at[j] < at[k]
  }

  ghost predicate Picks(results: seq<Fused>, at: seq<nat>, picked: seq<Fused>) {
    && Rising(at, |results|) && |picked| == |at| && forall k :: 0 <= k < |at| ==> picked[k] == results[at[k]]
  }

  // Fewer than `limit` results of the same origin precede result i.
  predicate Early(results: seq<Fused>, origins: map<nat, string>, limit: nat, i: nat)
    requires i < |results|
  {
    CountOrigin(results[..i], origins, OriginOf(origins, results[i])) < limit
  }

  // The positions below n that are early, or those that are not.
  function Places(results: seq<Fused>, origins: map<nat, string>, limit: nat, early: bool, n: nat): seq<nat>
    requires n <= |results|
  {
    if n == 0 then []
    else if Early(results, origins, limit, n - 1) == early
    then Places(results, origins, limit, early, n - 1) + [n - 1]
    else Places(results, origins, limit, early, n - 1)
  }

  lemma {:induction false} PlacesAre(results: seq<Fused>, origins: map<nat, string>, limit: nat, early: bool, n: nat)
    requires n <= |results|
    ensures var at := Places(results, origins, limit, early, n);
      Rising(at, n) && forall i :: 0 <= i < n ==> (i in at <==> Early(results, origins, limit, i) == early)
  {
    if n > 0 { PlacesAre(results, origins, limit, early, n - 1); }
  }

  lemma PicksOneMore(results: seq<Fused>, n: nat, at: seq<nat>, picked: seq<Fused>)
    requires n < |results| && Picks(results[..n], at, picked)
    ensures Picks(results[..n + 1], at, picked) && Picks(results[..n + 1], at + [n], picked + [results[n]])
  {
    assert forall i | 0 <= i < n :: results[..n + 1][i] == results[..n][i];
  }

  // Front and overflow are both in the order of the ranking, and a result is in front if and only if fewer than
  // `limit` results of its origin precede it.
  lemma {:induction false} SplitIsInOrder(results: seq<Fused>, origins: map<nat, string>, limit: nat, n: nat)
    requires n <= |results|
    ensures Picks(results[..n], Places(results, origins, limit, true, n), Split(results[..n], origins, limit).0)
    ensures Picks(results[..n], Places(results, origins, limit, false, n), Split(results[..n], origins, limit).1)
  {
    if n > 0 {
      SplitIsInOrder(results, origins, limit, n - 1);
      assert results[..n][..n - 1] == results[..n - 1];
      PicksOneMore(results, n - 1, Places(results, origins, limit, true, n - 1),
        Split(results[..n - 1], origins, limit).0);
      PicksOneMore(results, n - 1, Places(results, origins, limit, false, n - 1),
        Split(results[..n - 1], origins, limit).1);
    }
  }

  /* ---- What ranks are ---- */

  // The rank of a resource is one more than the number of distinct resources before its first occurrence.
  lemma {:induction false} RankCountsEarlierIds(candidates: seq<Candidate>, p: nat)
    requires p < |candidates| && forall i :: 0 <= i < p ==> candidates[i].resource != candidates[p].resource
    ensures Rank(candidates, candidates[p].resource)
            == |set i | 0 <= i < p :: candidates[i].resource| + 1
    decreases |candidates|
  {
    var id, init := candidates[p].resource, candidates[..|candidates| - 1];
    if p < |candidates| - 1 {
      assert init[p].resource == id;
      RankCountsEarlierIds(init, p);
      assert (set i | 0 <= i < p :: init[i].resource) == set i | 0 <= i < p :: candidates[i].resource;
    } else {
      assert Ids(init) == set i | 0 <= i < p :: candidates[i].resource;
    }
  }

  /* ---- What a fused result is, by positions ---- */

  predicate FirstAt(candidates: seq<Candidate>, p: nat, id: nat) {
    && p < |candidates| && candidates[p].resource == id
    && forall i :: 0 <= i < p ==> candidates[i].resource != id
  }

  function IdsBefore(candidates: seq<Candidate>, p: nat): set<nat>
    requires p <= |candidates|
  {
    set i | 0 <= i < p :: candidates[i].resource
  }

  // A share of the score: a branch that shows the resource first at p gives its weight divided by k plus the place
  // that p is among distinct resources; any other branch, or one without weight, gives nothing.
  ghost predicate IsShare(share: real, b: Branch, rrfK: nat, id: nat) {
    && (forall p :: b.weight > 0.0 && FirstAt(b.candidates, p, id) ==>
          share * (rrfK + |IdsBefore(b.candidates, p)| + 1) as real == b.weight)
    && (b.weight <= 0.0 || (forall p :: !FirstAt(b.candidates, p, id)) ==> share == 0.0)
  }

  function Total(shares: seq<real>): real {
    if shares == [] then 0.0 else Total(shares[..|shares| - 1]) + shares[|shares| - 1]
  }

  lemma {:induction false} FirstPlace(candidates: seq<Candidate>, id: nat) returns (p: nat)
    requires id in Ids(candidates)
    ensures FirstAt(candidates, p, id) && candidates[p].version == FirstVersion(candidates, id)
    decreases |candidates|
  {
    var init := candidates[..|candidates| - 1];
    if id in Ids(init) {
      p := FirstPlace(init, id);
      assert forall i | 0 <= i <= p :: init[i] == candidates[i];
    } else {
      p := |candidates| - 1;
      forall i | 0 <= i < p ensures candidates[i].resource != id { assert init[i].resource in Ids(init); }
      var q :| 0 <= q < |candidates| && candidates[q].resource == id;
    }
  }

  lemma FirstPlaceIsOnly(candidates: seq<Candidate>, p: nat, q: nat, id: nat)
    requires FirstAt(candidates, p, id) && FirstAt(candidates, q, id)
    ensures p == q
  {
  }

  lemma ContributionIsShare(b: Branch, rrfK: nat, id: nat)
    ensures IsShare(Contribution(b, rrfK, id), b, rrfK, id)
  {
    forall p: nat | b.weight > 0.0 && FirstAt(b.candidates, p, id)
      ensures Contribution(b, rrfK, id) * (rrfK + |IdsBefore(b.candidates, p)| + 1) as real == b.weight
    {
      assert b.candidates[p].resource in Ids(b.candidates);
      RankCountsEarlierIds(b.candidates, p);
      assert Rank(b.candidates, id) == |IdsBefore(b.candidates, p)| + 1;
    }
    if Holds(b, id) { var p := FirstPlace(b.candidates, id); }
  }

  ghost predicate AreShares(shares: seq<real>, branches: seq<Branch>, rrfK: nat, id: nat) {
    |shares| == |branches| && forall b :: 0 <= b < |branches| ==> IsShare(shares[b], branches[b], rrfK, id)
  }

  lemma OneMoreShare(shares: seq<real>, branches: seq<Branch>, share: real, b: Branch, rrfK: nat, id: nat)
    requires AreShares(shares, branches, rrfK, id) && IsShare(share, b, rrfK, id)
    ensures AreShares(shares + [share], branches + [b], rrfK, id)
  {
  }

  // The score of a resource is the sum of one share per branch.
  lemma {:induction false} ScoreMeans(branches: seq<Branch>, rrfK: nat, id: nat)
    ensures exists shares :: AreShares(shares, branches, rrfK, id) && Score(branches, rrfK, id) == Total(shares)
  {
    if branches == [] {
      assert AreShares([], branches, rrfK, id) && Total([]) == 0.0;
    } else {
      var last := |branches| - 1;
      var share := Contribution(branches[last], rrfK, id);
      ScoreMeans(branches[..last], rrfK, id);
      var before :| AreShares(before, branches[..last], rrfK, id) && Score(branches[..last], rrfK, id) == Total(before);
      ContributionIsShare(branches[last], rrfK, id);
      OneMoreShare(before, branches[..last], share, branches[last], rrfK, id);
      assert branches[..last] + [branches[last]] == branches && (before + [share])[..last] == before;
    }
  }

  // The version is the one of the first place in the first branch that shows the resource.
  lemma {:induction false} VersionMeans(branches: seq<Branch>, id: nat, b: nat, p: nat)
    requires b < |branches| && branches[b].weight > 0.0 && FirstAt(branches[b].candidates, p, id)
    requires forall c, q :: 0 <= c < b && branches[c].weight > 0.0 ==> !FirstAt(branches[c].candidates, q, id)
    ensures Found(branches, id) && ChosenVersion(branches, id) == branches[b].candidates[p].version
    decreases |branches|
  {
    var last := |branches| - 1;
    assert branches[b].candidates[p].resource in Ids(branches[b].candidates);
    if b < last {
      VersionMeans(branches[..last], id, b, p);
    } else {
      forall c | 0 <= c < last ensures !Holds(branches[..last][c], id) {
        if Holds(branches[c], id) { var q := FirstPlace(branches[c].candidates, id); }
      }
      var q := FirstPlace(branches[b].candidates, id);
      FirstPlaceIsOnly(branches[b].candidates, p, q, id);
    }
  }

  // A result carries a rank for exactly the names of the branches that show it.
  lemma {:induction false} RanksName(branches: seq<Branch>, id: nat, name: string)
    ensures name in Ranks(branches, id) <==>
      exists b :: 0 <= b < |branches| && Holds(branches[b], id) && branches[b].name == name
  {
    if branches != [] {
      var last := |branches| - 1;
      RanksName(branches[..last], id, name);
      assert forall c | 0 <= c < last :: branches[..last][c] == branches[c];
    }
  }

  // The rank is the place in the last branch of the name that shows the resource.
  lemma {:induction false} RanksMean(branches: seq<Branch>, id: nat, b: nat, p: nat)
    requires b < |branches| && branches[b].weight > 0.0 && FirstAt(branches[b].candidates, p, id)
    requires forall c :: b < c < |branches| && branches[c].name == branches[b].name ==> !Holds(branches[c], id)
    ensures branches[b].name in Ranks(branches, id)
    ensures Ranks(branches, id)[branches[b].name] == |IdsBefore(branches[b].candidates, p)| + 1
  {
    var last := |branches| - 1;
    assert branches[b].candidates[p].resource in Ids(branches[b].candidates);
    if b < last {
      RanksMean(branches[..last], id, b, p);
    } else {
      RankCountsEarlierIds(branches[b].candidates, p);
      assert Rank(branches[b].candidates, id) == |IdsBefore(branches[b].candidates, p)| + 1;
    }
  }
}
