/**
 Retrieval metrics of one query. The discount 1 / log2(index + 2) enters only as a positive, strictly
 decreasing function of the index; sums and quotients are over the reals.
 */
module Evaluate {
  import opened Wrappers

  datatype Judgment = Judgment(resource: string, grade: nat)

  const RELEVANT_GRADE := 2

  function Pow2(n: nat): (r: nat)
    ensures r >= 1
  {
    if n == 0 then 1 else 2 * Pow2(n - 1)
  }

  function Gain(grade: nat): (r: real)
    ensures r >= 0.0
  {
    (Pow2(grade) - 1) as real
  }

  // A grade is worth all lower grades together, and its own number more; grade 0 is worth nothing.
  lemma {:induction false} GainsGrow(grade: nat)
    ensures Gain(0) == 0.0 && (grade > 0 ==> Gain(grade) == GainsBelow(grade) + grade as real)
  {
    if grade > 1 { GainsGrow(grade - 1); }
  }

  // The gains of the grades below, added up.
  function GainsBelow(grade: nat): real {
    if grade == 0 then 0.0 else GainsBelow(grade - 1) + Gain(grade - 1)
  }

  ghost predicate Discounts(w: nat -> real) {
    (forall i :: w(i) > 0.0) && (forall i, j :: 0 <= i < j ==> w(j) < w(i))
  }

  // What each grade is worth at each index, added up; the first index is `from`.
  function Sum(grades: seq<nat>, worth: (nat, nat) -> real, from: nat): real {
    if grades == [] then 0.0 else worth(grades[0], from) + Sum(grades[1..], worth, from + 1)
  }

  function Discounted(w: nat -> real): (nat, nat) -> real {
    (grade: nat, i: nat) => Gain(grade) * w(i)
  }

  // Discounted cumulative gain.
  function Dcg(grades: seq<nat>, w: nat -> real): real { Sum(grades, Discounted(w), 0) }

  // The higher grade b is worth more than a.
  predicate WorthMore(worth: (nat, nat) -> real, a: nat, b: nat, i: nat) { worth(a, i) < worth(b, i) }

  // The higher grade b belongs at the earlier index i, and a at j.
  predicate WorthMoreInFront(worth: (nat, nat) -> real, a: nat, b: nat, i: nat, j: nat) {
    worth(b, i) + worth(a, j) > worth(a, i) + worth(b, j)
  }

  // All that the order of a ranking depends on: higher grades are worth more, and more so in front.
  ghost predicate Rewards(worth: (nat, nat) -> real) {
    && (forall i :: worth(0, i) == 0.0)
    && (forall a, b, i :: a < b ==> WorthMore(worth, a, b, i))
    && (forall a, b, i, j :: a < b && i < j ==> WorthMoreInFront(worth, a, b, i, j))
  }

  lemma DiscountsReward(w: nat -> real)
    requires Discounts(w)
    ensures Rewards(Discounted(w))
  {
    var worth := Discounted(w);
    forall a: nat, b: nat, i: nat | a < b ensures WorthMore(worth, a, b, i) {
      HigherIsWorthMore(w, a, b, i);
    }
    forall a: nat, b: nat, i: nat, j: nat | a < b && i < j
      ensures WorthMoreInFront(worth, a, b, i, j)
    {
      EarlierIsWorthMore(w, a, b, i, j);
    }
  }

  lemma HigherIsWorthMore(w: nat -> real, a: nat, b: nat, i: nat)
    requires w(i) > 0.0 && a < b
    ensures Discounted(w)(a, i) < Discounted(w)(b, i)
  {
    GainRises(a, b);
    Scale(Gain(a), Gain(b), w(i));
  }

  lemma EarlierIsWorthMore(w: nat -> real, a: nat, b: nat, i: nat, j: nat)
    requires w(j) < w(i) && a < b
    ensures Discounted(w)(b, i) + Discounted(w)(a, j) > Discounted(w)(a, i) + Discounted(w)(b, j)
  {
    GainRises(a, b);
    Rearrange(Gain(a), Gain(b), w(i), w(j));
  }

  // A larger gain is worth more at a larger discount.
  lemma Rearrange(low: real, high: real, near: real, far: real)
    requires low < high && far < near
    ensures high * near + low * far > low * near + high * far
  {
    assert (high - low) * (near - far) > 0.0;
  }

  lemma Scale(low: real, high: real, weight: real)
    requires low < high && weight > 0.0
    ensures low * weight < high * weight
  {
  }

  // The grade of a key: its last judgment, or 0.
  function GradeOf(judgments: seq<Judgment>, key: string): nat {
    if judgments == [] then 0
    else
      var last := |judgments| - 1;
      if judgments[last].resource == key then judgments[last].grade else GradeOf(judgments[..last], key)
  }

  function Grades(judgments: seq<Judgment>): (r: seq<nat>)
    ensures |r| == |judgments|
  {
    seq(|judgments|, i requires 0 <= i < |judgments| => judgments[i].grade)
  }

  function GradesOf(judgments: seq<Judgment>, keys: seq<string>): (r: seq<nat>)
    ensures |r| == |keys|
  {
    seq(|keys|, i requires 0 <= i < |keys| => GradeOf(judgments, keys[i]))
  }

  predicate Falling(grades: seq<nat>) {
    forall i, j :: 0 <= i < j < |grades| ==> grades[j] <= grades[i]
  }

  function Insert(grade: nat, grades: seq<nat>): (r: seq<nat>)
    ensures |r| == |grades| + 1
  {
    if grades == [] || grades[0] <= grade then [grade] + grades else [grades[0]] + Insert(grade, grades[1..])
  }

  // The grades from the highest to the lowest.
  function Descending(grades: seq<nat>): (r: seq<nat>)
    ensures |r| == |grades|
  {
    if grades == [] then [] else Insert(grades[|grades| - 1], Descending(grades[..|grades| - 1]))
  }

  lemma {:induction false} InsertFalls(grade: nat, grades: seq<nat>)
    requires Falling(grades)
    ensures Falling(Insert(grade, grades))
    ensures forall i :: 0 <= i <= |grades| ==> Insert(grade, grades)[i] == grade || Insert(grade, grades)[i] in grades
  {
    if grades != [] && grades[0] > grade {
      InsertFalls(grade, grades[1..]);
      var rest := Insert(grade, grades[1..]);
      forall i | 0 <= i < |rest| ensures rest[i] <= grades[0] {
        if rest[i] != grade {
          var j :| 0 <= j < |grades[1..]| && grades[1..][j] == rest[i];
          assert grades[j + 1] == rest[i];
        }
      }
    }
  }

  lemma {:induction false} InsertAdds(grade: nat, grades: seq<nat>)
    ensures multiset(Insert(grade, grades)) == multiset(grades) + multiset{grade}
  {
    if grades != [] && grades[0] > grade {
      InsertAdds(grade, grades[1..]);
      assert grades == [grades[0]] + grades[1..];
    }
  }

  lemma {:induction false} DescendingIsSorted(grades: seq<nat>)
    ensures Falling(Descending(grades)) && multiset(Descending(grades)) == multiset(grades)
  {
    if grades != [] {
      var last := |grades| - 1;
      DescendingIsSorted(grades[..last]);
      InsertFalls(grades[last], Descending(grades[..last]));
      InsertAdds(grades[last], Descending(grades[..last]));
      assert grades == grades[..last] + [grades[last]];
    }
  }

  function Head<T>(s: seq<T>, k: nat): seq<T> {
    if k <= |s| then s[..k] else s
  }

  function Ideal(judgments: seq<Judgment>, w: nat -> real, k: nat): real {
    Dcg(Head(Descending(Grades(judgments)), k), w)
  }

  function Ndcg(judgments: seq<Judgment>, ranking: seq<string>, w: nat -> real, k: nat): real {
    var ideal := Ideal(judgments, w, k);
    if ideal == 0.0 then 1.0 else Dcg(GradesOf(judgments, Head(ranking, k)), w) / ideal
  }

  predicate Distinct<T(==)>(s: seq<T>) {
    forall i, j :: 0 <= i < j < |s| ==> s[i] != s[j]
  }

  predicate OneJudgmentEach(judgments: seq<Judgment>) {
    forall i, j :: 0 <= i < j < |judgments| ==> judgments[i].resource != judgments[j].resource
  }

  /* ---- Sums ---- */

  lemma {:induction false} GainRises(a: nat, b: nat)
    requires a < b
    ensures Gain(a) < Gain(b)
  {
    if a + 1 < b { GainRises(a, b - 1); }
  }

  lemma {:induction false} SumIsPositive(grades: seq<nat>, worth: (nat, nat) -> real, from: nat)
    requires Rewards(worth)
    ensures Sum(grades, worth, from) >= 0.0
    ensures Sum(grades, worth, from) == 0.0 <==> forall i :: 0 <= i < |grades| ==> grades[i] == 0
  {
    if grades != [] {
      SumIsPositive(grades[1..], worth, from + 1);
      assert worth(0, from) == 0.0 && (grades[0] > 0 ==> WorthMore(worth, 0, grades[0], from));
      if forall i :: 0 <= i < |grades[1..]| ==> grades[1..][i] == 0 {
        forall i | 1 <= i < |grades| ensures grades[i] == 0 { assert grades[1..][i - 1] == 0; }
      }
    }
  }

  lemma {:induction false} SumUpdate(grades: seq<nat>, worth: (nat, nat) -> real, from: nat, p: nat, x: nat)
    requires p < |grades|
    ensures Sum(grades[p := x], worth, from)
            == Sum(grades, worth, from) - worth(grades[p], from + p) + worth(x, from + p)
  {
    if p == 0 {
      assert grades[0 := x][1..] == grades[1..];
    } else {
      SumUpdate(grades[1..], worth, from + 1, p - 1, x);
      assert grades[p := x][1..] == grades[1..][p - 1 := x];
    }
  }

  lemma {:induction false} SumSplits(grades: seq<nat>, worth: (nat, nat) -> real, from: nat, n: nat)
    requires n <= |grades|
    ensures Sum(grades, worth, from) == Sum(grades[..n], worth, from) + Sum(grades[n..], worth, from + n)
  {
    if n == 0 {
      assert grades[0..] == grades;
    } else {
      SumSplits(grades[1..], worth, from + 1, n - 1);
      assert grades[..n][1..] == grades[1..][..n - 1] && grades[1..][n - 1..] == grades[n..];
    }
  }

  /* ---- The best order ---- */

  // Every positive grade occurs in `some` at most as often as in `all`.
  ghost predicate Within(some: seq<nat>, all: seq<nat>) {
    forall x :: x > 0 ==> multiset(some)[x] <= multiset(all)[x]
  }

  function At(grades: seq<nat>, i: nat): nat {
    if i < |grades| then grades[i] else 0
  }

  lemma WithinTail(some: seq<nat>, all: seq<nat>, m: nat)
    requires some != [] && all != [] && m == all[0] && (some[0] == m || m !in some[1..])
    requires Within(some, all)
    ensures Within(some[1..], all[1..])
  {
    assert some == [some[0]] + some[1..] && all == [m] + all[1..];
    forall x | x > 0 ensures multiset(some[1..])[x] <= multiset(all[1..])[x] {
      assert x == m && some[0] != m ==> multiset(some[1..])[x] == 0;
      assert multiset(some)[x] <= multiset(all)[x];
    }
  }

  // Bringing the best grade to the front, from position p.
  lemma SwapGains(some: seq<nat>, worth: (nat, nat) -> real, from: nat, p: nat)
    requires Rewards(worth) && 0 < p < |some| && some[0] < some[p]
    ensures worth(some[p], from) + Sum(some[1..][p - 1 := some[0]], worth, from + 1) > Sum(some, worth, from)
  {
    SumUpdate(some[1..], worth, from + 1, p - 1, some[0]);
    assert from + 1 + (p - 1) == from + p;
    assert WorthMoreInFront(worth, some[0], some[p], from, from + p);
  }

  lemma AllZero(some: seq<nat>, none: seq<nat>)
    requires Within(some, none) && none == []
    ensures forall i :: 0 <= i < |some| ==> some[i] == 0
  {
    forall i | 0 <= i < |some| ensures some[i] == 0 {
      assert some[i] in multiset(some);
      assert some[i] > 0 ==> multiset(some)[some[i]] <= multiset(none)[some[i]];
    }
  }

  // No order of grades taken from `all` scores more than the falling order, and only grades that are
  // those of the falling order, position by position, score as much.
  lemma {:induction false} FallingIsBest(some: seq<nat>, all: seq<nat>, worth: (nat, nat) -> real, from: nat)
    requires Rewards(worth) && Falling(all) && Within(some, all)
    ensures Sum(some, worth, from) <= Sum(Head(all, |some|), worth, from)
    ensures Sum(some, worth, from) == Sum(Head(all, |some|), worth, from) ==>
      forall i :: 0 <= i < |some| ==> some[i] == At(all, i)
    decreases |some|
  {
    if some == [] {
    } else if all == [] {
      AllZero(some, all);
      SumIsPositive(some, worth, from);
    } else {
      BestIsFirst(some, all);
      if some[0] == all[0] {
        WithinTail(some, all, all[0]);
        FallingIsBest(some[1..], all[1..], worth, from + 1);
        HeadOfTail(all, |some|);
        AtTail(some, all);
      } else {
        FallingIsBetter(some, all, worth, from);
      }
    }
  }

  lemma HeadOfTail(all: seq<nat>, n: nat)
    requires all != [] && n > 0
    ensures Head(all, n) != [] && Head(all, n)[0] == all[0] && Head(all, n)[1..] == Head(all[1..], n - 1)
  {
  }

  lemma AtTail(some: seq<nat>, all: seq<nat>)
    requires some != [] && all != [] && some[0] == all[0]
    ensures (forall i :: 0 <= i < |some[1..]| ==> some[1..][i] == At(all[1..], i))
            ==> forall i :: 0 <= i < |some| ==> some[i] == At(all, i)
  {
    if forall i :: 0 <= i < |some[1..]| ==> some[1..][i] == At(all[1..], i) {
      forall i | 0 <= i < |some| ensures some[i] == At(all, i) {
        if i > 0 { assert some[1..][i - 1] == At(all[1..], i - 1); }
      }
    }
  }

  lemma BestIsFirst(some: seq<nat>, all: seq<nat>)
    requires some != [] && all != [] && Falling(all) && Within(some, all)
    ensures some[0] <= all[0]
  {
    if some[0] > 0 {
      assert some[0] in multiset(some);
      assert multiset(some)[some[0]] <= multiset(all)[some[0]];
      assert some[0] in multiset(all);
      assert some[0] in all;
    }
  }

  lemma HeadSum(all: seq<nat>, n: nat, worth: (nat, nat) -> real, from: nat)
    requires all != [] && n > 0
    ensures Sum(Head(all, n), worth, from) == worth(all[0], from) + Sum(Head(all[1..], n - 1), worth, from + 1)
  {
    HeadOfTail(all, n);
  }

  lemma TailIsWithin(some: seq<nat>, all: seq<nat>)
    requires some != [] && all != [] && Within(some, all) && forall p :: 0 < p < |some| ==> some[p] != all[0]
    ensures Within(some[1..], all[1..])
  {
    assert forall i | 0 <= i < |some[1..]| :: some[1..][i] == some[i + 1];
    WithinTail(some, all, all[0]);
  }

  // The best grade is not first: bring it there, from further back or from outside.
  lemma FallingIsBetter(some: seq<nat>, all: seq<nat>, worth: (nat, nat) -> real, from: nat)
    requires Rewards(worth) && Falling(all) && Within(some, all)
    requires some != [] && all != [] && some[0] < all[0]
    ensures Sum(some, worth, from) < Sum(Head(all, |some|), worth, from)
    decreases |some|, 1
  {
    HeadSum(all, |some|, worth, from);
    if p :| 0 < p < |some| && some[p] == all[0] {
      BroughtForward(some, all, worth, from, p);
    } else {
      TailIsWithin(some, all);
      TailFalls(all);
      FallingIsBest(some[1..], all[1..], worth, from + 1);
      assert WorthMore(worth, some[0], all[0], from);
    }
  }

  lemma TailFalls(all: seq<nat>)
    requires all != [] && Falling(all)
    ensures Falling(all[1..])
  {
  }

  lemma BroughtForward(some: seq<nat>, all: seq<nat>, worth: (nat, nat) -> real, from: nat, p: nat)
    requires Rewards(worth) && Falling(all) && Within(some, all)
    requires all != [] && 0 < p < |some| && some[0] < all[0] == some[p]
    ensures Sum(some, worth, from) < worth(all[0], from) + Sum(Head(all[1..], |some| - 1), worth, from + 1)
    decreases |some|, 0
  {
    var rest := some[1..][p - 1 := some[0]];
    SwapGains(some, worth, from, p);
    assert Sum(rest, worth, from + 1) <= Sum(Head(all[1..], |some| - 1), worth, from + 1) by {
      SwapKeepsWithin(some, all, p);
      TailFalls(all);
      FallingIsBest(rest, all[1..], worth, from + 1);
    }
  }

  lemma SwapKeepsWithin(some: seq<nat>, all: seq<nat>, p: nat)
    requires all != [] && Within(some, all) && 0 < p < |some| && some[p] == all[0]
    ensures Within(some[1..][p - 1 := some[0]], all[1..])
  {
    var swapped := some[0 := some[p]][p := some[0]];
    assert multiset(swapped) == multiset(some);
    WithinTail(swapped, all, all[0]);
    assert swapped[1..] == some[1..][p - 1 := some[0]];
  }

  /* ---- From judgments to grades ---- */

  lemma {:induction false} GradeAt(judgments: seq<Judgment>, key: string, j: nat)
    requires OneJudgmentEach(judgments) && j < |judgments| && judgments[j].resource == key
    ensures GradeOf(judgments, key) == judgments[j].grade
  {
    if j < |judgments| - 1 { GradeAt(judgments[..|judgments| - 1], key, j); }
  }

  lemma {:induction false} GradeOfUnjudged(judgments: seq<Judgment>, key: string)
    requires forall j :: 0 <= j < |judgments| ==> judgments[j].resource != key
    ensures GradeOf(judgments, key) == 0
  {
    if judgments != [] { GradeOfUnjudged(judgments[..|judgments| - 1], key); }
  }

  function Without(judgments: seq<Judgment>, j: nat): (rest: seq<Judgment>)
    requires j < |judgments|
    ensures |rest| == |judgments| - 1
    ensures forall i :: 0 <= i < |rest| ==> rest[i] == judgments[if i < j then i else i + 1]
  {
    judgments[..j] + judgments[j + 1..]
  }

  // Taking one judgment away leaves the grades of the other keys.
  lemma GradeWithout(judgments: seq<Judgment>, j: nat, key: string)
    requires OneJudgmentEach(judgments) && j < |judgments| && key != judgments[j].resource
    ensures GradeOf(Without(judgments, j), key) == GradeOf(judgments, key)
  {
    var rest := Without(judgments, j);
    if i :| 0 <= i < |judgments| && judgments[i].resource == key {
      GradeAt(judgments, key, i);
      GradeAt(rest, key, if i < j then i else i - 1);
    } else {
      GradeOfUnjudged(judgments, key);
      GradeOfUnjudged(rest, key);
    }
  }

  lemma GradesWithout(judgments: seq<Judgment>, j: nat)
    requires j < |judgments|
    ensures multiset(Grades(judgments)) == multiset(Grades(judgments[..j] + judgments[j + 1..]))
      + multiset{judgments[j].grade}
  {
    var all := Grades(judgments);
    assert all == all[..j] + [all[j]] + all[j + 1..];
    assert Grades(judgments[..j] + judgments[j + 1..]) == all[..j] + all[j + 1..];
  }

  // A ranking without repeats shows each judged grade at most as often as it was given.
  lemma {:induction false} RankedGradesAreWithin(judgments: seq<Judgment>, keys: seq<string>)
    requires OneJudgmentEach(judgments) && Distinct(keys)
    ensures Within(GradesOf(judgments, keys), Grades(judgments))
    decreases |keys|
  {
    var shown := GradesOf(judgments, keys);
    if keys != [] {
      assert shown == [shown[0]] + GradesOf(judgments, keys[1..]);
      if j :| 0 <= j < |judgments| && judgments[j].resource == keys[0] {
        var rest := Without(judgments, j);
        GradeAt(judgments, keys[0], j);
        GradesWithout(judgments, j);
        forall i | 1 <= i < |keys| ensures GradeOf(rest, keys[i]) == GradeOf(judgments, keys[i]) {
          GradeWithout(judgments, j, keys[i]);
        }
        assert GradesOf(rest, keys[1..]) == GradesOf(judgments, keys[1..]);
        RankedGradesAreWithin(rest, keys[1..]);
      } else {
        GradeOfUnjudged(judgments, keys[0]);
        RankedGradesAreWithin(judgments, keys[1..]);
      }
    }
  }

  /* ---- The metric ---- */

  // The falling order cut at k scores at least as much as any shorter head of it, and as much only when
  // what is cut off is worth nothing.
  lemma LongerHead(best: seq<nat>, n: nat, k: nat, worth: (nat, nat) -> real)
    requires Rewards(worth) && n <= k
    ensures Sum(Head(best, n), worth, 0) <= Sum(Head(best, k), worth, 0)
    ensures Sum(Head(best, n), worth, 0) == Sum(Head(best, k), worth, 0) ==> forall i :: n <= i < k ==> At(best, i) == 0
  {
    if n < |best| {
      var head := Head(best, k);
      assert Head(best, n) == head[..n];
      SumSplits(head, worth, 0, n);
      RestIsPositive(best, n, k, worth);
    } else {
      assert Head(best, n) == Head(best, k) == best;
    }
  }

  lemma RestIsPositive(best: seq<nat>, n: nat, k: nat, worth: (nat, nat) -> real)
    requires Rewards(worth) && n <= k && n <= |best|
    ensures Sum(Head(best, k)[n..], worth, n) >= 0.0
    ensures Sum(Head(best, k)[n..], worth, n) == 0.0 ==> forall i :: n <= i < k ==> At(best, i) == 0
  {
    var rest := Head(best, k)[n..];
    SumIsPositive(rest, worth, n);
    if Sum(rest, worth, n) == 0.0 {
      forall i | n <= i < k ensures At(best, i) == 0 {
        if i < |best| { assert rest[i - n] == best[i]; }
      }
    }
  }

  lemma BoundByHead(shown: seq<nat>, best: seq<nat>, worth: (nat, nat) -> real, k: nat)
    requires Rewards(worth) && |shown| <= k && Falling(best) && Within(shown, best)
    ensures 0.0 <= Sum(shown, worth, 0) <= Sum(Head(best, k), worth, 0)
    ensures Sum(shown, worth, 0) == Sum(Head(best, k), worth, 0)
            <==> forall i :: 0 <= i < k ==> At(shown, i) == At(best, i)
  {
    FallingIsBest(shown, best, worth, 0);
    LongerHead(best, |shown|, k, worth);
    SumIsPositive(shown, worth, 0);
    if forall i :: 0 <= i < k ==> At(shown, i) == At(best, i) {
      forall i: nat ensures At(shown, i) == At(Head(best, k), i) {}
      SameSum(shown, Head(best, k), worth, 0);
    }
  }

  lemma {:induction false} SameSum(a: seq<nat>, b: seq<nat>, worth: (nat, nat) -> real, from: nat)
    requires Rewards(worth) && forall i: nat :: At(a, i) == At(b, i)
    ensures Sum(a, worth, from) == Sum(b, worth, from)
    decreases |a|
  {
    if a == [] || b == [] {
      assert forall i | 0 <= i < |a| :: a[i] == At(b, i);
      assert forall i | 0 <= i < |b| :: b[i] == At(a, i);
      SumIsPositive(a, worth, from);
      SumIsPositive(b, worth, from);
    } else {
      assert a[0] == At(a, 0) == At(b, 0) == b[0];
      forall i: nat ensures At(a[1..], i) == At(b[1..], i) { assert At(a, i + 1) == At(b, i + 1); }
      SameSum(a[1..], b[1..], worth, from + 1);
    }
  }

  // What the ranking shows at every position below k, against the falling order.
  lemma HeadIsBounded(judgments: seq<Judgment>, ranking: seq<string>, w: nat -> real, k: nat)
    requires Discounts(w) && OneJudgmentEach(judgments) && Distinct(ranking)
    ensures var shown, best := GradesOf(judgments, Head(ranking, k)), Descending(Grades(judgments));
      && 0.0 <= Dcg(shown, w) <= Ideal(judgments, w, k)
      && (Dcg(shown, w) == Ideal(judgments, w, k) <==> forall i :: 0 <= i < k ==> At(shown, i) == At(best, i))
  {
    var shown, best := GradesOf(judgments, Head(ranking, k)), Descending(Grades(judgments));
    RankedGradesAreWithin(judgments, Head(ranking, k));
    DescendingIsSorted(Grades(judgments));
    assert Within(shown, best);
    DiscountsReward(w);
    BoundByHead(shown, best, Discounted(w), k);
  }

  // nDCG@k is between 0 and 1, and it is 1 exactly when the k first positions carry the k highest
  // grades in falling order (missing positions and unjudged resources counting as grade 0).
  lemma NdcgIsNormalized(judgments: seq<Judgment>, ranking: seq<string>, w: nat -> real, k: nat)
    requires Discounts(w) && OneJudgmentEach(judgments) && Distinct(ranking)
    ensures 0.0 <= Ndcg(judgments, ranking, w, k) <= 1.0
    ensures Ndcg(judgments, ranking, w, k) == 1.0 <==>
      forall i :: 0 <= i < k ==> At(GradesOf(judgments, Head(ranking, k)), i) == At(Descending(Grades(judgments)), i)
  {
    HeadIsBounded(judgments, ranking, w, k);
    var shown := Dcg(GradesOf(judgments, Head(ranking, k)), w);
    var ideal := Ideal(judgments, w, k);
    if ideal != 0.0 {
      QuotientInUnit(shown, ideal);
    }
  }

  lemma QuotientInUnit(part: real, whole: real)
    requires 0.0 <= part <= whole && whole > 0.0
    ensures 0.0 <= part / whole <= 1.0
    ensures part / whole == 1.0 <==> part == whole
  {
    assert part / whole * whole == part;
  }

  // Listing the judged resources by falling grade is perfect at every cutoff.
  lemma FallingListingIsPerfect(judgments: seq<Judgment>, order: seq<Judgment>, others: seq<string>, w: nat -> real,
      k: nat)
    requires Discounts(w) && OneJudgmentEach(judgments)
    requires multiset(order) == multiset(judgments) && Falling(Grades(order))
    requires var ranking := seq(|order|, i requires 0 <= i < |order| => order[i].resource) + others; Distinct(ranking)
    ensures var ranking := seq(|order|, i requires 0 <= i < |order| => order[i].resource) + others;
      Ndcg(judgments, ranking, w, k) == 1.0
  {
    var ranking := seq(|order|, i requires 0 <= i < |order| => order[i].resource) + others;
    var shown := GradesOf(judgments, Head(ranking, k));
    OrderIsDescending(judgments, order, w);
    forall i | 0 <= i < k ensures At(shown, i) == At(Descending(Grades(judgments)), i) {
      if i < |order| {
        assert order[i] in multiset(order);
        assert order[i] in judgments;
        var j :| 0 <= j < |judgments| && judgments[j] == order[i];
        GradeAt(judgments, ranking[i], j);
      } else if i < |ranking| {
        forall j | 0 <= j < |judgments| ensures judgments[j].resource != ranking[i] {
          assert judgments[j] in multiset(judgments);
          assert judgments[j] in order;
          var m :| 0 <= m < |order| && order[m] == judgments[j];
          assert ranking[m] != ranking[i];
        }
        GradeOfUnjudged(judgments, ranking[i]);
      }
    }
    NdcgIsNormalized(judgments, ranking, w, k);
  }

  lemma RemoveOne<T>(s: seq<T>, j: nat)
    requires j < |s|
    ensures multiset(s[..j] + s[j + 1..]) == multiset(s) - multiset{s[j]}
  {
    assert s == s[..j] + [s[j]] + s[j + 1..];
  }

  lemma FoundIn(a: seq<Judgment>, b: seq<Judgment>) returns (j: nat)
    requires multiset(a) == multiset(b) && a != []
    ensures j < |b| && b[j] == a[0]
    ensures multiset(a[..0] + a[1..]) == multiset(b[..j] + b[j + 1..])
  {
    assert a[0] in multiset(a);
    assert a[0] in b;
    j :| 0 <= j < |b| && b[j] == a[0];
    RemoveOne(a, 0);
    RemoveOne(b, j);
  }

  lemma {:induction false} SameGrades(a: seq<Judgment>, b: seq<Judgment>)
    requires multiset(a) == multiset(b)
    ensures multiset(Grades(a)) == multiset(Grades(b))
    decreases |a|
  {
    if a == [] {
      assert |b| == |multiset(b)| == 0;
    } else {
      var j := FoundIn(a, b);
      SameGrades(a[..0] + a[1..], b[..j] + b[j + 1..]);
      GradesWithout(b, j);
      GradesWithout(a, 0);
    }
  }

  // Two falling orders of the same grades are equal.
  lemma FallingIsUnique(a: seq<nat>, b: seq<nat>, worth: (nat, nat) -> real)
    requires Rewards(worth) && Falling(a) && Falling(b) && Within(a, b) && Within(b, a) && |a| == |b|
    ensures forall i: nat :: At(a, i) == At(b, i)
  {
    FallingIsBest(a, b, worth, 0);
    FallingIsBest(b, a, worth, 0);
    assert Head(a, |b|) == a && Head(b, |a|) == b;
  }

  lemma OrderIsDescending(judgments: seq<Judgment>, order: seq<Judgment>, w: nat -> real)
    requires Discounts(w) && multiset(order) == multiset(judgments) && Falling(Grades(order))
    ensures forall i: nat :: At(Grades(order), i) == At(Descending(Grades(judgments)), i)
  {
    SameGrades(order, judgments);
    DescendingIsSorted(Grades(judgments));
    assert |order| == |multiset(order)| == |multiset(judgments)| == |judgments|;
    DiscountsReward(w);
    FallingIsUnique(Grades(order), Descending(Grades(judgments)), Discounted(w));
  }

  /* ---- Scoring a query ---- */

  function RelevantKeys(judgments: seq<Judgment>): set<string> {
    set i | 0 <= i < |judgments| && judgments[i].grade >= RELEVANT_GRADE :: judgments[i].resource
  }

  // How many of the keys are in a set.
  function Hits(keys: seq<string>, wanted: set<string>): nat {
    if keys == [] then 0 else Hits(keys[..|keys| - 1], wanted) + if keys[|keys| - 1] in wanted then 1 else 0
  }

  function KeysIn(keys: seq<string>, wanted: set<string>): (r: set<string>)
    ensures r <= wanted
    ensures forall key :: key in r ==> key in keys
  {
    if keys == [] then {}
    else
      var last := |keys| - 1;
      KeysIn(keys[..last], wanted) + if keys[last] in wanted then {keys[last]} else {}
  }

  lemma {:induction false} HitsAreKeys(keys: seq<string>, wanted: set<string>)
    requires Distinct(keys)
    ensures Hits(keys, wanted) == |KeysIn(keys, wanted)|
    ensures Hits(keys, wanted) <= |wanted|
  {
    if keys != [] {
      var last := |keys| - 1;
      HitsAreKeys(keys[..last], wanted);
      assert keys[last] !in KeysIn(keys[..last], wanted);
    }
    SubsetSize(KeysIn(keys, wanted), wanted);
  }

  lemma {:induction false} SubsetSize<T>(a: set<T>, b: set<T>)
    requires a <= b
    ensures |a| <= |b|
  {
    assert b == a + (b - a);
  }

  function Recall(judgments: seq<Judgment>, ranking: seq<string>, k: nat): real {
    var relevant := RelevantKeys(judgments);
    if |relevant| == 0 then 1.0 else Hits(Head(ranking, k), relevant) as real / |relevant| as real
  }

  lemma {:induction false} HitsGrow(keys: seq<string>, wanted: set<string>, m: nat, n: nat)
    requires m <= n <= |keys|
    ensures Hits(keys[..m], wanted) <= Hits(keys[..n], wanted)
  {
    if m < n {
      HitsGrow(keys, wanted, m, n - 1);
      assert keys[..n][..n - 1] == keys[..n - 1];
    }
  }

  // Recall is in the unit interval and never falls with a larger cutoff.
  lemma RecallGrows(judgments: seq<Judgment>, ranking: seq<string>, k: nat, l: nat)
    requires Distinct(ranking) && k <= l
    ensures 0.0 <= Recall(judgments, ranking, k) <= Recall(judgments, ranking, l) <= 1.0
  {
    var relevant := RelevantKeys(judgments);
    var m, n := if k <= |ranking| then k else |ranking|, if l <= |ranking| then l else |ranking|;
    assert Head(ranking, k) == ranking[..m] && Head(ranking, l) == ranking[..n];
    HitsGrow(ranking, relevant, m, n);
    HitsAreKeys(Head(ranking, l), relevant);
    if |relevant| > 0 {
      QuotientGrows(Hits(Head(ranking, k), relevant) as real, Hits(Head(ranking, l), relevant) as real,
          |relevant| as real);
    }
  }

  lemma Keeps(low: real, high: real, weight: real)
    requires weight > 0.0
    ensures low < high ==> low * weight < high * weight
  {
    if low < high { Scale(low, high, weight); }
  }

  lemma Cancel(x: real, y: real, a: real, b: real, whole: real)
    requires x * whole == a && y * whole == b && a <= b && whole > 0.0
    ensures x <= y
  {
    Keeps(y, x, whole);
  }

  lemma QuotientGrows(a: real, b: real, whole: real)
    requires 0.0 <= a <= b <= whole && whole > 0.0
    ensures 0.0 <= a / whole <= b / whole <= 1.0
  {
    QuotientInUnit(a, whole);
    QuotientInUnit(b, whole);
    Cancel(a / whole, b / whole, a, b, whole);
  }

  // The scores of one cutoff.
  datatype Scores = Scores(recall: real, precision: real, ndcg: real, violations: nat, unjudged: nat)

  function ScoresAt(judgments: seq<Judgment>, ranking: seq<string>, w: nat -> real, k: nat): Scores
    requires k > 0
  {
    Scores(
      Recall(judgments, ranking, k),
      Hits(Head(ranking, k), RelevantKeys(judgments)) as real / k as real,
      Ndcg(judgments, ranking, w, k),
      Count(Head(ranking, k), Refused(judgments)),
      Count(Head(ranking, k), Unjudged(judgments)))
  }

  ghost function Among(keys: seq<string>, p: string -> bool): set<string> { set key | key in keys && p(key) }

  lemma OneMoreKey(keys: seq<string>, p: string -> bool)
    requires Distinct(keys) && keys != []
    ensures var last := |keys| - 1;
      |Among(keys, p)| == |Among(keys[..last], p)| + if p(keys[last]) then 1 else 0
  {
    var last := |keys| - 1;
    assert keys == keys[..last] + [keys[last]] && keys[last] !in keys[..last];
    assert Among(keys, p) == Among(keys[..last], p) + if p(keys[last]) then {keys[last]} else {};
  }

  lemma {:induction false} CountIsSize(keys: seq<string>, p: string -> bool)
    requires Distinct(keys)
    ensures Count(keys, p) == |Among(keys, p)|
  {
    if keys == [] {
      assert Among(keys, p) == {};
    } else {
      CountIsSize(keys[..|keys| - 1], p);
      OneMoreKey(keys, p);
    }
  }

  lemma {:induction false} HitsAreCounted(keys: seq<string>, wanted: set<string>)
    ensures Hits(keys, wanted) == Count(keys, key => key in wanted)
  {
    if keys != [] { HitsAreCounted(keys[..|keys| - 1], wanted); }
  }

  lemma RelevantIsGraded(judgments: seq<Judgment>, key: string)
    requires OneJudgmentEach(judgments)
    ensures key in RelevantKeys(judgments) <==> GradeOf(judgments, key) >= RELEVANT_GRADE
    ensures Refused(judgments)(key) <==> Judgment(key, 0) in judgments
    ensures Unjudged(judgments)(key) <==> forall grade :: Judgment(key, grade) !in judgments
  {
    if j :| 0 <= j < |judgments| && judgments[j].resource == key {
      GradeAt(judgments, key, j);
      assert Judgment(key, judgments[j].grade) in judgments;
    } else {
      GradeOfUnjudged(judgments, key);
    }
  }

  lemma SameKeys(keys: seq<string>, p: string -> bool, q: string -> bool)
    requires Distinct(keys) && forall key :: p(key) <==> q(key)
    ensures Count(keys, p) == |Among(keys, q)|
  {
    CountIsSize(keys, p);
    assert Among(keys, p) == Among(keys, q);
  }

  // `share` is the part of the whole.
  predicate Shares(share: real, part: nat, whole: nat) { share * whole as real == part as real }

  lemma QuotientShares(part: nat, whole: nat)
    requires whole > 0
    ensures Shares(part as real / whole as real, part, whole)
  {
  }

  ghost function RelevantAmong(judgments: seq<Judgment>, keys: seq<string>): set<string> {
    Among(keys, key => GradeOf(judgments, key) >= RELEVANT_GRADE)
  }

  lemma HitsAreRelevant(judgments: seq<Judgment>, keys: seq<string>)
    requires Distinct(keys) && OneJudgmentEach(judgments)
    ensures Hits(keys, RelevantKeys(judgments)) == |RelevantAmong(judgments, keys)|
  {
    HitsAreCounted(keys, RelevantKeys(judgments));
    forall key ensures key in RelevantKeys(judgments) <==> GradeOf(judgments, key) >= RELEVANT_GRADE {
      RelevantIsGraded(judgments, key);
    }
    SameKeys(keys, key => key in RelevantKeys(judgments), key => GradeOf(judgments, key) >= RELEVANT_GRADE);
  }

  lemma PrecisionShares(judgments: seq<Judgment>, ranking: seq<string>, w: nat -> real, k: nat)
    requires k > 0
    ensures Shares(ScoresAt(judgments, ranking, w, k).precision, Hits(Head(ranking, k), RelevantKeys(judgments)), k)
  {
    QuotientShares(Hits(Head(ranking, k), RelevantKeys(judgments)), k);
  }

  lemma RecallShares(judgments: seq<Judgment>, ranking: seq<string>, k: nat)
    requires RelevantKeys(judgments) != {}
    ensures Shares(Recall(judgments, ranking, k), Hits(Head(ranking, k), RelevantKeys(judgments)),
        |RelevantKeys(judgments)|)
  {
    QuotientShares(Hits(Head(ranking, k), RelevantKeys(judgments)), |RelevantKeys(judgments)|);
  }

  // What precision and recall mean for a ranking without repeats: the share of the k places that show
  // relevant resources, and the share of the relevant resources that are shown.
  lemma SharesMean(judgments: seq<Judgment>, ranking: seq<string>, w: nat -> real, k: nat)
    requires Distinct(ranking) && OneJudgmentEach(judgments) && k > 0
    ensures var s, relevant := ScoresAt(judgments, ranking, w, k), RelevantKeys(judgments);
      var shown := |RelevantAmong(judgments, Head(ranking, k))|;
      && Shares(s.precision, shown, k)
      && (if relevant == {} then s.recall == 1.0 else Shares(s.recall, shown, |relevant|))
  {
    HitsAreRelevant(judgments, Head(ranking, k));
    PrecisionShares(judgments, ranking, w, k);
    if RelevantKeys(judgments) != {} { RecallShares(judgments, ranking, k); }
  }

  // Violations are the shown resources judged 0, and unjudged ones those without any judgment.
  lemma CountsMean(judgments: seq<Judgment>, ranking: seq<string>, w: nat -> real, k: nat)
    requires Distinct(ranking) && OneJudgmentEach(judgments) && k > 0
    ensures var s, head := ScoresAt(judgments, ranking, w, k), Head(ranking, k);
      && s.violations == |Among(head, key => Judgment(key, 0) in judgments)|
      && s.unjudged == |Among(head, key => forall grade :: Judgment(key, grade) !in judgments)|
  {
    forall key ensures Refused(judgments)(key) <==> Judgment(key, 0) in judgments
      ensures Unjudged(judgments)(key) <==> forall grade :: Judgment(key, grade) !in judgments
    {
      RelevantIsGraded(judgments, key);
    }
    SameKeys(Head(ranking, k), Refused(judgments), key => Judgment(key, 0) in judgments);
    SameKeys(Head(ranking, k), Unjudged(judgments), key => forall grade :: Judgment(key, grade) !in judgments);
  }

  // How far the judgments of a query cover the catalog.
  datatype Evidence = CompleteEvidence | PooledEvidence | NoEvidence

  datatype Metrics = Metrics(
    scores: map<nat, Scores>, mrr: real, returned: nat, hasResult: bool, noResultCorrect: bool, evaluable: bool)

  // An explicit intent wins over what the judgments suggest.
  predicate ExpectsResult(judgments: seq<Judgment>, expectsNoResult: Option<bool>) {
    expectsNoResult == Some(false)
    || (expectsNoResult.None? && exists j :: 0 <= j < |judgments| && judgments[j].grade >= RELEVANT_GRADE)
  }

  // A cutoff of 0 would divide by zero.
  method ScoreQuery(judgments: seq<Judgment>, expectsNoResult: Option<bool>, evidence: Option<Evidence>,
                    ranking: seq<string>, w: nat -> real, cutoffs: seq<nat>)
    returns (metrics: Metrics)
    requires forall k :: k in cutoffs ==> k > 0
    ensures forall k :: k in cutoffs ==>
      k in metrics.scores && metrics.scores[k] == ScoresAt(judgments, ranking, w, k)
    ensures metrics.mrr == ReciprocalRank(ranking, RelevantKeys(judgments))
    ensures metrics.returned == |ranking| && (metrics.hasResult <==> metrics.returned > 0)
    ensures metrics.noResultCorrect <==> (metrics.hasResult <==> ExpectsResult(judgments, expectsNoResult))
    ensures expectsNoResult == Some(true) ==> (metrics.noResultCorrect <==> ranking == [])
    ensures expectsNoResult == Some(false) ==> (metrics.noResultCorrect <==> ranking != [])
    ensures expectsNoResult == None ==>
      (metrics.noResultCorrect <==> (ranking == [] <==> RelevantKeys(judgments) == {}))
    ensures metrics.evaluable <==> evidence.None? || !evidence.value.NoEvidence?
  {
    var relevant := RelevantKeys(judgments);
    var ideal := Descending(Grades(judgments));
    var scores: map<nat, Scores> := map[];
    for c := 0 to |cutoffs|
      invariant forall k :: k in cutoffs[..c] ==>
        k > 0 && k in scores && scores[k] == ScoresAt(judgments, ranking, w, k)
    {
      var k := cutoffs[c];
      assert k in cutoffs;
      var head := Head(ranking, k);
      var hits := Hits(head, relevant);
      var idealAtK := Dcg(Head(ideal, k), w);
      scores := scores[k := Scores(
        if |relevant| == 0 then 1.0 else hits as real / |relevant| as real,
        hits as real / k as real,
        if idealAtK == 0.0 then 1.0 else Dcg(GradesOf(judgments, head), w) / idealAtK,
        Count(head, Refused(judgments)),
        Count(head, Unjudged(judgments)))];
      assert cutoffs[..c + 1] == cutoffs[..c] + [k];
    }
    assert cutoffs[..|cutoffs|] == cutoffs;
    var mrr := FirstRelevant(ranking, relevant);
    var expectsResult := if expectsNoResult.None? then |relevant| > 0 else !expectsNoResult.value;
    RelevantExists(judgments);
    metrics := Metrics(scores, mrr, |ranking|, |ranking| > 0,
      if expectsResult then |ranking| > 0 else |ranking| == 0,
      evidence.GetOr(CompleteEvidence) != NoEvidence);
  }

  lemma RelevantExists(judgments: seq<Judgment>)
    ensures |RelevantKeys(judgments)| > 0 <==> exists j :: 0 <= j < |judgments| && judgments[j].grade >= RELEVANT_GRADE
  {
    if j :| 0 <= j < |judgments| && judgments[j].grade >= RELEVANT_GRADE {
      assert judgments[j].resource in RelevantKeys(judgments);
    }
  }

  function ReciprocalRank(ranking: seq<string>, relevant: set<string>): real {
    var first := FirstHit(ranking, relevant);
    if first == |ranking| then 0.0 else 1.0 / (first + 1) as real
  }

  function FirstHit(ranking: seq<string>, relevant: set<string>): (i: nat)
    ensures i <= |ranking| && (i < |ranking| ==> ranking[i] in relevant)
    ensures forall j :: 0 <= j < i ==> ranking[j] !in relevant
  {
    if ranking == [] || ranking[0] in relevant then 0 else 1 + FirstHit(ranking[1..], relevant)
  }

  // The reciprocal rank is 0 if and only if no relevant resource is ranked, and otherwise 1 over the position,
  // counted from 1, of the first one.
  lemma ReciprocalRankMeans(judgments: seq<Judgment>, ranking: seq<string>)
    requires OneJudgmentEach(judgments)
    ensures var mrr := ReciprocalRank(ranking, RelevantKeys(judgments));
      && (mrr == 0.0 <==> forall i :: 0 <= i < |ranking| ==> GradeOf(judgments, ranking[i]) < RELEVANT_GRADE)
      && forall i :: FirstRelevantAt(judgments, ranking, i) ==> mrr * (i + 1) as real == 1.0
  {
    forall key { RelevantIsGraded(judgments, key); }
    var relevant := RelevantKeys(judgments);
    var first := FirstHit(ranking, relevant);
    if first < |ranking| { QuotientShares(1, first + 1); }
    forall i | FirstRelevantAt(judgments, ranking, i) ensures i == first { }
  }

  predicate FirstRelevantAt(judgments: seq<Judgment>, ranking: seq<string>, i: nat) {
    && i < |ranking| && GradeOf(judgments, ranking[i]) >= RELEVANT_GRADE
    && forall j :: 0 <= j < i ==> GradeOf(judgments, ranking[j]) < RELEVANT_GRADE
  }

  method FirstRelevant(ranking: seq<string>, relevant: set<string>) returns (mrr: real)
    ensures mrr == ReciprocalRank(ranking, relevant)
  {
    var first := 0;
    while first < |ranking| && ranking[first] !in relevant
      invariant first <= |ranking| && forall j :: 0 <= j < first ==> ranking[j] !in relevant
    {
      first := first + 1;
    }
    mrr := if first == |ranking| then 0.0 else 1.0 / (first + 1) as real;
  }

  function Refused(judgments: seq<Judgment>): string -> bool {
    key => (exists j :: 0 <= j < |judgments| && judgments[j].resource == key) && GradeOf(judgments, key) == 0
  }

  function Unjudged(judgments: seq<Judgment>): string -> bool {
    key => forall j :: 0 <= j < |judgments| ==> judgments[j].resource != key
  }

  function Count(keys: seq<string>, p: string -> bool): nat {
    if keys == [] then 0 else Count(keys[..|keys| - 1], p) + if p(keys[|keys| - 1]) then 1 else 0
  }
}
