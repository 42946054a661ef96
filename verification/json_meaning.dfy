/**
 What a value means apart from the order of its keys, and that canonical text is faithful to it. Also
 the depth of a value and the scan that stops as soon as a limit is passed.
 */
module JsonMeaning {
  import opened JsonValues
  import opened JsonRoundTrip

  // Objects as maps; undefined entries and numbers without a text mean null.
  datatype Meaning =
    | MNull | MBool(b: bool) | MNum(token: Text) | MStr(text: Text)
    | MArr(items: seq<Meaning>) | MObj(members: map<Text, Meaning>)

  function Means(v: Value): Meaning
    decreases v
  {
    match v
    case Undefined => MNull
    case Null => MNull
    case NotFinite => MNull
    case Bool(b) => MBool(b)
    case Num(token) => MNum(token)
    case Str(text) => MStr(text)
    case Arr(items) => MArr(seq(|items|, i requires 0 <= i < |items| => Means(items[i])))
    case Obj(members) => MObj(MeansMembers(members))
  }

  function MeansMembers(members: seq<Member>): (r: map<Text, Meaning>)
    ensures forall key ::
      key in r <==> exists i :: 0 <= i < |members| && members[i].key == key && !members[i].value.Undefined?
    decreases members
  {
    if members == [] then map[]
    else
      var rest := MeansMembers(members[1..]);
      assert forall i | 0 <= i < |members[1..]| :: members[1..][i] == members[i + 1];
      assert forall i | 1 <= i < |members| :: members[i] == members[1..][i - 1];
      if members[0].value.Undefined? then rest else rest[members[0].key := Means(members[0].value)]
  }

  /* ---- Key order is a strict total order ---- */

  lemma {:induction false} BeforeIsTotal(a: Text, b: Text)
    ensures Before(a, b) || a == b || Before(b, a)
    ensures !(Before(a, b) && (a == b || Before(b, a)))
    decreases |a|
  {
    if a != [] && b != [] && a[0] == b[0] {
      BeforeIsTotal(a[1..], b[1..]);
      assert a == [a[0]] + a[1..] && b == [b[0]] + b[1..];
    }
  }

  lemma {:induction false} BeforeIsTransitive(a: Text, b: Text, c: Text)
    requires Before(a, b) && Before(b, c)
    ensures Before(a, c)
    decreases |a|
  {
    if a != [] && a[0] == b[0] == c[0] { BeforeIsTransitive(a[1..], b[1..], c[1..]); }
  }

  // One text precedes another if and only if, where they first differ, it ends or has the smaller unit.
  lemma {:induction false} BeforeIsFirstDifference(a: Text, b: Text)
    ensures Before(a, b) <==>
      exists n :: 0 <= n < |b| && n <= |a| && a[..n] == b[..n] && (n == |a| || a[n] < b[n])
    decreases |a|
  {
    if a != [] && b != [] && a[0] == b[0] {
      BeforeIsFirstDifference(a[1..], b[1..]);
      if n :| 0 <= n < |b[1..]| && n <= |a[1..]| && a[1..][..n] == b[1..][..n]
              && (n == |a[1..]| || a[1..][n] < b[1..][n])
      {
        assert a[..n + 1] == [a[0]] + a[1..][..n] && b[..n + 1] == [b[0]] + b[1..][..n];
        assert n + 1 == |a| || a[n + 1] < b[n + 1];
      }
      if n :| 0 <= n < |b| && n <= |a| && a[..n] == b[..n] && (n == |a| || a[n] < b[n]) {
        assert n > 0;
        assert a[1..][..n - 1] == a[..n][1..] && b[1..][..n - 1] == b[..n][1..];
        assert n - 1 == |a[1..]| || a[1..][n - 1] < b[1..][n - 1];
      }
    } else if b != [] {
      assert a[..0] == b[..0];
    }
  }

  predicate Ascending(members: seq<Member>) {
    forall i, j :: 0 <= i < j < |members| ==> Before(members[i].key, members[j].key)
  }

  predicate NewKey(key: Text, members: seq<Member>) {
    forall i :: 0 <= i < |members| ==> members[i].key != key
  }

  lemma FirstStaysFirst(m: Member, members: seq<Member>)
    requires members != [] && Ascending(members) && Before(members[0].key, m.key)
    ensures AllAfter(members[0], InsertMember(m, members[1..]))
  {
    var rest := InsertMember(m, members[1..]);
    forall j | 0 <= j < |rest| ensures Before(members[0].key, rest[j].key) {
      assert rest[j] in rest;
      if rest[j] != m {
        var i :| 0 <= i < |members[1..]| && members[1..][i] == rest[j];
        assert members[i + 1] == rest[j];
      }
    }
  }

  predicate AllAfter(first: Member, rest: seq<Member>) {
    forall j :: 0 <= j < |rest| ==> Before(first.key, rest[j].key)
  }

  lemma FrontAscends(first: Member, rest: seq<Member>)
    requires Ascending(rest) && AllAfter(first, rest)
    ensures Ascending([first] + rest)
  {
  }

  lemma {:induction false} InsertAscends(m: Member, members: seq<Member>)
    requires Ascending(members) && NewKey(m.key, members)
    ensures Ascending(InsertMember(m, members))
  {
    if members == [] {
    } else if !Before(members[0].key, m.key) {
      BeforeIsTotal(members[0].key, m.key);
      forall j | 0 <= j < |members| ensures Before(m.key, members[j].key) {
        if j > 0 { BeforeIsTransitive(m.key, members[0].key, members[j].key); }
      }
      FrontAscends(m, members);
    } else {
      InsertAscends(m, members[1..]);
      FirstStaysFirst(m, members);
      FrontAscends(members[0], InsertMember(m, members[1..]));
    }
  }

  lemma {:induction false} InsertMeans(m: Member, members: seq<Member>)
    requires !m.value.Undefined? && NewKey(m.key, members)
    ensures MeansMembers(InsertMember(m, members)) == MeansMembers(members)[m.key := Means(m.value)]
  {
    if members == [] || !Before(members[0].key, m.key) {
      assert ([m] + members)[1..] == members;
    } else {
      InsertMeans(m, members[1..]);
      assert ([members[0]] + InsertMember(m, members[1..]))[1..] == InsertMember(m, members[1..]);
    }
  }

  lemma {:induction false} SortAscends(members: seq<Member>)
    requires DistinctKeys(members) && forall m :: m in members ==> !m.value.Undefined?
    ensures Ascending(SortedByKey(members)) && MeansMembers(SortedByKey(members)) == MeansMembers(members)
  {
    if members != [] {
      SortAscends(members[1..]);
      var rest := SortedByKey(members[1..]);
      forall i | 0 <= i < |rest| ensures rest[i].key != members[0].key {
        assert rest[i] in rest;
        var j :| 0 <= j < |members[1..]| && members[1..][j] == rest[i];
        assert members[j + 1] == rest[i];
      }
      assert members[0] in members;
      InsertAscends(members[0], rest);
      InsertMeans(members[0], rest);
    }
  }

  lemma DefinedKeepsKeysNew(key: Text, members: seq<Member>)
    requires NewKey(key, members)
    ensures NewKey(key, Defined(members))
  {
    forall i | 0 <= i < |Defined(members)| ensures Defined(members)[i].key != key {
      assert Defined(members)[i] in Defined(members);
      var j :| 0 <= j < |members| && members[j] == Defined(members)[i];
    }
  }

  lemma {:induction false} DefinedMeans(members: seq<Member>)
    requires DistinctKeys(members)
    ensures DistinctKeys(Defined(members)) && MeansMembers(Defined(members)) == MeansMembers(members)
  {
    if members != [] {
      DefinedMeans(members[1..]);
      DefinedKeepsKeysNew(members[0].key, members[1..]);
      if !members[0].value.Undefined? {
        assert Defined(members)[1..] == Defined(members[1..]);
      }
    }
  }

  // The entries that are printed: ascending, and meaning the same.
  lemma EntriesMean(members: seq<Member>)
    requires DistinctKeys(members)
    ensures Ascending(Entries(members)) && MeansMembers(Entries(members)) == MeansMembers(members)
  {
    DefinedMeans(members);
    SortAscends(Defined(members));
  }

  /* ---- Alike in print, alike in meaning ---- */

  lemma {:induction false} NormalMeansTheSame(v: Value)
    requires WellFormed(v)
    ensures Means(Normal(v)) == Means(v)
    decreases v, 1, 0
  {
    match v
    case Arr(items) => NormalItemsMean(items, v);
    case Obj(members) =>
      EntriesMean(members);
      EntriesArePartsOf(v);
      EntriesAreWellFormed(v);
      NormalMembersMean(Entries(members), v);
    case _ =>
  }

  lemma {:induction false} NormalItemsMean(items: seq<Value>, whole: Value)
    requires forall i :: 0 <= i < |items| ==> items[i] < whole && WellFormed(items[i])
    ensures forall i :: 0 <= i < |items| ==> Means(NormalItems(items, whole)[i]) == Means(items[i])
    decreases whole, 0, |items|
  {
    if items != [] {
      NormalMeansTheSame(items[0]);
      NormalItemsMean(items[1..], whole);
      forall i | 0 <= i < |items| ensures Means(NormalItems(items, whole)[i]) == Means(items[i]) {
        if i > 0 {
          assert NormalItems(items, whole)[i] == NormalItems(items[1..], whole)[i - 1] && items[1..][i - 1] == items[i];
        }
      }
    }
  }

  lemma {:induction false} NormalMembersMean(members: seq<Member>, whole: Value)
    requires PartsOf(members, whole) && forall m :: m in members ==> WellFormed(m.value) && !m.value.Undefined?
    ensures MeansMembers(NormalMembers(members, whole)) == MeansMembers(members)
    decreases whole, 0, |members|
  {
    if members != [] {
      assert members[0] in members;
      NormalMeansTheSame(members[0].value);
      NormalMembersMean(members[1..], whole);
      assert NormalMembers(members, whole)[1..] == NormalMembers(members[1..], whole);
      assert !Normal(members[0].value).Undefined?;
    }
  }

  lemma ItemsMean(v: Value)
    requires v.Arr?
    ensures |Means(v).items| == |v.items| && forall i :: 0 <= i < |v.items| ==> Means(v).items[i] == Means(v.items[i])
  {
  }

  lemma {:induction false} SameMeaningPrintsAlike(a: Value, b: Value)
    requires WellFormed(a) && WellFormed(b) && Means(a) == Means(b)
    ensures Canonical(a) == Canonical(b)
    decreases a, 1, 0
  {
    match a
    case Arr(items) =>
      ItemsMean(a);
      ItemsMean(b);
      SameItemsPrintAlike(items, a, b.items, b);
    case Obj(members) =>
      EntriesMean(a.members);
      EntriesMean(b.members);
      EntriesArePartsOf(a);
      EntriesArePartsOf(b);
      EntriesAreWellFormed(a);
      EntriesAreWellFormed(b);
      SameMembersPrintAlike(Entries(a.members), a, Entries(b.members), b);
    case _ =>
  }

  lemma {:induction false} SameItemsPrintAlike(xs: seq<Value>, a: Value, ys: seq<Value>, b: Value)
    requires |xs| == |ys| && forall i :: 0 <= i < |xs| ==> Means(xs[i]) == Means(ys[i])
    requires forall i :: 0 <= i < |xs| ==> xs[i] < a && WellFormed(xs[i])
    requires forall i :: 0 <= i < |ys| ==> ys[i] < b && WellFormed(ys[i])
    ensures CanonicalItems(xs, a) == CanonicalItems(ys, b)
    decreases a, 0, |xs|
  {
    if xs != [] {
      SameMeaningPrintsAlike(xs[0], ys[0]);
      SameItemsPrintAlike(xs[1..], a, ys[1..], b);
    }
  }

  // The first of two ascending lists with the same meaning has the same key and the same meaning.
  lemma SameFirst(xs: seq<Member>, ys: seq<Member>)
    requires Ascending(xs) && Ascending(ys) && MeansMembers(xs) == MeansMembers(ys)
    requires forall m :: m in xs + ys ==> !m.value.Undefined?
    ensures xs == [] <==> ys == []
    ensures xs != [] ==> xs[0].key == ys[0].key && Means(xs[0].value) == Means(ys[0].value)
    ensures xs != [] ==> MeansMembers(xs[1..]) == MeansMembers(ys[1..])
  {
    if xs != [] {
      assert xs[0] in xs + ys;
      assert xs[0].key in MeansMembers(xs);
    }
    if ys != [] {
      assert ys[0] in xs + ys;
      assert ys[0].key in MeansMembers(ys);
      var i :| 0 <= i < |xs| && xs[i].key == ys[0].key;
      var j :| 0 <= j < |ys| && ys[j].key == xs[0].key;
      BeforeIsTotal(xs[0].key, ys[0].key);
      assert xs[0].key == ys[0].key;
      Without(xs);
      Without(ys);
    }
  }

  lemma AddedThenRemoved(m: map<Text, Meaning>, key: Text, value: Meaning)
    requires key !in m
    ensures m[key := value] - {key} == m
  {
  }

  lemma Without(xs: seq<Member>)
    requires Ascending(xs) && xs != [] && !xs[0].value.Undefined?
    ensures MeansMembers(xs) == MeansMembers(xs[1..])[xs[0].key := Means(xs[0].value)]
    ensures MeansMembers(xs[1..]) == MeansMembers(xs) - {xs[0].key}
  {
    forall i | 0 <= i < |xs[1..]| ensures xs[1..][i].key != xs[0].key {
      assert xs[1..][i] == xs[i + 1];
      BeforeIsTotal(xs[0].key, xs[i + 1].key);
    }
    AddedThenRemoved(MeansMembers(xs[1..]), xs[0].key, Means(xs[0].value));
  }

  lemma {:induction false} SameMembersPrintAlike(xs: seq<Member>, a: Value, ys: seq<Member>, b: Value)
    requires Ascending(xs) && Ascending(ys) && MeansMembers(xs) == MeansMembers(ys)
    requires PartsOf(xs, a) && PartsOf(ys, b)
    requires forall m :: m in xs + ys ==> !m.value.Undefined? && WellFormed(m.value)
    ensures |xs| == |ys| && CanonicalMembers(xs, a) == CanonicalMembers(ys, b)
    decreases a, 0, |xs|
  {
    SameFirst(xs, ys);
    if xs != [] {
      assert xs[0] in xs + ys && ys[0] in xs + ys && xs[0] in xs && ys[0] in ys;
      SameMeaningPrintsAlike(xs[0].value, ys[0].value);
      assert forall m | m in xs[1..] + ys[1..] :: m in xs + ys;
      SameMembersPrintAlike(xs[1..], a, ys[1..], b);
    }
  }

  // Two values print alike if and only if they mean the same.
  lemma PrintAlikeIffSameMeaning(a: Value, b: Value)
    requires WellFormed(a) && WellFormed(b)
    ensures Canonical(a) == Canonical(b) <==> Means(a) == Means(b)
  {
    if Canonical(a) == Canonical(b) {
      ParseUndoesCanonical(a);
      ParseUndoesCanonical(b);
      NormalMeansTheSame(a);
      NormalMeansTheSame(b);
    } else if Means(a) == Means(b) {
      SameMeaningPrintsAlike(a, b);
    }
  }

  /* ---- Depth ---- */

  function Kids(v: Value): seq<Value> {
    match v
    case Arr(items) => items
    case Obj(members) => seq(|members|, i requires 0 <= i < |members| => members[i].value)
    case _ => []
  }

  lemma KidsAreSmaller(v: Value)
    ensures forall i :: 0 <= i < |Kids(v)| ==> Kids(v)[i] < v
  {
  }

  // A scalar and an empty collection have depth 1.
  function Depth(v: Value): (d: nat)
    ensures d >= 1
    decreases v, |Kids(v)| + 1
  {
    KidsAreSmaller(v);
    1 + Deepest(Kids(v), v)
  }

  function Deepest(kids: seq<Value>, ghost whole: Value): nat
    requires forall i :: 0 <= i < |kids| ==> kids[i] < whole
    decreases whole, |kids|
  {
    if kids == [] then 0
    else
      var rest, last := Deepest(kids[..|kids| - 1], whole), Depth(kids[|kids| - 1]);
      if last > rest then last else rest
  }

  lemma {:induction false} DeepestGrows(kids: seq<Value>, whole: Value, n: nat)
    requires n <= |kids| && forall i :: 0 <= i < |kids| ==> kids[i] < whole
    ensures Deepest(kids[..n], whole) <= Deepest(kids, whole)
    decreases |kids|
  {
    if n < |kids| {
      DeepestGrows(kids[..|kids| - 1], whole, n);
      assert kids[..|kids| - 1][..n] == kids[..n];
    } else {
      assert kids[..n] == kids;
    }
  }

  // The scan says whether the limit is passed, and the exact depth when it is not; `depth` is the depth
  // of the value itself in whatever holds it.
  method JsonDepth(v: Value, limit: nat, depth: nat) returns (deepest: nat)
    requires depth >= 1
    ensures deepest > limit <==> depth - 1 + Depth(v) > limit
    ensures deepest <= limit ==> deepest == depth - 1 + Depth(v)
    ensures depth <= deepest <= depth - 1 + Depth(v)
    decreases v
  {
    if depth > limit || !(v.Arr? || v.Obj?) {
      return depth;
    }
    deepest := depth;
    var kids := Kids(v);
    KidsAreSmaller(v);
    for i := 0 to |kids|
      invariant deepest == depth + Deepest(kids[..i], v) <= limit
    {
      assert kids[..i + 1][..i] == kids[..i];
      DeepestGrows(kids, v, i + 1);
      var next := JsonDepth(kids[i], limit, depth + 1);
      if next > deepest {
        deepest := next;
      }
      if deepest > limit {
        return;
      }
    }
    assert kids[..|kids|] == kids;
  }

  /* ---- What a number is ---- */

  predicate AreDigits(t: Text) { t != [] && forall i :: 0 <= i < |t| ==> Digit(t[i]) }

  // The parts of section 6 of RFC 8259: minus, int without leading zeros, frac, exp.
  predicate Minus(t: Text) { t == [] || t == [45] }

  predicate Whole(t: Text) { AreDigits(t) && (t[0] == 48 ==> |t| == 1) }

  predicate Fraction(t: Text) { t == [] || (t[0] == 46 && AreDigits(t[1..])) }

  predicate Exponent(t: Text) {
    t == []
    || ((t[0] == 69 || t[0] == 101)
        && (AreDigits(t[1..]) || (|t| > 1 && (t[1] == 43 || t[1] == 45) && AreDigits(t[2..]))))
  }

  ghost predicate NumberOf(t: Text, minus: Text, whole: Text, fraction: Text, exponent: Text) {
    && Minus(minus) && Whole(whole) && Fraction(fraction) && Exponent(exponent)
    && t == minus + whole + fraction + exponent
  }

  // How many digits a text starts with.
  function DigitRun(t: Text): (n: nat)
    ensures n <= |t| && (forall i :: 0 <= i < n ==> Digit(t[i])) && (n < |t| ==> !Digit(t[n]))
    ensures SkipDigits(t) == t[n..]
  {
    if t != [] && Digit(t[0]) then 1 + DigitRun(t[1..]) else 0
  }

  lemma {:induction false} SkippedDigits(digits: Text, rest: Text)
    requires forall i :: 0 <= i < |digits| ==> Digit(digits[i])
    requires rest != [] ==> !Digit(rest[0])
    ensures SkipDigits(digits + rest) == rest
  {
    if digits == [] {
      assert digits + rest == rest;
    } else {
      assert (digits + rest)[1..] == digits[1..] + rest;
      SkippedDigits(digits[1..], rest);
    }
  }

  lemma AllSkipped(t: Text)
    ensures t != [] && SkipDigits(t) == [] <==> AreDigits(t)
  {
    if AreDigits(t) {
      SkippedDigits(t, []);
      assert t + [] == t;
    } else if t != [] {
      assert DigitRun(t) < |t|;
    }
  }

  lemma ExponentIs(t: Text)
    ensures IsExponent(t) <==> Exponent(t)
  {
    if t != [] {
      AllSkipped(t[1..]);
      if |t| > 1 { AllSkipped(t[2..]); }
    }
  }

  // What follows the digits of the whole part.
  lemma FractionIs(t: Text)
    ensures IsFraction(t) <==>
      exists fraction, exponent :: Fraction(fraction) && Exponent(exponent) && t == fraction + exponent
  {
    if IsFraction(t) {
      if IsExponent(t) {
        ExponentIs(t);
        assert Fraction([]) && t == [] + t;
      } else {
        var n := 1 + DigitRun(t[1..]);
        assert t[1..][..n - 1] == t[..n][1..] && t[1..][n - 1..] == t[n..];
        ExponentIs(t[n..]);
        assert Digit(t[1..][0]);
        assert Fraction(t[..n]) && t == t[..n] + t[n..];
      }
    }
    if fraction, exponent :| Fraction(fraction) && Exponent(exponent) && t == fraction + exponent {
      ExponentIs(exponent);
      if fraction == [] {
        assert t == exponent;
      } else {
        assert t[1..] == fraction[1..] + exponent && t[1] == fraction[1..][0];
        SkippedDigits(fraction[1..], exponent);
      }
    }
  }

  // The recognizer accepts exactly the numbers of the grammar.
  lemma NumberIsGrammar(t: Text)
    ensures IsNumber(t) <==>
      exists minus, whole, fraction, exponent :: NumberOf(t, minus, whole, fraction, exponent)
  {
    if IsNumber(t) { NumberHasParts(t); }
    if minus, whole, fraction, exponent :| NumberOf(t, minus, whole, fraction, exponent) {
      PartsMakeNumber(t, minus, whole, fraction, exponent);
    }
  }

  lemma WholeIsFirst(d: Text) returns (n: nat)
    requires d != [] && Digit(d[0]) && IsFraction(if d[0] == 48 then d[1..] else SkipDigits(d))
    ensures n <= |d| && Whole(d[..n]) && IsFraction(d[n..])
  {
    n := if d[0] == 48 then 1 else DigitRun(d);
  }

  lemma NumberHasParts(t: Text)
    requires IsNumber(t)
    ensures exists minus, whole, fraction, exponent :: NumberOf(t, minus, whole, fraction, exponent)
  {
    var m := if t[0] == 45 then 1 else 0;
    var d := t[m..];
    var n := WholeIsFirst(d);
    FractionIs(d[n..]);
    var fraction, exponent :| Fraction(fraction) && Exponent(exponent) && d[n..] == fraction + exponent;
    PartsJoin(t, m, n, fraction, exponent);
    assert NumberOf(t, t[..m], d[..n], fraction, exponent);
  }

  lemma PartsJoin(t: Text, m: nat, n: nat, fraction: Text, exponent: Text)
    requires m <= |t| && n <= |t[m..]| && t[m..][n..] == fraction + exponent
    ensures t == t[..m] + t[m..][..n] + fraction + exponent
  {
    assert t == t[..m] + (t[m..][..n] + t[m..][n..]);
  }

  lemma UnsignedNumber(whole: Text, fraction: Text, exponent: Text)
    requires Whole(whole) && Fraction(fraction) && Exponent(exponent)
    ensures var d := whole + (fraction + exponent);
      Digit(d[0]) && IsFraction(if d[0] == 48 then d[1..] else SkipDigits(d))
  {
    assert fraction + exponent != [] ==> !Digit((fraction + exponent)[0]);
    FractionIs(fraction + exponent);
    WholeIsSkipped(whole, fraction + exponent);
  }

  lemma PartsMakeNumber(t: Text, minus: Text, whole: Text, fraction: Text, exponent: Text)
    requires NumberOf(t, minus, whole, fraction, exponent)
    ensures IsNumber(t)
  {
    var d := whole + (fraction + exponent);
    UnsignedNumber(whole, fraction, exponent);
    UnitsOfParts(minus, whole, fraction, exponent);
    SignedNumber(minus, d);
    assert t == minus + d;
  }

  lemma SignedNumber(minus: Text, d: Text)
    requires Minus(minus) && d != [] && Digit(d[0])
    requires IsFraction(if d[0] == 48 then d[1..] else SkipDigits(d))
    requires forall i :: 0 <= i < |minus + d| ==> NumberUnit((minus + d)[i])
    ensures IsNumber(minus + d)
  {
    assert minus == [] ==> minus + d == d;
    assert minus != [] ==> (minus + d)[1..] == d;
  }

  lemma UnitsOfParts(minus: Text, whole: Text, fraction: Text, exponent: Text)
    requires Minus(minus) && Whole(whole) && Fraction(fraction) && Exponent(exponent)
    ensures var t := minus + (whole + (fraction + exponent)); forall i :: 0 <= i < |t| ==> NumberUnit(t[i])
  {
    PartsAreUnits(fraction, exponent);
    var t := minus + (whole + (fraction + exponent));
    forall i | 0 <= i < |t| ensures NumberUnit(t[i]) {
      assert t[i] in minus || t[i] in whole || t[i] in fraction + exponent;
    }
  }

  lemma WholeIsSkipped(whole: Text, tail: Text)
    requires Whole(whole) && (tail != [] ==> !Digit(tail[0]))
    ensures (if whole[0] == 48 then (whole + tail)[1..] else SkipDigits(whole + tail)) == tail
  {
    SkippedDigits(whole, tail);
  }

  lemma PartsAreUnits(fraction: Text, exponent: Text)
    requires Fraction(fraction) && Exponent(exponent)
    ensures forall u :: u in fraction + exponent ==> NumberUnit(u)
  {
    assert fraction == [] || fraction == [46] + fraction[1..];
    ExponentUnits(exponent);
  }

  lemma ExponentUnits(exponent: Text)
    requires Exponent(exponent)
    ensures forall i :: 0 <= i < |exponent| ==> NumberUnit(exponent[i])
  {
    forall i | 0 <= i < |exponent| ensures NumberUnit(exponent[i]) {
      if i > 1 {
        assert exponent[i] == exponent[1..][i - 1] == exponent[2..][i - 2];
      } else if i == 1 {
        assert exponent[i] == exponent[1..][0];
      }
    }
  }
}
