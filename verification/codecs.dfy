/** Values packed into opaque words: canonical text, as UTF-8, in base64url. */
module Codecs {
  import opened Wrappers
  import opened JsonValues
  import opened JsonRoundTrip
  import opened JsonMeaning
  import opened Encodings

  const STOP: Unit := 46

  function Pack(v: Value): Text { Base64(Utf8(Canonical(v))) }

  function Unpack(t: Text): Option<Value> {
    var bytes := FromBase64(t);
    if bytes.None? then None
    else
      var text := FromUtf8(bytes.value);
      if text.None? then None
      else
        var v := Parse(text.value);
        if v.Failed? then None else Some(v.value)
  }

  /* ---- Canonical text has no lone surrogate ---- */

  lemma {:induction false} CanonicalIsPaired(v: Value)
    requires WellFormed(v)
    ensures Paired(Canonical(v))
    decreases v, 1, 0
  {
    match v
    case Num(token) =>
      assert forall i | 0 <= i < |token| :: NumberUnit(token[i]);
      PlainIsPaired(token);
    case Str(text) => QuotedIsPaired(text);
    case Arr(items) =>
      ItemsArePaired(items, v);
      Enclosed(OPEN_BRACKET, CanonicalItems(items, v), CLOSE_BRACKET);
    case Obj(members) =>
      EntriesArePartsOf(v);
      EntriesAreWellFormed(v);
      MembersArePaired(Entries(members), v);
      Enclosed(OPEN_BRACE, CanonicalMembers(Entries(members), v), CLOSE_BRACE);
    case _ => PlainIsPaired(Canonical(v));
  }

  lemma Enclosed(open: Unit, t: Text, close: Unit)
    requires Paired(t) && open < 0xD800 && close < 0xD800
    ensures Paired([open] + t + [close])
  {
    PairedConcat([open], t);
    PairedConcat([open] + t, [close]);
  }

  lemma QuotedIsPaired(t: Text)
    ensures Paired(Quoted(t))
  {
    EscapedIsPaired(t);
    Enclosed(QUOTE, Escaped(t), QUOTE);
  }

  lemma Spliced(a: Text, mark: Unit, b: Text)
    requires Paired(a) && Paired(b) && mark < 0xD800
    ensures Paired(a + [mark] + b)
  {
    PairedConcat(a, [mark]);
    PairedConcat(a + [mark], b);
  }

  lemma {:induction false} ItemsArePaired(items: seq<Value>, whole: Value)
    requires forall i :: 0 <= i < |items| ==> items[i] < whole && WellFormed(items[i])
    ensures Paired(CanonicalItems(items, whole))
    decreases whole, 0, |items|
  {
    if items != [] {
      CanonicalIsPaired(items[0]);
      ItemsArePaired(items[1..], whole);
      Spliced(Canonical(items[0]), COMMA, CanonicalItems(items[1..], whole));
    }
  }

  lemma {:induction false} MembersArePaired(members: seq<Member>, whole: Value)
    requires PartsOf(members, whole) && forall m :: m in members ==> WellFormed(m.value)
    ensures Paired(CanonicalMembers(members, whole))
    decreases whole, 0, |members|
  {
    if members != [] {
      assert members[0] in members;
      CanonicalIsPaired(members[0].value);
      QuotedIsPaired(members[0].key);
      Spliced(Quoted(members[0].key), COLON, Canonical(members[0].value));
      MembersArePaired(members[1..], whole);
      Spliced(CanonicalMember(members[0], whole), COMMA, CanonicalMembers(members[1..], whole));
    }
  }

  /* ---- How strings are written ---- */

  lemma EscapedSplits(t: Text)
    requires t != []
    ensures |Escaped(t)| <= |EscapeUnit(t[0])| + |Escaped(t[1..])|
  {
    if HighSurrogate(t[0]) && |t| > 1 && LowSurrogate(t[1]) { assert t[1..][1..] == t[2..]; }
  }

  lemma {:induction false} PairedSkip(s: Text, n: nat)
    requires Paired(s) && n <= |s| && forall i :: 0 <= i < n ==> !HighSurrogate(s[i])
    ensures Paired(s[n..])
  {
    if n > 0 {
      PairedSkip(s[1..], n - 1);
      assert s[1..][n - 1..] == s[n..];
    }
  }

  // What one escape takes up is no less than what is written for its unit.
  lemma EscapesAreLonger(s: Text)
    requires ParseEscape(s).Parsed?
    ensures var r := ParseEscape(s); var n := |s| - |r.rest|;
      && r.rest == s[n..] && |EscapeUnit(r.value)| <= n + 1 && forall i :: 0 <= i < n ==> !HighSurrogate(s[i])
  {
  }

  // No text without lone surrogates that reads as t, up to the closing quote, is shorter than what is written.
  lemma {:induction false} WrittenIsShortest(s: Text, t: Text)
    requires Paired(s) && ParseString(s) == Parsed(t, [])
    ensures |Escaped(t)| + 1 <= |s|
    decreases |s|
  {
    if s[0] == QUOTE {
    } else if s[0] == BACKSLASH {
      EscapesAreLonger(s[1..]);
      var n := |s| - |ParseEscape(s[1..]).rest|;
      assert s[n..] == ParseEscape(s[1..]).rest;
      PairedSkip(s, n);
      WrittenIsShortest(s[n..], t[1..]);
      EscapedSplits(t);
    } else if HighSurrogate(s[0]) {
      assert t[1..][1..] == t[2..] && s[1..][1..] == s[2..];
      WrittenIsShortest(s[2..], t[2..]);
    } else {
      WrittenIsShortest(s[1..], t[1..]);
      EscapedSplits(t);
    }
  }

  // Escapes are written in lower case: a capital letter stands for itself.
  lemma {:induction false} CapitalsAreOwn(t: Text, u: Unit)
    requires u in Escaped(t) && 65 <= u <= 90
    ensures u in t
    decreases |t|
  {
    if HighSurrogate(t[0]) && |t| > 1 && LowSurrogate(t[1]) {
      if u !in t[..2] { CapitalsAreOwn(t[2..], u); }
    } else if u !in EscapeUnit(t[0]) {
      CapitalsAreOwn(t[1..], u);
    }
  }

  // Any value survives packing, up to its normal form, and the word never contains the separator.
  lemma PackRoundTrip(v: Value)
    requires WellFormed(v)
    ensures Unpack(Pack(v)) == Some(Normal(v))
    ensures STOP !in Pack(v) && Pack(v) != []
  {
    CanonicalIsPaired(v);
    PairedSurvives(Canonical(v));
    Base64RoundTrip(Utf8(Canonical(v)));
    Base64HasNoStop(Utf8(Canonical(v)));
    ParseUndoesCanonical(v);
    CanonicalStarts(v);
  }

  /* ---- Reading members ---- */

  // The last member with the key counts.
  function Lookup(members: seq<Member>, key: Text): Option<Value> {
    if members == [] then None
    else
      var last := |members| - 1;
      if members[last].key == key then Some(members[last].value) else Lookup(members[..last], key)
  }

  lemma {:induction false} LookupFinds(members: seq<Member>, i: nat)
    requires DistinctKeys(members) && i < |members|
    ensures Lookup(members, members[i].key) == Some(members[i].value)
  {
    if i < |members| - 1 { LookupFinds(members[..|members| - 1], i); }
  }

  lemma {:induction false} LookupMisses(members: seq<Member>, key: Text)
    requires NewKey(key, members)
    ensures Lookup(members, key).None?
  {
    if members != [] { LookupMisses(members[..|members| - 1], key); }
  }

  lemma {:induction false} DefinedHolds(members: seq<Member>, m: Member)
    requires m in members && !m.value.Undefined?
    ensures m in Defined(members)
  {
    assert members == [members[0]] + members[1..];
    if m != members[0] { DefinedHolds(members[1..], m); }
  }

  lemma {:induction false} NormalMembersAt(members: seq<Member>, whole: Value, i: nat)
    requires PartsOf(members, whole) && i < |members|
    ensures members[i] in members
    ensures NormalMembers(members, whole)[i] == Member(members[i].key, Normal(members[i].value))
  {
    assert members[0] in members;
    if i > 0 { NormalMembersAt(members[1..], whole, i - 1); }
  }

  lemma NormalKeysAreDistinct(v: Value)
    requires v.Obj? && WellFormed(v)
    ensures DistinctKeys(Normal(v).members)
  {
    var entries := Entries(v.members);
    EntriesMean(v.members);
    EntriesArePartsOf(v);
    forall i, j | 0 <= i < j < |entries| ensures Normal(v).members[i].key != Normal(v).members[j].key {
      NormalMembersAt(entries, v, i);
      NormalMembersAt(entries, v, j);
      BeforeIsTotal(entries[i].key, entries[j].key);
    }
  }

  // A defined member is found again, in normal form.
  lemma MemberSurvives(v: Value, i: nat)
    requires v.Obj? && WellFormed(v) && i < |v.members| && !v.members[i].value.Undefined?
    ensures Lookup(Normal(v).members, v.members[i].key) == Some(Normal(v.members[i].value))
  {
    var entries := Entries(v.members);
    EntriesArePartsOf(v);
    DefinedHolds(v.members, v.members[i]);
    assert v.members[i] in entries;
    var k :| 0 <= k < |entries| && entries[k] == v.members[i];
    NormalMembersAt(entries, v, k);
    NormalKeysAreDistinct(v);
    LookupFinds(Normal(v).members, k);
  }

  lemma AbsentStaysAbsent(v: Value, key: Text)
    requires v.Obj? && WellFormed(v) && NewKey(key, v.members)
    ensures Lookup(Normal(v).members, key).None?
  {
    var entries := Entries(v.members);
    EntriesArePartsOf(v);
    forall k | 0 <= k < |entries| ensures Normal(v).members[k].key != key {
      NormalMembersAt(entries, v, k);
      var i :| 0 <= i < |v.members| && v.members[i] == entries[k];
    }
    LookupMisses(Normal(v).members, key);
  }

  /* ---- Natural numbers as the runtime prints them ---- */

  function Decimal(n: nat): Text {
    if n < 10 then [48 + n] else Decimal(n / 10) + [48 + n % 10]
  }

  predicate AllDigits(t: Text) { forall i :: 0 <= i < |t| ==> Digit(t[i]) }

  function ValueOf(t: Text): nat
    requires AllDigits(t)
  {
    if t == [] then 0 else ValueOf(t[..|t| - 1]) * 10 + (t[|t| - 1] as int - 48)
  }

  // None for a number that is not written as a natural number.
  function Natural(t: Text): Option<nat> {
    if t != [] && AllDigits(t) then Some(ValueOf(t)) else None
  }

  lemma {:induction false} DecimalRoundTrip(n: nat)
    ensures AllDigits(Decimal(n)) && Decimal(n) != [] && ValueOf(Decimal(n)) == n
    ensures n > 0 ==> Decimal(n)[0] != 48
  {
    if n >= 10 {
      DecimalRoundTrip(n / 10);
      assert Decimal(n)[..|Decimal(n)| - 1] == Decimal(n / 10);
    } else {
      assert Decimal(n)[..0] == [];
    }
  }

  lemma {:induction false} DigitsSkip(t: Text)
    requires AllDigits(t)
    ensures SkipDigits(t) == []
  {
    if t != [] { DigitsSkip(t[1..]); }
  }

  lemma DecimalIsNumber(n: nat)
    ensures IsNumber(Decimal(n)) && Natural(Decimal(n)) == Some(n)
  {
    DecimalRoundTrip(n);
    var t := Decimal(n);
    assert forall i | 0 <= i < |t| :: NumberUnit(t[i]);
    DigitsSkip(t);
    if n < 10 { assert t == [48 + n] && t[1..] == []; }
  }
}
