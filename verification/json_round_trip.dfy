/**
 Canonical text is unambiguous: parsing it gives back the value with its keys sorted and its holes
 filled, and two values print alike exactly when they mean the same up to the order of keys.
 */
module JsonRoundTrip {
  import opened JsonValues

  // Distinct keys, as in any object, and number texts that are numbers.
  predicate WellFormed(v: Value) {
    match v
    case Num(token) => IsNumber(token)
    case Arr(items) => forall i :: 0 <= i < |items| ==> WellFormed(items[i])
    case Obj(members) =>
      && (forall i :: 0 <= i < |members| ==> WellFormed(members[i].value))
      && DistinctKeys(members)
    case _ => true
  }

  predicate DistinctKeys(members: seq<Member>) {
    forall i, j :: 0 <= i < j < |members| ==> members[i].key != members[j].key
  }

  // What parsing the canonical text gives back.
  function Normal(v: Value): Value
    decreases v, 1, 0
  {
    match v
    case Undefined => Null
    case NotFinite => Null
    case Arr(items) => Arr(NormalItems(items, v))
    case Obj(members) =>
      EntriesArePartsOf(v);
      Obj(NormalMembers(Entries(members), v))
    case _ => v
  }

  function NormalItems(items: seq<Value>, ghost whole: Value): (r: seq<Value>)
    requires forall i :: 0 <= i < |items| ==> items[i] < whole
    ensures |r| == |items|
    decreases whole, 0, |items|
  {
    if items == [] then [] else [Normal(items[0])] + NormalItems(items[1..], whole)
  }

  function NormalMembers(members: seq<Member>, ghost whole: Value): (r: seq<Member>)
    requires PartsOf(members, whole)
    ensures |r| == |members|
    decreases whole, 0, |members|
  {
    if members == [] then []
    else
      assert members[0] in members;
      [Member(members[0].key, Normal(members[0].value))] + NormalMembers(members[1..], whole)
  }

  /* ---- Strings ---- */

  lemma HexRoundTrip(u: Unit, rest: Text)
    ensures ParseHex(UnicodeEscape(u)[2..] + rest) == Parsed(u, rest)
  {
    var s := UnicodeEscape(u)[2..] + rest;
    assert s[0] == HexDigit(u / 4096) && s[1] == HexDigit(u / 256 % 16) && s[2] == HexDigit(u / 16 % 16)
      && s[3] == HexDigit(u % 16);
    HexDigits(u);
    assert s[4..] == rest;
  }

  lemma HexDigits(u: Unit)
    ensures ((u / 4096 * 16 + u / 256 % 16) * 16 + u / 16 % 16) * 16 + u % 16 == u
  {
    assert u / 16 / 16 == u / 256 && u / 256 / 16 == u / 4096;
  }

  lemma UnitRoundTrip(u: Unit, rest: Text)
    ensures EscapeUnit(u) != [] && EscapeUnit(u)[0] >= 32 && EscapeUnit(u)[0] != QUOTE
    ensures if EscapeUnit(u)[0] == BACKSLASH
            then ParseEscape(EscapeUnit(u)[1..] + rest) == Parsed(u, rest)
            else EscapeUnit(u) == [u]
  {
    var e := EscapeUnit(u);
    if e[0] == BACKSLASH {
      var s := e[1..] + rest;
      if |e| == 2 {
        assert s[0] == e[1] && s[1..] == rest;
      } else {
        assert s[0] == 117 && s[1..] == UnicodeEscape(u)[2..] + rest;
        HexRoundTrip(u, rest);
      }
    }
  }

  lemma Assoc(a: Text, b: Text, c: Text)
    ensures a + b + c == a + (b + c)
  {
  }

  lemma Assoc5(a: Text, b: Text, c: Text, d: Text, e: Text)
    ensures a + b + c + d + e == a + (b + (c + d + e))
  {
  }

  lemma Tail(u: Unit, t: Text)
    ensures ([u] + t)[0] == u && ([u] + t)[1..] == t
  {
  }

  // One unit of a string, escaped or raw, then the rest of it.
  lemma RawUnit(u: Unit, tail: Text, more: Text, rest: Text)
    requires u >= 32 && u != QUOTE && u != BACKSLASH && ParseString(tail) == Parsed(more, rest)
    ensures ParseString([u] + tail) == Parsed([u] + more, rest)
  {
    Tail(u, tail);
  }

  lemma EscapedUnit(u: Unit, tail: Text, more: Text, rest: Text)
    requires ParseString(tail) == Parsed(more, rest)
    ensures ParseString(EscapeUnit(u) + tail) == Parsed([u] + more, rest)
  {
    var e := EscapeUnit(u);
    UnitRoundTrip(u, tail);
    if e[0] == BACKSLASH {
      assert (e + tail)[0] == e[0] && (e + tail)[1..] == e[1..] + tail;
    } else {
      RawUnit(u, tail, more, rest);
    }
  }

  lemma PairUnits(a: Unit, b: Unit, escaped: Text, end: Text, more: Text, rest: Text)
    requires HighSurrogate(a) && LowSurrogate(b) && ParseString(escaped + end) == Parsed(more, rest)
    ensures ParseString([a, b] + escaped + end) == Parsed([a, b] + more, rest)
  {
    RawUnit(b, escaped + end, more, rest);
    RawUnit(a, [b] + (escaped + end), [b] + more, rest);
    assert [a, b] + escaped + end == [a] + ([b] + (escaped + end));
    assert [a, b] + more == [a] + ([b] + more);
  }

  lemma {:induction false} StringRoundTrip(t: Text, rest: Text)
    ensures ParseString(Escaped(t) + ([QUOTE] + rest)) == Parsed(t, rest)
    decreases |t|
  {
    var end := [QUOTE] + rest;
    if t == [] {
      Tail(QUOTE, rest);
      assert Escaped(t) + end == end;
    } else if HighSurrogate(t[0]) && |t| > 1 && LowSurrogate(t[1]) {
      StringRoundTrip(t[2..], rest);
      PairUnits(t[0], t[1], Escaped(t[2..]), end, t[2..], rest);
      assert t[..2] == [t[0], t[1]] && t == [t[0], t[1]] + t[2..];
    } else {
      StringRoundTrip(t[1..], rest);
      EscapedUnit(t[0], Escaped(t[1..]) + end, t[1..], rest);
      Assoc(EscapeUnit(t[0]), Escaped(t[1..]), end);
      assert t == [t[0]] + t[1..];
    }
  }

  lemma QuotedRoundTrip(t: Text, rest: Text)
    ensures (Quoted(t) + rest)[0] == QUOTE && ParseString((Quoted(t) + rest)[1..]) == Parsed(t, rest)
  {
    StringRoundTrip(t, rest);
    assert (Quoted(t) + rest)[1..] == Escaped(t) + ([QUOTE] + rest);
  }

  /* ---- Values ---- */

  // What may follow a value: nothing that could continue a number.
  predicate Stops(rest: Text) { rest == [] || !NumberUnit(rest[0]) }

  lemma {:induction false} RunIs(token: Text, rest: Text)
    requires Stops(rest) && forall i :: 0 <= i < |token| ==> NumberUnit(token[i])
    ensures NumberRun(token + rest) == |token|
  {
    if token == [] {
      assert token + rest == rest;
    } else {
      RunIs(token[1..], rest);
      assert (token + rest)[1..] == token[1..] + rest;
    }
  }

  lemma NumberStartsNoWord(s: Text)
    requires s != [] && NumberUnit(s[0])
    ensures s[0] != QUOTE && s[0] != OPEN_BRACKET && s[0] != OPEN_BRACE
    ensures !StartsWith(s, NULL) && !StartsWith(s, TRUE) && !StartsWith(s, FALSE)
  {
    assert |s| >= 4 ==> s[..4][0] == s[0];
    assert |s| >= 5 ==> s[..5][0] == s[0];
  }

  lemma NumberIsParsed(s: Text, n: nat)
    requires n == NumberRun(s) && IsNumber(s[..n])
    ensures ParseValue(s) == Parsed(Num(s[..n]), s[n..])
  {
    assert s != [] && NumberUnit(s[0]) by {
      assert s[..n][0] == s[0];
    }
    NumberStartsNoWord(s);
  }

  lemma NumberRoundTrip(token: Text, rest: Text)
    requires IsNumber(token) && Stops(rest)
    ensures ParseValue(token + rest) == Parsed(Num(token), rest)
  {
    var s := token + rest;
    RunIs(token, rest);
    assert s[..|token|] == token && s[|token|..] == rest;
    NumberIsParsed(s, |token|);
  }

  lemma WordRoundTrip(v: Value, rest: Text)
    requires v.Undefined? || v.Null? || v.Bool? || v.NotFinite?
    ensures ParseValue(Canonical(v) + rest) == Parsed(Normal(v), rest)
  {
    var word := Canonical(v);
    var s := word + rest;
    assert s[..|word|] == word && s[|word|..] == rest;
    assert s[0] == word[0];
    if word == TRUE { assert s[..4][0] == 116; } else if word == FALSE { assert s[..4][0] == 102; }
  }

  // The first unit of a value tells it from a closing bracket or brace.
  lemma CanonicalStarts(v: Value)
    requires WellFormed(v)
    ensures Canonical(v) != [] && Canonical(v)[0] != CLOSE_BRACKET && Canonical(v)[0] != CLOSE_BRACE
  {
    if v.Num? { assert NumberUnit(v.token[0]); }
  }

  lemma {:induction false} ValueRoundTrip(v: Value, rest: Text)
    requires WellFormed(v) && Stops(rest)
    ensures ParseValue(Canonical(v) + rest) == Parsed(Normal(v), rest)
    decreases v, 1, 0
  {
    match v
    case Num(token) => NumberRoundTrip(token, rest);
    case Str(text) => QuotedRoundTrip(text, rest);
    case Arr(items) => ArrayRoundTrip(v, rest);
    case Obj(members) => ObjectRoundTrip(v, rest);
    case _ => WordRoundTrip(v, rest);
  }

  lemma LastItem(head: Text, first: Value, rest: Text)
    requires ParseValue(head + ([CLOSE_BRACKET] + rest)) == Parsed(first, [CLOSE_BRACKET] + rest)
    ensures ParseItems(head + ([CLOSE_BRACKET] + rest)) == Parsed([first], rest)
  {
    Tail(CLOSE_BRACKET, rest);
  }

  lemma NextItem(head: Text, first: Value, tail: Text, more: seq<Value>, rest: Text)
    requires ParseValue(head + ([COMMA] + tail)) == Parsed(first, [COMMA] + tail)
    requires ParseItems(tail) == Parsed(more, rest)
    ensures ParseItems(head + ([COMMA] + tail)) == Parsed([first] + more, rest)
  {
    Tail(COMMA, tail);
  }

  lemma LastMember(head: Text, first: Member, rest: Text)
    requires ParseMember(head + ([CLOSE_BRACE] + rest)) == Parsed(first, [CLOSE_BRACE] + rest)
    ensures ParseMembers(head + ([CLOSE_BRACE] + rest)) == Parsed([first], rest)
  {
    Tail(CLOSE_BRACE, rest);
  }

  lemma NextMember(head: Text, first: Member, tail: Text, more: seq<Member>, rest: Text)
    requires ParseMember(head + ([COMMA] + tail)) == Parsed(first, [COMMA] + tail)
    requires ParseMembers(tail) == Parsed(more, rest)
    ensures ParseMembers(head + ([COMMA] + tail)) == Parsed([first] + more, rest)
  {
    Tail(COMMA, tail);
  }

  // A bracketed body that does not close at once.
  lemma Brackets(body: Text, items: seq<Value>, rest: Text)
    requires ParseItems(body) == Parsed(items, rest) && body != [] && body[0] != CLOSE_BRACKET
    ensures ParseValue([OPEN_BRACKET] + body) == Parsed(Arr(items), rest)
  {
    Tail(OPEN_BRACKET, body);
  }

  lemma Braces(body: Text, members: seq<Member>, rest: Text)
    requires ParseMembers(body) == Parsed(members, rest) && body != [] && body[0] != CLOSE_BRACE
    ensures ParseValue([OPEN_BRACE] + body) == Parsed(Obj(members), rest)
  {
    Tail(OPEN_BRACE, body);
  }

  lemma EmptyBrackets(rest: Text)
    ensures ParseValue([OPEN_BRACKET] + [] + [CLOSE_BRACKET] + rest) == Parsed(Arr([]), rest)
    ensures ParseValue([OPEN_BRACE] + [] + [CLOSE_BRACE] + rest) == Parsed(Obj([]), rest)
  {
    var s, t := [OPEN_BRACKET] + [] + [CLOSE_BRACKET] + rest, [OPEN_BRACE] + [] + [CLOSE_BRACE] + rest;
    assert |s| > 1 && s[0] == OPEN_BRACKET && s[1] == CLOSE_BRACKET && s[2..] == rest;
    assert |t| > 1 && t[0] == OPEN_BRACE && t[1] == CLOSE_BRACE && t[2..] == rest;
  }

  // [a] + b + [c] + d, regrouped.
  lemma Wrap(a: Text, b: Text, c: Text, d: Text)
    ensures a + b + c + d == a + (b + c + d) && b + c + d == b + (c + d)
  {
  }

  lemma {:induction false} ArrayRoundTrip(v: Value, rest: Text)
    requires v.Arr? && WellFormed(v)
    ensures ParseValue(Canonical(v) + rest) == Parsed(Normal(v), rest)
    decreases v, 0, |v.items| + 1
  {
    if v.items == [] {
      EmptyBrackets(rest);
    } else {
      ItemsRoundTrip(v.items, v, rest);
      Wrap([OPEN_BRACKET], CanonicalItems(v.items, v), [CLOSE_BRACKET], rest);
      Brackets(CanonicalItems(v.items, v) + [CLOSE_BRACKET] + rest, NormalItems(v.items, v), rest);
    }
  }

  lemma {:induction false} ItemsRoundTrip(items: seq<Value>, whole: Value, rest: Text)
    requires items != [] && forall i :: 0 <= i < |items| ==> items[i] < whole && WellFormed(items[i])
    ensures var s := CanonicalItems(items, whole) + [CLOSE_BRACKET] + rest;
      ParseItems(s) == Parsed(NormalItems(items, whole), rest) && s[0] != CLOSE_BRACKET
    decreases whole, 0, |items|
  {
    CanonicalStarts(items[0]);
    var head, first := Canonical(items[0]), Normal(items[0]);
    if |items| == 1 {
      ValueRoundTrip(items[0], [CLOSE_BRACKET] + rest);
      LastItem(head, first, rest);
      Assoc(head, [CLOSE_BRACKET], rest);
      assert NormalItems(items[1..], whole) == [] && [first] + NormalItems(items[1..], whole) == [first];
    } else {
      var body := CanonicalItems(items[1..], whole);
      ItemsRoundTrip(items[1..], whole, rest);
      ValueRoundTrip(items[0], [COMMA] + (body + [CLOSE_BRACKET] + rest));
      NextItem(head, first, body + [CLOSE_BRACKET] + rest, NormalItems(items[1..], whole), rest);
      Assoc5(head, [COMMA], body, [CLOSE_BRACKET], rest);
    }
  }

  lemma EntriesAreWellFormed(v: Value)
    requires v.Obj? && WellFormed(v)
    ensures forall m :: m in Entries(v.members) ==> WellFormed(m.value)
  {
    forall m | m in Entries(v.members) ensures WellFormed(m.value) {
      var i :| 0 <= i < |v.members| && v.members[i] == m;
    }
  }

  lemma {:induction false} ObjectRoundTrip(v: Value, rest: Text)
    requires v.Obj? && WellFormed(v)
    ensures ParseValue(Canonical(v) + rest) == Parsed(Normal(v), rest)
    decreases v, 0, |Entries(v.members)| + 1
  {
    var entries := Entries(v.members);
    EntriesArePartsOf(v);
    EntriesAreWellFormed(v);
    if entries == [] {
      EmptyBrackets(rest);
    } else {
      MembersRoundTrip(entries, v, rest);
      Wrap([OPEN_BRACE], CanonicalMembers(entries, v), [CLOSE_BRACE], rest);
      Braces(CanonicalMembers(entries, v) + [CLOSE_BRACE] + rest, NormalMembers(entries, v), rest);
    }
  }

  // a + [c] + b + d, regrouped.
  lemma Regroup(a: Text, c: Text, b: Text, d: Text)
    ensures a + c + b + d == a + (c + (b + d))
  {
  }

  lemma {:induction false} MemberRoundTrip(m: Member, whole: Value, after: Text)
    requires m.value < whole && WellFormed(m.value) && Stops(after)
    ensures ParseMember(CanonicalMember(m, whole) + after) == Parsed(Member(m.key, Normal(m.value)), after)
    ensures (CanonicalMember(m, whole) + after)[0] == QUOTE
    decreases whole, 0, 0
  {
    ValueRoundTrip(m.value, after);
    QuotedRoundTrip(m.key, [COLON] + (Canonical(m.value) + after));
    var body := Canonical(m.value) + after;
    Tail(COLON, body);
    Regroup(Quoted(m.key), [COLON], Canonical(m.value), after);
  }

  lemma {:induction false} MembersRoundTrip(members: seq<Member>, whole: Value, rest: Text)
    requires members != [] && PartsOf(members, whole) && forall m :: m in members ==> WellFormed(m.value)
    ensures var s := CanonicalMembers(members, whole) + [CLOSE_BRACE] + rest;
      ParseMembers(s) == Parsed(NormalMembers(members, whole), rest) && s[0] == QUOTE
    decreases whole, 0, |members|
  {
    assert members[0] in members;
    var head, first := CanonicalMember(members[0], whole), Member(members[0].key, Normal(members[0].value));
    if |members| == 1 {
      MemberRoundTrip(members[0], whole, [CLOSE_BRACE] + rest);
      LastMember(head, first, rest);
      Assoc(head, [CLOSE_BRACE], rest);
      assert NormalMembers(members[1..], whole) == [] && [first] + NormalMembers(members[1..], whole) == [first];
    } else {
      var body := CanonicalMembers(members[1..], whole);
      MembersRoundTrip(members[1..], whole, rest);
      MemberRoundTrip(members[0], whole, [COMMA] + (body + [CLOSE_BRACE] + rest));
      NextMember(head, first, body + [CLOSE_BRACE] + rest, NormalMembers(members[1..], whole), rest);
      Assoc5(head, [COMMA], body, [CLOSE_BRACE], rest);
    }
  }

  // Parsing the canonical text gives the normal form.
  lemma ParseUndoesCanonical(v: Value)
    requires WellFormed(v)
    ensures Parse(Canonical(v)) == Parsed(Normal(v), [])
  {
    ValueRoundTrip(v, []);
    assert Canonical(v) + [] == Canonical(v);
  }
}
