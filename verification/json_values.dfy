/**
 JSON values as the program holds them, their canonical text, and a parser for that text (RFC 8259).
 Text is a sequence of UTF-16 code units.
 */
module JsonValues {
  type Unit = u: nat | u < 0x10000
  type Text = seq<Unit>

  // Numbers are carried by the text the runtime prints for them; a number that is not finite has none.
  datatype Value =
    | Undefined | Null | Bool(b: bool) | Num(token: Text) | NotFinite | Str(text: Text)
    | Arr(items: seq<Value>) | Obj(members: seq<Member>)
  datatype Member = Member(key: Text, value: Value)

  const QUOTE: Unit := 34
  const COMMA: Unit := 44
  const COLON: Unit := 58
  const OPEN_BRACKET: Unit := 91
  const BACKSLASH: Unit := 92
  const CLOSE_BRACKET: Unit := 93
  const OPEN_BRACE: Unit := 123
  const CLOSE_BRACE: Unit := 125
  const NULL: Text := [110, 117, 108, 108]
  const TRUE: Text := [116, 114, 117, 101]
  const FALSE: Text := [102, 97, 108, 115, 101]

  /* ---- Numbers: section 6 of RFC 8259 ---- */

  predicate Digit(u: Unit) { 48 <= u <= 57 }

  predicate NumberUnit(u: Unit) { Digit(u) || u == 43 || u == 45 || u == 46 || u == 69 || u == 101 }

  function SkipDigits(t: Text): (r: Text)
    ensures |r| <= |t|
  {
    if t != [] && Digit(t[0]) then SkipDigits(t[1..]) else t
  }

  predicate IsExponent(t: Text) {
    t == []
    || (|t| >= 2 && (t[0] == 69 || t[0] == 101)
        && var d := if t[1] == 43 || t[1] == 45 then t[2..] else t[1..];
           d != [] && SkipDigits(d) == [])
  }

  predicate IsFraction(t: Text) {
    IsExponent(t) || (|t| >= 2 && t[0] == 46 && Digit(t[1]) && IsExponent(SkipDigits(t[1..])))
  }

  // [ minus ] int [ frac ] [ exp ]
  predicate IsNumber(t: Text) {
    && (forall i :: 0 <= i < |t| ==> NumberUnit(t[i]))
    && var d := if t != [] && t[0] == 45 then t[1..] else t;
       d != [] && Digit(d[0]) && IsFraction(if d[0] == 48 then d[1..] else SkipDigits(d))
  }

  /* ---- Strings: section 7 of RFC 8259 ---- */

  predicate HighSurrogate(u: Unit) { 0xD800 <= u <= 0xDBFF }
  predicate LowSurrogate(u: Unit) { 0xDC00 <= u <= 0xDFFF }

  function HexDigit(d: nat): Unit
    requires d < 16
  {
    if d < 10 then 48 + d else 87 + d
  }

  function UnicodeEscape(u: Unit): Text {
    [BACKSLASH, 117, HexDigit(u / 4096), HexDigit(u / 256 % 16), HexDigit(u / 16 % 16), HexDigit(u % 16)]
  }

  function EscapeUnit(u: Unit): Text {
    if u == 8 then [BACKSLASH, 98]
    else if u == 9 then [BACKSLASH, 116]
    else if u == 10 then [BACKSLASH, 110]
    else if u == 12 then [BACKSLASH, 102]
    else if u == 13 then [BACKSLASH, 114]
    else if u == QUOTE || u == BACKSLASH then [BACKSLASH, u]
    else if u < 32 || HighSurrogate(u) || LowSurrogate(u) then UnicodeEscape(u)
    else [u]
  }

  // A surrogate pair stands for itself, a lone surrogate is escaped.
  function Escaped(t: Text): Text {
    if t == [] then []
    else if HighSurrogate(t[0]) && |t| > 1 && LowSurrogate(t[1]) then t[..2] + Escaped(t[2..])
    else EscapeUnit(t[0]) + Escaped(t[1..])
  }

  function Quoted(t: Text): Text { [QUOTE] + Escaped(t) + [QUOTE] }

  /* ---- Key order ---- */

  // Lexicographic by code unit.
  predicate Before(a: Text, b: Text) {
    b != [] && (a == [] || a[0] < b[0] || (a[0] == b[0] && Before(a[1..], b[1..])))
  }

  function Defined(members: seq<Member>): (r: seq<Member>)
    ensures forall m :: m in r ==> m in members && !m.value.Undefined?
  {
    if members == [] then []
    else if members[0].value.Undefined? then Defined(members[1..])
    else [members[0]] + Defined(members[1..])
  }

  function InsertMember(m: Member, members: seq<Member>): (r: seq<Member>)
    ensures forall x :: x in r <==> x == m || x in members
  {
    if members == [] || !Before(members[0].key, m.key) then [m] + members
    else
      assert members == [members[0]] + members[1..];
      [members[0]] + InsertMember(m, members[1..])
  }

  function SortedByKey(members: seq<Member>): (r: seq<Member>)
    ensures forall m :: m in r <==> m in members
  {
    if members == [] then []
    else
      assert members == [members[0]] + members[1..];
      InsertMember(members[0], SortedByKey(members[1..]))
  }

  function Entries(members: seq<Member>): (r: seq<Member>)
    ensures forall m :: m in r ==> m in members && !m.value.Undefined?
  {
    SortedByKey(Defined(members))
  }

  // Members of a list are parts of the object that has them.
  ghost predicate PartsOf(members: seq<Member>, whole: Value) {
    forall m :: m in members ==> m.value < whole
  }

  lemma EntriesArePartsOf(v: Value)
    requires v.Obj?
    ensures PartsOf(Entries(v.members), v)
  {
    forall m | m in Entries(v.members) ensures m.value < v {
      var i :| 0 <= i < |v.members| && v.members[i] == m;
      assert v.members[i].value < v;
    }
  }

  /* ---- Canonical text ---- */

  function Canonical(v: Value): Text
    decreases v, 1, 0
  {
    match v
    case Undefined => NULL
    case Null => NULL
    case Bool(b) => if b then TRUE else FALSE
    case Num(token) => token
    case NotFinite => NULL
    case Str(text) => Quoted(text)
    case Arr(items) => [OPEN_BRACKET] + CanonicalItems(items, v) + [CLOSE_BRACKET]
    case Obj(members) =>
      EntriesArePartsOf(v);
      [OPEN_BRACE] + CanonicalMembers(Entries(members), v) + [CLOSE_BRACE]
  }

  function CanonicalItems(items: seq<Value>, ghost whole: Value): Text
    requires forall i :: 0 <= i < |items| ==> items[i] < whole
    decreases whole, 0, |items|
  {
    if items == [] then []
    else if |items| == 1 then Canonical(items[0])
    else Canonical(items[0]) + [COMMA] + CanonicalItems(items[1..], whole)
  }

  function CanonicalMember(m: Member, ghost whole: Value): Text
    requires m.value < whole
    decreases whole, 0, 0
  {
    Quoted(m.key) + [COLON] + Canonical(m.value)
  }

  function CanonicalMembers(members: seq<Member>, ghost whole: Value): Text
    requires PartsOf(members, whole)
    decreases whole, 0, |members|
  {
    if members == [] then []
    else if |members| == 1 then CanonicalMember(members[0], whole)
    else CanonicalMember(members[0], whole) + [COMMA] + CanonicalMembers(members[1..], whole)
  }

  /* ---- Parsing ---- */

  datatype Parsed<T> = Failed | Parsed(value: T, rest: Text)

  function HexValue(u: Unit): (d: int)
    ensures -1 <= d < 16
  {
    if Digit(u) then u - 48 else if 97 <= u <= 102 then u - 87 else if 65 <= u <= 70 then u - 55 else -1
  }

  function ParseHex(s: Text): Parsed<Unit> {
    if |s| < 4 || HexValue(s[0]) < 0 || HexValue(s[1]) < 0 || HexValue(s[2]) < 0 || HexValue(s[3]) < 0 then Failed
    else Parsed(((HexValue(s[0]) * 16 + HexValue(s[1])) * 16 + HexValue(s[2])) * 16 + HexValue(s[3]), s[4..])
  }

  function ParseEscape(s: Text): (r: Parsed<Unit>)
    ensures r.Parsed? ==> |r.rest| < |s|
  {
    if s == [] then Failed
    else if s[0] == 34 || s[0] == 92 || s[0] == 47 then Parsed(s[0], s[1..])
    else if s[0] == 98 then Parsed(8, s[1..])
    else if s[0] == 102 then Parsed(12, s[1..])
    else if s[0] == 110 then Parsed(10, s[1..])
    else if s[0] == 114 then Parsed(13, s[1..])
    else if s[0] == 116 then Parsed(9, s[1..])
    else if s[0] == 117 then ParseHex(s[1..])
    else Failed
  }

  // The rest of a string after its opening quote.
  function ParseString(s: Text): (r: Parsed<Text>)
    ensures r.Parsed? ==> |r.rest| < |s|
    decreases |s|
  {
    if s == [] || s[0] < 32 then Failed
    else if s[0] == QUOTE then Parsed([], s[1..])
    else
      var unit := if s[0] == BACKSLASH then ParseEscape(s[1..]) else Parsed(s[0], s[1..]);
      if unit.Failed? then Failed
      else
        var more := ParseString(unit.rest);
        if more.Failed? then Failed else Parsed([unit.value] + more.value, more.rest)
  }

  // Length of the longest prefix that can belong to a number.
  function NumberRun(s: Text): (n: nat)
    ensures n <= |s| && (forall i :: 0 <= i < n ==> NumberUnit(s[i])) && (n < |s| ==> !NumberUnit(s[n]))
  {
    if s != [] && NumberUnit(s[0]) then 1 + NumberRun(s[1..]) else 0
  }

  predicate StartsWith(s: Text, word: Text) { |word| <= |s| && s[..|word|] == word }

  function ParseValue(s: Text): (r: Parsed<Value>)
    ensures r.Parsed? ==> |r.rest| < |s|
    decreases |s|, 0
  {
    if s == [] then Failed
    else if s[0] == QUOTE then
      var text := ParseString(s[1..]);
      if text.Failed? then Failed else Parsed(Str(text.value), text.rest)
    else if s[0] == OPEN_BRACKET then
      if |s| > 1 && s[1] == CLOSE_BRACKET then Parsed(Arr([]), s[2..])
      else
        var items := ParseItems(s[1..]);
        if items.Failed? then Failed else Parsed(Arr(items.value), items.rest)
    else if s[0] == OPEN_BRACE then
      if |s| > 1 && s[1] == CLOSE_BRACE then Parsed(Obj([]), s[2..])
      else
        var members := ParseMembers(s[1..]);
        if members.Failed? then Failed else Parsed(Obj(members.value), members.rest)
    else if StartsWith(s, NULL) then Parsed(Null, s[4..])
    else if StartsWith(s, TRUE) then Parsed(Bool(true), s[4..])
    else if StartsWith(s, FALSE) then Parsed(Bool(false), s[5..])
    else if IsNumber(s[..NumberRun(s)]) then Parsed(Num(s[..NumberRun(s)]), s[NumberRun(s)..])
    else Failed
  }

  // One or more values up to the closing bracket.
  function ParseItems(s: Text): (r: Parsed<seq<Value>>)
    ensures r.Parsed? ==> |r.rest| < |s|
    decreases |s|, 1
  {
    var first := ParseValue(s);
    if first.Failed? || first.rest == [] then Failed
    else if first.rest[0] == CLOSE_BRACKET then Parsed([first.value], first.rest[1..])
    else if first.rest[0] != COMMA then Failed
    else
      var more := ParseItems(first.rest[1..]);
      if more.Failed? then Failed else Parsed([first.value] + more.value, more.rest)
  }

  function ParseMember(s: Text): (r: Parsed<Member>)
    ensures r.Parsed? ==> |r.rest| < |s|
    decreases |s|, 1
  {
    if s == [] || s[0] != QUOTE then Failed
    else
      var key := ParseString(s[1..]);
      if key.Failed? || key.rest == [] || key.rest[0] != COLON then Failed
      else
        var value := ParseValue(key.rest[1..]);
        if value.Failed? then Failed else Parsed(Member(key.value, value.value), value.rest)
  }

  // One or more members up to the closing brace.
  function ParseMembers(s: Text): (r: Parsed<seq<Member>>)
    ensures r.Parsed? ==> |r.rest| < |s|
    decreases |s|, 2
  {
    var first := ParseMember(s);
    if first.Failed? || first.rest == [] then Failed
    else if first.rest[0] == CLOSE_BRACE then Parsed([first.value], first.rest[1..])
    else if first.rest[0] != COMMA then Failed
    else
      var more := ParseMembers(first.rest[1..]);
      if more.Failed? then Failed else Parsed([first.value] + more.value, more.rest)
  }

  // A whole text.
  function Parse(s: Text): Parsed<Value> {
    var v := ParseValue(s);
    if v.Parsed? && v.rest == [] then v else Failed
  }
}
