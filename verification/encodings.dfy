/** UTF-8 and base64url (RFC 4648, section 5, without padding) between UTF-16 text and bytes. */
module Encodings {
  import opened Wrappers
  import opened JsonValues

  type Byte = b: nat | b < 256
  type Bytes = seq<Byte>

  /* ---- UTF-8 ---- */

  // Every surrogate is half of a pair.
  predicate Paired(t: Text) {
    if t == [] then true
    else if HighSurrogate(t[0]) then |t| > 1 && LowSurrogate(t[1]) && Paired(t[2..])
    else !LowSurrogate(t[0]) && Paired(t[1..])
  }

  function Utf8Pair(high: Unit, low: Unit): Bytes
    requires HighSurrogate(high) && LowSurrogate(low)
  {
    var point := 0x10000 + (high - 0xD800) * 0x400 + (low - 0xDC00);
    [0xF0 + point / 0x40000, 0x80 + point / 0x1000 % 64, 0x80 + point / 64 % 64, 0x80 + point % 64]
  }

  // A lone surrogate becomes the replacement character.
  function Utf8Unit(u: Unit): Bytes {
    if u < 0x80 then [u]
    else if u < 0x800 then [0xC0 + u / 64, 0x80 + u % 64]
    else if HighSurrogate(u) || LowSurrogate(u) then [0xEF, 0xBF, 0xBD]
    else [0xE0 + u / 4096, 0x80 + u / 64 % 64, 0x80 + u % 64]
  }

  function Utf8(t: Text): Bytes {
    if t == [] then []
    else if HighSurrogate(t[0]) && |t| > 1 && LowSurrogate(t[1]) then Utf8Pair(t[0], t[1]) + Utf8(t[2..])
    else Utf8Unit(t[0]) + Utf8(t[1..])
  }

  predicate Continues(b: Byte) { 0x80 <= b < 0xC0 }

  function Low(b: Byte): int { b as int - 0x80 }

  // The first character of the bytes as units, and how many bytes it takes.
  function FirstCharacter(b: Bytes): (r: Option<(Text, nat)>)
    ensures r.Some? ==> 0 < r.value.1 <= |b|
  {
    if b == [] then None
    else
      var lead: int := b[0];
      if lead < 0x80 then Some(([lead], 1))
      else if 0xC2 <= lead < 0xE0 && |b| >= 2 && Continues(b[1]) then
        Some(([(lead - 0xC0) * 64 + Low(b[1])], 2))
      else if 0xE0 <= lead < 0xF0 && |b| >= 3 && Continues(b[1]) && Continues(b[2]) then
        var u := (lead - 0xE0) * 4096 + Low(b[1]) * 64 + Low(b[2]);
        if u < 0x800 || 0xD800 <= u <= 0xDFFF then None else Some(([u], 3))
      else if 0xF0 <= lead < 0xF5 && |b| >= 4 && Continues(b[1]) && Continues(b[2]) && Continues(b[3]) then
        var point := (lead - 0xF0) * 0x40000 + Low(b[1]) * 0x1000 + Low(b[2]) * 64 + Low(b[3]);
        if point < 0x10000 || point > 0x10FFFF then None
        else Some(([0xD800 + (point - 0x10000) / 0x400, 0xDC00 + (point - 0x10000) % 0x400], 4))
      else None
  }

  // None for bytes that are not UTF-8.
  function FromUtf8(b: Bytes): Option<Text>
    decreases |b|
  {
    if b == [] then Some([])
    else
      var first := FirstCharacter(b);
      if first.None? then None
      else
        var more := FromUtf8(b[first.value.1..]);
        if more.None? then None else Some(first.value.0 + more.value)
  }

  lemma PairRoundTrip(high: Unit, low: Unit, tail: Bytes)
    requires HighSurrogate(high) && LowSurrogate(low)
    ensures FirstCharacter(Utf8Pair(high, low) + tail) == Some(([high, low], 4))
  {
    var b := Utf8Pair(high, low) + tail;
    var point := 0x10000 + (high - 0xD800) * 0x400 + (low - 0xDC00);
    assert 0x10000 <= point <= 0x10FFFF;
    FourDigits(point);
    assert b[0] == 0xF0 + point / 0x40000 && b[1] == 0x80 + point / 0x1000 % 64 && b[2] == 0x80 + point / 64 % 64
      && b[3] == 0x80 + point % 64;
  }

  lemma FourDigits(n: nat)
    ensures n / 0x40000 * 0x40000 + n / 0x1000 % 64 * 0x1000 + n / 64 % 64 * 64 + n % 64 == n
  {
    assert n / 64 / 64 == n / 0x1000 && n / 0x1000 / 64 == n / 0x40000;
  }

  lemma UnitBytesRoundTrip(u: Unit, tail: Bytes)
    requires !HighSurrogate(u) && !LowSurrogate(u)
    ensures FirstCharacter(Utf8Unit(u) + tail) == Some(([u], |Utf8Unit(u)|))
  {
    var b := Utf8Unit(u) + tail;
    assert forall i | 0 <= i < |Utf8Unit(u)| :: b[i] == Utf8Unit(u)[i];
    assert u / 64 / 64 == u / 4096;
  }

  // One decoded character, then the rest.
  lemma FirstThenRest(head: Bytes, tail: Bytes, units: Text, more: Text)
    requires head != [] && FirstCharacter(head + tail) == Some((units, |head|)) && FromUtf8(tail) == Some(more)
    ensures FromUtf8(head + tail) == Some(units + more)
  {
    assert (head + tail)[|head|..] == tail;
  }

  lemma {:induction false} PairedSurvives(t: Text)
    requires Paired(t)
    ensures FromUtf8(Utf8(t)) == Some(t)
    decreases |t|
  {
    if t == [] {
    } else if HighSurrogate(t[0]) {
      PairedSurvives(t[2..]);
      PairRoundTrip(t[0], t[1], Utf8(t[2..]));
      FirstThenRest(Utf8Pair(t[0], t[1]), Utf8(t[2..]), [t[0], t[1]], t[2..]);
      assert t == [t[0], t[1]] + t[2..];
    } else {
      PairedSurvives(t[1..]);
      UnitBytesRoundTrip(t[0], Utf8(t[1..]));
      FirstThenRest(Utf8Unit(t[0]), Utf8(t[1..]), [t[0]], t[1..]);
      assert t == [t[0]] + t[1..];
    }
  }

  lemma PairedAppend(head: Text, t: Text)
    requires (|head| == 1 && !HighSurrogate(head[0]) && !LowSurrogate(head[0]))
             || (|head| == 2 && HighSurrogate(head[0]) && LowSurrogate(head[1]))
    requires Paired(t)
    ensures Paired(head + t)
  {
    assert (head + t)[|head|..] == t;
  }

  // What decodes is paired: a lone surrogate never comes back.
  lemma {:induction false} DecodedIsPaired(b: Bytes)
    requires FromUtf8(b).Some?
    ensures Paired(FromUtf8(b).value)
    decreases |b|
  {
    if b != [] {
      var first := FirstCharacter(b).value;
      DecodedIsPaired(b[first.1..]);
      PairedAppend(first.0, FromUtf8(b[first.1..]).value);
    }
  }

  // Text survives UTF-8 exactly when it has no lone surrogate.
  lemma Utf8RoundTripIff(t: Text)
    ensures FromUtf8(Utf8(t)) == Some(t) <==> Paired(t)
  {
    if Paired(t) { PairedSurvives(t); }
    if FromUtf8(Utf8(t)).Some? { DecodedIsPaired(Utf8(t)); }
  }

  // Units and the bytes of one character.
  predicate WrittenAs(units: Text, bytes: Bytes) {
    || (|units| == 1 && !HighSurrogate(units[0]) && !LowSurrogate(units[0]) && bytes == Utf8Unit(units[0]))
    || (|units| == 2 && HighSurrogate(units[0]) && LowSurrogate(units[1]) && bytes == Utf8Pair(units[0], units[1]))
  }

  lemma DigitsOf(a: nat, b: nat, c: nat, d: nat)
    requires b < 64 && c < 64 && d < 64
    ensures var n := a * 0x40000 + b * 0x1000 + c * 64 + d;
      n / 0x40000 == a && n / 0x1000 % 64 == b && n / 64 % 64 == c && n % 64 == d
  {
    var n := a * 0x40000 + b * 0x1000 + c * 64 + d;
    assert n / 64 == a * 0x1000 + b * 64 + c;
    assert n / 0x1000 == a * 64 + b;
  }

  lemma PairIsWritten(b: Bytes)
    requires FirstCharacter(b).Some? && FirstCharacter(b).value.1 == 4
    ensures WrittenAs(FirstCharacter(b).value.0, b[..4])
  {
    var units := FirstCharacter(b).value.0;
    var point: int := 0x10000 + (units[0] as int - 0xD800) * 0x400 + (units[1] as int - 0xDC00);
    assert point == (b[0] as int - 0xF0) * 0x40000 + Low(b[1]) * 0x1000 + Low(b[2]) * 64 + Low(b[3]);
    DigitsOf(b[0] - 0xF0, Low(b[1]), Low(b[2]), Low(b[3]));
  }

  lemma ThreeAreWritten(b: Bytes)
    requires FirstCharacter(b).Some? && FirstCharacter(b).value.1 == 3
    ensures WrittenAs(FirstCharacter(b).value.0, b[..3])
  {
    DigitsOf(0, b[0] - 0xE0, Low(b[1]), Low(b[2]));
    assert FirstCharacter(b).value.0[0] as int == (b[0] as int - 0xE0) * 0x1000 + Low(b[1]) * 64 + Low(b[2]);
  }

  // Only the shortest form of a character is read, and no surrogate on its own.
  lemma CharacterIsWritten(b: Bytes)
    requires FirstCharacter(b).Some?
    ensures WrittenAs(FirstCharacter(b).value.0, b[..FirstCharacter(b).value.1])
  {
    var n := FirstCharacter(b).value.1;
    if n == 4 {
      PairIsWritten(b);
    } else if n == 3 {
      ThreeAreWritten(b);
    } else if n == 2 {
      DigitsOf(0, 0, b[0] - 0xC0, Low(b[1]));
    }
  }

  lemma CharacterThenRest(units: Text, bytes: Bytes, more: Text)
    requires WrittenAs(units, bytes)
    ensures Utf8(units + more) == bytes + Utf8(more)
  {
    assert (units + more)[|units|..] == more;
  }

  // Bytes that are read are the ones that would be written.
  lemma {:induction false} ReadIsWritten(b: Bytes)
    requires FromUtf8(b).Some?
    ensures Utf8(FromUtf8(b).value) == b
    decreases |b|
  {
    if b != [] {
      var (units, n) := FirstCharacter(b).value;
      CharacterIsWritten(b);
      ReadIsWritten(b[n..]);
      CharacterThenRest(units, b[..n], FromUtf8(b[n..]).value);
      assert b == b[..n] + b[n..];
    }
  }

  // Neither followed nor preceded by its other half.
  predicate Lone(t: Text, i: nat)
    requires i < |t|
  {
    || (HighSurrogate(t[i]) && !(i + 1 < |t| && LowSurrogate(t[i + 1])))
    || (LowSurrogate(t[i]) && !(i > 0 && HighSurrogate(t[i - 1])))
  }

  // The text with the replacement character in place of every lone surrogate.
  function Mended(t: Text): Text {
    seq(|t|, i requires 0 <= i < |t| => if Lone(t, i) then 0xFFFD else t[i])
  }

  lemma MendedPair(t: Text)
    requires |t| > 1 && HighSurrogate(t[0]) && LowSurrogate(t[1])
    ensures Mended(t) == [t[0], t[1]] + Mended(t[2..])
  {
    assert forall i | 2 <= i < |t| :: Lone(t, i) == Lone(t[2..], i - 2);
  }

  function MendedUnit(u: Unit): Unit { if HighSurrogate(u) || LowSurrogate(u) then 0xFFFD else u }

  lemma MendedSingle(t: Text)
    requires t != [] && !(HighSurrogate(t[0]) && |t| > 1 && LowSurrogate(t[1]))
    ensures Mended(t) == [MendedUnit(t[0])] + Mended(t[1..])
  {
    assert forall i | 1 <= i < |t| :: Lone(t, i) == Lone(t[1..], i - 1);
  }

  // Any text comes back from UTF-8 with every lone surrogate replaced and everything else as it was.
  lemma {:induction false} Utf8Mends(t: Text)
    ensures FromUtf8(Utf8(t)) == Some(Mended(t))
    decreases |t|
  {
    if t == [] {
      assert Mended(t) == [];
    } else if HighSurrogate(t[0]) && |t| > 1 && LowSurrogate(t[1]) {
      Utf8Mends(t[2..]);
      PairRoundTrip(t[0], t[1], Utf8(t[2..]));
      FirstThenRest(Utf8Pair(t[0], t[1]), Utf8(t[2..]), [t[0], t[1]], Mended(t[2..]));
      MendedPair(t);
    } else {
      var u := MendedUnit(t[0]);
      Utf8Mends(t[1..]);
      UnitBytesRoundTrip(u, Utf8(t[1..]));
      ReplacementBytes(t[0]);
      FirstThenRest(Utf8Unit(u), Utf8(t[1..]), [u], Mended(t[1..]));
      MendedSingle(t);
    }
  }

  lemma ReplacementBytes(u: Unit)
    ensures Utf8Unit(u) == Utf8Unit(MendedUnit(u))
  {
    assert Utf8Unit(0xFFFD) == [0xEF, 0xBF, 0xBD];
  }

  /* ---- Base64url ---- */

  function Symbol(v: nat): Unit
    requires v < 64
  {
    if v < 26 then 65 + v else if v < 52 then 71 + v else if v < 62 then v - 4 else if v == 62 then 45 else 95
  }

  function SymbolValue(u: Unit): (v: int)
    ensures -1 <= v < 64
  {
    if 65 <= u <= 90 then u - 65
    else if 97 <= u <= 122 then u - 71
    else if 48 <= u <= 57 then u + 4
    else if u == 45 then 62 else if u == 95 then 63 else -1
  }

  function Base64(b: Bytes): Text
    decreases |b|
  {
    if b == [] then []
    else if |b| == 1 then [Symbol(b[0] / 4), Symbol(b[0] % 4 * 16)]
    else if |b| == 2 then [Symbol(b[0] / 4), Symbol(b[0] % 4 * 16 + b[1] / 16), Symbol(b[1] % 16 * 4)]
    else
      [Symbol(b[0] / 4), Symbol(b[0] % 4 * 16 + b[1] / 16), Symbol(b[1] % 16 * 4 + b[2] / 64), Symbol(b[2] % 64)]
      + Base64(b[3..])
  }

  // None for text that is not base64url.
  function FromBase64(t: Text): Option<Bytes>
    decreases |t|
  {
    if t == [] then Some([])
    else if |t| == 1 || SymbolValue(t[0]) < 0 || SymbolValue(t[1]) < 0 then None
    else
      var first := SymbolValue(t[0]) * 4 + SymbolValue(t[1]) / 16;
      if |t| == 2 then Some([first])
      else if SymbolValue(t[2]) < 0 then None
      else
        var second := SymbolValue(t[1]) % 16 * 16 + SymbolValue(t[2]) / 4;
        if |t| == 3 then Some([first, second])
        else if SymbolValue(t[3]) < 0 then None
        else
          var more := FromBase64(t[4..]);
          if more.None? then None
          else Some([first, second, SymbolValue(t[2]) % 4 * 64 + SymbolValue(t[3])] + more.value)
  }

  lemma SymbolRoundTrip(v: nat)
    requires v < 64
    ensures SymbolValue(Symbol(v)) == v && Symbol(v) != 46
  {
  }

  lemma SixBits(a: Byte, b: Byte)
    ensures a / 4 * 4 + (a % 4 * 16 + b / 16) / 16 == a
    ensures (a % 4 * 16 + b / 16) % 16 * 16 + b % 16 * 4 / 4 == b
  {
  }

  lemma LastBits(b: Byte, c: Byte)
    ensures (b % 16 * 4 + c / 64) / 4 == b % 16 && (b % 16 * 4 + c / 64) % 4 * 64 + c % 64 == c
  {
  }

  lemma OneByte(a: Byte)
    ensures FromBase64([Symbol(a / 4), Symbol(a % 4 * 16)]) == Some([a])
  {
    SymbolRoundTrip(a / 4);
    SymbolRoundTrip(a % 4 * 16);
    assert a / 4 * 4 + a % 4 * 16 / 16 == a;
  }

  lemma TwoBytes(a: Byte, b: Byte)
    ensures FromBase64([Symbol(a / 4), Symbol(a % 4 * 16 + b / 16), Symbol(b % 16 * 4)]) == Some([a, b])
  {
    SymbolRoundTrip(a / 4);
    SymbolRoundTrip(a % 4 * 16 + b / 16);
    SymbolRoundTrip(b % 16 * 4);
    SixBits(a, b);
  }

  lemma ThreeBytes(a: Byte, b: Byte, c: Byte, text: Text, rest: Bytes)
    requires FromBase64(text) == Some(rest)
    ensures FromBase64(
      [Symbol(a / 4), Symbol(a % 4 * 16 + b / 16), Symbol(b % 16 * 4 + c / 64), Symbol(c % 64)] + text)
      == Some([a, b, c] + rest)
  {
    var head := [Symbol(a / 4), Symbol(a % 4 * 16 + b / 16), Symbol(b % 16 * 4 + c / 64), Symbol(c % 64)];
    var t := head + text;
    SymbolRoundTrip(a / 4);
    SymbolRoundTrip(a % 4 * 16 + b / 16);
    SymbolRoundTrip(b % 16 * 4 + c / 64);
    SymbolRoundTrip(c % 64);
    SixBits(a, b);
    LastBits(b, c);
    assert t[0] == head[0] && t[1] == head[1] && t[2] == head[2] && t[3] == head[3] && t[4..] == text;
  }

  lemma {:induction false} Base64RoundTrip(b: Bytes)
    ensures FromBase64(Base64(b)) == Some(b)
    decreases |b|
  {
    if |b| == 1 {
      OneByte(b[0]);
      assert b == [b[0]];
    } else if |b| == 2 {
      TwoBytes(b[0], b[1]);
      assert b == [b[0], b[1]];
    } else if |b| >= 3 {
      Base64RoundTrip(b[3..]);
      ThreeBytes(b[0], b[1], b[2], Base64(b[3..]), b[3..]);
      assert b == [b[0], b[1], b[2]] + b[3..];
    }
  }

  predicate UrlSafe(u: Unit) { 65 <= u <= 90 || 97 <= u <= 122 || 48 <= u <= 57 || u == 45 || u == 95 }

  // Letters, digits, hyphens and underscores only, so never a full stop.
  lemma {:induction false} Base64HasNoStop(b: Bytes)
    ensures 46 !in Base64(b) && (b != [] ==> Base64(b) != [])
    ensures forall i :: 0 <= i < |Base64(b)| ==> UrlSafe(Base64(b)[i])
    decreases |b|
  {
    if |b| >= 3 { Base64HasNoStop(b[3..]); }
  }

  /* ---- Canonical text as an opaque word ---- */

  lemma PairedConcat(a: Text, b: Text)
    requires Paired(a) && Paired(b)
    ensures Paired(a + b)
    decreases |a|
  {
    if a == [] {
      assert a + b == b;
    } else if HighSurrogate(a[0]) {
      PairedConcat(a[2..], b);
      assert (a + b)[2..] == a[2..] + b;
    } else {
      PairedConcat(a[1..], b);
      assert (a + b)[1..] == a[1..] + b;
    }
  }

  lemma {:induction false} PlainIsPaired(t: Text)
    requires forall i :: 0 <= i < |t| ==> t[i] < 0xD800
    ensures Paired(t)
  {
    if t != [] { PlainIsPaired(t[1..]); }
  }

  lemma {:induction false} EscapedIsPaired(t: Text)
    ensures Paired(Escaped(t))
    decreases |t|
  {
    if t == [] {
    } else if HighSurrogate(t[0]) && |t| > 1 && LowSurrogate(t[1]) {
      EscapedIsPaired(t[2..]);
      PairedAppend(t[..2], Escaped(t[2..]));
    } else {
      EscapedIsPaired(t[1..]);
      if |EscapeUnit(t[0])| == 1 && t[0] >= 0xD800 {
        PairedAppend(EscapeUnit(t[0]), Escaped(t[1..]));
      } else {
        PlainIsPaired(EscapeUnit(t[0]));
        PairedConcat(EscapeUnit(t[0]), Escaped(t[1..]));
      }
    }
  }
}
