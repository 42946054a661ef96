/** Page cursors: a versioned, signed, packed payload. The MAC is any function of the signed text. */
module Cursors {
  import opened Wrappers
  import opened JsonValues
  import opened JsonRoundTrip
  import opened JsonMeaning
  import opened Encodings
  import opened Codecs

  const MAX_SAFE: nat := 0x1F_FFFF_FFFF_FFFF

  // Numbers up to the largest safe integer.
  type Safe = n: nat | n <= MAX_SAFE

  datatype CursorPayload = CursorPayload(
    snapshot: Text, offset: Safe, filters: Text, expiresAt: Safe, session: Option<Text>)

  const VERSION: Text := [99, 49]
  const SNAPSHOT: Text := [115, 110, 97, 112, 115, 104, 111, 116]
  const OFFSET: Text := [111, 102, 102, 115, 101, 116]
  const FILTERS: Text := [102, 105, 108, 116, 101, 114, 115]
  const EXPIRES_AT: Text := [101, 120, 112, 105, 114, 101, 115, 65, 116]
  const SESSION: Text := [115, 101, 97, 114, 99, 104, 83, 101, 115, 115, 105, 111, 110, 73, 100]

  function Sign(mac: Text -> Bytes, body: Text): Text { Base64(mac(VERSION + [STOP] + body)) }

  function Payload(p: CursorPayload): Value {
    Obj([Member(SNAPSHOT, Str(p.snapshot)), Member(OFFSET, Num(Decimal(p.offset))), Member(FILTERS, Str(p.filters)),
         Member(EXPIRES_AT, Num(Decimal(p.expiresAt))),
         Member(SESSION, if p.session.Some? then Str(p.session.value) else Undefined)])
  }

  function EncodeCursor(mac: Text -> Bytes, p: CursorPayload): Text {
    var body := Pack(Payload(p));
    VERSION + [STOP] + body + [STOP] + Sign(mac, body)
  }

  // The parts between separators.
  function Split(t: Text): (parts: seq<Text>)
    ensures parts != []
  {
    if t == [] then [[]]
    else if t[0] == STOP then [[]] + Split(t[1..])
    else
      var rest := Split(t[1..]);
      [[t[0]] + rest[0]] + rest[1..]
  }

  predicate Hex(u: Unit) { HexValue(u) >= 0 }

  // A version 4 UUID, in either case.
  predicate SessionId(t: Text) {
    && |t| == 36 && t[8] == 45 && t[13] == 45 && t[18] == 45 && t[23] == 45 && t[14] == 52
    && HexValue(t[19]) in {8, 9, 10, 11}
    && forall i :: 0 <= i < 36 && i != 8 && i != 13 && i != 18 && i != 23 ==> Hex(t[i])
  }

  function SafeOf(v: Option<Value>): Option<Safe> {
    if v.Some? && v.value.Num? && Natural(v.value.token).Some? && Natural(v.value.token).value <= MAX_SAFE
    then Some(Natural(v.value.token).value) else None
  }

  function PayloadOf(v: Value, now: nat): Option<CursorPayload> {
    if !v.Obj? then None
    else
      var snapshot, filters := Lookup(v.members, SNAPSHOT), Lookup(v.members, FILTERS);
      var offset, expiresAt := SafeOf(Lookup(v.members, OFFSET)), SafeOf(Lookup(v.members, EXPIRES_AT));
      var session := Lookup(v.members, SESSION);
      if snapshot.None? || !snapshot.value.Str? || offset.None? then None
      else if filters.None? || !filters.value.Str? || expiresAt.None? then None
      else if session.Some? && !(session.value.Str? && SessionId(session.value.text)) then None
      else if expiresAt.value < now then None
      else Some(CursorPayload(snapshot.value.text, offset.value, filters.value.text, expiresAt.value,
                              if session.Some? then Some(session.value.text) else None))
  }

  function DecodeCursor(mac: Text -> Bytes, cursor: Text, now: nat): Option<CursorPayload> {
    var parts := Split(cursor);
    if |parts| != 3 || parts[0] != VERSION then None
    else if parts[2] != Sign(mac, parts[1]) then None
    else
      var v := Unpack(parts[1]);
      if v.None? then None else PayloadOf(v.value, now)
  }

  /* ---- Round trip ---- */

  lemma {:induction false} SplitAt(a: Text, rest: Text)
    requires STOP !in a
    ensures Split(a + [STOP] + rest) == [a] + Split(rest)
  {
    var t := a + [STOP] + rest;
    if a == [] {
      assert t[1..] == rest;
    } else {
      SplitAt(a[1..], rest);
      assert t[0] == a[0] && t[1..] == a[1..] + [STOP] + rest;
      assert a == [a[0]] + a[1..];
    }
  }

  lemma {:induction false} SplitWhole(a: Text)
    requires STOP !in a
    ensures Split(a) == [a]
  {
    if a != [] {
      SplitWhole(a[1..]);
      assert a == [a[0]] + a[1..];
    }
  }

  lemma ThreeParts(a: Text, b: Text, c: Text)
    requires STOP !in a && STOP !in b && STOP !in c
    ensures Split(a + [STOP] + b + [STOP] + c) == [a, b, c]
  {
    SplitAt(a, b + [STOP] + c);
    SplitAt(b, c);
    SplitWhole(c);
    assert a + [STOP] + b + [STOP] + c == a + [STOP] + (b + [STOP] + c);
  }

  lemma PayloadIsWellFormed(p: CursorPayload)
    ensures WellFormed(Payload(p))
  {
    DecimalIsNumber(p.offset);
    DecimalIsNumber(p.expiresAt);
    assert SNAPSHOT[0] == 115 && OFFSET[0] == 111 && FILTERS[0] == 102 && EXPIRES_AT[0] == 101 && SESSION[0] == 115;
    assert |SNAPSHOT| == 8 && |SESSION| == 15;
  }

  predicate Usable(p: CursorPayload, now: nat) {
    p.expiresAt >= now && (p.session.Some? ==> SessionId(p.session.value))
  }

  lemma {:induction false} UndefinedVanishes(v: Value, i: nat)
    requires v.Obj? && WellFormed(v) && i < |v.members| && v.members[i].value.Undefined?
    ensures Lookup(Normal(v).members, v.members[i].key).None?
  {
    var entries := Entries(v.members);
    EntriesArePartsOf(v);
    forall k | 0 <= k < |entries| ensures Normal(v).members[k].key != v.members[i].key {
      NormalMembersAt(entries, v, k);
      assert entries[k] in entries;
      var j :| 0 <= j < |v.members| && v.members[j] == entries[k];
      assert j != i;
    }
    LookupMisses(Normal(v).members, v.members[i].key);
  }

  lemma PayloadSurvives(p: CursorPayload)
    ensures Normal(Payload(p)).Obj?
    ensures var members := Normal(Payload(p)).members;
      && Lookup(members, SNAPSHOT) == Some(Str(p.snapshot)) && Lookup(members, FILTERS) == Some(Str(p.filters))
      && Lookup(members, OFFSET) == Some(Num(Decimal(p.offset)))
      && Lookup(members, EXPIRES_AT) == Some(Num(Decimal(p.expiresAt)))
      && Lookup(members, SESSION) == if p.session.Some? then Some(Str(p.session.value)) else None
  {
    var v := Payload(p);
    PayloadIsWellFormed(p);
    MemberSurvives(v, 0);
    MemberSurvives(v, 1);
    MemberSurvives(v, 2);
    MemberSurvives(v, 3);
    if p.session.Some? { MemberSurvives(v, 4); } else { UndefinedVanishes(v, 4); }
  }

  lemma PayloadRoundTrip(p: CursorPayload, v: Value, now: nat)
    requires v == Normal(Payload(p))
    ensures PayloadOf(v, now) == if Usable(p, now) then Some(p) else None
  {
    PayloadSurvives(p);
    DecimalIsNumber(p.offset);
    DecimalIsNumber(p.expiresAt);
  }

  // Decoding undoes encoding exactly for the payloads that have not expired and whose session id, if
  // any, is a UUID; every other payload is refused.
  lemma CursorRoundTrip(mac: Text -> Bytes, p: CursorPayload, now: nat)
    ensures DecodeCursor(mac, EncodeCursor(mac, p), now) == if Usable(p, now) then Some(p) else None
  {
    var body := Pack(Payload(p));
    PayloadIsWellFormed(p);
    PackRoundTrip(Payload(p));
    Base64HasNoStop(mac(VERSION + [STOP] + body));
    ThreeParts(VERSION, body, Sign(mac, body));
    PayloadRoundTrip(p, Normal(Payload(p)), now);
  }

  // Different payloads have different cursors, whatever the MAC.
  lemma CursorsAreInjective(mac: Text -> Bytes, p: CursorPayload, q: CursorPayload)
    requires EncodeCursor(mac, p) == EncodeCursor(mac, q)
    ensures p == q
  {
    CursorBody(mac, p);
    CursorBody(mac, q);
    PayloadSurvives(p);
    PayloadSurvives(q);
    DecimalIsNumber(p.offset);
    DecimalIsNumber(q.offset);
    DecimalIsNumber(p.expiresAt);
    DecimalIsNumber(q.expiresAt);
  }

  lemma CursorBody(mac: Text -> Bytes, p: CursorPayload)
    ensures var parts := Split(EncodeCursor(mac, p)); |parts| == 3 && Unpack(parts[1]) == Some(Normal(Payload(p)))
  {
    var body := Pack(Payload(p));
    PayloadIsWellFormed(p);
    PackRoundTrip(Payload(p));
    Base64HasNoStop(mac(VERSION + [STOP] + body));
    ThreeParts(VERSION, body, Sign(mac, body));
  }

  /* ---- What is accepted ---- */

  function Joined(parts: seq<Text>): Text
    requires parts != []
  {
    if |parts| == 1 then parts[0] else parts[0] + [STOP] + Joined(parts[1..])
  }

  lemma JoinedAfterStop(rest: seq<Text>)
    requires rest != []
    ensures Joined([[]] + rest) == [STOP] + Joined(rest)
  {
    assert ([[]] + rest)[1..] == rest;
  }

  lemma JoinedAfterUnit(u: Unit, rest: seq<Text>)
    requires rest != []
    ensures Joined([[u] + rest[0]] + rest[1..]) == [u] + Joined(rest)
  {
    var all := [[u] + rest[0]] + rest[1..];
    assert all[1..] == rest[1..];
    if |rest| > 1 {
      assert Joined(all) == [u] + rest[0] + [STOP] + Joined(rest[1..]);
    }
  }

  lemma {:induction false} SplitJoins(t: Text)
    ensures Joined(Split(t)) == t && forall i :: 0 <= i < |Split(t)| ==> STOP !in Split(t)[i]
  {
    if t != [] {
      SplitJoins(t[1..]);
      assert t == [t[0]] + t[1..];
      if t[0] == STOP {
        JoinedAfterStop(Split(t[1..]));
      } else {
        JoinedAfterUnit(t[0], Split(t[1..]));
      }
    }
  }

  // The text of a cursor with this body and this signature.
  function Word(body: Text, signature: Text): Text { VERSION + [STOP] + body + [STOP] + signature }

  // The members of a packed object that make up a payload.
  predicate Carries(v: Value, p: CursorPayload) {
    && v.Obj?
    && Lookup(v.members, SNAPSHOT) == Some(Str(p.snapshot)) && Lookup(v.members, FILTERS) == Some(Str(p.filters))
    && Writes(Lookup(v.members, OFFSET), p.offset) && Writes(Lookup(v.members, EXPIRES_AT), p.expiresAt)
    && Lookup(v.members, SESSION) == (match p.session case None => None case Some(id) => Some(Str(id)))
  }

  // A number written in decimal digits, leading zeros included.
  predicate Writes(v: Option<Value>, n: nat) {
    v.Some? && v.value.Num? && v.value.token != [] && AllDigits(v.value.token) && ValueOf(v.value.token) == n
  }

  lemma ThreePartsAre(cursor: Text)
    requires |Split(cursor)| == 3 && Split(cursor)[0] == VERSION
    ensures cursor == Word(Split(cursor)[1], Split(cursor)[2])
    ensures STOP !in Split(cursor)[1] && STOP !in Split(cursor)[2]
  {
    SplitJoins(cursor);
    var parts := Split(cursor);
    assert parts[1..][0] == parts[1] && parts[1..][1..] == [parts[2]];
    assert Joined(parts[1..]) == parts[1] + [STOP] + parts[2];
    assert Joined(parts) == parts[0] + [STOP] + (parts[1] + [STOP] + parts[2]);
  }

  lemma Fields(v: Value, now: nat, p: CursorPayload)
    ensures PayloadOf(v, now) == Some(p)
            <==> Carries(v, p) && now <= p.expiresAt && (p.session.None? || SessionId(p.session.value))
  {
  }

  // A cursor is accepted as a payload if and only if it is the version, a body and the MAC of the two in
  // base64url, the body packs an object with exactly the payload's fields, and the payload is in date with a
  // session id that is a UUID or absent.
  lemma CursorIsAcceptedIff(mac: Text -> Bytes, cursor: Text, now: nat, p: CursorPayload)
    ensures DecodeCursor(mac, cursor, now) == Some(p) <==>
      exists body: Text ::
        && STOP !in body && cursor == Word(body, Base64(mac(VERSION + [STOP] + body)))
        && Unpack(body).Some? && Carries(Unpack(body).value, p)
        && now <= p.expiresAt && (p.session.None? || SessionId(p.session.value))
  {
    if DecodeCursor(mac, cursor, now) == Some(p) {
      var body := Split(cursor)[1];
      ThreePartsAre(cursor);
      Fields(Unpack(body).value, now, p);
    }
    forall body: Text | STOP !in body && cursor == Word(body, Base64(mac(VERSION + [STOP] + body)))
        && Unpack(body).Some? && Carries(Unpack(body).value, p)
        && now <= p.expiresAt && (p.session.None? || SessionId(p.session.value))
      ensures DecodeCursor(mac, cursor, now) == Some(p)
    {
      WordSplits(mac, body);
      Fields(Unpack(body).value, now, p);
    }
  }

  lemma WordSplits(mac: Text -> Bytes, body: Text)
    requires STOP !in body
    ensures Split(Word(body, Base64(mac(VERSION + [STOP] + body))))
            == [VERSION, body, Base64(mac(VERSION + [STOP] + body))]
  {
    Base64HasNoStop(mac(VERSION + [STOP] + body));
    ThreeParts(VERSION, body, Base64(mac(VERSION + [STOP] + body)));
  }

  // A body under any other signature is refused, whatever it packs.
  lemma ForgedCursorIsRefused(mac: Text -> Bytes, body: Text, signature: Text, now: nat)
    requires STOP !in body && STOP !in signature && signature != Base64(mac(VERSION + [STOP] + body))
    ensures DecodeCursor(mac, Word(body, signature), now).None?
  {
    ThreeParts(VERSION, body, signature);
  }

  // So replacing the body of an issued cursor, and keeping its signature, is refused unless the two bodies
  // share a MAC.
  lemma ReplacedBodyIsRefused(mac: Text -> Bytes, p: CursorPayload, body: Text, now: nat)
    requires STOP !in body && mac(VERSION + [STOP] + body) != mac(VERSION + [STOP] + Pack(Payload(p)))
    ensures DecodeCursor(mac, Word(body, Base64(mac(VERSION + [STOP] + Pack(Payload(p))))), now).None?
  {
    var issued := mac(VERSION + [STOP] + Pack(Payload(p)));
    Base64RoundTrip(issued);
    Base64RoundTrip(mac(VERSION + [STOP] + body));
    Base64HasNoStop(issued);
    ForgedCursorIsRefused(mac, body, Base64(issued), now);
  }

  /* ---- Session ids ---- */

  predicate HexText(t: Text, n: nat) {
    |t| == n && forall i :: 0 <= i < n ==> 48 <= t[i] <= 57 || 65 <= t[i] <= 70 || 97 <= t[i] <= 102
  }

  // Five groups of hexadecimal digits, with the version digit 4 and one of the digits 8, 9, a and b.
  function Uuid(a: Text, b: Text, c: Text, variant: Unit, d: Text, e: Text): Text {
    a + [45] + b + [45] + [52] + c + [45] + [variant] + d + [45] + e
  }

  predicate UuidParts(a: Text, b: Text, c: Text, variant: Unit, d: Text, e: Text) {
    && HexText(a, 8) && HexText(b, 4) && HexText(c, 3) && HexText(d, 3) && HexText(e, 12)
    && variant in {56, 57, 65, 66, 97, 98}
  }

  lemma HexIs(u: Unit)
    ensures Hex(u) <==> 48 <= u <= 57 || 65 <= u <= 70 || 97 <= u <= 102
    ensures HexValue(u) in {8, 9, 10, 11} <==> u in {56, 57, 65, 66, 97, 98}
  {
  }

  // Session ids are exactly the version 4 UUIDs, in either case.
  lemma SessionIdIsUuid(t: Text)
    ensures SessionId(t) <==>
      exists a, b, c, variant, d, e :: UuidParts(a, b, c, variant, d, e) && t == Uuid(a, b, c, variant, d, e)
  {
    if SessionId(t) {
      forall i | 0 <= i < 36 { HexIs(t[i]); }
      var a, b, c, d, e := t[..8], t[9..13], t[15..18], t[20..23], t[24..];
      assert UuidParts(a, b, c, t[19], d, e) && t == Uuid(a, b, c, t[19], d, e);
    }
    if a, b, c, variant, d, e :| UuidParts(a, b, c, variant, d, e) && t == Uuid(a, b, c, variant, d, e) {
      UuidIsSessionId(a, b, c, variant, d, e);
    }
  }

  lemma UuidIsSessionId(a: Text, b: Text, c: Text, variant: Unit, d: Text, e: Text)
    requires UuidParts(a, b, c, variant, d, e)
    ensures SessionId(Uuid(a, b, c, variant, d, e))
  {
    var t := Uuid(a, b, c, variant, d, e);
    assert t[..8] == a && t[9..13] == b && t[15..18] == c && t[20..23] == d && t[24..] == e;
    forall i | 0 <= i < 36 && i != 8 && i != 13 && i != 18 && i != 23 ensures Hex(t[i]) {
      HexIs(t[i]);
      if i < 8 { assert t[i] == a[i]; }
      else if i < 13 { assert t[i] == b[i - 9]; }
      else if 15 <= i < 18 { assert t[i] == c[i - 15]; }
      else if 20 <= i < 23 { assert t[i] == d[i - 20]; }
      else if 24 <= i { assert t[i] == e[i - 24]; }
    }
    HexIs(t[19]);
  }
}
