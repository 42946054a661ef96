/** References to cataloged resources: the identity, packed behind a version. */
module ResourceRefs {
  import opened Wrappers
  import opened JsonValues
  import opened JsonRoundTrip
  import opened JsonMeaning
  import opened Encodings
  import opened Codecs

  datatype Kind = Http | Mcp
  datatype Identity = Identity(kind: Kind, url: Text, tool: Option<Text>)

  const VERSION: Text := [118, 49]
  const T: Text := [116]
  const U: Text := [117]
  const N: Text := [110]
  const HTTP: Text := [104, 116, 116, 112]
  const MCP: Text := [109, 99, 112]

  function Described(id: Identity): Value {
    match id.kind
    case Mcp => Obj([Member(T, Str(MCP)), Member(U, Str(id.url)), Member(N, Str(id.tool.GetOr([])))])
    case Http => Obj([Member(T, Str(HTTP)), Member(U, Str(id.url))])
  }

  function EncodeResourceRef(id: Identity): Text { VERSION + [STOP] + Pack(Described(id)) }

  // Position of the first separator, or the length.
  function FirstStop(t: Text): (i: nat)
    ensures i <= |t| && (i < |t| ==> t[i] == STOP) && STOP !in t[..i]
  {
    if t == [] || t[0] == STOP then 0
    else
      var i := 1 + FirstStop(t[1..]);
      assert t[..i] == [t[0]] + t[1..][..i - 1];
      i
  }

  // None is the error for a malformed reference.
  function DecodeResourceRef(ref: Text): Option<Identity> {
    var i := FirstStop(ref);
    var encoded := if i == |ref| then [] else ref[i + 1..];
    if ref[..i] != VERSION || encoded == [] then None
    else
      var v := Unpack(encoded);
      if v.None? || !v.value.Obj? then None
      else
        var members := v.value.members;
        var t, u, n := Lookup(members, T), Lookup(members, U), Lookup(members, N);
        if (t != Some(Str(HTTP)) && t != Some(Str(MCP))) || u.None? || !u.value.Str? then None
        else if t == Some(Str(MCP)) && (n.None? || !n.value.Str?) then None
        else if t == Some(Str(MCP)) then Some(Identity(Mcp, u.value.text, Some(n.value.text)))
        else Some(Identity(Http, u.value.text, None))
  }

  // What a reference keeps of an identity.
  function Settled(id: Identity): Identity {
    match id.kind
    case Http => id.(tool := None)
    case Mcp => id.(tool := Some(id.tool.GetOr([])))
  }

  lemma DescribedSurvives(id: Identity)
    ensures WellFormed(Described(id)) && Normal(Described(id)).Obj?
    ensures var members := Normal(Described(id)).members;
      && Lookup(members, T) == Some(Str(if id.kind.Mcp? then MCP else HTTP))
      && Lookup(members, U) == Some(Str(id.url))
      && (id.kind.Mcp? ==> Lookup(members, N) == Some(Str(id.tool.GetOr([]))))
  {
    var v := Described(id);
    assert T[0] == 116 && U[0] == 117 && N[0] == 110;
    MemberSurvives(v, 0);
    MemberSurvives(v, 1);
    if id.kind.Mcp? { MemberSurvives(v, 2); }
  }

  lemma {:induction false} StopFound(a: Text, rest: Text)
    requires STOP !in a
    ensures FirstStop(a + [STOP] + rest) == |a|
  {
    var t := a + [STOP] + rest;
    if a != [] {
      StopFound(a[1..], rest);
      assert t[0] == a[0] && t[1..] == a[1..] + [STOP] + rest;
    }
  }

  // Decoding gives back the settled identity.
  lemma RefDecodes(id: Identity)
    ensures DecodeResourceRef(EncodeResourceRef(id)) == Some(Settled(id))
  {
    var ref, body := EncodeResourceRef(id), Pack(Described(id));
    DescribedSurvives(id);
    PackRoundTrip(Described(id));
    StopFound(VERSION, body);
    assert ref[..2] == VERSION && ref[3..] == body;
    assert HTTP[0] == 104 && MCP[0] == 109;
  }

  // Decoding undoes encoding if and only if an http identity names no tool and an mcp identity does.
  lemma RefRoundTripIff(id: Identity)
    ensures DecodeResourceRef(EncodeResourceRef(id)) == Some(id) <==> (id.kind.Http? <==> id.tool.None?)
  {
    RefDecodes(id);
  }

  // Two identities share a reference if and only if they settle to the same one.
  lemma RefsAreInjectiveIff(a: Identity, b: Identity)
    ensures EncodeResourceRef(a) == EncodeResourceRef(b) <==> Settled(a) == Settled(b)
  {
    RefDecodes(a);
    RefDecodes(b);
    if Settled(a) == Settled(b) {
      assert Described(a) == Described(Settled(a)) && Described(b) == Described(Settled(b));
    }
  }

  /* ---- What is accepted ---- */

  // The members of a packed object that name an identity; an mcp identity always names a tool.
  predicate Names(v: Value, id: Identity) {
    && v.Obj? && Lookup(v.members, U) == Some(Str(id.url))
    && Lookup(v.members, T) == Some(Str(if id.kind == Mcp then MCP else HTTP))
    && (id.kind == Mcp ==> id.tool.Some? && Lookup(v.members, N) == Some(Str(id.tool.value)))
    && (id.kind == Http ==> id.tool == None)
  }

  // A reference is accepted as an identity if and only if it is the version and a word that packs an object
  // with exactly the identity's members.
  lemma RefIsAcceptedIff(ref: Text, id: Identity)
    ensures DecodeResourceRef(ref) == Some(id) <==>
      exists word: Text ::
        word != [] && ref == VERSION + [STOP] + word && Unpack(word).Some? && Names(Unpack(word).value, id)
  {
    assert HTTP[0] == 104 && MCP[0] == 109;
    if DecodeResourceRef(ref) == Some(id) {
      var i := FirstStop(ref);
      assert ref == ref[..i] + [STOP] + ref[i + 1..];
    }
    forall word: Text | word != [] && ref == VERSION + [STOP] + word && Unpack(word).Some?
                        && Names(Unpack(word).value, id)
      ensures DecodeResourceRef(ref) == Some(id)
    {
      StopFound(VERSION, word);
      assert ref[..2] == VERSION && ref[3..] == word;
    }
  }
}
