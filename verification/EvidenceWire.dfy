/** The evidence as a JSON object on the wire: json_response of pop-verifier/app.py writes it
    compactly with ASCII escapes, json.loads in third-party-backend/app.py reads it back. */
module EvidenceWire {
  import opened Wrappers
  import opened JsonText
  import opened Evidence

  const COMMA: Ascii := 44
  const COLON: Ascii := 58
  const OPEN: Ascii := 123
  const CLOSE: Ascii := 125

  /* ---------------- writing ---------------- */

  function KeyText(name: Name): Text {
    match name
    case Azp => Ascii7("azp")
    case RouteId => Ascii7("route")
    case ClientAuthentication => Ascii7("client_authentication")
    case TokenThumbprint => Ascii7("token_certificate_thumbprint")
    case ForwardedThumbprint => Ascii7("forwarded_client_certificate_thumbprint")
    case PeerThumbprint => Ascii7("api_gateway_tls_peer_certificate_thumbprint")
    case SignatureVerified => Ascii7("token_signature_verified")
    case BindingVerified => Ascii7("binding_verified")
    case Department => Ascii7("department")
    case LogicalRoute => Ascii7("logical_route")
    case DepartmentHeader => Ascii7("department_header")
    case LogicalRouteHeader => Ascii7("logical_route_header")
    case HeadersMatch => Ascii7("header_claims_match")
    case Unknown(text) => text
  }

  /** The order build_evidence and routing_evidence insert the members in. */
  const INSERTED: seq<Name> := [
    Azp, RouteId, ClientAuthentication, TokenThumbprint, ForwardedThumbprint, PeerThumbprint,
    SignatureVerified, BindingVerified, Department, LogicalRoute, DepartmentHeader, LogicalRouteHeader, HeadersMatch]

  const TRUE: Json8 := [116, 114, 117, 101]
  const FALSE: Json8 := [102, 97, 108, 115, 101]
  const NULL: Json8 := [110, 117, 108, 108]

  function DumpText(t: Text): Json8 { [QUOTE] + Escape(t) + [QUOTE] }

  function DumpValue(v: Value): Json8 {
    match v
    case Txt(t) => DumpText(t)
    case Flag(b) => if b then TRUE else FALSE
    case _ => NULL
  }

  function DumpMember(m: Members, name: Name): Json8 {
    DumpText(KeyText(name)) + [COLON] + DumpValue(MemberOf(m, name))
  }

  function DumpMembers(m: Members, names: seq<Name>): Json8 {
    if names == [] then []
    else if |names| == 1 then DumpMember(m, names[0])
    else DumpMember(m, names[0]) + [COMMA] + DumpMembers(m, names[1..])
  }

  /** json_response: json.dumps with compact separators and ASCII escapes */
  function Body(e: Evidence): Json8 { [OPEN] + DumpMembers(MembersOf(e), INSERTED) + [CLOSE] }

  /* ---------------- reading ---------------- */

  /** How far the quote that ends a string is, skipping what a backslash stands before. */
  function StringEnd(s: Json8): (n: Option<nat>)
    ensures n.Some? ==> n.value < |s|
  {
    if s == [] then None
    else if s[0] == QUOTE then Some(0)
    else
      var skip := if s[0] == BACKSLASH then 2 else 1;
      if |s| < skip then None
      else
        var n := StringEnd(s[skip..]);
        if n.Some? then Some(skip + n.value) else None
  }

  /** What was read, and the text after it. */
  datatype Found<+T> = Found(value: T, rest: Json8)

  function ReadText(s: Json8): (r: Result<Found<Text>>)
    ensures r.Ok? ==> |r.value.rest| < |s|
  {
    if s == [] || s[0] != QUOTE then Err
    else
      var n := StringEnd(s[1..]);
      if n.None? then Err
      else
        var t :- Unescape(s[1..][..n.value]);
        Ok(Found(t, s[1..][n.value + 1..]))
  }

  /** A string, true, false or null; other values are not read. */
  function ReadValue(s: Json8): (r: Result<Found<Value>>)
    ensures r.Ok? ==> |r.value.rest| < |s|
  {
    if s != [] && s[0] == QUOTE then
      var t :- ReadText(s);
      Ok(Found(Txt(t.value), t.rest))
    else if TRUE <= s then Ok(Found(Flag(true), s[4..]))
    else if FALSE <= s then Ok(Found(Flag(false), s[5..]))
    else if NULL <= s then Ok(Found(Null, s[4..]))
    else Err
  }

  function NameOf(t: Text): Name {
    if t == KeyText(Azp) then Azp
    else if t == KeyText(RouteId) then RouteId
    else if t == KeyText(ClientAuthentication) then ClientAuthentication
    else if t == KeyText(TokenThumbprint) then TokenThumbprint
    else if t == KeyText(ForwardedThumbprint) then ForwardedThumbprint
    else if t == KeyText(PeerThumbprint) then PeerThumbprint
    else if t == KeyText(SignatureVerified) then SignatureVerified
    else if t == KeyText(BindingVerified) then BindingVerified
    else if t == KeyText(Department) then Department
    else if t == KeyText(LogicalRoute) then LogicalRoute
    else if t == KeyText(DepartmentHeader) then DepartmentHeader
    else if t == KeyText(LogicalRouteHeader) then LogicalRouteHeader
    else if t == KeyText(HeadersMatch) then HeadersMatch
    else Unknown(t)
  }

  /** The members from here to the end of the text; unique_object refuses a name seen before. */
  function ReadMembers(s: Json8, got: Members): Result<Members>
    decreases |s|
  {
    var key :- ReadText(s);
    if key.rest == [] || key.rest[0] != COLON then Err
    else
      var member :- ReadValue(key.rest[1..]);
      var name := NameOf(key.value);
      if name in got then Err
      else if member.rest == [CLOSE] then Ok(got[name := member.value])
      else if member.rest == [] || member.rest[0] != COMMA then Err
      else ReadMembers(member.rest[1..], got[name := member.value])
  }

  /** json.loads with unique_object, on objects of strings and literals without blanks */
  function Read(s: Json8): Result<Members> {
    if s == [OPEN, CLOSE] then Ok(map[])
    else if s == [] || s[0] != OPEN then Err
    else ReadMembers(s[1..], map[])
  }

  /* ---------------- a string is read to its end ---------------- */

  lemma {:induction false} OnePassed(x: Ascii, tail: Json8)
    requires x != QUOTE && x != BACKSLASH && StringEnd(tail).Some?
    ensures StringEnd([x] + tail) == Some(1 + StringEnd(tail).value)
  {
    assert ([x] + tail)[1..] == tail;
  }

  lemma {:induction false} TwoPassed(x: Ascii, tail: Json8)
    requires StringEnd(tail).Some?
    ensures StringEnd([BACKSLASH, x] + tail) == Some(2 + StringEnd(tail).value)
  {
    assert ([BACKSLASH, x] + tail)[2..] == tail;
  }

  lemma {:induction false} HexPassed(h: Json8, tail: Json8)
    requires StringEnd(tail).Some? && |h| == 4 && forall i :: 0 <= i < 4 ==> h[i] != QUOTE && h[i] != BACKSLASH
    ensures StringEnd(h + tail) == Some(4 + StringEnd(tail).value)
  {
    hide StringEnd;
    OnePassed(h[3], tail);
    OnePassed(h[2], [h[3]] + tail);
    OnePassed(h[1], [h[2]] + ([h[3]] + tail));
    OnePassed(h[0], [h[1]] + ([h[2]] + ([h[3]] + tail)));
    assert h + tail == [h[0]] + ([h[1]] + ([h[2]] + ([h[3]] + tail)));
  }

  lemma {:induction false} LongPassed(u: Unit, tail: Json8)
    requires StringEnd(tail).Some?
    ensures StringEnd(Long(u) + tail) == Some(6 + StringEnd(tail).value) && |Long(u)| == 6
  {
    hide StringEnd;
    HexPassed(Hex(u), tail);
    TwoPassed(U, Hex(u) + tail);
    assert Long(u) + tail == [BACKSLASH, U] + (Hex(u) + tail);
  }

  lemma {:induction false} PointPassed(c: CodePoint, tail: Json8)
    requires StringEnd(tail).Some?
    ensures StringEnd(EscapePoint(c) + tail) == Some(|EscapePoint(c)| + StringEnd(tail).value)
  {
    hide StringEnd, Long;
    if ShortEscape(c).Some? {
      TwoPassed(ShortEscape(c).value, tail);
    } else if 32 <= c <= 126 {
      OnePassed(c, tail);
    } else if c < 0x10000 {
      LongPassed(c, tail);
    } else {
      LongPassed(Low(c), tail);
      LongPassed(High(c), Long(Low(c)) + tail);
      assert EscapePoint(c) + tail == Long(High(c)) + (Long(Low(c)) + tail);
    }
  }

  /** The quote that ends an escaped text is the first one that counts. */
  lemma {:induction false} EndOfEscape(t: Text, rest: Json8)
    ensures StringEnd(Escape(t) + ([QUOTE] + rest)) == Some(|Escape(t)|)
  {
    if t == [] {
      assert Escape(t) + ([QUOTE] + rest) == [QUOTE] + rest;
    } else {
      hide StringEnd, EscapePoint;
      var tail := Escape(t[1..]) + ([QUOTE] + rest);
      EndOfEscape(t[1..], rest);
      PointPassed(t[0], tail);
      assert Escape(t) + ([QUOTE] + rest) == EscapePoint(t[0]) + tail;
    }
  }

  /** A string that was written is read with its surrogate halves put together, and what follows
      it is left. */
  lemma {:induction false} TextReads(t: Text, rest: Json8)
    ensures ReadText(DumpText(t) + rest) == Ok(Found(Joined(t), rest))
  {
    hide StringEnd, Escape, Unescape, Joined;
    EndOfEscape(t, rest);
    ReadBack(t);
    var s := DumpText(t) + rest;
    assert s[1..] == Escape(t) + ([QUOTE] + rest);
    assert s[1..][..|Escape(t)|] == Escape(t) && s[1..][|Escape(t)| + 1..] == rest;
  }

  /* ---------------- the object is read back ---------------- */

  /** A member after json.dumps and json.loads. */
  function Carried(v: Value): Value { if v.Txt? then Txt(Joined(v.t)) else v }

  lemma {:induction false} ValueReads(v: Value, rest: Json8)
    requires !v.Other?
    ensures ReadValue(DumpValue(v) + rest) == Ok(Found(Carried(v), rest))
  {
    hide ReadText, DumpText, Joined;
    var s := DumpValue(v) + rest;
    match v
    case Txt(t) =>
      TextReads(t, rest);
      assert s[0] == QUOTE by {
        StartsWithQuote(t);
      }
    case Flag(b) =>
      assert s[..|DumpValue(v)|] == DumpValue(v) && s[|DumpValue(v)|..] == rest;
      assert s[0] == DumpValue(v)[0];
    case Null =>
      assert s[..4] == NULL && s[4..] == rest && s[0] == NULL[0];
  }

  lemma {:induction false} StartsWithQuote(t: Text)
    ensures DumpText(t) != [] && DumpText(t)[0] == QUOTE
  {
  }

  /** The thirteen names are told apart by their lengths. */
  lemma {:induction false} KeySizes()
    ensures |KeyText(Azp)| == 3 && |KeyText(RouteId)| == 5 && |KeyText(ClientAuthentication)| == 21
    ensures |KeyText(TokenThumbprint)| == 28 && |KeyText(ForwardedThumbprint)| == 39 && |KeyText(PeerThumbprint)| == 43
    ensures |KeyText(SignatureVerified)| == 24 && |KeyText(BindingVerified)| == 16 && |KeyText(HeadersMatch)| == 19
    ensures |KeyText(Department)| == 10 && |KeyText(LogicalRoute)| == 13
    ensures |KeyText(DepartmentHeader)| == 17 && |KeyText(LogicalRouteHeader)| == 20
  {
    hide Ascii7;
  }

  lemma {:induction false} NameReads(name: Name)
    requires !name.Unknown?
    ensures NameOf(Joined(KeyText(name))) == name
  {
    KeyIsPlain(name);
    PlainIsWhole(KeyText(name));
    KeySizes();
    hide Joined, Plain, KeyText;
  }

  predicate SmallLetters(s: string) { forall i :: 0 <= i < |s| ==> 'a' <= s[i] <= 'z' || s[i] == '_' }

  predicate Plain(t: Text) { |t| <= 43 && forall i :: 0 <= i < |t| ==> 95 <= t[i] <= 122 }

  lemma {:induction false} LettersArePlain(s: string)
    requires |s| <= 43 && SmallLetters(s)
    ensures Plain(Ascii7(s))
  {
  }

  /** The names are small letters and underscores. */
  lemma {:induction false} KeyIsPlain(name: Name)
    requires !name.Unknown?
    ensures Plain(KeyText(name))
  {
    hide Plain, Ascii7;
    match name
    case Azp => LettersArePlain("azp");
    case RouteId => LettersArePlain("route");
    case ClientAuthentication => LettersArePlain("client_authentication");
    case Department => LettersArePlain("department");
    case LogicalRoute => LettersArePlain("logical_route");
    case DepartmentHeader => LettersArePlain("department_header");
    case LogicalRouteHeader => LettersArePlain("logical_route_header");
    case SignatureVerified => FlagKeyIsPlain(name);
    case BindingVerified => FlagKeyIsPlain(name);
    case HeadersMatch => FlagKeyIsPlain(name);
    case _ => ThumbprintKeyIsPlain(name);
  }

  lemma {:induction false} ThumbprintKeyIsPlain(name: Name)
    requires name.TokenThumbprint? || name.ForwardedThumbprint? || name.PeerThumbprint?
    ensures Plain(KeyText(name))
  {
    hide Plain, Ascii7;
    match name
    case TokenThumbprint => LettersArePlain("token_certificate_thumbprint");
    case ForwardedThumbprint => LettersArePlain("forwarded_client_certificate_thumbprint");
    case PeerThumbprint => PeerKeyIsPlain();
  }

  lemma {:induction false} PeerKeyIsPlain()
    ensures Plain(KeyText(PeerThumbprint))
  {
    hide Plain, Ascii7;
    LettersArePlain("api_gateway_tls_peer_certificate_thumbprint");
  }

  lemma {:induction false} FlagKeyIsPlain(name: Name)
    requires name.SignatureVerified? || name.BindingVerified? || name.HeadersMatch?
    ensures Plain(KeyText(name))
  {
    hide Plain, Ascii7;
    match name
    case SignatureVerified => LettersArePlain("token_signature_verified");
    case BindingVerified => LettersArePlain("binding_verified");
    case HeadersMatch => LettersArePlain("header_claims_match");
  }

  lemma {:induction false} PlainIsWhole(t: Text)
    requires Plain(t)
    ensures Joined(t) == t
  {
    JoinedIsShorter(t);
  }

  lemma {:induction false} PlainEscapes(t: Text)
    requires Plain(t)
    ensures |Escape(t)| == |t|
  {
    if t != [] {
      PlainEscapes(t[1..]);
    }
  }

  /** What is read of these members. */
  function ReadOf(m: Members, names: seq<Name>): Members {
    map name | name in names :: Carried(MemberOf(m, name))
  }

  predicate Writable(m: Members, names: seq<Name>, got: Members) {
    && (forall i, j :: 0 <= i < j < |names| ==> names[i] != names[j])
    && forall i :: 0 <= i < |names| ==> !names[i].Unknown? && names[i] !in got && !MemberOf(m, names[i]).Other?
  }

  /** One member is read, and the rest is read with it in hand. */
  lemma {:induction false} MemberReads(m: Members, name: Name, got: Members, after: Json8)
    requires !name.Unknown? && name !in got && !MemberOf(m, name).Other?
    ensures var now := got[name := Carried(MemberOf(m, name))];
      && (after == [CLOSE] ==> ReadMembers(DumpMember(m, name) + after, got) == Ok(now))
      && (|after| > 1 && after[0] == COMMA ==>
            ReadMembers(DumpMember(m, name) + after, got) == ReadMembers(after[1..], now))
  {
    hide ReadText, ReadValue, DumpText, DumpValue, Joined, MemberOf, NameOf, KeyText, Carried;
    var value := DumpValue(MemberOf(m, name));
    var behind := [COLON] + (value + after);
    assert DumpMember(m, name) + after == DumpText(KeyText(name)) + behind;
    TextReads(KeyText(name), behind);
    assert behind[1..] == value + after;
    ValueReads(MemberOf(m, name), after);
    NameReads(name);
  }

  lemma {:induction false} MembersRead(m: Members, names: seq<Name>, got: Members)
    requires names != [] && Writable(m, names, got)
    ensures ReadMembers(DumpMembers(m, names) + [CLOSE], got) == Ok(got + ReadOf(m, names))
    decreases |names|
  {
    hide ReadMembers, DumpMember, MemberOf, Carried, ReadOf;
    var name, rest := names[0], names[1..];
    var now := got[name := Carried(MemberOf(m, name))];
    OneMoreRead(m, names, got);
    if |names| == 1 {
      MemberReads(m, name, got, [CLOSE]);
      NothingRead(m, rest, now);
    } else {
      var after := [COMMA] + (DumpMembers(m, rest) + [CLOSE]);
      MemberReads(m, name, got, after);
      assert DumpMembers(m, names) + [CLOSE] == DumpMember(m, name) + after;
      assert after[1..] == DumpMembers(m, rest) + [CLOSE];
      MembersRead(m, rest, now);
    }
  }

  lemma {:induction false} NothingRead(m: Members, names: seq<Name>, got: Members)
    requires names == []
    ensures got + ReadOf(m, names) == got
  {
  }

  lemma {:induction false} OneMoreRead(m: Members, names: seq<Name>, got: Members)
    requires names != [] && names[0] !in names[1..]
    ensures got[names[0] := Carried(MemberOf(m, names[0]))] + ReadOf(m, names[1..]) == got + ReadOf(m, names)
  {
    hide Carried, MemberOf;
    assert forall n :: n in names <==> n == names[0] || n in names[1..];
  }

  /** The texts of the evidence are texts or null. */
  predicate NoOther(e: Evidence) {
    !e.department.Other? && !e.logicalRoute.Other? && !e.departmentHeader.Other? && !e.logicalRouteHeader.Other?
  }

  lemma {:induction false} InsertedAll(name: Name)
    ensures name in INSERTED <==> !name.Unknown?
    ensures forall i, j :: 0 <= i < j < |INSERTED| ==> INSERTED[i] != INSERTED[j]
  {
    assert INSERTED[0] == Azp && INSERTED[1] == RouteId && INSERTED[2] == ClientAuthentication;
    assert INSERTED[3] == TokenThumbprint
      && INSERTED[4] == ForwardedThumbprint && INSERTED[5] == PeerThumbprint && INSERTED[6] == SignatureVerified;
    assert INSERTED[7] == BindingVerified && INSERTED[8] == Department && INSERTED[9] == LogicalRoute
      && INSERTED[10] == DepartmentHeader && INSERTED[11] == LogicalRouteHeader && INSERTED[12] == HeadersMatch;
  }

  lemma {:induction false} NoneIsOther(e: Evidence, name: Name)
    requires NoOther(e)
    ensures !MemberOf(MembersOf(e), name).Other? && (name in INSERTED <==> name in MembersOf(e))
  {
    InsertedAll(name);
    hide INSERTED;
  }

  lemma {:induction false} EvidenceIsWritable(e: Evidence)
    requires NoOther(e)
    ensures Writable(MembersOf(e), INSERTED, map[])
    ensures ReadOf(MembersOf(e), INSERTED) == map name | name in MembersOf(e) :: Carried(MembersOf(e)[name])
  {
    InsertedAll(Azp);
    hide Carried, MembersOf, INSERTED;
    forall name: Name
      ensures name in INSERTED <==> name in MembersOf(e)
      ensures name in INSERTED ==> !name.Unknown? && !MemberOf(MembersOf(e), name).Other?
    {
      InsertedAll(name);
      NoneIsOther(e, name);
    }
  }

  /** The object read from the body of an evidence has its thirteen members, each text with its
      surrogate halves put together. */
  lemma {:induction false} BodyReads(e: Evidence)
    requires NoOther(e)
    ensures Read(Body(e)) == Ok(map name | name in MembersOf(e) :: Carried(MembersOf(e)[name]))
  {
    var m := MembersOf(e);
    EvidenceIsWritable(e);
    MembersRead(m, INSERTED, map[]);
    BodyIsLong(m);
    hide *;
    ReadInside(DumpMembers(m, INSERTED));
    NothingAdded(ReadOf(m, INSERTED));
    BodyIs(e);
  }

  lemma {:induction false} BodyIs(e: Evidence)
    ensures Body(e) == [OPEN] + DumpMembers(MembersOf(e), INSERTED) + [CLOSE]
  {
  }

  lemma {:induction false} ReadInside(inside: Json8)
    requires inside != []
    ensures Read([OPEN] + inside + [CLOSE]) == ReadMembers(inside + [CLOSE], map[])
  {
    hide ReadMembers;
    assert ([OPEN] + inside + [CLOSE])[1..] == inside + [CLOSE];
  }

  lemma {:induction false} NothingAdded(m: Members)
    ensures map[] + m == m
  {
  }

  lemma {:induction false} BodyIsLong(m: Members)
    ensures DumpMembers(m, INSERTED) != []
  {
    hide MemberOf, KeyText, Escape;
  }
}
