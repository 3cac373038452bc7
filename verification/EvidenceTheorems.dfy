/** Producer against projector: what the verifier sends is what the backend passes on. */
module EvidenceTheorems {
  import opened Wrappers
  import opened Octets
  import opened JsonText
  import opened Base64Url
  import opened Evidence
  import opened EvidenceWire

  /* ---------------- the members of the evidence ---------------- */

  /** The URL-safe text of a SHA-256 digest has the form the projector asks for. */
  lemma {:induction false} DigestFits(digest: Bytes)
    requires |digest| == 32
    ensures ThumbprintFits(Txt(Thumbprint(digest)))
  {
    var s := LettersThenPadding(digest);
    LettersAreNoPad(s);
    StripsAll(s, Padding(|s|));
    var t := Thumbprint(digest);
    hide Index, Encode, Strip;
    forall i | 0 <= i < |t| ensures UrlLetter(t[i]) {
      LetterIsUrl(s[i]);
    }
  }

  lemma {:induction false} LetterIsUrl(c: char)
    requires Index(c).Some?
    ensures UrlLetter(Code(c))
  {
  }

  /** The four texts of the evidence. */
  predicate TextsClean(e: Evidence) {
    && ValueClean(e.department) && ValueClean(e.logicalRoute)
    && ValueClean(e.departmentHeader) && ValueClean(e.logicalRouteHeader)
  }

  predicate ValueClean(v: Value) { v.Txt? ==> NoControl(v.t) }

  lemma {:induction false} SafeTextFits(v: Value)
    ensures SafeText(v) == Null || (SafeText(v).Txt? && |SafeText(v).t| <= 256)
    ensures TextFits(SafeText(v)) <==> ValueClean(SafeText(v))
  {
  }

  /** The identities of the two routes differ. */
  lemma {:induction false} RoutesDiffer()
    ensures RouteName(RouteA) != RouteName(RouteB)
  {
    assert RouteName(RouteA)[6] == 97 && RouteName(RouteB)[6] == 98;
  }

  lemma {:induction false} IdentityFits(q: Request, r: Route)
    ensures var m := MembersOf(BuildEvidence(q));
      q.route == r <==>
        forall i :: 0 <= i < |IDENTITY_FIELDS| ==> MemberOf(m, IDENTITY_FIELDS[i]) == Expected(r)[IDENTITY_FIELDS[i]]
  {
    RoutesDiffer();
    hide RouteName, Party, Method, SafeText, Thumbprint;
    var m := MembersOf(BuildEvidence(q));
    assert MemberOf(m, RouteId) == Txt(RouteName(q.route)) && Expected(r)[RouteId] == Txt(RouteName(r));
    assert IDENTITY_FIELDS[0] == RouteId;
  }

  lemma {:induction false} TextsFit(q: Request)
    ensures var e := BuildEvidence(q);
      TextsClean(e) <==>
        forall i :: 0 <= i < |TEXT_FIELDS| ==> TEXT_FIELDS[i] in MembersOf(e) && TextFits(MembersOf(e)[TEXT_FIELDS[i]])
  {
    hide RouteName, Party, Method, SafeText, Thumbprint, TextFits, ValueClean;
    var e := BuildEvidence(q);
    var m := MembersOf(e);
    SafeTextFits(q.departmentClaim);
    SafeTextFits(q.routeClaim);
    SafeTextFits(HeaderValue(q.departmentHeader));
    SafeTextFits(HeaderValue(q.routeHeader));
    assert TEXT_FIELDS[0] == Department && TEXT_FIELDS[1] == LogicalRoute && TEXT_FIELDS[2] == DepartmentHeader
      && TEXT_FIELDS[3] == LogicalRouteHeader;
    assert m[Department] == e.department && m[LogicalRoute] == e.logicalRoute;
    assert m[DepartmentHeader] == e.departmentHeader
      && m[LogicalRouteHeader] == e.logicalRouteHeader;
  }

  lemma {:induction false} ThumbprintsFit(q: Request)
    requires Verified(q)
    ensures var m := MembersOf(BuildEvidence(q));
      && (forall i :: 0 <= i < |THUMBPRINT_FIELDS| ==> ThumbprintFits(MemberOf(m, THUMBPRINT_FIELDS[i])))
      && MemberOf(m, THUMBPRINT_FIELDS[0]) == MemberOf(m, THUMBPRINT_FIELDS[1])
  {
    DigestFits(q.forwardedDigest);
    DigestFits(q.peerDigest);
    hide RouteName, Party, Method, SafeText, Thumbprint, ThumbprintFits, HasSurrogate, Truthy, HeaderValue;
    var m := MembersOf(BuildEvidence(q));
    assert m[TokenThumbprint] == m[ForwardedThumbprint] == Txt(Thumbprint(q.forwardedDigest));
    assert m[PeerThumbprint] == Txt(Thumbprint(q.peerDigest));
    assert THUMBPRINT_FIELDS[0] == TokenThumbprint && THUMBPRINT_FIELDS[1] == ForwardedThumbprint;
    assert THUMBPRINT_FIELDS[2] == PeerThumbprint;
  }

  lemma {:induction false} FlagsFit(q: Request)
    ensures var m := MembersOf(BuildEvidence(q));
      forall i :: 0 <= i < |FLAG_FIELDS| ==> FlagFits(FLAG_FIELDS[i], MemberOf(m, FLAG_FIELDS[i]))
  {
    hide RouteName, Party, Method, SafeText, Thumbprint, TextEqual, Truthy, HeaderValue;
    assert FLAG_FIELDS[0] == SignatureVerified && FLAG_FIELDS[1] == BindingVerified && FLAG_FIELDS[2] == HeadersMatch;
  }

  lemma {:induction false} MatchIsConsistent(q: Request)
    ensures HeadersConsistent(MembersOf(BuildEvidence(q)))
  {
    hide RouteName, Party, Method, SafeText, Thumbprint;
    assert TEXT_FIELDS[0] == Department && TEXT_FIELDS[1] == LogicalRoute && TEXT_FIELDS[2] == DepartmentHeader
      && TEXT_FIELDS[3] == LogicalRouteHeader;
  }

  lemma {:induction false} AllFields(e: Evidence)
    ensures Restricted(MembersOf(e), FIELDS) == MembersOf(e)
  {
    var m := MembersOf(e);
    forall name ensures name in FIELDS <==> name in m {
      FieldListed(name);
    }
  }

  lemma {:induction false} FieldListed(name: Name)
    ensures name in FIELDS <==> !name.Unknown?
  {
    assert FIELDS[0] == RouteId && FIELDS[1] == Azp && FIELDS[2] == ClientAuthentication && FIELDS[3] == Department
      && FIELDS[4] == LogicalRoute && FIELDS[5] == DepartmentHeader && FIELDS[6] == LogicalRouteHeader;
    assert FIELDS[7] == TokenThumbprint && FIELDS[8] == ForwardedThumbprint && FIELDS[9] == PeerThumbprint
      && FIELDS[10] == SignatureVerified && FIELDS[11] == BindingVerified && FIELDS[12] == HeadersMatch;
  }

  /** For a verified request the evidence is accepted on a route exactly when it is the route of
      the token's client and the four texts hold no control character; then the projection is
      the evidence itself, all thirteen members of it. */
  lemma {:induction false} EvidenceIsProjected(q: Request, r: Route)
    requires Verified(q)
    ensures Projectable(MembersOf(BuildEvidence(q)), r) <==> (q.route == r && TextsClean(BuildEvidence(q)))
    ensures Restricted(MembersOf(BuildEvidence(q)), FIELDS) == MembersOf(BuildEvidence(q))
  {
    AllFields(BuildEvidence(q));
    hide MembersOf, BuildEvidence, MemberOf, TextFits, ThumbprintFits;
    hide FlagFits, HeadersConsistent, TextsClean, Restricted, Expected;
    IdentityFits(q, r);
    TextsFit(q);
    ThumbprintsFit(q);
    FlagsFit(q);
    MatchIsConsistent(q);
  }

  /** All four texts are there, can be encoded and agree in pairs. */
  predicate HeadersAgree(e: Evidence) {
    && Truthy(e.department) && Truthy(e.logicalRoute)
    && e.department == e.departmentHeader && e.logicalRoute == e.logicalRouteHeader
    && !HasSurrogate(e.department.t) && !HasSurrogate(e.logicalRoute.t)
  }

  lemma {:induction false} FlagMeansAgreement(q: Request)
    ensures BuildEvidence(q).headersMatch <==> HeadersAgree(BuildEvidence(q))
  {
    hide SafeText, HasSurrogate, Thumbprint, RouteName, Party, Method;
  }

  /* ---------------- over the wire ---------------- */

  /** Claims come out of a JSON decoder and header texts hold Latin-1 characters only. */
  predicate FromTheWire(q: Request) {
    && Whole(q.tokenThumbprint)
    && (q.departmentClaim.Txt? ==> Whole(q.departmentClaim.t)) && (q.routeClaim.Txt? ==> Whole(q.routeClaim.t))
    && (q.departmentHeader.Some? ==> Latin(q.departmentHeader.value))
    && (q.routeHeader.Some? ==> Latin(q.routeHeader.value))
  }

  predicate Latin(t: Text) { forall i :: 0 <= i < |t| ==> t[i] < 256 }

  predicate WholeValue(v: Value) { v.Txt? ==> Whole(v.t) }

  lemma {:induction false} WholeIsCarried(v: Value)
    requires WholeValue(v)
    ensures Carried(v) == v
  {
    if v.Txt? {
      JoinedIsShorter(v.t);
    }
  }

  lemma {:induction false} LatinIsWhole(t: Text)
    requires Latin(t)
    ensures Whole(t)
  {
  }

  lemma {:induction false} AsciiIsWhole(s: string)
    ensures Whole(Ascii7(s))
  {
  }

  lemma {:induction false} MembersWhole(q: Request)
    requires FromTheWire(q)
    ensures forall name :: name in MembersOf(BuildEvidence(q)) ==> WholeValue(MembersOf(BuildEvidence(q))[name])
  {
    var e := BuildEvidence(q);
    AsciiIsWhole("route-a");
    AsciiIsWhole("route-b");
    AsciiIsWhole("third-party-fapi-mtls");
    AsciiIsWhole("third-party-fapi-pkj-mtls");
    AsciiIsWhole("tls_client_auth");
    AsciiIsWhole("private_key_jwt");
    AsciiIsWhole(Strip(Encode(q.forwardedDigest)));
    AsciiIsWhole(Strip(Encode(q.peerDigest)));
    if q.departmentHeader.Some? {
      LatinIsWhole(q.departmentHeader.value);
    }
    if q.routeHeader.Some? {
      LatinIsWhole(q.routeHeader.value);
    }
    hide Whole, Latin, Ascii7, Strip, Encode;
    assert WholeValue(e.department) && WholeValue(e.logicalRoute) && WholeValue(e.departmentHeader);
    assert WholeValue(e.logicalRouteHeader);
    assert Whole(e.azp) && Whole(e.route) && Whole(e.clientAuthentication);
  }

  lemma {:induction false} BuiltOfTexts(q: Request)
    ensures NoOther(BuildEvidence(q))
  {
    hide RouteName, Party, Method, Thumbprint, TextEqual;
  }

  /** The backend reads back exactly the members the verifier wrote. */
  lemma {:induction false} NothingIsLost(q: Request)
    requires FromTheWire(q)
    ensures Read(Body(BuildEvidence(q))) == Ok(MembersOf(BuildEvidence(q)))
  {
    hide BuildEvidence, MembersOf, WholeValue, Carried, Read, Body, NoOther, FromTheWire;
    BuiltOfTexts(q);
    BodyReads(BuildEvidence(q));
    MembersWhole(q);
    var m := MembersOf(BuildEvidence(q));
    forall name | name in m ensures Carried(m[name]) == m[name] {
      WholeIsCarried(m[name]);
    }
    assert m == map name | name in m :: Carried(m[name]);
  }

  /* ---------------- the size of the body ---------------- */

  const MAX_RESPONSE_BYTES := 16 * 1024

  lemma {:induction false} ValueSize(v: Value, n: nat)
    requires v.Txt? ==> |v.t| <= n
    ensures |DumpValue(v)| <= 12 * n + 5
  {
    if v.Txt? {
      EscapeSize(v.t);
    }
  }

  /** The most code points a member may have. */
  function Longest(name: Name): nat {
    match name
    case Azp => 25
    case RouteId => 7
    case ClientAuthentication => 15
    case TokenThumbprint => 43
    case ForwardedThumbprint => 43
    case PeerThumbprint => 43
    case Department => 256
    case LogicalRoute => 256
    case DepartmentHeader => 256
    case LogicalRouteHeader => 256
    case _ => 0
  }

  lemma {:induction false} FieldsBounded(q: Request)
    requires Verified(q)
    ensures var e := BuildEvidence(q);
      && |e.azp| <= 25 && |e.route| <= 7 && |e.clientAuthentication| <= 15
      && |e.tokenThumbprint| == 43 && |e.forwardedThumbprint| == 43 && |e.peerThumbprint| == 43
      && ShortText(e.department) && ShortText(e.logicalRoute) && ShortText(e.departmentHeader)
      && ShortText(e.logicalRouteHeader)
  {
    DigestFits(q.forwardedDigest);
    DigestFits(q.peerDigest);
    hide Thumbprint, HasSurrogate, HeaderValue, Truthy;
  }

  predicate ShortText(v: Value) { v.Txt? ==> |v.t| <= 256 }

  lemma {:induction false} MembersBounded(q: Request, name: Name)
    requires Verified(q)
    ensures var v := MemberOf(MembersOf(BuildEvidence(q)), name);
      v.Txt? ==> |v.t| <= Longest(name)
  {
    hide BuildEvidence, Verified;
    FieldsBounded(q);
  }

  lemma {:induction false} MemberSize(m: Members, name: Name, n: nat)
    requires !name.Unknown? && (MemberOf(m, name).Txt? ==> |MemberOf(m, name).t| <= n)
    ensures |DumpMember(m, name)| <= 51 + 12 * n
  {
    KeyIsPlain(name);
    PlainEscapes(KeyText(name));
    ValueSize(MemberOf(m, name), n);
    hide DumpValue, KeyText, MemberOf, Escape;
  }

  lemma {:induction false} DumpShrinks(m: Members, names: seq<Name>, k: nat)
    requires k < |names|
    ensures |DumpMembers(m, names[k..])| <= |DumpMember(m, names[k])| + 1 + |DumpMembers(m, names[k + 1..])|
  {
    hide DumpMember;
    assert names[k..][1..] == names[k + 1..] && names[k..][0] == names[k];
  }

  /** Whatever the claims and headers hold, the body of a verified request fits in the backend's
      limit, at twelve bytes for the widest code point. */
  lemma {:induction false} BodyFits(q: Request)
    requires Verified(q)
    ensures |Body(BuildEvidence(q))| <= MAX_RESPONSE_BYTES
  {
    var m := MembersOf(BuildEvidence(q));
    hide BuildEvidence, MembersOf, MemberOf, DumpMember, DumpMembers;
    var left := seq(14, k requires 0 <= k < 14 => |DumpMembers(m, INSERTED[k..])|);
    forall k | 0 <= k < 13 ensures left[k] <= left[k + 1] + 52 + 12 * Longest(INSERTED[k]) {
      InsertedAll(INSERTED[k]);
      MembersBounded(q, INSERTED[k]);
      DumpShrinks(m, INSERTED, k);
      MemberSize(m, INSERTED[k], Longest(INSERTED[k]));
    }
    DumpNothing(m, INSERTED[13..]);
    SumOfSizes(left);
    assert INSERTED[0..] == INSERTED;
  }

  lemma {:induction false} SumOfSizes(left: seq<nat>)
    requires |left| == 14 && left[13] == 0
    requires forall k :: 0 <= k < 13 ==> left[k] <= left[k + 1] + 52 + 12 * Longest(INSERTED[k])
    ensures left[0] <= 15076
  {
    assert left[12] <= 52 && left[11] <= 3176 && left[10] <= 6300 && left[9] <= 9424 && left[8] <= 12548;
    assert left[7] <= 12600 && left[6] <= 12652 && left[5] <= 13220 && left[4] <= 13788 && left[3] <= 14356;
    assert left[2] <= 14588 && left[1] <= 14724;
  }

  lemma {:induction false} DumpNothing(m: Members, names: seq<Name>)
    requires names == []
    ensures DumpMembers(m, names) == []
  {
  }

  /* ---------------- the backend's fetch ---------------- */

  /** An upstream answer; length is its Content-Length, if it has one. */
  datatype Answer = Answer(status: int, jsonType: bool, length: Option<nat>, body: Json8)

  /** What the backend replies: a status, and the members if the evidence is passed on. */
  datatype Reply = Reply(status: int, members: Option<Members>)

  /** The answer is good, within the limit and complete, and its object projects. */
  predicate PassesOn(a: Answer, r: Route) {
    && a.status == 200 && a.jsonType && |a.body| <= MAX_RESPONSE_BYTES
    && (a.length.Some? ==> a.length.value == |a.body|)
    && Read(a.body).Ok? && Projectable(Read(a.body).value, r)
  }

  function ReplyTo(a: Answer, r: Route): Reply {
    if PassesOn(a, r) then Reply(200, Some(Restricted(Read(a.body).value, FIELDS)))
    else Reply(if a.status == 401 || a.status == 403 then a.status else 502, None)
  }

  /** fetch_evidence: one byte more than allowed is read of the body. */
  method FetchEvidence(a: Answer, r: Route) returns (reply: Reply)
    ensures reply == ReplyTo(a, r)
  {
    hide Read, Projectable, Restricted;
    if a.status == 401 || a.status == 403 {
      return Reply(a.status, None);
    }
    if a.status != 200 {
      return Reply(502, None);
    }
    if !a.jsonType || (a.length.Some? && a.length.value > MAX_RESPONSE_BYTES) {
      return Reply(502, None);
    }
    var body := if |a.body| > MAX_RESPONSE_BYTES + 1 then a.body[..MAX_RESPONSE_BYTES + 1] else a.body;
    if |body| > MAX_RESPONSE_BYTES || (a.length.Some? && |body| != a.length.value) {
      return Reply(502, None);
    }
    var source := Read(body);
    if source.Err? {
      return Reply(502, None);
    }
    var projected := ProjectEvidence(source.value, r);
    if projected.Err? {
      return Reply(502, None);
    }
    return Reply(200, Some(projected.value));
  }

  lemma {:induction false} FieldsKept(source: Members, name: Name)
    requires name in FIELDS
    ensures MemberOf(Restricted(source, FIELDS), name) == MemberOf(source, name)
  {
    hide FIELDS;
  }

  /** Projecting again changes nothing: whatever the upstream sent, a reply with status 200 holds
      the thirteen members and would be accepted once more, unchanged. */
  lemma {:induction false} ReplyIsProjected(a: Answer, r: Route)
    ensures ReplyTo(a, r).status == 200 <==> ReplyTo(a, r).members.Some?
    ensures ReplyTo(a, r).members.Some? ==>
      var m := ReplyTo(a, r).members.value;
      m.Keys == (set name | name in FIELDS) && Projectable(m, r) && Restricted(m, FIELDS) == m
  {
    hide Read, Projectable, Restricted;
    if PassesOn(a, r) {
      ProjectionIsStable(Read(a.body).value, r);
    }
  }

  lemma {:induction false} ProjectionIsStable(source: Members, r: Route)
    requires Projectable(source, r)
    ensures var m := Restricted(source, FIELDS);
      m.Keys == (set name | name in FIELDS) && Projectable(m, r) && Restricted(m, FIELDS) == m
  {
    var m := Restricted(source, FIELDS);
    assert forall k :: 0 <= k < |FIELDS| ==> FIELDS[k] in FIELDS;
    FieldsAre();
    hide Expected, TextFits, ThumbprintFits, FlagFits, FIELDS;
    hide IDENTITY_FIELDS, TEXT_FIELDS, THUMBPRINT_FIELDS, FLAG_FIELDS;
    hide HeadersConsistent;
    forall name | name in FIELDS ensures name in m && MemberOf(m, name) == MemberOf(source, name) {
      FieldsKept(source, name);
    }
    StillConsistent(source, m);
  }

  lemma {:induction false} StillConsistent(source: Members, m: Members)
    requires forall name :: name in FIELDS ==> MemberOf(m, name) == MemberOf(source, name)
    ensures HeadersConsistent(source) <==> HeadersConsistent(m)
  {
    FieldsAre();
    hide FIELDS, Truthy, TEXT_FIELDS, MemberOf;
    assert forall name :: name in (set n | n in FIELDS) ==> name in FIELDS;
  }

  lemma {:induction false} FieldsAre()
    ensures forall k :: 0 <= k < |IDENTITY_FIELDS| ==> IDENTITY_FIELDS[k] in FIELDS
    ensures forall k :: 0 <= k < |TEXT_FIELDS| ==> TEXT_FIELDS[k] in FIELDS
    ensures forall k :: 0 <= k < |THUMBPRINT_FIELDS| ==> THUMBPRINT_FIELDS[k] in FIELDS
    ensures forall k :: 0 <= k < |FLAG_FIELDS| ==> FLAG_FIELDS[k] in FIELDS
    ensures {HeadersMatch, Department, LogicalRoute, DepartmentHeader, LogicalRouteHeader} <= set name | name in FIELDS
    ensures |THUMBPRINT_FIELDS| == 3 && |TEXT_FIELDS| == 4
  {
    forall name: Name ensures name in FIELDS <==> !name.Unknown? {
      FieldListed(name);
    }
    hide FIELDS;
    assert forall name :: name in IDENTITY_FIELDS + TEXT_FIELDS + THUMBPRINT_FIELDS + FLAG_FIELDS ==> !name.Unknown?;
  }

  /** The verifier's answer to a verified request. */
  function AnswerTo(q: Request): Answer {
    var body := Body(BuildEvidence(q));
    Answer(200, true, Some(|body|), body)
  }

  /** From the verifier's claims to the backend's reply: on the route of the token's client, with
      texts free of control characters, the evidence arrives unchanged; on any other route or with
      other texts it is refused. Its match flag is up exactly when claims and headers agree. */
  lemma {:induction false} VerifiedEvidenceArrives(q: Request, r: Route)
    requires Verified(q) && FromTheWire(q)
    ensures ReplyTo(AnswerTo(q), r) ==
      if q.route == r && TextsClean(BuildEvidence(q)) then Reply(200, Some(MembersOf(BuildEvidence(q))))
      else Reply(502, None)
    ensures MembersOf(BuildEvidence(q))[HeadersMatch] == Flag(HeadersAgree(BuildEvidence(q)))
  {
    BodyFits(q);
    NothingIsLost(q);
    EvidenceIsProjected(q, r);
    FlagMeansAgreement(q);
    hide BuildEvidence, Body, Projectable, TextsClean, Restricted, Read, HeadersAgree;
  }
}
