/** The evidence a verified request yields: build_evidence of pop-verifier/app.py against
    project_evidence and fetch_evidence of third-party-backend/app.py. */
module Evidence {
  import opened Wrappers
  import opened Octets
  import opened JsonText
  import opened Base64Url

  /** A decoded JSON member as both programs look at it; Other is any number, list or object. */
  datatype Value = Null | Flag(b: bool) | Txt(t: Text) | Other

  /** ASCII text as code points. */
  function Ascii7(s: string): (t: Text)
    ensures |t| == |s|
    ensures forall i :: 0 <= i < |s| ==> t[i] == Code(s[i])
  {
    seq(|s|, i requires 0 <= i < |s| => Code(s[i]))
  }

  function Code(c: char): CodePoint { if c < 128 as char then c as int else 0 }

  datatype Route = RouteA | RouteB

  function RouteName(r: Route): Text { if r.RouteA? then Ascii7("route-a") else Ascii7("route-b") }

  function Party(r: Route): Text {
    if r.RouteA? then Ascii7("third-party-fapi-mtls") else Ascii7("third-party-fapi-pkj-mtls")
  }

  function Method(r: Route): Text {
    if r.RouteA? then Ascii7("tls_client_auth") else Ascii7("private_key_jwt")
  }

  /* ---------------- the verifier ---------------- */

  /** base64url_sha256, given the digest */
  function Thumbprint(digest: Bytes): Text { Ascii7(Strip(Encode(digest))) }

  /** safe_evidence_text */
  function SafeText(v: Value): Value { if v.Txt? && |v.t| <= 256 then v else Null }

  function HeaderValue(h: Option<Text>): Value { if h.Some? then Txt(h.value) else Null }

  predicate Truthy(v: Value) { v.Txt? && v.t != [] }

  predicate HasSurrogate(t: Text) { exists i :: 0 <= i < |t| && 0xD800 <= t[i] <= 0xDFFF }

  /** constant_time_text_equal: texts that UTF-8 cannot encode equal nothing. */
  predicate TextEqual(a: Value, b: Value) {
    a.Txt? && b.Txt? && !HasSurrogate(a.t) && !HasSurrogate(b.t) && a.t == b.t
  }

  /** The thirteen members of the evidence. */
  datatype Evidence = Evidence(
    azp: Text, route: Text, clientAuthentication: Text,
    tokenThumbprint: Text, forwardedThumbprint: Text, peerThumbprint: Text,
    signatureVerified: bool, bindingVerified: bool,
    department: Value, logicalRoute: Value, departmentHeader: Value, logicalRouteHeader: Value,
    headersMatch: bool)

  /** What is known of a request once verify_api_gateway_peer, verify_access_token and
      verify_forwarded_certificate_binding returned. */
  datatype Request = Request(
    route: Route, tokenThumbprint: Text, forwardedDigest: Bytes, peerDigest: Bytes,
    departmentClaim: Value, routeClaim: Value, departmentHeader: Option<Text>, routeHeader: Option<Text>)

  predicate Verified(q: Request) {
    && |q.forwardedDigest| == 32 && |q.peerDigest| == 32
    && TextEqual(Txt(q.tokenThumbprint), Txt(Thumbprint(q.forwardedDigest)))
  }

  /** build_evidence with routing_evidence */
  function BuildEvidence(q: Request): Evidence {
    var department, route := SafeText(q.departmentClaim), SafeText(q.routeClaim);
    var departmentHeader := SafeText(HeaderValue(q.departmentHeader));
    var routeHeader := SafeText(HeaderValue(q.routeHeader));
    Evidence(Party(q.route), RouteName(q.route), Method(q.route), q.tokenThumbprint, Thumbprint(q.forwardedDigest),
             Thumbprint(q.peerDigest), true, true, department, route, departmentHeader, routeHeader,
             Truthy(department) && Truthy(route) && Truthy(departmentHeader) && Truthy(routeHeader)
             && TextEqual(department, departmentHeader) && TextEqual(route, routeHeader))
  }

  /** The names of the thirteen members; Unknown is any other name. */
  datatype Name =
    | Azp | RouteId | ClientAuthentication
    | TokenThumbprint | ForwardedThumbprint | PeerThumbprint
    | SignatureVerified | BindingVerified
    | Department | LogicalRoute | DepartmentHeader | LogicalRouteHeader | HeadersMatch
    | Unknown(text: Text)

  type Members = map<Name, Value>

  function MembersOf(e: Evidence): Members {
    map[Azp := Txt(e.azp), RouteId := Txt(e.route), ClientAuthentication := Txt(e.clientAuthentication),
        TokenThumbprint := Txt(e.tokenThumbprint),
        ForwardedThumbprint := Txt(e.forwardedThumbprint),
        PeerThumbprint := Txt(e.peerThumbprint),
        SignatureVerified := Flag(e.signatureVerified), BindingVerified := Flag(e.bindingVerified),
        Department := e.department, LogicalRoute := e.logicalRoute,
        DepartmentHeader := e.departmentHeader, LogicalRouteHeader := e.logicalRouteHeader,
        HeadersMatch := Flag(e.headersMatch)]
  }

  /* ---------------- the backend ---------------- */

  const TEXT_FIELDS: seq<Name> := [Department, LogicalRoute, DepartmentHeader, LogicalRouteHeader]

  const THUMBPRINT_FIELDS: seq<Name> := [TokenThumbprint, ForwardedThumbprint,
    PeerThumbprint]

  const FLAG_FIELDS: seq<Name> := [SignatureVerified, BindingVerified, HeadersMatch]

  function MemberOf(source: Members, name: Name): Value { if name in source then source[name] else Null }

  predicate NoControl(t: Text) { forall i :: 0 <= i < |t| ==> t[i] >= 32 && t[i] != 127 }

  predicate TextFits(v: Value) { v == Null || (v.Txt? && |v.t| <= 256 && NoControl(v.t)) }

  predicate UrlLetter(c: CodePoint) { 65 <= c <= 90 || 97 <= c <= 122 || 48 <= c <= 57 || c == 45 || c == 95 }

  predicate ThumbprintFits(v: Value) {
    v.Txt? && |v.t| == 43 && forall i :: 0 <= i < |v.t| ==> UrlLetter(v.t[i])
  }

  predicate FlagFits(name: Name, v: Value) { v.Flag? && (name == HeadersMatch || v.b) }

  /** The identity of the route the request came in on. */
  function Expected(r: Route): Members {
    map[RouteId := Txt(RouteName(r)), Azp := Txt(Party(r)), ClientAuthentication := Txt(Method(r))]
  }

  predicate HeadersConsistent(source: Members) {
    MemberOf(source, HeadersMatch) == Flag(true) ==>
      && (forall i :: 0 <= i < |TEXT_FIELDS| ==> Truthy(MemberOf(source, TEXT_FIELDS[i])))
      && MemberOf(source, Department) == MemberOf(source, DepartmentHeader)
      && MemberOf(source, LogicalRoute) == MemberOf(source, LogicalRouteHeader)
  }

  /** What project_evidence accepts. */
  predicate Projectable(source: Members, r: Route) {
    && (forall i :: 0 <= i < |IDENTITY_FIELDS| ==>
          MemberOf(source, IDENTITY_FIELDS[i]) == Expected(r)[IDENTITY_FIELDS[i]])
    && (forall i :: 0 <= i < |TEXT_FIELDS| ==> TEXT_FIELDS[i] in source && TextFits(source[TEXT_FIELDS[i]]))
    && (forall i :: 0 <= i < |THUMBPRINT_FIELDS| ==> ThumbprintFits(MemberOf(source, THUMBPRINT_FIELDS[i])))
    && (forall i :: 0 <= i < |FLAG_FIELDS| ==> FlagFits(FLAG_FIELDS[i], MemberOf(source, FLAG_FIELDS[i])))
    && MemberOf(source, THUMBPRINT_FIELDS[0]) == MemberOf(source, THUMBPRINT_FIELDS[1])
    && HeadersConsistent(source)
  }

  const IDENTITY_FIELDS: seq<Name> := [RouteId, Azp, ClientAuthentication]

  /** The thirteen names, in the order the projector files them. */
  const FIELDS: seq<Name> := IDENTITY_FIELDS + TEXT_FIELDS + THUMBPRINT_FIELDS + FLAG_FIELDS

  /** The members with these names and nothing else. */
  function Restricted(source: Members, names: seq<Name>): Members {
    map name | name in names :: MemberOf(source, name)
  }

  /** project_evidence on a decoded object */
  method ProjectEvidence(source: Members, r: Route) returns (result: Result<Members>)
    ensures result == if Projectable(source, r) then Ok(Restricted(source, FIELDS)) else Err
  {
    NoFields(source);
    hide TextFits, ThumbprintFits, FlagFits, HeadersConsistent, RouteName, Party, Method, Restricted, MemberOf;
    var projected: Members := map[];
    var expected := Expected(r);
    for i := 0 to |IDENTITY_FIELDS|
      invariant forall k :: 0 <= k < i ==> MemberOf(source, IDENTITY_FIELDS[k]) == expected[IDENTITY_FIELDS[k]]
      invariant projected == Restricted(source, FIELDS[..i])
    {
      var name := IDENTITY_FIELDS[i];
      if MemberOf(source, name) != expected[name] {
        return Err;
      }
      FieldsGrow(source, i, name);
      projected := projected[name := expected[name]];
    }
    for i := 0 to |TEXT_FIELDS|
      invariant forall k :: 0 <= k < i ==> TEXT_FIELDS[k] in source && TextFits(source[TEXT_FIELDS[k]])
      invariant projected == Restricted(source, FIELDS[..3 + i])
    {
      var name := TEXT_FIELDS[i];
      if name !in source || !TextFits(source[name]) {
        return Err;
      }
      FieldsGrow(source, 3 + i, name);
      projected := projected[name := source[name]];
    }
    for i := 0 to |THUMBPRINT_FIELDS|
      invariant forall k :: 0 <= k < i ==> ThumbprintFits(MemberOf(source, THUMBPRINT_FIELDS[k]))
      invariant projected == Restricted(source, FIELDS[..7 + i])
    {
      var name := THUMBPRINT_FIELDS[i];
      if !ThumbprintFits(MemberOf(source, name)) {
        return Err;
      }
      FieldsGrow(source, 7 + i, name);
      projected := projected[name := MemberOf(source, name)];
    }
    for i := 0 to |FLAG_FIELDS|
      invariant forall k :: 0 <= k < i ==> FlagFits(FLAG_FIELDS[k], MemberOf(source, FLAG_FIELDS[k]))
      invariant projected == Restricted(source, FIELDS[..10 + i])
    {
      var name := FLAG_FIELDS[i];
      if !FlagFits(name, MemberOf(source, name)) {
        return Err;
      }
      FieldsGrow(source, 10 + i, name);
      projected := projected[name := MemberOf(source, name)];
    }
    assert FIELDS[..13] == FIELDS;
    if MemberOf(source, THUMBPRINT_FIELDS[0]) != MemberOf(source, THUMBPRINT_FIELDS[1]) || !HeadersConsistent(source) {
      return Err;
    }
    return Ok(projected);
  }

  lemma {:induction false} NoFields(source: Members)
    ensures Restricted(source, FIELDS[..0]) == map[]
    ensures forall name :: name in source ==> MemberOf(source, name) == source[name]
  {
  }

  lemma {:induction false} FieldsGrow(source: Members, k: nat, name: Name)
    requires k < |FIELDS| && FIELDS[k] == name
    ensures Restricted(source, FIELDS[..k + 1]) == Restricted(source, FIELDS[..k])[name := MemberOf(source, name)]
  {
    assert FIELDS[..k + 1] == FIELDS[..k] + [name];
  }
}
