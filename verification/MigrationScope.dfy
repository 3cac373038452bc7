/** validate_runtime_diff_scope of scripts/wp3_runtime.py: besides a no-op only one deletion
    and creation graph is accepted. */
module MigrationScope {
  import opened Wrappers
  import opened Json
  import opened DiffReport

  const INTROSPECTION_CERT_ID := "44444444-4444-4444-8444-444444444444"
  const UPSTREAM_CERT_ID := "55555555-5555-4555-8555-555555555555"
  const SHARED_API_CA_ID := "33333333-3333-4333-8333-333333333333"
  const RUNTIME_SERVICE_NAME := "fapi-api-resource-server"
  const RUNTIME_ROUTE_NAME := "fapi-api-resource-server-route"

  /** The six entities the migration creates: kind, name, fixed id. */
  const RUNTIME_ENTITIES: seq<(Kind, string, string)> := [
    (Service, RUNTIME_SERVICE_NAME, "a5fe77b4-93fd-4f84-bb31-71c245dedd09"),
    (Route, RUNTIME_ROUTE_NAME, "14d51ff4-613c-4769-96ce-330cd8075855"),
    (Plugin, "pre-function", "4374b81d-77c4-4da1-9dfe-fbb0949a13ba"),
    (Plugin, "openid-connect", "ed488e53-d29d-4db7-ba89-78b3bbf35df3"),
    (Plugin, "tls-handshake-modifier", "6c3a195b-2fa7-4ed8-8ae4-72db3d2c537c"),
    (Plugin, "tls-metadata-headers", "a6b8e2df-3612-47db-b863-b6dee55f2dc4")
  ]

  const PROTECTED_IDS: set<string> := {SHARED_API_CA_ID, INTROSPECTION_CERT_ID, UPSTREAM_CERT_ID}
    + (set k | 0 <= k < |RUNTIME_ENTITIES| :: RUNTIME_ENTITIES[k].2)

  datatype Tag = RouteA | RouteB

  function ServiceName(tag: Tag): string {
    if tag.RouteA? then "fapi-mtls-service" else "fapi-pkj-mtls-service"
  }

  function RouteName(tag: Tag): string {
    if tag.RouteA? then "fapi-mtls-route" else "fapi-pkj-mtls-route"
  }

  const LEGACY_PLUGINS: seq<(string, Tag)> := [
    ("cors", RouteA), ("request-transformer", RouteA), ("openid-connect", RouteA),
    ("cors", RouteB), ("request-transformer", RouteB), ("openid-connect", RouteB),
    ("fapi-client-auth-bridge", RouteB)
  ]

  /** The eleven named legacy entities: services, routes, plugins. */
  const EXPECTED_NAMED: seq<(Kind, string, Tag)> := [
    (Service, "fapi-mtls-service", RouteA), (Service, "fapi-pkj-mtls-service", RouteB),
    (Route, "fapi-mtls-route", RouteA), (Route, "fapi-pkj-mtls-route", RouteB),
    (Plugin, "cors", RouteA), (Plugin, "request-transformer", RouteA), (Plugin, "openid-connect", RouteA),
    (Plugin, "cors", RouteB), (Plugin, "request-transformer", RouteB), (Plugin, "openid-connect", RouteB),
    (Plugin, "fapi-client-auth-bridge", RouteB)
  ]

  function ExpectedNamed(): multiset<(Kind, string, Tag)> { multiset(EXPECTED_NAMED) }

  /* ---------------- reading one entity ---------------- */

  function TagNamed(s: string): Option<Tag> {
    if s == "route-a" then Some(RouteA) else if s == "route-b" then Some(RouteB) else None
  }

  /** _legacy_route_tag */
  function LegacyTag(entity: Object): Option<Tag> {
    var tags := Get(entity, "tags");
    if !tags.Arr? || |tags.items| != 2 || !tags.items[0].Str? || !tags.items[1].Str? then None
    else if tags.items[0] == tags.items[1] then None
    else if tags.items[0] == Str("fapi2-demo") then TagNamed(tags.items[1].s)
    else if tags.items[1] == Str("fapi2-demo") then TagNamed(tags.items[0].s)
    else None
  }

  /** _relation_id */
  function RelationId(entity: Object, field: string, expectedName: string): Option<string> {
    var relation := Get(entity, field);
    if !relation.Obj? || relation.fields.Keys != {"id", "name"} then None
    else if !IsText(relation.fields["id"]) || relation.fields["name"] != Str(expectedName) then None
    else Some(relation.fields["id"].s)
  }

  /** _certificate_relation_id */
  function CertificateRelationId(entity: Object, field: string): Option<string> {
    var relation := Get(entity, field);
    if !relation.Obj? || relation.fields.Keys != {"id"} || !IsText(relation.fields["id"]) then None
    else Some(relation.fields["id"].s)
  }

  /* ---------------- creations ---------------- */

  type Creation = j: Json | EntryOk(Creating, j)
    witness Obj(map["kind" := Str("k"), "name" := Str("n"), "body" := Obj(map["old" := Null, "new" := Obj(map[])])])

  function RuntimeId(name: string): Option<string> {
    RuntimeIdFrom(RUNTIME_ENTITIES, name)
  }

  function RuntimeIdFrom(rows: seq<(Kind, string, string)>, name: string): Option<string> {
    if rows == [] then None else if rows[0].1 == name then Some(rows[0].2) else RuntimeIdFrom(rows[1..], name)
  }

  function RuntimeKindFrom(rows: seq<(Kind, string, string)>, name: string): Option<Kind> {
    if rows == [] then None else if rows[0].1 == name then Some(rows[0].0) else RuntimeKindFrom(rows[1..], name)
  }

  predicate CreateOk(c: Creation) {
    var identity := IdentityOf(Creating, c);
    var kind := CanonicalKind(identity.kind);
    var entity := NewOf(c).fields;
    && (if kind == Some(Plugin) then
          && c.fields["name"].s == identity.name + " for route " + RUNTIME_ROUTE_NAME
          && "service" !in entity
          && RelationId(entity, "route", RUNTIME_ROUTE_NAME) == RuntimeId(RUNTIME_ROUTE_NAME)
        else c.fields["name"].s == identity.name)
    && (kind == Some(Route) ==> RelationId(entity, "service", RUNTIME_SERVICE_NAME) == RuntimeId(RUNTIME_SERVICE_NAME))
    && kind.Some? && kind == RuntimeKindFrom(RUNTIME_ENTITIES, identity.name)
    && Get(entity, "name") == Str(identity.name)
    && Get(entity, "tags") == Arr([Str("fapi2-demo"), Str("api")])
  }

  /** The (name, id) pairs created. */
  function CreatedPairs(creating: seq<Creation>): set<(string, Option<string>)> {
    set k | 0 <= k < |creating| :: (IdentityOf(Creating, creating[k]).name, IdentityOf(Creating, creating[k]).id)
  }

  const EXPECTED_PAIRS: set<(string, Option<string>)> :=
    set k | 0 <= k < |RUNTIME_ENTITIES| :: (RUNTIME_ENTITIES[k].1, Some(RUNTIME_ENTITIES[k].2))

  /* ---------------- deletions ---------------- */

  type Deletion = j: Json | EntryOk(Deleting, j)
    witness Obj(map["kind" := Str("k"), "name" := Str("n"),
                    "body" := Obj(map["old" := Null, "new" := Obj(map["id" := Str("i")])])])

  function Entity(d: Deletion): Object { NewOf(d).fields }

  function IdOf(d: Deletion): string { Get(Entity(d), "id").s }

  function KindOf(d: Deletion): Option<Kind> { CanonicalKind(d.fields["kind"].s) }

  function TagOf(d: Deletion): Option<Tag> { LegacyTag(Entity(d)) }

  function DeletedName(d: Deletion): string { IdentityOf(Deleting, d).name }

  /** Second pass on one deletion, without the counting. */
  predicate DeleteOk(d: Deletion) {
    && KindOf(d).Some? && IdOf(d) !in PROTECTED_IDS && TagOf(d).Some?
    && (KindOf(d) != Some(Certificate) ==>
          && Get(Entity(d), "name") == Str(DeletedName(d))
          && match KindOf(d).value
             case Service => DeletedName(d) == ServiceName(TagOf(d).value) && d.fields["name"].s == DeletedName(d)
             case Route => DeletedName(d) == RouteName(TagOf(d).value) && d.fields["name"].s == DeletedName(d)
             case Plugin => (DeletedName(d), TagOf(d).value) in LEGACY_PLUGINS
                         && d.fields["name"].s == DeletedName(d) + " for service " + ServiceName(TagOf(d).value)
             case Certificate => true)
  }

  predicate Is(d: Deletion, kind: Kind, tag: Tag) {
    KindOf(d) == Some(kind) && TagOf(d) == Some(tag)
  }

  /** What the second pass counts for one deletion. */
  function NamedRow(d: Deletion): multiset<(Kind, string, Tag)> {
    if DeleteOk(d) && KindOf(d) != Some(Certificate) then multiset{(KindOf(d).value, DeletedName(d), TagOf(d).value)}
    else multiset{}
  }

  function CertificateRow(d: Deletion): multiset<Tag> {
    if DeleteOk(d) && KindOf(d) == Some(Certificate) then multiset{TagOf(d).value} else multiset{}
  }

  function NamedRows(ds: seq<Deletion>): multiset<(Kind, string, Tag)> {
    if ds == [] then multiset{} else NamedRows(ds[..|ds| - 1]) + NamedRow(ds[|ds| - 1])
  }

  function CertificateRows(ds: seq<Deletion>): multiset<Tag> {
    if ds == [] then multiset{} else CertificateRows(ds[..|ds| - 1]) + CertificateRow(ds[|ds| - 1])
  }

  /** The id of the last deletion of that kind and tag. */
  function Find(ds: seq<Deletion>, kind: Kind, tag: Tag): Option<string> {
    if ds == [] then None
    else if Is(ds[|ds| - 1], kind, tag) then Some(IdOf(ds[|ds| - 1]))
    else Find(ds[..|ds| - 1], kind, tag)
  }

  predicate OneServicePerTag(ds: seq<Deletion>) {
    forall i, j :: 0 <= i < j < |ds| && KindOf(ds[i]) == Some(Service) && KindOf(ds[j]) == Some(Service) ==>
      TagOf(ds[i]) != TagOf(ds[j])
  }

  /** Third pass on one deletion: its relations stay inside its own tag. */
  predicate RelationsOk(d: Deletion, ds: seq<Deletion>) {
    TagOf(d).Some? ==>
      var tag := TagOf(d).value;
      match KindOf(d)
      case Some(Service) =>
        && CertificateRelationId(Entity(d), "client_certificate") == Find(ds, Certificate, tag)
        && Get(Entity(d), "ca_certificates") == Arr([Str(SHARED_API_CA_ID)])
      case Some(Route) => RelationId(Entity(d), "service", ServiceName(tag)) == Find(ds, Service, tag)
      case Some(Plugin) => RelationId(Entity(d), "service", ServiceName(tag)) == Find(ds, Service, tag)
      case _ => true
  }

  /* ---------------- the scope ---------------- */

  predicate WellParsed(r: Report) {
    AllOk(Creating, r.creating) && AllOk(Updating, r.updating) && AllOk(Deleting, r.deleting)
  }

  function CreationIds(cs: seq<Creation>): (ids: seq<Option<string>>)
    ensures |ids| == |cs|
    ensures forall k :: 0 <= k < |cs| ==> ids[k] == IdentityOf(Creating, cs[k]).id
  {
    seq(|cs|, k requires 0 <= k < |cs| => IdentityOf(Creating, cs[k]).id)
  }

  function DeletionIds(ds: seq<Deletion>): (ids: seq<Option<string>>)
    ensures |ids| == |ds|
    ensures forall k :: 0 <= k < |ds| ==> ids[k] == Some(IdOf(ds[k]))
  {
    seq(|ds|, k requires 0 <= k < |ds| => Some(IdOf(ds[k])))
  }

  /** First pass: the six fixed creations. */
  predicate CreationsOk(cs: seq<Creation>) {
    && |cs| == 6 && CreatedPairs(cs) == EXPECTED_PAIRS
    && forall k :: 0 <= k < |cs| ==> CreateOk(cs[k])
  }

  /** Second and third pass: the thirteen legacy deletions. */
  predicate DeletionsOk(ds: seq<Deletion>) {
    && |ds| == 13
    && (forall k :: 0 <= k < |ds| ==> DeleteOk(ds[k]))
    && OneServicePerTag(ds)
    && NamedRows(ds) == ExpectedNamed()
    && CertificateRows(ds) == multiset{RouteA, RouteB}
    && forall k :: 0 <= k < |ds| ==> RelationsOk(ds[k], ds)
  }

  /** Everything but the no-op that validate_runtime_diff_scope lets through. */
  predicate IsMigration(r: Report)
    requires WellParsed(r)
  {
    && CreationsOk(r.creating) && r.updating == [] && DeletionsOk(r.deleting)
    && NoRepeat(CreationIds(r.creating) + DeletionIds(r.deleting))
  }

  /** parse_deck_diff_report with its scope check */
  function Accept(report: Json): Result<Report> {
    var r :- Parse(report);
    ParsedIsOk(report);
    if r.Empty() || IsMigration(r) then Ok(r) else Err
  }

  lemma {:induction false} ParsedIsOk(report: Json)
    requires Parse(report).Ok?
    ensures WellParsed(Parse(report).value)
  {
    ParsedContent(report, Creating);
    ParsedContent(report, Updating);
    ParsedContent(report, Deleting);
  }

  /** Whatever is accepted was parsed and is a no-op or a migration. */
  lemma {:induction false} AcceptedParsed(report: Json, r: Report)
    requires Accept(report) == Ok(r)
    ensures Parse(report) == Ok(r) && WellParsed(r) && (r.Empty() || IsMigration(r))
  {
    hide Parse, EntryOk, IsMigration;
    ParsedIsOk(report);
  }

  /* ---------------- the three passes as written ---------------- */

  /** First pass. */
  method CheckCreations(cs: seq<Creation>) returns (ok: bool)
    ensures ok <==> CreationsOk(cs)
  {
    if |cs| != 6 || CreatedPairs(cs) != EXPECTED_PAIRS {
      return false;
    }
    for k := 0 to |cs|
      invariant forall i :: 0 <= i < k ==> CreateOk(cs[i])
    {
      if !CreateOk(cs[k]) {
        return false;
      }
    }
    return true;
  }

  function Looked(filed: map<Tag, string>, tag: Tag): Option<string> {
    if tag in filed then Some(filed[tag]) else None
  }

  /** The dictionary holds each tag's entity of that kind under its id. */
  ghost predicate Files(filed: map<Tag, string>, ds: seq<Deletion>, kind: Kind) {
    forall tag :: Find(ds, kind, tag) == Looked(filed, tag)
  }

  predicate AreCertificates(certificates: seq<Deletion>) {
    forall k :: 0 <= k < |certificates| ==> DeleteOk(certificates[k]) && KindOf(certificates[k]) == Some(Certificate)
  }

  ghost predicate SameCertificates(certificates: seq<Deletion>, ds: seq<Deletion>) {
    && CertificateRows(certificates) == CertificateRows(ds)
    && forall tag :: Find(certificates, Certificate, tag) == Find(ds, Certificate, tag)
  }

  /** Second pass: count the named rows, note the service of each tag, collect the certificates. */
  method CountDeletions(ds: seq<Deletion>)
    returns (ok: bool, named: multiset<(Kind, string, Tag)>, services: map<Tag, string>, certificates: seq<Deletion>)
    ensures ok <==> (forall k :: 0 <= k < |ds| ==> DeleteOk(ds[k])) && OneServicePerTag(ds)
    ensures ok ==> named == NamedRows(ds) && Files(services, ds, Service)
    ensures ok ==> SameCertificates(certificates, ds) && AreCertificates(certificates)
  {
    hide EntryOk, CanonicalKind, LegacyTag, KindOf, TagOf, IdOf;
    hide Files, SameCertificates, OneServicePerTag, NamedRows, DeleteOk;
    named, services, certificates := multiset{}, map[], [];
    NothingCounted();
    for i := 0 to |ds|
      invariant (forall k :: 0 <= k < i ==> DeleteOk(ds[k])) && OneServicePerTag(ds[..i])
      invariant named == NamedRows(ds[..i]) && Files(services, ds[..i], Service)
      invariant SameCertificates(certificates, ds[..i]) && AreCertificates(certificates)
    {
      var d := ds[i];
      if !DeleteOk(d) {
        return false, named, services, certificates;
      }
      CountTurn(ds, i, services, certificates);
      if KindOf(d) == Some(Certificate) {
        certificates := certificates + [d];
      } else {
        var tag := TagOf(d).value;
        named := named + multiset{(KindOf(d).value, DeletedName(d), tag)};
        if KindOf(d) == Some(Service) {
          if tag in services {
            return false, named, services, certificates;
          }
          services := services[tag := IdOf(d)];
        }
      }
    }
    assert ds[..|ds|] == ds;
    ok := true;
  }

  lemma {:induction false} NothingCounted()
    ensures OneServicePerTag([]) && NamedRows([]) == multiset{} && Files(map[], [], Service) && SameCertificates([], [])
  {
  }

  /** One turn of the second pass: the row to count, the entry to file and the certificate to
      collect; a second service of one tag ends it. */
  lemma {:induction false} CountTurn(ds: seq<Deletion>, i: nat, services: map<Tag, string>, certificates: seq<Deletion>)
    requires i < |ds| && DeleteOk(ds[i]) && OneServicePerTag(ds[..i])
    requires Files(services, ds[..i], Service) && SameCertificates(certificates, ds[..i])
    ensures var d := ds[i];
      && KindOf(d).Some? && TagOf(d).Some?
      && NamedRows(ds[..i + 1]) == NamedRows(ds[..i]) + (
           if KindOf(d) == Some(Certificate) then multiset{}
           else multiset{(KindOf(d).value, DeletedName(d), TagOf(d).value)})
      && SameCertificates(if KindOf(d) == Some(Certificate) then certificates + [d] else certificates, ds[..i + 1])
      && Files(if KindOf(d) == Some(Service) then services[TagOf(d).value := IdOf(d)] else services,
               ds[..i + 1], Service)
      && if KindOf(d) == Some(Service) && TagOf(d).value in services then !OneServicePerTag(ds)
         else OneServicePerTag(ds[..i + 1])
  {
    hide EntryOk, CanonicalKind, LegacyTag, KindOf, TagOf, IdOf, Files, SameCertificates, OneServicePerTag, NamedRows;
    var d := ds[i];
    assert ds[..i + 1] == ds[..i] + [d];
    CountNamed(ds[..i], d);
    CountCertificate(ds[..i], d, certificates);
    CountService(ds[..i], d, services);
    FirstOfItsTag(ds[..i], d, services);
    if KindOf(d) == Some(Service) && TagOf(d).value in services {
      SecondService(ds, i);
    }
  }

  lemma {:induction false} FindIsThere(ds: seq<Deletion>, kind: Kind, tag: Tag)
    ensures Find(ds, kind, tag).Some? <==> exists k :: 0 <= k < |ds| && Is(ds[k], kind, tag)
    ensures Find(ds, kind, tag).Some? ==>
      exists k :: 0 <= k < |ds| && Is(ds[k], kind, tag) && IdOf(ds[k]) == Find(ds, kind, tag).value
  {
    hide Is, IdOf, EntryOk;
    if ds != [] {
      FindIsThere(ds[..|ds| - 1], kind, tag);
    }
  }

  lemma {:induction false} CountNamed(ds: seq<Deletion>, d: Deletion)
    ensures NamedRows(ds + [d]) == NamedRows(ds) + NamedRow(d)
  {
    assert (ds + [d])[..|ds|] == ds;
  }

  lemma {:induction false} CountCertificate(ds: seq<Deletion>, d: Deletion, certificates: seq<Deletion>)
    requires DeleteOk(d) && SameCertificates(certificates, ds)
    ensures SameCertificates(if KindOf(d) == Some(Certificate) then certificates + [d] else certificates, ds + [d])
  {
    hide EntryOk, DeleteOk, KindOf, TagOf, IdOf;
    assert (ds + [d])[..|ds|] == ds && (certificates + [d])[..|certificates|] == certificates;
    FindLast(ds, d, Certificate);
    FindLast(certificates, d, Certificate);
    assert CertificateRows(ds + [d]) == CertificateRows(ds) + CertificateRow(d);
    assert CertificateRows(certificates + [d]) == CertificateRows(certificates) + CertificateRow(d);
  }

  lemma {:induction false} CountService(ds: seq<Deletion>, d: Deletion, services: map<Tag, string>)
    requires Files(services, ds, Service) && TagOf(d).Some?
    ensures Files(if KindOf(d) == Some(Service) then services[TagOf(d).value := IdOf(d)] else services,
                  ds + [d], Service)
  {
    hide EntryOk, KindOf, TagOf, IdOf;
    FindLast(ds, d, Service);
  }

  lemma {:induction false} FindLast(ds: seq<Deletion>, d: Deletion, kind: Kind)
    ensures forall tag :: Find(ds + [d], kind, tag) == if Is(d, kind, tag) then Some(IdOf(d)) else Find(ds, kind, tag)
  {
    hide EntryOk, KindOf, TagOf, IdOf;
    assert (ds + [d])[..|ds|] == ds;
  }

  /** The index of services tells whether d is the first service of its tag. */
  lemma {:induction false} FirstOfItsTag(ds: seq<Deletion>, d: Deletion, services: map<Tag, string>)
    requires Files(services, ds, Service) && OneServicePerTag(ds) && TagOf(d).Some?
    ensures KindOf(d) == Some(Service) && TagOf(d).value in services ==>
      exists k :: 0 <= k < |ds| && KindOf(ds[k]) == Some(Service) && TagOf(ds[k]) == TagOf(d)
    ensures !(KindOf(d) == Some(Service) && TagOf(d).value in services) ==> OneServicePerTag(ds + [d])
  {
    hide EntryOk, KindOf, TagOf, IdOf;
    var tag := TagOf(d).value;
    FindIsThere(ds, Service, tag);
    if tag in services {
      var k :| 0 <= k < |ds| && Is(ds[k], Service, tag);
    }
  }

  lemma {:induction false} SecondService(ds: seq<Deletion>, i: nat)
    requires i < |ds| && KindOf(ds[i]) == Some(Service)
    requires exists k :: 0 <= k < |ds[..i]| && KindOf(ds[..i][k]) == Some(Service) && TagOf(ds[..i][k]) == TagOf(ds[i])
    ensures !OneServicePerTag(ds)
  {
    var k :| 0 <= k < |ds[..i]| && KindOf(ds[..i][k]) == Some(Service) && TagOf(ds[..i][k]) == TagOf(ds[i]);
    assert ds[k] == ds[..i][k];
  }

  /** Second and third pass. */
  method CheckDeletions(ds: seq<Deletion>) returns (ok: bool)
    ensures ok <==> DeletionsOk(ds)
  {
    hide DeleteOk, RelationsOk, EntryOk, NamedRows, CertificateRows, OneServicePerTag, Files, ExpectedNamed;
    if |ds| != 13 {
      return false;
    }
    var counted, named, services, certificates := CountDeletions(ds);
    if !counted {
      return false;
    }
    if named != ExpectedNamed() || RouteA !in services || RouteB !in services {
      BothServicesNamed(ds, services);
      return false;
    }
    if CertificateRows(certificates) != multiset{RouteA, RouteB} {
      return false;
    }
    var filed, byRoute := FileCertificates(certificates);
    ok := filed;
    if filed {
      FiledAlike(byRoute, certificates, ds);
      ok := CheckRelations(ds, services, byRoute);
    }
  }

  /** validate_runtime_diff_scope */
  method ValidateScope(r: Report) returns (ok: bool)
    requires WellParsed(r)
    ensures ok <==> r.Empty() || IsMigration(r)
  {
    if r.Empty() {
      return true;
    }
    if r.updating != [] {
      return false;
    }
    hide CreationsOk, DeletionsOk, NoRepeat, EntryOk;
    ok := CheckCreations(r.creating);
    if ok {
      ok := NoRepeat(CreationIds(r.creating) + DeletionIds(r.deleting));
    }
    if ok {
      ok := CheckDeletions(r.deleting);
    }
  }

  /** The collected certificates once more: no protected one, each filed under its tag. */
  method FileCertificates(certificates: seq<Deletion>) returns (ok: bool, byRoute: map<Tag, string>)
    requires AreCertificates(certificates)
    ensures ok && Files(byRoute, certificates, Certificate)
  {
    hide EntryOk, LegacyTag, CanonicalKind, IdOf, KindOf, TagOf;
    ok, byRoute := true, map[];
    for k := 0 to |certificates|
      invariant ok && Files(byRoute, certificates[..k], Certificate)
    {
      var d := certificates[k];
      assert DeleteOk(d) && certificates[..k + 1] == certificates[..k] + [d];
      FindLast(certificates[..k], d, Certificate);
      ok := ok && IdOf(d) !in PROTECTED_IDS;
      byRoute := byRoute[TagOf(d).value := IdOf(d)];
    }
    assert certificates[..|certificates|] == certificates;
  }

  lemma {:induction false} FiledAlike(byRoute: map<Tag, string>, certificates: seq<Deletion>, ds: seq<Deletion>)
    requires Files(byRoute, certificates, Certificate) && SameCertificates(certificates, ds)
    ensures Files(byRoute, ds, Certificate)
  {
    hide Find, CertificateRows;
  }

  /** Third pass on one deletion, decided from the dictionaries the second pass filled. */
  predicate RelationsFiled(d: Deletion, services: map<Tag, string>, byRoute: map<Tag, string>) {
    TagOf(d).Some? ==>
      var tag := TagOf(d).value;
      match KindOf(d)
      case Some(Service) =>
        && CertificateRelationId(Entity(d), "client_certificate") == Looked(byRoute, tag)
        && Get(Entity(d), "ca_certificates") == Arr([Str(SHARED_API_CA_ID)])
      case Some(Route) => RelationId(Entity(d), "service", ServiceName(tag)) == Looked(services, tag)
      case Some(Plugin) => RelationId(Entity(d), "service", ServiceName(tag)) == Looked(services, tag)
      case _ => true
  }

  /** Third pass. */
  method CheckRelations(ds: seq<Deletion>, services: map<Tag, string>, byRoute: map<Tag, string>) returns (ok: bool)
    requires Files(services, ds, Service) && Files(byRoute, ds, Certificate)
    ensures ok <==> forall k :: 0 <= k < |ds| ==> RelationsOk(ds[k], ds)
  {
    hide RelationsOk, RelationsFiled, EntryOk, Files;
    for k := 0 to |ds|
      invariant forall i :: 0 <= i < k ==> RelationsOk(ds[i], ds)
    {
      FiledIsFound(ds[k], ds, services, byRoute);
      if !RelationsFiled(ds[k], services, byRoute) {
        return false;
      }
    }
    return true;
  }

  /** The dictionaries answer as the deletions themselves would. */
  lemma {:induction false} FiledIsFound(d: Deletion, ds: seq<Deletion>, services: map<Tag, string>,
                                        byRoute: map<Tag, string>)
    requires Files(services, ds, Service) && Files(byRoute, ds, Certificate)
    ensures RelationsFiled(d, services, byRoute) <==> RelationsOk(d, ds)
  {
    hide EntryOk, LegacyTag, CanonicalKind, Find, Looked, RelationId, CertificateRelationId;
  }

  /** The named rows already tell that both tags have a service. */
  lemma {:induction false} BothServicesNamed(ds: seq<Deletion>, services: map<Tag, string>)
    requires Files(services, ds, Service)
    ensures NamedRows(ds) == ExpectedNamed() ==> RouteA in services && RouteB in services
  {
    if NamedRows(ds) == ExpectedNamed() {
      hide NamedRows, EntryOk, KindOf, TagOf, IdOf, Is, ExpectedNamed;
      ExpectedServices();
      NamedIsThere(ds, (Service, ServiceName(RouteA), RouteA));
      NamedIsThere(ds, (Service, ServiceName(RouteB), RouteB));
      FindIsThere(ds, Service, RouteA);
      FindIsThere(ds, Service, RouteB);
    }
  }

  lemma {:induction false} ExpectedServices()
    ensures (Service, ServiceName(RouteA), RouteA) in ExpectedNamed()
    ensures (Service, ServiceName(RouteB), RouteB) in ExpectedNamed()
  {
    assert EXPECTED_NAMED[0] in EXPECTED_NAMED && EXPECTED_NAMED[1] in EXPECTED_NAMED;
  }

  lemma {:induction false} NamedIsThere(ds: seq<Deletion>, row: (Kind, string, Tag))
    requires row in NamedRows(ds)
    ensures exists k :: 0 <= k < |ds| && Is(ds[k], row.0, row.2)
  {
    hide EntryOk, KindOf, TagOf;
    var n := |ds| - 1;
    if row in NamedRow(ds[n]) {
      assert Is(ds[n], row.0, row.2);
    } else {
      NamedIsThere(ds[..n], row);
      var k :| 0 <= k < n && Is(ds[..n][k], row.0, row.2);
      assert Is(ds[k], row.0, row.2);
    }
  }

  /** parse_deck_diff_report as written: the three operations in turn, the total, the scope. */
  method ParseDeckDiffReport(report: Json) returns (r: Result<Report>)
    ensures r == Accept(report)
  {
    hide Canonical, IsMigration;
    if !Structured(report) {
      return Err;
    }
    var creating := ParseOperation(Creating, Entries(report, Creating));
    if creating.Err? || Claimed(report, "creating") != Num(|creating.value|) {
      return Err;
    }
    var updating := ParseOperation(Updating, Entries(report, Updating));
    if updating.Err? || Claimed(report, "updating") != Num(|updating.value|) {
      return Err;
    }
    var deleting := ParseOperation(Deleting, Entries(report, Deleting));
    if deleting.Err? || Claimed(report, "deleting") != Num(|deleting.value|) {
      return Err;
    }
    var parsed := Report(creating.value, updating.value, deleting.value);
    if Claimed(report, "total") != Num(parsed.Total()) {
      return Err;
    }
    assert Parse(report) == Ok(parsed);
    ParsedIsOk(report);
    var inScope := ValidateScope(parsed);
    return if inScope then Ok(parsed) else Err;
  }
}
