/** Reports that the scope check accepts: the migration written out, under any thirteen ids. */
module MigrationWitness {
  import opened Wrappers
  import opened Json
  import opened DiffReport
  import opened MigrationScope
  import opened MigrationGraph
  import opened MigrationExactly

  function KindText(kind: Kind): string {
    match kind case Service => "service" case Route => "route" case Plugin => "plugin" case Certificate => "certificate"
  }

  lemma {:induction false} KindIsRead(kind: Kind)
    ensures CanonicalKind(KindText(kind)) == Some(kind) && KindText(kind) != ""
  {
    var s := KindText(kind);
    assert Lower(s) == s by {
      forall i | 0 <= i < |s| ensures LowerChar(s[i]) == s[i] {
      }
    }
    assert |"service"| == 7 && |"services"| == 8 && |"route"| == 5 && |"routes"| == 6 && |"plugin"| == 6;
    assert |"plugins"| == 7;
    assert |"certificate"| == 11 && "plugin"[0] == 'p' && "routes"[0] == 'r' && "service"[0] == 's';
    assert "plugins"[0] == 'p';
  }

  /** A creation or deletion as decK reports it. */
  function Entry(kind: Kind, name: string, entity: Object): Json {
    Obj(map["kind" := Str(KindText(kind)), "name" := Str(name),
            "body" := Obj(map["old" := Null, "new" := Obj(entity)])])
  }

  /** Such an entry is well formed when its entity has an id, and a name if it is a plugin. */
  lemma {:induction false} EntryIsOk(kind: Kind, name: string, entity: Object)
    requires name != "" && IsText(Get(entity, "id")) && (kind == Plugin ==> IsText(Get(entity, "name")))
    ensures var j := Entry(kind, name, entity);
      && EntryOk(Creating, j) && EntryOk(Deleting, j) && NewOf(j) == Obj(entity)
      && CanonicalKind(j.fields["kind"].s) == Some(kind) && j.fields["name"] == Str(name)
  {
    KindIsRead(kind);
    hide CanonicalKind, KindText;
    var j := Entry(kind, name, entity);
    assert j.fields.Keys == {"kind", "name", "body"} && j.fields["body"].fields.Keys == {"old", "new"};
  }

  /* ---------------- what is created ---------------- */

  function CreatedBody(e: nat): Object
    requires e < |RUNTIME_ENTITIES|
  {
    var row := RUNTIME_ENTITIES[e];
    map["id" := Str(row.2), "name" := Str(row.1), "tags" := Arr([Str("fapi2-demo"), Str("api")])]
      + (if row.0 == Route then map["service" := NamedReference(RUNTIME_ENTITIES[0].2, RUNTIME_SERVICE_NAME)]
         else if row.0 == Plugin then map["route" := NamedReference(RUNTIME_ENTITIES[1].2, RUNTIME_ROUTE_NAME)]
         else map[])
  }

  function CreatedEntry(e: nat): Json
    requires e < |RUNTIME_ENTITIES|
  {
    var row := RUNTIME_ENTITIES[e];
    Entry(row.0, if row.0 == Plugin then row.1 + " for route " + RUNTIME_ROUTE_NAME else row.1, CreatedBody(e))
  }

  lemma {:induction false} RuntimeRowsNamed(e: nat)
    requires e < |RUNTIME_ENTITIES|
    ensures RUNTIME_ENTITIES[e].1 != "" && RUNTIME_ENTITIES[e].2 != ""
  {
  }

  lemma {:induction false} CreatedFits(e: nat)
    requires e < |RUNTIME_ENTITIES|
    ensures EntryOk(Creating, CreatedEntry(e)) && IsTheEntity(CreatedEntry(e), e)
  {
    RuntimeRowsNamed(e);
    hide RUNTIME_ENTITIES, CanonicalKind, NamedReference;
    var row := RUNTIME_ENTITIES[e];
    var name := if row.0 == Plugin then row.1 + " for route " + RUNTIME_ROUTE_NAME else row.1;
    var entity := CreatedBody(e);
    CreatedBodyHolds(e);
    hide CreatedBody;
    EntryIsOk(row.0, name, entity);
    hide EntryOk, Entry;
  }

  lemma {:induction false} CreatedBodyHolds(e: nat)
    requires e < |RUNTIME_ENTITIES|
    ensures var row, entity := RUNTIME_ENTITIES[e], CreatedBody(e);
      && Get(entity, "id") == Str(row.2) && Get(entity, "name") == Str(row.1)
      && Get(entity, "tags") == Arr([Str("fapi2-demo"), Str("api")])
      && (row.0 == Route ==> Get(entity, "service") == NamedReference(RUNTIME_ENTITIES[0].2, RUNTIME_SERVICE_NAME))
      && (row.0 == Plugin ==>
            && Get(entity, "route") == NamedReference(RUNTIME_ENTITIES[1].2, RUNTIME_ROUTE_NAME)
            && "service" !in entity)
  {
    hide RUNTIME_ENTITIES, NamedReference;
  }

  /* ---------------- what is deleted ---------------- */

  function TagOfRole(role: Role): Tag { if role.Row? then role.row.2 else role.tag }

  function KindOfRole(role: Role): Kind { if role.Row? then role.row.0 else Certificate }

  /** The ids under which a tag's service and certificate are deleted. */
  function ServiceId(ids: seq<string>, tag: Tag): string
    requires |ids| == 13
  {
    if tag.RouteA? then ids[0] else ids[1]
  }

  function CertificateId(ids: seq<string>, tag: Tag): string
    requires |ids| == 13
  {
    if tag.RouteA? then ids[11] else ids[12]
  }

  function DeletedBody(ids: seq<string>, role: Role, id: string): Object
    requires |ids| == 13
  {
    var tag := TagOfRole(role);
    map["id" := Str(id), "tags" := Arr([Str("fapi2-demo"), Str(TagText(tag))])]
      + (if role.Row? then map["name" := Str(role.row.1)] else map[])
      + (match KindOfRole(role)
         case Certificate => map[]
         case Service =>
           map["client_certificate" := Reference(CertificateId(ids, tag)),
               "ca_certificates" := Arr([Str(SHARED_API_CA_ID)])]
         case _ => map["service" := NamedReference(ServiceId(ids, tag), ServiceName(tag))])
  }

  function DeletedEntry(ids: seq<string>, role: Role, id: string): Json
    requires |ids| == 13
  {
    var name := match role
      case CertificateOf(tag) => "certificate"
      case Row(row) => if row.0 == Plugin then row.1 + " for service " + ServiceName(row.2) else row.1;
    Entry(KindOfRole(role), name, DeletedBody(ids, role, id))
  }

  lemma {:induction false} RolesNamed(role: Role)
    requires role in ROLES && role.Row?
    ensures role.row.1 != "" && role.row.0 != Certificate
  {
    hide ROLES;
    InRoles(role);
  }

  lemma {:induction false} DeletedFits(ids: seq<string>, role: Role, id: string)
    requires |ids| == 13 && role in ROLES && id != ""
    ensures var j := DeletedEntry(ids, role, id);
      && EntryOk(Deleting, j) && Plays(j, role) && IdOf(j) == id
      && Is(j, KindOfRole(role), TagOfRole(role)) && Entity(j) == DeletedBody(ids, role, id)
  {
    if role.Row? {
      RolesNamed(role);
    }
    hide ROLES, CanonicalKind, LegacyTag, NamedReference, Reference;
    var entity := DeletedBody(ids, role, id);
    var j := DeletedEntry(ids, role, id);
    EntryIsOk(KindOfRole(role), j.fields["name"].s, entity);
    hide EntryOk, Entry;
    LegacyTagExactly(entity, TagOfRole(role));
  }

  function Deletions(ids: seq<string>): (r: seq<Json>)
    requires |ids| == 13
    ensures |r| == 13
  {
    RolesAre(0);
    seq(13, k requires 0 <= k < 13 && |ids| == 13 && |ROLES| == 13 => DeletedEntry(ids, ROLES[k], ids[k]))
  }

  predicate UsableIds(ids: seq<string>) {
    |ids| == 13 && NoRepeat(ids) && forall k :: 0 <= k < 13 ==> ids[k] != "" && ids[k] !in PROTECTED_IDS
  }

  lemma {:induction false} UsableAreThirteen(ids: seq<string>)
    requires UsableIds(ids)
    ensures |ids| == 13
  {
  }

  lemma {:induction false} DeletionsFit(ids: seq<string>, k: nat)
    requires UsableIds(ids) && k < 13
    ensures |ROLES| == 13
    ensures var j := Deletions(ids)[k];
      && EntryOk(Deleting, j) && Plays(j, ROLES[k]) && IdOf(j) == ids[k]
      && Is(j, KindOfRole(ROLES[k]), TagOfRole(ROLES[k])) && Entity(j) == DeletedBody(ids, ROLES[k], ids[k])
  {
    RolesAre(k);
    hide ROLES, PROTECTED_IDS, NoRepeat;
    DeletedFits(ids, ROLES[k], ids[k]);
  }

  /** Where the service and the certificate of a tag stand in the list. */
  lemma {:induction false} EndsAt(ids: seq<string>, tag: Tag) returns (service: nat, certificate: nat)
    requires UsableIds(ids)
    ensures service < 13 && certificate < 13
    ensures var ds := Deletions(ids);
      && EntryOk(Deleting, ds[service]) && Is(ds[service], Service, tag) && IdOf(ds[service]) == ServiceId(ids, tag)
      && EntryOk(Deleting, ds[certificate]) && Is(ds[certificate], Certificate, tag)
      && IdOf(ds[certificate]) == CertificateId(ids, tag)
  {
    service, certificate := if tag.RouteA? then 0 else 1, if tag.RouteA? then 11 else 12;
    RolesAre(service);
    RolesAre(certificate);
    assert |ids| == 13;
    assert EXPECTED_NAMED[service].0 == Service && EXPECTED_NAMED[service].2 == tag;
    hide ROLES, EXPECTED_NAMED, UsableIds, Deletions, EntryOk, Is, IdOf, Plays, Entity, DeletedBody;
    DeletionsFit(ids, service);
    DeletionsFit(ids, certificate);
  }

  lemma {:induction false} BodyHolds(ids: seq<string>, role: Role, id: string)
    requires |ids| == 13
    ensures var body, tag := DeletedBody(ids, role, id), TagOfRole(role);
      && (KindOfRole(role) == Service ==>
            && Get(body, "client_certificate") == Reference(CertificateId(ids, tag))
            && Get(body, "ca_certificates") == Arr([Str(SHARED_API_CA_ID)]))
      && (KindOfRole(role) in {Route, Plugin} ==>
            Get(body, "service") == NamedReference(ServiceId(ids, tag), ServiceName(tag)))
  {
    hide Reference, NamedReference;
  }

  lemma {:induction false} WrittenOk(ids: seq<string>)
    requires UsableIds(ids)
    ensures AllOk(Deleting, Deletions(ids)) && AllOk(Creating, Creations())
  {
    assert |ids| == 13;
    hide EntryOk, UsableIds, Deletions, Plays, Is, Entity, IdOf, DeletedBody, ROLES, CreatedEntry, IsTheEntity;
    forall k | 0 <= k < 13 ensures EntryOk(Deleting, Deletions(ids)[k]) {
      DeletionsFit(ids, k);
    }
    forall e | 0 <= e < 6 ensures EntryOk(Creating, Creations()[e]) {
      CreatedFits(e);
    }
  }

  lemma {:induction false} WrittenIsClosed(ids: seq<string>, k: nat)
    requires UsableIds(ids) && k < 13 && AllOk(Deleting, Deletions(ids))
    ensures ClosedUnderReference(Deletions(ids)[k], Deletions(ids))
  {
    var ds := Deletions(ids);
    DeletionsFit(ids, k);
    var role := ROLES[k];
    var i, j := EndsAt(ids, TagOfRole(role));
    BodyHolds(ids, role, ids[k]);
    hide UsableIds, Deletions, EntryOk, ROLES, DeletedBody, Reference, NamedReference, IdOf, KindOf, TagOf, Plays;
    IsItsKind(ds[k], KindOfRole(role), TagOfRole(role));
  }

  lemma {:induction false} IsItsKind(d: Deletion, kind: Kind, tag: Tag)
    requires Is(d, kind, tag)
    ensures KindOf(d) == Some(kind) && TagOf(d) == Some(tag)
  {
    hide KindOf, TagOf;
  }

  lemma {:induction false} WrittenPart(ids: seq<string>, k: nat)
    requires UsableIds(ids) && AllOk(Deleting, Deletions(ids)) && k < 13
    ensures |ROLES| == 13
    ensures var ds := Deletions(ids);
      && PlaysSome(ds[k]) && Filled(ds, ROLES[k]) && ClosedUnderReference(ds[k], ds)
      && IdOf(ds[k]) == ids[k] && IdOf(ds[k]) !in PROTECTED_IDS
  {
    DeletionsFit(ids, k);
    WrittenIsClosed(ids, k);
    hide EntryOk, Plays, ROLES, ClosedUnderReference, Is, Entity, DeletedBody;
    hide IdOf, Deletions, PROTECTED_IDS, PlaysSome, Filled, KindOf, TagOf;
    PlayedAt(Deletions(ids), k);
  }

  lemma {:induction false} WrittenGraph(ids: seq<string>)
    requires UsableIds(ids) && AllOk(Deleting, Deletions(ids))
    ensures LegacyGraph(Deletions(ids))
  {
    var ds: seq<Deletion> := Deletions(ids);
    assert NoRepeat(ids);
    hide *;
    forall k | 0 <= k < 13 ensures WrittenAt(ids, ds, k) {
      WrittenPart(ids, k);
      PartIs(ids, ds, k);
    }
    FromParts(ids, ds);
  }

  /** What the graph asks of the k-th deletion. */
  predicate WrittenAt(ids: seq<string>, ds: seq<Deletion>, k: nat) {
    && k < |ds| && k < |ROLES| && k < |ids|
    && PlaysSome(ds[k]) && Filled(ds, ROLES[k]) && ClosedUnderReference(ds[k], ds)
    && IdOf(ds[k]) == ids[k] && IdOf(ds[k]) !in PROTECTED_IDS
  }

  lemma {:induction false} PartIs(ids: seq<string>, ds: seq<Deletion>, k: nat)
    requires k < |ds| && k < |ROLES| && k < |ids|
    requires PlaysSome(ds[k]) && Filled(ds, ROLES[k]) && ClosedUnderReference(ds[k], ds)
    requires IdOf(ds[k]) == ids[k] && IdOf(ds[k]) !in PROTECTED_IDS
    ensures WrittenAt(ids, ds, k)
  {
    hide PlaysSome, Filled, ClosedUnderReference, IdOf, EntryOk, ROLES, PROTECTED_IDS;
  }

  lemma {:induction false} FromParts(ids: seq<string>, ds: seq<Deletion>)
    requires NoRepeat(ids) && |ids| == |ds| == 13 && forall k: nat :: k < 13 ==> WrittenAt(ids, ds, k)
    ensures LegacyGraph(ds)
  {
    RolesAre(0);
    hide PlaysSome, Filled, ClosedUnderReference, IdOf, EntryOk;
    hide ROLES, PROTECTED_IDS, NoRepeat, LegacyGraph, DistinctlyNumbered;
    forall k | 0 <= k < 13
      ensures PlaysSome(ds[k]) && ClosedUnderReference(ds[k], ds) && IdOf(ds[k]) == ids[k]
      ensures IdOf(ds[k]) !in PROTECTED_IDS
    {
      assert WrittenAt(ids, ds, k);
    }
    forall role | role in ROLES ensures Filled(ds, role) {
      var k: nat :| k < |ROLES| && ROLES[k] == role;
      assert WrittenAt(ids, ds, k);
    }
    NumberedByIds(ids, ds);
    GraphAssembled(ds);
  }

  lemma {:induction false} NumberedByIds(ids: seq<string>, ds: seq<Deletion>)
    requires NoRepeat(ids) && |ids| == |ds| && forall k :: 0 <= k < |ds| ==> IdOf(ds[k]) == ids[k]
    ensures DistinctlyNumbered(ds)
  {
    hide IdOf, EntryOk;
  }

  lemma {:induction false} PlayedAt(ds: seq<Deletion>, k: nat)
    requires k < |ds| && k < |ROLES| && Plays(ds[k], ROLES[k])
    ensures PlaysSome(ds[k]) && Filled(ds, ROLES[k])
  {
    hide Plays, EntryOk;
    assert ROLES[k] in ROLES;
  }

  function Creations(): (r: seq<Json>)
    ensures |r| == 6
  {
    seq(6, e requires 0 <= e < 6 => CreatedEntry(e))
  }

  lemma {:induction false} WrittenSix()
    requires AllOk(Creating, Creations())
    ensures CreatesTheSix(Creations())
  {
    var cs: seq<Creation> := Creations();
    assert |RUNTIME_ENTITIES| == 6;
    hide EntryOk, IsTheEntity, CreatedEntry, Creations, RUNTIME_ENTITIES;
    forall e: nat | e < 6 ensures IsOneOfTheSix(cs[e]) && Creates(cs, e) {
      CreatedFits(e);
      CreatedAt(e);
      assert IsTheEntity(cs[e], e);
    }
  }

  lemma {:induction false} CreatedAt(e: nat)
    requires e < 6
    ensures Creations()[e] == CreatedEntry(e)
  {
    hide CreatedEntry;
  }

  /** The migration as a report, its thirteen deletions under these ids. */
  function ReportOf(ids: seq<string>): Json
    requires |ids| == 13
  {
    Obj(map[
      "changes" := Obj(map["creating" := Arr(Creations()), "updating" := Arr([]), "deleting" := Arr(Deletions(ids))]),
      "summary" := Obj(map["creating" := Num(6), "updating" := Num(0), "deleting" := Num(13), "total" := Num(19)]),
      "warnings" := Arr([]), "errors" := Arr([])])
  }

  lemma {:induction false} WrittenReport(ids: seq<string>)
    requires UsableIds(ids) && AllOk(Deleting, Deletions(ids)) && AllOk(Creating, Creations())
    ensures var report := ReportOf(ids);
      && WellListed(report) && WellCounted(report)
      && Listed(report, Creating) == Creations() && Listed(report, Updating) == []
      && Listed(report, Deleting) == Deletions(ids)
  {
    assert |ids| == 13;
    hide Deletions, Creations, EntryOk, UsableIds;
    var report := ReportOf(ids);
    assert Structured(report);
    forall op: Operation ensures Entries(report, op).Arr? && AllOk(op, Entries(report, op).items) {
      match op
      case Creating => case Updating => case Deleting =>
    }
  }

  /** Whatever thirteen different unprotected ids the legacy entities have, their migration is
      accepted. */
  lemma {:induction false} EveryMigrationIsAccepted(ids: seq<string>)
    requires UsableIds(ids)
    ensures WellListed(ReportOf(ids)) && ListsMigration(ReportOf(ids))
    ensures Accept(ReportOf(ids)).Ok? && !Accept(ReportOf(ids)).value.Empty()
  {
    WrittenOk(ids);
    WrittenReport(ids);
    WrittenSix();
    WrittenGraph(ids);
    AcceptedExactly(ReportOf(ids));
    hide CreatesTheSix, LegacyGraph, Accept, WellListed, WellCounted, Listed, AllOk, ReportOf;
    AcceptedHoldsDeletions(ReportOf(ids));
  }

  lemma {:induction false} AcceptedHoldsDeletions(report: Json)
    requires Accept(report).Ok? && WellListed(report)
    ensures |Accept(report).value.deleting| == |Listed(report, Deleting)|
  {
    var r := Accept(report).value;
    hide *;
    AcceptedParsed(report, r);
    DeletionsParsed(report, r);
  }

  lemma {:induction false} DeletionsParsed(report: Json, r: Report)
    requires Parse(report) == Ok(r) && WellListed(report)
    ensures |r.deleting| == |Listed(report, Deleting)|
  {
    hide Parse, WellListed;
    ParsedAlike(report, r, Deleting);
  }

  lemma {:induction false} ProtectedAreLong(id: string)
    requires id in PROTECTED_IDS
    ensures |id| == 36
  {
    assert forall e :: 0 <= e < 6 ==> |RUNTIME_ENTITIES[e].2| == 36;
  }

  /** There are such ids. */
  lemma {:induction false} UsableIdsExist() returns (ids: seq<string>)
    ensures UsableIds(ids)
  {
    ids := seq(13, k requires 0 <= k < 13 => seq(k + 1, i => 'x'));
    assert forall k :: 0 <= k < 13 ==> |ids[k]| == k + 1;
    forall k | 0 <= k < 13 ensures ids[k] !in PROTECTED_IDS {
      if ids[k] in PROTECTED_IDS {
        ProtectedAreLong(ids[k]);
      }
    }
    hide PROTECTED_IDS;
  }
}
