/** What acceptance of a decK report means: the deleted entities form two closed tag classes. */
module MigrationGraph {
  import opened Wrappers
  import opened Json
  import opened DiffReport
  import opened MigrationScope
  import opened Bags

  /** The named rows in the order of the report. */
  function NamedList(ds: seq<Deletion>): (r: seq<(Kind, string, Tag)>)
    ensures multiset(r) == NamedRows(ds)
  {
    if ds == [] then []
    else
      var d := ds[|ds| - 1];
      NamedList(ds[..|ds| - 1])
        + if DeleteOk(d) && KindOf(d) != Some(Certificate) then [(KindOf(d).value, DeletedName(d), TagOf(d).value)]
          else []
  }

  function HasTag(tag: Tag): ((Kind, string, Tag)) -> bool {
    (row: (Kind, string, Tag)) => row.2 == tag
  }

  /** How many deletions carry the tag. */
  function ClassSize(ds: seq<Deletion>, tag: Tag): nat {
    if ds == [] then 0 else ClassSize(ds[..|ds| - 1], tag) + if TagOf(ds[|ds| - 1]) == Some(tag) then 1 else 0
  }

  /** A tag class is its named rows and its certificates. */
  lemma {:induction false} ClassSplits(ds: seq<Deletion>, tag: Tag)
    requires forall k :: 0 <= k < |ds| ==> DeleteOk(ds[k])
    ensures ClassSize(ds, tag) == Count(NamedList(ds), HasTag(tag)) + CertificateRows(ds)[tag]
  {
    hide EntryOk, DeleteOk, KindOf, TagOf, IdOf, DeletedName, HasTag, Count;
    if ds == [] {
      CountNone(HasTag(tag));
    } else {
      var n := |ds| - 1;
      var d := ds[n];
      ClassSplits(ds[..n], tag);
      OkIsTagged(d);
      var row := (KindOf(d).value, DeletedName(d), TagOf(d).value);
      var more := if KindOf(d) == Some(Certificate) then [] else [row];
      CountConcat(NamedList(ds[..n]), more, HasTag(tag));
      CountOne(row, tag);
      CountNone(HasTag(tag));
      assert NamedList(ds) == NamedList(ds[..n]) + more;
      assert CertificateRows(ds)[tag] == CertificateRows(ds[..n])[tag] + CertificateRow(d)[tag];
    }
  }

  lemma {:induction false} CountNone(p: ((Kind, string, Tag)) -> bool)
    ensures Count([], p) == 0
  {
  }

  lemma {:induction false} CountOne(row: (Kind, string, Tag), tag: Tag)
    ensures Count([row], HasTag(tag)) == One(row, tag)
  {
  }

  lemma {:induction false} OkIsTagged(d: Deletion)
    requires DeleteOk(d)
    ensures KindOf(d).Some? && TagOf(d).Some?
  {
  }

  lemma {:induction false} ExpectedClassSizes()
    ensures Count(EXPECTED_NAMED, HasTag(RouteA)) == 5
    ensures Count(EXPECTED_NAMED, HasTag(RouteB)) == 6
  {
    CountExplicit(EXPECTED_NAMED, RouteA);
    CountExplicit(EXPECTED_NAMED, RouteB);
  }

  /** Count of eleven rows, spelled out. */
  lemma {:induction false} CountExplicit(rows: seq<(Kind, string, Tag)>, tag: Tag)
    requires |rows| == 11
    ensures Count(rows, HasTag(tag)) ==
      One(rows[0], tag) + One(rows[1], tag) + One(rows[2], tag) + One(rows[3], tag) + One(rows[4], tag)
        + One(rows[5], tag) + One(rows[6], tag) + One(rows[7], tag) + One(rows[8], tag) + One(rows[9], tag)
        + One(rows[10], tag)
  {
    var p := HasTag(tag);
    assert rows[..11] == rows;
    forall n | 0 <= n < 11 ensures Count(rows[..n + 1], p) == Count(rows[..n], p) + One(rows[n], tag) {
      assert rows[..n + 1][..n] == rows[..n];
    }
  }

  function One(row: (Kind, string, Tag), tag: Tag): nat { if row.2 == tag then 1 else 0 }

  /** Every accepted non-empty report deletes six entities of the first tag, seven of the second. */
  lemma {:induction false} ClassSizes(ds: seq<Deletion>)
    requires DeletionsOk(ds)
    ensures ClassSize(ds, RouteA) == 6 && ClassSize(ds, RouteB) == 7
  {
    hide DeleteOk, RelationsOk, OneServicePerTag, EntryOk, HasTag, NamedRows, ExpectedNamed;
    ClassSplits(ds, RouteA);
    ClassSplits(ds, RouteB);
    NamedClassSizes(NamedList(ds));
  }

  lemma {:induction false} NamedClassSizes(rows: seq<(Kind, string, Tag)>)
    requires multiset(rows) == ExpectedNamed()
    ensures Count(rows, HasTag(RouteA)) == 5 && Count(rows, HasTag(RouteB)) == 6
  {
    CountPermuted(rows, EXPECTED_NAMED, HasTag(RouteA));
    CountPermuted(rows, EXPECTED_NAMED, HasTag(RouteB));
    ExpectedClassSizes();
  }

  lemma {:induction false} CertificateIsThere(ds: seq<Deletion>, tag: Tag)
    requires tag in CertificateRows(ds)
    ensures exists k :: 0 <= k < |ds| && Is(ds[k], Certificate, tag)
  {
    hide EntryOk, KindOf, TagOf;
    var n := |ds| - 1;
    if tag in CertificateRow(ds[n]) {
      assert Is(ds[n], Certificate, tag);
    } else {
      CertificateIsThere(ds[..n], tag);
      var k :| 0 <= k < n && Is(ds[..n][k], Certificate, tag);
      assert Is(ds[k], Certificate, tag);
    }
  }

  /** Some deletion of that kind and tag carries that id. */
  predicate Deletes(ds: seq<Deletion>, kind: Kind, tag: Tag, id: string) {
    exists k :: 0 <= k < |ds| && Is(ds[k], kind, tag) && IdOf(ds[k]) == id
  }

  /** The service and the certificate of each tag are deleted. */
  lemma {:induction false} BothEnds(ds: seq<Deletion>, tag: Tag)
    requires DeletionsOk(ds)
    ensures Find(ds, Service, tag).Some? && Deletes(ds, Service, tag, Find(ds, Service, tag).value)
    ensures Find(ds, Certificate, tag).Some? && Deletes(ds, Certificate, tag, Find(ds, Certificate, tag).value)
  {
    hide DeleteOk, RelationsOk, OneServicePerTag, EntryOk, NamedRows, KindOf;
    hide TagOf, IdOf, ExpectedNamed, Is, CertificateRows;
    ExpectedServices();
    NamedIsThere(ds, (Service, ServiceName(tag), tag));
    CertificateIsThere(ds, tag);
    FindIsThere(ds, Service, tag);
    FindIsThere(ds, Certificate, tag);
  }

  /** A reference as decK reports it: an id alone, or an id with a name. */
  function Reference(id: string): Json { Obj(map["id" := Str(id)]) }

  function NamedReference(id: string, name: string): Json { Obj(map["id" := Str(id), "name" := Str(name)]) }

  /** _certificate_relation_id reads exactly the plain references to a non-empty id. */
  lemma {:induction false} CertificateRelationExactly(entity: Object, field: string, id: string)
    ensures CertificateRelationId(entity, field) == Some(id) <==> id != "" && Get(entity, field) == Reference(id)
  {
    if CertificateRelationId(entity, field) == Some(id) {
      assert Get(entity, field).fields == Reference(id).fields;
    }
  }

  /** _relation_id reads exactly the references of the expected name to a non-empty id. */
  lemma {:induction false} RelationExactly(entity: Object, field: string, name: string, id: string)
    ensures RelationId(entity, field, name) == Some(id) <==> id != "" && Get(entity, field) == NamedReference(id, name)
  {
    if RelationId(entity, field, name) == Some(id) {
      assert Get(entity, field).fields == NamedReference(id, name).fields;
    }
    if id != "" && Get(entity, field) == NamedReference(id, name) {
      assert Get(entity, field).fields.Keys == {"id", "name"};
    }
  }

  function TagText(tag: Tag): string { if tag.RouteA? then "route-a" else "route-b" }

  /** _legacy_route_tag reads exactly the two-element lists of the demo tag and the Route tag. */
  lemma {:induction false} LegacyTagExactly(entity: Object, tag: Tag)
    ensures LegacyTag(entity) == Some(tag) <==>
      || Get(entity, "tags") == Arr([Str("fapi2-demo"), Str(TagText(tag))])
      || Get(entity, "tags") == Arr([Str(TagText(tag)), Str("fapi2-demo")])
  {
    assert "route-a" != "route-b" && |"fapi2-demo"| == 10 && |"route-a"| == 7 && |"route-b"| == 7 by {
      assert "route-a"[6] != "route-b"[6];
    }
    var tags := Get(entity, "tags");
    if LegacyTag(entity) == Some(tag) {
      assert tags.items == [tags.items[0], tags.items[1]];
    }
  }

  /** The references of a deletion, each to a deleted entity of its own tag. */
  predicate ClosedUnderReference(d: Deletion, ds: seq<Deletion>) {
    && TagOf(d).Some? && KindOf(d).Some?
    && var tag := TagOf(d).value;
       match KindOf(d).value
       case Certificate => true
       case Service =>
         && Get(Entity(d), "ca_certificates") == Arr([Str(SHARED_API_CA_ID)])
         && exists k | 0 <= k < |ds| ::
              Is(ds[k], Certificate, tag) && Get(Entity(d), "client_certificate") == Reference(IdOf(ds[k]))
       case _ =>
         exists k | 0 <= k < |ds| ::
           Is(ds[k], Service, tag) && Get(Entity(d), "service") == NamedReference(IdOf(ds[k]), ServiceName(tag))
  }

  lemma {:induction false} ReferencesClosed(ds: seq<Deletion>, d: Deletion)
    requires DeletionsOk(ds) && DeleteOk(d) && RelationsOk(d, ds)
    ensures ClosedUnderReference(d, ds)
  {
    hide DeletionsOk, DeleteOk, EntryOk, CertificateRelationId, RelationId, TagOf;
    hide KindOf, Find, Is, IdOf, Reference, NamedReference;
    OkIsTagged(d);
    var tag := TagOf(d).value;
    BothEnds(ds, tag);
    if KindOf(d) == Some(Service) {
      var id := Find(ds, Certificate, tag).value;
      CertificateRelationExactly(Entity(d), "client_certificate", id);
      var k :| 0 <= k < |ds| && Is(ds[k], Certificate, tag) && IdOf(ds[k]) == id;
    } else {
      var id := Find(ds, Service, tag).value;
      RelationExactly(Entity(d), "service", ServiceName(tag), id);
      var k :| 0 <= k < |ds| && Is(ds[k], Service, tag) && IdOf(ds[k]) == id;
    }
  }

  /** The deletions are two tag classes, closed under reference, with distinct unprotected ids. */
  predicate TwoClosedClasses(ds: seq<Deletion>) {
    && |ds| == 13 && ClassSize(ds, RouteA) == 6 && ClassSize(ds, RouteB) == 7
    && (forall k :: 0 <= k < |ds| ==> ClosedUnderReference(ds[k], ds) && IdOf(ds[k]) !in PROTECTED_IDS)
    && (forall i, j :: 0 <= i < j < |ds| ==> IdOf(ds[i]) != IdOf(ds[j]))
  }

  /** No deletion removes what the same report creates. */
  predicate NothingCreatedIsDeleted(cs: seq<Creation>, ds: seq<Deletion>) {
    forall i, k :: 0 <= i < |cs| && 0 <= k < |ds| ==> IdentityOf(Creating, cs[i]).id != Some(IdOf(ds[k]))
  }

  /** Every accepted report that is not a no-op creates the six fixed entities and deletes exactly
      two tag classes of six and seven entities, closed under reference; all ids are distinct, and
      nothing protected or created by the same report is deleted. */
  lemma {:induction false} AcceptedIsClosedGraph(report: Json, r: Report)
    requires Accept(report) == Ok(r) && !r.Empty()
    ensures WellParsed(r) && CreatesTheSix(r.creating) && r.updating == [] && TwoClosedClasses(r.deleting)
    ensures NothingCreatedIsDeleted(r.creating, r.deleting)
  {
    AcceptedParsed(report, r);
    hide Accept, Parse, EntryOk, CreationsOk, DeletionsOk;
    hide NoRepeat, IdOf, TwoClosedClasses, NothingCreatedIsDeleted, CreatesTheSix;
    CreationsAreTheSix(r.creating);
    DistinctIds(r.creating, r.deleting);
    DeletionsClosed(r.deleting);
  }

  lemma {:induction false} DeletionsClosed(ds: seq<Deletion>)
    requires DeletionsOk(ds)
    requires forall i, j :: 0 <= i < j < |ds| ==> IdOf(ds[i]) != IdOf(ds[j])
    ensures TwoClosedClasses(ds)
  {
    hide *;
    DeletionFacts(ds);
    ClassSizes(ds);
    forall k | 0 <= k < |ds| ensures ClosedUnderReference(ds[k], ds) {
      ReferencesClosed(ds, ds[k]);
    }
    Assembled(ds);
  }

  lemma {:induction false} Assembled(ds: seq<Deletion>)
    requires |ds| == 13 && ClassSize(ds, RouteA) == 6 && ClassSize(ds, RouteB) == 7
    requires forall k :: 0 <= k < |ds| ==> ClosedUnderReference(ds[k], ds)
    requires forall k :: 0 <= k < |ds| ==> IdOf(ds[k]) !in PROTECTED_IDS
    requires forall i, j :: 0 <= i < j < |ds| ==> IdOf(ds[i]) != IdOf(ds[j])
    ensures TwoClosedClasses(ds)
  {
    hide ClassSize, ClosedUnderReference, IdOf, EntryOk;
  }

  lemma {:induction false} DeletionFacts(ds: seq<Deletion>)
    requires DeletionsOk(ds)
    ensures |ds| == 13
    ensures forall k :: 0 <= k < |ds| ==> DeleteOk(ds[k]) && RelationsOk(ds[k], ds) && IdOf(ds[k]) !in PROTECTED_IDS
  {
    hide EntryOk, RelationsOk, NamedRows, CertificateRows, ExpectedNamed, OneServicePerTag, KindOf, TagOf, IdOf;
  }

  lemma {:induction false} DistinctIds(cs: seq<Creation>, ds: seq<Deletion>)
    requires NoRepeat(CreationIds(cs) + DeletionIds(ds))
    ensures forall i, j :: 0 <= i < j < |ds| ==> IdOf(ds[i]) != IdOf(ds[j])
    ensures NothingCreatedIsDeleted(cs, ds)
  {
    Apart(CreationIds(cs), DeletionIds(ds));
    hide EntryOk, IdOf, IdentityOf, NoRepeat;
    assert forall k :: 0 <= k < |ds| ==> DeletionIds(ds)[k] == Some(IdOf(ds[k]));
    assert forall k :: 0 <= k < |cs| ==> CreationIds(cs)[k] == IdentityOf(Creating, cs[k]).id;
  }

  lemma {:induction false} Apart<T>(xs: seq<T>, ys: seq<T>)
    requires NoRepeat(xs + ys)
    ensures forall i, j :: 0 <= i < j < |ys| ==> ys[i] != ys[j]
    ensures forall i, k :: 0 <= i < |xs| && 0 <= k < |ys| ==> xs[i] != ys[k]
  {
    var all := xs + ys;
    assert forall k :: 0 <= k < |ys| ==> all[|xs| + k] == ys[k];
    assert forall k :: 0 <= k < |xs| ==> all[k] == xs[k];
  }

  /* ---------------- what is created ---------------- */

  /** The row of each creation is one of the six expected ones. */
  lemma {:induction false} RowOfName(rows: seq<(Kind, string, string)>, k: nat)
    requires k < |rows| && forall i, j :: 0 <= i < j < |rows| ==> rows[i].1 != rows[j].1
    ensures RuntimeKindFrom(rows, rows[k].1) == Some(rows[k].0)
  {
    if k > 0 {
      assert rows[0].1 != rows[k].1 && rows[1..][k - 1] == rows[k];
      RowOfName(rows[1..], k - 1);
    }
  }

  lemma {:induction false} RuntimeNamesDistinct()
    ensures forall i, j :: 0 <= i < j < |RUNTIME_ENTITIES| ==> RUNTIME_ENTITIES[i].1 != RUNTIME_ENTITIES[j].1
  {
    var names := ["fapi-api-resource-server", "fapi-api-resource-server-route", "pre-function", "openid-connect",
      "tls-handshake-modifier", "tls-metadata-headers"];
    assert forall i :: 0 <= i < |names| ==> RUNTIME_ENTITIES[i].1 == names[i];
    assert |names[0]| == 24 && |names[1]| == 30 && |names[2]| == 12 && |names[3]| == 14 && |names[4]| == 22;
    assert |names[5]| == 20;
  }

  /** A creation is the expected entity of its name. */
  lemma {:induction false} CreationIsExpected(cs: seq<Creation>, k: nat) returns (e: nat)
    requires CreationsOk(cs) && k < |cs|
    ensures e < |RUNTIME_ENTITIES|
    ensures var x := IdentityOf(Creating, cs[k]);
      (CanonicalKind(x.kind), x.name, x.id)
        == (Some(RUNTIME_ENTITIES[e].0), RUNTIME_ENTITIES[e].1, Some(RUNTIME_ENTITIES[e].2))
  {
    var x := IdentityOf(Creating, cs[k]);
    assert (x.name, x.id) in CreatedPairs(cs);
    e :| 0 <= e < |RUNTIME_ENTITIES| && (RUNTIME_ENTITIES[e].1, Some(RUNTIME_ENTITIES[e].2)) == (x.name, x.id);
    assert CreateOk(cs[k]);
    hide EntryOk, CreateOk, CanonicalKind;
    RuntimeNamesDistinct();
    RowOfName(RUNTIME_ENTITIES, e);
  }

  lemma {:induction false} ExpectedIsCreated(cs: seq<Creation>, e: nat) returns (k: nat)
    requires CreationsOk(cs) && e < |RUNTIME_ENTITIES|
    ensures k < |cs|
    ensures IdentityOf(Creating, cs[k]).name == RUNTIME_ENTITIES[e].1
  {
    hide EntryOk, CreateOk;
    assert (RUNTIME_ENTITIES[e].1, Some(RUNTIME_ENTITIES[e].2)) in EXPECTED_PAIRS;
    k :| 0 <= k < |cs| && (IdentityOf(Creating, cs[k]).name, IdentityOf(Creating, cs[k]).id)
                       == (RUNTIME_ENTITIES[e].1, Some(RUNTIME_ENTITIES[e].2));
  }

  /** A created entity is the e-th of the six, tagged as the API's and bound inside the six. */
  predicate IsTheEntity(c: Creation, e: nat)
    requires e < |RUNTIME_ENTITIES|
  {
    var x, row, entity := IdentityOf(Creating, c), RUNTIME_ENTITIES[e], NewOf(c).fields;
    && CanonicalKind(x.kind) == Some(row.0) && x.name == row.1 && x.id == Some(row.2)
    && c.fields["name"] == Str(if row.0 == Plugin then row.1 + " for route " + RUNTIME_ROUTE_NAME else row.1)
    && Get(entity, "name") == Str(row.1) && Get(entity, "tags") == Arr([Str("fapi2-demo"), Str("api")])
    && (row.0 == Route ==> Get(entity, "service") == NamedReference(RUNTIME_ENTITIES[0].2, RUNTIME_SERVICE_NAME))
    && (row.0 == Plugin ==>
          && Get(entity, "route") == NamedReference(RUNTIME_ENTITIES[1].2, RUNTIME_ROUTE_NAME) && "service" !in entity)
  }

  /** Every creation is one of the six fixed entities, and each of them is created. */
  ghost predicate CreatesTheSix(cs: seq<Creation>) {
    && |cs| == 6
    && (forall k :: 0 <= k < |cs| ==> IsOneOfTheSix(cs[k]))
    && (forall e: nat :: e < |RUNTIME_ENTITIES| ==> Creates(cs, e))
  }

  predicate IsOneOfTheSix(c: Creation) {
    exists e | 0 <= e < |RUNTIME_ENTITIES| :: IsTheEntity(c, e)
  }

  predicate Creates(cs: seq<Creation>, e: nat)
    requires e < |RUNTIME_ENTITIES|
  {
    exists k | 0 <= k < |cs| :: IsTheEntity(cs[k], e)
  }

  lemma {:induction false} IdOfName(rows: seq<(Kind, string, string)>, k: nat)
    requires k < |rows| && forall i, j :: 0 <= i < j < |rows| ==> rows[i].1 != rows[j].1
    ensures RuntimeIdFrom(rows, rows[k].1) == Some(rows[k].2)
  {
    if k > 0 {
      assert rows[0].1 != rows[k].1 && rows[1..][k - 1] == rows[k];
      IdOfName(rows[1..], k - 1);
    }
  }

  lemma {:induction false} BoundIds()
    ensures RuntimeId(RUNTIME_SERVICE_NAME) == Some(RUNTIME_ENTITIES[0].2)
    ensures RuntimeId(RUNTIME_ROUTE_NAME) == Some(RUNTIME_ENTITIES[1].2)
  {
    RuntimeNamesDistinct();
    IdOfName(RUNTIME_ENTITIES, 0);
    IdOfName(RUNTIME_ENTITIES, 1);
  }

  lemma {:induction false} CreationBound(c: Creation, e: nat)
    requires CreateOk(c) && e < |RUNTIME_ENTITIES|
    requires var x := IdentityOf(Creating, c);
      (CanonicalKind(x.kind), x.name, x.id)
        == (Some(RUNTIME_ENTITIES[e].0), RUNTIME_ENTITIES[e].1, Some(RUNTIME_ENTITIES[e].2))
    ensures IsTheEntity(c, e)
  {
    var entity := NewOf(c).fields;
    BoundIds();
    RelationExactly(entity, "service", RUNTIME_SERVICE_NAME, RUNTIME_ENTITIES[0].2);
    RelationExactly(entity, "route", RUNTIME_ROUTE_NAME, RUNTIME_ENTITIES[1].2);
    hide EntryOk, CanonicalKind, RuntimeId, RelationId, IdentityOf, NamedReference;
  }

  lemma {:induction false} CreationsAreTheSix(cs: seq<Creation>)
    requires CreationsOk(cs)
    ensures CreatesTheSix(cs)
  {
    assert |cs| == 6 && forall k :: 0 <= k < |cs| ==> CreateOk(cs[k]);
    hide EntryOk, CreateOk, CanonicalKind, CreationsOk, IdentityOf, IsTheEntity;
    forall k | 0 <= k < |cs| ensures IsOneOfTheSix(cs[k]) {
      var e := CreationIsExpected(cs, k);
      CreationBound(cs[k], e);
    }
    forall e: nat | e < |RUNTIME_ENTITIES| ensures Creates(cs, e) {
      var k := ExpectedIsCreated(cs, e);
      var e' := CreationIsExpected(cs, k);
      RuntimeNamesDistinct();
      CreationBound(cs[k], e);
    }
  }
}
