/** Acceptance of a decK report, told from the entries it lists in whatever order: exactly the
    reports that list nothing and those that list the one migration graph. */
module MigrationExactly {
  import opened Wrappers
  import opened Json
  import opened Sorting
  import opened DiffReport
  import opened MigrationScope
  import opened MigrationGraph
  import opened Bags

  /* ---------------- the thirteen legacy entities ---------------- */

  datatype Role = Row(row: (Kind, string, Tag)) | CertificateOf(tag: Tag)

  function AsRow(): ((Kind, string, Tag)) -> Role {
    (row: (Kind, string, Tag)) => Row(row)
  }

  const ROLES: seq<Role> := Map(AsRow(), EXPECTED_NAMED) + [CertificateOf(RouteA), CertificateOf(RouteB)]

  /** d is that entity: kind and tag, and for a named one the name decK reports and its own. */
  predicate Plays(d: Deletion, role: Role) {
    match role
    case CertificateOf(tag) => Is(d, Certificate, tag)
    case Row(row) =>
      && Is(d, row.0, row.2) && Get(Entity(d), "name") == Str(row.1)
      && d.fields["name"] == Str(if row.0 == Plugin then row.1 + " for service " + ServiceName(row.2) else row.1)
  }

  predicate PlaysSome(d: Deletion) { exists role <- ROLES :: Plays(d, role) }

  predicate Filled(ds: seq<Deletion>, role: Role) { exists k | 0 <= k < |ds| :: Plays(ds[k], role) }

  /** The migration's deletions: each of the thirteen entities, under distinct unprotected ids,
      every reference leading to a deleted entity of the same tag or to the shared CA. */
  predicate LegacyGraph(ds: seq<Deletion>) {
    && |ds| == 13
    && (forall role <- ROLES :: Filled(ds, role))
    && (forall k :: 0 <= k < |ds| ==> PlaysSome(ds[k]) && IdOf(ds[k]) !in PROTECTED_IDS)
    && (forall k :: 0 <= k < |ds| ==> ClosedUnderReference(ds[k], ds))
    && DistinctlyNumbered(ds)
  }

  predicate DistinctlyNumbered(ds: seq<Deletion>) {
    forall i, j :: 0 <= i < j < |ds| ==> IdOf(ds[i]) != IdOf(ds[j])
  }

  lemma {:induction false} RolesAre(k: nat)
    requires k < 13
    ensures |ROLES| == 13
    ensures ROLES[k] ==
      if k < 11 then Row(EXPECTED_NAMED[k]) else CertificateOf(if k == 11 then RouteA else RouteB)
  {
    MapAt(AsRow(), EXPECTED_NAMED);
  }

  predicate Tagged(d: Deletion) { KindOf(d).Some? && TagOf(d).Some? }

  /** The role an accepted deletion plays. */
  function RoleOf(d: Deletion): Role
    requires Tagged(d)
  {
    if KindOf(d) == Some(Certificate) then CertificateOf(TagOf(d).value)
    else Row((KindOf(d).value, DeletedName(d), TagOf(d).value))
  }

  predicate RowFits(row: (Kind, string, Tag)) {
    match row.0
    case Service => row.1 == ServiceName(row.2)
    case Route => row.1 == RouteName(row.2)
    case Plugin => (row.1, row.2) in LEGACY_PLUGINS
    case Certificate => false
  }

  /** The rows the scope check tells apart are the eleven expected ones. */
  lemma {:induction false} RowsFit(row: (Kind, string, Tag))
    ensures row in EXPECTED_NAMED <==> RowFits(row)
  {
    forall k | 0 <= k < 7 ensures EXPECTED_NAMED[k + 4] == (Plugin, LEGACY_PLUGINS[k].0, LEGACY_PLUGINS[k].1) {
    }
    if row in EXPECTED_NAMED {
      var k :| 0 <= k < 11 && EXPECTED_NAMED[k] == row;
      if k >= 4 {
        assert LEGACY_PLUGINS[k - 4] == (row.1, row.2);
      }
    }
    if RowFits(row) {
      if row.0 == Plugin {
        var k :| 0 <= k < 7 && LEGACY_PLUGINS[k] == (row.1, row.2);
        assert EXPECTED_NAMED[k + 4] == row;
      } else {
        assert row in [EXPECTED_NAMED[0], EXPECTED_NAMED[1], EXPECTED_NAMED[2], EXPECTED_NAMED[3]];
      }
    }
  }

  lemma {:induction false} InRoles(role: Role)
    ensures role in ROLES <==> (role.Row? ==> role.row in EXPECTED_NAMED)
  {
    MapAt(AsRow(), EXPECTED_NAMED);
    var named := Map(AsRow(), EXPECTED_NAMED);
    match role
    case CertificateOf(tag) =>
      RolesAre(11);
      RolesAre(12);
      assert role == if tag.RouteA? then ROLES[11] else ROLES[12];
    case Row(row) =>
      if row in EXPECTED_NAMED {
        var k :| 0 <= k < |EXPECTED_NAMED| && EXPECTED_NAMED[k] == row;
        assert named[k] == role && ROLES[k] == role;
      }
      if role in ROLES {
        var k :| 0 <= k < |ROLES| && ROLES[k] == role;
        RolesAre(k);
      }
  }

  /** The second pass accepts exactly unprotected entities that play one of the roles. */
  lemma {:induction false} DeleteExactly(d: Deletion)
    ensures DeleteOk(d) <==> PlaysSome(d) && IdOf(d) !in PROTECTED_IDS
    ensures DeleteOk(d) ==> Tagged(d) && RoleOf(d) in ROLES && Plays(d, RoleOf(d))
  {
    if DeleteOk(d) {
      RolePlayed(d);
    }
    if PlaysSome(d) {
      var role :| role in ROLES && Plays(d, role);
      OneRole(d, role);
    }
  }

  lemma {:induction false} RolePlayed(d: Deletion)
    requires DeleteOk(d)
    ensures Tagged(d) && RoleOf(d) in ROLES && Plays(d, RoleOf(d))
  {
    hide LegacyTag, CanonicalKind, ROLES, EXPECTED_NAMED, LEGACY_PLUGINS;
    InRoles(RoleOf(d));
    if KindOf(d) != Some(Certificate) {
      RowsFit(RoleOf(d).row);
    }
  }

  lemma {:induction false} OneRole(d: Deletion, role: Role)
    requires role in ROLES && Plays(d, role)
    ensures Tagged(d) && RoleOf(d) == role
    ensures DeleteOk(d) <==> IdOf(d) !in PROTECTED_IDS
  {
    hide LegacyTag, CanonicalKind, ROLES, EXPECTED_NAMED, LEGACY_PLUGINS;
    InRoles(role);
    if role.Row? {
      RowsFit(role.row);
    }
  }

  /* ---------------- counting roles ---------------- */

  predicate AllTagged(ds: seq<Deletion>) { forall k :: 0 <= k < |ds| ==> Tagged(ds[k]) }

  predicate AllDeletable(ds: seq<Deletion>) { forall k :: 0 <= k < |ds| ==> DeleteOk(ds[k]) && Tagged(ds[k]) }

  function RolesOf(ds: seq<Deletion>): (r: seq<Role>)
    requires AllTagged(ds)
    ensures |r| == |ds| && forall k :: 0 <= k < |ds| ==> r[k] == RoleOf(ds[k])
  {
    seq(|ds|, k requires 0 <= k < |ds| && AllTagged(ds) => RoleOf(ds[k]))
  }

  lemma {:induction false} RolesCounted(ds: seq<Deletion>)
    requires AllDeletable(ds)
    ensures AllTagged(ds)
    ensures forall row :: NamedRows(ds)[row] == multiset(RolesOf(ds))[Row(row)]
    ensures forall tag :: CertificateRows(ds)[tag] == multiset(RolesOf(ds))[CertificateOf(tag)]
  {
    hide EntryOk, DeleteOk, KindOf, TagOf, DeletedName, Tagged, RoleOf, NamedRow, CertificateRow;
    if ds != [] {
      var n := |ds| - 1;
      RolesCounted(ds[..n]);
      RoleCounted(ds[n]);
      assert RolesOf(ds) == RolesOf(ds[..n]) + [RoleOf(ds[n])];
      assert NamedRows(ds) == NamedRows(ds[..n]) + NamedRow(ds[n]);
      assert CertificateRows(ds) == CertificateRows(ds[..n]) + CertificateRow(ds[n]);
    }
  }

  lemma {:induction false} RoleCounted(d: Deletion)
    requires DeleteOk(d) && Tagged(d)
    ensures forall row :: NamedRow(d)[row] == multiset{RoleOf(d)}[Row(row)]
    ensures forall tag :: CertificateRow(d)[tag] == multiset{RoleOf(d)}[CertificateOf(tag)]
  {
    hide EntryOk, DeleteOk, KindOf, TagOf, DeletedName;
  }

  lemma {:induction false} MapCounts(rows: seq<(Kind, string, Tag)>)
    ensures forall row :: multiset(Map(AsRow(), rows))[Row(row)] == multiset(rows)[row]
    ensures forall tag :: multiset(Map(AsRow(), rows))[CertificateOf(tag)] == 0
  {
    if rows != [] {
      var n := |rows| - 1;
      MapCounts(rows[..n]);
      assert rows == rows[..n] + [rows[n]];
      assert Map(AsRow(), rows) == Map(AsRow(), rows[..n]) + [Row(rows[n])];
    }
  }

  lemma {:induction false} BagOfRoles()
    ensures forall row :: multiset(ROLES)[Row(row)] == ExpectedNamed()[row]
    ensures forall tag :: multiset(ROLES)[CertificateOf(tag)] == multiset{RouteA, RouteB}[tag]
  {
    MapCounts(EXPECTED_NAMED);
    var named := Map(AsRow(), EXPECTED_NAMED);
    hide EXPECTED_NAMED, Map;
    assert multiset(ROLES) == multiset(named) + multiset{CertificateOf(RouteA), CertificateOf(RouteB)};
  }

  /** The two counts of the scope check come out right exactly when the roles are rearranged. */
  lemma {:induction false} CountsExactly(ds: seq<Deletion>)
    requires AllDeletable(ds) && AllTagged(ds)
    ensures NamedRows(ds) == ExpectedNamed() && CertificateRows(ds) == multiset{RouteA, RouteB}
       <==> multiset(RolesOf(ds)) == multiset(ROLES)
  {
    RolesCounted(ds);
    BagOfRoles();
    hide *;
    SameByKind(NamedRows(ds), CertificateRows(ds), multiset(RolesOf(ds)), ExpectedNamed(), multiset{RouteA, RouteB},
               multiset(ROLES));
  }

  lemma {:induction false} SameByKind(named: multiset<(Kind, string, Tag)>, certificates: multiset<Tag>,
                                      roles: multiset<Role>,
                                      named': multiset<(Kind, string, Tag)>, certificates': multiset<Tag>,
                                      roles': multiset<Role>)
    requires (forall row :: named[row] == roles[Row(row)])
    requires (forall tag :: certificates[tag] == roles[CertificateOf(tag)])
    requires (forall row :: roles'[Row(row)] == named'[row])
    requires (forall tag :: roles'[CertificateOf(tag)] == certificates'[tag])
    ensures named == named' && certificates == certificates' <==> roles == roles'
  {
    if named == named' && certificates == certificates' {
      forall role ensures roles[role] == roles'[role] {
        match role
        case Row(row) => assert named[row] == named'[row];
        case CertificateOf(tag) => assert certificates[tag] == certificates'[tag];
      }
    }
    if roles == roles' {
      assert forall row :: named[row] == named'[row];
      assert forall tag :: certificates[tag] == certificates'[tag];
    }
  }

  lemma {:induction false} RolesDistinct()
    ensures NoRepeat(ROLES)
  {
    var sizes := [17, 21, 15, 19, 4, 19, 14, 4, 19, 14, 23];
    assert forall k :: 0 <= k < 11 ==> |EXPECTED_NAMED[k].1| == sizes[k];
    forall i, j | 0 <= i < j < |ROLES| ensures ROLES[i] != ROLES[j] {
      RolesAre(0);
      RolesAre(i);
      RolesAre(j);
      if j < 11 {
        assert EXPECTED_NAMED[i] != EXPECTED_NAMED[j];
      }
    }
  }

  /** As many values as there are distinct wanted ones hold them all exactly when they are a
      rearrangement of them. */
  lemma {:induction false} AllWanted<T>(xs: seq<T>, wanted: seq<T>)
    requires NoRepeat(wanted) && |xs| == |wanted|
    ensures (forall x :: x in wanted ==> x in xs) <==> multiset(xs) == multiset(wanted)
    ensures multiset(xs) == multiset(wanted) ==> NoRepeat(xs)
  {
    if forall x :: x in wanted ==> x in xs {
      forall x ensures multiset(wanted)[x] <= multiset(xs)[x] {
        OncePerElement(wanted, x);
      }
      assert multiset(xs) == multiset(wanted) + (multiset(xs) - multiset(wanted));
      assert |multiset(xs) - multiset(wanted)| == 0;
    }
    if multiset(xs) == multiset(wanted) {
      forall x | x in wanted ensures x in xs {
        assert x in multiset(xs);
      }
      forall i, j | 0 <= i < j < |xs| ensures xs[i] != xs[j] {
        OncePerElement(wanted, xs[i]);
        TwiceIsTwo(xs, i, j);
      }
    }
  }

  lemma {:induction false} TwiceIsTwo<T>(xs: seq<T>, i: nat, j: nat)
    requires i < j < |xs|
    ensures xs[i] == xs[j] ==> multiset(xs)[xs[i]] >= 2
  {
    assert xs == xs[..i] + [xs[i]] + xs[i + 1..j] + [xs[j]] + xs[j + 1..];
  }

  /* ---------------- the deletions ---------------- */

  lemma {:induction false} FilledIs(ds: seq<Deletion>, role: Role)
    requires AllDeletable(ds) && AllTagged(ds) && role in ROLES
    ensures Filled(ds, role) <==> role in RolesOf(ds)
  {
    hide EntryOk, DeleteOk, Tagged, RoleOf, Plays, ROLES;
    if Filled(ds, role) {
      var k :| 0 <= k < |ds| && Plays(ds[k], role);
      OneRole(ds[k], role);
      assert RolesOf(ds)[k] == role;
    }
    if role in RolesOf(ds) {
      var k :| 0 <= k < |ds| && RolesOf(ds)[k] == role;
      DeleteExactly(ds[k]);
    }
  }

  /** Thirteen acceptable deletions are counted right exactly when every role is played. */
  lemma {:induction false} EveryRoleOnce(ds: seq<Deletion>)
    requires |ds| == 13 && AllDeletable(ds) && AllTagged(ds)
    ensures NamedRows(ds) == ExpectedNamed() && CertificateRows(ds) == multiset{RouteA, RouteB}
       <==> forall role <- ROLES :: Filled(ds, role)
    ensures (forall role <- ROLES :: Filled(ds, role)) ==> NoRepeat(RolesOf(ds))
  {
    RolesAre(0);
    RolesDistinct();
    CountsExactly(ds);
    hide NamedRows, CertificateRows, ExpectedNamed, AllDeletable, AllTagged, Filled, ROLES;
    AllWanted(RolesOf(ds), ROLES);
    forall role | role in ROLES ensures Filled(ds, role) <==> role in RolesOf(ds) {
      FilledIs(ds, role);
    }
  }

  lemma {:induction false} OnePlayer(ds: seq<Deletion>, kind: Kind, tag: Tag, i: nat, j: nat)
    requires AllTagged(ds) && NoRepeat(RolesOf(ds)) && AllDeletable(ds) && kind in {Service, Certificate}
    requires i < |ds| && j < |ds| && Is(ds[i], kind, tag) && Is(ds[j], kind, tag)
    ensures i == j
  {
    hide EntryOk, NoRepeat, ROLES, LEGACY_PLUGINS, LegacyTag, CanonicalKind;
    assert RoleOf(ds[i]) == RoleOf(ds[j]) by {
      assert DeleteOk(ds[i]) && DeleteOk(ds[j]);
    }
    SameIndex(RolesOf(ds), i, j);
  }

  lemma {:induction false} SameIndex<T>(xs: seq<T>, i: nat, j: nat)
    requires NoRepeat(xs) && i < |xs| && j < |xs| && xs[i] == xs[j]
    ensures i == j
  {
  }

  lemma {:induction false} OneServiceEach(ds: seq<Deletion>)
    requires AllTagged(ds) && NoRepeat(RolesOf(ds)) && AllDeletable(ds)
    ensures OneServicePerTag(ds)
  {
    hide EntryOk, NoRepeat, DeleteOk, KindOf, TagOf, RolesOf;
    forall i, j | 0 <= i < j < |ds| && KindOf(ds[i]) == Some(Service) && KindOf(ds[j]) == Some(Service)
      ensures TagOf(ds[i]) != TagOf(ds[j])
    {
      assert Tagged(ds[i]);
      if TagOf(ds[i]) == TagOf(ds[j]) {
        OnePlayer(ds, Service, TagOf(ds[i]).value, i, j);
      }
    }
  }

  /** The one service or certificate of a tag is the one the scope check finds. */
  lemma {:induction false} FoundIsTheOne(ds: seq<Deletion>, kind: Kind, tag: Tag, k: nat)
    requires AllTagged(ds) && NoRepeat(RolesOf(ds)) && AllDeletable(ds) && kind in {Service, Certificate}
    requires k < |ds| && Is(ds[k], kind, tag)
    ensures Find(ds, kind, tag) == Some(IdOf(ds[k])) && IdOf(ds[k]) != ""
  {
    hide NoRepeat, DeleteOk, KindOf, TagOf, RolesOf, Is;
    FindIsThere(ds, kind, tag);
    var i :| 0 <= i < |ds| && Is(ds[i], kind, tag) && IdOf(ds[i]) == Find(ds, kind, tag).value;
    OnePlayer(ds, kind, tag, i, k);
  }

  lemma {:induction false} RelationsExactly(ds: seq<Deletion>, d: Deletion)
    requires AllTagged(ds) && NoRepeat(RolesOf(ds)) && AllDeletable(ds) && ClosedUnderReference(d, ds)
    ensures RelationsOk(d, ds)
  {
    hide EntryOk, NoRepeat, AllDeletable, AllTagged, KindOf, TagOf;
    hide RolesOf, Is, IdOf, Find, CertificateRelationId, RelationId;
    var tag := TagOf(d).value;
    if KindOf(d) == Some(Service) {
      var k :| 0 <= k < |ds| && Is(ds[k], Certificate, tag)
            && Get(Entity(d), "client_certificate") == Reference(IdOf(ds[k]));
      FoundIsTheOne(ds, Certificate, tag, k);
      CertificateRelationExactly(Entity(d), "client_certificate", IdOf(ds[k]));
    } else if KindOf(d) != Some(Certificate) {
      var k :| 0 <= k < |ds| && Is(ds[k], Service, tag)
            && Get(Entity(d), "service") == NamedReference(IdOf(ds[k]), ServiceName(tag));
      FoundIsTheOne(ds, Service, tag, k);
      RelationExactly(Entity(d), "service", ServiceName(tag), IdOf(ds[k]));
    }
  }

  /** Second and third pass and the look for repeated ids accept exactly the legacy graph. */
  lemma {:induction false} DeletionsExactly(ds: seq<Deletion>)
    ensures DeletionsOk(ds) && DistinctlyNumbered(ds) <==> LegacyGraph(ds)
  {
    hide *;
    if DeletionsOk(ds) && DistinctlyNumbered(ds) {
      DeletionsAreGraph(ds);
    }
    if LegacyGraph(ds) {
      GraphIsOk(ds);
    }
  }

  lemma {:induction false} DeletionsAreGraph(ds: seq<Deletion>)
    requires DeletionsOk(ds) && DistinctlyNumbered(ds)
    ensures LegacyGraph(ds)
  {
    hide *;
    DeletionFacts(ds);
    CountedRight(ds);
    forall k | 0 <= k < |ds| ensures PlaysSome(ds[k]) && ClosedUnderReference(ds[k], ds) {
      TaggedOk(ds[k]);
      ReferencesClosed(ds, ds[k]);
    }
    EveryRoleOnce(ds);
    GraphAssembled(ds);
  }

  lemma {:induction false} CountedRight(ds: seq<Deletion>)
    requires DeletionsOk(ds)
    ensures NamedRows(ds) == ExpectedNamed() && CertificateRows(ds) == multiset{RouteA, RouteB}
    ensures |ds| == 13 && AllDeletable(ds) && AllTagged(ds)
  {
    hide EntryOk, DeleteOk, RelationsOk, NamedRows, CertificateRows, ExpectedNamed, PlaysSome, Tagged, OneServicePerTag;
    forall k | 0 <= k < |ds| ensures DeleteOk(ds[k]) && Tagged(ds[k]) {
      TaggedOk(ds[k]);
    }
  }

  lemma {:induction false} GraphAssembled(ds: seq<Deletion>)
    requires |ds| == 13 && DistinctlyNumbered(ds) && (forall role <- ROLES :: Filled(ds, role))
    requires forall k :: 0 <= k < |ds| ==> PlaysSome(ds[k])
    requires forall k :: 0 <= k < |ds| ==> IdOf(ds[k]) !in PROTECTED_IDS
    requires forall k :: 0 <= k < |ds| ==> ClosedUnderReference(ds[k], ds)
    ensures LegacyGraph(ds)
  {
    hide EntryOk, PlaysSome, IdOf, ROLES, Filled, ClosedUnderReference, DistinctlyNumbered;
  }

  lemma {:induction false} TaggedOk(d: Deletion)
    ensures DeleteOk(d) ==> PlaysSome(d) && Tagged(d)
    ensures PlaysSome(d) && IdOf(d) !in PROTECTED_IDS ==> DeleteOk(d) && Tagged(d)
  {
    DeleteExactly(d);
    hide DeleteOk, PlaysSome, EntryOk;
  }

  lemma {:induction false} GraphIsOk(ds: seq<Deletion>)
    requires LegacyGraph(ds)
    ensures DeletionsOk(ds) && DistinctlyNumbered(ds)
  {
    hide EntryOk, DeleteOk, RelationsOk, NamedRows, CertificateRows, ExpectedNamed;
    hide PlaysSome, IdOf, ROLES, Filled, Tagged, ClosedUnderReference;
    forall k | 0 <= k < |ds| ensures DeleteOk(ds[k]) && Tagged(ds[k]) {
      TaggedOk(ds[k]);
    }
    EveryRoleOnce(ds);
    hide RolesOf, NoRepeat;
    OneServiceEach(ds);
    forall k | 0 <= k < |ds| ensures RelationsOk(ds[k], ds) {
      RelationsExactly(ds, ds[k]);
    }
  }

  /* ---------------- the creations ---------------- */

  lemma {:induction false} EntityIsOk(c: Creation, e: nat)
    requires e < |RUNTIME_ENTITIES| && IsTheEntity(c, e)
    ensures CreateOk(c)
  {
    var entity := NewOf(c).fields;
    RuntimeNamesDistinct();
    RowOfName(RUNTIME_ENTITIES, e);
    BoundIds();
    RelationExactly(entity, "service", RUNTIME_SERVICE_NAME, RUNTIME_ENTITIES[0].2);
    RelationExactly(entity, "route", RUNTIME_ROUTE_NAME, RUNTIME_ENTITIES[1].2);
    hide EntryOk, CanonicalKind, RuntimeId, RelationId, NamedReference, RuntimeKindFrom;
  }

  /** The first pass accepts exactly the six fixed entities. */
  lemma {:induction false} CreationsExactly(cs: seq<Creation>)
    ensures CreationsOk(cs) <==> CreatesTheSix(cs)
  {
    hide *;
    if CreationsOk(cs) {
      CreationsAreTheSix(cs);
    }
    if CreatesTheSix(cs) {
      SixAreOk(cs);
    }
  }

  lemma {:induction false} SixAreOk(cs: seq<Creation>)
    requires CreatesTheSix(cs)
    ensures CreationsOk(cs)
  {
    hide EntryOk, CreateOk, CanonicalKind, IdentityOf, IsTheEntity;
    forall k | 0 <= k < |cs|
      ensures CreateOk(cs[k]) && (IdentityOf(Creating, cs[k]).name, IdentityOf(Creating, cs[k]).id) in EXPECTED_PAIRS
    {
      var e :| 0 <= e < |RUNTIME_ENTITIES| && IsTheEntity(cs[k], e);
      EntityIsOk(cs[k], e);
      EntityIs(cs[k], e);
    }
    forall e: nat | e < |RUNTIME_ENTITIES|
      ensures (RUNTIME_ENTITIES[e].1, Some(RUNTIME_ENTITIES[e].2)) in CreatedPairs(cs)
    {
      assert Creates(cs, e);
      var k :| 0 <= k < |cs| && IsTheEntity(cs[k], e);
      EntityIs(cs[k], e);
    }
    assert CreatedPairs(cs) == EXPECTED_PAIRS;
  }

  lemma {:induction false} EntityIs(c: Creation, e: nat)
    requires e < |RUNTIME_ENTITIES| && IsTheEntity(c, e)
    ensures IdentityOf(Creating, c).name == RUNTIME_ENTITIES[e].1
    ensures IdentityOf(Creating, c).id == Some(RUNTIME_ENTITIES[e].2)
  {
    hide EntryOk, CanonicalKind, IdentityOf;
  }

  const RUNTIME_IDS: seq<Option<string>> := seq(6, e requires 0 <= e < 6 => Some(RUNTIME_ENTITIES[e].2))

  lemma {:induction false} RuntimeIdsDistinct()
    ensures NoRepeat(RUNTIME_IDS)
    ensures forall e :: 0 <= e < 6 ==> RUNTIME_IDS[e].value in PROTECTED_IDS
  {
    var starts := ["a5", "14", "43", "ed", "6c", "a6"];
    assert forall e :: 0 <= e < 6 ==>
      RUNTIME_IDS[e].value[0] == starts[e][0] && RUNTIME_IDS[e].value[1] == starts[e][1];
    forall e | 0 <= e < 6 ensures RUNTIME_IDS[e].value in PROTECTED_IDS {
      assert RUNTIME_ENTITIES[e].2 in (set k | 0 <= k < |RUNTIME_ENTITIES| :: RUNTIME_ENTITIES[k].2);
    }
  }

  /** The created ids are six different protected ones. */
  lemma {:induction false} CreatedIds(cs: seq<Creation>)
    requires CreatesTheSix(cs)
    ensures NoRepeat(CreationIds(cs))
    ensures forall k :: 0 <= k < |cs| ==> CreationIds(cs)[k].Some? && CreationIds(cs)[k].value in PROTECTED_IDS
  {
    RuntimeIdsDistinct();
    hide EntryOk, IdentityOf, IsTheEntity, PROTECTED_IDS;
    assert forall e :: 0 <= e < 6 ==> RUNTIME_IDS[e] == Some(RUNTIME_ENTITIES[e].2);
    forall e: nat | e < 6 ensures RUNTIME_IDS[e] in CreationIds(cs) {
      assert Creates(cs, e);
      var k :| 0 <= k < |cs| && IsTheEntity(cs[k], e);
      EntityIs(cs[k], e);
      assert CreationIds(cs)[k] == RUNTIME_IDS[e];
    }
    AllWanted(CreationIds(cs), RUNTIME_IDS);
    forall k | 0 <= k < |cs| ensures CreationIds(cs)[k] in RUNTIME_IDS {
      assert IsOneOfTheSix(cs[k]);
      var e :| 0 <= e < |RUNTIME_ENTITIES| && IsTheEntity(cs[k], e);
      EntityIs(cs[k], e);
    }
  }

  /* ---------------- the whole scope ---------------- */

  /** The scope check accepts exactly the six creations with the legacy graph. */
  lemma {:induction false} ScopeExactly(r: Report)
    requires WellParsed(r)
    ensures IsMigration(r) <==> CreatesTheSix(r.creating) && r.updating == [] && LegacyGraph(r.deleting)
  {
    CreationsExactly(r.creating);
    DeletionsExactly(r.deleting);
    hide CreationsOk, DeletionsOk, CreatesTheSix, NoRepeat, EntryOk, IdOf;
    if IsMigration(r) {
      DistinctIds(r.creating, r.deleting);
      assert DistinctlyNumbered(r.deleting);
    }
    if CreatesTheSix(r.creating) && LegacyGraph(r.deleting) {
      CreatedIds(r.creating);
      NumberedApart(r.creating, r.deleting);
    }
  }

  lemma {:induction false} NumberedApart(cs: seq<Creation>, ds: seq<Deletion>)
    requires NoRepeat(CreationIds(cs)) && DistinctlyNumbered(ds)
    requires forall k :: 0 <= k < |cs| ==> CreationIds(cs)[k].Some? && CreationIds(cs)[k].value in PROTECTED_IDS
    requires forall k :: 0 <= k < |ds| ==> IdOf(ds[k]) !in PROTECTED_IDS
    ensures NoRepeat(CreationIds(cs) + DeletionIds(ds))
  {
    hide EntryOk, IdOf, IdentityOf, PROTECTED_IDS;
    var all := CreationIds(cs) + DeletionIds(ds);
    forall i, j | 0 <= i < j < |all| ensures all[i] != all[j] {
      if i >= |cs| {
        assert all[i] == Some(IdOf(ds[i - |cs|])) && all[j] == Some(IdOf(ds[j - |cs|]));
      } else if j >= |cs| {
        assert all[i] == CreationIds(cs)[i] && all[j] == Some(IdOf(ds[j - |cs|]));
      } else {
        assert all[i] == CreationIds(cs)[i] && all[j] == CreationIds(cs)[j];
      }
    }
  }

  /* ---------------- order does not matter ---------------- */

  lemma {:induction false} SameMembers<T>(xs: seq<T>, ys: seq<T>)
    requires multiset(xs) == multiset(ys)
    ensures |xs| == |ys| && forall x :: x in xs <==> x in ys
  {
    assert |multiset(xs)| == |multiset(ys)|;
    forall x ensures x in xs <==> x in ys {
      assert x in xs <==> x in multiset(xs);
      assert x in ys <==> x in multiset(ys);
    }
  }

  lemma {:induction false} SixPermuted(xs: seq<Creation>, ys: seq<Creation>)
    requires multiset(xs) == multiset(ys) && CreatesTheSix(xs)
    ensures CreatesTheSix(ys)
  {
    SameMembers(xs, ys);
    hide EntryOk, IsTheEntity;
    forall k | 0 <= k < |ys| ensures IsOneOfTheSix(ys[k]) {
      assert ys[k] in xs;
    }
    forall e: nat | e < |RUNTIME_ENTITIES| ensures Creates(ys, e) {
      assert Creates(xs, e);
      var k :| 0 <= k < |xs| && IsTheEntity(xs[k], e);
      assert xs[k] in ys;
    }
  }

  lemma {:induction false} ClosedPermuted(xs: seq<Deletion>, ys: seq<Deletion>, d: Deletion)
    requires multiset(xs) == multiset(ys) && ClosedUnderReference(d, xs)
    ensures ClosedUnderReference(d, ys)
  {
    SameMembers(xs, ys);
    hide EntryOk, Is, KindOf, TagOf, IdOf, Reference, NamedReference;
    var tag := TagOf(d).value;
    if KindOf(d) == Some(Service) {
      var k :| 0 <= k < |xs| && Is(xs[k], Certificate, tag)
            && Get(Entity(d), "client_certificate") == Reference(IdOf(xs[k]));
      assert xs[k] in ys;
    } else if KindOf(d) != Some(Certificate) {
      var k :| 0 <= k < |xs| && Is(xs[k], Service, tag)
            && Get(Entity(d), "service") == NamedReference(IdOf(xs[k]), ServiceName(tag));
      assert xs[k] in ys;
    }
  }

  function IdKey(): Deletion -> string {
    (d: Deletion) => IdOf(d)
  }

  lemma {:induction false} NumbersPermuted(xs: seq<Deletion>, ys: seq<Deletion>)
    requires multiset(xs) == multiset(ys) && DistinctlyNumbered(xs)
    ensures DistinctlyNumbered(ys)
  {
    hide IdOf, EntryOk;
    var before, after := Map(IdKey(), xs), Map(IdKey(), ys);
    MapAt(IdKey(), xs);
    MapAt(IdKey(), ys);
    MapPermuted(IdKey(), xs, ys);
    SameMembers(xs, ys);
    AllWanted(after, before);
    assert forall k :: 0 <= k < |ys| ==> after[k] == IdOf(ys[k]);
  }

  lemma {:induction false} GraphPermuted(xs: seq<Deletion>, ys: seq<Deletion>)
    requires multiset(xs) == multiset(ys) && LegacyGraph(xs)
    ensures LegacyGraph(ys)
  {
    SameMembers(xs, ys);
    NumbersPermuted(xs, ys);
    hide EntryOk, Plays, PlaysSome, IdOf, ROLES, ClosedUnderReference, DistinctlyNumbered;
    forall k | 0 <= k < |ys|
      ensures PlaysSome(ys[k]) && IdOf(ys[k]) !in PROTECTED_IDS && ClosedUnderReference(ys[k], ys)
    {
      assert ys[k] in xs;
      ClosedPermuted(xs, ys, ys[k]);
    }
    forall role | role in ROLES ensures Filled(ys, role) {
      var k :| 0 <= k < |xs| && Plays(xs[k], role);
      assert xs[k] in ys;
    }
  }

  /* ---------------- the report as listed ---------------- */

  /** Every entry of the report is well formed for its operation. */
  predicate WellListed(report: Json) {
    && Structured(report)
    && forall op: Operation :: Entries(report, op).Arr? && AllOk(op, Entries(report, op).items)
  }

  function Listed(report: Json, op: Operation): (entries: seq<Json>)
    requires WellListed(report)
    ensures AllOk(op, entries)
  {
    Entries(report, op).items
  }

  /** The summary counts what is listed. */
  predicate WellCounted(report: Json)
    requires WellListed(report)
  {
    && (forall op :: Claimed(report, NameOf(op)) == Num(|Listed(report, op)|))
    && Claimed(report, "total")
         == Num(|Listed(report, Creating)| + |Listed(report, Updating)| + |Listed(report, Deleting)|)
  }

  predicate ListsNothing(report: Json)
    requires WellListed(report)
  {
    forall op :: Listed(report, op) == []
  }

  /** The six creations and the legacy graph, listed in any order. */
  ghost predicate ListsMigration(report: Json)
    requires WellListed(report)
  {
    CreatesTheSix(Listed(report, Creating)) && Listed(report, Updating) == [] && LegacyGraph(Listed(report, Deleting))
  }

  /** A list with neither malformed entries nor repeated identities. */
  predicate ListOk(op: Operation, entries: Json) {
    entries.Arr? && AllOk(op, entries.items) && NoRepeat(Identities(op, entries.items))
  }

  function LengthOf(entries: Json): nat { if entries.Arr? then |entries.items| else 0 }

  lemma {:induction false} ListParsed(op: Operation, entries: Json)
    ensures ParseList(op, entries).Ok? <==> ListOk(op, entries)
    ensures ParseList(op, entries).Ok? ==> |ParseList(op, entries).value| == LengthOf(entries)
  {
    hide EntryOk, NoRepeat;
    if ParseList(op, entries).Ok? {
      SortPermutes(entries.items, EntryKey(op));
    }
  }

  lemma {:induction false} ParseUnfolds(report: Json, c: Result<seq<Json>>, u: Result<seq<Json>>, d: Result<seq<Json>>)
    requires Structured(report)
    requires c == ParseList(Creating, Entries(report, Creating)) && u == ParseList(Updating, Entries(report, Updating))
    requires d == ParseList(Deleting, Entries(report, Deleting))
    ensures Parse(report) ==
      if c.Ok? && u.Ok? && d.Ok? && Claims(report, |c.value|, |u.value|, |d.value|)
      then Ok(Report(c.value, u.value, d.value)) else Err
  {
    hide ParseList, Structured, Entries, Claimed;
  }

  lemma {:induction false} ParsedInParts(report: Json)
    requires Structured(report)
    ensures var c, u, d := Entries(report, Creating), Entries(report, Updating), Entries(report, Deleting);
      Parse(report).Ok? <==>
        && ListOk(Creating, c) && ListOk(Updating, u) && ListOk(Deleting, d)
        && Claims(report, LengthOf(c), LengthOf(u), LengthOf(d))
  {
    hide *;
    ListParsed(Creating, Entries(report, Creating));
    ListParsed(Updating, Entries(report, Updating));
    ListParsed(Deleting, Entries(report, Deleting));
    ParseUnfolds(report, ParseList(Creating, Entries(report, Creating)), ParseList(Updating, Entries(report, Updating)),
                 ParseList(Deleting, Entries(report, Deleting)));
  }

  /** No operation lists an identity twice. */
  predicate NothingRepeated(report: Json)
    requires WellListed(report)
  {
    forall op: Operation :: NoRepeat(Identities(op, Listed(report, op)))
  }

  lemma {:induction false} ListsAreOk(report: Json)
    requires Structured(report)
    ensures WellListed(report) && NothingRepeated(report) <==> forall op: Operation :: ListOk(op, Entries(report, op))
  {
    hide AllOk, NoRepeat, Structured, Identities, Entries;
    if forall op: Operation :: ListOk(op, Entries(report, op)) {
      assert WellListed(report);
    }
    if WellListed(report) && NothingRepeated(report) {
      forall op: Operation ensures ListOk(op, Entries(report, op)) {
        assert AllOk(op, Entries(report, op).items) && NoRepeat(Identities(op, Listed(report, op)));
      }
    }
  }

  lemma {:induction false} ThreeLists(report: Json)
    requires Structured(report)
    ensures (forall op: Operation :: ListOk(op, Entries(report, op))) <==>
      && ListOk(Creating, Entries(report, Creating)) && ListOk(Updating, Entries(report, Updating))
      && ListOk(Deleting, Entries(report, Deleting))
  {
    hide ListOk, Structured, Entries;
    if && ListOk(Creating, Entries(report, Creating)) && ListOk(Updating, Entries(report, Updating))
       && ListOk(Deleting, Entries(report, Deleting)) {
      forall op: Operation ensures ListOk(op, Entries(report, op)) {
        match op
        case Creating => case Updating => case Deleting =>
      }
    }
  }

  /** A report is parsed exactly when it is well formed, well counted and repeats no identity. */
  lemma {:induction false} ParsedExactly(report: Json)
    ensures Parse(report).Ok? <==> WellListed(report) && WellCounted(report) && NothingRepeated(report)
  {
    if Structured(report) {
      hide *;
      ParsedInParts(report);
      ListsAreOk(report);
      ThreeLists(report);
      ByOperation(report);
    }
  }

  lemma {:induction false} ByOperation(report: Json)
    requires Structured(report)
    ensures WellListed(report) ==>
      (WellCounted(report) <==>
         Claims(report, LengthOf(Entries(report, Creating)), LengthOf(Entries(report, Updating)),
                LengthOf(Entries(report, Deleting))))
  {
    hide AllOk, Structured;
    if WellListed(report) && WellCounted(report) {
      assert Claimed(report, NameOf(Creating)) == Num(|Listed(report, Creating)|);
      assert Claimed(report, NameOf(Updating)) == Num(|Listed(report, Updating)|);
      assert Claimed(report, NameOf(Deleting)) == Num(|Listed(report, Deleting)|);
    }
  }

  lemma {:induction false} MigrationRepeatsNothing(report: Json)
    requires WellListed(report) && ListsMigration(report)
    ensures NothingRepeated(report)
  {
    var cs, ds := Listed(report, Creating), Listed(report, Deleting);
    CreatedIds(cs);
    hide EntryOk, CreatesTheSix, IdentityOf, AllOk, Structured, Entries, ROLES;
    forall op: Operation ensures NoRepeat(Identities(op, Listed(report, op))) {
      var ids := Identities(op, Listed(report, op));
      forall i, j | 0 <= i < j < |ids| ensures ids[i] != ids[j] {
        match op
        case Creating =>
          assert CreationIds(cs)[i] == ids[i].id && CreationIds(cs)[j] == ids[j].id;
        case Updating =>
        case Deleting =>
          assert IdOf(ds[i]) != IdOf(ds[j]);
          DeletedId(ds[i]);
          DeletedId(ds[j]);
      }
    }
  }

  lemma {:induction false} DeletedId(d: Deletion)
    ensures IdentityOf(Deleting, d).id == Some(IdOf(d))
  {
  }

  lemma {:induction false} NothingRepeatsNothing(report: Json)
    requires WellListed(report) && ListsNothing(report)
    ensures NothingRepeated(report)
  {
  }

  /** A decK report is accepted exactly when its entries are well formed, its summary counts them,
      and it lists either nothing or the one migration: the six fixed creations and the thirteen
      legacy deletions, in any order. */
  lemma {:induction false} AcceptedExactly(report: Json)
    ensures Accept(report).Ok? <==>
      WellListed(report) && WellCounted(report) && (ListsNothing(report) || ListsMigration(report))
  {
    hide *;
    ParsedExactly(report);
    if WellListed(report) {
      if ListsMigration(report) {
        MigrationRepeatsNothing(report);
      }
      if ListsNothing(report) {
        NothingRepeatsNothing(report);
      }
    }
    if Parse(report).Ok? {
      AcceptedWhen(report);
    } else {
      NotParsed(report);
    }
  }

  lemma {:induction false} NotParsed(report: Json)
    requires Parse(report).Err?
    ensures Accept(report).Err?
  {
  }

  lemma {:induction false} AcceptedWhen(report: Json)
    requires Parse(report).Ok? && WellListed(report)
    ensures Accept(report).Ok? <==> ListsNothing(report) || ListsMigration(report)
  {
    hide *;
    var r := Parse(report).value;
    ParsedIsOk(report);
    AcceptDecides(report, r);
    ScopeExactly(r);
    ListedAsParsed(report, r);
  }

  lemma {:induction false} AcceptDecides(report: Json, r: Report)
    requires Parse(report) == Ok(r) && WellParsed(r)
    ensures Accept(report).Ok? <==> r.Empty() || IsMigration(r)
  {
    hide Parse, IsMigration, WellParsed;
  }

  lemma {:induction false} ParsedAlike(report: Json, r: Report, op: Operation)
    requires Parse(report) == Ok(r) && WellListed(report)
    ensures multiset(r.Of(op)) == multiset(Listed(report, op)) && |r.Of(op)| == |Listed(report, op)|
  {
    ParsedContent(report, op);
    hide Parse, AllOk, NoRepeat;
    SameMembers(r.Of(op), Listed(report, op));
  }

  /** What is parsed is a migration, or nothing, exactly if that is what the report lists. */
  lemma {:induction false} ListedAsParsed(report: Json, r: Report)
    requires Parse(report) == Ok(r) && WellListed(report) && WellParsed(r)
    ensures ListsMigration(report) <==> CreatesTheSix(r.creating) && r.updating == [] && LegacyGraph(r.deleting)
    ensures ListsNothing(report) <==> r.Empty()
  {
    hide Parse, WellListed, CreatesTheSix, LegacyGraph, EntryOk;
    ParsedAlike(report, r, Creating);
    ParsedAlike(report, r, Updating);
    ParsedAlike(report, r, Deleting);
    ListedAlike(r, Listed(report, Creating), Listed(report, Updating), Listed(report, Deleting));
    EmptyAlike(report, r);
  }

  lemma {:induction false} EmptyAlike(report: Json, r: Report)
    requires WellListed(report) && |r.creating| == |Listed(report, Creating)|
    requires |r.updating| == |Listed(report, Updating)| && |r.deleting| == |Listed(report, Deleting)|
    ensures r.Empty() <==> ListsNothing(report)
  {
    hide WellListed;
  }

  lemma {:induction false} ListedAlike(r: Report, cs: seq<Creation>, us: seq<Json>, ds: seq<Deletion>)
    requires WellParsed(r) && |r.updating| == |us|
    requires multiset(r.creating) == multiset(cs) && multiset(r.deleting) == multiset(ds)
    ensures CreatesTheSix(r.creating) <==> CreatesTheSix(cs)
    ensures LegacyGraph(r.deleting) <==> LegacyGraph(ds)
    ensures r.updating == [] <==> us == []
  {
    hide CreatesTheSix, LegacyGraph;
    if CreatesTheSix(r.creating) {
      SixPermuted(r.creating, cs);
    }
    if CreatesTheSix(cs) {
      SixPermuted(cs, r.creating);
    }
    if LegacyGraph(r.deleting) {
      GraphPermuted(r.deleting, ds);
    }
    if LegacyGraph(ds) {
      GraphPermuted(ds, r.deleting);
    }
  }
}
