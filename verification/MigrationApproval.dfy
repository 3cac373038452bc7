/** The human receipt: the structural part of read_migration_approval and
    validate_migration_approval_operations of scripts/wp3_runtime.py, and why every accepted
    migration report passes them. */
module MigrationApproval {
  import opened Wrappers
  import opened Json
  import opened Sorting
  import opened DiffReport
  import opened MigrationScope
  import opened MigrationGraph
  import opened Bags

  /* ---------------- the receipt's own checks ---------------- */

  /** An operation identity as the receipt holds it. */
  predicate IsReceiptEntry(j: Json) {
    && j.Obj? && j.fields.Keys == {"kind", "name", "id"}
    && IsText(j.fields["kind"]) && IsText(j.fields["name"]) && IsText(j.fields["id"])
  }

  type ReceiptEntry = j: Json | IsReceiptEntry(j)
    witness Obj(map["kind" := Str("k"), "name" := Str("n"), "id" := Str("i")])

  function ReceiptKey(j: Json): Key {
    if IsReceiptEntry(j) then [j.fields["kind"].s, j.fields["name"].s, j.fields["id"].s] else []
  }

  /** One operation list: as many entries as announced, all complete, in canonical order. */
  predicate ReceiptList(count: Json, entries: Json) {
    && entries.Arr? && count == Num(|entries.items|)
    && (forall k :: 0 <= k < |entries.items| ==> IsReceiptEntry(entries.items[k]))
    && SortBy(entries.items, ReceiptKey) == entries.items
  }

  const COUNT_FIELDS: set<string> := OPERATION_NAMES + {"total"}

  predicate IsCount(j: Json) { j.Num? && j.n >= 0 }

  /** read_migration_approval from the summary on, before the scope checks */
  predicate ReceiptStructured(summary: Json, operations: Json) {
    && summary.Obj? && summary.fields.Keys == COUNT_FIELDS
    && (forall f :: f in summary.fields ==> IsCount(summary.fields[f]))
    && operations.Obj? && operations.fields.Keys == OPERATION_NAMES
    && (forall name :: name in OPERATION_NAMES ==> ReceiptList(summary.fields[name], operations.fields[name]))
    && summary.fields["total"].n
       == summary.fields["creating"].n + summary.fields["updating"].n + summary.fields["deleting"].n
  }

  const EXPECTED_SUMMARY: Object :=
    map["creating" := Num(6), "updating" := Num(0), "deleting" := Num(13), "total" := Num(19)]

  function ReceiptKind(j: ReceiptEntry): Option<Kind> { CanonicalKind(j.fields["kind"].s) }

  type Row = (Option<Kind>, string, string)

  function CreatedRow(j: ReceiptEntry): Row { (ReceiptKind(j), j.fields["name"].s, j.fields["id"].s) }

  function CreatedRows(entries: seq<ReceiptEntry>): (r: seq<Row>)
    ensures |r| == |entries|
    ensures forall k :: 0 <= k < |entries| ==> r[k] == CreatedRow(entries[k])
  {
    seq(|entries|, k requires 0 <= k < |entries| => CreatedRow(entries[k]))
  }

  /** The six entities of the migration as the receipt compares them. */
  function ExpectedRows(): (r: seq<Row>)
    ensures |r| == |RUNTIME_ENTITIES|
    ensures forall k :: 0 <= k < |r| ==>
      r[k] == (Some(RUNTIME_ENTITIES[k].0), RUNTIME_ENTITIES[k].1, RUNTIME_ENTITIES[k].2)
  {
    seq(|RUNTIME_ENTITIES|, k requires 0 <= k < |RUNTIME_ENTITIES| =>
      (Some(RUNTIME_ENTITIES[k].0), RUNTIME_ENTITIES[k].1, RUNTIME_ENTITIES[k].2))
  }

  /** The named deletions: everything but certificates. */
  function NamedPairs(entries: seq<ReceiptEntry>): seq<(Option<Kind>, string)> {
    if entries == [] then []
    else
      var j := entries[|entries| - 1];
      NamedPairs(entries[..|entries| - 1])
        + if ReceiptKind(j) == Some(Certificate) then [] else [(ReceiptKind(j), j.fields["name"].s)]
  }

  function CertificateCount(entries: seq<ReceiptEntry>): nat {
    if entries == [] then 0
    else
      var here := if ReceiptKind(entries[|entries| - 1]) == Some(Certificate) then 1 else 0;
      CertificateCount(entries[..|entries| - 1]) + here
  }

  /** The receipt's list of legacy names: the tag is not part of it. */
  function ForgetTag(): ((Kind, string, Tag)) -> (Option<Kind>, string) {
    (row: (Kind, string, Tag)) => (Some(row.0), row.1)
  }

  function ReceiptIds(entries: seq<ReceiptEntry>): (r: seq<string>)
    ensures |r| == |entries|
    ensures forall k :: 0 <= k < |entries| ==> r[k] == entries[k].fields["id"].s
  {
    seq(|entries|, k requires 0 <= k < |entries| => entries[k].fields["id"].s)
  }

  /** validate_migration_approval_operations on the three lists */
  predicate ApprovalOk(creating: seq<ReceiptEntry>, updating: seq<ReceiptEntry>, deleting: seq<ReceiptEntry>) {
    && multiset(CreatedRows(creating)) == multiset(ExpectedRows())
    && updating == []
    && multiset(NamedPairs(deleting)) == multiset(Map(ForgetTag(), EXPECTED_NAMED))
    && CertificateCount(deleting) == 2 && |deleting| == 13
    && NoRepeat(ReceiptIds(creating) + ReceiptIds(deleting))
    && forall k :: 0 <= k < |deleting| ==> ReceiptIds(deleting)[k] !in PROTECTED_IDS
  }

  /** Everything the receipt reader asks of summary and operations. */
  predicate ReceiptAccepts(summary: Json, operations: Json) {
    && ReceiptStructured(summary, operations)
    && summary.fields == EXPECTED_SUMMARY
    && ApprovalOk(operations.fields["creating"].items, operations.fields["updating"].items,
                  operations.fields["deleting"].items)
  }

  /* ---------------- the view of a report ---------------- */

  function IdentityJson(x: Identity): Json {
    Obj(map["kind" := Str(x.kind), "name" := Str(x.name), "id" := if x.id.Some? then Str(x.id.value) else Null])
  }

  function ViewList(op: Operation, entries: seq<Json>): (r: seq<Json>)
    requires AllOk(op, entries)
    ensures |r| == |entries|
    ensures forall k :: 0 <= k < |entries| ==> r[k] == IdentityJson(IdentityOf(op, entries[k]))
  {
    seq(|entries|, k requires 0 <= k < |entries| => IdentityJson(IdentityOf(op, entries[k])))
  }

  /** The receipt view parse_deck_diff_report returns. */
  function ViewSummary(r: Report): Json {
    Obj(map["creating" := Num(|r.creating|), "updating" := Num(|r.updating|),
            "deleting" := Num(|r.deleting|), "total" := Num(r.Total())])
  }

  function ViewOperations(r: Report): Json
    requires WellParsed(r)
  {
    Obj(map["creating" := Arr(ViewList(Creating, r.creating)),
            "updating" := Arr(ViewList(Updating, r.updating)),
            "deleting" := Arr(ViewList(Deleting, r.deleting))])
  }

  /* ---------------- the view passes ---------------- */

  /** All entries of an operation carry an id. */
  predicate AllIdentified(op: Operation, entries: seq<Json>) {
    AllOk(op, entries) && forall k :: 0 <= k < |entries| ==> IdentityOf(op, entries[k]).id.Some?
  }

  lemma {:induction false} ViewEntry(op: Operation, j: Json)
    requires EntryOk(op, j) && IdentityOf(op, j).id.Some?
    ensures IsReceiptEntry(IdentityJson(IdentityOf(op, j)))
    ensures ReceiptKey(IdentityJson(IdentityOf(op, j))) == EntryKey(op)(j)
  {
  }

  /** A canonical list of identified entries is a canonical receipt list. */
  lemma {:induction false} ViewListIsReceiptList(op: Operation, entries: seq<Json>)
    requires AllIdentified(op, entries) && Sorted(entries, EntryKey(op))
    ensures ReceiptList(Num(|entries|), Arr(ViewList(op, entries)))
  {
    var view := ViewList(op, entries);
    forall k | 0 <= k < |view| ensures IsReceiptEntry(view[k]) && ReceiptKey(view[k]) == EntryKey(op)(entries[k]) {
      ViewEntry(op, entries[k]);
    }
    hide EntryKey, ReceiptKey, EntryOk, IdentityOf, IsReceiptEntry;
    forall i, j | 0 <= i < j < |view| ensures !KeyLess(ReceiptKey(view[j]), ReceiptKey(view[i])) {
    }
    SortOfSorted(view, ReceiptKey);
  }

  /** Every creation of a migration carries one of the fixed ids. */
  lemma {:induction false} CreationsIdentified(cs: seq<Creation>)
    requires CreationsOk(cs)
    ensures AllIdentified(Creating, cs)
  {
    forall k | 0 <= k < |cs| ensures IdentityOf(Creating, cs[k]).id.Some? {
      assert (IdentityOf(Creating, cs[k]).name, IdentityOf(Creating, cs[k]).id) in CreatedPairs(cs);
    }
  }

  lemma {:induction false} DeletionsIdentified(ds: seq<Deletion>)
    ensures AllIdentified(Deleting, ds)
  {
  }

  lemma {:induction false} NoUpdates()
    ensures AllIdentified(Updating, []) && Sorted([], EntryKey(Updating))
  {
  }

  /* ---- creations ---- */

  lemma {:induction false} RowOfIdentity(x: Identity, j: ReceiptEntry)
    requires j == IdentityJson(x)
    ensures x.id.Some? && CreatedRow(j) == (CanonicalKind(x.kind), x.name, x.id.value) && j.fields["id"].s == x.id.value
  {
    hide CanonicalKind;
    assert j.fields["id"].Str?;
  }

  /** The row the receipt reads from the view of a creation. */
  function CreationRow(c: Creation): (Option<Kind>, string, string) {
    var x := IdentityOf(Creating, c);
    (CanonicalKind(x.kind), x.name, x.id.GetOr(""))
  }

  /** The rows of the view's creations, read off the identities. */
  lemma {:induction false} RowsOfView(cs: seq<Creation>, view: seq<ReceiptEntry>)
    requires |view| == |cs|
    requires forall k :: 0 <= k < |cs| ==> view[k] == IdentityJson(IdentityOf(Creating, cs[k]))
    ensures forall k :: 0 <= k < |cs| ==> CreatedRows(view)[k] == CreationRow(cs[k])
  {
    hide CanonicalKind, EntryOk, IdentityOf, IdentityJson, CreatedRow, IsReceiptEntry;
    forall k | 0 <= k < |cs| ensures CreatedRows(view)[k] == CreationRow(cs[k]) {
      RowOfIdentity(IdentityOf(Creating, cs[k]), view[k]);
    }
  }

  lemma {:induction false} CreationsCounted(cs: seq<Creation>, view: seq<ReceiptEntry>)
    requires CreationsOk(cs) && |view| == |cs|
    requires forall k :: 0 <= k < |cs| ==> view[k] == IdentityJson(IdentityOf(Creating, cs[k]))
    requires NoRepeat(CreationIds(cs))
    ensures multiset(CreatedRows(view)) == multiset(ExpectedRows())
  {
    hide EntryOk, CreationsOk, CanonicalKind, IdentityOf, IdentityJson, CreatedRow, NoRepeat, AllIdentified;
    var rows, expected := CreatedRows(view), ExpectedRows();
    RowsOfView(cs, view);
    RowsDistinct(cs, view);
    RuntimeNamesDistinct();
    forall k | 0 <= k < |rows| ensures rows[k] in expected {
      var e := CreationIsExpected(cs, k);
      assert rows[k] == expected[e];
    }
    forall e | 0 <= e < |expected| ensures expected[e] in rows {
      var k := ExpectedIsCreated(cs, e);
      var e' := CreationIsExpected(cs, k);
      assert e' == e && rows[k] == expected[e];
    }
    SameElementsSameBag(rows, expected);
  }

  lemma {:induction false} RowsDistinct(cs: seq<Creation>, view: seq<ReceiptEntry>)
    requires CreationsOk(cs) && |view| == |cs|
    requires forall k :: 0 <= k < |cs| ==> view[k] == IdentityJson(IdentityOf(Creating, cs[k]))
    requires NoRepeat(CreationIds(cs))
    ensures forall i, j :: 0 <= i < j < |cs| ==> CreatedRows(view)[i] != CreatedRows(view)[j]
  {
    CreationsIdentified(cs);
    hide EntryOk, CreationsOk, CanonicalKind, IdentityOf, IdentityJson, CreatedRow;
    RowsOfView(cs, view);
    forall i, j | 0 <= i < j < |cs| ensures CreatedRows(view)[i] != CreatedRows(view)[j] {
      assert CreationIds(cs)[i] != CreationIds(cs)[j];
    }
  }

  /* ---- deletions ---- */

  lemma {:induction false} DeletionsCounted(ds: seq<Deletion>, view: seq<ReceiptEntry>)
    requires |view| == |ds| && forall k :: 0 <= k < |ds| ==> DeleteOk(ds[k])
    requires forall k :: 0 <= k < |ds| ==> view[k] == IdentityJson(IdentityOf(Deleting, ds[k]))
    ensures NamedPairs(view) == Map(ForgetTag(), NamedList(ds))
    ensures CertificateCount(view) == |CertificateRows(ds)|
  {
    if ds != [] {
      var n := |ds| - 1;
      var d := ds[n];
      DeletionsCounted(ds[..n], view[..n]);
      DeletionView(d, view[n]);
      hide EntryOk, DeleteOk, KindOf, TagOf, DeletedName, IdentityOf, CanonicalKind, IdentityJson;
      var more := if KindOf(d) == Some(Certificate) then [] else [(KindOf(d).value, DeletedName(d), TagOf(d).value)];
      assert NamedList(ds) == NamedList(ds[..n]) + more;
      MapConcat(ForgetTag(), NamedList(ds[..n]), more);
      assert Map(ForgetTag(), more) == if KindOf(d) == Some(Certificate) then [] else [(KindOf(d), DeletedName(d))];
      assert |CertificateRows(ds)| == |CertificateRows(ds[..n])| + |CertificateRow(d)|;
    }
  }

  lemma {:induction false} DeletionView(d: Deletion, j: ReceiptEntry)
    requires DeleteOk(d) && j == IdentityJson(IdentityOf(Deleting, d))
    ensures KindOf(d).Some? && TagOf(d).Some? && ReceiptKind(j) == KindOf(d) && j.fields["name"].s == DeletedName(d)
  {
  }

  lemma {:induction false} TwoCertificates(ds: seq<Deletion>, view: seq<ReceiptEntry>)
    requires DeletionsOk(ds) && |view| == |ds|
    requires forall k :: 0 <= k < |ds| ==> view[k] == IdentityJson(IdentityOf(Deleting, ds[k]))
    ensures multiset(NamedPairs(view)) == multiset(Map(ForgetTag(), EXPECTED_NAMED))
    ensures CertificateCount(view) == 2
  {
    assert multiset(NamedList(ds)) == ExpectedNamed() == multiset(EXPECTED_NAMED);
    hide EntryOk, DeleteOk, RelationsOk, IdentityOf, IdentityJson, NamedRows, ExpectedNamed;
    DeletionsCounted(ds, view);
    MapPermuted(ForgetTag(), NamedList(ds), EXPECTED_NAMED);
  }

  lemma {:induction false} ViewIds(op: Operation, entries: seq<Json>, view: seq<ReceiptEntry>)
    requires AllOk(op, entries) && |view| == |entries|
    requires forall k :: 0 <= k < |entries| ==> view[k] == IdentityJson(IdentityOf(op, entries[k]))
    ensures forall k :: 0 <= k < |entries| ==> IdentityOf(op, entries[k]).id == Some(ReceiptIds(view)[k])
  {
    hide EntryOk, IdentityOf, IdentityJson, IsReceiptEntry;
    forall k | 0 <= k < |entries| ensures IdentityOf(op, entries[k]).id == Some(ReceiptIds(view)[k]) {
      RowOfIdentity(IdentityOf(op, entries[k]), view[k]);
    }
  }

  lemma {:induction false} DeletionId(d: Deletion)
    ensures IdentityOf(Deleting, d).id == Some(IdOf(d))
  {
  }

  /** The ids of the view are those of the operations. */
  lemma {:induction false} ViewIdsDistinct(cs: seq<Creation>, ds: seq<Deletion>, created: seq<ReceiptEntry>,
                                           deleted: seq<ReceiptEntry>)
    requires NoRepeat(CreationIds(cs) + DeletionIds(ds))
    requires |created| == |cs| && |deleted| == |ds|
    requires forall k :: 0 <= k < |cs| ==> created[k] == IdentityJson(IdentityOf(Creating, cs[k]))
    requires forall k :: 0 <= k < |ds| ==> deleted[k] == IdentityJson(IdentityOf(Deleting, ds[k]))
    ensures NoRepeat(CreationIds(cs)) && NoRepeat(ReceiptIds(created) + ReceiptIds(deleted))
    ensures forall k :: 0 <= k < |ds| ==> ReceiptIds(deleted)[k] == IdOf(ds[k])
  {
    hide EntryOk, IdentityOf, IdOf, IdentityJson, IsReceiptEntry;
    var ids, texts := CreationIds(cs) + DeletionIds(ds), ReceiptIds(created) + ReceiptIds(deleted);
    ViewIds(Creating, cs, created);
    ViewIds(Deleting, ds, deleted);
    forall k | 0 <= k < |ds| ensures ReceiptIds(deleted)[k] == IdOf(ds[k]) {
      DeletionId(ds[k]);
    }
    forall k | 0 <= k < |ids| ensures Some(texts[k]) == ids[k] {
      if k >= |cs| {
        assert texts[k] == ReceiptIds(deleted)[k - |cs|] && ids[k] == DeletionIds(ds)[k - |cs|];
      }
    }
    SameRepeats(ids, texts);
    forall i, j | 0 <= i < j < |cs| ensures CreationIds(cs)[i] != CreationIds(cs)[j] {
      assert ids[i] != ids[j];
    }
  }

  lemma {:induction false} SameRepeats(ids: seq<Option<string>>, texts: seq<string>)
    requires NoRepeat(ids) && |ids| == |texts|
    requires forall k :: 0 <= k < |ids| ==> Some(texts[k]) == ids[k]
    ensures NoRepeat(texts)
  {
    forall i, j | 0 <= i < j < |texts| ensures texts[i] != texts[j] {
      assert ids[i] != ids[j];
    }
  }

  lemma {:induction false} MigrationHasThirteen(ds: seq<Deletion>)
    requires DeletionsOk(ds)
    ensures |ds| == 13
  {
    hide EntryOk, DeleteOk, RelationsOk, NamedRows, CertificateRows;
  }

  lemma {:induction false} DeletionsUnprotected(ds: seq<Deletion>)
    requires DeletionsOk(ds)
    ensures forall k :: 0 <= k < |ds| ==> IdOf(ds[k]) !in PROTECTED_IDS
  {
    assert forall k :: 0 <= k < |ds| ==> DeleteOk(ds[k]);
  }

  /** The view of the three lists of an accepted migration passes the receipt's scope check. */
  lemma {:induction false} MigrationIsApproved(cs: seq<Creation>, ds: seq<Deletion>, created: seq<ReceiptEntry>,
                                               deleted: seq<ReceiptEntry>)
    requires CreationsOk(cs) && DeletionsOk(ds) && NoRepeat(CreationIds(cs) + DeletionIds(ds))
    requires |created| == |cs| && |deleted| == |ds|
    requires forall k :: 0 <= k < |cs| ==> created[k] == IdentityJson(IdentityOf(Creating, cs[k]))
    requires forall k :: 0 <= k < |ds| ==> deleted[k] == IdentityJson(IdentityOf(Deleting, ds[k]))
    ensures ApprovalOk(created, [], deleted)
  {
    hide *;
    DeletionsUnprotected(ds);
    MigrationHasThirteen(ds);
    ViewIdsDistinct(cs, ds, created, deleted);
    CreationsCounted(cs, created);
    TwoCertificates(ds, deleted);
    ApprovalFrom(created, deleted);
  }

  lemma {:induction false} ApprovalFrom(created: seq<ReceiptEntry>, deleted: seq<ReceiptEntry>)
    requires multiset(CreatedRows(created)) == multiset(ExpectedRows())
    requires multiset(NamedPairs(deleted)) == multiset(Map(ForgetTag(), EXPECTED_NAMED))
    requires CertificateCount(deleted) == 2 && |deleted| == 13
    requires NoRepeat(ReceiptIds(created) + ReceiptIds(deleted))
    requires forall k :: 0 <= k < |deleted| ==> ReceiptIds(deleted)[k] !in PROTECTED_IDS
    ensures ApprovalOk(created, [], deleted)
  {
    hide CreatedRows, ExpectedRows, NamedPairs, CertificateCount, NoRepeat, ReceiptIds, IsReceiptEntry;
  }

  lemma {:induction false} ViewEntriesFit(r: Report)
    requires WellParsed(r) && ReceiptStructured(ViewSummary(r), ViewOperations(r))
    ensures forall k :: 0 <= k < |r.creating| ==> IsReceiptEntry(ViewList(Creating, r.creating)[k])
    ensures forall k :: 0 <= k < |r.deleting| ==> IsReceiptEntry(ViewList(Deleting, r.deleting)[k])
  {
    hide EntryOk, IdentityOf, IdentityJson, IsReceiptEntry;
    assert ReceiptList(ViewSummary(r).fields["creating"], ViewOperations(r).fields["creating"]);
    assert ReceiptList(ViewSummary(r).fields["deleting"], ViewOperations(r).fields["deleting"]);
  }

  lemma {:induction false} MigrationPasses(r: Report)
    requires WellParsed(r) && IsMigration(r)
    requires Sorted(r.creating, EntryKey(Creating)) && Sorted(r.deleting, EntryKey(Deleting))
    ensures ReceiptAccepts(ViewSummary(r), ViewOperations(r))
  {
    MigrationStructured(r);
    MigrationSummary(r);
    ViewEntriesFit(r);
    assert r.updating == [] && ViewList(Updating, r.updating) == [];
    assert CreationsOk(r.creating) && DeletionsOk(r.deleting);
    assert NoRepeat(CreationIds(r.creating) + DeletionIds(r.deleting));
    ViewParts(r);
    hide *;
    MigrationIsApproved(r.creating, r.deleting, ViewList(Creating, r.creating), ViewList(Deleting, r.deleting));
    Assembled(ViewSummary(r), ViewOperations(r));
  }

  lemma {:induction false} MigrationStructured(r: Report)
    requires WellParsed(r) && IsMigration(r)
    requires Sorted(r.creating, EntryKey(Creating)) && Sorted(r.deleting, EntryKey(Deleting))
    ensures ReceiptStructured(ViewSummary(r), ViewOperations(r))
  {
    hide EntryOk, EntryKey, ReceiptStructured, DeletionsOk, ViewSummary, ViewOperations;
    CreationsIdentified(r.creating);
    DeletionsIdentified(r.deleting);
    ViewIsStructured(r);
  }

  lemma {:induction false} ViewParts(r: Report)
    requires WellParsed(r)
    ensures ViewOperations(r).Obj? && ViewOperations(r).fields.Keys == OPERATION_NAMES
    ensures ViewOperations(r).fields["creating"] == Arr(ViewList(Creating, r.creating))
    ensures ViewOperations(r).fields["updating"] == Arr(ViewList(Updating, r.updating))
    ensures ViewOperations(r).fields["deleting"] == Arr(ViewList(Deleting, r.deleting))
  {
    hide EntryOk, IdentityJson;
  }

  lemma {:induction false} Assembled(summary: Json, operations: Json)
    requires ReceiptStructured(summary, operations) && summary.fields == EXPECTED_SUMMARY
    requires ApprovalOk(operations.fields["creating"].items, operations.fields["updating"].items,
                        operations.fields["deleting"].items)
    ensures ReceiptAccepts(summary, operations)
  {
  }

  /** A no-op's view announces a total of zero. */
  lemma {:induction false} NoOpRefused(r: Report)
    requires WellParsed(r) && r.Empty()
    ensures !ReceiptAccepts(ViewSummary(r), ViewOperations(r))
  {
    hide ReceiptStructured, ApprovalOk;
    assert ViewSummary(r).fields["total"] == Num(0) && EXPECTED_SUMMARY["total"] == Num(19);
  }

  lemma {:induction false} AcceptedIs(report: Json, r: Report)
    requires Accept(report) == Ok(r)
    ensures WellParsed(r) && (r.Empty() || IsMigration(r))
    ensures Sorted(r.creating, EntryKey(Creating)) && Sorted(r.deleting, EntryKey(Deleting))
  {
    hide *;
    AcceptedParsed(report, r);
    ParsedSorted(report, r);
  }

  lemma {:induction false} ParsedSorted(report: Json, r: Report)
    requires Parse(report) == Ok(r)
    ensures Sorted(r.creating, EntryKey(Creating)) && Sorted(r.deleting, EntryKey(Deleting))
  {
    hide Parse, EntryOk, EntryKey, IdentityOf, NoRepeat, Structured, Entries, Sorted, AllOk, Identities;
    ParsedContent(report, Creating);
    ParsedContent(report, Deleting);
    assert r.Of(Creating) == r.creating && r.Of(Deleting) == r.deleting;
  }

  /** Refinement between the two separately written checkers: the view of every report the
      diff checker accepts passes the whole receipt reader, unless the report is a no-op, whose
      view is always refused. */
  lemma {:induction false} AcceptedViewPassesReceipt(report: Json, r: Report)
    requires Accept(report) == Ok(r)
    ensures WellParsed(r)
    ensures ReceiptAccepts(ViewSummary(r), ViewOperations(r)) <==> !r.Empty()
  {
    hide *;
    AcceptedIs(report, r);
    if r.Empty() {
      NoOpRefused(r);
    } else {
      MigrationPasses(r);
    }
  }

  lemma {:induction false} MigrationSummary(r: Report)
    requires WellParsed(r) && IsMigration(r)
    ensures ViewSummary(r).fields == EXPECTED_SUMMARY
  {
    MigrationHasThirteen(r.deleting);
    MigrationHasSix(r.creating);
    assert r.updating == [];
    hide *;
    SummaryOfSizes(r);
  }

  lemma {:induction false} SummaryOfSizes(r: Report)
    requires |r.creating| == 6 && |r.updating| == 0 && |r.deleting| == 13
    ensures ViewSummary(r).Obj? && ViewSummary(r).fields == EXPECTED_SUMMARY
  {
    assert ViewSummary(r).fields
        == map["creating" := Num(6), "updating" := Num(0), "deleting" := Num(13), "total" := Num(19)];
  }

  lemma {:induction false} MigrationHasSix(cs: seq<Creation>)
    requires CreationsOk(cs)
    ensures |cs| == 6
  {
    hide EntryOk, CreateOk;
  }

  lemma {:induction false} ViewIsStructured(r: Report)
    requires WellParsed(r) && r.updating == []
    requires AllIdentified(Creating, r.creating) && AllIdentified(Deleting, r.deleting)
    requires Sorted(r.creating, EntryKey(Creating)) && Sorted(r.deleting, EntryKey(Deleting))
    ensures ReceiptStructured(ViewSummary(r), ViewOperations(r))
  {
    hide EntryOk, AllIdentified, EntryKey, IdentityOf, ReceiptList;
    NoUpdates();
    ViewListIsReceiptList(Creating, r.creating);
    ViewListIsReceiptList(Updating, r.updating);
    ViewListIsReceiptList(Deleting, r.deleting);
  }
}
