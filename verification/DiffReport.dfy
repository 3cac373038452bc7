/** parse_deck_diff_report of scripts/wp3_runtime.py: validate a decoded decK report and put
    each operation's entries in canonical order. */
module DiffReport {
  import opened Wrappers
  import opened Json
  import opened Sorting

  datatype Operation = Creating | Updating | Deleting

  const OPERATION_NAMES: set<string> := {"creating", "updating", "deleting"}

  function NameOf(op: Operation): string {
    match op case Creating => "creating" case Updating => "updating" case Deleting => "deleting"
  }

  datatype Kind = Service | Route | Plugin | Certificate

  function LowerChar(c: char): char {
    if 'A' <= c <= 'Z' then c + 32 as char else c
  }

  function Lower(s: string): string {
    seq(|s|, i requires 0 <= i < |s| => LowerChar(s[i]))
  }

  /** canonical_entity_kind */
  function CanonicalKind(kind: string): Option<Kind> {
    var k := Lower(kind);
    if k == "service" || k == "services" then Some(Service)
    else if k == "route" || k == "routes" then Some(Route)
    else if k == "plugin" || k == "plugins" then Some(Plugin)
    else if k == "certificate" || k == "certificates" then Some(Certificate)
    else None
  }

  /* ---------------- one entry ---------------- */

  predicate HasBody(j: Json) {
    && j.Obj? && j.fields.Keys == {"kind", "name", "body"}
    && IsText(j.fields["kind"]) && IsText(j.fields["name"])
    && j.fields["body"].Obj? && j.fields["body"].fields.Keys == {"old", "new"}
  }

  function OldOf(j: Json): Json
    requires HasBody(j)
  {
    j.fields["body"].fields["old"]
  }

  function NewOf(j: Json): Json
    requires HasBody(j)
  {
    j.fields["body"].fields["new"]
  }

  /** Creations and deletions carry their entity in "new" with a null "old"; updates carry both. */
  predicate BodyFits(op: Operation, j: Json)
    requires HasBody(j)
  {
    NewOf(j).Obj? && (if op.Updating? then OldOf(j).Obj? else OldOf(j).Null?)
  }

  function EntityOf(op: Operation, j: Json): Object
    requires HasBody(j) && BodyFits(op, j)
  {
    if op.Updating? then OldOf(j).fields else NewOf(j).fields
  }

  predicate IdFits(op: Operation, j: Json)
    requires HasBody(j) && BodyFits(op, j)
  {
    var id := Get(EntityOf(op, j), "id");
    && (id.Null? || IsText(id))
    && (!op.Creating? ==> !id.Null?)
    && (op.Updating? ==> Get(OldOf(j).fields, "id") == Get(NewOf(j).fields, "id"))
  }

  predicate PluginNamed(op: Operation, j: Json)
    requires HasBody(j) && BodyFits(op, j)
  {
    CanonicalKind(j.fields["kind"].s) == Some(Plugin) ==> IsText(Get(EntityOf(op, j), "name"))
  }

  /** An entry the parser accepts for this operation. */
  predicate EntryOk(op: Operation, j: Json) {
    HasBody(j) && BodyFits(op, j) && IdFits(op, j) && PluginNamed(op, j)
  }

  /** The operation identity of an entry; a plugin is known by its body's name. */
  datatype Identity = Identity(kind: string, name: string, id: Option<string>)

  function IdentityOf(op: Operation, j: Json): Identity
    requires EntryOk(op, j)
  {
    var entity := EntityOf(op, j);
    Identity(
      j.fields["kind"].s,
      if CanonicalKind(j.fields["kind"].s) == Some(Plugin) then Get(entity, "name").s else j.fields["name"].s,
      if Get(entity, "id").Str? then Some(Get(entity, "id").s) else None)
  }

  /** The sort key: kind, name, id or empty. */
  function KeyOf(x: Identity): Key {
    [x.kind, x.name, x.id.GetOr("")]
  }

  function EntryKey(op: Operation): Json -> Key {
    (j: Json) => if EntryOk(op, j) then KeyOf(IdentityOf(op, j)) else []
  }

  predicate AllOk(op: Operation, entries: seq<Json>) {
    forall i :: 0 <= i < |entries| ==> EntryOk(op, entries[i])
  }

  /** The identities of accepted entries, in their order. */
  function Identities(op: Operation, entries: seq<Json>): (r: seq<Identity>)
    requires AllOk(op, entries)
    ensures |r| == |entries|
    ensures forall i :: 0 <= i < |entries| ==> r[i] == IdentityOf(op, entries[i])
  {
    seq(|entries|, i requires 0 <= i < |entries| => IdentityOf(op, entries[i]))
  }

  predicate NoRepeat<T(==)>(xs: seq<T>) {
    forall i, j :: 0 <= i < j < |xs| ==> xs[i] != xs[j]
  }

  /** The order key separates exactly the identities: an id is never the empty string. */
  lemma {:induction false} KeySeparates(op: Operation, a: Json, b: Json)
    requires EntryOk(op, a) && EntryOk(op, b)
    ensures EntryKey(op)(a) == EntryKey(op)(b) <==> IdentityOf(op, a) == IdentityOf(op, b)
  {
    var x, y := IdentityOf(op, a), IdentityOf(op, b);
    assert KeyOf(x)[0] == x.kind && KeyOf(x)[1] == x.name && KeyOf(x)[2] == x.id.GetOr("");
    assert KeyOf(y)[0] == y.kind && KeyOf(y)[1] == y.name && KeyOf(y)[2] == y.id.GetOr("");
  }

  lemma {:induction false} DistinctIdentitiesAreKeys(op: Operation, entries: seq<Json>)
    requires AllOk(op, entries)
    ensures NoRepeat(Identities(op, entries)) <==> DistinctKeys(entries, EntryKey(op))
  {
    forall i, j | 0 <= i < j < |entries|
      ensures Identities(op, entries)[i] == Identities(op, entries)[j]
         <==> EntryKey(op)(entries[i]) == EntryKey(op)(entries[j])
    {
      KeySeparates(op, entries[i], entries[j]);
    }
  }

  /* ---------------- one operation ---------------- */

  /** The entries of one operation in canonical order; fails on a malformed entry or a
      repeated identity. */
  function Canonical(op: Operation, entries: seq<Json>): Result<seq<Json>> {
    if AllOk(op, entries) && NoRepeat(Identities(op, entries)) then Ok(SortBy(entries, EntryKey(op))) else Err
  }

  /** The per-operation loop as written: validate and collect the entries one by one, sort
      them, then look for repeated identities. */
  method ParseOperation(op: Operation, entries: Json) returns (r: Result<seq<Json>>)
    ensures r == if entries.Arr? then Canonical(op, entries.items) else Err
  {
    if !entries.Arr? {
      return Err;
    }
    var collected: seq<Json> := [];
    for i := 0 to |entries.items|
      invariant AllOk(op, entries.items[..i]) && collected == entries.items[..i]
    {
      var entry := entries.items[i];
      if !EntryOk(op, entry) {
        return Err;
      }
      assert entries.items[..i + 1] == entries.items[..i] + [entry];
      collected := collected + [entry];
    }
    assert collected == entries.items;
    var sorted := SortBy(collected, EntryKey(op));
    SortKeepsOk(op, collected);
    if !NoRepeat(Identities(op, sorted)) {
      return Err;
    }
    return Ok(sorted);
  }

  lemma {:induction false} SortKeepsOk(op: Operation, entries: seq<Json>)
    requires AllOk(op, entries)
    ensures AllOk(op, SortBy(entries, EntryKey(op)))
    ensures NoRepeat(Identities(op, SortBy(entries, EntryKey(op)))) <==> NoRepeat(Identities(op, entries))
  {
    var key := EntryKey(op);
    SortPermutes(entries, key);
    PermutedOk(op, entries, SortBy(entries, key));
  }

  lemma {:induction false} PermutedOk(op: Operation, xs: seq<Json>, ys: seq<Json>)
    requires AllOk(op, xs) && multiset(xs) == multiset(ys)
    ensures AllOk(op, ys) && (NoRepeat(Identities(op, xs)) <==> NoRepeat(Identities(op, ys)))
  {
    forall i | 0 <= i < |ys| ensures EntryOk(op, ys[i]) {
      assert ys[i] in multiset(xs);
    }
    DistinctIdentitiesAreKeys(op, xs);
    DistinctIdentitiesAreKeys(op, ys);
    if DistinctKeys(xs, EntryKey(op)) {
      DistinctKeysPermute(xs, ys, EntryKey(op));
    }
    if DistinctKeys(ys, EntryKey(op)) {
      DistinctKeysPermute(ys, xs, EntryKey(op));
    }
  }

  /** Canonical order is exact for one operation. */
  lemma {:induction false} CanonicalExactly(op: Operation, xs: seq<Json>, ys: seq<Json>)
    requires Canonical(op, xs).Ok?
    ensures Canonical(op, ys) == Canonical(op, xs) <==> multiset(xs) == multiset(ys)
  {
    DistinctIdentitiesAreKeys(op, xs);
    if multiset(xs) == multiset(ys) {
      PermutedOk(op, xs, ys);
    }
    SortForgetsOrder(xs, ys, EntryKey(op));
  }

  /* ---------------- the report ---------------- */

  /** The canonical content of a report: this is what the digest is computed from. */
  datatype Report = Report(creating: seq<Json>, updating: seq<Json>, deleting: seq<Json>) {
    function Of(op: Operation): seq<Json> {
      match op case Creating => creating case Updating => updating case Deleting => deleting
    }
    function Total(): nat { |creating| + |updating| + |deleting| }
    predicate Empty() { creating == [] && updating == [] && deleting == [] }
  }

  predicate Structured(report: Json) {
    && report.Obj? && report.fields.Keys == {"changes", "summary", "warnings", "errors"}
    && report.fields["warnings"] == Arr([]) && report.fields["errors"] == Arr([])
    && report.fields["changes"].Obj? && report.fields["changes"].fields.Keys == OPERATION_NAMES
    && report.fields["summary"].Obj? && report.fields["summary"].fields.Keys == OPERATION_NAMES + {"total"}
  }

  /** The raw entry list of one operation. */
  function Entries(report: Json, op: Operation): Json
    requires Structured(report)
  {
    report.fields["changes"].fields[NameOf(op)]
  }

  function Claimed(report: Json, field: string): Json
    requires Structured(report) && field in OPERATION_NAMES + {"total"}
  {
    report.fields["summary"].fields[field]
  }

  /** The claims of the summary about lists of these lengths. */
  predicate Claims(report: Json, c: nat, u: nat, d: nat)
    requires Structured(report)
  {
    && Claimed(report, "creating") == Num(c) && Claimed(report, "updating") == Num(u)
    && Claimed(report, "deleting") == Num(d) && Claimed(report, "total") == Num(c + u + d)
  }

  function ParseList(op: Operation, entries: Json): Result<seq<Json>> {
    if entries.Arr? then Canonical(op, entries.items) else Err
  }

  /** parse_deck_diff_report without the scope check */
  function Parse(report: Json): Result<Report> {
    if !Structured(report) then Err
    else
      var creating :- ParseList(Creating, Entries(report, Creating));
      var updating :- ParseList(Updating, Entries(report, Updating));
      var deleting :- ParseList(Deleting, Entries(report, Deleting));
      var r := Report(creating, updating, deleting);
      if Claimed(report, "creating") != Num(|creating|) || Claimed(report, "updating") != Num(|updating|)
      || Claimed(report, "deleting") != Num(|deleting|) || Claimed(report, "total") != Num(r.Total()) then Err
      else Ok(r)
  }

  /** The raw entries of one operation, order forgotten. */
  function Bag(report: Json, op: Operation): multiset<Json> {
    if Structured(report) && Entries(report, op).Arr? then multiset(Entries(report, op).items) else multiset{}
  }

  lemma {:induction false} ParsedPart(report: Json, op: Operation)
    requires Parse(report).Ok?
    ensures Entries(report, op).Arr?
    ensures Canonical(op, Entries(report, op).items) == Ok(Parse(report).value.Of(op))
  {
  }

  /** Two parsed reports have the same canonical content, hence the same hashed value, exactly
      when operation by operation their entries are permutations of each other. */
  lemma {:induction false} SameContentIffPermuted(a: Json, b: Json)
    requires Parse(a).Ok? && Parse(b).Ok?
    ensures Parse(a) == Parse(b) <==> forall op :: Bag(a, op) == Bag(b, op)
  {
    forall op ensures Parse(a).value.Of(op) == Parse(b).value.Of(op) <==> Bag(a, op) == Bag(b, op) {
      hide Canonical, Parse;
      ParsedPart(a, op);
      ParsedPart(b, op);
      CanonicalExactly(op, Entries(a, op).items, Entries(b, op).items);
    }
    SameParts(Parse(a).value, Parse(b).value);
  }

  lemma {:induction false} SameParts(x: Report, y: Report)
    ensures x == y <==> forall op :: x.Of(op) == y.Of(op)
  {
    if forall op :: x.Of(op) == y.Of(op) {
      assert x.Of(Creating) == y.Of(Creating) && x.Of(Updating) == y.Of(Updating) && x.Of(Deleting) == y.Of(Deleting);
    }
  }

  /** Rearranging the entries of an accepted report changes nothing. */
  lemma {:induction false} PermutationIsAccepted(a: Json, b: Json)
    requires Parse(a).Ok? && Structured(b) && b.fields["summary"] == a.fields["summary"]
    requires forall op :: Entries(b, op).Arr? && Bag(a, op) == Bag(b, op)
    ensures Parse(b) == Parse(a)
  {
    forall op ensures ParseList(op, Entries(b, op)) == ParseList(op, Entries(a, op)) {
      hide Canonical, Parse;
      ParsedPart(a, op);
      CanonicalExactly(op, Entries(a, op).items, Entries(b, op).items);
    }
    hide ParseList;
    assert forall field :: field in OPERATION_NAMES + {"total"} ==> Claimed(a, field) == Claimed(b, field);
  }

  /** What a parsed report is made of. */
  lemma {:induction false} ParsedContent(report: Json, op: Operation)
    requires Parse(report).Ok?
    ensures var es := Parse(report).value.Of(op);
      && AllOk(op, es) && NoRepeat(Identities(op, es)) && Sorted(es, EntryKey(op))
      && Entries(report, op).Arr? && multiset(es) == multiset(Entries(report, op).items)
  {
    var raw := Entries(report, op).items;
    SortKeepsOk(op, raw);
    SortSorts(raw, EntryKey(op));
    SortPermutes(raw, EntryKey(op));
  }
}
