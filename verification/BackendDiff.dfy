/** parse_sanitized_runtime_diff of scripts/run-deck.py: the third-party diff report, its label
    view and the value that is hashed for it. */
module BackendDiff {
  import opened Wrappers
  import opened Json
  import opened Sorting
  import opened DiffReport
  import Bags

  const BACKEND_KINDS: set<string> := {"service", "route", "plugin", "certificate", "ca_certificate"}

  /** What a view shows of an entry. */
  datatype Label = Label(kind: string, name: string)

  function LabelKey(x: Label): Key { [x.kind, x.name] }

  predicate IsControl(c: char) { c < ' ' || c == 127 as char }

  predicate NameFits(name: string) {
    |name| <= 256 && forall i :: 0 <= i < |name| ==> !IsControl(name[i])
  }

  /** An entry the parser accepts for this operation. */
  predicate EntryFits(op: Operation, j: Json) {
    && HasBody(j) && j.fields["kind"].s in BACKEND_KINDS && NameFits(j.fields["name"].s)
    && BodyFits(op, j)
  }

  predicate AllFit(op: Operation, entries: seq<Json>) {
    forall i :: 0 <= i < |entries| ==> EntryFits(op, entries[i])
  }

  /** sanitize_output with the run's secrets, as one function on names. */
  type Redactor = string -> string

  function RawLabel(j: Json): Label {
    if HasBody(j) then Label(j.fields["kind"].s, j.fields["name"].s) else Label("", "")
  }

  function SafeLabel(j: Json, redact: Redactor): Label {
    var raw := RawLabel(j);
    Label(raw.kind, redact(raw.name))
  }

  function SafeLabels(entries: seq<Json>, redact: Redactor): (r: seq<Label>)
    ensures |r| == |entries|
    ensures forall i :: 0 <= i < |entries| ==> r[i] == SafeLabel(entries[i], redact)
  {
    seq(|entries|, i requires 0 <= i < |entries| => SafeLabel(entries[i], redact))
  }

  function RawKey(j: Json): Key { LabelKey(RawLabel(j)) }

  /** The two outcomes of one operation: the labels shown and the entries that are hashed. */
  datatype Part = Part(labels: seq<Label>, entries: seq<Json>)

  function ParsePart(op: Operation, entries: seq<Json>, redact: Redactor): Result<Part> {
    if AllFit(op, entries) && NoRepeat(SafeLabels(entries, redact)) then
      Ok(Part(SortBy(SafeLabels(entries, redact), LabelKey), SortBy(entries, RawKey)))
    else Err
  }

  /** The per-operation loop as written: refuse a malformed entry or a label seen before, file
      the label and the entry, and sort both lists at the end. */
  method ParseOperation(op: Operation, entries: Json, redact: Redactor) returns (r: Result<Part>)
    ensures r == if entries.Arr? then ParsePart(op, entries.items, redact) else Err
  {
    if !entries.Arr? {
      return Err;
    }
    hide EntryFits, SafeLabel, NoRepeat;
    NothingRepeats();
    var raw := entries.items;
    var labels: seq<Label>, kept: seq<Json>, seen: set<Label> := [], [], {};
    for i := 0 to |raw|
      invariant kept == raw[..i] && AllFit(op, kept)
      invariant labels == SafeLabels(kept, redact) && NoRepeat(labels)
      invariant forall x :: x in seen <==> x in labels
    {
      var entry := raw[i];
      if !EntryFits(op, entry) {
        return Err;
      }
      var shown := SafeLabel(entry, redact);
      LabelSeen(raw, i, redact);
      assert raw[..i + 1] == raw[..i] + [entry];
      if shown in seen {
        return Err;
      }
      seen := seen + {shown};
      labels := labels + [shown];
      kept := kept + [entry];
    }
    assert raw[..|raw|] == raw;
    return Ok(Part(SortBy(labels, LabelKey), SortBy(kept, RawKey)));
  }

  lemma {:induction false} NothingRepeats()
    ensures NoRepeat<Label>([])
  {
  }

  /** Whether entry i repeats an earlier label. */
  lemma {:induction false} LabelSeen(raw: seq<Json>, i: nat, redact: Redactor)
    requires i < |raw| && NoRepeat(SafeLabels(raw[..i], redact))
    ensures SafeLabels(raw[..i + 1], redact) == SafeLabels(raw[..i], redact) + [SafeLabel(raw[i], redact)]
    ensures if SafeLabel(raw[i], redact) in SafeLabels(raw[..i], redact) then !NoRepeat(SafeLabels(raw, redact))
            else NoRepeat(SafeLabels(raw[..i + 1], redact))
  {
    hide SafeLabel;
    var shown, labels, all := SafeLabel(raw[i], redact), SafeLabels(raw[..i], redact), SafeLabels(raw, redact);
    if shown in labels {
      var k :| 0 <= k < |labels| && labels[k] == shown;
      assert all[k] == all[i];
    }
  }

  /* ---------------- the report ---------------- */

  datatype Parsed = Parsed(creating: Part, updating: Part, deleting: Part) {
    function Of(op: Operation): Part {
      match op case Creating => creating case Updating => updating case Deleting => deleting
    }

    /** What the digest is computed from: labels are no part of it. */
    function Hashed(): Report { Report(creating.entries, updating.entries, deleting.entries) }
  }

  function ParseEntries(op: Operation, report: Json, redact: Redactor): Result<Part>
    requires Structured(report)
  {
    if Entries(report, op).Arr? then ParsePart(op, Entries(report, op).items, redact) else Err
  }

  function BackendParse(report: Json, redact: Redactor): Result<Parsed> {
    if !Structured(report) then Err
    else
      var creating :- ParseEntries(Creating, report, redact);
      var updating :- ParseEntries(Updating, report, redact);
      var deleting :- ParseEntries(Deleting, report, redact);
      if Claimed(report, "creating") != Num(|creating.labels|) || Claimed(report, "updating") != Num(|updating.labels|)
      || Claimed(report, "deleting") != Num(|deleting.labels|)
      || Claimed(report, "total") != Num(|creating.labels| + |updating.labels| + |deleting.labels|) then Err
      else Ok(Parsed(creating, updating, deleting))
  }

  /** Labels that stay apart after redaction come from names that were apart before it. */
  lemma {:induction false} SafeApartIsRawApart(op: Operation, entries: seq<Json>, redact: Redactor)
    requires AllFit(op, entries) && NoRepeat(SafeLabels(entries, redact))
    ensures DistinctKeys(entries, RawKey)
  {
    hide HasBody, EntryFits;
    forall i, j | 0 <= i < j < |entries| ensures RawKey(entries[i]) != RawKey(entries[j]) {
      assert SafeLabels(entries, redact)[i] != SafeLabels(entries, redact)[j];
      KeyIsLabel(RawLabel(entries[i]), RawLabel(entries[j]));
    }
  }

  lemma {:induction false} KeyIsLabel(x: Label, y: Label)
    ensures LabelKey(x) == LabelKey(y) <==> x == y
  {
    assert LabelKey(x)[0] == x.kind && LabelKey(x)[1] == x.name;
    assert LabelKey(y)[0] == y.kind && LabelKey(y)[1] == y.name;
  }

  lemma {:induction false} ApartLabels(xs: seq<Label>)
    requires NoRepeat(xs)
    ensures DistinctKeys(xs, LabelKey)
  {
    forall i, j | 0 <= i < j < |xs| ensures LabelKey(xs[i]) != LabelKey(xs[j]) {
      KeyIsLabel(xs[i], xs[j]);
    }
  }

  /** Rearranged entries have rearranged labels. */
  lemma {:induction false} LabelsPermute(xs: seq<Json>, ys: seq<Json>, redact: Redactor)
    requires multiset(xs) == multiset(ys) && NoRepeat(SafeLabels(xs, redact))
    ensures NoRepeat(SafeLabels(ys, redact)) && multiset(SafeLabels(xs, redact)) == multiset(SafeLabels(ys, redact))
  {
    hide SafeLabel;
    forall i, j | 0 <= i < j < |xs| ensures xs[i] != xs[j] {
      assert SafeLabels(xs, redact)[i] != SafeLabels(xs, redact)[j];
    }
    LabelsApart(xs, ys, redact);
    forall x ensures x in SafeLabels(xs, redact) <==> x in SafeLabels(ys, redact) {
      Carried(xs, ys, redact, x);
      Carried(ys, xs, redact, x);
    }
    Bags.SameElementsSameBag(SafeLabels(xs, redact), SafeLabels(ys, redact));
  }

  lemma {:induction false} Carried(xs: seq<Json>, ys: seq<Json>, redact: Redactor, x: Label)
    requires multiset(xs) == multiset(ys)
    ensures x in SafeLabels(xs, redact) ==> x in SafeLabels(ys, redact)
  {
    hide SafeLabel;
    if x in SafeLabels(xs, redact) {
      var i :| 0 <= i < |xs| && SafeLabels(xs, redact)[i] == x;
      assert xs[i] in multiset(ys);
      var j :| 0 <= j < |ys| && ys[j] == xs[i];
      assert SafeLabels(ys, redact)[j] == x;
    }
  }

  lemma {:induction false} LabelsApart(xs: seq<Json>, ys: seq<Json>, redact: Redactor)
    requires multiset(xs) == multiset(ys) && NoRepeat(SafeLabels(xs, redact))
    ensures NoRepeat(SafeLabels(ys, redact))
  {
    hide SafeLabel;
    var key := (j: Json) => LabelKey(SafeLabel(j, redact));
    forall i, j | 0 <= i < j < |xs| ensures key(xs[i]) != key(xs[j]) {
      KeyIsLabel(SafeLabels(xs, redact)[i], SafeLabels(xs, redact)[j]);
    }
    DistinctKeysPermute(xs, ys, key);
    forall i, j | 0 <= i < j < |ys| ensures SafeLabels(ys, redact)[i] != SafeLabels(ys, redact)[j] {
      assert key(ys[i]) != key(ys[j]);
    }
  }

  /** For one operation the hashed entries are equal exactly when the raw ones are rearranged,
      and then the labels shown are equal too. */
  lemma {:induction false} PartExactly(op: Operation, xs: seq<Json>, ys: seq<Json>, redact: Redactor)
    requires ParsePart(op, xs, redact).Ok?
    ensures multiset(xs) == multiset(ys) ==> ParsePart(op, ys, redact) == ParsePart(op, xs, redact)
    ensures
      && ParsePart(op, ys, redact).Ok?
      && ParsePart(op, ys, redact).value.entries == ParsePart(op, xs, redact).value.entries ==>
      multiset(xs) == multiset(ys)
  {
    hide EntryFits, SafeLabel, NoRepeat;
    SafeApartIsRawApart(op, xs, redact);
    SortForgetsOrder(xs, ys, RawKey);
    if multiset(xs) == multiset(ys) {
      FitPermutes(op, xs, ys);
      LabelsPermute(xs, ys, redact);
      ApartLabels(SafeLabels(xs, redact));
      SortForgetsOrder(SafeLabels(xs, redact), SafeLabels(ys, redact), LabelKey);
    }
  }

  lemma {:induction false} FitPermutes(op: Operation, xs: seq<Json>, ys: seq<Json>)
    requires AllFit(op, xs) && multiset(xs) == multiset(ys)
    ensures AllFit(op, ys)
  {
    forall i | 0 <= i < |ys| ensures EntryFits(op, ys[i]) {
      assert ys[i] in multiset(xs);
    }
  }

  lemma {:induction false} BackendPart(report: Json, redact: Redactor, op: Operation)
    requires BackendParse(report, redact).Ok?
    ensures Structured(report) && Entries(report, op).Arr?
    ensures ParsePart(op, Entries(report, op).items, redact) == Ok(BackendParse(report, redact).value.Of(op))
  {
    hide ParsePart;
  }

  /** Two parsed reports hash the same canonical value exactly when operation by operation their
      entries are permutations of each other; then they are shown alike as well. */
  lemma {:induction false} BackendHashIsExact(a: Json, b: Json, redact: Redactor)
    requires BackendParse(a, redact).Ok? && BackendParse(b, redact).Ok?
    ensures BackendParse(a, redact).value.Hashed() == BackendParse(b, redact).value.Hashed()
      <==> (forall op :: Bag(a, op) == Bag(b, op))
    ensures (forall op :: Bag(a, op) == Bag(b, op)) ==> BackendParse(a, redact) == BackendParse(b, redact)
  {
    var x, y := BackendParse(a, redact).value, BackendParse(b, redact).value;
    forall op ensures x.Of(op).entries == y.Of(op).entries <==> Bag(a, op) == Bag(b, op)
      ensures Bag(a, op) == Bag(b, op) ==> x.Of(op) == y.Of(op)
    {
      hide ParsePart, BackendParse;
      BackendPart(a, redact, op);
      BackendPart(b, redact, op);
      PartExactly(op, Entries(a, op).items, Entries(b, op).items, redact);
    }
    hide BackendParse, Bag;
    SameHash(x, y);
  }

  /** Whatever was redacted from the names, the hashed value holds exactly the report's entries. */
  lemma {:induction false} HashHoldsTheBags(report: Json, redact: Redactor)
    requires BackendParse(report, redact).Ok?
    ensures forall op :: Bag(report, op) == multiset(BackendParse(report, redact).value.Hashed().Of(op))
  {
    var parsed := BackendParse(report, redact).value;
    forall op ensures Bag(report, op) == multiset(parsed.Hashed().Of(op)) {
      BackendPart(report, redact, op);
      hide BackendParse;
      assert parsed.Hashed().Of(op) == parsed.Of(op).entries;
      SortPermutes(Entries(report, op).items, RawKey);
    }
  }

  lemma {:induction false} SameHash(x: Parsed, y: Parsed)
    ensures x.Hashed() == y.Hashed() <==> (forall op :: x.Of(op).entries == y.Of(op).entries)
    ensures (forall op :: x.Of(op) == y.Of(op)) ==> x == y
  {
    if forall op :: x.Of(op).entries == y.Of(op).entries {
      assert x.Of(Creating).entries == y.Of(Creating).entries && x.Of(Updating).entries == y.Of(Updating).entries
        && x.Of(Deleting).entries == y.Of(Deleting).entries;
    }
    if forall op :: x.Of(op) == y.Of(op) {
      assert x.Of(Creating) == y.Of(Creating) && x.Of(Updating) == y.Of(Updating) && x.Of(Deleting) == y.Of(Deleting);
    }
  }

  /** Rearranging the entries of an accepted report changes neither view nor hash. */
  lemma {:induction false} BackendPermutation(a: Json, b: Json, redact: Redactor)
    requires BackendParse(a, redact).Ok? && Structured(b) && b.fields["summary"] == a.fields["summary"]
    requires forall op :: Entries(b, op).Arr? && Bag(a, op) == Bag(b, op)
    ensures BackendParse(b, redact) == BackendParse(a, redact)
  {
    forall op ensures ParseEntries(op, b, redact) == ParseEntries(op, a, redact) {
      hide ParsePart, BackendParse;
      BackendPart(a, redact, op);
      PartExactly(op, Entries(a, op).items, Entries(b, op).items, redact);
    }
    hide *;
    SameParse(a, b, redact);
  }

  lemma {:induction false} SameParse(a: Json, b: Json, redact: Redactor)
    requires Structured(a) && Structured(b) && b.fields["summary"] == a.fields["summary"]
    requires forall op :: ParseEntries(op, b, redact) == ParseEntries(op, a, redact)
    ensures BackendParse(b, redact) == BackendParse(a, redact)
  {
    hide ParseEntries, Structured, BackendParse;
    ParseIs(a, redact, ParseEntries(Creating, a, redact), ParseEntries(Updating, a, redact),
            ParseEntries(Deleting, a, redact));
    ParseIs(b, redact, ParseEntries(Creating, a, redact), ParseEntries(Updating, a, redact),
            ParseEntries(Deleting, a, redact));
    assert forall c: nat, u: nat, d: nat :: Claims(a, c, u, d) <==> Claims(b, c, u, d);
    hide Claims;
  }

  lemma {:induction false} ParseIs(report: Json, redact: Redactor, c: Result<Part>, u: Result<Part>, d: Result<Part>)
    requires Structured(report)
    requires c == ParseEntries(Creating, report, redact) && u == ParseEntries(Updating, report, redact)
    requires d == ParseEntries(Deleting, report, redact)
    ensures BackendParse(report, redact) ==
      if c.Ok? && u.Ok? && d.Ok? && Claims(report, |c.value.labels|, |u.value.labels|, |d.value.labels|)
      then Ok(Parsed(c.value, u.value, d.value)) else Err
  {
    hide ParseEntries, Structured, Claimed;
  }

  /** parse_sanitized_runtime_diff as written: the three operations in turn, then the total. */
  method ParseSanitizedRuntimeDiff(report: Json, redact: Redactor) returns (r: Result<Parsed>)
    ensures r == BackendParse(report, redact)
  {
    hide ParsePart;
    if !Structured(report) {
      return Err;
    }
    var creating := ParseOperation(Creating, Entries(report, Creating), redact);
    if creating.Err? || Claimed(report, "creating") != Num(|creating.value.labels|) {
      return Err;
    }
    var updating := ParseOperation(Updating, Entries(report, Updating), redact);
    if updating.Err? || Claimed(report, "updating") != Num(|updating.value.labels|) {
      return Err;
    }
    var deleting := ParseOperation(Deleting, Entries(report, Deleting), redact);
    if deleting.Err? || Claimed(report, "deleting") != Num(|deleting.value.labels|) {
      return Err;
    }
    if Claimed(report, "total") != Num(|creating.value.labels| + |updating.value.labels| + |deleting.value.labels|) {
      return Err;
    }
    return Ok(Parsed(creating.value, updating.value, deleting.value));
  }
}
