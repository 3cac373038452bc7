/** validate_backend_scope of scripts/run-deck.py: a view is accepted for a plan only as the
    exact listing of the identities reviewed for that plan. */
module BackendScope {
  import opened Wrappers
  import opened Json
  import opened Sorting
  import opened DiffReport
  import opened BackendDiff
  import Bags

  const ADDITIVE_CREATES: set<Label> := {
    Label("service", "third-party-route-a-api"),
    Label("service", "third-party-route-b-api"),
    Label("route", "third-party-route-a"),
    Label("route", "third-party-route-b"),
    Label("plugin", "cors for service third-party-route-a-api"),
    Label("plugin", "openid-connect for service third-party-route-a-api"),
    Label("plugin", "request-transformer for service third-party-route-a-api"),
    Label("plugin", "cors for service third-party-route-b-api"),
    Label("plugin", "fapi-client-auth-bridge for service third-party-route-b-api"),
    Label("plugin", "openid-connect for service third-party-route-b-api"),
    Label("plugin", "request-transformer for service third-party-route-b-api")
  }

  const NEW_IDENTITIES: set<Label> := {
    Label("certificate", "742c3d79-850f-5761-9544-63864bab5cad"),
    Label("service", "third-party-static-ui"),
    Label("route", "third-party-static-ui"),
    Label("plugin", "request-transformer for service third-party-static-ui")
  }

  const UPDATED_IDENTITIES: set<Label> := {
    Label("service", "third-party-route-a-api"), Label("service", "third-party-route-b-api"),
    Label("plugin", "openid-connect for service third-party-route-a-api"),
    Label("plugin", "openid-connect for service third-party-route-b-api"),
    Label("plugin", "cors for service third-party-route-a-api"),
    Label("plugin", "cors for service third-party-route-b-api")
  }

  const RECOVERY_CREATES: set<Label> := {
    Label("route", "third-party-static-ui"),
    Label("plugin", "request-transformer for service third-party-static-ui")
  }

  const RECOVERY_UPDATES: set<Label> := {
    Label("plugin", "openid-connect for service third-party-route-a-api"),
    Label("plugin", "openid-connect for service third-party-route-b-api"),
    Label("plugin", "cors for service third-party-route-a-api"),
    Label("plugin", "cors for service third-party-route-b-api")
  }

  datatype Plan = Migration | Bootstrap | NoOp | Recovery

  function PlanName(p: Plan): string {
    match p
    case Migration => "migration"
    case Bootstrap => "bootstrap"
    case NoOp => "noop"
    case Recovery => "migration-recovery"
  }

  /** The plan_type of a receipt. */
  function PlanNamed(j: Json): Option<Plan> {
    if j == Str("migration") then Some(Migration)
    else if j == Str("bootstrap") then Some(Bootstrap)
    else if j == Str("noop") then Some(NoOp)
    else if j == Str("migration-recovery") then Some(Recovery)
    else None
  }

  function Reviewed(p: Plan, op: Operation): set<Label> {
    match (p, op)
    case (Migration, Creating) => NEW_IDENTITIES
    case (Migration, Updating) => UPDATED_IDENTITIES
    case (Bootstrap, Creating) => ADDITIVE_CREATES + NEW_IDENTITIES
    case (Recovery, Creating) => RECOVERY_CREATES
    case (Recovery, Updating) => RECOVERY_UPDATES
    case _ => {}
  }

  predicate IsLabel(j: Json) {
    j.Obj? && j.fields.Keys == {"kind", "name"} && j.fields["kind"].Str? && j.fields["name"].Str?
  }

  function LabelOf(j: Json): Label
    requires IsLabel(j)
  {
    Label(j.fields["kind"].s, j.fields["name"].s)
  }

  function LabelsOf(entries: seq<Json>): (r: seq<Label>)
    requires forall i :: 0 <= i < |entries| ==> IsLabel(entries[i])
    ensures |r| == |entries|
    ensures forall i :: 0 <= i < |entries| ==> r[i] == LabelOf(entries[i])
  {
    seq(|entries|, i requires 0 <= i < |entries| => LabelOf(entries[i]))
  }

  function Elements(xs: seq<Label>): set<Label> {
    set x | x in xs
  }

  /** One operation list against the identities reviewed for it. */
  predicate ListOk(entries: Json, expected: set<Label>) {
    && entries.Arr? && (forall i :: 0 <= i < |entries.items| ==> IsLabel(entries.items[i]))
    && var identities := LabelsOf(entries.items);
       |identities| == |expected| && Elements(identities) == expected && SortBy(identities, LabelKey) == identities
  }

  function Counts(creating: nat, updating: nat, deleting: nat): Object {
    map["creating" := Num(creating), "updating" := Num(updating), "deleting" := Num(deleting),
        "total" := Num(creating + updating + deleting)]
  }

  function PlanCounts(p: Plan): Object {
    Counts(|Reviewed(p, Creating)|, |Reviewed(p, Updating)|, |Reviewed(p, Deleting)|)
  }

  predicate PlanOk(operations: Json, p: Plan) {
    && operations.Obj? && operations.fields.Keys == {"summary", "operations"}
    && var actual := operations.fields["operations"];
       && actual.Obj? && actual.fields.Keys == OPERATION_NAMES
       && (forall op: Operation :: ListOk(actual.fields[NameOf(op)], Reviewed(p, op)))
       && operations.fields["summary"] == Obj(PlanCounts(p))
  }

  /** validate_backend_scope */
  predicate ScopeOk(operations: Json, planType: Json) {
    PlanNamed(planType).Some? && PlanOk(operations, PlanNamed(planType).value)
  }

  /* ---------------- what a list may be ---------------- */

  lemma {:induction false} FewerWithRepeats(xs: seq<Label>)
    ensures |Elements(xs)| <= |xs|
    ensures |Elements(xs)| == |xs| <==> NoRepeat(xs)
  {
    hide NoRepeat;
    if xs == [] {
      assert Elements(xs) == {};
      NothingRepeats();
    } else {
      var n := |xs| - 1;
      assert xs == xs[..n] + [xs[n]];
      FewerWithRepeats(xs[..n]);
      assert Elements(xs) == Elements(xs[..n]) + {xs[n]};
      RepeatsGrow(xs[..n], xs[n]);
    }
  }

  lemma {:induction false} RepeatsGrow(xs: seq<Label>, x: Label)
    ensures NoRepeat(xs + [x]) <==> NoRepeat(xs) && x !in xs
  {
    var all := xs + [x];
    assert forall i :: 0 <= i < |xs| ==> all[i] == xs[i];
    if x in xs {
      var i :| 0 <= i < |xs| && xs[i] == x;
      assert all[i] == all[|xs|];
    }
  }

  /** A list is accepted exactly when it is the sorted listing of the set without repetitions. */
  lemma {:induction false} ListExactly(entries: seq<Json>, expected: set<Label>)
    ensures ListOk(Arr(entries), expected) <==>
      && (forall i :: 0 <= i < |entries| ==> IsLabel(entries[i]))
      && NoRepeat(LabelsOf(entries)) && Elements(LabelsOf(entries)) == expected && Sorted(LabelsOf(entries), LabelKey)
  {
    hide IsLabel, LabelOf, LabelKey;
    if forall i :: 0 <= i < |entries| ==> IsLabel(entries[i]) {
      var identities := LabelsOf(entries);
      FewerWithRepeats(identities);
      SortSorts(identities, LabelKey);
      if Sorted(identities, LabelKey) {
        SortOfSorted(identities, LabelKey);
      }
    }
  }

  lemma {:induction false} LabelDecides(a: Json, b: Json)
    requires IsLabel(a) && IsLabel(b) && LabelOf(a) == LabelOf(b)
    ensures a == b
  {
    assert a.fields.Keys == b.fields.Keys;
    assert forall k :: k in a.fields ==> a.fields[k] == b.fields[k];
    assert a.fields == b.fields;
  }

  /** For each set there is one list at most. */
  lemma {:induction false} ListIsUnique(a: Json, b: Json, expected: set<Label>)
    requires ListOk(a, expected) && ListOk(b, expected)
    ensures a == b
  {
    hide IsLabel, LabelOf, LabelKey;
    ListExactly(a.items, expected);
    ListExactly(b.items, expected);
    var xs, ys := LabelsOf(a.items), LabelsOf(b.items);
    ApartLabels(xs);
    forall x ensures x in xs <==> x in ys {
      assert x in Elements(xs) <==> x in Elements(ys);
    }
    Bags.SameElementsSameBag(xs, ys);
    SortedIsUnique(xs, ys, LabelKey);
    forall i | 0 <= i < |xs| ensures a.items[i] == b.items[i] {
      LabelDecides(a.items[i], b.items[i]);
    }
  }

  /** A plan accepts one view and no other. */
  lemma {:induction false} PlanDecidesView(v: Json, w: Json, p: Plan)
    requires PlanOk(v, p) && PlanOk(w, p)
    ensures v == w
  {
    hide ListOk, Reviewed, PlanCounts;
    var a, b := v.fields["operations"].fields, w.fields["operations"].fields;
    forall op: Operation ensures a[NameOf(op)] == b[NameOf(op)] {
      ListIsUnique(a[NameOf(op)], b[NameOf(op)], Reviewed(p, op));
    }
    forall k | k in a ensures a[k] == b[k] {
      OperationNamed(k);
    }
    assert a == b;
    assert v.fields.Keys == w.fields.Keys;
    assert forall k :: k in v.fields ==> v.fields[k] == w.fields[k];
    assert v.fields == w.fields;
  }

  lemma {:induction false} OperationNamed(name: string)
    requires name in OPERATION_NAMES
    ensures exists op :: NameOf(op) == name
  {
    assert NameOf(Creating) == "creating" && NameOf(Updating) == "updating" && NameOf(Deleting) == "deleting";
  }

  /** The reviewed plans differ in what they create or update. */
  lemma {:induction false} PlansDiffer(p: Plan, q: Plan)
    requires Reviewed(p, Creating) == Reviewed(q, Creating) && Reviewed(p, Updating) == Reviewed(q, Updating)
    ensures p == q
  {
    var certificate := Label("certificate", "742c3d79-850f-5761-9544-63864bab5cad");
    var route := Label("route", "third-party-static-ui");
    var plugin := Label("plugin", "openid-connect for service third-party-route-a-api");
    assert certificate in Reviewed(Migration, Creating) && certificate in Reviewed(Bootstrap, Creating);
    assert certificate !in Reviewed(Recovery, Creating) by {
      assert |"certificate"| == 11 && |"route"| == 5 && |"plugin"| == 6;
    }
    assert route in Reviewed(Recovery, Creating) && Reviewed(NoOp, Creating) == {};
    assert plugin in Reviewed(Migration, Updating) && Reviewed(Bootstrap, Updating) == {};
  }

  /** No view is accepted for two plans. */
  lemma {:induction false} AtMostOnePlan(view: Json, p: Plan, q: Plan)
    requires PlanOk(view, p) && PlanOk(view, q)
    ensures p == q
  {
    hide Reviewed, IsLabel, LabelOf;
    var actual := view.fields["operations"].fields;
    assert ListOk(actual[NameOf(Creating)], Reviewed(p, Creating));
    assert ListOk(actual[NameOf(Creating)], Reviewed(q, Creating));
    assert ListOk(actual[NameOf(Updating)], Reviewed(p, Updating));
    assert ListOk(actual[NameOf(Updating)], Reviewed(q, Updating));
    PlansDiffer(p, q);
  }

  /* ---------------- the view of a parsed report ---------------- */

  function LabelJson(x: Label): Json { Obj(map["kind" := Str(x.kind), "name" := Str(x.name)]) }

  function ViewLabels(labels: seq<Label>): (r: seq<Json>)
    ensures |r| == |labels|
    ensures forall i :: 0 <= i < |labels| ==> r[i] == LabelJson(labels[i])
  {
    seq(|labels|, i requires 0 <= i < |labels| => LabelJson(labels[i]))
  }

  /** The first result of parse_sanitized_runtime_diff. */
  function View(p: Parsed): Json {
    Obj(map["summary" := Obj(Counts(|p.creating.labels|, |p.updating.labels|, |p.deleting.labels|)),
            "operations" := Obj(map["creating" := Arr(ViewLabels(p.creating.labels)),
                                    "updating" := Arr(ViewLabels(p.updating.labels)),
                                    "deleting" := Arr(ViewLabels(p.deleting.labels))])])
  }

  lemma {:induction false} ViewLabelsRead(labels: seq<Label>)
    ensures forall i :: 0 <= i < |labels| ==> IsLabel(ViewLabels(labels)[i])
    ensures LabelsOf(ViewLabels(labels)) == labels
  {
    forall i | 0 <= i < |labels| ensures IsLabel(ViewLabels(labels)[i]) && LabelOf(ViewLabels(labels)[i]) == labels[i] {
      LabelReads(labels[i]);
    }
  }

  lemma {:induction false} LabelReads(x: Label)
    ensures IsLabel(LabelJson(x)) && LabelOf(LabelJson(x)) == x
  {
  }

  /** The labels of a parsed operation are sorted and apart. */
  lemma {:induction false} ParsedLabels(report: Json, redact: Redactor, op: Operation)
    requires BackendParse(report, redact).Ok?
    ensures var labels := BackendParse(report, redact).value.Of(op).labels;
      NoRepeat(labels) && Sorted(labels, LabelKey)
  {
    BackendPart(report, redact, op);
    hide BackendParse, EntryFits, SafeLabel;
    var safe := SafeLabels(Entries(report, op).items, redact);
    SortSorts(safe, LabelKey);
    SortPermutes(safe, LabelKey);
    ApartLabels(safe);
    DistinctKeysPermute(safe, SortBy(safe, LabelKey), LabelKey);
  }

  lemma {:induction false} ParsedList(report: Json, redact: Redactor, op: Operation, expected: set<Label>)
    requires BackendParse(report, redact).Ok?
    ensures var labels := BackendParse(report, redact).value.Of(op).labels;
      ListOk(Arr(ViewLabels(labels)), expected) <==> Elements(labels) == expected
  {
    var labels := BackendParse(report, redact).value.Of(op).labels;
    hide BackendParse, IsLabel, LabelOf, ListOk;
    ParsedLabels(report, redact, op);
    ViewLabelsRead(labels);
    ListExactly(ViewLabels(labels), expected);
  }

  lemma {:induction false} ViewParts(p: Parsed)
    ensures var v := View(p);
      && v.Obj? && v.fields.Keys == {"summary", "operations"}
      && v.fields["summary"] == Obj(Counts(|p.creating.labels|, |p.updating.labels|, |p.deleting.labels|))
      && v.fields["operations"].Obj? && v.fields["operations"].fields.Keys == OPERATION_NAMES
      && (forall op: Operation :: v.fields["operations"].fields[NameOf(op)] == Arr(ViewLabels(p.Of(op).labels)))
  {
  }

  /** A parsed report is in a plan's scope exactly when, operation by operation, the identities
      it shows are the ones reviewed for that plan. */
  lemma {:induction false} ParsedInScope(report: Json, redact: Redactor, p: Plan)
    requires BackendParse(report, redact).Ok?
    ensures var parsed := BackendParse(report, redact).value;
      PlanOk(View(parsed), p) <==> (forall op: Operation :: Elements(parsed.Of(op).labels) == Reviewed(p, op))
  {
    var parsed := BackendParse(report, redact).value;
    hide BackendParse, View, ListOk, Reviewed, Counts, Elements;
    ViewParts(parsed);
    forall op: Operation ensures ListShown(parsed, p, op) <==> Elements(parsed.Of(op).labels) == Reviewed(p, op) {
      ParsedList(report, redact, op, Reviewed(p, op));
    }
    Shown(parsed, p);
    if forall op: Operation :: ListShown(parsed, p, op) {
      CountsFit(report, redact, p);
    }
  }

  predicate ListShown(parsed: Parsed, p: Plan, op: Operation) {
    ListOk(Arr(ViewLabels(parsed.Of(op).labels)), Reviewed(p, op))
  }

  lemma {:induction false} Shown(parsed: Parsed, p: Plan)
    ensures PlanOk(View(parsed), p) <==>
      && (forall op: Operation :: ListShown(parsed, p, op))
      && PlanCounts(p) == Counts(|parsed.creating.labels|, |parsed.updating.labels|, |parsed.deleting.labels|)
  {
    ViewParts(parsed);
    hide View, ListOk, Reviewed, Counts, PlanCounts;
    var actual := View(parsed).fields["operations"].fields;
    assert forall op: Operation :: ListShown(parsed, p, op) == ListOk(actual[NameOf(op)], Reviewed(p, op));
  }

  lemma {:induction false} CountsFit(report: Json, redact: Redactor, p: Plan)
    requires BackendParse(report, redact).Ok?
    requires forall op: Operation :: Elements(BackendParse(report, redact).value.Of(op).labels) == Reviewed(p, op)
    ensures var parsed := BackendParse(report, redact).value;
      PlanCounts(p) == Counts(|parsed.creating.labels|, |parsed.updating.labels|, |parsed.deleting.labels|)
  {
    var parsed := BackendParse(report, redact).value;
    hide BackendParse, Reviewed;
    forall op: Operation ensures |Reviewed(p, op)| == |parsed.Of(op).labels| {
      ParsedLabels(report, redact, op);
      FewerWithRepeats(parsed.Of(op).labels);
    }
    assert parsed.Of(Creating) == parsed.creating && parsed.Of(Updating) == parsed.updating;
    assert parsed.Of(Deleting) == parsed.deleting;
  }

  /* ---------------- each plan can be met ---------------- */

  /** Some order of the elements of a set. */
  lemma {:induction false} Listed(labels: set<Label>) returns (xs: seq<Label>)
    ensures NoRepeat(xs) && Elements(xs) == labels
    decreases |labels|
  {
    if labels == {} {
      xs := [];
    } else {
      var x :| x in labels;
      var rest := Listed(labels - {x});
      xs := rest + [x];
      assert Elements(xs) == Elements(rest) + {x} == labels;
      forall i, j | 0 <= i < j < |xs| ensures xs[i] != xs[j] {
        assert xs[i] in Elements(rest);
      }
    }
  }

  lemma {:induction false} ListExists(expected: set<Label>) returns (entries: seq<Json>)
    ensures ListOk(Arr(entries), expected)
  {
    hide LabelKey, IsLabel, LabelOf;
    var xs := Listed(expected);
    var sorted := SortBy(xs, LabelKey);
    ApartLabels(xs);
    SortPermutes(xs, LabelKey);
    SortSorts(xs, LabelKey);
    DistinctKeysPermute(xs, sorted, LabelKey);
    forall x ensures x in sorted <==> x in xs {
      assert x in multiset(sorted) <==> x in multiset(xs);
    }
    assert Elements(sorted) == expected;
    forall i, j | 0 <= i < j < |sorted| ensures sorted[i] != sorted[j] {
      assert LabelKey(sorted[i]) != LabelKey(sorted[j]);
    }
    entries := ViewLabels(sorted);
    ViewLabelsRead(sorted);
    ListExactly(entries, expected);
  }

  /** Every plan has the one view that meets it. */
  lemma {:induction false} EveryPlanHasAView(p: Plan) returns (view: Json)
    ensures PlanOk(view, p) && forall w :: PlanOk(w, p) ==> w == view
  {
    var creating := ListExists(Reviewed(p, Creating));
    var updating := ListExists(Reviewed(p, Updating));
    var deleting := ListExists(Reviewed(p, Deleting));
    var lists := Obj(map["creating" := Arr(creating), "updating" := Arr(updating), "deleting" := Arr(deleting)]);
    view := Obj(map["summary" := Obj(PlanCounts(p)), "operations" := lists]);
    hide ListOk, Reviewed, PlanCounts;
    forall op: Operation ensures ListOk(lists.fields[NameOf(op)], Reviewed(p, op)) {
      match op
      case Creating =>
      case Updating =>
      case Deleting =>
    }
    forall w | PlanOk(w, p) ensures w == view {
      PlanDecidesView(w, view, p);
    }
  }
}
