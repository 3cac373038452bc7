/** What the launcher's steps guarantee over every run, whatever the files do between two reads. */
module LauncherTheorems {
  import opened Wrappers
  import opened Json
  import opened DiffReport
  import opened MigrationScope
  import opened MigrationGraph
  import opened MigrationApproval
  import opened BackendDiff
  import opened BackendScope
  import opened Launcher
  import opened MigrationWitness

  /* ---------------- order ---------------- */

  /** A trace that stays inside the script syncs at most once, as its very last step, after every
      other step of the script; the receipt gates come before the token, the diff after it. */
  lemma {:induction false} SyncComesLastAndOnce(a: Args, trace: seq<Step>, i: nat)
    requires trace <= Script(a) && i < |trace|
    ensures trace[i] == Deck(Sync) ==> a.mode.SyncMode? && trace == Script(a) && i == |trace| - 1
    ensures trace[i] == Token && a.Reviewed() ==> i == 4 && trace[..4] == [LocalManifest, Flag, Roles, Receipt]
    ensures trace[i] == Deck(Diff) && a.Reviewed() ==> Token in trace[..i]
  {
    var local, remote, gates := LocalScript(a), RemoteScript(a), GateScript(a);
    assert trace[i] == Script(a)[i];
    if a.Reviewed() && i > 4 {
      assert trace[4] == Script(a)[4] == Token;
      assert trace[..i][4] == Token;
    }
    if i < |local| {
      assert trace[i] == local[i];
    } else if i < |local| + |remote| {
      assert trace[i] == remote[i - |local|];
    } else if i < |local| + |remote| + |gates| {
      assert trace[i] == gates[i - |local| - |remote|];
    }
  }

  /** Without a reviewed runtime sync no receipt is read, and a diff run never syncs. */
  lemma {:induction false} DiffNeverSyncs(a: Args, w: World, sha: Sha)
    requires a.mode.DiffMode?
    ensures Deck(Sync) !in Script(a) && Receipt !in Script(a)
    ensures Ending(a, w, sha) != OutcomeUnknown
  {
    hide ReadDiff;
  }

  /** The two ways in which a run fails although its command was started: decK's output does not
      decode, or the run cannot print its own last lines after decK exited with zero. */
  predicate FailsAfterwards(w: World) {
    w.command.Garbled? || (w.command.Exited? && w.command.code == 0 && !w.printed)
  }

  /** What the two results of a launch say together, exactly. A reviewed run reports failure if and
      only if it started no sync or fails afterwards in one of the two ways; success if and only if
      a started sync exited with zero and the run could say so; and an unknown outcome otherwise.
      No other run has an unknown outcome. */
  lemma {:induction false} VerdictExactly(a: Args, w: World, sha: Sha, trace: seq<Step>, outcome: Outcome)
    requires trace <= Script(a) && (trace == Script(a) <==> Cleared(a, w, sha))
    requires outcome == if Cleared(a, w, sha) then Ending(a, w, sha) else Failed
    ensures Deck(Sync) in trace <==> a.mode.SyncMode? && Cleared(a, w, sha)
    ensures a.Reviewed() ==> (outcome == Failed <==> Deck(Sync) !in trace || FailsAfterwards(w))
    ensures a.Reviewed() ==>
      (outcome == Finished(0) <==> Deck(Sync) in trace && w.command.Exited? && w.command.code == 0 && w.printed)
    ensures a.Reviewed() ==> outcome in {Failed, OutcomeUnknown, Finished(0)}
    ensures outcome == OutcomeUnknown ==> a.Reviewed() && Deck(Sync) in trace
  {
    hide ReadDiff, Cleared, LocalScript, RemoteScript, GateScript;
    if Deck(Sync) in trace {
      var i :| 0 <= i < |trace| && trace[i] == Deck(Sync);
      SyncComesLastAndOnce(a, trace, i);
    }
    if a.mode.SyncMode? && Cleared(a, w, sha) {
      assert trace[|trace| - 1] == Deck(Sync);
    }
  }

  /* ---------------- what a sync may change ---------------- */

  lemma {:induction false} ReadingOfReport(a: Args, report: Json, redact: Redactor, sha: Sha, r: Report)
    requires a.gateway.Api? && Accept(report) == Ok(r)
    ensures WellParsed(r)
    ensures ReadDiff(a, report, redact, sha)
         == Ok(Reading(ViewSummary(r), ViewOperations(r), sha.json(CanonicalJson(r))))
  {
    AcceptedParsed(report, r);
    hide Accept, ViewSummary, ViewOperations, CanonicalJson;
  }

  lemma {:induction false} ReceiptFacts(a: Args, w: World, sha: Sha)
    requires a.gateway.Api? && a.Reviewed() && Cleared(a, w, sha)
    ensures w.manifest.Ok? && w.roles.Ok? && w.stateAtReceipt.Ok? && FirstReceipt(a, w, sha) == w.receipt
    ensures w.receipt.Ok?
    ensures MigrationReceiptOk(w.receipt.value, Get(w.manifest.value, "control_plane_id"), w.stateAtReceipt.value,
                               w.roles.value, sha)
    ensures DiffOk(a, w, w.receipt.value, sha) && FreshOk(a, w, w.receipt.value, sha)
  {
    hide MigrationReceiptOk, DiffOk, FreshOk;
  }

  lemma {:induction false} SyncedReport(a: Args, w: World, sha: Sha) returns (r: Report)
    requires a.gateway.Api? && a.Reviewed() && Cleared(a, w, sha)
    ensures CleanRun(w.diff) && Accept(w.diff.stdout.value) == Ok(r) && WellParsed(r)
    ensures w.receipt.Ok? && w.receipt.value.Obj? && w.receipt.value.fields.Keys == MIGRATION_FIELDS
    ensures SameReading(Reading(ViewSummary(r), ViewOperations(r), sha.json(CanonicalJson(r))), w.receipt.value.fields)
    ensures ReceiptAccepts(ViewSummary(r), ViewOperations(r))
  {
    ReceiptFacts(a, w, sha);
    hide Cleared, ReceiptAccepts, Accept, ViewSummary, ViewOperations, CanonicalJson, IsDigest;
    r := Accept(w.diff.stdout.value).value;
    ReadingOfReport(a, w.diff.stdout.value, w.redact, sha, r);
  }

  /** An API runtime sync is only ever started for a migration: the diffed report is no no-op and
      deletes exactly the two closed tag classes, and the receipt carries its view and digest. */
  lemma {:induction false} ApiSyncIsTheReviewedMigration(a: Args, w: World, sha: Sha) returns (r: Report)
    requires a.gateway.Api? && a.Reviewed() && Cleared(a, w, sha)
    ensures CleanRun(w.diff) && Accept(w.diff.stdout.value) == Ok(r) && WellParsed(r) && !r.Empty()
    ensures CreatesTheSix(r.creating) && r.updating == [] && TwoClosedClasses(r.deleting)
    ensures NothingCreatedIsDeleted(r.creating, r.deleting)
    ensures w.receipt.Ok? && w.receipt.value.Obj? && w.receipt.value.fields.Keys == MIGRATION_FIELDS
    ensures SameReading(Reading(ViewSummary(r), ViewOperations(r), sha.json(CanonicalJson(r))), w.receipt.value.fields)
  {
    r := SyncedReport(a, w, sha);
    hide *;
    AcceptedViewPassesReceipt(w.diff.stdout.value, r);
    AcceptedIsClosedGraph(w.diff.stdout.value, r);
  }

  lemma {:induction false} BackendFacts(a: Args, w: World, sha: Sha)
    requires a.gateway.ThirdParty? && a.Reviewed() && Cleared(a, w, sha)
    ensures w.manifest.Ok? && w.roles.Ok? && w.stateAtReceipt.Ok? && FirstReceipt(a, w, sha) == w.receipt
    ensures w.receipt.Ok?
    ensures BackendReceiptOk(w.receipt.value, w.manifest.value, w.stateAtReceipt.value, w.roles.value, sha)
    ensures ValidationOk(w) && DiffOk(a, w, w.receipt.value, sha) && FreshOk(a, w, w.receipt.value, sha)
  {
    hide BackendReceiptOk, DiffOk, FreshOk;
  }

  /** A third-party runtime sync is only ever started for one of the reviewed plans, the one the
      receipt names; operation by operation the diff shows exactly its identities, so nothing is
      ever deleted. */
  lemma {:induction false} BackendSyncIsAReviewedPlan(a: Args, w: World, sha: Sha) returns (p: Plan, parsed: Parsed)
    requires a.gateway.ThirdParty? && a.Reviewed() && Cleared(a, w, sha)
    ensures w.receipt.Ok? && w.receipt.value.Obj? && "plan_type" in w.receipt.value.fields
    ensures PlanNamed(Get(w.receipt.value.fields, "plan_type")) == Some(p)
    ensures CleanRun(w.diff) && BackendParse(w.diff.stdout.value, w.redact) == Ok(parsed)
    ensures forall op: Operation :: Elements(parsed.Of(op).labels) == Reviewed(p, op)
    ensures forall q: Plan :: PlanOk(View(parsed), q) <==> q == p
    ensures w.receipt.value.fields.Keys == BACKEND_FIELDS
      && Get(w.receipt.value.fields, "diff_sha256") == Str(sha.json(CanonicalJson(parsed.Hashed())))
  {
    BackendFacts(a, w, sha);
    hide Cleared, FreshOk, IsDigest, PlanOk, CanonicalJson, BackendParse, View;
    var receipt := w.receipt.value;
    p := PlanNamed(Get(receipt.fields, "plan_type")).value;
    parsed := BackendParse(w.diff.stdout.value, w.redact).value;
    BackendScope.ViewParts(parsed);
    ViewIsTheReceipts(parsed, receipt);
    hide BackendReceiptOk, ScopeOk, DiffOk, Reviewed, Elements;
    ParsedInScope(w.diff.stdout.value, w.redact, p);
    forall q: Plan ensures PlanOk(View(parsed), q) <==> q == p {
      if PlanOk(View(parsed), q) {
        AtMostOnePlan(View(parsed), p, q);
      }
    }
  }

  predicate SameView(view: Json, receipt: Object) {
    && view.Obj? && view.fields.Keys == {"summary", "operations"} && receipt.Keys == BACKEND_FIELDS
    && view.fields["summary"] == Get(receipt, "summary") && view.fields["operations"] == Get(receipt, "operations")
  }

  lemma {:induction false} ViewIsTheReceipts(parsed: Parsed, receipt: Json)
    requires receipt.Obj? && receipt.fields.Keys == BACKEND_FIELDS
    requires SameView(View(parsed), receipt.fields)
    ensures View(parsed) == BackendOperations(receipt)
  {
    hide View;
    assert View(parsed).fields == BackendOperations(receipt).fields;
  }

  /* ---------------- what was reviewed is what is used ---------------- */

  /** Two different files with one digest. */
  predicate FilesCollide(sha: Sha, x: string, y: string) { x != y && sha.file(x) == sha.file(y) }

  /** Two different JSON values with one digest. */
  predicate ValuesCollide(sha: Sha, x: Json, y: Json) { x != y && sha.json(x) == sha.json(y) }

  /** State file and role inputs as last read before a reviewed sync are the ones the receipt was
      checked against before the token was read, or they collide with them; on the third-party
      branch so is the target, and the receipt itself did not change. */
  lemma {:induction false} ReviewedInputsAreUsed(a: Args, w: World, sha: Sha)
    requires a.Reviewed() && Cleared(a, w, sha)
    ensures w.freshState.Ok? && w.stateAtReceipt.Ok?
    ensures w.freshState == w.stateAtReceipt || FilesCollide(sha, w.freshState.value, w.stateAtReceipt.value)
    ensures w.freshRoles.Ok? && w.roles.Ok?
    ensures w.freshRoles == w.roles || ValuesCollide(sha, w.freshRoles.value, w.roles.value)
    ensures a.gateway.ThirdParty? ==>
      && w.freshReceipt == w.receipt && w.freshManifest.Ok? && w.manifest.Ok?
      && (w.freshManifest == w.manifest || ValuesCollide(sha, Obj(w.freshManifest.value), Obj(w.manifest.value)))
  {
    if a.gateway.Api? {
      ReceiptFacts(a, w, sha);
      hide Cleared, DiffOk, ReadReceipt, FirstReceipt, ReceiptAccepts, IsDigest;
    } else {
      BackendFacts(a, w, sha);
      BackendUsed(a, w, sha);
    }
  }

  lemma {:induction false} BackendUsed(a: Args, w: World, sha: Sha)
    requires a.gateway.ThirdParty?
    requires w.manifest.Ok? && w.roles.Ok? && w.stateAtReceipt.Ok? && w.receipt.Ok?
    requires BackendReceiptOk(w.receipt.value, w.manifest.value, w.stateAtReceipt.value, w.roles.value, sha)
    requires FreshOk(a, w, w.receipt.value, sha)
    ensures w.freshState.Ok? && sha.file(w.freshState.value) == sha.file(w.stateAtReceipt.value)
    ensures w.freshRoles.Ok? && sha.json(w.freshRoles.value) == sha.json(w.roles.value)
    ensures w.freshManifest.Ok? && sha.json(Obj(w.freshManifest.value)) == sha.json(Obj(w.manifest.value))
    ensures w.freshReceipt == w.receipt
  {
    SameReceiptRead(a, w.freshReceipt, w.stateAtFreshReceipt, w.freshManifest.value, w.freshRoles.value, sha);
    hide ReadReceipt, ScopeOk, IsDigest;
  }

  /** A receipt that is read is the file's content. */
  lemma {:induction false} SameReceiptRead(a: Args, raw: Result<Json>, state: Result<string>, target: Object,
                                           roles: Json, sha: Sha)
    ensures ReadReceipt(a, raw, state, target, roles, sha).Ok? ==> ReadReceipt(a, raw, state, target, roles, sha) == raw
  {
    hide MigrationReceiptOk, BackendReceiptOk;
  }

  lemma {:induction false} CanonicalDecides(x: Report, y: Report)
    requires CanonicalJson(x) == CanonicalJson(y)
    ensures x == y
  {
    hide ViewSummary;
    assert CanonicalJson(x).fields["changes"] == CanonicalJson(y).fields["changes"];
    var c, d := CanonicalJson(x).fields["changes"].fields, CanonicalJson(y).fields["changes"].fields;
    assert c["creating"] == d["creating"] && c["updating"] == d["updating"] && c["deleting"] == d["deleting"];
  }

  /** The value whose digest the diff's reading carries. */
  function HashedValue(a: Args, report: Json, redact: Redactor): Result<Json> {
    if a.gateway.Api? then
      var r :- Accept(report);
      Ok(CanonicalJson(r))
    else
      var p :- BackendParse(report, redact);
      Ok(CanonicalJson(p.Hashed()))
  }

  /** Two runs that sync under one receipt diffed the same change: their reports are
      rearrangements of each other, or the two values hashed for them collide. */
  lemma {:induction false} OneReceiptOneChange(a: Args, v: World, w: World, sha: Sha)
    requires a.Reviewed() && Cleared(a, v, sha) && Cleared(a, w, sha) && v.receipt == w.receipt
    ensures CleanRun(v.diff) && CleanRun(w.diff)
    ensures HashedValue(a, v.diff.stdout.value, v.redact).Ok? && HashedValue(a, w.diff.stdout.value, w.redact).Ok?
    ensures (forall op :: Bag(v.diff.stdout.value, op) == Bag(w.diff.stdout.value, op))
         || ValuesCollide(sha, HashedValue(a, v.diff.stdout.value, v.redact).value,
                          HashedValue(a, w.diff.stdout.value, w.redact).value)
  {
    hide Cleared, Bag;
    if a.gateway.Api? {
      OneMigration(a, v, w, sha);
    } else {
      OneBackendChange(a, v, w, sha);
    }
  }

  lemma {:induction false} OneDigest(x: Reading, y: Reading, receipt: Object)
    requires receipt.Keys == MIGRATION_FIELDS && SameReading(x, receipt) && SameReading(y, receipt)
    ensures x.digest == y.digest
  {
  }

  lemma {:induction false} OneMigration(a: Args, v: World, w: World, sha: Sha)
    requires a.gateway.Api? && a.Reviewed() && Cleared(a, v, sha) && Cleared(a, w, sha) && v.receipt == w.receipt
    ensures CleanRun(v.diff) && CleanRun(w.diff)
    ensures var x, y := HashedValue(a, v.diff.stdout.value, v.redact), HashedValue(a, w.diff.stdout.value, w.redact);
      && x.Ok? && y.Ok? && sha.json(x.value) == sha.json(y.value)
      && (x == y ==> forall op :: Bag(v.diff.stdout.value, op) == Bag(w.diff.stdout.value, op))
  {
    var r := SyncedReport(a, v, sha);
    var t := SyncedReport(a, w, sha);
    var x, y := v.diff.stdout.value, w.diff.stdout.value;
    hide Cleared, Accept, CanonicalJson, ViewSummary, ViewOperations, WellParsed, ReceiptAccepts, Bag, SameReading;
    OneDigest(Reading(ViewSummary(r), ViewOperations(r), sha.json(CanonicalJson(r))),
              Reading(ViewSummary(t), ViewOperations(t), sha.json(CanonicalJson(t))), v.receipt.value.fields);
    if CanonicalJson(r) == CanonicalJson(t) {
      CanonicalDecides(r, t);
      AcceptedParsed(x, r);
      AcceptedParsed(y, t);
      SameContentIffPermuted(x, y);
    }
  }

  lemma {:induction false} OneBackendChange(a: Args, v: World, w: World, sha: Sha)
    requires a.gateway.ThirdParty? && a.Reviewed() && Cleared(a, v, sha) && Cleared(a, w, sha) && v.receipt == w.receipt
    ensures CleanRun(v.diff) && CleanRun(w.diff)
    ensures var x, y := HashedValue(a, v.diff.stdout.value, v.redact), HashedValue(a, w.diff.stdout.value, w.redact);
      && x.Ok? && y.Ok? && sha.json(x.value) == sha.json(y.value)
      && (x == y ==> forall op :: Bag(v.diff.stdout.value, op) == Bag(w.diff.stdout.value, op))
  {
    var p, r := BackendSyncIsAReviewedPlan(a, v, sha);
    var q, t := BackendSyncIsAReviewedPlan(a, w, sha);
    hide Cleared, BackendParse, CanonicalJson, View, PlanOk, Reviewed, Elements, PlanNamed, Bag;
    if CanonicalJson(r.Hashed()) == CanonicalJson(t.Hashed()) {
      CanonicalDecides(r.Hashed(), t.Hashed());
      HashHoldsTheBags(v.diff.stdout.value, v.redact);
      HashHoldsTheBags(w.diff.stdout.value, w.redact);
    }
  }

  /* ---------------- an honest review goes through ---------------- */

  /** The receipt a human writes from what a diff run prints. */
  function WriteReceipt(a: Args, target: Object, state: string, roles: Json, reading: Reading, plan: Plan,
                        sha: Sha): Json {
    if a.gateway.Api? then
      Obj(map["schema_version" := Num(1), "scope" := Str("api-runtime-migration"), "approved" := Bool(true),
              "control_plane_id" := Get(target, "control_plane_id"), "state_sha256" := Str(sha.file(state)),
              "role_inputs_sha256" := Str(sha.json(roles)), "diff_sha256" := Str(reading.digest),
              "summary" := reading.summary, "operations" := reading.operations])
    else
      Obj(map["schema_version" := Num(2), "scope" := Str("third-party-backend-runtime-v2"), "approved" := Bool(true),
              "target_sha256" := Str(sha.json(Obj(target))), "state_sha256" := Str(sha.file(state)),
              "role_inputs_sha256" := Str(sha.json(roles)), "diff_sha256" := Str(reading.digest),
              "summary" := reading.summary, "operations" := reading.operations, "plan_type" := Str(PlanName(plan))])
  }

  /** Every digest is 64 hexadecimal digits. */
  ghost predicate Hexadecimal(sha: Sha) {
    && (forall x :: IsDigest(Str(sha.json(x))))
    && (forall x :: IsDigest(Str(sha.file(x))))
  }

  /** Nothing changes while the run is under way, every remote check passes and the diff before
      the sync reads the same as the one that was reviewed. */
  predicate Undisturbed(a: Args, w: World, reading: Reading, plan: Plan, sha: Sha) {
    && w.manifest.Ok? && w.statePresent && w.flag && w.roles.Ok? && w.stateAtReceipt.Ok? && RemoteOk(a, w)
    && ValidationOk(w)
    && Get(w.manifest.value, "control_plane_id").Str?
    && w.receipt == Ok(WriteReceipt(a, w.manifest.value, w.stateAtReceipt.value, w.roles.value, reading, plan, sha))
    && CleanRun(w.diff) && ReadDiff(a, w.diff.stdout.value, w.redact, sha) == Ok(reading)
    && w.freshManifest == w.manifest && w.freshRoles == w.roles && w.freshReceipt == w.receipt
    && w.freshState == w.stateAtReceipt && w.stateAtFreshReceipt == w.stateAtReceipt && w.announced
  }

  /** A sync whose receipt was written from an undisturbed diff is started exactly when that
      diff is a migration, that is, anything but a no-op. */
  lemma {:induction false} HonestApiReviewSyncs(a: Args, w: World, r: Report, sha: Sha, plan: Plan)
    requires a.Reviewed() && a.gateway.Api? && Hexadecimal(sha) && w.diff.Exited? && w.diff.stdout.Ok?
    requires Accept(w.diff.stdout.value) == Ok(r) && WellParsed(r)
    requires Undisturbed(a, w, Reading(ViewSummary(r), ViewOperations(r), sha.json(CanonicalJson(r))), plan, sha)
    ensures Cleared(a, w, sha) <==> !r.Empty()
  {
    AcceptedViewPassesReceipt(w.diff.stdout.value, r);
    var reading := Reading(ViewSummary(r), ViewOperations(r), sha.json(CanonicalJson(r)));
    hide Accept, WellParsed, ReceiptAccepts, ViewSummary, ViewOperations, CanonicalJson, RemoteOk;
    assert IsDigest(Str(reading.digest));
    HonestMigration(a, w.manifest.value, w.stateAtReceipt.value, w.roles.value, reading, plan, sha);
    ReceiptDecides(a, w, reading, plan, sha);
  }

  /** The migration receipt written from a reading is accepted exactly when its view is. */
  lemma {:induction false} HonestMigration(a: Args, target: Object, state: string, roles: Json, reading: Reading,
                                           plan: Plan, sha: Sha)
    requires a.gateway.Api? && Hexadecimal(sha) && Get(target, "control_plane_id").Str? && IsDigest(Str(reading.digest))
    ensures MigrationReceiptOk(WriteReceipt(a, target, state, roles, reading, plan, sha),
                               Get(target, "control_plane_id"), state, roles, sha)
       <==> ReceiptAccepts(reading.summary, reading.operations)
  {
    assert IsDigest(Str(sha.json(roles))) && IsDigest(Str(sha.file(state)));
    WrittenMigration(a, target, state, roles, reading, plan, sha);
    hide ReceiptAccepts, IsDigest, Hexadecimal, WriteReceipt;
  }

  lemma {:induction false} WrittenMigration(a: Args, target: Object, state: string, roles: Json, reading: Reading,
                                            plan: Plan, sha: Sha)
    requires a.gateway.Api?
    ensures var receipt := WriteReceipt(a, target, state, roles, reading, plan, sha);
      && receipt.Obj? && receipt.fields.Keys == MIGRATION_FIELDS
      && var f := receipt.fields;
         && Get(f, "schema_version") == Num(1) && Get(f, "scope") == Str("api-runtime-migration")
         && Get(f, "approved") == Bool(true)
         && Get(f, "control_plane_id") == Get(target, "control_plane_id")
         && Get(f, "state_sha256") == Str(sha.file(state))
         && Get(f, "role_inputs_sha256") == Str(sha.json(roles)) && Get(f, "diff_sha256") == Str(reading.digest)
         && Get(f, "summary") == reading.summary && Get(f, "operations") == reading.operations
  {
  }

  /** In an undisturbed run the receipt is the only gate left. */
  lemma {:induction false} ReceiptDecides(a: Args, w: World, reading: Reading, plan: Plan, sha: Sha)
    requires a.Reviewed() && Undisturbed(a, w, reading, plan, sha)
    ensures Cleared(a, w, sha) <==> FirstReceipt(a, w, sha).Ok?
  {
    hide RemoteOk, ReadDiff, MigrationReceiptOk, BackendReceiptOk, IsDigest, WriteReceipt, DiffOk, FreshOk;
    if FirstReceipt(a, w, sha).Ok? {
      WrittenReceipt(a, w.manifest.value, w.stateAtReceipt.value, w.roles.value, reading, plan, sha);
      ReadAgain(a, w, reading, plan, sha);
    }
  }

  /** What a written receipt says of its inputs and of the diff. */
  lemma {:induction false} WrittenReceipt(a: Args, target: Object, state: string, roles: Json, reading: Reading,
                                          plan: Plan, sha: Sha)
    ensures var receipt := WriteReceipt(a, target, state, roles, reading, plan, sha);
      && receipt.Obj? && receipt.fields.Keys == (if a.gateway.Api? then MIGRATION_FIELDS else BACKEND_FIELDS)
      && var f := receipt.fields;
         && Get(f, "state_sha256") == Str(sha.file(state)) && Get(f, "role_inputs_sha256") == Str(sha.json(roles))
         && (a.gateway.ThirdParty? ==> Get(f, "target_sha256") == Str(sha.json(Obj(target))))
         && SameReading(reading, f)
  {
    hide WriteReceipt;
    if a.gateway.Api? {
      WrittenMigration(a, target, state, roles, reading, plan, sha);
    } else {
      WrittenBackend(a, target, state, roles, reading, plan, sha);
    }
  }

  /** The diff and the inputs read again are the ones the receipt was written from. */
  lemma {:induction false} ReadAgain(a: Args, w: World, reading: Reading, plan: Plan, sha: Sha)
    requires a.Reviewed() && Undisturbed(a, w, reading, plan, sha) && FirstReceipt(a, w, sha).Ok?
    ensures FirstReceipt(a, w, sha) == w.receipt
    ensures DiffOk(a, w, w.receipt.value, sha) && FreshOk(a, w, w.receipt.value, sha)
  {
    WrittenReceipt(a, w.manifest.value, w.stateAtReceipt.value, w.roles.value, reading, plan, sha);
    hide RemoteOk, ReadDiff, MigrationReceiptOk, BackendReceiptOk, WriteReceipt, SameReading;
  }

  /** A sync whose receipt was written from an undisturbed diff for a plan is started exactly
      when the diff shows, operation by operation, the identities reviewed for that plan. */
  lemma {:induction false} HonestBackendReviewSyncs(a: Args, w: World, parsed: Parsed, plan: Plan, sha: Sha)
    requires a.Reviewed() && a.gateway.ThirdParty? && Hexadecimal(sha) && w.diff.Exited? && w.diff.stdout.Ok?
    requires BackendParse(w.diff.stdout.value, w.redact) == Ok(parsed)
    requires View(parsed).Obj? && View(parsed).fields.Keys == {"summary", "operations"}
    requires Undisturbed(a, w, Reading(View(parsed).fields["summary"], View(parsed).fields["operations"],
                                       sha.json(CanonicalJson(parsed.Hashed()))), plan, sha)
    ensures Cleared(a, w, sha) <==> (forall op: Operation :: Elements(parsed.Of(op).labels) == Reviewed(plan, op))
  {
    var reading := Reading(View(parsed).fields["summary"], View(parsed).fields["operations"],
                           sha.json(CanonicalJson(parsed.Hashed())));
    assert IsDigest(Str(reading.digest));
    hide BackendParse, View, CanonicalJson, RemoteOk, Reviewed, Elements, PlanOk, Hexadecimal;
    hide Cleared, WriteReceipt, BackendReceiptOk, MigrationReceiptOk, IsDigest, ReadDiff;
    ParsedInScope(w.diff.stdout.value, w.redact, plan);
    ReceiptDecides(a, w, reading, plan, sha);
    assert View(parsed).fields == map["summary" := reading.summary, "operations" := reading.operations];
    HonestBackend(a, w.manifest.value, w.stateAtReceipt.value, w.roles.value, reading, plan, sha);
  }

  lemma {:induction false} HonestBackend(a: Args, target: Object, state: string, roles: Json, reading: Reading,
                                         plan: Plan, sha: Sha)
    requires a.gateway.ThirdParty? && IsDigest(Str(reading.digest))
    ensures BackendReceiptOk(WriteReceipt(a, target, state, roles, reading, plan, sha), target, state, roles, sha)
       <==> PlanOk(Obj(map["summary" := reading.summary, "operations" := reading.operations]), plan)
  {
    hide PlanOk, IsDigest, WriteReceipt, PlanName, PlanNamed;
    PlanIsNamed(plan);
    WrittenBackend(a, target, state, roles, reading, plan, sha);
  }

  lemma {:induction false} WrittenBackend(a: Args, target: Object, state: string, roles: Json, reading: Reading,
                                          plan: Plan, sha: Sha)
    requires a.gateway.ThirdParty?
    ensures var receipt := WriteReceipt(a, target, state, roles, reading, plan, sha);
      && receipt.Obj? && receipt.fields.Keys == BACKEND_FIELDS
      && BackendOperations(receipt) == Obj(map["summary" := reading.summary, "operations" := reading.operations])
      && var f := receipt.fields;
         && Get(f, "schema_version") == Num(2) && Get(f, "scope") == Str("third-party-backend-runtime-v2")
         && Get(f, "approved") == Bool(true) && Get(f, "plan_type") == Str(PlanName(plan))
         && Get(f, "target_sha256") == Str(sha.json(Obj(target))) && Get(f, "state_sha256") == Str(sha.file(state))
         && Get(f, "role_inputs_sha256") == Str(sha.json(roles)) && Get(f, "diff_sha256") == Str(reading.digest)
         && Get(f, "summary") == reading.summary && Get(f, "operations") == reading.operations
  {
    hide PlanName;
  }

  lemma {:induction false} PlanIsNamed(plan: Plan)
    ensures PlanNamed(Str(PlanName(plan))) == Some(plan)
  {
  }

  /* ---------------- a sync that is reported as failure ---------------- */

  const DIGEST: string := seq(64, i requires 0 <= i < 64 => '0')

  lemma {:induction false} DigestIsHexadecimal(sha: Sha)
    requires (forall x :: sha.json(x) == DIGEST) && forall x :: sha.file(x) == DIGEST
    ensures Hexadecimal(sha)
  {
    assert IsDigest(Str(DIGEST));
    hide IsDigest, DIGEST;
  }

  lemma {:induction false} SomeMigration() returns (report: Json, r: Report)
    ensures Accept(report) == Ok(r) && WellParsed(r) && !r.Empty()
  {
    hide *;
    var ids := UsableIdsExist();
    UsableAreThirteen(ids);
    report := ReportOf(ids);
    EveryMigrationIsAccepted(ids);
    r := Accept(report).value;
    AcceptedParsed(report, r);
  }

  /** A world in which nothing changes and the diff reads like the receipt. */
  function QuietWorld(a: Args, report: Json, redact: Redactor, reading: Reading, sha: Sha, command: Run,
                      printed: bool): World {
    var target: Object := map["control_plane_id" := Str("c")];
    var receipt := Ok(WriteReceipt(a, target, "", Null, reading, NoOp, sha));
    World(Ok(target), true, true, Ok(Null), receipt, Ok(""), true, true, true, true, true, redact,
          Exited(0, true, Err), Exited(0, true, Ok(report)), Ok(target), Ok(Null), receipt, Ok(""), Ok(""),
          true, command, printed)
  }

  lemma {:induction false} QuietIsUndisturbed(a: Args, report: Json, redact: Redactor, reading: Reading, sha: Sha,
                                              command: Run, printed: bool)
    requires ReadDiff(a, report, redact, sha) == Ok(reading)
    ensures Undisturbed(a, QuietWorld(a, report, redact, reading, sha, command, printed), reading, NoOp, sha)
  {
    hide ReadDiff, WriteReceipt;
  }

  lemma {:induction false} SyncIsScripted(a: Args)
    requires a.mode.SyncMode?
    ensures Deck(Sync) in Script(a)
  {
    hide LocalScript, RemoteScript, GateScript;
    assert Script(a)[|Script(a)| - 1] == Deck(Sync);
  }

  /** A quiet world of an accepted report that is no no-op is cleared. */
  lemma {:induction false} QuietIsCleared(a: Args, report: Json, r: Report, redact: Redactor, sha: Sha,
                                          command: Run, printed: bool)
    returns (w: World)
    requires a.Reviewed() && a.gateway.Api? && Hexadecimal(sha)
    requires Accept(report) == Ok(r) && WellParsed(r) && !r.Empty()
    ensures Cleared(a, w, sha) && w.command == command && w.printed == printed
  {
    hide Accept, WellParsed, ReadDiff, CanonicalJson, ViewSummary, ViewOperations, Cleared, Undisturbed, Hexadecimal;
    hide WriteReceipt;
    ReadingOfReport(a, report, redact, sha, r);
    var reading := Reading(ViewSummary(r), ViewOperations(r), sha.json(CanonicalJson(r)));
    w := QuietWorld(a, report, redact, reading, sha, command, printed);
    QuietIsUndisturbed(a, report, redact, reading, sha, command, printed);
    HonestApiReviewSyncs(a, w, r, sha, NoOp);
  }

  lemma {:induction false} EndsInFailure(a: Args, w: World, sha: Sha)
    requires a.Reviewed() && FailsAfterwards(w)
    ensures Ending(a, w, sha) == Failed
  {
    hide ReadDiff;
  }

  /** Both ways of failing afterwards happen: there are cleared worlds in which the reviewed
      migration is started, and may have changed everything, and the run reports plain failure. */
  lemma {:induction false} SyncedYetFailed(garbled: bool) returns (a: Args, w: World, sha: Sha)
    ensures a.Reviewed() && Cleared(a, w, sha) && Deck(Sync) in Script(a) && Ending(a, w, sha) == Failed
    ensures if garbled then w.command.Garbled? else w.command.Exited? && w.command.code == 0 && !w.printed
  {
    a, sha := Args(Api, Runtime, SyncMode), Sha((j: Json) => DIGEST, (f: string) => DIGEST);
    DigestIsHexadecimal(sha);
    SyncIsScripted(a);
    var report, r := SomeMigration();
    var command := if garbled then Garbled else Exited(0, true, Ok(Null));
    hide Accept, WellParsed, Cleared, Hexadecimal, Script, DIGEST, Ending;
    w := QuietIsCleared(a, report, r, text => text, sha, command, false);
    EndsInFailure(a, w, sha);
  }
}
