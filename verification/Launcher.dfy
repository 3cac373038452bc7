/** main of scripts/run-deck.py as a step machine. Every read site of the run takes its own
    value from a World, and nothing ties the values of two sites together: whatever rewrites the
    files between two steps is some World. */
module Launcher {
  import opened Wrappers
  import opened Json
  import opened DiffReport
  import opened MigrationScope
  import opened MigrationApproval
  import opened BackendDiff
  import opened BackendScope

  datatype Gateway = Api | ThirdParty

  datatype Stage = Foundation | Runtime

  datatype Mode = DiffMode | SyncMode

  datatype Args = Args(gateway: Gateway, stage: Stage, mode: Mode) {
    /** The runs that need a reviewed receipt. */
    predicate Reviewed() { stage.Runtime? && mode.SyncMode? }
  }

  datatype Verb = Validate | Diff | Sync

  datatype Step =
    | LocalManifest | Flag | Roles | Receipt
    | Token | RemoteTarget | SharedCa | Schemas | DeckEnv
    | Deck(verb: Verb)
    | FreshManifest | FreshRoles | FreshReceipt | FreshState

  /** SHA-256 of a canonical JSON value and of a file's content, as hex digits. */
  datatype Sha = Sha(json: Json -> string, file: string -> string)

  /** How one decK process ended. Garbled: it ended, but what it wrote does not decode as text;
      quiet says that stderr was blank. */
  datatype Run = TimedOut | NotStarted | Garbled | Exited(code: int, quiet: bool, stdout: Result<Json>)

  /** What each read site of one run returns; Err stands for a read that raises. The run's own
      lines are announced before the requested command and printed after it, unless the stream
      they go to raises. */
  datatype World = World(
    manifest: Result<Object>, statePresent: bool, flag: bool, roles: Result<Json>,
    receipt: Result<Json>, stateAtReceipt: Result<string>,
    token: bool, remoteTarget: bool, sharedCa: bool, schemas: bool, deckEnv: bool, redact: Redactor,
    validation: Run, diff: Run,
    freshManifest: Result<Object>, freshRoles: Result<Json>,
    freshReceipt: Result<Json>, stateAtFreshReceipt: Result<string>, freshState: Result<string>,
    announced: bool, command: Run, printed: bool)

  datatype Outcome = Failed | OutcomeUnknown | Reported(view: Json, digest: string) | Finished(code: int)

  /* ---------------- the order of steps ---------------- */

  function LocalScript(a: Args): seq<Step> {
    if a.Reviewed() then [LocalManifest, Flag, Roles, Receipt] else [LocalManifest, Roles]
  }

  function RemoteScript(a: Args): seq<Step> {
    if a.gateway.Api? then [Token, RemoteTarget, SharedCa, Schemas, DeckEnv]
    else [Token, RemoteTarget, Schemas, DeckEnv]
  }

  function GateScript(a: Args): seq<Step> {
    if !a.Reviewed() then []
    else if a.gateway.Api? then [Deck(Diff), FreshRoles, FreshState]
    else [Deck(Validate), Deck(Diff), FreshManifest, FreshRoles, FreshReceipt, FreshState]
  }

  function VerbOf(m: Mode): Verb { if m.SyncMode? then Sync else Diff }

  function Script(a: Args): seq<Step> {
    LocalScript(a) + RemoteScript(a) + GateScript(a) + [Deck(VerbOf(a.mode))]
  }

  /* ---------------- the receipts ---------------- */

  predicate IsDigest(j: Json) {
    j.Str? && |j.s| == 64 && forall i :: 0 <= i < |j.s| ==> '0' <= j.s[i] <= '9' || 'a' <= j.s[i] <= 'f'
  }

  const MIGRATION_FIELDS: set<string> := {"schema_version", "scope", "approved", "control_plane_id", "state_sha256",
    "role_inputs_sha256", "diff_sha256", "summary", "operations"}

  const BACKEND_FIELDS: set<string> := {"schema_version", "scope", "approved", "target_sha256", "state_sha256",
    "role_inputs_sha256", "diff_sha256", "summary", "operations", "plan_type"}

  /** read_migration_approval */
  predicate MigrationReceiptOk(receipt: Json, controlPlane: Json, state: string, roles: Json, sha: Sha) {
    && receipt.Obj? && receipt.fields.Keys == MIGRATION_FIELDS
    && var f := receipt.fields;
       && Get(f, "schema_version") == Num(1) && Get(f, "scope") == Str("api-runtime-migration")
       && Get(f, "approved") == Bool(true)
       && controlPlane.Str? && Get(f, "control_plane_id") == controlPlane
       && Get(f, "state_sha256") == Str(sha.file(state)) && IsDigest(Get(f, "state_sha256"))
       && IsDigest(Get(f, "diff_sha256"))
       && IsDigest(Get(f, "role_inputs_sha256")) && Get(f, "role_inputs_sha256") == Str(sha.json(roles))
       && ReceiptAccepts(Get(f, "summary"), Get(f, "operations"))
  }

  function BackendOperations(receipt: Json): Json
    requires receipt.Obj?
  {
    Obj(map["summary" := Get(receipt.fields, "summary"), "operations" := Get(receipt.fields, "operations")])
  }

  /** The operations the receipt carries are those of the plan it names. */
  predicate InScope(receipt: Json)
    requires receipt.Obj?
  {
    ScopeOk(BackendOperations(receipt), Get(receipt.fields, "plan_type"))
  }

  /** read_backend_runtime_approval */
  predicate BackendReceiptOk(receipt: Json, target: Object, state: string, roles: Json, sha: Sha) {
    && receipt.Obj? && receipt.fields.Keys == BACKEND_FIELDS
    && var f := receipt.fields;
       && Get(f, "schema_version") == Num(2) && Get(f, "scope") == Str("third-party-backend-runtime-v2")
       && Get(f, "approved") == Bool(true)
       && Get(f, "target_sha256") == Str(sha.json(Obj(target))) && Get(f, "state_sha256") == Str(sha.file(state))
       && Get(f, "role_inputs_sha256") == Str(sha.json(roles)) && IsDigest(Get(f, "diff_sha256"))
       && InScope(receipt)
  }

  /** An object with exactly the members of the gateway's receipts. */
  predicate Shaped(a: Args, receipt: Json) {
    receipt.Obj? && receipt.fields.Keys == if a.gateway.Api? then MIGRATION_FIELDS else BACKEND_FIELDS
  }

  /** A receipt read together with the state file it is checked against. */
  function ReadReceipt(a: Args, raw: Result<Json>, state: Result<string>, target: Object, roles: Json,
                       sha: Sha): (r: Result<Json>)
    ensures r.Ok? ==> Shaped(a, r.value)
  {
    var receipt :- raw;
    var content :- state;
    if a.gateway.Api? then
      if MigrationReceiptOk(receipt, Get(target, "control_plane_id"), content, roles, sha) then Ok(receipt) else Err
    else
      if BackendReceiptOk(receipt, target, content, roles, sha) then Ok(receipt) else Err
  }

  /* ---------------- what a diff says ---------------- */

  /** The value both parsers hash. */
  function CanonicalJson(r: Report): Json {
    Obj(map["changes" := Obj(map["creating" := Arr(r.creating), "updating" := Arr(r.updating),
                                 "deleting" := Arr(r.deleting)]),
            "summary" := ViewSummary(r), "warnings" := Arr([]), "errors" := Arr([])])
  }

  /** The view and the digest a parser returns. */
  datatype Reading = Reading(summary: Json, operations: Json, digest: string)

  function ReadDiff(a: Args, report: Json, redact: Redactor, sha: Sha): Result<Reading> {
    if a.gateway.Api? then
      var r :- Accept(report);
      AcceptedParsed(report, r);
      Ok(Reading(ViewSummary(r), ViewOperations(r), sha.json(CanonicalJson(r))))
    else
      var p :- BackendParse(report, redact);
      Ok(Reading(View(p).fields["summary"], View(p).fields["operations"], sha.json(CanonicalJson(p.Hashed()))))
  }

  /** A diff that ended well, without diagnostics and with a JSON report. */
  predicate CleanRun(run: Run) { run.Exited? && run.code == 0 && run.quiet && run.stdout.Ok? }

  predicate ValidationOk(w: World) { w.validation.Exited? && w.validation.code == 0 && w.validation.quiet }

  predicate SameReading(reading: Reading, receipt: Object)
  {
    && Get(receipt, "diff_sha256") == Str(reading.digest)
    && Get(receipt, "summary") == reading.summary && Get(receipt, "operations") == reading.operations
  }

  /* ---------------- when a run may sync ---------------- */

  function FirstReceipt(a: Args, w: World, sha: Sha): (r: Result<Json>)
    ensures r.Ok? ==> Shaped(a, r.value)
  {
    var target :- w.manifest;
    var roles :- w.roles;
    ReadReceipt(a, w.receipt, w.stateAtReceipt, target, roles, sha)
  }

  /** Everything checked before the token is read. */
  predicate LocalOk(a: Args, w: World, sha: Sha) {
    && w.manifest.Ok? && w.statePresent && w.roles.Ok?
    && (a.Reviewed() ==> w.flag && FirstReceipt(a, w, sha).Ok?)
  }

  predicate RemoteOk(a: Args, w: World) {
    w.token && w.remoteTarget && (a.gateway.Api? ==> w.sharedCa) && w.schemas && w.deckEnv
  }

  /** The diff is clean and is the one the receipt was written for. */
  predicate DiffOk(a: Args, w: World, receipt: Json, sha: Sha)
    requires Shaped(a, receipt)
  {
    && CleanRun(w.diff)
    && var reading := ReadDiff(a, w.diff.stdout.value, w.redact, sha);
       reading.Ok? && SameReading(reading.value, receipt.fields)
  }

  /** The inputs read again after the diff still match the receipt. */
  predicate FreshOk(a: Args, w: World, receipt: Json, sha: Sha)
    requires Shaped(a, receipt)
  {
    && w.freshRoles.Ok? && w.freshState.Ok?
    && Get(receipt.fields, "state_sha256") == Str(sha.file(w.freshState.value))
    && Get(receipt.fields, "role_inputs_sha256") == Str(sha.json(w.freshRoles.value))
    && (a.gateway.ThirdParty? ==>
          && w.freshManifest.Ok?
          && Get(receipt.fields, "target_sha256") == Str(sha.json(Obj(w.freshManifest.value)))
          && ReadReceipt(a, w.freshReceipt, w.stateAtFreshReceipt, w.freshManifest.value, w.freshRoles.value, sha)
             == Ok(receipt))
  }

  /** What a reviewed run checks against its receipt before the sync. */
  predicate StillReviewed(a: Args, w: World, receipt: Json, sha: Sha)
    requires Shaped(a, receipt)
  {
    (a.gateway.ThirdParty? ==> ValidationOk(w)) && DiffOk(a, w, receipt, sha) && FreshOk(a, w, receipt, sha)
  }

  /** The gates between the remote checks and the requested command. */
  predicate GatesOk(a: Args, w: World, sha: Sha) {
    a.Reviewed() ==>
      var receipt := FirstReceipt(a, w, sha);
      receipt.Ok? && StillReviewed(a, w, receipt.value, sha)
  }

  /** The requested decK command is started exactly in these worlds. */
  predicate Cleared(a: Args, w: World, sha: Sha) {
    LocalOk(a, w, sha) && RemoteOk(a, w) && GatesOk(a, w, sha) && w.announced
  }

  /** How the run ends once the requested command was started. */
  function Ending(a: Args, w: World, sha: Sha): Outcome {
    if w.command.Garbled? then Failed
    else if !w.command.Exited? then (if a.Reviewed() then OutcomeUnknown else Failed)
    else if a.stage.Runtime? && a.mode.DiffMode? then
      if !CleanRun(w.command) then Failed
      else
        match ReadDiff(a, w.command.stdout.value, w.redact, sha)
        case Ok(reading) =>
          if !w.printed then Failed
          else Reported(Obj(map["summary" := reading.summary, "operations" := reading.operations]), reading.digest)
        case Err => Failed
    else if a.Reviewed() && w.command.code != 0 then OutcomeUnknown
    else if !w.printed then Failed
    else Finished(w.command.code)
  }

  /* ---------------- the run as written ---------------- */

  method LocalChecks(a: Args, w: World, sha: Sha) returns (ok: bool, trace: seq<Step>, receipt: Result<Json>)
    ensures ok <==> LocalOk(a, w, sha)
    ensures trace <= LocalScript(a) && (ok ==> trace == LocalScript(a))
    ensures ok && a.Reviewed() ==> receipt == FirstReceipt(a, w, sha)
  {
    ok, trace, receipt := false, [LocalManifest], Err;
    if w.manifest.Err? || !w.statePresent {
      return;
    }
    if a.Reviewed() {
      trace := trace + [Flag];
      if !w.flag {
        return;
      }
    }
    trace := trace + [Roles];
    if w.roles.Err? {
      return;
    }
    if a.Reviewed() {
      trace := trace + [Receipt];
      receipt := ReadReceipt(a, w.receipt, w.stateAtReceipt, w.manifest.value, w.roles.value, sha);
      if receipt.Err? {
        return;
      }
    }
    ok := true;
  }

  method RemoteChecks(a: Args, w: World) returns (ok: bool, trace: seq<Step>)
    ensures ok <==> RemoteOk(a, w)
    ensures trace <= RemoteScript(a) && (ok ==> trace == RemoteScript(a))
  {
    ok, trace := false, [Token];
    if !w.token {
      return;
    }
    trace := trace + [RemoteTarget];
    if !w.remoteTarget {
      return;
    }
    if a.gateway.Api? {
      trace := trace + [SharedCa];
      if !w.sharedCa {
        return;
      }
    }
    trace := trace + [Schemas];
    if !w.schemas {
      return;
    }
    trace := trace + [DeckEnv];
    ok := w.deckEnv;
  }

  method ApiGates(a: Args, w: World, receipt: Json, sha: Sha) returns (ok: bool, trace: seq<Step>)
    requires a.Reviewed() && a.gateway.Api? && Shaped(a, receipt)
    ensures trace <= GateScript(a) && (ok ==> trace == GateScript(a))
    ensures ok <==> StillReviewed(a, w, receipt, sha)
  {
    hide ReadDiff, ReadReceipt;
    ok, trace := false, [Deck(Diff)];
    if !w.diff.Exited? || w.diff.code != 0 || !w.diff.quiet || w.diff.stdout.Err? {
      return;
    }
    var reading := ReadDiff(a, w.diff.stdout.value, w.redact, sha);
    if reading.Err? || !SameReading(reading.value, receipt.fields) {
      return;
    }
    trace := trace + [FreshRoles];
    if w.freshRoles.Err? {
      return;
    }
    trace := trace + [FreshState];
    ok := w.freshState.Ok? && Str(sha.file(w.freshState.value)) == Get(receipt.fields, "state_sha256")
       && Str(sha.json(w.freshRoles.value)) == Get(receipt.fields, "role_inputs_sha256");
  }

  method BackendGates(a: Args, w: World, receipt: Json, sha: Sha) returns (ok: bool, trace: seq<Step>)
    requires a.Reviewed() && a.gateway.ThirdParty? && Shaped(a, receipt)
    ensures trace <= GateScript(a) && (ok ==> trace == GateScript(a))
    ensures ok <==> StillReviewed(a, w, receipt, sha) && InScope(receipt)
  {
    hide ReadDiff, ReadReceipt, ScopeOk;
    ok, trace := false, [Deck(Validate)];
    if !w.validation.Exited? || w.validation.code != 0 || !w.validation.quiet {
      return;
    }
    trace := trace + [Deck(Diff)];
    if !w.diff.Exited? || w.diff.code != 0 || !w.diff.quiet || w.diff.stdout.Err? {
      return;
    }
    var reading := ReadDiff(a, w.diff.stdout.value, w.redact, sha);
    if reading.Err? {
      return;
    }
    // The scope check of the current view, which is the receipt's if the comparison passes.
    var current := Obj(map["summary" := reading.value.summary, "operations" := reading.value.operations]);
    assert SameReading(reading.value, receipt.fields) ==> current == BackendOperations(receipt);
    if !ScopeOk(current, Get(receipt.fields, "plan_type")) || !SameReading(reading.value, receipt.fields) {
      return;
    }
    trace := trace + [FreshManifest];
    if w.freshManifest.Err? {
      return;
    }
    trace := trace + [FreshRoles];
    if w.freshRoles.Err? {
      return;
    }
    trace := trace + [FreshReceipt];
    var again := ReadReceipt(a, w.freshReceipt, w.stateAtFreshReceipt, w.freshManifest.value, w.freshRoles.value, sha);
    if again.Err? {
      return;
    }
    trace := trace + [FreshState];
    ok := again.value == receipt && w.freshState.Ok?
       && Str(sha.file(w.freshState.value)) == Get(receipt.fields, "state_sha256")
       && Str(sha.json(w.freshRoles.value)) == Get(receipt.fields, "role_inputs_sha256")
       && Str(sha.json(Obj(w.freshManifest.value))) == Get(receipt.fields, "target_sha256");
  }

  /** main. The trace never leaves the script; the requested command is its last step and is
      started exactly when the run is cleared. */
  method Launch(a: Args, w: World, sha: Sha) returns (trace: seq<Step>, outcome: Outcome)
    ensures trace <= Script(a)
    ensures trace == Script(a) <==> Cleared(a, w, sha)
    ensures outcome == if Cleared(a, w, sha) then Ending(a, w, sha) else Failed
  {
    hide LocalScript, RemoteScript, GateScript, LocalOk, RemoteOk, FirstReceipt, Ending, StillReviewed, InScope;
    outcome := Failed;
    var localOk, localTrace, receipt := LocalChecks(a, w, sha);
    trace := localTrace;
    if !localOk {
      return;
    }
    var remoteOk, remoteTrace := RemoteChecks(a, w);
    trace := trace + remoteTrace;
    if !remoteOk {
      return;
    }
    ReceiptIsKept(a, w, sha);
    if a.Reviewed() {
      var gateOk, gateTrace;
      if a.gateway.ThirdParty? {
        gateOk, gateTrace := BackendGates(a, w, receipt.value, sha);
      } else {
        gateOk, gateTrace := ApiGates(a, w, receipt.value, sha);
      }
      trace := trace + gateTrace;
      if !gateOk {
        return;
      }
    }
    if !w.announced {
      return;
    }
    trace := trace + [Deck(VerbOf(a.mode))];
    outcome := Ending(a, w, sha);
  }

  lemma {:induction false} ReceiptIsKept(a: Args, w: World, sha: Sha)
    ensures LocalOk(a, w, sha) && a.Reviewed() ==>
      && FirstReceipt(a, w, sha).Ok?
      && Shaped(a, FirstReceipt(a, w, sha).value)
      && (a.gateway.ThirdParty? ==> InScope(FirstReceipt(a, w, sha).value))
    ensures !a.Reviewed() ==> GateScript(a) == []
  {
    hide InScope, ReceiptAccepts, IsDigest;
  }
}
