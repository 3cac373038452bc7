# A verified model of the demo's provisioning tooling

The repository wires Kong gateways and a Keycloak realm together for a FAPI demo. Around that
configuration it keeps a set of self-contained programs, each of which has to be right about
state it does not control: an Admin server, another thread, a diff of somebody else's entities,
a paged listing, a byte string, a directory left by an interrupted run. This project models those
programs in Dafny and proves what they are for.

* **Keycloak reconciler** (`NamedEntries`, `RealmPlan`, `ClientPlan`, `AdminState`, `Convergence`,
  `ReconcilerTheorems`, `Survival`, `Reconciler`). The Admin server is a value: PUT overwrites the
  fields sent, a component PUT merges config keys, POST assigns a fresh non-empty id and whatever
  defaults the server likes, a new client has no mappers. The planners are functions and the loops
  that compute them methods; `AdminServer` carries the server through the writes of a run that may
  be cut at any of them, before the server carries it out or after. The one assumption about the
  stored state is that the ids of one collection are distinct (`WellKept`).
* **Loopback forwarder** (`Forwarder`, `Pump`). Handlers and stop calls as a transition system with
  one step for every shared access, and the copying loop of one direction.
* **Migration diff and approval** (`DiffReport`, `MigrationScope`, `MigrationGraph`,
  `MigrationExactly`, `MigrationWitness`, `MigrationApproval`). The canonicalising parser, the
  three-pass scope check with the graph it accepts, and the separately written check of the human
  receipt.
* **Third-party diff and launcher** (`Redaction`, `BackendDiff`, `BackendScope`, `Launcher`,
  `LauncherTheorems`). Redaction, the label view with its four reviewed plans, and `main` as a step
  machine in which every read site gets its own unrelated value, so that files may change between
  any two steps.
* **Schema pages** (`SchemaPages`, `SchemaInventory`). The page loop against an arbitrary server and
  the second program that validates the pages again.
* **Key export** (`Octets`, `Der`, `Base64Url`). The DER reader and the base64url integers.
* **Certificates** (`Pki`, `PkiTheorems`). File-by-file issuance, cut at any file step.
* **Evidence** (`JsonText`, `Evidence`, `EvidenceWire`, `EvidenceTheorems`, `BoundedRead`). The
  verifier's producer against the backend's projector, through a JSON object with ASCII escapes.

`Wrappers`, `Json`, `Sorting` and `Bags` hold the shared vocabulary: optional values and outcomes,
decoded JSON, Python's order and stable sort, and counting under rearrangement.

SHA-256, certificates, openssl, HTTP, TLS and decK are parameters or abstract steps. Digest
properties are stated on the canonical value that is hashed; where the program compares two digests
the conclusion is that the two inputs are equal or that these two inputs, which the lemma names,
collide.

Every lemma carries `{:induction false}`: the proofs follow the data explicitly.

## What the proofs brought to light

* A reviewed sync that ran is reported as plain failure, without the words "outcome is unknown", in
  two cases: decK's output does not decode as text, or the run cannot print its last lines after
  decK exited with zero. Failure means that no sync was started exactly outside these two cases
  (`LauncherTheorems.VerdictExactly`), and both occur (`LauncherTheorems.SyncedYetFailed`).
* A forwarder handler ends without closing the upstream socket exactly if the operating system
  refuses `settimeout` on the connected socket, or if closing the client raises while the pair is
  refused (`Forwarder.FinishedHandlerIsClean`, `Forwarder.TuneFailureSkipsClose`,
  `Forwarder.CloseFailureSkipsClose`); nothing in the program closes it later
  (`Forwarder.SkippedStaysOpen`).
* Redaction is complete for all secrets that do not overlap the mark, with or without brackets.
  For secrets without brackets it is complete exactly when none of four or more characters lies
  inside the word REDACTED (`Redaction.RedactionIsComplete`). For a single secret of any kind the
  exact condition can be read off the secret: it is left in some output if and only if it starts in
  the mark or runs into it (`Redaction.SingleValueExactly`). `Redaction.BracketValueSurvives` and
  `Redaction.OverlapMayBeHarmless` show one of each kind.
* Certificate generation judges an identity complete by the presence of two files. A successful run
  leaves identities of the present CA only exactly when every identity that was complete before
  belonged to it (`PkiTheorems.OneIssuerExactly`); a directory of another CA's identities passes
  (`PkiTheorems.OtherIssuerPasses`). From an empty directory this cannot arise
  (`PkiTheorems.EveryHistoryIsShaped`).
* A text survives the JSON trip between verifier and backend exactly when no high surrogate stands
  directly before a low one (`JsonText.RoundTripIffWhole`).

## Model

| member | source | states |
|---|---|---|
| NamedEntries.IndexEntries | scripts/sync-keycloak-demo-data.py:186-196 | the live list is indexed, or refused exactly when an entry is unnamed or a name repeats |
| NamedEntries.PlaceEntry | scripts/sync-keycloak-demo-data.py:204-209 | one turn keeps list and index in step with the merge of the entries seen so far |
| NamedEntries.MergeNamedEntries | scripts/sync-keycloak-demo-data.py:186-210 | fails exactly on lists with unnamed or repeated entries, else returns live entries reconciled in place followed by the new ones |
| NamedEntries.MergeKeepsAndSets | scripts/sync-keycloak-demo-data.py:186-210 | live order and every key nobody desires are kept, desired keys get their values, new names follow in desired order, names stay distinct |
| NamedEntries.MergeIsIdempotent | scripts/sync-keycloak-demo-data.py:186-210 | merging the same entries again changes nothing |
| RealmPlan.MergeGroup | scripts/sync-keycloak-demo-data.py:219-231 | one policy group: every other key of the group is kept, its list is the merge |
| RealmPlan.RealmConverges | scripts/sync-keycloak-demo-data.py:213-236 | after overwriting the realm with its payload the next payload is empty |
| RealmPlan.EmptyPayloadMeansInPlace | scripts/sync-keycloak-demo-data.py:213-236 | the payload is empty exactly when the scalars are as desired and both groups equal their own merge |
| ClientPlan.PlanMapperSync | scripts/sync-keycloak-demo-data.py:150-183 | the loop over an index of the live mappers computes the plan that looks each desired mapper up by name |
| ClientPlan.PlanClientSync | scripts/sync-keycloak-demo-data.py:378-433 | the loop computes one action for each of exactly the three fixed clients, or fails as a whole |
| ClientPlan.PlanKeyProviderSync | scripts/sync-keycloak-demo-data.py:268-312 | collects the managed components in order and decides on them; fails on any unnamed component |
| ClientPlan.UpdateSettlesClient | scripts/sync-keycloak-demo-data.py:466-481 | the body of a client update puts the client in place and keeps every attribute it does not ask for |
| AdminState.PrepareClientSync | scripts/sync-keycloak-demo-data.py:436-459 | looking up and planning all clients before any mapper has the outcome of preparing each client on its own |
| AdminState.PrepareAllPointwise | scripts/sync-keycloak-demo-data.py:436-459 | clients are prepared all or none, each independently of the others |
| Convergence.ProviderStep | scripts/sync-keycloak-demo-data.py:337-369 | after the provider write the provider plan is a no-op and the stored ids stay distinct |
| Convergence.UpdateClientStep | scripts/sync-keycloak-demo-data.py:466-481 | a client PUT turns that client's action into a no-op, keeps its mapper plan and no other client's plan changes |
| Convergence.CreateClientStep | scripts/sync-keycloak-demo-data.py:482-497 | a client POST, whatever id and defaults come back, is found again, needs no update, and its mapper plan is the one computed before |
| Convergence.MapperStep | scripts/sync-keycloak-demo-data.py:503-529 | a mapper write removes the head of its client's mapper plan and nothing else |
| ReconcilerTheorems.NextWrite | scripts/sync-keycloak-demo-data.py:593-616 | carrying out the first write of a plan leaves a state whose plan is the rest of it |
| ReconcilerTheorems.EachWriteLowersDistance | scripts/sync-keycloak-demo-data.py:337-565 | the number of actions that are not no-ops drops by exactly one with every write |
| ReconcilerTheorems.DistanceIsWrites | scripts/sync-keycloak-demo-data.py:337-565 | the distance of a state is the number of writes its plan issues |
| ReconcilerTheorems.VerifiedIffDistanceZero | scripts/sync-keycloak-demo-data.py:534-553 | the three verify steps pass exactly at distance zero |
| ReconcilerTheorems.CutRun | scripts/sync-keycloak-demo-data.py:593-616 | after a run cut at any write the next plan is exactly what was left |
| ReconcilerTheorems.FullRunVerifies | scripts/sync-keycloak-demo-data.py:593-616 | a run that is not cut ends with all verify steps passing, from any state |
| ReconcilerTheorems.CutThenRerunConverges | scripts/sync-keycloak-demo-data.py:593-616 | a cut run and a fresh one end verified, in the state one uninterrupted run ends in |
| ReconcilerTheorems.RestartsNeverRepeat | scripts/sync-keycloak-demo-data.py:593-616 | over any number of cut runs the writes of the first plan are issued in order, none twice, and the rest is what is left |
| ReconcilerTheorems.KeptMeansInPlace | scripts/sync-keycloak-demo-data.py:436-459 | a client's plan is empty exactly when one live client is in place and has every desired mapper |
| Survival.StepSurvives | scripts/sync-keycloak-demo-data.py:337-565 | every planned write leaves unmanaged clients, components, mappers, fields, attributes and config keys alone and deletes nothing |
| Survival.RunSurvives | scripts/sync-keycloak-demo-data.py:593-616 | the same over every run, cut anywhere |
| Reconciler.AdminServer.Send | scripts/sync-keycloak-demo-data.py:80-108 | a write happens and is the next one planned, whether or not its answer arrives, or nothing changes; it fails if the answer does not arrive |
| Reconciler.AdminServer.SendMapper | scripts/sync-keycloak-demo-data.py:510-528 | the same for a mapper write addressed by the client id remembered from the first pass |
| Reconciler.AdminServer.ApplyKeyProvider | scripts/sync-keycloak-demo-data.py:337-369 | settles the provider and leaves the other two plans as computed, or stops with writes still planned or an answer lost |
| Reconciler.AdminServer.SettleClient | scripts/sync-keycloak-demo-data.py:464-500 | first pass over one client: writes it if needed and learns the id it is stored under, unless an answer was lost or writes are left |
| Reconciler.AdminServer.SyncMappers | scripts/sync-keycloak-demo-data.py:503-529 | second pass over one client under the id learnt |
| Reconciler.AdminServer.ApplyClientSync | scripts/sync-keycloak-demo-data.py:462-531 | both passes: no client or mapper write is left, or it stopped with writes still planned or an answer lost |
| Reconciler.AdminServer.ApplyRealm | scripts/sync-keycloak-demo-data.py:556-565 | succeeds exactly when no answer was lost and nothing is left to write |
| Reconciler.Sync | scripts/sync-keycloak-demo-data.py:593-616 | a planning failure writes nothing; otherwise, wherever a request fails and even if the server had carried it out, a prefix of the plan was written and everything unmanaged survives; it is done exactly when every planned write and every lookup after a creation gets an answer, and is then verified with exactly the planned writes; "did not converge" never happens |
| Forwarder.InvStep | scripts/wp5-demo-forward.py:23-91 | every shared access keeps lock ownership, the set, the sockets and every snapshot consistent |
| Forwarder.NothingRegisteredAfterSnapshot | scripts/wp5-demo-forward.py:23-78 | in every interleaving, once a stop has its snapshot no pair is ever registered |
| Forwarder.StopClosesEverything | scripts/wp5-demo-forward.py:23-91 | once a stop has returned every pair ever registered is closed on both sides |
| Forwarder.FinishedHandlerIsClean | scripts/wp5-demo-forward.py:58-91 | a finished handler has left the set and closed what it opened, except the upstream socket exactly when settimeout failed or the client's close raised in the refusal |
| Forwarder.TuneFailureSkipsClose | scripts/wp5-demo-forward.py:58-65 | a run in which settimeout fails and the handler returns without closing the upstream socket |
| Forwarder.CloseFailureSkipsClose | scripts/wp5-demo-forward.py:67-72 | a run in which the client's close raises in the refusal and the upstream socket is not closed; the lock is free again |
| Forwarder.SkippedStaysOpen | scripts/wp5-demo-forward.py:23-91 | a close skipped in one of the two ways is made up for in no continuation of the run |
| Pump.OneTurn | scripts/wp5-demo-forward.py:45-49 | one turn delivers what it received, or a prefix of it on failure |
| Pump.Run | scripts/wp5-demo-forward.py:43-56 | delivered bytes are an in-order prefix of those received, all of them unless a socket failed; the write side is shut once, last |
| DiffReport.KeySeparates | scripts/wp3_runtime.py:492-497 | the id-or-empty sort key separates exactly the identities |
| DiffReport.ParseOperation | scripts/wp3_runtime.py:438-503 | the loop that validates, sorts and looks for repetitions accepts the same lists, in the same order, as the specification |
| DiffReport.CanonicalExactly | scripts/wp3_runtime.py:438-503 | two lists have one canonical order exactly when they are permutations |
| DiffReport.SameContentIffPermuted | scripts/wp3_runtime.py:404-515 | accepted reports have the same hashed value exactly when their entries are permutations, operation by operation |
| DiffReport.PermutationIsAccepted | scripts/wp3_runtime.py:404-515 | a permutation of an accepted report is accepted with the same result |
| DiffReport.ParsedContent | scripts/wp3_runtime.py:404-515 | what a parsed report holds: well-formed entries, distinct identities, canonical order, the input's entries |
| MigrationScope.CheckCreations | scripts/wp3_runtime.py:569-609 | the first pass accepts exactly the six fixed creations |
| MigrationScope.CountDeletions | scripts/wp3_runtime.py:613-654 | the second pass counts the named rows, files each tag's only service under its id and collects the certificates |
| MigrationScope.FileCertificates | scripts/wp3_runtime.py:667-670 | the collected certificates are filed under their tags, and the repeated check for protected ids never fires |
| MigrationScope.CheckRelations | scripts/wp3_runtime.py:672-695 | the third pass, decided from the two dictionaries filled before, accepts exactly the relations inside one tag |
| MigrationScope.CheckDeletions | scripts/wp3_runtime.py:613-695 | both passes together accept exactly the thirteen legacy deletions |
| MigrationScope.ValidateScope | scripts/wp3_runtime.py:563-695 | accepts exactly the no-op and the one migration graph |
| MigrationScope.ParseDeckDiffReport | scripts/wp3_runtime.py:404-515 | the whole parser accepts exactly the well-formed reports in scope and returns their canonical content |
| MigrationGraph.LegacyTagExactly | scripts/wp3_runtime.py:527-541 | a Route tag is read exactly from the two-element lists of it and the demo tag |
| MigrationGraph.RelationExactly | scripts/wp3_runtime.py:544-552 | a named reference is read exactly from an object of a non-empty id and the expected name |
| MigrationGraph.CertificateRelationExactly | scripts/wp3_runtime.py:555-560 | a plain reference is read exactly from an object of a non-empty id |
| MigrationGraph.CreationsAreTheSix | scripts/wp3_runtime.py:576-598 | the accepted creations are the six fixed entities, tagged and bound to one another, and all of them |
| MigrationGraph.ClassSizes | scripts/wp3_runtime.py:656-670 | the deletions are six entities of one tag and seven of the other |
| MigrationGraph.ReferencesClosed | scripts/wp3_runtime.py:672-695 | every reference of a deletion leads to a deleted entity of its own tag, or to the shared CA |
| MigrationGraph.AcceptedIsClosedGraph | scripts/wp3_runtime.py:563-695 | an accepted report that is no no-op creates the six fixed entities and deletes two closed tag classes with distinct unprotected ids, none of them created by it |
| MigrationExactly.DeleteExactly | scripts/wp3_runtime.py:618-654 | a single deletion passes exactly when it is unprotected and one of the thirteen legacy entities |
| MigrationExactly.CountsExactly | scripts/wp3_runtime.py:656-666 | the two counts come out right exactly when the deletions are the thirteen entities rearranged |
| MigrationExactly.DeletionsExactly | scripts/wp3_runtime.py:606-695 | the deletions pass exactly when every legacy entity is deleted, all references stay inside and ids are distinct and unprotected |
| MigrationExactly.CreationsExactly | scripts/wp3_runtime.py:576-598 | the creations pass exactly when they are the six fixed entities |
| MigrationExactly.ParsedExactly | scripts/wp3_runtime.py:404-515 | a report parses exactly when its entries are well formed, its summary counts them and no identity repeats |
| MigrationExactly.AcceptedExactly | scripts/wp3_runtime.py:404-695 | a report is accepted exactly when it is well formed, well counted and lists, in any order, nothing or the one migration graph |
| MigrationWitness.EveryMigrationIsAccepted | scripts/wp3_runtime.py:563-695 | under any thirteen distinct unprotected ids the migration is accepted |
| MigrationApproval.ViewListIsReceiptList | scripts/wp3_runtime.py:815-845 | the view of a canonical list passes the receipt's own structural checks |
| MigrationApproval.CreationsCounted | scripts/wp3_runtime.py:705-714 | the view's creations are the six expected rows, counted |
| MigrationApproval.DeletionsCounted | scripts/wp3_runtime.py:718-733 | the receipt counts the deletions of a view as the scope check counted them, tags forgotten |
| MigrationApproval.MigrationIsApproved | scripts/wp3_runtime.py:698-742 | the view of every accepted migration passes validate_migration_approval_operations |
| MigrationApproval.AcceptedViewPassesReceipt | scripts/wp3_runtime.py:815-847 | refinement between the two checkers: the view of an accepted report passes the whole receipt reader exactly when it is no no-op |
| Redaction.NothingAppears | scripts/run-deck.py:63-73 | a text that does not overlap the mark and is in the output was in the input, and then is not the secret replaced |
| Redaction.SanitizeOutput | scripts/run-deck.py:63-73 | whatever the PEM step leaves, the loop computes the replacements in order; no secret is left when none overlaps the mark |
| Redaction.RedactionIsComplete | scripts/run-deck.py:63-73 | every output is clean if no secret overlaps the mark, and not if one lies inside it; for bracket-free secrets exactly when none lies inside REDACTED |
| Redaction.BracketValueSurvives | scripts/run-deck.py:63-73 | a secret that overlaps the mark and that its own replacement puts back |
| Redaction.SingleValueExactly | scripts/run-deck.py:63-73 | a single secret is left in some output exactly when it starts in the mark or runs into it |
| Redaction.OverlapMayBeHarmless | scripts/run-deck.py:63-73 | a secret that overlaps the mark and yet is left in no output |
| Redaction.WholeValueIsHidden | scripts/run-deck.py:72-73 | longest first, a secret that is the whole text leaves nothing but the mark |
| Redaction.ShortestFirstLeaks | scripts/run-deck.py:72-73 | shortest first would uncover the tail of a longer secret |
| BackendDiff.ParseOperation | scripts/run-deck.py:109-143 | the loop with its set of labels seen and its two sorts computes the specified labels and entries |
| BackendDiff.ParseSanitizedRuntimeDiff | scripts/run-deck.py:76-154 | the whole parser computes the specified labels, entries and counts |
| BackendDiff.HashHoldsTheBags | scripts/run-deck.py:138-153 | whatever is redacted from the labels, the hashed value holds exactly the report's entries |
| BackendDiff.SafeApartIsRawApart | scripts/run-deck.py:131-138 | distinct redacted labels come from distinct raw ones |
| BackendDiff.BackendHashIsExact | scripts/run-deck.py:76-154 | accepted reports hash alike exactly when their entries are permutations, and are then shown alike |
| BackendDiff.BackendPermutation | scripts/run-deck.py:76-154 | a permutation of an accepted report is accepted with the same view and hash |
| BackendScope.ListExactly | scripts/run-deck.py:316-324 | a list is accepted exactly when it is the sorted duplicate-free listing of the reviewed set |
| BackendScope.EveryPlanHasAView | scripts/run-deck.py:277-329 | each plan is met by one view and by no other |
| BackendScope.AtMostOnePlan | scripts/run-deck.py:277-329 | no view is accepted for two plans |
| BackendScope.ParsedInScope | scripts/run-deck.py:309-329 | a parsed report is in a plan's scope exactly when it shows that plan's identities, operation by operation |
| Launcher.LocalChecks | scripts/run-deck.py:445-490 | everything before the token: passes exactly when manifest, state, flag, role inputs and receipt are in order |
| Launcher.RemoteChecks | scripts/run-deck.py:492-504 | the remote checks in their order |
| Launcher.ApiGates | scripts/run-deck.py:585-623 | passes exactly when the clean diff equals the receipt and state and roles, read again, match it |
| Launcher.BackendGates | scripts/run-deck.py:531-584 | the same with route validation before and manifest, roles, receipt and state read again after |
| Launcher.Launch | scripts/run-deck.py:437-681 | the trace is a prefix of a fixed script and complete exactly in the cleared worlds; the outcome is that of the requested command and of printing after it, or failure |
| LauncherTheorems.SyncComesLastAndOnce | scripts/run-deck.py:437-643 | sync occurs at most once, last, after the whole script; flag, roles and receipt precede the token |
| LauncherTheorems.DiffNeverSyncs | scripts/run-deck.py:437-674 | a diff run never syncs, reads no receipt and has no unknown outcome |
| LauncherTheorems.VerdictExactly | scripts/run-deck.py:397-681 | a reviewed run reports failure exactly when no sync was started, or its output did not decode, or printing failed after it exited with zero; success exactly when it exited with zero and this was printed; else an unknown outcome |
| LauncherTheorems.SyncedYetFailed | scripts/run-deck.py:406-434 | both ways of reporting failure after a started sync occur in cleared worlds |
| LauncherTheorems.ApiSyncIsTheReviewedMigration | scripts/run-deck.py:585-643 | an API sync is only started for a migration that deletes two closed tag classes and whose view and digest the receipt carries |
| LauncherTheorems.BackendSyncIsAReviewedPlan | scripts/run-deck.py:531-584 | a third-party sync is only started for the one plan its receipt names, with exactly its identities |
| LauncherTheorems.ReviewedInputsAreUsed | scripts/run-deck.py:571-623 | inputs as last read before a sync are the ones the receipt was checked against before the token, or they collide with them |
| LauncherTheorems.OneReceiptOneChange | scripts/run-deck.py:437-643 | two runs that sync under one receipt diffed permutations of one report, or the two values hashed for them collide |
| LauncherTheorems.HonestApiReviewSyncs | scripts/run-deck.py:437-643 | a receipt written from an undisturbed API diff clears the sync exactly when the diff is no no-op |
| LauncherTheorems.HonestBackendReviewSyncs | scripts/run-deck.py:437-643 | a receipt written from an undisturbed third-party diff clears the sync exactly when the diff shows the named plan |
| SchemaPages.ListsExactly | scripts/wp1_target.py:649-701 | a complete listing is a run of answers that each announce more and one that ends it |
| SchemaPages.RequestSchemaPages | scripts/wp1_target.py:649-701 | for any server at most 1000 requests; pages are returned exactly when the answers make up a complete listing, and then are those answers |
| SchemaInventory.FileItems | scripts/wp1.py:147-156 | the inner loop accepts exactly well-formed items with new names and files them |
| SchemaInventory.CollectSchemaPages | scripts/wp1.py:124-177 | accepts exactly the complete listings of good items that cover the expected names, and returns the restricted inventory |
| SchemaInventory.ListedPagesAreAccepted | scripts/wp1.py:124-177 | the pages of a complete listing are accepted exactly when the items the server sent are good and cover the expected names, and yield their sources |
| SchemaInventory.ListedItems | scripts/wp1_target.py:686-687 | the items of a listing are the server's, in order |
| SchemaInventory.EmptyPageAccepted | scripts/wp1_target.py:665-670 | the page made up for a brand-new control plane passes exactly when nothing is expected |
| SchemaInventory.OneListing | scripts/wp1_target.py:649-701 | a server has one complete listing at most |
| SchemaInventory.LineEndsDoNotMatter | scripts/wp1.py:113-121 | CR LF and LF versions of a text without stray CRs normalise alike |
| SchemaInventory.CheckSchemas | scripts/wp1_target.py:704-716 | the check passes exactly when the server lists well-formed schemas matching every expected text up to line ends |
| Octets.MinimalIsShortest | scripts/export-rsa-jwk.py:56-58 | no shorter octet string holds the number |
| Octets.SizeIsMinimal | scripts/export-rsa-jwk.py:57 | (bit length + 7) // 8 is the number of octets needed |
| Base64Url.DecodeOfEncode | scripts/export-rsa-jwk.py:58 | decoding inverts encoding on every byte string |
| Base64Url.LettersThenPadding | scripts/export-rsa-jwk.py:58 | an encoding is letters of the alphabet and the padding its length calls for |
| Base64Url.UintRoundTrip | tests/test_jwk_export.py:14-16 | the test's decoder inverts base64url_uint on every natural number; no padding, shortest octets |
| Base64Url.ZeroIsAA | scripts/export-rsa-jwk.py:56-58 | zero reads AA |
| Der.ReadRsaPrivateKey | scripts/export-rsa-jwk.py:35-53 | the offset loop computes the recursive reading of the elements |
| Der.NothingIsTruncated | scripts/export-rsa-jwk.py:13-32 | a length field or value that runs past the end is never accepted, although slices shorten silently |
| Der.ReadIsTiled | scripts/export-rsa-jwk.py:46-50 | a sequence is read exactly when an ascending chain of elements tiles it, with the values of the tiles |
| Der.LengthRoundTrip | scripts/export-rsa-jwk.py:13-22 | a minimal definite length is read back exactly when it needs at most four octets |
| Der.ValueRoundTrip | scripts/export-rsa-jwk.py:25-32 | a written value is read back wherever it stands and whatever follows |
| Der.KeyRoundTrip | scripts/export-rsa-jwk.py:35-53 | the reader inverts the encoding of naturals exactly for nine of them with version 0 or 1 and contents below 2 to the 32 octets |
| Pki.Directory.Step | scripts/generate-pki.py:12-13 | a file step happens whole or not at all |
| Pki.Directory.EnsureCa | scripts/generate-pki.py:16-29 | makes the CA in an empty place, returns for a complete one, raises otherwise without writing |
| Pki.Directory.Issue | scripts/generate-pki.py:32-55 | skips, refuses or issues by what exists, as far as the run gets |
| Pki.Directory.IssueAll | scripts/generate-pki.py:80-81 | the loop over the twelve identities carries out the steps their own files call for |
| Pki.Directory.Generate | scripts/generate-pki.py:58-82 | a run carries out a prefix of the steps planned from the directory it found, and how it ends |
| Pki.StemsDistinct | scripts/generate-pki.py:66-79 | no two identities share a path, and none shares one with the CA |
| PkiTheorems.RanIsAfter | scripts/generate-pki.py:58-82 | the run the method carries out is the one the theorems below are about |
| PkiTheorems.NothingIsOverwritten | scripts/generate-pki.py:16-55 | from any directory, no run changes or removes anything that was there |
| PkiTheorems.IssueInSteps | scripts/generate-pki.py:37-55 | cut before its last step an identity is not complete; issued, it has its own key and the CA's signature |
| PkiTheorems.RunKeepsShape | scripts/generate-pki.py:58-82 | every cut run keeps the shape; uncut and not stuck it leaves all twelve, issued by one CA |
| PkiTheorems.EveryHistoryIsShaped | scripts/generate-pki.py:58-82 | over any sequence of cut runs from an empty directory: a complete prefix under the present CA, at most one partial identity, absent ones |
| PkiTheorems.StuckForGood | scripts/generate-pki.py:16-55 | a run succeeds exactly when nothing is partial; a partial identity or CA makes every later run fail without writing |
| PkiTheorems.FinishedIsFixed | scripts/generate-pki.py:58-82 | a finished directory is left alone |
| PkiTheorems.OneIssuerExactly | scripts/generate-pki.py:32-55 | from any directory, after a successful run an identity belongs to the present CA exactly when it was not complete before or belonged to it already |
| PkiTheorems.NoSignerIssuesNothing | scripts/generate-pki.py:16-55 | with CA files that cannot sign, a run succeeds exactly when all identities are complete, and writes nothing |
| PkiTheorems.OtherIssuerPasses | scripts/generate-pki.py:35-36 | a directory of another CA's identities passes, is left alone and holds none of the present CA's |
| JsonText.EscapeSize | pop-verifier/app.py:262 | at most twelve bytes a code point, six in the basic plane |
| JsonText.EscapeSizeIsTight | pop-verifier/app.py:262 | astral code points take exactly twelve |
| JsonText.RoundTripIffWhole | third-party-backend/app.py:112-115 | a text is read back unchanged exactly when no high surrogate stands before a low one |
| Evidence.ProjectEvidence | third-party-backend/app.py:112-150 | the loops accept exactly the projectable objects and return the thirteen members |
| EvidenceTheorems.DigestFits | pop-verifier/app.py:72-73 | the text of a SHA-256 digest has the form the projector asks for |
| EvidenceTheorems.EvidenceIsProjected | pop-verifier/app.py:208-255 | a verified request's evidence is accepted exactly on its own route with control-free texts, and returned unchanged |
| EvidenceWire.TextReads | third-party-backend/app.py:114 | a string is read to the quote that ends it, whatever it holds, and what follows is left |
| EvidenceWire.BodyReads | third-party-backend/app.py:103-114 | the object read from a body has the thirteen members, each under its name, texts with surrogate halves joined |
| EvidenceTheorems.NothingIsLost | third-party-backend/app.py:112-115 | parsing the verifier's body gives back exactly the members it built |
| EvidenceTheorems.BodyFits | pop-verifier/app.py:261-262 | whatever claims and headers hold, the body fits in 16 KiB |
| EvidenceTheorems.FetchEvidence | third-party-backend/app.py:153-183 | the bounded read passes on exactly complete bodies within the limit whose object projects; every other answer gets its error status |
| EvidenceTheorems.ReplyIsProjected | third-party-backend/app.py:112-177 | whatever the upstream sent, a reply that is passed on has exactly the thirteen members and would be projected again unchanged |
| EvidenceTheorems.VerifiedEvidenceArrives | third-party-backend/app.py:153-177 | from the verifier's claims through the bytes of the body to the backend's reply: on its own route, with clean texts, all thirteen members unchanged, else refused; the match flag is up exactly when claims and headers agree |
| BoundedRead.ReadStatus | third-party-backend/app.py:300-312 | however the bytes are chopped up they are returned exactly when there are at most 4096, and never more than 4097 are taken |

## Left out

- Redaction.SanitizeOutput: the regular expression that hides PEM blocks is a parameter, any function on texts, so nothing is said about what it finds. The order of secrets of equal length is any order.
- Redaction.RedactionIsComplete: for several secrets it is open which sets are harmless among those with a secret that contains the whole mark, or overlaps an edge of it, and with none inside the mark; for a single secret this is settled by SingleValueExactly.
- Launcher.Launch: state that changes after the last read before the sync is not seen by the source either, and is not covered; the lines a diff run prints besides view and digest are left out, and so is a stream that fails only when the interpreter flushes it at its end.
- Reconciler.Sync: nobody else writes to the server while a run lasts; reads that fail while planning or verifying end a run without a further write and are left out; the steps of main after the verification (user profile and demo users) and the wait for a token are not modelled; values the server fills in on a PUT beyond the fields sent are not either.
- Forwarder.TuneFailureSkipsClose: an interpreter that closes a socket once nothing refers to it is not modelled.
- Forwarder.StopClosesEverything: a signal handler that enters stop while the main thread holds the lock is excluded; shutdown and close of a socket count as one step, and a close that raises is taken to have released the socket, as the interpreter does.
- MigrationApproval.AcceptedViewPassesReceipt: a receipt file over 16 KiB is refused before it is parsed; ids are of any length here, and the size of the file is left out, as it is for LauncherTheorems.HonestApiReviewSyncs.
- Pki.Directory.Generate: the CA's serial file, file modes and the contents of certificates beyond key, names and issuer are left out.
- Base64Url.Decode: characters outside the alphabet, which Python's decoder skips, are refused here; no encoder output contains any.
- EvidenceWire.Read: blanks between tokens, bodies that are not ASCII, and members that are numbers, lists or objects are refused; the verifier writes none of them.
- EvidenceTheorems.FetchEvidence: a timeout (status 504) and the parsing of the answer's headers are left out.
- Json: Python's equality identifies true with 1 and false with 0, and 1.0 with 1; the model keeps them apart.
- Error messages: the source's failures differ in their text only, so one failure value stands for all.
- validate_wp5_additive_scope and read_wp5_runtime_approval: superseded, and not called by the launcher.
- validate_third_party_runtime_state, validate_foundation_state, validate_api_runtime_state, validate_targets: long comparisons with constants; one abstract outcome stands for all of them.
- sync_schemas, schema writes: thin over the same page loop.
- YAML and JSON parsing, duplicate-key hooks, file permissions, subprocesses, HTTP, TLS, JWT and certificate handling: foreign calls whose results are inputs here.
- The Lua route guard, the UI projector and the secret and realm rendering scripts: would only add easy members.
