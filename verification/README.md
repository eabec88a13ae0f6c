# TuneX: a verified model

TuneX lets a Control service hand time-limited forwarding work to Agents. This project models the parts of it
where a mistake would be hard to see, in Dafny, and proves what they promise. `dafny verify dfyconfig.toml` checks
everything.

- **Execution leases** (`Lease*`, `ClockEvidence`, `Recovery*`). The Agent's guard works with a wall clock
  it does not trust and an uptime counter. The runs cover renewals, credentials, drains of drains and latched
  failures. `Recovery` puts Control's protected record, any number of Agents and the restore gate into one system:
  once recovery may start, nothing that ends by the recorded bound can be executed any more. Reading the record and
  passing the gate are two steps; anything may happen in between. The true time of a step is part of the
  step and readable by nobody; clocks are only assumed to be what their evidence says. A newer, shorter ticket does
  not revoke an older, longer one, because `Allow` looks at the ticket it is given.
- **Command dispatch** (`Dispatch*`). The rule console sends frozen commands to a server that may commit and answer,
  commit and lose the answer, refuse, or never see the request. Every `await` is a step boundary; stop, clear, replay
  and stale coroutines interleave freely. A complete refusal (one of eight HTTP codes) is taken to mean that this
  request did not commit, and the server is idempotent by key.
- **Path commands and batches** (`CommandTrace`, `Path*`, `CanonicalJson`, `Batches`). Two smaller machines of the same kind, the canonical JSON equality they rely on, and the batches that
  feed the console.
- **Wire contracts** (`SafeInteger`, `JsonReader`, `Timestamps`, `Hosts`, `Slots`, `Retirements`, `Snapshot*`,
  `Multihop`, `Transit`, `Policy`). Each validator loop accepts exactly what a
  declarative predicate says. On top of that: ADP/3's piecewise checks add up to one ADP/2 snapshot, and separately
  accepted multi-hop assignments agree on the whole path. The number rule is that of section 2.2 of RFC 7493, distinct
  names are section 2.3 of RFC 7493, and timestamps are those of section 5.6 of RFC 3339.
- **Upgrade assessment** (`Upgrade`). Migrations, journals and nodes, and the exact meaning of each decision.

State that the source updates in place is a class. The guard's methods are proved equal to a function of the old state;
the consoles carry the run they have made so far as ghost state, and each handler is proved to be one step of it.

Foreign code is a parameter: digests (JCS of RFC 8785 with SHA-256), `netip.ParseAddr`, `strings.ToLower` outside ASCII,
CIDR syntax, `time.Parse`, `JSON.stringify`, `encodeURIComponent`, key generation and every clock. Where a lemma needs
a fact about one of them it says so: `CollisionFree` for path digests, `Netip` and `Lowers` for hosts, `Sane` for JSON
text, `Honest` for clock evidence. Time is counted in unbounded nanoseconds on Agents and milliseconds on Control.
Identifiers, protocols and roles are slash-free, which the JSON schemas guarantee before these rules run.

Details the model keeps because the code has them:

- `Date.parse` drops everything below a millisecond, so the protected record can lie below the true end of a window; the
  gate's margins absorb it.
- A capture whose draft does not parse leaves earlier locks in place.
- Copying a record into the authoring form normalises two protocols to TCP, UDP; "exactly that proposal" is up to that.
- A direct ADP/3 assignment is refused for a bad time range before the separate time check is reached.

## Model

| member | source | states |
|---|---|---|
| `LeaseGuard.Guard.New` | agent/internal/authorization/guard.go:27-39 | a guard opens exactly for 0 < skew < maximum and a readable sample with non-negative uptime and a set wall clock, with no lease and no failure |
| `LeaseGuard.Guard.SampleLocked` | agent/internal/authorization/guard.go:40-60 | the in-place sampling step is the specification `Observe`: latched failure, history checks, then the credential |
| `LeaseGuard.Guard.Check` | agent/internal/authorization/guard.go:61-66 | samples and changes nothing else |
| `LeaseGuard.Guard.ValidateServerTime` | agent/internal/authorization/guard.go:67-80 | latches a failure when the server clock is further away than the skew |
| `LeaseGuard.Guard.SetCredential` | agent/internal/authorization/guard.go:81-89 | replaces the credential limit only after a good sample |
| `LeaseGuard.Guard.Accept` | agent/internal/authorization/guard.go:90-115 | the new state and ticket of a renewal are those of the specification `Perform` |
| `LeaseGuard.Guard.Allow` | agent/internal/authorization/guard.go:116-131 | a ticket is judged by its own limits at a fresh sample; a missing ticket touches no clock |
| `LeaseGuard.Guard.Drain` | agent/internal/authorization/guard.go:133-142 | narrows both limits at a fresh sample; a dead ticket when sampling fails |
| `LeaseRuns.CallFrame` | agent/internal/authorization/guard.go:40-142 | every call keeps origin, skew and maximum, never moves uptime back, and only Accept moves the current lease |
| `LeaseRuns.AcceptFrame` | agent/internal/authorization/guard.go:97-114 | a granted lease starts before the current one ends; its ticket ends exactly at the cutoff and at accept uptime + min(maximum, cutoff - accept wall); a refused Accept leaves the lease alone |
| `LeaseRuns.RunKeepsInv` | agent/internal/authorization/guard.go:27-142 | every run of calls keeps the invariant on samples, grants, tickets and uses |
| `LeaseRuns.DriftNeverAccumulates` | agent/internal/authorization/guard.go:49-54 | over any run, any two accepted samples agree on elapsed wall time and uptime up to twice the skew |
| `LeaseRuns.UsesStayInsideAuthority` | agent/internal/authorization/guard.go:90-142 | every successful Allow, on a ticket or any chain of drains, is below accept uptime + min(maximum, cutoff - accept wall) and below the cutoff by the wall clock, where the cutoff is the window less the skew or the credential limit in force at the Accept, and inside the credential in force at the Allow |
| `LeaseRuns.DrainOnlyNarrows` | agent/internal/authorization/guard.go:133-142 | a drained ticket never allows what its parent refuses at the same sample, whatever happened in between |
| `LeaseRuns.FailureIsFinal` | agent/internal/authorization/guard.go:40-60 | after a latched failure no continuation samples, grants or allows anything |
| `LeaseRuns.ExpiryIsFinal` | agent/internal/authorization/guard.go:97-99 | once a sample reached the end of the lease no continuation grants again |
| `LeaseRuns.GrantedTimeIsContiguous` | agent/internal/authorization/guard.go:97-114 | the granted uptime intervals of any run cover one interval without a gap |
| `LeaseRuns.SteadyClockNeverDiverges` | agent/internal/authorization/guard.go:49-53 | liveness partner of the drift check: clocks that stay within half the skew of one offset never latch a divergence |
| `LeaseLimits.LimitIsLastSet` | agent/internal/authorization/guard.go:81-89 | at every point of every run the credential limit in force is the one of the last SetCredential that got a sample, or the initial one |
| `LeaseLimits.CredentialTakesEffect` | agent/internal/authorization/guard.go:55-58 | after a SetCredential of a real limit that got a sample, every later use samples a wall clock before that limit and every later ticket ends by it, until the next SetCredential |
| `LeaseLimits.AcceptIsExact` | agent/internal/authorization/guard.go:90-115 | a renewal that gets a sample is granted exactly if the lease has not run out, the window is not from the future and no longer than the maximum, and something is left before the cutoff |
| `LeaseLimits.AllowIsExact` | agent/internal/authorization/guard.go:116-131 | an Allow that gets a sample succeeds exactly inside both limits of the ticket presented |
| `LeaseLimits.DrainIsExact` | agent/internal/authorization/guard.go:133-142 | a drain ends on each clock with its parent or after the drain time, whichever is first, and is over at once if sampling fails |
| `LeaseLimits.ServerSkewEndsAuthority` | agent/internal/authorization/guard.go:67-80 | a server clock further away than the skew ends all sampling, granting and use for good; a closer one latches nothing |
| `LeaseLimits.WallNeverFallsBack` | agent/internal/authorization/guard.go:50 | over any run the wall clock never falls back by more than the skew between two samples in a row |
| `ClockEvidence.AcceptedEvidenceBoundsError` | agent/internal/authorization/synchronization.go:23-35 | accepted evidence from an honest source bounds the true clock error by the skew, including the 500 ppm holdover charge |
| `ClockEvidence.SynchronizedClock.Read` | agent/internal/authorization/synchronization.go:44-84 | a successful read returns the sample taken after the provider query, judged against synchronized evidence of this host and platform that was fetched less than two seconds and observed at most thirty seconds ago |
| `ClockEvidence.SynchronizedClock.constructor` | agent/internal/authorization/synchronization.go:39-43 | starts without cached evidence |
| `Recovery.PublishKeepsRecord` | apps/control/src/infrastructure/authority.ts:44-50 | issuing keeps the protected record above every window published so far, at millisecond truncation |
| `Recovery.UseIsBeforeValid` | agent/internal/authorization/guard.go:100-131 | an Allow that succeeds on an honest clock does so strictly before the window ends in true time |
| `Recovery.RestoreKeepsInv` | scripts/ops/recovery.ts:55-68 | a restore that passes its gates happens after every window at or below the bound it read has ended in true time |
| `Recovery.GateIsLate` | scripts/ops/recovery.ts:68 | the gate arithmetic places true time beyond the recorded bound, absorbing the checker error and the millisecond lost in parsing |
| `Recovery.RunKeepsInv` | scripts/ops/recovery.ts:55-68 | every run of Control, any number of Agents and any number of restores keeps the system invariant |
| `Recovery.RecoveryNeverOverlapsAuthority` | scripts/ops/recovery.ts:55-68 | after a restore gate passed, no Allow succeeds on any Agent for a ticket or drain whose window ends at or below the latestValidUntil the restore read, whenever it was published; everything published before the read is such a window |
| `RecoveryWindows.RestoreStarts` | scripts/ops/recovery.ts:62-66 | a restore starts exactly with issuers stopped, in maintenance and with fresh trust |
| `RecoveryWindows.MaintenanceClosesTheGap` | scripts/ops/recovery.ts:61-68 | if nobody leaves maintenance between reading the record and passing the gate, nothing is published in between: every window published before the gate has ended in true time and is never allowed again |
| `RecoveryWindows.GateOpensInTime` | scripts/ops/recovery.ts:68 | an honest, fresh checker passes once true time is past the bound and both skews |
| `RecoveryWindows.IssuedStaysRecorded` | apps/control/src/infrastructure/authority.ts:44-50 | what was issued stays below every later record in end, lease length and skew |
| `RecoveryWindows.SequenceIdentifies` | apps/control/src/infrastructure/authority.ts:44-49 | over every run sequence numbers never fall, stay within the counter, and two records with one number are the same record |
| `RecoveryWindows.RebindNeedsReview` | apps/control/src/infrastructure/authority.ts:52-53 | trust changes only in maintenance, past the recorded bound and never to itself, and maintenance after it ends only with a review of that recovery |
| `Recovery.CheckerIsWithinItsSkew` | agent/cmd/time-proof/main.go:29-40 | the shipped time checker is itself within the five seconds it vouches for |
| `RuleDispatch.PendingOccurs` | apps/web/rule-console.js:183 | the rows a start will visit include every pending row and no other |
| `RuleDispatch.PendingAscends` | apps/web/rule-console.js:183 | they are visited once each, in plan order |
| `DispatchConsole.RuleConsole.constructor` | apps/web/rule-console.js:1-3 | starts without a plan, at the beginning of a run |
| `DispatchConsole.RuleConsole.GotPreview` | apps/web/rule-console.js:196-207 | one step of the run the object carries, so the run theorems apply to it: a preview answer |
| `DispatchConsole.RuleConsole.GotPlan` | apps/web/rule-console.js:207-219 | one step of the run the object carries, so the run theorems apply to it: a plan answer |
| `DispatchConsole.RuleConsole.GotReceipt` | apps/web/rule-console.js:162-231 | one step of the run the object carries, so the run theorems apply to it: a write answer |
| `DispatchConsole.RuleConsole.Dispatch` | apps/web/rule-console.js:179-187 | one step of the run the object carries, so the run theorems apply to it: a start or a replay |
| `DispatchConsole.RuleConsole.StopDispatch` | apps/web/rule-console.js:239 | one step of the run the object carries, so the run theorems apply to it: a stop |
| `DispatchConsole.RuleConsole.ClearAll` | apps/web/rule-console.js:240-249 | one step of the run the object carries, so the run theorems apply to it: a clear |
| `DispatchConsole.RuleConsole.Consent` | apps/web/rule-console.js:180 | one step of the run the object carries, so the run theorems apply to it: the consent box |
| `DispatchConsole.RuleConsole.Close` | apps/web/rule-console.js:38-43 | one step of the run the object carries, so the run theorems apply to it: a discard |
| `DispatchConsole.RuleConsole.Trusted` | apps/web/rule-console.js:179-238 | at any moment the labels the object shows are true of the server, its plans have their shape and its invariant holds |
| `DispatchConsole.RuleConsole.PrepareRows` | apps/web/rule-console.js:81-88 | one step of the run the object carries, so the run theorems apply to it: a new plan after a permitted discard |
| `DispatchConsole.RuleConsole.RetryOperation` | apps/web/rule-console.js:141-161 | one step of the run the object carries, so the run theorems apply to it: the beginning of an explicit retry |
| `DispatchConsole.RuleConsole.RetryRead` | apps/web/rule-console.js:141-161 | one step of the run the object carries, so the run theorems apply to it: the end of an explicit retry |
| `DispatchSteps.PendingIsTail` | apps/web/rule-console.js:181-184 | when nothing is blocked, the pending rows are the tail of the plan behind settled ones |
| `DispatchSteps.ClientKeeps` | apps/web/rule-console.js:77-249 | every step of every interleaving keeps the console invariant |
| `DispatchLabels.StepEffect` | apps/web/rule-console.js:162-238 | what one step may do to a row, its writes and the plans |
| `DispatchTheorems.NextKeeps` | apps/web/rule-console.js:162-249 | console steps and server decisions together keep labels, fates and commits consistent |
| `DispatchTheorems.RunIsSound` | apps/web/rule-console.js:162-249 | every reachable world is sound |
| `DispatchTheorems.LabelsAreSound` | apps/web/rule-console.js:179-238 | pending, checking and preflight-failed rows were never sent; a rejected key is not and cannot become committed; accepted and unchanged keys are committed; an uncertain row was sent |
| `DispatchTheorems.EachRowCommitsAtMostOnce` | apps/web/rule-console.js:179-238 | with an idempotent server no two commits belong to one row, and each carries that row's frozen command |
| `DispatchTheorems.CommandsAreFrozen` | apps/web/rule-console.js:77-80 | verb, resource, body and key of a row, and of every write for it, never change |
| `DispatchTheorems.PlansKeepTheirShape` | apps/web/rule-console.js:179-238 | at every step the rows read settled ones, at most one other, then pending ones |
| `DispatchTheorems.FirstWriteFollowsItsCheck` | apps/web/rule-console.js:194-219 | the first write of a preflighted row follows a matching check, and for a path row a matching preview, in the same attempt |
| `DispatchTheorems.ClearedPlanIsInert` | apps/web/rule-console.js:239-249 | nothing of a cleared or replaced plan is sent later, and nothing changes it |
| `DispatchLate.LateReplyChangesNothing` | apps/web/rule-console.js:196-224 | any answer to a request of a cleared or replaced plan, however late, ends that coroutine and changes nothing else in the console or on the server |
| `DispatchLate.StaleRetryChangesNothing` | apps/web/rule-console.js:141-161 | a retry begun before a clear shows nothing when its reads arrive |
| `DispatchTheorems.SettledIsFinal` | apps/web/rule-console.js:162-238 | a settled label never changes |
| `DispatchReceipts.RecognizedSays` | apps/web/rule-console.js:162-178 | a receipt is recognised exactly if it names the rule and says unchanged (no operation, the expected revision) or accepted (an operation, the next revision or the retried one), and for a path row binds its own template |
| `DispatchReceipts.ReceiptsMatchLabels` | apps/web/rule-console.js:162-222 | over every run an unchanged row holds a receipt for its rule with no operation at the expected revision, an accepted row one with an operation at the next revision or, for a retry, of the same source at the same revision, and a path row one for its own template |
| `DispatchReceipts.ReceiptDecides` | apps/web/rule-console.js:219-231 | the answer alone decides between accepted, unchanged and neither |
| `DispatchAnswers.PreviewDecides` | apps/web/rule-console.js:196-206 | a preview lets the attempt go on exactly if it repeats the frozen request, template and specs and claims nothing; otherwise the row is preflight-failed; nothing is sent |
| `DispatchAnswers.PlanDecides` | apps/web/rule-console.js:207-219 | a plan lets the frozen write go exactly if it matches the frozen Profile and the runtime gate; otherwise the row is preflight-failed and nothing is sent |
| `DispatchAnswers.WriteFailureDecides` | apps/web/rule-console.js:223-228 | a failed write is rejected exactly if it was no replay and drew one of the eight complete refusals; otherwise it is uncertain |
| `DispatchAnswers.StoppedIsUncertain` | apps/web/rule-console.js:219-228 | a write stopped in flight reads uncertain, whatever its answer |
| `DispatchOperator.StopIsHonoured` | apps/web/rule-console.js:239 | over every run nothing is sent after a stop until the operator starts again |
| `DispatchOperator.StartNeedsConsent` | apps/web/rule-console.js:180 | a start without consent, without a list or during an attempt does nothing |
| `DispatchOperator.UnfinishedNeedsConfirmation` | apps/web/rule-console.js:39-43 | a list leaves the screen only by a clear or while nothing runs, and an unfinished one only with confirmation |
| `DispatchDoubt.UncertainIsNeverRejected` | apps/web/rule-console.js:179-238 | a row that once read uncertain never reads rejected in any continuation |
| `CanonicalJson.EnumerationIsAnOrder` | apps/web/rule-console.js:7-8 | the enumeration order of a rebuilt object (array indices numerically, then sorted keys) is a strict total order |
| `CanonicalJson.OrderedIsCanonical` | apps/web/rule-console.js:7-8 | two JSON values have the same canonical form exactly if they differ only in key order, at any depth |
| `CanonicalJson.OrderedTwice` | apps/web/rule-console.js:7-8 | canonical form is idempotent |
| `CanonicalJson.SortedIsUnique` | apps/web/path-templates.js:165-167 | a sorted object is determined by what it maps each key to, so comparing canonical text compares values |
| `Batches.EqualMeansSame` | apps/web/path-templates.js:165-167 | comparing canonical text is equality up to key order |
| `Batches.ProfileSpecKeeps` | apps/web/rule-console.js:100 | the expected spec agrees with its source outside `transport` and is locked to the target Profile revision |
| `Batches.ProfileRow` | apps/web/rule-console.js:95-103 | a row is built exactly if the item is valid and the proposal is the source with the transport lock replaced; the row proposes just that |
| `Batches.ProfileBatchIsExact` | apps/web/rule-console.js:89-107 | a Profile batch is accepted exactly if the proposal is sound and every item fits |
| `Batches.ProfileBatchIsMinimal` | apps/web/rule-console.js:95-103 | every row of an accepted batch moves its rule to another revision of the Profile it uses and changes nothing else; its body carries that spec and the expected revision |
| `Batches.PathSpecKeeps` | apps/web/rule-console.js:128 | the proposed spec agrees with its source outside `path` and `transport`, and goes through every node after the entry in order |
| `Batches.PathRow` | apps/web/rule-console.js:122-136 | a row is built exactly if the item is valid, changes path and transport alone and is not already at the target; `specChanged` is exact |
| `Batches.PathBatchIsExact` | apps/web/rule-console.js:108-140 | a path batch is accepted exactly if the proposal is sound and every item fits |
| `Batches.PathBatchIsMinimal` | apps/web/rule-console.js:122-136 | every row of an accepted batch keeps its entry and protocols, goes through the target nodes in order under the target Profile, and changes nothing else; its body carries the template and the expected revision |
| `Batches.CollectIsAll` | apps/web/rule-console.js:95-103 | mapping rows that may throw succeeds exactly if every row does, in order |
| `CommandTrace.NeverReplaced` | apps/web/path-templates.js:109-142 | in a lawful trace, writes of two different commands are separated by the end of the first |
| `CommandTrace.SettledForAReason` | apps/web/path-templates.js:109-142 | a command ends for one of four reasons: valid reply, refusal of its only write, failed check before any write, operator |
| `CommandTrace.FirstWriteIsChecked` | apps/web/path-templates.js:257-266 | under a guarded law the first write after a command began is that command, and a plan that passes for it came in between |
| `PathTemplates.NextKeeps` | apps/web/path-templates.js:44-157 | every step of template authoring keeps the invariant on locks, readings, command and parked requests |
| `PathTemplates.RunIsSound` | apps/web/path-templates.js:44-157 | every reachable authoring state satisfies the invariant |
| `PathTemplates.PendingIsNeverReplaced` | apps/web/path-templates.js:109-142 | over every run, all writes carry the remembered key and body until that command is settled |
| `PathTemplates.EndsForAReason` | apps/web/path-templates.js:109-157 | over every run, a command ends with an acceptance of this template at the revision it implies, a complete refusal of its only write, or the operator |
| `PathTemplates.PublishedFromOneReading` | apps/web/path-templates.js:49-86 | every published config is valid, pairs endpoint i with node i + 1, and took all endpoints from one capture or record of exactly that proposal |
| `PathTemplates.EndpointAdds` | apps/web/path-templates.js:55-60 | an endpoint joins a capture only for the next node of its own draft |
| `PathTemplates.ComposedIsPaired` | apps/web/path-templates.js:115-121 | a fresh publication carries the locks of its own unchanged draft |
| `PathTemplates.CommandCarriesTheForm` | apps/web/path-templates.js:115-125 | a command starts only by confirmation and carries template, expected revision, draft and locks of the form |
| `PathTemplates.WrittenWasStarted` | apps/web/path-templates.js:109-128 | over every run, every write was started by a confirmed command with the template, revision and proposal then in the form |
| `PathLate.LocksBelongToTheForm` | apps/web/path-templates.js:49-65 | over every run, endpoints become locks only if the form is still the one their capture was started from |
| `PathLate.NoEditIsOverwritten` | apps/web/path-templates.js:66-86 | over every run, a record is copied over the form only if nobody edited it since that record was asked for |
| `PathLate.UsedRecordIsCurrent` | apps/web/path-templates.js:71-76 | a record is used only for the newest read of this connection, and only if it is the template and revision asked for |
| `TemplateConsole.Authoring.constructor` | apps/web/path-templates.js:19-20 | starts blank |
| `TemplateConsole.Authoring.Invalidate` | apps/web/path-templates.js:44-48 | one step of the run the object carries, so the run theorems apply to it: an invalidation |
| `TemplateConsole.Authoring.Edit` | apps/web/path-templates.js:145 | one step of the run the object carries, so the run theorems apply to it: an edit |
| `TemplateConsole.Authoring.Capture` | apps/web/path-templates.js:49-54 | one step of the run the object carries, so the run theorems apply to it: the beginning of a capture |
| `TemplateConsole.Authoring.GotEndpoint` | apps/web/path-templates.js:55-64 | one step of the run the object carries, so the run theorems apply to it: an endpoint reply |
| `TemplateConsole.Authoring.Inspect` | apps/web/path-templates.js:66-71 | one step of the run the object carries, so the run theorems apply to it: the beginning of an inspection |
| `TemplateConsole.Authoring.GotRecord` | apps/web/path-templates.js:72-85 | one step of the run the object carries, so the run theorems apply to it: a record reply |
| `TemplateConsole.Authoring.Command` | apps/web/path-templates.js:109-128 | one step of the run the object carries, so the run theorems apply to it: a publish, archive or replay |
| `TemplateConsole.Authoring.GotOutcome` | apps/web/path-templates.js:126-142 | one step of the run the object carries, so the run theorems apply to it: a command reply |
| `TemplateConsole.Authoring.Clear` | apps/web/path-templates.js:150-156 | one step of the run the object carries, so the run theorems apply to it: a clear |
| `TemplateConsole.Authoring.Discard` | apps/web/path-templates.js:157 | one step of the run the object carries, so the run theorems apply to it: a discard |
| `TemplateConsole.Authoring.Trusted` | apps/web/path-templates.js:109-142 | at any moment the object has written a different command only after the earlier one ended, and published only from one reading |
| `PathSwitch.NextKeeps` | apps/web/path-templates.js:190-339 | every step of the path switch keeps the invariant on tokens, proposals, command and parked requests |
| `PathSwitch.RunIsSound` | apps/web/path-templates.js:190-339 | every reachable switch state satisfies the invariant |
| `PathSwitch.PendingIsNeverReplaced` | apps/web/path-templates.js:250-284 | over every run, all writes carry the remembered key and body until that command is settled |
| `PathSwitch.EndsForAReason` | apps/web/path-templates.js:250-284 | over every run, a command ends with a receipt for its rule, revision and template, a complete refusal of its only write, a failed check before any write, or the operator |
| `PathSwitch.FirstWriteFollowsItsPlan` | apps/web/path-templates.js:257-266 | over every run, the first write after a command began is that command, and in between came a fresh plan that matches its exact Profile and the runtime gate |
| `PathSwitch.WrittenAsPreviewed` | apps/web/path-templates.js:227-249 | over every run, what is written was previewed for exactly that request and changes path and Profile alone: it enters at the first locked node, goes through every later one in order, and uses the locked Profile revision |
| `PathSwitch.SwitchedSpecKeeps` | apps/web/path-templates.js:242 | the switched spec agrees with the previewed one outside `path` and `transport`, goes through the nodes after the entry in order and uses the locked Profile revision |
| `PathSwitch.CommandIsTheProposal` | apps/web/path-templates.js:250-256 | a command starts only by confirmation and is the proposal on screen |
| `PathSwitch.WrittenWasStarted` | apps/web/path-templates.js:250-266 | over every run, every write was started by a confirmed submit of the proposal then on screen |
| `SwitchConsole.Switch.constructor` | apps/web/path-templates.js:168-170 | starts blank |
| `SwitchConsole.Switch.Invalidate` | apps/web/path-templates.js:190-194 | one step of the run the object carries, so the run theorems apply to it: an invalidation |
| `SwitchConsole.Switch.Edit` | apps/web/path-templates.js:331 | one step of the run the object carries, so the run theorems apply to it: an edit |
| `SwitchConsole.Switch.Lock` | apps/web/path-templates.js:200-204 | one step of the run the object carries, so the run theorems apply to it: the beginning of a lock |
| `SwitchConsole.Switch.GotTemplate` | apps/web/path-templates.js:205-213 | one step of the run the object carries, so the run theorems apply to it: a template reply |
| `SwitchConsole.Switch.Prepare` | apps/web/path-templates.js:227-232 | one step of the run the object carries, so the run theorems apply to it: the beginning of a preview |
| `SwitchConsole.Switch.GotPreview` | apps/web/path-templates.js:233-248 | one step of the run the object carries, so the run theorems apply to it: a preview reply |
| `SwitchConsole.Switch.Submit` | apps/web/path-templates.js:250-259 | one step of the run the object carries, so the run theorems apply to it: an apply or a replay |
| `SwitchConsole.Switch.GotPlan` | apps/web/path-templates.js:259-266 | one step of the run the object carries, so the run theorems apply to it: a plan reply |
| `SwitchConsole.Switch.GotReceipt` | apps/web/path-templates.js:266-283 | one step of the run the object carries, so the run theorems apply to it: a write reply |
| `SwitchConsole.Switch.Clear` | apps/web/path-templates.js:334-338 | one step of the run the object carries, so the run theorems apply to it: a clear |
| `SwitchConsole.Switch.Discard` | apps/web/path-templates.js:339 | one step of the run the object carries, so the run theorems apply to it: a discard |
| `SwitchConsole.Switch.Trusted` | apps/web/path-templates.js:227-284 | at any moment the object has written a different command only after the earlier one ended, and only what was previewed |
| `SafeInteger.IsSafeInteger` | agent/internal/contracts/validate.go:57-96 | a token is accepted exactly if it has at most 128 characters, matches the number pattern and denotes an integer of magnitude at most 2^53 - 1 |
| `SafeInteger.DecideParts` | agent/internal/contracts/validate.go:64-95 | the exponent and scale shortcuts decide exactly whether the decimal value is a safe integer |
| `SafeInteger.MatchIsSound` | agent/internal/contracts/validate.go:57-63 | the pattern accepts only its language |
| `SafeInteger.MatchIsComplete` | agent/internal/contracts/validate.go:57-63 | the pattern accepts all of its language and splits each token in the one possible way |
| `SafeInteger.TooSmall` | agent/internal/contracts/validate.go:64-95 | no token cut off by the lower scale bound denotes an integer |
| `SafeInteger.TooLarge` | agent/internal/contracts/validate.go:64-95 | no token cut off by the upper scale bound denotes a safe integer |
| `JsonReader.ReadValue` | agent/internal/contracts/validate.go:98-156 | the loop-based reader computes the recursive specification and always advances |
| `JsonReader.ParseTokens` | agent/internal/contracts/validate.go:159-180 | a stream is accepted only if one value consumes all of it |
| `JsonReader.ReadsEveryTree` | agent/internal/contracts/validate.go:98-156 | reading the tokens of an acceptable tree returns its meaning and consumes exactly those tokens |
| `JsonReader.ReadsOnlyTrees` | agent/internal/contracts/validate.go:98-156 | whatever is accepted is the token stream of an acceptable tree |
| `JsonReader.ParsesExactlyTheTrees` | agent/internal/contracts/validate.go:98-180 | a stream parses exactly if it spells a tree with distinct keys, depth at most 64 and safe integers, and then to that tree |
| `Timestamps.CompareTimesIsExact` | agent/internal/contracts/time.go:17-50 | comparison fails exactly on timestamps that are no real instant, and otherwise orders exact rational instants of any precision |
| `Timestamps.CompareTimesByFields` | agent/internal/contracts/time.go:17-50 | hence it compares calendar fields, then fractions with trailing zeros ignored |
| `Timestamps.UnixOrder` | agent/internal/contracts/time.go:17-26 | seconds computed from the proleptic calendar order exactly as the calendar fields do |
| `Timestamps.CompareTimesIsTransitive` | agent/internal/contracts/time.go:28-50 | the order is transitive and ties propagate |
| `Timestamps.CompareTimesIsAntisymmetric` | agent/internal/contracts/time.go:28-50 | swapping the arguments negates the result |
| `Hosts.NormalizedIsCanonical` | agent/internal/contracts/validate.go:235-263 | normalising is idempotent on everything it accepts |
| `Hosts.NameIsCanonical` | agent/internal/contracts/validate.go:232-263 | for anything that is no address, canonical means a valid name as it stands |
| `Hosts.RelayCanonicalHost` | agent/internal/adp3relay/validate.go:155-182 | the loop-based checker accepts exactly the hosts the normalising checker accepts |
| `Hosts.RelayName` | agent/internal/adp3relay/validate.go:159-181 | the scans for digits, length and labels accept exactly the valid names |
| `Hosts.RelayLabel` | agent/internal/adp3relay/validate.go:171-180 | the label scan accepts exactly the valid labels |
| `Text.JoinInjective` | agent/internal/contracts/validate.go:326-335 | a slash-joined key determines its parts when everything before the last slash is slash-free |
| `Text.DecimalInjective` | agent/internal/contracts/validate.go:326-360 | formatted numbers are equal exactly if the numbers are |
| `Slots.PlaceKeys` | agent/internal/adp3/validate.go:149-150 | logical and physical keys are equal exactly if the slots are |
| `Slots.Keys` | agent/internal/adp3/validate.go:149-151 | identifiers and keys are distinct exactly if the assignments take separate slots |
| `Slots.FreeMeansApart` | agent/internal/adp3/validate.go:145-156 | comparing with the last identifier and the seen-maps is comparing with every earlier assignment |
| `Slots.TryBook` | agent/internal/adp3/validate.go:145-156 | one turn of the seen-map loop refuses exactly when the list cannot be distinct and keeps the maps exact |
| `Retirements.BelowIsStrictOrder` | agent/internal/adp3/validate.go:248-265 | the retirement order is a strict total order |
| `Retirements.MarkKeys` | agent/internal/adp3/validate.go:231 | retired keys are equal exactly if the retired fences are |
| `Retirements.Retire` | agent/internal/adp3/validate.go:231-239 | comparing with the neighbour and the retired map is comparing with every earlier retirement |
| `Retirements.TryRetire` | agent/internal/adp3/validate.go:231-244 | one turn of the retirement loop refuses exactly when the retirements are not acceptable and keeps the map exact |
| `SnapshotV2.CompareTombstonesIsRank` | agent/internal/contracts/validate.go:280-300 | the comparison is the lexicographic order on protocol, port, generation and id |
| `SnapshotV2.ValidateConfig` | agent/internal/contracts/validate.go:340-356 | a config is accepted exactly if host, CIDRs and digest are right |
| `SnapshotV2.ValidateAssignments` | agent/internal/contracts/validate.go:322-357 | accepted exactly if ids ascend, keys are distinct and every config is right |
| `SnapshotV2.ValidateTombstones` | agent/internal/contracts/validate.go:358-374 | accepted exactly if ordered, unrepeated, not from the future, and below every live fence of the slot |
| `SnapshotV2.ValidateSnapshot` | agent/internal/contracts/validate.go:302-375 | the ADP/2 validator accepts exactly the snapshots with that declarative meaning |
| `SnapshotV3.TombstoneOrderIsRank` | agent/internal/adp3/validate.go:248-265 | the comparison is the lexicographic order with the physical protocol first |
| `SnapshotV3.SingleMeans` | agent/internal/adp3/validate.go:167-181 | a direct assignment checked as a one-element ADP/2 snapshot passes exactly if its time range, id and config do |
| `SnapshotV3.EmptyMeans` | agent/internal/adp3/validate.go:207-220 | the empty ADP/2 snapshot passes exactly if the time range does |
| `SnapshotV3.ValidateRole` | agent/internal/adp3/validate.go:157-204 | the per-role branch accepts what the role demands, and refuses nothing else unless the time range is bad |
| `SnapshotV3.ValidateAssignments` | agent/internal/adp3/validate.go:148-206 | the assignment loop accepts exactly distinct slots and assignments that fit their roles, given a good time range |
| `SnapshotV3.ValidateTombstones` | agent/internal/adp3/validate.go:221-245 | the retirement loop accepts exactly its declarative meaning, and reports a resurrection only for a real one |
| `SnapshotV3.ValidateSnapshot` | agent/internal/adp3/validate.go:132-247 | the ADP/3 validator accepts exactly the snapshots with the declarative meaning |
| `SnapshotFields.Retirements3` | agent/internal/adp3/validate.go:221-245 | over the message fields: retirements are accepted exactly if each names the protocol of its role, they ascend, none repeats a fence or comes from the future, and every live assignment of a retired listener has a higher fence |
| `SnapshotFields.Slots3` | agent/internal/adp3/validate.go:147-156 | over the message fields: slots are distinct exactly if ids ascend and no two share forward, protocol and role or a listener |
| `SnapshotFields.RetiresItsListener` | agent/internal/adp3/validate.go:224-230 | the retirement of an accepted direct or multi-hop assignment must name the very protocol it listened on |
| `SnapshotFields.Retirements2` | agent/internal/contracts/validate.go:358-374 | the same exact fencing rule over the ADP/2 fields |
| `SnapshotFields.Slots2` | agent/internal/contracts/validate.go:322-339 | the same exact slot rule over the ADP/2 fields |
| `SnapshotFields.RetirementsTransit` | agent/internal/adp3transit/validate.go:193-206 | the same exact fencing rule over the Transit fields, where a port alone is the physical slot |
| `SnapshotFields.SlotsTransit` | agent/internal/adp3transit/validate.go:186-191 | the same exact slot rule over the Transit fields, where a logical slot has no role |
| `SnapshotComposition.PiecewiseComposes` | agent/internal/adp3/validate.go:145-245 | whenever ADP/3 accepts, the one ADP/2 snapshot of all direct assignments and direct retirements is acceptable, and none is lost |
| `SnapshotComposition.OneAssignmentPerPath` | agent/internal/adp3/validate.go:148-190 | an accepted snapshot holds at most one assignment per path digest |
| `Multihop.ValidatePath` | agent/internal/adp3/multihop.go:27-39 | a path is accepted exactly if its addresses and hosts are canonical and nodes, assignments and pins are distinct |
| `Multihop.ValidateCidrs` | agent/internal/adp3/multihop.go:59-63 | CIDRs are accepted exactly if valid and strictly ascending |
| `Multihop.ValidateMultihopAssignment` | agent/internal/adp3/multihop.go:22-79 | the local check accepts exactly the assignments with the declarative meaning |
| `Multihop.PathsAgree` | agent/internal/adp3/multihop.go:13-21 | equal path digests mean equal scope, forward, revisions, Profile, protocol, path and target |
| `Multihop.ProfilesAgree` | agent/internal/adp3/multihop.go:43-58 | equal path digests mean every hop runs the same Profile, which carries their protocol |
| `Multihop.CidrsAreCanonical` | agent/internal/adp3/multihop.go:59-63 | accepted egress lists that allow the same ranges are the same list |
| `Multihop.HopIsANode` | agent/internal/adp3/multihop.go:22-79 | separately accepted assignments of one path agree on forward, revisions and protocol; they share a hop exactly if they share a node, and are then one execution |
| `Multihop.NextHopIsAccepted` | agent/internal/adp3/multihop.go:22-79 | the next hop a node records is the resource that node accepted: address, port, fence, epoch and assignment |
| `Multihop.FullFamilyHasTwoEnds` | agent/internal/adp3/multihop.go:22-79 | a family with a member on every hop has exactly one ingress node and one egress node, and they differ |
| `Transit.OrderIsRank` | agent/internal/adp3transit/validate.go:146-152 | the comparison is the lexicographic retirement order |
| `Transit.ParseAssignment` | agent/internal/adp3transit/validate.go:115-140 | accepted exactly if intent, digest, binding and listener agree |
| `Transit.ParseAssignments` | agent/internal/adp3transit/validate.go:172-192 | accepted exactly if every assignment fits, its intent window contains the snapshot window, and slots are distinct |
| `Transit.ParseTombstones` | agent/internal/adp3transit/validate.go:193-206 | accepted exactly if ordered, unrepeated, not from the future, and below every live fence of the port |
| `Transit.ParseSnapshot` | agent/internal/adp3transit/validate.go:153-208 | the parser accepts exactly the snapshots with the declarative meaning |
| `Transit.NothingOutlivesItsIntent` | agent/internal/adp3transit/validate.go:178-185 | at no instant of an accepted snapshot is an intent outside its own authority, and node, session, fence, forward, protocol and listener are those the intent names |
| `Policy.ValidatePolicy` | agent/internal/contracts/validate.go:220-230 | for every 64-bit policy, with wrapping arithmetic, acceptance is exactly the unbounded-integer condition |
| `Policy.TwoChancesNeedTwoIntervals` | agent/internal/contracts/validate.go:221 | a window gives every polling phase two polls exactly if it is at least two intervals long |
| `Policy.RenewalHasTwoChances` | agent/internal/authorization/guard.go:103 | under an accepted policy every phase polls twice between the renewal lead and the guard cutoff, after the lease was issued |
| `Upgrade.ParseJournals` | scripts/ops/upgrade.ts:94-104 | the journal loop accepts exactly at most 1000 well-formed journals with distinct nodes |
| `Upgrade.PlanIsExact` | scripts/ops/upgrade.ts:146-162 | applied followed by pending is the known list up to the target ceiling, itself a prefix |
| `Upgrade.AboveIsNumeric` | scripts/ops/upgrade.ts:56-63 | a Profile reads exactly the migrations numbered up to its own, so a later Profile reads all an earlier one does |
| `Upgrade.ReconcileBlocks` | scripts/ops/upgrade.ts:169-183 | the shrinking map blocks exactly for a repeated journal, an unknown node or a journal not clear against its node |
| `Upgrade.ReconcileIsLookup` | scripts/ops/upgrade.ts:169-183 | with distinct journals the shrinking map gives the same checks as independent look-ups |
| `Upgrade.ReconcileReviews` | scripts/ops/upgrade.ts:181-182 | a review remains exactly for a journal that needs explicit migration |
| `Upgrade.EveryNodeIsAccountedFor` | scripts/ops/upgrade.ts:169-184 | in the whole report every database node is accounted for exactly once: compared with Control if a journal names it, reported missing if none does |
| `Upgrade.DecisionIsExact` | scripts/ops/upgrade.ts:192-193 | blocked exactly if something is in the way, compatible exactly if nothing is and nothing is left to review |
| `Upgrade.CompatibleIsComplete` | scripts/ops/upgrade.ts:142-193 | compatible implies full coverage, no Agent ahead of Control, no extension downgrade and no outstanding migration |
| `Upgrade.ReconcileJournals` | scripts/ops/upgrade.ts:169-183 | the loop computes the reconciliation |
| `Upgrade.ReportMissing` | scripts/ops/upgrade.ts:184 | the loop reports the remaining nodes in listing order |
| `Upgrade.AssessUpgrade` | scripts/ops/upgrade.ts:142-193 | checks, pending migrations and the exact decision |

## Left out

- validateReport is not modelled. Of the Relay `validateSemantic` only host checking is; the rest of the Relay contract is a parameter of the ADP/3 validator.
- JSON Schema, JSON lexing, JCS, SHA-256, MACs, TLS and X.509: foreign libraries, parameters here.
- Conversion between Go structs and JSON: the validators start from decoded values, and the token reader from tokens.
- `time.Duration` saturation and overflow in `Sub` and `Add`: durations are unbounded integers.
- Mutexes and locks: each locked method is one step.
- inspectSchema, schemaMarkers and the MySQL version pattern: their verdicts are inputs of the assessment.
- SQL, file and process I/O, backups and the data restored after the gate; argument patterns of `rebind`.
- DOM rendering, notifications, disabled buttons and consent text, beyond the flags the state machines read.
- `list`, `current`, `references`, `prepareBatch` and paging in the path panels: reads that never touch a remembered command.
- Malformed dynamic replies: a reply of the wrong shape is a reply whose fields do not match.
- The text fields behind `draft`, `number` and `counter`: the form holds what they parse to.
- The reads of an explicit retry: only their order and staleness are modelled, not the fields they validate.
- Recovery.RecoveryNeverOverlapsAuthority: assumes, as the source does, that Agents only accept windows Control published through its record.
