# Reploy: sessions, identity mapping and canonical identity

This project models the parts of Reploy whose correctness is a matter of protocol and
algebra rather than of input and output, and proves what they guarantee.

**Controlled sessions.** `Lifecycle` is the authoritative state machine of one session: 13 kinds
of observation, five kinds of request, four states, a latched cause, three waits, and the
delivery and acknowledgement of the result. `LifecycleRuns` proves what holds over whole runs,
and `LifecycleLedger` that every field follows from the steps accepted so far. `EventGate` is the
monitor that lets one writer at a time onto the session channel and gives lifecycle events
priority. `OutputPump` is the race between the reader of the workload's terminal output and its
finalizer, and `OutputVerdict` the reasons of what it reports. `RequestDispatch` is the loop that
hands requests to their handler while the host cancels or stops it. `Broker`, `BrokerRuns`,
`BrokerOrder` and `BrokerStreams` are the controller-side broker: its flags and buffers, its
select loop, the order of its public events, and what it passes on. `Codec` is the frame format
of controller requests over a stream with short reads and writes. `SessionModel` and `Requests`
hold the shared statuses and requests.

**Identity mapping.** `Geometry`, `GeometryChecks`, `Mappings` and `Subtraction` treat lists of
32-bit intervals as partial maps from container IDs to host IDs. `ExecutionPlan` is the plan of
one execution: when it exists, and how it divides authority into active and dormant.
`MappingState` is the durable authority and its validator; `MappingOperations` is the journal of
operations over it, with writes that may fail after taking effect; `MappingCommits`,
`MappingSteps`, `MappingRuns`, `MappingRecovery` and `MappingClosure` prove what one commit, one
call and a whole run can do; `MappingMeaning` and `MappingCalls` say of each call exactly when it
succeeds and what it records, without the edits. `MappingLiterals` is the check of declarations
that still hold unresolved values.

**Canonical identity and resolution.** `Strings`, `CanonicalJson`, `CanonicalEncoder` and
`Encoder` are the canonical JSON encoder behind every content identity, from UTF-16 key order to
the hashed preimage. `CanonicalText` says which bytes spell a value. `Variables`,
`VariableMeaning` and `VariableResolver` are the memoised variable resolver and what it means;
`LockedGraph` is the cycle check on locked provider graphs; both use `Graph`.

Classes (`Lifecycle.Machine`, `EventGate.Gate`, `OutputPump.Pump`, `Broker.Machine`,
`MappingOperations.Store`, `RequestDispatch.Bridge`, `Encoder.Machine`, `VariableResolver.Resolver`,
`LockedGraph.Visitor`, `Codec.Channel`) update their fields as the Go methods do. Each is proved
to compute a function of its old value, and the theorems are about those functions. Concurrent
code is a system of atomic steps, and its theorems are about every schedule.

Seven findings are stated as lemmas, with the code modelled as it is:

- A startup failure that reports drained output after an observation loss leaves a terminating
  session that waits for nothing and yet accepts no finish report
  (`LifecycleRuns.StartupMayReportDrainedDespiteLoss`). `FinishIsPossibleIff` says exactly when
  that is so; a second observation loss leads out of it, so it is not a dead end (`NoDeadEnd`).
- The state validator inside a mapping change refuses in one case only: the first
  configuration of a staged owner whose resolved directory has a path it rejects, such as one
  that ends in a space. Nothing checks that path before (`MappingCommits.ValidatorRefusesIff`,
  `MappingClosure.FirstConfigurationRefused`). Two late failure branches of the planner are only
  taken for unjustified candidates (`ExecutionPlan.PlanExistsIff`).
- A broker that fails announces a client error on its public stream even after the final
  result (`BrokerOrder.ErrorAfterTheFinalResult`); nothing else can follow that result
  (`ClientErrorMeansFailure`).
- The literal check of declared mappings accepts some declarations that nothing can resolve
  (`MappingLiterals.AcceptedThoughHopeless`); with all starts known it is exact, and with one
  unknown start per domain the missing condition is that a gap holds it (`ExactWithOneOpen`).
- A request whose handler failed for reasons of its own is forgiven when the host cancels it
  before the loop has left it (`RequestDispatch.LateCancellationForgives`). Over all runs, a
  failure is forgiven exactly when a cancellation was asked for between the publication of its
  request and the leaving (`ForgivenIffCancelled`).
- The graph check only sees cycles that the listed nodes lead into
  (`LockedGraph.RejectLockedGraphCycles`), so by itself it overlooks one between unlisted nodes
  (`UnlistedCycleIsAccepted`). It accepts exactly the acyclic graphs when the nodes include both
  ends of every edge (`AcceptsTheAcyclic`), and its only caller makes sure of that before it
  asks (`ValidateGraphShape`), so the program never meets the overlooked case.
- The encoder remembers what it is inside of by kind and address, and so refuses some finite
  values as cycles, such as a struct with a pointer to its own first field
  (`CanonicalEncoder.FiniteButRefused`). `Encoder.Marshal` succeeds exactly on the finite values
  that enter no key inside itself; finite is enough when keys tell references apart
  (`FiniteIsEnough`).

## Model

| member | source | states |
|---|---|---|
| Lifecycle.Machine.Observe | internal/controlledsession/lifecycle.go:131-331 | one observation moves every field and fills the transition as the switch over the 13 kinds says; a rejected one moves nothing |
| Lifecycle.Machine.ObserveCause | internal/controlledsession/lifecycle.go:184-242 | the five observations that may latch a cause: accepted exactly on a well-formed payload, with their field updates |
| Lifecycle.Machine.ObserveBarrier | internal/controlledsession/lifecycle.go:243-283 | the four observations that move the output, publication and controller waits |
| Lifecycle.Machine.ObserveProgress | internal/controlledsession/lifecycle.go:154-183 | activation, workload exit and the finish report |
| Lifecycle.Machine.LatchCause | internal/controlledsession/lifecycle.go:433-448 | the first cause stays; latching it opens the output wait or records drained output |
| Lifecycle.Machine.RecordOutputs | internal/controlledsession/lifecycle.go:501-506 | recording outputs closes the output wait and opens publication only for an active controller |
| Lifecycle.Machine.LoseObservation | internal/controlledsession/lifecycle.go:202-213 | observation loss, with the output status it forces before activation |
| Lifecycle.Machine.FailStartup | internal/controlledsession/lifecycle.go:219-242 | startup failure, with pending, given or absent output |
| Lifecycle.Machine.ApplyRequest | internal/controlledsession/lifecycle.go:362-431 | one request: rejection, discarding and acceptance with the transition each reports |
| Lifecycle.Machine.GrantedRequest | internal/controlledsession/lifecycle.go:387-418 | what a granted request does in each of the four states |
| LifecycleRuns.EveryRunKeepsInvariant | internal/controlledsession/lifecycle.go:131-431 | every reachable state satisfies the invariant: exactly one of "output wait pending" and "output recorded" while terminating, mutually exclusive waits, publication and controller waits only for an active controller, results that pass validation |
| LifecycleRuns.StepLowersRank | internal/controlledsession/lifecycle.go:131-431 | each step leaves all fields alone or lowers a rank; a rejected or discarded step leaves all fields alone |
| LifecycleRuns.EveryRunChangesAtMostTenTimes | internal/controlledsession/lifecycle.go:131-431 | no run changes the fields more than ten times |
| LifecycleRuns.TenChangesHappen | internal/controlledsession/lifecycle.go:131-431 | a run with exactly ten changes: the bound is tight |
| LifecycleRuns.CauseIsFinal | internal/controlledsession/lifecycle.go:433-448 | a latched cause survives every step, and no later step reports that termination begins |
| LifecycleRuns.FirstCauseNeverChanges | internal/controlledsession/lifecycle.go:433-448 | the first cause of a run is its cause for ever |
| LifecycleRuns.TerminationBeginsOnce | internal/controlledsession/lifecycle.go:433-448 | termination is reported to begin exactly once in a run with a cause, never in one without |
| LifecycleRuns.NextGetsNearer | internal/controlledsession/lifecycle.go:202-316 | in every terminating state one named observation is accepted and comes one step nearer to the result |
| LifecycleRuns.WayOut | internal/controlledsession/lifecycle.go:202-316 | the observations that lead from a terminating state to a valid result, exactly as many as its distance |
| LifecycleRuns.NoDeadEnd | internal/controlledsession/lifecycle.go:202-316 | from every reachable terminating state at most four accepted observations, none a controller loss, end in a result the validator accepts |
| LifecycleRuns.FinishIsPossibleIff | internal/controlledsession/lifecycle.go:284-316 | a finish report can be accepted right away if and only if nothing is awaited and the cause is not an observation loss with drained output |
| LifecycleRuns.StartupMayReportDrainedDespiteLoss | internal/controlledsession/lifecycle.go:202-242 | a reachable state in which nothing is awaited and yet no finish report is accepted |
| LifecycleRuns.EveryRunIsTruthful | internal/controlledsession/lifecycle.go:131-431 | recorded statuses stand for accepted steps that happened, in order |
| LifecycleLedger.RunIsItsLedger | internal/controlledsession/lifecycle.go:131-431 | every field of every reachable machine, and whether it accepts, discards or rejects any next step, follow from a ledger of the steps accepted so far by their kinds |
| LifecycleLedger.CauseIsFirstNamed | internal/controlledsession/lifecycle.go:387-448 | the cause of every run is the one named by its first accepted step that names one: terminate, exit, host cancellation, one of the losses or startup failure |
| LifecycleLedger.TransitionMeaning | internal/controlledsession/lifecycle.go:318-331 | in every run the report of a step states the states before and after it, whether it latched the cause, what is awaited, and the result |
| LifecycleLedger.ResultTellsTheTruth | internal/controlledsession/model.go:103-144 | the cause of a result is the first one named; it says "completed" only after activation, recorded and published outputs and a granted complete request; "drained" in an activated session only after the reported exit; acknowledged only after delivered, delivered only after terminated |
| SessionModel.ResultMeaning | internal/controlledsession/model.go:103-144 | the results that pass validation, listed by cause and status |
| EventGate.Gate.Enter | internal/controlledsession/session_io.go:269-321 | a writer arrives: refused, admitted, or registered to wait on the current channel |
| EventGate.Gate.Recheck | internal/controlledsession/session_io.go:281-321 | a woken writer decides again under the same rules |
| EventGate.Gate.GiveUp | internal/controlledsession/session_io.go:284-294 | a cancelled waiter unregisters and wakes the others |
| EventGate.Gate.Release | internal/controlledsession/session_io.go:323-331 | the writer leaves, latching a failure, and wakes everyone |
| EventGate.EveryScheduleKeepsInvariant | internal/controlledsession/session_io.go:256-336 | in every interleaving of any number of writers: one writer at most, the waiting count equals the registered lifecycle writers, and no lost wakeup |
| EventGate.AdmissionIsExclusive | internal/controlledsession/session_io.go:269-321 | an admitted writer is alone, no failure has been latched, and an output writer overtakes no registered lifecycle writer |
| EventGate.DecisionMeaning | internal/controlledsession/session_io.go:269-321 | in every reachable state a writer that arrives or is woken is admitted exactly if nobody stands in its way, no write has failed and it was not cancelled; it waits exactly if somebody does and no write has failed |
| EventGate.NobodyWritesAfterFailure | internal/controlledsession/session_io.go:269-331 | after a failed write no schedule admits anybody |
| EventGate.StepKeepsWakeups | internal/controlledsession/session_io.go:281-336 | whoever blocks on the current channel has a wait condition that is still true |
| EventGate.SomebodyCanProceed | internal/controlledsession/session_io.go:269-336 | if somebody waits and nobody writes, some waiter can be woken and is then admitted, unless a write has failed |
| EventGate.QuietMeansDone | internal/controlledsession/session_io.go:269-336 | a schedule that only cancellation could continue has left nobody behind |
| EventGate.EverybodyWrites | internal/controlledsession/session_io.go:260-336 | a schedule without cancellations and failed writes that cannot be continued has let every writer write exactly once |
| EventGate.SchedulesAreFinite | internal/controlledsession/session_io.go:269-336 | every schedule is finite: its length plus what remains never exceeds what remained at the start |
| EventGate.ScheduleBound | internal/controlledsession/session_io.go:269-336 | n writers take at most 3n(n+1) steps |
| RequestDispatch.Bridge.CancelActiveRequest | internal/controlledsession/session_io.go:169-181 | a host cancellation moves the whole dispatch as the CancelActive step does, in every state of the loop, and keeps its invariant |
| RequestDispatch.Bridge.Finish | internal/controlledsession/session_io.go:226-240 | leaving a request moves the whole dispatch as the Clear step does, keeps its invariant, and leaves no request active |
| RequestDispatch.EveryScheduleKeepsInvariant | internal/controlledsession/session_io.go:211-241 | the invariant of the request loop against cancellation and stopping in every interleaving |
| RequestDispatch.DispatchIsSerial | internal/controlledsession/session_io.go:211-241 | requests are handled one at a time, each once, in the order read; a failure the host did not cancel is the last one; no error only after a stop |
| RequestDispatch.CancellationHitsTheActiveRequest | internal/controlledsession/session_io.go:169-181 | a cancellation marks the request the loop is busy with, never another, and does not move the loop |
| RequestDispatch.MarkedIffCancelled | internal/controlledsession/session_io.go:169-181 | in every run the marked requests are exactly those for which the host asked for a cancellation between their publication and their end |
| RequestDispatch.ForgivenIffCancelled | internal/controlledsession/session_io.go:211-241 | in every run the loop leaves a failed request for the next one if and only if a cancellation was asked for between the publication of that request and the leaving; otherwise it ends with that failure |
| RequestDispatch.LateCancellationForgives | internal/controlledsession/session_io.go:226-235 | a schedule in which a failure of its own is forgiven by a later cancellation |
| RequestDispatch.EndMeaning | internal/controlledsession/session_io.go:211-248 | the dispatch ends with the failure of its last read or handler, except that a cancellation after a stop is no failure |
| RequestDispatch.GoesOnIff | internal/controlledsession/session_io.go:211-241 | a failed read ends the dispatch, a read request is started next, a handler that succeeds never ends it |
| Geometry.CanonicalFormIsUnique | internal/identitymapping/geometry.go:108-146 | two canonical interval lists that bind the same IDs are the same list |
| Geometry.CombineReservations | internal/identitymapping/geometry.go:124-146 | the folding loop computes the specified combination |
| Geometry.CombineMeaning | internal/identitymapping/geometry.go:124-146 | combining sorted intervals succeeds if and only if no container ID is bound twice differently, and yields the canonical list of the same bindings |
| GeometryChecks.HostSpansAreFree | internal/identitymapping/host.go:41-70 | the sort-and-compare loop accepts exactly nonempty lists of valid, root-free, pairwise host-disjoint intervals |
| GeometryChecks.CheckDomain | internal/identitymapping/geometry.go:19-59 | the validation loop over one ID domain |
| GeometryChecks.ValidateDomainMeaning | internal/identitymapping/geometry.go:19-59 | validation accepts a proposal if and only if it is acceptable pairwise, in any order, and returns the canonical list of its bindings |
| GeometryChecks.ValidationIgnoresOrder | internal/identitymapping/geometry.go:19-59 | permuting a proposal does not change the outcome |
| GeometryChecks.CanonicalIsFixed | internal/identitymapping/geometry.go:19-59 | a canonical list validates to itself |
| GeometryChecks.UniteDomain | internal/identitymapping/geometry.go:61-106 | the retention of one domain as the code computes it |
| GeometryChecks.RetainDomainMeaning | internal/identitymapping/geometry.go:61-106 | retention succeeds if and only if the union still binds every container and every host ID once, and returns that union |
| Mappings.Validate | internal/identitymapping/geometry.go:19-59 | validation of both domains |
| Mappings.Retain | internal/identitymapping/geometry.go:61-106 | retention of both domains, with the bounded and profile branches |
| Mappings.RetainMeaning | internal/identitymapping/geometry.go:61-106 | when two canonical mappings can be united, and what the union is |
| Mappings.UnionTestIsContainment | internal/deploy/identity_execution_plan.go:100-105 | "the union with p is p" holds if and only if every binding is a binding of p (and bounded maps are equal) |
| Mappings.ProjectIDs | internal/deploy/identity_execution_plan.go:118-138 | the pointer walk over sorted IDs returns exactly the bindings of the declared IDs |
| Mappings.ProjectMeaning | internal/deploy/identity_execution_plan.go:118-138 | plain per-ID projection binds exactly the declared IDs |
| Mappings.ProjectionsValidateAlike | internal/deploy/identity_execution_plan.go:118-138 | every exact projection validates to the same canonical list |
| Subtraction.SubtractIntervals | internal/deploy/identity_execution_plan.go:140-168 | the two-pointer loop equals plain subtraction, and returns at most len(from)+len(remove) pieces |
| Subtraction.SubtractFromOne | internal/deploy/identity_execution_plan.go:140-168 | the inner loop cuts one interval completely |
| Subtraction.SubtractMeaning | internal/deploy/identity_execution_plan.go:140-168 | subtraction is the restriction of the bindings to uncovered IDs, again in canonical form and without 32-bit overflow |
| Subtraction.SubtractTwice | internal/deploy/identity_execution_plan.go:106-110 | for canonical A inside P, subtracting P minus A from P returns A, interval for interval |
| ExecutionPlan.PlanIdentityExecution | internal/deploy/identity_execution_plan.go:38-111 | the planner computes the specified plan, with dormant lists bounded by interval counts |
| ExecutionPlan.ActiveMeaning | internal/deploy/identity_execution_plan.go:76-95 | the active map exists exactly when IDs are declared, and binds exactly those |
| ExecutionPlan.HistoryMeaning | internal/deploy/identity_execution_plan.go:50-65 | accepted history is usable if and only if it is valid and protected |
| ExecutionPlan.ProspectiveExists | internal/deploy/identity_execution_plan.go:96-99 | with protected history the union of active and accepted never fails |
| ExecutionPlan.PlanExistsIff | internal/deploy/identity_execution_plan.go:38-111 | a plan exists if and only if evidence, coverage, reservations and history pass and every candidate binding is declared now or was accepted before |
| ExecutionPlan.PlanPartitions | internal/deploy/identity_execution_plan.go:96-110 | active lies in the candidate, the candidate in active plus prior accepted, accepted splits exactly into active and dormant, and an ID never accepted is accepted only if active |
| ExecutionPlan.PlanShape | internal/deploy/identity_execution_plan.go:96-110 | profiles, bounded plans and dormant lists of a plan |
| MappingOperations.Store.Commit | internal/deploy/identity_mapping_operations.go:317-370 | compare and commit: a whole new state with the revision raised by one, or nothing, for each of the three write outcomes |
| MappingOperations.Store.Upgrade | internal/deploy/identity_mapping_native.go:17-38 | the native upgrade |
| MappingOperations.Store.Configure | internal/deploy/identity_mapping_operations.go:152-210 | recording, retrying and replacing a configuration intent |
| MappingOperations.Store.Prepare | internal/deploy/identity_mapping_native.go:86-112 | recording a native intent with its planned active map |
| MappingOperations.Store.Begin | internal/deploy/identity_mapping_operations.go:214-241 | inhibiting an intent before its effects |
| MappingOperations.Store.Admit | internal/deploy/identity_mapping_native.go:129-159 | the one-shot admission |
| MappingOperations.Store.Recover | internal/deploy/identity_mapping_operations.go:246-297 | cancelling, closing and recovering a pending operation |
| MappingOperations.Store.PlanNative | internal/deploy/identity_mapping_native.go:42-80 | planning under the checks of the state |
| MappingOperations.InhibitPending | internal/deploy/identity_mapping_operations.go:218-240 | the edit of BeginEffects, field by field |
| MappingOperations.AdmitPending | internal/deploy/identity_mapping_native.go:141-158 | the edit of the admission, field by field |
| MappingOperations.RecoverPending | internal/deploy/identity_mapping_native.go:164-184 | the edits of cancellation, verification and closing |
| MappingCommits.HeldInOne | internal/deploy/identity_mapping_state.go:112-142 | in a canonical list, an interval whose bindings are all present lies in a single interval, which is what the dormancy check looks for |
| MappingCommits.AdmissionRoundTrips | internal/deploy/identity_mapping_native_state.go:78-85 | the active map the validator recomputes from accepted minus dormant is exactly the one just admitted |
| MappingCommits.AdmitIsValid | internal/deploy/identity_mapping_native.go:141-158 | the state an admission commits passes every clause of the validator |
| MappingCommits.CloseIsValid | internal/deploy/identity_mapping_native.go:164-184 | so does the state that closing an operation commits |
| MappingCommits.ValidatorRefusesIff | internal/deploy/identity_mapping_operations.go:182-190 | the edit an operation attempts on a valid state is refused by the validator inside a change if and only if it is the first configuration in a resolved directory whose path the validator rejects |
| MappingClosure.FirstConfigurationRefused | internal/deploy/identity_mapping_operations.go:348-352 | a first configuration in a directory whose name ends in a space passes every check and is then refused |
| MappingCommits.CloseAlwaysEdits | internal/deploy/identity_mapping_operations.go:281-296 | the recorded candidate of a valid state can always be retained |
| MappingSteps.AttemptShape | internal/deploy/identity_mapping_operations.go:152-297 | which fields each operation may change and how its journal entry advances |
| MappingSteps.StepLinks | internal/deploy/identity_mapping_operations.go:246-297 | every call is one durable commit, or two for a recovered configuration, through valid states |
| MappingRuns.EveryRunStaysValid | internal/deploy/identity_mapping_state.go:64-176 | every durable state of every run, with any callers and any write outcomes, passes the validator |
| MappingRuns.AuthorityOnlyGrows | internal/deploy/identity_mapping_operations.go:281-296 | along every run protected and accepted bindings are kept, each to the same host ID; profile, operator, retained storage and native form are never lost |
| MappingRuns.StepRevision | internal/deploy/identity_mapping_operations.go:348 | each durable write, of an operation or of other code, raises the revision by exactly one, and nothing else changes the authority |
| MappingRuns.SameRevisionSameAuthority | internal/deploy/identity_mapping_operations.go:317-370 | two states of a run with the same revision carry the same authority |
| MappingRuns.GrantIsDurable | internal/deploy/identity_mapping_native.go:125-159 | a release is granted only for an admission that was verified and reported written; an uncertain write grants none |
| MappingRuns.AtMostOneAdmission | internal/deploy/identity_mapping_native.go:125-159 | between two admissions that took effect, reported or not, the first operation was closed: a recorded operation is admitted at most once |
| MappingRuns.OnlyRecoveryLeavesRelease | internal/deploy/identity_mapping_native.go:161-184 | only the uncancelled, verified recovery of that very operation leaves release-attempted; it ends the operation and keeps what was admitted |
| MappingRuns.AcceptedWasAdmitted | internal/deploy/identity_mapping_native.go:141-158 | every accepted binding was active in an admission of the run, or accepted at its start |
| MappingRuns.ActiveIsLastAdmitted | internal/deploy/identity_mapping_native_state.go:78-85 | until the next admission takes effect the recomputed active map is the one admitted last |
| MappingRuns.JournalStaysCurrent | internal/deploy/identity_mapping_operations.go:299-315 | in a run that starts from a current journal, a recorded operation stays current: its revision, its prior admission and its fresh instance never go stale |
| MappingRuns.PendingIsOnlyRefusedFromOutside | internal/deploy/identity_mapping_operations.go:299-315 | in a run that starts from a current journal, a pending operation is refused only for its ID, a moved generation or a failing fresh check |
| MappingRuns.AdmissionsNeverRepeatAnInstance | internal/deploy/identity_mapping_native.go:99-102 | in a run that starts from a current journal, each admission is of an engine instance other than the one admitted before it |
| MappingRuns.RecoveryEndsTheOperation | internal/deploy/identity_mapping_operations.go:246-297 | with cooperating evidence and disk, one recovery call ends any pending operation whose checks pass |
| MappingRecovery.PlansAgain | internal/deploy/identity_execution_plan.go:38-136 | an admitted operation plans again over the authority it has itself committed, to the same active map |
| MappingRecovery.AdmittedCanBeRecovered | internal/deploy/identity_mapping_native.go:86-184 | after an admission took effect, whatever its caller was told, the operation passes its checks again with the admitted active map while the outside answers alike, and one cooperating recovery ends it |
| MappingRuns.ExactRetryChangesNothing | internal/deploy/identity_mapping_operations.go:193-209 | repeating a configuration over the state it left succeeds and writes nothing, also after a write that was reported as failed |
| MappingClosure.EffectsAreNeverForgotten | internal/deploy/identity_mapping_operations.go:281-296 | once the effects of an operation may have begun, every later state still records it, or retains its objects and reserves its whole candidate |
| MappingClosure.IntentsEndUnused | internal/deploy/identity_mapping_operations.go:254-264 | a recorded intent is cancelled or replaced only with proof that it was never used |
| MappingClosure.CooperativeCallsCommit | internal/deploy/identity_mapping_operations.go:317-370 | with lock, context and disk cooperating an attempted edit is always committed, except a first configuration in a directory whose path the validator rejects, which changes nothing |
| MappingSteps.ChangeMeaning | internal/deploy/identity_mapping_operations.go:317-370 | a change replaces the durable state exactly when its new edit is based on it, acceptable and the write takes effect, and returns a state exactly when that is durable for sure |
| MappingMeaning.ChecksMeaning | internal/deploy/identity_mapping_operations.go:107-148 | the check passes exactly for an accepted, recorded operator and a candidate that binds no protected ID otherwise |
| MappingMeaning.NativePlanMeaning | internal/deploy/identity_mapping_native.go:42-80 | a native plan exists exactly for a candidate that passes the check, binds all declared IDs and otherwise only accepted ones; its active map binds exactly the declared IDs |
| MappingMeaning.PendingMeaning | internal/deploy/identity_mapping_operations.go:299-315 | a pending operation passes exactly if it is the one meant, of this generation, and still fits; a native one with the active map it records |
| MappingCalls.UpgradeMeaning | internal/deploy/identity_mapping_native.go:17-40 | when an upgrade succeeds, and the authority it leaves |
| MappingCalls.ConfigureMeaning | internal/deploy/identity_mapping_operations.go:150-209 | when a configuration succeeds, that an exact retry changes nothing, and otherwise the whole intent and authority it leaves |
| MappingCalls.PrepareMeaning | internal/deploy/identity_mapping_native.go:86-112 | when a preparation succeeds, and the whole native intent it leaves |
| MappingCalls.PrepareRecords | internal/deploy/identity_mapping_native.go:86-112 | whatever became of its write, a preparation that left a new state recorded its ID, the validated candidate, the generation, the planned handles and an active map that binds exactly the declared IDs of the candidate |
| MappingCalls.PreparedHandlesAreKept | internal/deploy/identity_mapping_native.go:86-184 | over every run, once the effects of a prepared operation may have begun, each later state records exactly the handles of its preparation or retains them |
| MappingCalls.BeginMeaning | internal/deploy/identity_mapping_operations.go:211-244 | when effects may begin, and that only phase and revision change |
| MappingCalls.AdmitMeaning | internal/deploy/identity_mapping_native.go:129-162 | when an admission succeeds, every field it sets, and per ID domain what is protected, accepted and dormant then |
| MappingCalls.CancelMeaning | internal/deploy/identity_mapping_operations.go:246-265 | when a cancellation succeeds, and that it only forgets the intent |
| MappingCalls.NativeRecoveryMeaning | internal/deploy/identity_mapping_native.go:164-184 | when a native operation is closed: its candidate becomes protected, its objects retained |
| MappingCalls.ConfigurationRecoveryMeaning | internal/deploy/identity_mapping_operations.go:266-297 | when a configuration is verified and closed, with the revision of both writes |
| Strings.CompareUTF16 | internal/canonical/canonical.go:327-349 | the loop computes the lexicographic order of UTF-16 code units (section 3.2.3 of RFC 8785) |
| Strings.KeysAreTotallyOrdered | internal/canonical/canonical.go:327-349 | that order is a strict total order on strings of Unicode scalar values |
| CanonicalText.KeyOrderMeaning | internal/canonical/canonical.go:327-349 | a key comes before another exactly if the first difference of their UTF-16 code units says so, or it is a proper prefix |
| Strings.Utf8RoundTrip | internal/canonical/canonical.go:375 | decoding undoes the encoding of one rune |
| Strings.EscapeRoundTrip | internal/canonical/canonical.go:356-377 | each escape is undone and never begins with the closing quote |
| Strings.QuoteRoundTrip | internal/canonical/canonical.go:351-381 | reading back a written string returns it and whatever follows (escaping as in section 3.2.2.2 of RFC 8785) |
| CanonicalJson.OrderIsUnique | internal/canonical/canonical.go:214-218 | a set of keys has one canonical listing |
| CanonicalJson.PrefixFree | internal/canonical/canonical.go:110-243 | no encoding is a proper prefix of another |
| CanonicalJson.WriteIsInjective | internal/canonical/canonical.go:110-243 | equal encodings are of equal values |
| CanonicalJson.PreimageIsInjective | internal/canonical/canonical.go:70-98 | kind, schema and value can be read off the hashed bytes |
| CanonicalText.CanonicalTextIsWritten | internal/canonical/canonical.go:200-238 | the encoding of a value is the one text that spells it, where spelling is defined by characters as in section 3.2 of RFC 8785 |
| CanonicalText.PreimageMeaning | internal/canonical/canonical.go:70-98 | what is hashed, in characters: reploy, kind, schema, a zero byte and the text |
| CanonicalEncoder.PlainIsDenoted | internal/canonical/canonical.go:100-198 | recursing with the set of visited keys (kind and address) accepts exactly the values with a finite unfolding on whose paths no key is entered inside itself, as that tree |
| CanonicalEncoder.ListMeaning | internal/canonical/canonical.go:200-212 | a list stands for the array of what its items stand for, in their order |
| CanonicalEncoder.RecordMeaning | internal/canonical/canonical.go:214-243 | a record stands for the object of its distinct well-formed keys and what their values stand for |
| CanonicalEncoder.SimpleMeaning | internal/canonical/canonical.go:110-178 | scalars stand for themselves, nil for null, a reference for what it refers to |
| CanonicalEncoder.FiniteIsEnough | internal/canonical/canonical.go:180-198 | when different references have different keys, a value is accepted if and only if it unfolds finitely |
| CanonicalEncoder.FiniteButRefused | internal/canonical/canonical.go:180-198 | a finite value that is refused as a cycle: a struct with a pointer to its own first field |
| CanonicalEncoder.IterationOrderIsIrrelevant | internal/canonical/canonical.go:214-243 | permuting the entries of a map changes nothing |
| Encoder.Machine.Write | internal/canonical/canonical.go:110-178 | the recursive writer, with the visited set keyed by kind and address, appends exactly the encoding of what the value stands for, or reports a key entered inside itself or an unsupported part, and leaves the visited set as it was |
| Encoder.Machine.WriteArray | internal/canonical/canonical.go:200-212 | the array loop |
| Encoder.Machine.WriteMap | internal/canonical/canonical.go:214-243 | sorting, duplicate and malformed keys, and the member loop |
| Encoder.Machine.WriteString | internal/canonical/canonical.go:351-381 | the escaping loop |
| Encoder.Marshal | internal/canonical/canonical.go:39-46 | success if and only if the value is a finite tree of supported parts on whose paths no key is entered inside itself, and then its encoding |
| Encoder.Sum | internal/canonical/canonical.go:70-86 | the bytes fed to the hash, for valid tokens and exactly the values that Marshal accepts |
| Encoder.SumIdentifies | internal/canonical/canonical.go:70-98 | equal hashed bytes come from equal kinds, equal schemas and values that stand for the same tree |
| VariableResolver.ResolveVariables | internal/blueprint/variables.go:30-55 | resolution, in any visiting order, succeeds if and only if the names are valid, references are closed and acyclic and no list or map is embedded in text; the result is the one assignment under which every variable equals its own source |
| VariableMeaning.ResolutionIsTheAssignment | internal/blueprint/variables.go:67-157 | plain substitution yields the one assignment under which text is its pieces in order at their offsets, a list has its items in place, and a map its keys, each reference read as what it is assigned |
| VariableResolver.Resolver.ResolveName | internal/blueprint/variables.go:67-89 | the memoised lookup returns what plain substitution with the names being expanded returns |
| VariableResolver.Resolver.ResolveSource | internal/blueprint/variables.go:91-123 | the descent into strings, lists and maps |
| VariableResolver.Resolver.Interpolate | internal/blueprint/variables.go:130-157 | text interpolation |
| VariableResolver.MemoHit | internal/blueprint/variables.go:68-70 | a memoised value is what substitution would find at that point |
| Variables.SameElsewhere | internal/blueprint/variables.go:67-89 | the names being expanded matter only through the references they block |
| Variables.ResolvableIff | internal/blueprint/variables.go:30-157 | all variables resolve if and only if references are closed and acyclic and text embeds scalars only |
| LockedGraph.RejectLockedGraphCycles | internal/deploy/build_lock.go:525-559 | the three-colour visit accepts if and only if no listed node leads into a cycle |
| LockedGraph.Visitor.Visit | internal/deploy/build_lock.go:537-552 | a visit settles a node or finds a cycle it leads into |
| LockedGraph.AcceptsTheAcyclic | internal/deploy/build_lock.go:525-559 | when the nodes include both ends of every edge, the accepted graphs are exactly the acyclic ones |
| LockedGraph.ValidateGraphShape | internal/deploy/build_lock.go:399-415 | the only caller refuses edges with unlisted or equal ends first, and so accepts exactly the acyclic graphs over the listed nodes |
| LockedGraph.UnlistedCycleIsAccepted | internal/deploy/build_lock.go:525-559 | a cycle between unlisted nodes, which the check alone accepts and its caller refuses |
| OutputPump.Pump.LatchResult | internal/controlledsession/output.go:237-245 | the first result stays |
| OutputPump.Pump.AppendResultErrorIfMissing | internal/controlledsession/output.go:247-259 | a cause is added once, the status is kept |
| OutputPump.Pump.CloseSource | internal/controlledsession/output.go:228-235 | the source is closed once and its error remembered |
| OutputPump.Pump.ResultForDeadline | internal/controlledsession/output.go:261-277 | the latched result, or a timeout when the pump stopped late |
| OutputPump.EveryScheduleKeepsInvariant | internal/controlledsession/output.go:139-277 | the invariant of reader, finalizer, latch, closing and delivered data in every interleaving |
| OutputPump.NoPanicIsReachable | internal/controlledsession/output.go:247-277 | none of the panics can be reached |
| OutputPump.StatusIsNeverReplaced | internal/controlledsession/output.go:237-259 | a latched status stays, and its diagnostic only grows |
| OutputPump.DrainedMeansDelivered | internal/controlledsession/output.go:122-137 | a drained finalization means that the source ended, all its bytes were delivered in order, it was closed once and cleanly, and in time |
| OutputPump.DeliveryIsAPrefix | internal/controlledsession/output.go:139-188 | whatever happens, delivery is in order and without gaps |
| OutputPump.ReturnedIsTheVerdict | internal/controlledsession/output.go:190-277 | finalization reports the latched result if and only if the pump stopped by the deadline, else a timeout; by then delivery is cancelled, the source closed exactly once and a failed closing part of the diagnostic |
| OutputVerdict.VerdictMeaning | internal/controlledsession/output.go:129-277 | a return by the deadline is drained exactly if the source ended, no emission failed, closing was clean and the timer did not latch first; read failure, delivery failure, closure failure and timeout likewise have exactly their reasons, with the cause |
| OutputVerdict.TimeoutIsTheTimers | internal/controlledsession/output.go:190-215 | a timeout is latched exactly by a timer that finds no result |
| OutputPump.ClosedSourceEndsTheReader | internal/controlledsession/output.go:139-188 | once the source is closed every reader step leads onward to its end |
| OutputPump.FinalizationReturns | internal/controlledsession/output.go:190-215 | after the deadline finalization can always return within 27 steps: it never deadlocks with the reader |
| OutputPump.SchedulesEnd | internal/controlledsession/output.go:129-277 | in every schedule at most 28 steps other than the passing of time follow the closing of the source |
| OutputPump.QuietMeansReturned | internal/controlledsession/output.go:190-215 | a schedule after the deadline only comes to rest with finalization returned and the reader stopped |
| Broker.Machine.HandleRequest | internal/controlledsession/controller_broker.go:411-488 | one request: refused, dropped, buffered, forwarded or acknowledged, with the flags it sets |
| Broker.Machine.HandleHostEvent | internal/controlledsession/controller_broker.go:490-576 | one host event, with what is written where when any of the writes fails |
| Broker.Machine.HandleReady | internal/controlledsession/controller_broker.go:492-511 | readiness flushes the resize, announces, and flushes the input |
| BrokerRuns.SetupKeepsEverything | internal/controlledsession/controller_broker.go:295-333 | the setup buffer holds all input in order and the newest resize |
| BrokerRuns.SetupIsTakenIff | internal/controlledsession/controller_broker.go:291-319 | exactly terminal input and resizes whose input fits one frame are buffered before the session is open |
| BrokerRuns.StartedReplaysSetup | internal/controlledsession/controller_broker.go:227-231 | the loop starts with the buffered requests replayed in their order, the resize before the input |
| BrokerRuns.EveryRunKeepsInvariant | internal/controlledsession/controller_broker.go:197-293 | the invariant of the select loop with its output buffer and terminal writer |
| BrokerRuns.InputIsConserved | internal/controlledsession/controller_broker.go:411-511 | until termination, input sent to the host followed by input still buffered is all terminal input, and the buffer fits one frame |
| BrokerRuns.EarlyIsNewest | internal/controlledsession/controller_broker.go:428-458 | before readiness the buffered resize is the newest among the setup requests and all terminal requests so far |
| BrokerRuns.EarlyResizeGoesFirst | internal/controlledsession/controller_broker.go:490-514 | the host gets no input before readiness, and the newest resize among all the terminal had sent by then is the first request it gets |
| BrokerRuns.AllOutputBeforeTheEnd | internal/controlledsession/controller_broker.go:232-293 | host output reaches the terminal in order, all of it before exactly one terminal end |
| BrokerRuns.TerminatedIsTheLastEvent | internal/controlledsession/controller_broker.go:490-576 | in every run, any host event after a terminated one stops the broker with an error and changes nothing else |
| BrokerStreams.StopsIff | internal/controlledsession/controller_broker.go:244-287 | which requests, events and ends stop a running broker, and with what verdict |
| BrokerStreams.PublicIsWhatTheHostSaid | internal/controlledsession/controller_broker.go:490-576 | while the broker runs its public stream is the host events in order, diagnostics with their text and finalization with its verdict |
| BrokerStreams.HostGetsWhatWasAsked | internal/controlledsession/controller_broker.go:411-514 | a ready broker that runs has sent the host the buffered resize, then the buffered input, then every request it was given, in order |
| BrokerRuns.SuccessMeansAcknowledged | internal/controlledsession/controller_broker.go:276-280 | the broker succeeds only after an acknowledged termination, with all bytes of the host output events delivered to the terminal in order |
| BrokerRuns.OnlyGrantedRequestsAreSent | internal/controlledsession/controller_broker.go:411-488 | only granted requests reach the host; completion and acknowledgement at most once |
| BrokerOrder.PublicEventsAreInOrder | internal/controlledsession/controller_broker.go:490-576 | readiness, exit, termination, finalization and the final result come at most once each and in their order, drained output of a ready session only after its exit; diagnostics may repeat, but not after the final result |
| BrokerOrder.ClientErrorMeansFailure | internal/controlledsession/controller_broker.go:601-608 | a client error comes if and only if the broker stopped with an error and could write it, at most once and as the last event; it alone can follow the final result |
| BrokerOrder.ErrorAfterTheFinalResult | internal/controlledsession/controller_broker.go:276-280 | a run in which a client error follows the final result |
| Codec.Channel.WriteAll | internal/controlledsession/protocol.go:587-599 | under any short writes, also failing ones that moved some bytes, exactly the content, or a prefix of it with an error; success whenever every write makes progress |
| Codec.Channel.WriteFrame | internal/controlledsession/protocol.go:436-452 | header and payload of a frame that fits |
| Codec.Channel.ReadFrame | internal/controlledsession/protocol.go:454-474 | the first frame of the stream under any short reads, where a read of no bytes is repeated |
| Codec.Channel.WriteRequest | internal/controlledsession/protocol.go:257-263 | a valid request that fits is written |
| Codec.Channel.ReadRequest | internal/controlledsession/protocol.go:265-278 | the first request of the stream, under the same reads |
| Codec.ParseOfBytes | internal/controlledsession/protocol.go:436-474 | reading a written frame returns it and the rest |
| Codec.DecodeOfEncoded | internal/controlledsession/protocol.go:306-353 | decoding undoes the encoding of a valid request |
| Codec.WrittenOfRead | internal/controlledsession/protocol.go:265-278 | an accepted frame re-encodes to the bytes that were read |
| Codec.WrittenBytes | internal/controlledsession/protocol.go:306-324 | every written request has the literal bytes of its kind: magic, version, kind byte, length and payload |
| Codec.WritableIff | internal/controlledsession/protocol.go:130-148 | exactly the requests that can be written |
| Codec.StreamsAreRequests | internal/controlledsession/protocol.go:257-278 | a stream is read as some requests if and only if it is the concatenation of their writings |
| MappingLiterals.ValidateMappingLiterals | internal/blueprint/identity_mapping.go:187-239 | the collect, sort and scan loops accept exactly usable declarations without overlap among what is known |
| MappingLiterals.RejectedOnlyIfHopeless | internal/blueprint/identity_mapping.go:187-239 | an unresolved declaration is rejected only if every resolution is rejected |
| MappingLiterals.ExactWhenStartsAreKnown | internal/blueprint/identity_mapping.go:187-239 | with all starts known the check accepts exactly what can be resolved |
| MappingLiterals.ResolvableByPlaces | internal/blueprint/identity_mapping.go:187-239 | a declaration can be resolved if and only if its least spans can be placed in each domain by itself |
| MappingLiterals.ExactWithOneOpen | internal/blueprint/identity_mapping.go:187-239 | with at most one unknown start per domain, an accepted declaration can be resolved if and only if the open span fits at the bottom of its domain or right behind a known span |
| MappingLiterals.ExactOnResolved | internal/blueprint/identity_mapping.go:187-239 | on resolved declarations it is geometry validation |
| MappingLiterals.AcceptedThoughHopeless | internal/blueprint/identity_mapping.go:187-239 | a declaration that passes although no resolution does |

## Left out

- Sockets, terminals, file locks, atomic files and pseudo-terminals: a write or read is an answer (succeeded, failed, failed after taking effect, short), not an operating-system call.
- SHA-256: the theorems are about the hashed bytes.
- Error texts: an error is a refused outcome. The output pump keeps the set of causes its diagnostic wraps.
- Time: deadlines are steps of a clock that may advance at any moment.
- Reflection, JSON and YAML parsing, struct tags and regular expressions: the encoder starts from a value tree with shared references, the resolver from strings already split into literals and references, event payloads from their presence.
- CanonicalEncoder.Value: what the memory of a running program rules out about references is not modelled; any two references may share a kind and an address.
- Identities that never interact with the modelled rules: the installation ID and binding of the mapping state, its decimal text form, and the validity of generation digests. Handles are sets of safe strings instead of sorted lists. The owner directory is modelled; whether it is still the selected one at the write is part of the answer `commit` of `World`.
- MappingOperations.Elsewhere: other code may record a first authority, raise the revision of an idle one, and rewrite everything around it; the installation binding it changes meanwhile is not modelled.
- The host checks on delegated ID ranges and the evidence about effects are answers of the environment, which may be anything.
- The listener, dial and attach phase of the broker before its setup buffer.
- Event payload encoding: it is the same frame with a JSON payload.
- BrokerStreams.PublicIsWhatTheHostSaid: the payloads of exit, terminating and terminated events are only present or not; each of these comes at most once.
- The deterministic ordering of declared mapping intervals: it does not affect what is accepted.
- EventGate.SchedulesAreFinite: each writer makes one write; a writer that writes again is another writer.
- OutputPump.FinalizationReturns: the source is trusted to fail reads after it was closed, as its contract says; nothing is proved about a source that blocks for ever.
- MappingLiterals.ExactWithOneOpen: with several unknown starts in one domain, whether they can be placed is a packing question; there ResolvableByPlaces and the one direction of RejectedOnlyIfHopeless are proved.
- Codec.Channel.ReadFull: a reader that returns no bytes without an error for ever is excluded, because the Go loop does not end on it.
- Command line, image building, provider store, supervisor and installation code.
