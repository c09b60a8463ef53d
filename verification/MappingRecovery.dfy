/**
 Recovery after an admission (internal/deploy/identity_mapping_native.go,
 identity_mapping_operations.go): an admitted operation plans again over what it has itself
 committed, so that the call that closes it cannot be refused for its own effects.
 */
module MappingRecovery {
  import opened Common
  import opened Geometry
  import opened GeometryChecks
  import opened Mappings
  import opened ExecutionPlan
  import opened MappingState
  import opened MappingOperations
  import opened MappingCommits
  import opened MappingRuns

  /** What the plan may look back on once it has been committed. */
  lemma CommittedHistory(m: Authority, plan: Plan, policy: Policy)
    requires ValidAuthority(m) && m.revision < MAX_UINT64 && Planned(m, plan, policy)
    ensures var n := Admitted(m, plan);
            && Reservations(n) == Some(plan.reservations) && Accepted(n) == Some(plan.accepted)
            && RetainGeometry(m.pending.value.candidate, Reservations(n)).Some?
            && HistoryProtected(PendingInput(n, policy))
  {
    PlannedFacts(m, plan, policy);
    AcceptedIsReserved(m, plan, policy);
    AdmissionRoundTrips(m, plan, policy);
    AdmitKeepsPending(m, plan, policy);
    CanonicalIsValidated(plan.accepted);
    CanonicalIsValidated(plan.reservations);
    UnionTestIsContainment(plan.accepted, plan.reservations);
  }

  /** What justified the candidate before the admission justifies it afterwards. */
  lemma StaysJustified(m: Authority, plan: Plan, policy: Policy)
    requires ValidAuthority(m) && m.revision < MAX_UINT64 && Planned(m, plan, policy)
    ensures CandidateJustified(m.pending.value.candidate, PendingInput(Admitted(m, plan), policy))
  {
    var candidate := m.pending.value.candidate;
    PlannedFacts(m, plan, policy);
    CommittedHistory(m, plan, policy);
    CanonicalIsValidated(candidate);
    PlanExistsIff(PendingInput(m, policy));
    assert CandidateJustified(candidate, PendingInput(m, policy));
  }

  lemma PreparedAgain(m: Authority, plan: Plan, policy: Policy)
    requires ValidAuthority(m) && m.revision < MAX_UINT64 && Planned(m, plan, policy)
    ensures Prepared(PendingInput(Admitted(m, plan), policy))
  {
    CanonicalIsValidated(m.pending.value.candidate);
    PlanExistsIff(PendingInput(m, policy));
    CommittedHistory(m, plan, policy);
  }

  /** The active map of a plan depends on the candidate and the policy alone. */
  lemma ActiveOfPlan(input: PlanInput)
    requires PlanExecution(input).Some? && Canonical(input.candidate)
    ensures ActiveMapping(input.candidate, input.policy) == Some(PlanExecution(input).value.active)
  {
    CanonicalIsValidated(input.candidate);
  }

  /** An admitted operation plans again, to the same active map. */
  lemma PlansAgain(m: Authority, plan: Plan, policy: Policy)
    requires ValidAuthority(m) && m.revision < MAX_UINT64 && Planned(m, plan, policy)
    ensures var again := PlanExecution(PendingInput(Admitted(m, plan), policy));
            again.Some? && again.value.active == plan.active
  {
    var after := PendingInput(Admitted(m, plan), policy);
    CanonicalIsValidated(m.pending.value.candidate);
    PreparedAgain(m, plan, policy);
    StaysJustified(m, plan, policy);
    PlanExistsIff(after);
    ActiveOfPlan(PendingInput(m, policy));
    ActiveOfPlan(after);
  }

  /** The environment still answers the planning checks as it did. */
  predicate AnswersAlike(w: World, v: World) {
    && v.held && v.policy == w.policy && v.policyLocked == w.policyLocked
    && v.hostAccepts == w.hostAccepts && v.hostAcceptsPending == w.hostAcceptsPending
    && v.operatorUid == w.operatorUid && v.operatorGid == w.operatorGid
  }

  lemma CheckPassesAgain(s: Owner, plan: Plan, w: World, v: World)
    requires ValidOwner(s) && MayChange(s) && !Idle(s) && s.mapping.value.pending.value.native.Some?
    requires PendingNativePlan(s, w) == Some(plan) && AnswersAlike(w, v)
    ensures var t := Edit(s, Admitted(s.mapping.value, plan));
            ValidOwner(t) && CheckPasses(t, s.mapping.value.pending.value.candidate, v)
  {
    var m := s.mapping.value;
    PlannedByWorld(s, plan, w);
    AdmitIsValid(m, plan, w.policy.value);
    CommittedHistory(m, plan, w.policy.value);
  }

  /** With the checks passed, the pending plan is the plan of the pending input. */
  lemma PendingPlanIs(t: Owner, v: World, again: Plan)
    requires !Idle(t) && t.mapping.value.native && t.mapping.value.pending.value.native.Some?
    requires t.current.Some? && ValidOwner(t) && v.held && v.policy.Some? && v.policyLocked
    requires CheckPasses(t, t.mapping.value.pending.value.candidate, v)
    requires Planned(t.mapping.value, again, v.policy.value)
    ensures PendingNativePlan(t, v) == Some(again)
  {
  }

  lemma PendingPlansAgain(s: Owner, plan: Plan, w: World, v: World) returns (again: Plan)
    requires ValidOwner(s) && MayChange(s) && !Idle(s) && s.mapping.value.pending.value.native.Some?
    requires PendingNativePlan(s, w) == Some(plan) && AnswersAlike(w, v)
    ensures PendingNativePlan(Edit(s, Admitted(s.mapping.value, plan)), v) == Some(again)
    ensures again.active == plan.active
  {
    var t := Edit(s, Admitted(s.mapping.value, plan));
    CheckPassesAgain(s, plan, w, v);
    PlannedByWorld(s, plan, w);
    PolicyIsLocked(s, w);
    PlansAgain(s.mapping.value, plan, w.policy.value);
    again := PlanExecution(PendingInput(t.mapping.value, w.policy.value)).value;
    PendingPlanIs(t, v, again);
  }

  lemma PolicyIsLocked(s: Owner, w: World)
    requires !Idle(s) && s.mapping.value.pending.value.native.Some? && PendingNativePlan(s, w).Some?
    ensures w.policyLocked && s.current.Some?
  {
  }

  /** An admission that took effect wrote the plan of that moment, over the expected state. */
  lemma AdmissionWrites(s: Owner, e: Event) returns (plan: Plan)
    requires ValidOwner(s) && TookEffect(s, e)
    ensures MayChange(s) && !Idle(s) && s.mapping.value.pending.value.native.Some?
    ensures PendingPasses(s, e.call.id, e.world) && PendingNativePlan(s, e.world) == Some(plan)
    ensures s.mapping.value.pending.value.kind == NativeExecute
    ensures Next(s, e) == Edit(s, Admitted(s.mapping.value, plan))
  {
    plan := PendingNativePlan(s, e.world).value;
  }

  /** After an admission took effect, whatever its caller was told, the pending operation
      passes its checks again with the admitted active map, and one uncancelled recovery
      with cooperating evidence ends it: an operation never locks itself out. */
  lemma AdmittedCanBeRecovered(s: Owner, e: Event, v: World)
    requires ValidOwner(s) && TookEffect(s, e) && AnswersAlike(e.world, v)
    ensures var t := Next(s, e);
            && !Idle(s) && s.mapping.value.pending.value.native.Some? && PendingPasses(t, e.call.id, v)
            && t.mapping.value.pending.value.native.Some?
            && PendingNativePlan(t, v).value.active == s.mapping.value.pending.value.native.value.active
            && (Cooperates(v) && t.mapping.value.revision < MAX_UINT64 - 1 ==>
                  Ends(Step(t, Call.Recover(t, e.call.id, false), v)))
  {
    var plan := AdmissionWrites(s, e);
    var t := Next(s, e);
    CheckPassesAgain(s, plan, e.world, v);
    var again := PendingPlansAgain(s, plan, e.world, v);
    assert PendingPasses(t, e.call.id, v);
    if Cooperates(v) && t.mapping.value.revision < MAX_UINT64 - 1 { RecoveryEndsTheOperation(t, e.call.id, v); }
  }
}
