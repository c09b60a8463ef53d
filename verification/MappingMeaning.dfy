/**
 Each mapping operation in its own terms: exactly when it succeeds, over an observed valid
 state with a cooperating disk, and exactly what it records. Nothing here mentions the edits.
 */
module MappingMeaning {
  import opened Common
  import opened Geometry
  import opened GeometryChecks
  import opened Subtraction
  import opened Mappings
  import opened ExecutionPlan
  import opened MappingState
  import opened MappingOperations
  import opened MappingCommits
  import opened MappingSteps
  import opened MappingRuns
  import opened MappingClosure

  // ----- what has to hold

  /** The lock is held and the write is live and takes effect. */
  predicate Writable(w: World) { w.held && w.commit && w.write == Written }

  /** The host accepts the caller, who is the operator on record. */
  predicate HostAgrees(s: Owner, w: World) {
    && w.hostAccepts && 0 < w.operatorUid < MAX_UINT32 && 0 < w.operatorGid < MAX_UINT32
    && (s.mapping.Some? ==>
          && s.mapping.value.operatorUid == w.operatorUid && s.mapping.value.operatorGid == w.operatorGid
          && (s.mapping.value.pending.Some? ==> w.hostAcceptsPending))
  }

  /** No ID of the candidate is bound otherwise by what is protected. */
  ghost predicate Fits(m: Authority, candidate: Mapping) {
    && candidate.profile == m.profile
    && (m.uids != [] ==>
          && Compatible(m.uids, candidate.uids) && Compatible(m.gids, candidate.gids)
          && (m.profile == Bounded ==> candidate.uids == m.uids && candidate.gids == m.gids))
  }

  ghost predicate Checks(s: Owner, candidate: Mapping, w: World) {
    && w.held && HostAgrees(s, w) && !(s.deployed && s.mapping.None?)
    && (s.mapping.Some? ==> !s.mapping.value.revoked && Fits(s.mapping.value, candidate))
  }

  lemma RetainedFits(m: Authority, candidate: Mapping)
    requires ValidAuthority(m) && Canonical(candidate)
    ensures candidate.profile == m.profile && RetainGeometry(candidate, Reservations(m)).Some? <==> Fits(m, candidate)
  {
    CanonicalIsValidated(candidate);
    if m.uids != [] { RetainMeaning(candidate, Protected(m)); }
  }

  lemma PendingIsRetained(m: Authority)
    requires ValidAuthority(m) && m.pending.Some?
    ensures m.pending.value.candidate.profile == m.profile
    ensures RetainGeometry(m.pending.value.candidate, Reservations(m)).Some?
  {
    CanonicalIsValidated(m.pending.value.candidate);
  }

  lemma ChecksMeaning(s: Owner, candidate: Mapping, w: World)
    requires ValidOwner(s) && Canonical(candidate)
    ensures CheckPasses(s, candidate, w) <==> Checks(s, candidate, w)
  {
    CanonicalIsValidated(candidate);
    if s.mapping.Some? {
      RetainedFits(s.mapping.value, candidate);
      if s.mapping.value.pending.Some? { PendingIsRetained(s.mapping.value); }
    }
  }

  // ----- native plans

  /** Every candidate binding is declared now or was accepted before. */
  ghost predicate BoundByNeed(candidate: seq<Interval>, declared: set<uint32>, accepted: seq<Interval>) {
    forall c, h :: Binds(candidate, c, h) ==> c in declared || Binds(accepted, c, h)
  }

  /** The policy declares the runtime names, and the candidate binds all IDs it declares and
      no others but accepted ones. */
  ghost predicate PolicyFits(m: Authority, candidate: Mapping, native: Native, policy: Policy) {
    && (forall name :: name in native.runtimeUsers ==> name in policy.users)
    && (forall name :: name in native.runtimeGroups ==> name in policy.groups)
    && (forall id :: id in policy.users.Values ==> Covers(candidate.uids, id))
    && (forall id :: id in policy.groups.Values ==> Covers(candidate.gids, id))
    && (candidate.profile == Exact ==>
          && policy.users.Values != {} && policy.groups.Values != {}
          && BoundByNeed(candidate.uids, policy.users.Values, AcceptedUids(m))
          && BoundByNeed(candidate.gids, policy.groups.Values, AcceptedGids(m)))
  }

  predicate Ready(s: Owner, w: World) {
    w.held && s.mapping.Some? && s.mapping.value.native && s.current.Some? && w.policy.Some?
  }

  /** The selected build is there with its policy, and the candidate passes and fits it. */
  ghost predicate Plannable(s: Owner, candidate: Mapping, native: Native, w: World) {
    && Ready(s, w) && w.policyLocked && Checks(s, candidate, w)
    && PolicyFits(s.mapping.value, candidate, native, w.policy.value)
  }

  function InputOf(m: Authority, candidate: Mapping, native: Native, w: World): PlanInput
    requires w.policy.Some?
  {
    PlanInput(w.policyLocked, w.policy.value, candidate, Reservations(m), Accepted(m),
              native.runtimeUsers, native.runtimeGroups)
  }

  lemma ValidHistory(m: Authority, candidate: Mapping, native: Native, w: World)
    requires ValidAuthority(m) && m.native && w.policy.Some?
    ensures HistoryProtected(InputOf(m, candidate, native, w))
  {
    if Accepted(m).Some? {
      assert m.uids != [];
      CanonicalIsValidated(Accepted(m).value);
      CanonicalIsValidated(Protected(m));
      UnionTestIsContainment(Accepted(m).value, Protected(m));
    }
  }

  lemma JustifiedByNeed(m: Authority, candidate: Mapping, native: Native, w: World)
    requires w.policy.Some?
    ensures var input := InputOf(m, candidate, native, w);
            RuntimeDeclared(input) && Covered(candidate, input.policy) && CandidateJustified(candidate, input)
            <==> PolicyFits(m, candidate, native, w.policy.value)
  {
  }

  lemma InputPlans(m: Authority, candidate: Mapping, native: Native, w: World)
    requires ValidAuthority(m) && m.native && Canonical(candidate) && Fits(m, candidate) && w.policy.Some?
    ensures PlanExecution(InputOf(m, candidate, native, w)).Some? <==>
              w.policyLocked && PolicyFits(m, candidate, native, w.policy.value)
  {
    var input := InputOf(m, candidate, native, w);
    CanonicalIsValidated(candidate);
    ValidHistory(m, candidate, native, w);
    RetainedFits(m, candidate);
    PlanExistsIff(input);
    JustifiedByNeed(m, candidate, native, w);
  }

  lemma NativePlanIs(s: Owner, candidate: Mapping, native: Native, w: World)
    requires ValidOwner(s)
    ensures NativePlan(s, candidate, native, w)
         == if Ready(s, w) && CheckPasses(s, candidate, w) then PlanExecution(InputOf(s.mapping.value, candidate, native, w))
            else None
  {
  }

  lemma PlanIsActive(input: PlanInput)
    requires Canonical(input.candidate) && PlanExecution(input).Some?
    ensures IsActive(PlanExecution(input).value.active, input.candidate, input.policy)
  {
    CanonicalIsValidated(input.candidate);
    PlanPartitions(input);
  }

  lemma NativePlanMeaning(s: Owner, candidate: Mapping, native: Native, w: World)
    requires ValidOwner(s) && Canonical(candidate)
    ensures NativePlan(s, candidate, native, w).Some? <==> Plannable(s, candidate, native, w)
    ensures NativePlan(s, candidate, native, w).Some? ==>
              w.policy.Some? && IsActive(NativePlan(s, candidate, native, w).value.active, candidate, w.policy.value)
  {
    ChecksMeaning(s, candidate, w);
    NativePlanIs(s, candidate, native, w);
    if Ready(s, w) && Checks(s, candidate, w) {
      InputPlans(s.mapping.value, candidate, native, w);
      if NativePlan(s, candidate, native, w).Some? { PlanIsActive(InputOf(s.mapping.value, candidate, native, w)); }
    }
  }

  lemma ActiveIsUnique(a: Mapping, b: Mapping, candidate: Mapping, policy: Policy)
    requires IsActive(a, candidate, policy) && IsActive(b, candidate, policy)
    ensures a == b
  {
    if candidate.profile == Exact {
      CanonicalFormIsUnique(a.uids, b.uids);
      CanonicalFormIsUnique(a.gids, b.gids);
    }
  }

  // ----- the pending operation

  /** The recorded operation is the one meant and still belongs to this generation. */
  predicate IsCurrent(s: Owner, id: string) {
    && s.mapping.Some? && s.mapping.value.pending.Some?
    && var m, p := s.mapping.value, s.mapping.value.pending.value;
       && (p.kind == Configure || p.kind == NativeExecute) && p.id == id && p.expectedGeneration == s.current
       && (p.phase != ReleaseAttempted ==> p.priorAccepted == m.admitted)
       && (p.phase == Intent ==> p.expectedRevision == m.revision)
  }

  /** Its fresh check passes; a native one still plans to the active map it records. */
  ghost predicate StillFits(s: Owner, w: World)
    requires s.mapping.Some? && s.mapping.value.pending.Some?
  {
    var p := s.mapping.value.pending.value;
    if p.kind == NativeExecute then
      p.native.Some? && Plannable(s, p.candidate, p.native.value, w)
      && IsActive(p.native.value.active, p.candidate, w.policy.value)
    else Checks(s, p.candidate, w)
  }

  lemma PendingPlanIs(s: Owner, w: World, plan: Option<Plan>)
    requires !Idle(s) && s.mapping.value.pending.value.native.Some?
    requires plan == NativePlan(s, s.mapping.value.pending.value.candidate, s.mapping.value.pending.value.native.value, w)
    ensures PendingNativePlan(s, w).Some? <==>
              plan.Some? && plan.value.active == s.mapping.value.pending.value.native.value.active
  {
  }

  lemma PendingPlanMeaning(s: Owner, w: World)
    requires ValidOwner(s) && !Idle(s) && s.mapping.value.pending.value.native.Some?
    ensures var p := s.mapping.value.pending.value;
            PendingNativePlan(s, w).Some? <==>
              Plannable(s, p.candidate, p.native.value, w)
              && IsActive(p.native.value.active, p.candidate, w.policy.value)
  {
    var p := s.mapping.value.pending.value;
    var plan := NativePlan(s, p.candidate, p.native.value, w);
    NativePlanMeaning(s, p.candidate, p.native.value, w);
    PendingPlanIs(s, w, plan);
    if plan.Some? && IsActive(p.native.value.active, p.candidate, w.policy.value) {
      ActiveIsUnique(plan.value.active, p.native.value.active, p.candidate, w.policy.value);
    }
  }

  lemma PendingMeaning(s: Owner, id: string, w: World)
    requires ValidOwner(s)
    ensures PendingPasses(s, id, w) <==> IsCurrent(s, id) && StillFits(s, w)
  {
    if !Idle(s) {
      var p := s.mapping.value.pending.value;
      ChecksMeaning(s, p.candidate, w);
      if p.native.Some? { PendingPlanMeaning(s, w); }
    }
  }
}
