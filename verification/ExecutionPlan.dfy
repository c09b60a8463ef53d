/**
 The prospective execution plan (internal/deploy/identity_execution_plan.go,
 `PlanIdentityExecutionV1`, with the coverage check of identity_policy_coverage.go):
 when a plan exists, and how it partitions identity authority.
 */
module ExecutionPlan {
  import opened Common
  import opened Geometry
  import opened GeometryChecks
  import opened Subtraction
  import opened Mappings

  /** The declared users and groups with their container IDs. */
  datatype Policy = Policy(users: map<string, uint32>, groups: map<string, uint32>)

  /** `evidenceValid` is the verdict on the locked policy evidence and the generation digest. */
  datatype PlanInput = PlanInput(
    evidenceValid: bool,
    policy: Policy,
    candidate: Mapping,
    reservations: Option<Mapping>,
    accepted: Option<Mapping>,
    runtimeUsers: seq<string>,
    runtimeGroups: seq<string>)

  datatype Plan = Plan(
    active: Mapping,
    reservations: Mapping,
    accepted: Mapping,
    dormantUids: seq<Interval>,
    dormantGids: seq<Interval>)

  predicate CoversAll(s: seq<Interval>, ids: set<uint32>) { forall id :: id in ids ==> Covers(s, id) }

  predicate Covered(candidate: Mapping, policy: Policy) {
    CoversAll(candidate.uids, policy.users.Values) && CoversAll(candidate.gids, policy.groups.Values)
  }

  predicate RuntimeDeclared(input: PlanInput) {
    && (forall name :: name in input.runtimeUsers ==> name in input.policy.users)
    && (forall name :: name in input.runtimeGroups ==> name in input.policy.groups)
  }

  /** The validated history, or `None` when it is not part of the protected reservations. */
  function AcceptedHistory(input: PlanInput): Option<Option<Mapping>> {
    match input.accepted
    case None => Some(None)
    case Some(a) =>
      if input.reservations.None? then None
      else
        match ValidateGeometry(input.reservations.value)
        case None => None
        case Some(previous) => if UnionIsUnchanged(a, previous) then Some(ValidateGeometry(a)) else None
  }

  function ActiveMapping(candidate: Mapping, policy: Policy): Option<Mapping>
    requires Canonical(candidate)
  {
    if candidate.profile != Exact then Some(candidate)
    else
      ValidateGeometry(Mapping(Exact, Project(candidate.uids, policy.users.Values),
                               Project(candidate.gids, policy.groups.Values)))
  }

  function Partitioned(active: Mapping, reserved: Mapping, prospective: Mapping): Plan {
    Plan(active, reserved, prospective,
         Subtract(prospective.uids, active.uids), Subtract(prospective.gids, active.gids))
  }

  /** The rest of Go's function, once preparation has succeeded. */
  function PlanPrepared(candidate: Mapping, reserved: Mapping, history: Option<Mapping>, policy: Policy): Option<Plan>
    requires Canonical(candidate)
  {
    match ActiveMapping(candidate, policy)
    case None => None
    case Some(active) =>
      match RetainGeometry(active, history)
      case None => None
      case Some(prospective) =>
        if UnionIsUnchanged(candidate, prospective) then Some(Partitioned(active, reserved, prospective)) else None
  }

  function PlanExecution(input: PlanInput): Option<Plan> {
    match ValidateGeometry(input.candidate)
    case None => None
    case Some(candidate) =>
      ValidatedIsCanonical(input.candidate);
      if !input.evidenceValid || !Covered(candidate, input.policy) then None
      else
        match (RetainGeometry(candidate, input.reservations), AcceptedHistory(input))
        case (Some(reserved), Some(accepted)) =>
          if RuntimeDeclared(input) then PlanPrepared(candidate, reserved, accepted, input.policy) else None
        case _ => None
  }

  // ----- the active mapping

  /** Exactly the candidate's bindings of declared IDs, or the whole candidate when bounded. */
  ghost predicate IsActive(active: Mapping, candidate: Mapping, policy: Policy) {
    && Canonical(active) && active.profile == candidate.profile
    && Contained(active, candidate)
    && if candidate.profile == Exact then
         && (forall c, h :: Binds(active.uids, c, h) <==> c in policy.users.Values && Binds(candidate.uids, c, h))
         && (forall c, h :: Binds(active.gids, c, h) <==> c in policy.groups.Values && Binds(candidate.gids, c, h))
       else active == candidate
  }

  lemma ActiveMeaning(candidate: Mapping, policy: Policy)
    requires Canonical(candidate) && Covered(candidate, policy)
    ensures ActiveMapping(candidate, policy).Some? <==>
              (candidate.profile == Exact ==> policy.users.Values != {} && policy.groups.Values != {})
    ensures ActiveMapping(candidate, policy).Some? ==>
              IsActive(ActiveMapping(candidate, policy).value, candidate, policy)
  {
    if candidate.profile == Exact {
      var uids, gids := Project(candidate.uids, policy.users.Values), Project(candidate.gids, policy.groups.Values);
      ProjectMeaning(candidate.uids, policy.users.Values);
      ProjectMeaning(candidate.gids, policy.groups.Values);
      ProjectionsValidateAlike(uids, uids, candidate.uids, policy.users.Values);
      ProjectionsValidateAlike(gids, gids, candidate.gids, policy.groups.Values);
      NonemptyWhenDeclared(uids, candidate.uids, policy.users.Values);
      NonemptyWhenDeclared(gids, candidate.gids, policy.groups.Values);
      ValidateDomainMeaning(Exact, uids);
      ValidateDomainMeaning(Exact, gids);
    }
  }

  lemma NonemptyWhenDeclared(r: seq<Interval>, intervals: seq<Interval>, ids: set<uint32>)
    requires CanonicalDomain(Exact, intervals) && IsProjection(r, intervals, ids) && CoversAll(intervals, ids)
    ensures r == [] <==> ids == {}
  {
    ProjectionIsAcceptable(r, intervals, ids);
    if id :| id in ids { assert Covers(intervals, id); }
  }

  // ----- accepted history

  /** What earlier admissions bound. */
  function PriorUids(input: PlanInput): seq<Interval> { if input.accepted.Some? then input.accepted.value.uids else [] }
  function PriorGids(input: PlanInput): seq<Interval> { if input.accepted.Some? then input.accepted.value.gids else [] }

  /** The history is valid and every one of its bindings is protected. */
  ghost predicate HistoryProtected(input: PlanInput) {
    input.accepted.Some? ==>
      input.reservations.Some?
      && var a, r := ValidateGeometry(input.accepted.value), ValidateGeometry(input.reservations.value);
         && a.Some? && r.Some? && a.value.profile == r.value.profile
         && Contained(a.value, r.value) && (a.value.profile == Bounded ==> a == r)
  }

  lemma HistoryMeaning(input: PlanInput)
    ensures AcceptedHistory(input).Some? <==> HistoryProtected(input)
    ensures AcceptedHistory(input).Some? ==>
              AcceptedHistory(input).value
              == (if input.accepted.None? then None else ValidateGeometry(input.accepted.value))
    ensures AcceptedHistory(input).Some? && input.accepted.Some? ==> AcceptedHistory(input).value.Some?
  {
    if input.accepted.Some? && input.reservations.Some? && ValidateGeometry(input.reservations.value).Some? {
      var a, r := ValidateGeometry(input.accepted.value), ValidateGeometry(input.reservations.value);
      RetainOfValidated(input.accepted.value, r);
      ValidatedIsCanonical(input.reservations.value);
      if a.Some? {
        ValidatedIsCanonical(input.accepted.value);
        UnionTestIsContainment(a.value, r.value);
      }
    }
  }

  // ----- when a plan exists

  /** Every candidate binding is declared now or was accepted before. */
  ghost predicate IntendedOrAdmitted(candidate: seq<Interval>, declared: set<uint32>, prior: seq<Interval>) {
    forall c, h :: Binds(candidate, c, h) ==> c in declared || Binds(prior, c, h)
  }

  ghost predicate CandidateJustified(candidate: Mapping, input: PlanInput) {
    candidate.profile == Exact ==>
      && input.policy.users.Values != {} && input.policy.groups.Values != {}
      && IntendedOrAdmitted(candidate.uids, input.policy.users.Values, PriorUids(input))
      && IntendedOrAdmitted(candidate.gids, input.policy.groups.Values, PriorGids(input))
  }

  /** The part of Go's function before the active map: evidence, reservations and history. */
  ghost predicate Prepared(input: PlanInput) {
    && input.evidenceValid && RuntimeDeclared(input)
    && ValidateGeometry(input.candidate).Some?
    && Covered(ValidateGeometry(input.candidate).value, input.policy)
    && RetainGeometry(ValidateGeometry(input.candidate).value, input.reservations).Some?
    && HistoryProtected(input)
  }

  lemma SubsetsAreCompatible(p: seq<Interval>, a: seq<Interval>, bigP: seq<Interval>, bigA: seq<Interval>)
    requires Within(p, bigP) && Within(a, bigA) && Compatible(bigP, bigA)
    ensures Compatible(p, a)
  {
  }

  /** The history that takes part in the union, canonical and with the prior meaning. */
  lemma PriorMeaning(input: PlanInput) returns (prior: Mapping)
    requires input.accepted.Some? && ValidateGeometry(input.accepted.value).Some?
    ensures ValidateGeometry(input.accepted.value) == Some(prior) && Canonical(prior)
    ensures SameMeaning(prior.uids, PriorUids(input)) && SameMeaning(prior.gids, PriorGids(input))
  {
    ValidatedIsCanonical(input.accepted.value);
    prior := ValidateGeometry(input.accepted.value).value;
  }

  /** What is active inside a retained candidate can be united with protected history. */
  lemma ProspectiveUnion(candidate: Mapping, active: Mapping, prior: Mapping, r: Mapping)
    requires Canonical(candidate) && Canonical(active) && Canonical(prior) && Canonical(r)
    requires RetainGeometry(candidate, Some(r)).Some?
    requires active.profile == candidate.profile && Contained(active, candidate)
    requires prior.profile == r.profile && Contained(prior, r)
    requires candidate.profile == Bounded ==> active == candidate && prior == r
    ensures var union := RetainGeometry(active, Some(prior));
            && union.Some? && Canonical(union.value) && union.value.profile == active.profile
            && IsUnion(union.value.uids, active.uids, prior.uids)
            && IsUnion(union.value.gids, active.gids, prior.gids)
            && (candidate.profile == Bounded ==> union.value == candidate)
  {
    RetainMeaning(candidate, r);
    SubsetsAreCompatible(prior.uids, active.uids, r.uids, candidate.uids);
    SubsetsAreCompatible(prior.gids, active.gids, r.gids, candidate.gids);
    RetainMeaning(active, prior);
    if candidate.profile == Bounded {
      CanonicalIsValidated(active);
      CanonicalIsValidated(prior);
    }
  }

  /** With protected history and a retained candidate, the union of what is active with
      what was accepted cannot fail, and it is that union. */
  lemma ProspectiveExists(input: PlanInput, candidate: Mapping, active: Mapping, history: Option<Mapping>)
    requires Prepared(input) && ValidateGeometry(input.candidate) == Some(candidate)
    requires Canonical(candidate) && IsActive(active, candidate, input.policy)
    requires history == if input.accepted.None? then None else ValidateGeometry(input.accepted.value)
    ensures var prospective := RetainGeometry(active, history);
            && prospective.Some? && Canonical(prospective.value) && prospective.value.profile == active.profile
            && IsUnion(prospective.value.uids, active.uids, PriorUids(input))
            && IsUnion(prospective.value.gids, active.gids, PriorGids(input))
            && (candidate.profile == Bounded ==> prospective.value == candidate)
  {
    if input.accepted.Some? {
      var prior := PriorMeaning(input);
      var r := ValidateGeometry(input.reservations.value).value;
      ValidatedIsCanonical(input.reservations.value);
      RetainOverValidated(candidate, input.reservations.value);
      ProspectiveUnion(candidate, active, prior, r);
    } else {
      CanonicalIsValidated(active);
    }
  }

  /** A union test over the prospective map asks whether the candidate is justified. */
  lemma JustifiedByUnion(input: PlanInput, candidate: Mapping, active: Mapping, prospective: Mapping)
    requires Canonical(candidate) && IsActive(active, candidate, input.policy) && Canonical(prospective)
    requires prospective.profile == active.profile
    requires IsUnion(prospective.uids, active.uids, PriorUids(input))
    requires IsUnion(prospective.gids, active.gids, PriorGids(input))
    requires candidate.profile == Bounded ==> prospective == candidate
    ensures UnionIsUnchanged(candidate, prospective) <==>
              (candidate.profile == Exact ==>
                 IntendedOrAdmitted(candidate.uids, input.policy.users.Values, PriorUids(input))
                 && IntendedOrAdmitted(candidate.gids, input.policy.groups.Values, PriorGids(input)))
  {
    UnionTestIsContainment(candidate, prospective);
  }

  lemma PreparedPlanExistsIff(input: PlanInput, candidate: Mapping, reserved: Mapping, history: Option<Mapping>)
    requires Prepared(input) && ValidateGeometry(input.candidate) == Some(candidate) && Canonical(candidate)
    requires history == if input.accepted.None? then None else ValidateGeometry(input.accepted.value)
    ensures PlanPrepared(candidate, reserved, history, input.policy).Some? <==> CandidateJustified(candidate, input)
  {
    ActiveMeaning(candidate, input.policy);
    if ActiveMapping(candidate, input.policy).Some? {
      ActivePlanExistsIff(input, candidate, ActiveMapping(candidate, input.policy).value, history);
    }
  }

  lemma ActivePlanExistsIff(input: PlanInput, candidate: Mapping, active: Mapping, history: Option<Mapping>)
    requires Prepared(input) && ValidateGeometry(input.candidate) == Some(candidate) && Canonical(candidate)
    requires IsActive(active, candidate, input.policy)
    requires history == if input.accepted.None? then None else ValidateGeometry(input.accepted.value)
    ensures var prospective := RetainGeometry(active, history);
            prospective.Some?
            && (UnionIsUnchanged(candidate, prospective.value) <==>
                  (candidate.profile == Exact ==>
                     IntendedOrAdmitted(candidate.uids, input.policy.users.Values, PriorUids(input))
                     && IntendedOrAdmitted(candidate.gids, input.policy.groups.Values, PriorGids(input))))
  {
    ProspectiveExists(input, candidate, active, history);
    JustifiedByUnion(input, candidate, active, RetainGeometry(active, history).value);
  }

  /** Exactly when a plan exists. In particular the two later failure branches of the Go
      code can only be taken for a candidate that is not justified. */
  lemma PlanExistsIff(input: PlanInput)
    ensures PlanExecution(input).Some? <==>
              Prepared(input) && CandidateJustified(ValidateGeometry(input.candidate).value, input)
  {
    HistoryMeaning(input);
    if Prepared(input) {
      var candidate := ValidateGeometry(input.candidate).value;
      ValidatedIsCanonical(input.candidate);
      PreparedPlanExistsIff(input, candidate, RetainGeometry(candidate, input.reservations).value,
                            AcceptedHistory(input).value);
    }
  }

  // ----- how a plan partitions authority

  ghost predicate Partition(
    candidate: seq<Interval>, active: seq<Interval>, prior: seq<Interval>, accepted: seq<Interval>,
    dormant: seq<Interval>)
  {
    && Within(active, candidate)
    && (forall c, h :: Binds(candidate, c, h) ==> Binds(active, c, h) || Binds(prior, c, h))
    && IsUnion(accepted, active, prior)
    && Form(dormant)
    && IsUnion(accepted, active, dormant)
    && (forall c :: !(Covers(active, c) && Covers(dormant, c)))
    && (forall c :: Covers(accepted, c) && !Covers(prior, c) ==> Covers(active, c))
  }

  lemma DomainPartition(
    candidate: seq<Interval>, active: seq<Interval>, prior: seq<Interval>, accepted: seq<Interval>)
    requires Form(active) && Form(accepted)
    requires Within(active, candidate) && IsUnion(accepted, active, prior) && Within(candidate, accepted)
    ensures Partition(candidate, active, prior, accepted, Subtract(accepted, active))
  {
    var dormant := Subtract(accepted, active);
    SubtractMeaning(accepted, active);
    forall c, h ensures Binds(accepted, c, h) <==> Binds(active, c, h) || Binds(dormant, c, h) {
      CoversIsBinds(active, c);
      if Binds(accepted, c, h) && Covers(active, c) {
        var k :| Binds(active, c, k);
        assert Binds(accepted, c, k);
        BindingIsUniqueIn(accepted, c, h, k);
      }
    }
    forall c ensures !(Covers(active, c) && Covers(dormant, c)) { CoversIsBinds(dormant, c); }
    forall c | Covers(accepted, c) && !Covers(prior, c) ensures Covers(active, c) {
      CoversIsBinds(accepted, c);
      CoversIsBinds(prior, c);
      CoversIsBinds(active, c);
    }
  }

  /** Every successful plan partitions authority, in both ID domains. */
  lemma PlanPartitions(input: PlanInput)
    requires PlanExecution(input).Some?
    ensures var plan, candidate := PlanExecution(input).value, ValidateGeometry(input.candidate).value;
            && Canonical(candidate) && Canonical(plan.accepted)
            && IsActive(plan.active, candidate, input.policy)
            && RetainGeometry(candidate, input.reservations) == Some(plan.reservations)
            && Partition(candidate.uids, plan.active.uids, PriorUids(input), plan.accepted.uids, plan.dormantUids)
            && Partition(candidate.gids, plan.active.gids, PriorGids(input), plan.accepted.gids, plan.dormantGids)
  {
    PlanExistsIff(input);
    var plan, candidate := PlanExecution(input).value, ValidateGeometry(input.candidate).value;
    ValidatedIsCanonical(input.candidate);
    ActiveMeaning(candidate, input.policy);
    HistoryMeaning(input);
    ProspectiveExists(input, candidate, plan.active, AcceptedHistory(input).value);
    UnionTestIsContainment(candidate, plan.accepted);
    DomainPartition(candidate.uids, plan.active.uids, PriorUids(input), plan.accepted.uids);
    DomainPartition(candidate.gids, plan.active.gids, PriorGids(input), plan.accepted.gids);
  }

  /** The prospective accepted map keeps the profile; a bounded one is the candidate itself. */
  lemma PlanShape(input: PlanInput)
    requires PlanExecution(input).Some?
    ensures var plan, candidate := PlanExecution(input).value, ValidateGeometry(input.candidate).value;
            && plan.accepted.profile == candidate.profile
            && (candidate.profile == Bounded ==> plan.accepted == candidate && plan.active == candidate)
            && plan.dormantUids == Subtract(plan.accepted.uids, plan.active.uids)
            && plan.dormantGids == Subtract(plan.accepted.gids, plan.active.gids)
  {
    PlanExistsIff(input);
    var plan, candidate := PlanExecution(input).value, ValidateGeometry(input.candidate).value;
    ValidatedIsCanonical(input.candidate);
    ActiveMeaning(candidate, input.policy);
    HistoryMeaning(input);
    ProspectiveExists(input, candidate, plan.active, AcceptedHistory(input).value);
  }

  // ----- the planner itself

  method PlanActive(candidate: Mapping, policy: Policy) returns (active: Option<Mapping>)
    requires Canonical(candidate) && Covered(candidate, policy)
    ensures active == ActiveMapping(candidate, policy)
  {
    if candidate.profile != Exact { return Some(candidate); }
    var uids := ProjectIDs(candidate.uids, policy.users.Values);
    var gids := ProjectIDs(candidate.gids, policy.groups.Values);
    ProjectMeaning(candidate.uids, policy.users.Values);
    ProjectMeaning(candidate.gids, policy.groups.Values);
    ProjectionsValidateAlike(uids, Project(candidate.uids, policy.users.Values), candidate.uids, policy.users.Values);
    ProjectionsValidateAlike(gids, Project(candidate.gids, policy.groups.Values), candidate.gids, policy.groups.Values);
    active := Validate(Mapping(Exact, uids, gids));
  }

  method PlanHistory(input: PlanInput) returns (ok: bool, history: Option<Mapping>)
    ensures ok <==> AcceptedHistory(input).Some?
    ensures ok ==> history == AcceptedHistory(input).value
  {
    if input.accepted.None? { return true, None; }
    if input.reservations.None? { return false, None; }
    var previous := Validate(input.reservations.value);
    if previous.None? { return false, None; }
    var union := Retain(input.accepted.value, previous);
    if union != previous { return false, None; }
    history := Validate(input.accepted.value);
    return true, history;
  }

  /** The rest of Go's function, once preparation has succeeded. */
  method PlanFrom(candidate: Mapping, reserved: Mapping, history: Option<Mapping>, policy: Policy)
    returns (plan: Option<Plan>)
    requires Canonical(candidate) && Covered(candidate, policy) && (history.Some? ==> Canonical(history.value))
    ensures plan == PlanPrepared(candidate, reserved, history, policy)
    ensures plan.Some? ==> FewPieces(plan.value)
  {
    var active := PlanActive(candidate, policy);
    if active.None? { return None; }
    var prospective := Retain(active.value, history);
    if prospective.None? { return None; }
    var union := Retain(candidate, prospective);
    if union != prospective { return None; }
    ActiveMeaning(candidate, policy);
    UnionStaysCanonical(active.value, history);
    var split := Split(active.value, reserved, prospective.value);
    return Some(split);
  }

  method Split(active: Mapping, reserved: Mapping, prospective: Mapping) returns (plan: Plan)
    requires Canonical(active) && Canonical(prospective)
    ensures plan == Partitioned(active, reserved, prospective) && FewPieces(plan)
  {
    var dormantUids := SubtractIntervals(prospective.uids, active.uids);
    var dormantGids := SubtractIntervals(prospective.gids, active.gids);
    return Plan(active, reserved, prospective, dormantUids, dormantGids);
  }

  /** The dormant lists grow with the number of intervals, never with their sizes. */
  predicate FewPieces(plan: Plan) {
    && |plan.dormantUids| <= |plan.accepted.uids| + |plan.active.uids|
    && |plan.dormantGids| <= |plan.accepted.gids| + |plan.active.gids|
  }

  lemma UnionStaysCanonical(active: Mapping, history: Option<Mapping>)
    requires Canonical(active) && (history.Some? ==> Canonical(history.value)) && RetainGeometry(active, history).Some?
    ensures Canonical(RetainGeometry(active, history).value)
  {
    if history.Some? { RetainMeaning(active, history.value); } else { CanonicalIsValidated(active); }
  }

  /** Go's `PlanIdentityExecutionV1`, using the boundary-proportional loops throughout. */
  method PlanIdentityExecution(input: PlanInput) returns (plan: Option<Plan>)
    ensures plan == PlanExecution(input)
    ensures plan.Some? ==> FewPieces(plan.value)
  {
    var validated := Validate(input.candidate);
    if validated.None? { return None; }
    var candidate := validated.value;
    ValidatedIsCanonical(input.candidate);
    if !input.evidenceValid || !Covered(candidate, input.policy) { return None; }
    var reserved := Retain(candidate, input.reservations);
    if reserved.None? { return None; }
    var ok, history := PlanHistory(input);
    if !ok || !RuntimeDeclared(input) { return None; }
    if history.Some? { HistoryIsCanonical(input); }
    plan := PlanFrom(candidate, reserved.value, history, input.policy);
  }

  lemma HistoryIsCanonical(input: PlanInput)
    requires AcceptedHistory(input).Some? && AcceptedHistory(input).value.Some?
    ensures Canonical(AcceptedHistory(input).value.value)
  {
    HistoryMeaning(input);
    ValidatedIsCanonical(input.accepted.value);
  }
}
