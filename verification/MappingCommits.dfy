/**
 What one mapping operation commits. Every edit the operations make to a valid state is
 accepted by the state validator, so the validator's refusal inside a change is a branch
 that is never taken; in particular an admission round-trips through the state.
 */
module MappingCommits {
  import opened Common
  import opened Geometry
  import opened GeometryChecks
  import opened Subtraction
  import opened Mappings
  import opened ExecutionPlan
  import opened MappingState
  import opened MappingOperations

  // ----- intervals held by a canonical list

  /** No interval of a canonical list is continued by another one. */
  lemma ContinuedNowhere(s: seq<Interval>, k: nat)
    requires Form(s) && k < |s|
    ensures !Binds(s, s[k].End(), s[k].End() + s[k].Offset())
  {
    var c := s[k].End();
    assert k + 1 < |s| ==> c <= s[k + 1].container < s[k + 1].End();
    forall j | 0 <= j < |s| && s[j].Has(c) ensures s[j].Offset() != s[k].Offset() {
      assert j == k + 1 && !Joins(s[k], s[k + 1]);
    }
  }

  /** In a canonical list, an interval whose bindings are all present lies in one interval. */
  lemma HeldInOne(v: Interval, s: seq<Interval>) returns (k: nat)
    requires Form(s) && v.Valid() && Within([v], s)
    ensures k < |s| && HeldBy(v, s[k])
  {
    assert [v][0].Has(v.container) && Binds([v], v.container, v.host);
    k :| 0 <= k < |s| && s[k].Has(v.container) && v.host == v.container + s[k].Offset();
    var c := s[k].End();
    if c < v.End() {
      assert [v][0].Has(c) && Binds([v], c, c + v.Offset());
      ContinuedNowhere(s, k);
    }
  }

  lemma ContainedIsHeld(dormant: seq<Interval>, s: seq<Interval>)
    requires Form(s) && AllValid(dormant) && Within(dormant, s)
    ensures forall i :: 0 <= i < |dormant| ==> Retained(dormant[i], s)
  {
    forall i | 0 <= i < |dormant| ensures Retained(dormant[i], s) {
      forall c, h | Binds([dormant[i]], c, h) ensures Binds(s, c, h) {
        assert dormant[i].Has(c) && h == c + dormant[i].Offset();
        assert Binds(dormant, c, h);
      }
      var k := HeldInOne(dormant[i], s);
    }
  }

  lemma HeldIsContained(dormant: seq<Interval>, s: seq<Interval>)
    requires forall i :: 0 <= i < |dormant| ==> Retained(dormant[i], s)
    ensures Within(dormant, s)
  {
    forall c, h | Binds(dormant, c, h) ensures Binds(s, c, h) {
      var i :| 0 <= i < |dormant| && dormant[i].Has(c) && h == c + dormant[i].Offset();
      assert Retained(dormant[i], s);
      var k :| 0 <= k < |s| && HeldBy(dormant[i], s[k]);
      assert s[k].Has(c);
    }
  }

  /** A form inside a canonical domain is canonical, unless it is empty. */
  lemma PartIsCanonical(part: seq<Interval>, whole: seq<Interval>)
    requires Form(part) && CanonicalDomain(Exact, whole) && Within(part, whole)
    ensures part != [] ==> CanonicalDomain(Exact, part)
  {
    HostsApartIsInjective(whole);
    HostsApartIsInjective(part);
    NoRootByMeaning(whole);
    NoRootByMeaning(part);
  }

  /** Dormancy stays valid while the protected list keeps every binding. */
  lemma DormantStays(m: Authority, n: Authority, dormant: seq<Interval>, old_: seq<Interval>, new_: seq<Interval>)
    requires DormantOk(m, dormant, old_) && (m.admitted.Some? ==> n.admitted.Some?)
    requires dormant == [] || (Form(new_) && Within(old_, new_))
    ensures DormantOk(n, dormant, new_)
  {
    if dormant != [] {
      HeldIsContained(dormant, old_);
      ContainedIsHeld(dormant, new_);
    }
  }

  // ----- closing an operation

  lemma ClosedReservations(m: Authority, reserved: Mapping)
    requires ValidAuthority(m) && m.pending.Some?
    requires RetainGeometry(m.pending.value.candidate, Reservations(m)) == Some(reserved)
    ensures Canonical(reserved) && reserved.profile == m.profile
    ensures Within(m.uids, reserved.uids) && Within(m.gids, reserved.gids)
    ensures Contained(m.pending.value.candidate, reserved)
    ensures m.profile == Bounded && m.uids != [] ==> reserved == Protected(m)
    ensures forall c, h :: Binds(reserved.uids, c, h) ==>
                             Binds(m.uids, c, h) || Binds(m.pending.value.candidate.uids, c, h)
    ensures forall c, h :: Binds(reserved.gids, c, h) ==>
                             Binds(m.gids, c, h) || Binds(m.pending.value.candidate.gids, c, h)
  {
    RetainedReservations(m, m.pending.value.candidate, reserved);
  }

  /** The reservations after retaining a canonical candidate of the same profile. */
  lemma RetainedReservations(m: Authority, candidate: Mapping, reserved: Mapping)
    requires AssignmentsOk(m) && Canonical(candidate) && candidate.profile == m.profile
    requires RetainGeometry(candidate, Reservations(m)) == Some(reserved)
    ensures Canonical(reserved) && reserved.profile == m.profile
    ensures Within(m.uids, reserved.uids) && Within(m.gids, reserved.gids)
    ensures Contained(candidate, reserved)
    ensures m.profile == Bounded && m.uids != [] ==> reserved == Protected(m)
    ensures m.profile == Bounded ==> reserved == candidate
    ensures forall c, h :: Binds(reserved.uids, c, h) ==> Binds(m.uids, c, h) || Binds(candidate.uids, c, h)
    ensures forall c, h :: Binds(reserved.gids, c, h) ==> Binds(m.gids, c, h) || Binds(candidate.gids, c, h)
  {
    CanonicalIsValidated(candidate);
    if m.uids != [] {
      RetainMeaning(candidate, Protected(m));
      CanonicalIsValidated(Protected(m));
    }
  }

  lemma StillContained(accepted: Mapping, p: Mapping, q: Mapping)
    requires Canonical(accepted) && Canonical(p) && Canonical(q) && UnionIsUnchanged(accepted, p)
    requires p.profile == q.profile && Contained(p, q) && (p.profile == Bounded ==> p == q)
    ensures UnionIsUnchanged(accepted, q)
  {
    UnionTestIsContainment(accepted, p);
    UnionTestIsContainment(accepted, q);
  }

  /** The authority after closing its pending operation. */
  function Closed(m: Authority, reserved: Mapping): Authority
    requires m.pending.Some?
  {
    m.(uids := reserved.uids, gids := reserved.gids, storage := m.storage + m.pending.value.owned, pending := None,
       revision := m.revision + 1)
  }

  lemma CloseKeepsDormancy(m: Authority, reserved: Mapping)
    requires ValidAuthority(m) && m.pending.Some?
    requires RetainGeometry(m.pending.value.candidate, Reservations(m)) == Some(reserved)
    ensures DormantOk(Closed(m, reserved), m.dormantUids, DormancySource(Closed(m, reserved)).0)
    ensures DormantOk(Closed(m, reserved), m.dormantGids, DormancySource(Closed(m, reserved)).1)
  {
    ClosedReservations(m, reserved);
    var n := Closed(m, reserved);
    if m.native && m.acceptedUids.Some? && m.acceptedGids.Some? {
      assert DormancySource(n) == DormancySource(m);
    } else {
      assert DormancySource(n) == (reserved.uids, reserved.gids);
      DormantStays(m, n, m.dormantUids, m.uids, reserved.uids);
      DormantStays(m, n, m.dormantGids, m.gids, reserved.gids);
    }
  }

  lemma CloseKeepsAccepted(m: Authority, reserved: Mapping)
    requires ValidAuthority(m) && m.pending.Some? && m.native
    requires RetainGeometry(m.pending.value.candidate, Reservations(m)) == Some(reserved)
    ensures AcceptedOk(Closed(m, reserved))
  {
    ClosedReservations(m, reserved);
    var n := Closed(m, reserved);
    assert Accepted(n) == Accepted(m);
    if Accepted(m).Some? {
      var accepted := Accepted(m).value;
      assert m.uids != [] && Canonical(Protected(m));
      StillContained(accepted, Protected(m), reserved);
    }
  }

  lemma CloseIsValid(m: Authority, reserved: Mapping)
    requires ValidAuthority(m) && m.pending.Some? && m.revision < MAX_UINT64
    requires RetainGeometry(m.pending.value.candidate, Reservations(m)) == Some(reserved)
    ensures ValidAuthority(Closed(m, reserved))
  {
    ClosedReservations(m, reserved);
    CloseKeepsDormancy(m, reserved);
    if m.native { CloseKeepsAccepted(m, reserved); }
  }

  // ----- admitting a native execution

  function Bump(m: Authority): Authority { m.(revision := m.revision + 1) }

  /** The pending operation is native and `plan` is its fresh plan. */
  ghost predicate Planned(m: Authority, plan: Plan, policy: Policy) {
    && m.native && m.pending.Some? && m.pending.value.native.Some?
    && plan.active == m.pending.value.native.value.active
    && PlanExecution(PendingInput(m, policy)) == Some(plan)
  }

  function PendingInput(m: Authority, policy: Policy): PlanInput
    requires m.pending.Some? && m.pending.value.native.Some?
  {
    var p := m.pending.value;
    PlanInput(true, policy, p.candidate, Reservations(m), Accepted(m),
              p.native.value.runtimeUsers, p.native.value.runtimeGroups)
  }

  function Admitted(m: Authority, plan: Plan): Authority
    requires m.pending.Some? && m.pending.value.native.Some?
  {
    var p := m.pending.value;
    m.(uids := plan.reservations.uids, gids := plan.reservations.gids,
       acceptedUids := Some(plan.accepted.uids), acceptedGids := Some(plan.accepted.gids),
       dormantUids := plan.dormantUids, dormantGids := plan.dormantGids,
       admitted := p.expectedGeneration, engine := Some(p.native.value.engine),
       nativeProcess := Some(p.native.value.process),
       pending := Some(p.(phase := ReleaseAttempted, expectedRevision := m.revision + 1)),
       revision := m.revision + 1)
  }

  /** What the plan of a valid pending native operation says about its authority. */
  lemma PlannedFacts(m: Authority, plan: Plan, policy: Policy)
    requires ValidAuthority(m) && Planned(m, plan, policy)
    ensures var candidate := m.pending.value.candidate;
            && Canonical(candidate) && candidate.profile == m.profile
            && RetainGeometry(candidate, Reservations(m)) == Some(plan.reservations)
            && Canonical(plan.active) && plan.active.profile == m.profile && Contained(plan.active, candidate)
            && Canonical(plan.accepted) && plan.accepted.profile == m.profile
            && (m.profile == Bounded ==> plan.accepted == candidate && plan.active == candidate)
            && plan.dormantUids == Subtract(plan.accepted.uids, plan.active.uids)
            && plan.dormantGids == Subtract(plan.accepted.gids, plan.active.gids)
    ensures IsUnion(plan.accepted.uids, plan.active.uids, AcceptedUids(m))
    ensures IsUnion(plan.accepted.gids, plan.active.gids, AcceptedGids(m))
  {
    CanonicalIsValidated(m.pending.value.candidate);
    PlanPartitions(PendingInput(m, policy));
    PlanShape(PendingInput(m, policy));
  }

  /** What has been accepted so far, as interval lists. */
  function AcceptedUids(m: Authority): seq<Interval> { if Accepted(m).Some? then Accepted(m).value.uids else [] }
  function AcceptedGids(m: Authority): seq<Interval> { if Accepted(m).Some? then Accepted(m).value.gids else [] }

  lemma AcceptedIsProtected(m: Authority)
    requires ValidAuthority(m) && m.native
    ensures Within(AcceptedUids(m), m.uids) && Within(AcceptedGids(m), m.gids)
  {
    if Accepted(m).Some? {
      assert m.uids != [];
      UnionTestIsContainment(Accepted(m).value, Protected(m));
    }
  }

  /** The new accepted map lies inside the new reservations. */
  lemma AcceptedIsReserved(m: Authority, plan: Plan, policy: Policy)
    requires ValidAuthority(m) && Planned(m, plan, policy)
    ensures Canonical(plan.reservations) && plan.reservations.profile == m.profile
    ensures Contained(m.pending.value.candidate, plan.reservations)
    ensures UnionIsUnchanged(plan.accepted, plan.reservations)
    ensures m.profile == Bounded ==> plan.accepted == plan.reservations
  {
    PlannedFacts(m, plan, policy);
    RetainedReservations(m, m.pending.value.candidate, plan.reservations);
    AcceptedIsProtected(m);
    UnionInside(plan.accepted.uids, plan.active.uids, AcceptedUids(m), plan.reservations.uids);
    UnionInside(plan.accepted.gids, plan.active.gids, AcceptedGids(m), plan.reservations.gids);
    UnionTestIsContainment(plan.accepted, plan.reservations);
  }

  lemma UnionInside(union: seq<Interval>, a: seq<Interval>, b: seq<Interval>, whole: seq<Interval>)
    requires IsUnion(union, a, b) && Within(a, whole) && Within(b, whole)
    ensures Within(union, whole)
  {
  }

  /** The validator's recomputation returns exactly the active map just committed. */
  lemma AdmissionRoundTrips(m: Authority, plan: Plan, policy: Policy)
    requires ValidAuthority(m) && Planned(m, plan, policy)
    ensures var n := Admitted(m, plan);
            && Accepted(n) == Some(plan.accepted)
            && RecomputedActive(n, plan.accepted) == plan.active == m.pending.value.native.value.active
  {
    PlannedFacts(m, plan, policy);
    SubtractTwice(plan.accepted.uids, plan.active.uids);
    SubtractTwice(plan.accepted.gids, plan.active.gids);
  }

  lemma DormantDomain(m: Authority, accepted: seq<Interval>, active: seq<Interval>)
    requires m.admitted.Some? && CanonicalDomain(Exact, accepted) && Form(active)
    ensures DormantOk(m, Subtract(accepted, active), accepted)
  {
    var dormant := Subtract(accepted, active);
    SubtractMeaning(accepted, active);
    PartIsCanonical(dormant, accepted);
    ContainedIsHeld(dormant, accepted);
  }

  lemma SubtractAll(s: seq<Interval>)
    requires Form(s)
    ensures Subtract(s, s) == []
  {
    SubtractMeaning(s, s);
    var r := Subtract(s, s);
    if r != [] {
      assert r[0].Has(r[0].container) && Binds(r, r[0].container, r[0].host);
      CoversIsBinds(s, r[0].container);
    }
  }

  lemma AdmitKeepsDormancy(m: Authority, plan: Plan, policy: Policy)
    requires ValidAuthority(m) && Planned(m, plan, policy)
    ensures DormantOk(Admitted(m, plan), plan.dormantUids, plan.accepted.uids)
    ensures DormantOk(Admitted(m, plan), plan.dormantGids, plan.accepted.gids)
    ensures m.profile == Bounded ==> plan.dormantUids == [] && plan.dormantGids == []
  {
    PlannedFacts(m, plan, policy);
    var n := Admitted(m, plan);
    DormantDomain(n, plan.accepted.uids, plan.active.uids);
    DormantDomain(n, plan.accepted.gids, plan.active.gids);
    SubtractAll(plan.active.uids);
    SubtractAll(plan.active.gids);
  }

  lemma AdmitKeepsPending(m: Authority, plan: Plan, policy: Policy)
    requires ValidAuthority(m) && m.revision < MAX_UINT64 && Planned(m, plan, policy)
    ensures PendingOk(Admitted(m, plan))
  {
    AcceptedIsReserved(m, plan, policy);
    var candidate := m.pending.value.candidate;
    UnionTestIsContainment(candidate, plan.reservations);
    CanonicalIsValidated(candidate);
    if m.profile == Bounded { RetainedReservations(m, candidate, plan.reservations); }
  }

  lemma AdmitKeepsNative(m: Authority, plan: Plan, policy: Policy)
    requires ValidAuthority(m) && m.revision < MAX_UINT64 && Planned(m, plan, policy)
    ensures NativeOk(Admitted(m, plan))
  {
    PlannedFacts(m, plan, policy);
    AcceptedIsReserved(m, plan, policy);
    AdmissionRoundTrips(m, plan, policy);
    AdmitKeepsDormancy(m, plan, policy);
    CanonicalIsValidated(plan.active);
    UnionTestIsContainment(plan.active, m.pending.value.candidate);
  }

  lemma AdmitIsValid(m: Authority, plan: Plan, policy: Policy)
    requires ValidAuthority(m) && m.revision < MAX_UINT64 && Planned(m, plan, policy)
    ensures ValidAuthority(Admitted(m, plan))
  {
    var n := Admitted(m, plan);
    AcceptedIsReserved(m, plan, policy);
    AdmitKeepsDormancy(m, plan, policy);
    AdmitKeepsPending(m, plan, policy);
    AdmitKeepsNative(m, plan, policy);
    assert DormancySource(n) == (plan.accepted.uids, plan.accepted.gids);
  }

  // ----- the remaining edits

  /** Replacing only the pending operation leaves the rest of the validator's verdict alone. */
  lemma RependedIsValid(m: Authority, q: Option<Operation>)
    requires ValidAuthority(m) && m.revision < MAX_UINT64
    requires PendingOk(Bump(m.(pending := q)))
    requires m.native ==> NativePendingOk(Bump(m.(pending := q)))
    requires !m.native && q.Some? ==> q.value.native.None? && q.value.kind != NativeExecute
    ensures ValidAuthority(Bump(m.(pending := q)))
  {
    var n := Bump(m.(pending := q));
    assert Accepted(n) == Accepted(m) && DormancySource(n) == DormancySource(m);
    assert AssignmentsOk(n);
    assert m.native ==> AcceptedOk(n);
  }

  /** The native form of never-admitted authority, before its pending operation is restamped. */
  lemma NativeFormIsValid(m: Authority)
    requires ValidAuthority(m) && !m.native && m.supervisor.None? && m.engine.None? && m.admitted.None?
    requires m.dormantUids == [] && m.dormantGids == [] && (m.pending.Some? ==> m.pending.value.kind == Configure)
    ensures ValidAuthority(m.(native := true, acceptedUids := Some([]), acceptedGids := Some([])))
  {
    var n := m.(native := true, acceptedUids := Some([]), acceptedGids := Some([]));
    assert AssignmentsOk(n);
    assert AcceptedOk(n);
    assert PendingOk(n);
  }

  lemma UpgradeIsValid(s: Owner)
    requires ValidOwner(s) && MayChange(s) && UpgradeEdit(s).Some?
    ensures ValidAuthority(Bump(UpgradeEdit(s).value.mapping.value))
  {
    var m := s.mapping.value;
    NativeFormIsValid(m);
    RependedIsValid(m.(native := true, acceptedUids := Some([]), acceptedGids := Some([])),
                    UpgradeEdit(s).value.mapping.value.pending);
  }

  /** The first configuration of an owner whose resolved directory the validator rejects. */
  predicate FirstInUnsafePlace(s: Owner, w: World) {
    s.mapping.None? && w.ownerDir.Some? && !OwnerDirOk(w.ownerDir.value)
  }

  lemma NewIntentIsValid(s: Owner, m: Authority, candidate: Mapping, id: string, handles: set<string>)
    requires ValidAuthority(m) && m.revision < MAX_UINT64 && (m.pending.Some? ==> m.pending.value.kind == Configure)
    requires Canonical(candidate) && candidate.profile == m.profile && SafeIdentity(id) && SafeHandles(handles)
    requires RetainGeometry(candidate, Reservations(m)).Some?
    ensures ValidAuthority(Bump(m.(pending := Some(NewIntent(s, m, candidate, id, handles)))))
  {
    RependedIsValid(m, Some(NewIntent(s, m, candidate, id, handles)));
  }

  lemma FreshIntentIsValid(s: Owner, candidate: Mapping, id: string, w: World)
    requires Canonical(candidate) && SafeIdentity(id) && HostAccepts(w) && w.handles.Some? && SafeHandles(w.handles.value)
    requires w.ownerDir.Some?
    ensures var m := FreshAuthority(candidate.profile, w.ownerDir.value, w);
            ValidAuthority(Bump(m.(pending := Some(NewIntent(s, m, candidate, id, w.handles.value)))))
            <==> OwnerDirOk(w.ownerDir.value)
  {
  }

  lemma ConfigureIsValid(s: Owner, candidate: Mapping, id: string, w: World)
    requires ValidOwner(s) && MayChange(s) && Canonical(candidate) && SafeIdentity(id)
    requires CheckPasses(s, candidate, w) && ConfigureEdit(s, candidate, id, w).Some?
    requires ConfigureEdit(s, candidate, id, w).value != s
    ensures s.staged || s.deployed
    ensures ValidAuthority(Bump(ConfigureEdit(s, candidate, id, w).value.mapping.value)) <==> !FirstInUnsafePlace(s, w)
  {
    if s.mapping.Some? { NewIntentIsValid(s, s.mapping.value, candidate, id, w.handles.value); }
    else { FreshIntentIsValid(s, candidate, id, w); }
  }

  /** A plan for a canonical candidate keeps an active map inside it. */
  lemma PlanIsInside(s: Owner, candidate: Mapping, native: Native, w: World)
    requires Canonical(candidate) && NativePlan(s, candidate, native, w).Some?
    ensures var plan := NativePlan(s, candidate, native, w).value;
            Canonical(plan.active) && UnionIsUnchanged(plan.active, candidate)
  {
    var m := s.mapping.value;
    var input := PlanInput(w.policyLocked, w.policy.value, candidate, Reservations(m), Accepted(m),
                           native.runtimeUsers, native.runtimeGroups);
    CanonicalIsValidated(candidate);
    PlanPartitions(input);
    PlanShape(input);
    UnionTestIsContainment(PlanExecution(input).value.active, candidate);
  }

  lemma NativeIntentIsValid(m: Authority, p: Operation)
    requires ValidAuthority(m) && m.revision < MAX_UINT64 && m.native
    requires SafeIdentity(p.id) && p.kind == NativeExecute && p.native.Some? && p.phase == Intent
    requires p.expectedRevision == m.revision + 1 && p.expectedGeneration.Some? && SafeHandles(p.owned)
    requires SafeIdentity(p.native.value.engine) && SafeIdentity(p.native.value.process)
    requires Canonical(p.candidate) && p.candidate.profile == m.profile
    requires RetainGeometry(p.candidate, Reservations(m)).Some?
    requires Canonical(p.native.value.active) && UnionIsUnchanged(p.native.value.active, p.candidate)
    ensures ValidAuthority(Bump(m.(pending := Some(p))))
  {
    RependedIsValid(m, Some(p));
  }

  lemma PrepareIsValid(s: Owner, candidate: Mapping, id: string, native: Native, plan: Plan, w: World)
    requires ValidOwner(s) && MayChange(s) && Canonical(candidate)
    requires SafeIdentity(id) && SafeIdentity(native.engine) && SafeIdentity(native.process)
    requires NativePlan(s, candidate, native, w) == Some(plan)
    requires PrepareEdit(s, candidate, id, native.(active := plan.active), w).Some?
    ensures ValidAuthority(Bump(PrepareEdit(s, candidate, id, native.(active := plan.active), w).value.mapping.value))
  {
    PlanIsInside(s, candidate, native, w);
    var edited := PrepareEdit(s, candidate, id, native.(active := plan.active), w).value;
    NativeIntentIsValid(s.mapping.value, edited.mapping.value.pending.value);
  }

  lemma BeginIsValid(s: Owner, w: World)
    requires ValidOwner(s) && MayChange(s) && s.mapping.Some? && s.mapping.value.pending.Some? && BeginEdit(s, w).Some?
    ensures ValidAuthority(Bump(BeginEdit(s, w).value.mapping.value))
  {
    RependedIsValid(s.mapping.value, BeginEdit(s, w).value.mapping.value.pending);
  }

  lemma CancelIsValid(s: Owner, w: World)
    requires ValidOwner(s) && MayChange(s) && s.mapping.Some? && s.mapping.value.pending.Some? && CancelEdit(s, w).Some?
    ensures ValidAuthority(Bump(CancelEdit(s, w).value.mapping.value))
  {
    RependedIsValid(s.mapping.value, None);
  }

  lemma VerifyIsValid(s: Owner, w: World)
    requires ValidOwner(s) && MayChange(s) && s.mapping.Some? && s.mapping.value.pending.Some? && VerifyEdit(s, w).Some?
    requires s.mapping.value.pending.value.kind == Configure
    ensures ValidAuthority(Bump(VerifyEdit(s, w).value.mapping.value))
  {
    RependedIsValid(s.mapping.value, VerifyEdit(s, w).value.mapping.value.pending);
  }

  lemma AdmitEditIsValid(s: Owner, plan: Plan, w: World)
    requires ValidOwner(s) && MayChange(s) && s.mapping.Some? && s.mapping.value.pending.Some?
    requires s.mapping.value.pending.value.native.Some? && PendingNativePlan(s, w) == Some(plan)
    requires AdmitEdit(s, plan, w).Some?
    ensures ValidAuthority(Bump(AdmitEdit(s, plan, w).value.mapping.value))
  {
    var m := s.mapping.value;
    PlannedByWorld(s, plan, w);
    AdmitIsValid(m, plan, w.policy.value);
    assert Bump(AdmitEdit(s, plan, w).value.mapping.value) == Admitted(m, plan);
  }

  lemma PlannedByWorld(s: Owner, plan: Plan, w: World)
    requires s.mapping.Some? && s.mapping.value.pending.Some? && s.mapping.value.pending.value.native.Some?
    requires PendingNativePlan(s, w) == Some(plan)
    ensures w.policy.Some? && Planned(s.mapping.value, plan, w.policy.value)
  {
    var input := PendingInput(s.mapping.value, w.policy.value);
    assert PlanExecution(input.(evidenceValid := w.policyLocked)) == Some(plan);
    PlanExistsIff(input.(evidenceValid := w.policyLocked));
    assert w.policyLocked;
  }

  lemma CloseEditIsClosed(s: Owner)
    requires s.mapping.Some? && s.mapping.value.pending.Some? && CloseEdit(s).Some?
    ensures var m := s.mapping.value;
            var reserved := RetainGeometry(m.pending.value.candidate, Reservations(m));
            reserved.Some? && Bump(CloseEdit(s).value.mapping.value) == Closed(m, reserved.value)
  {
  }

  lemma CloseEditIsValid(s: Owner)
    requires ValidOwner(s) && MayChange(s) && s.mapping.Some? && s.mapping.value.pending.Some? && CloseEdit(s).Some?
    ensures ValidAuthority(Bump(CloseEdit(s).value.mapping.value))
  {
    var m := s.mapping.value;
    CloseEditIsClosed(s);
    CloseIsValid(m, RetainGeometry(m.pending.value.candidate, Reservations(m)).value);
  }

  /** Closing never fails: the recorded candidate of a valid state can always be retained. */
  lemma CloseAlwaysEdits(s: Owner)
    requires ValidOwner(s) && s.mapping.Some? && s.mapping.value.pending.Some?
    ensures CloseEdit(s).Some?
  {
    CanonicalIsValidated(s.mapping.value.pending.value.candidate);
  }

  // ----- the validator never refuses

  lemma RecoverIsValid(s: Owner, call: Call, w: World)
    requires ValidOwner(s) && MayChange(s) && call.Recover? && Attempt(s, call, w).Some?
    ensures ValidAuthority(Bump(Attempt(s, call, w).value.mapping.value))
  {
    if call.cancel { CancelIsValid(s, w); }
    else if s.mapping.value.pending.value.kind == NativeExecute { CloseEditIsValid(s); }
    else { VerifyIsValid(s, w); }
  }

  lemma ProposalIsValid(s: Owner, call: Call, w: World)
    requires ValidOwner(s) && MayChange(s) && (call.ConfigureMapping? || call.Prepare?)
    requires Attempt(s, call, w).Some? && Attempt(s, call, w).value != s
    ensures ValidAuthority(Bump(Attempt(s, call, w).value.mapping.value)) <==> !FirstInUnsafePlace(s, w)
  {
    ValidatedIsCanonical(call.candidate);
    var canonical := ValidateGeometry(call.candidate).value;
    if call.ConfigureMapping? { ConfigureIsValid(s, canonical, call.id, w); }
    else { PrepareIsValid(s, canonical, call.id, call.native, NativePlan(s, canonical, call.native, w).value, w); }
  }

  lemma ProgressIsValid(s: Owner, call: Call, w: World)
    requires ValidOwner(s) && MayChange(s) && (call.Upgrade? || call.BeginEffects? || call.Admit?)
    requires Attempt(s, call, w).Some?
    ensures ValidAuthority(Bump(Attempt(s, call, w).value.mapping.value))
  {
    if call.Upgrade? { UpgradeIsValid(s); }
    else if call.BeginEffects? { BeginIsValid(s, w); }
    else { AdmitEditIsValid(s, PendingNativePlan(s, w).value, w); }
  }

  /** Only a first configuration works without recorded authority. */
  lemma EditsNeedAuthority(s: Owner, call: Call, w: World)
    requires Attempt(s, call, w).Some? && !call.ConfigureMapping?
    ensures s.mapping.Some?
  {
  }

  lemma EditsLeaveAuthority(s: Owner, call: Call, w: World)
    requires Attempt(s, call, w).Some?
    ensures Attempt(s, call, w).value.mapping.Some?
  {
    if !call.ConfigureMapping? { EditsNeedAuthority(s, call, w); }
  }

  lemma AttemptIsValid(s: Owner, call: Call, w: World)
    requires ValidOwner(s) && MayChange(s) && Attempt(s, call, w).Some? && Attempt(s, call, w).value != s
    ensures Attempt(s, call, w).value.mapping.Some?
    ensures ValidAuthority(Bump(Attempt(s, call, w).value.mapping.value)) <==> !FirstInUnsafePlace(s, w)
  {
    EditsLeaveAuthority(s, call, w);
    if call.ConfigureMapping? || call.Prepare? {
      ProposalIsValid(s, call, w);
    } else {
      EditsNeedAuthority(s, call, w);
      if call.Recover? { RecoverIsValid(s, call, w); } else { ProgressIsValid(s, call, w); }
    }
  }

  predicate OnlyMapping(s: Owner, edited: Option<Owner>) {
    edited.Some? ==> edited.value == s.(mapping := edited.value.mapping)
  }

  lemma PendingEditsOnlyMapping(s: Owner, plan: Plan, cancel: bool, w: World)
    requires s.mapping.Some? && s.mapping.value.pending.Some?
    ensures OnlyMapping(s, BeginEdit(s, w)) && OnlyMapping(s, RecoverEdit(s, cancel, w))
    ensures s.mapping.value.pending.value.native.Some? ==> OnlyMapping(s, AdmitEdit(s, plan, w))
  {
  }

  lemma ProposalEditsOnlyMapping(s: Owner, call: Call, w: World)
    requires call.ConfigureMapping? || call.Prepare? || call.Upgrade?
    ensures OnlyMapping(s, Attempt(s, call, w))
  {
  }

  lemma ProgressEditsOnlyMapping(s: Owner, call: Call, w: World)
    requires call.BeginEffects? || call.Admit? || call.Recover?
    ensures OnlyMapping(s, Attempt(s, call, w))
  {
    if s.mapping.Some? && s.mapping.value.pending.Some? {
      if call.Admit? {
        if Attempt(s, call, w).Some? { PendingEditsOnlyMapping(s, PendingNativePlan(s, w).value, false, w); }
      } else {
        var edited := if call.Recover? then RecoverEdit(s, call.cancel, w) else BeginEdit(s, w);
        assert Attempt(s, call, w) == edited || Attempt(s, call, w).None?;
        assert OnlyMapping(s, edited);
      }
    }
  }

  /** No operation edits anything but the mapping authority. */
  lemma OnlyTheMappingIsEdited(s: Owner, call: Call, w: World)
    ensures OnlyMapping(s, Attempt(s, call, w))
  {
    if call.ConfigureMapping? || call.Prepare? || call.Upgrade? { ProposalEditsOnlyMapping(s, call, w); }
    else if !call.Elsewhere? { ProgressEditsOnlyMapping(s, call, w); }
  }

  /** Whatever edit the operations attempt on a valid state, the validator accepts it, but for
      one case: the first configuration in a directory whose path it rejects. */
  lemma ValidatorRefusesIff(s: Owner, call: Call, w: World)
    requires ValidOwner(s) && MayChange(s) && Attempt(s, call, w).Some? && Attempt(s, call, w).value != s
    ensures ValidOwner(Bumped(Attempt(s, call, w).value)) <==> !FirstInUnsafePlace(s, w)
  {
    AttemptIsValid(s, call, w);
    OnlyTheMappingIsEdited(s, call, w);
    ValidByParts(s, Attempt(s, call, w).value);
  }

  lemma ValidByParts(s: Owner, edited: Owner)
    requires MayChange(s) && edited == s.(mapping := edited.mapping)
    requires edited.mapping.Some?
    ensures ValidOwner(Bumped(edited)) <==> ValidAuthority(Bump(edited.mapping.value))
  {
  }
}
