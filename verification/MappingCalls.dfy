/**
 Each mapping call in its own terms: exactly when it succeeds over an observed valid state,
 with the lock held and a write that takes effect, and exactly what it then records.
 */
module MappingCalls {
  import opened Common
  import opened Geometry
  import opened GeometryChecks
  import opened Subtraction
  import opened Mappings
  import opened ExecutionPlan
  import opened MappingState
  import opened MappingOperations
  import opened MappingCommits
  import opened MappingSteps
  import opened MappingRuns
  import opened MappingClosure
  import opened MappingMeaning

  predicate Succeeds(s: Owner, call: Call, w: World) { Step(s, call, w).returned.Some? }

  function After(s: Owner, call: Call, w: World): Owner { Step(s, call, w).durable }

  predicate Callable(s: Owner, w: World) { ValidOwner(s) && MayChange(s) && Writable(w) }

  lemma CallOutcome(s: Owner, call: Call, w: World)
    requires Callable(s, w) && !call.Elsewhere? && !CommitsTwice(call) && call.expected == s
    ensures var edited := Attempt(s, call, w);
            && (Succeeds(s, call, w) <==> edited.Some? && (edited.value == s || !FirstInUnsafePlace(s, w)))
            && (Succeeds(s, call, w) ==> After(s, call, w) == if edited.value == s then s else Bumped(edited.value))
            && (Succeeds(s, call, w) ==> Step(s, call, w).returned == Some(After(s, call, w)))
            && (!Succeeds(s, call, w) ==> After(s, call, w) == s)
  {
    if Attempt(s, call, w).Some? { CooperativeCallsCommit(s, call, w); } else { StepByEdit(s, call, w, None); }
  }

  /** The next state: only the authority changed, and its revision went up by one. */
  predicate Records(s: Owner, t: Owner, n: Authority) {
    t == s.(mapping := Some(n.(revision := (if s.mapping.Some? then s.mapping.value.revision else 0) + 1)))
  }

  predicate Inventoried(w: World) { w.evidence && w.handles.Some? && SafeHandles(w.handles.value) }

  // ----- upgrading

  predicate Upgradable(s: Owner) {
    && s.mapping.Some?
    && var m := s.mapping.value;
       && !m.native && m.supervisor.None? && m.engine.None? && m.admitted.None?
       && m.dormantUids == [] && m.dormantGids == []
       && (m.pending.Some? ==>
             var p := m.pending.value;
             && p.kind == Configure && p.expectedGeneration == s.current && p.priorAccepted.None?
             && (p.phase == Intent ==> p.expectedRevision == m.revision))
  }

  /** The pending intent follows the revision; any other operation stays as it is. */
  function Carried(m: Authority): Option<Operation> {
    if m.pending.Some? && m.pending.value.phase == Intent then
      Some(m.pending.value.(expectedRevision := m.revision + 1))
    else m.pending
  }

  /** What an upgrade makes of the authority. */
  function NativeForm(m: Authority): Authority {
    m.(native := true, acceptedUids := Some([]), acceptedGids := Some([]), pending := Carried(m))
  }

  lemma UpgradeAllowed(s: Owner)
    ensures UpgradeEdit(s).Some? <==> Upgradable(s)
  {
  }

  lemma UpgradeRecords(s: Owner)
    requires UpgradeEdit(s).Some?
    ensures s.mapping.Some? && UpgradeEdit(s).value == Edit(s, NativeForm(s.mapping.value)) && UpgradeEdit(s).value != s
  {
  }

  lemma UpgradeMeaning(s: Owner, w: World)
    requires Callable(s, w)
    ensures var call := Call.Upgrade(s);
            && (Succeeds(s, call, w) <==> Upgradable(s))
            && (Succeeds(s, call, w) ==> Records(s, After(s, call, w), NativeForm(s.mapping.value)))
  {
    UpgradeAllowed(s);
    CallOutcome(s, Call.Upgrade(s), w);
    if UpgradeEdit(s).Some? { UpgradeRecords(s); }
  }

  // ----- configuring

  /** The recorded intent is the same configuration with the same inventory. */
  predicate Repeats(p: Operation, candidate: Mapping, id: string, w: World) {
    p.id == id && p.phase == Intent && p.candidate == candidate && w.handles == Some(p.owned)
  }

  /** What is pending allows it: nothing, the same intent, or an unused intent to replace. */
  predicate Replaceable(s: Owner, candidate: Mapping, id: string, w: World) {
    s.mapping.Some? && s.mapping.value.pending.Some? ==>
      var m, p := s.mapping.value, s.mapping.value.pending.value;
      && p.kind == Configure && p.phase == Intent && p.expectedRevision == m.revision
      && p.expectedGeneration == s.current && p.priorAccepted == m.admitted
      && (Repeats(p, candidate, id, w) || (p.id != id && w.unused))
  }

  /** A first authority is recorded for a staged owner in a safe place. */
  predicate Placeable(s: Owner, w: World) {
    s.mapping.None? ==> s.staged && w.ownerDir.Some? && OwnerDirOk(w.ownerDir.value)
  }

  predicate IsRetry(s: Owner, candidate: Mapping, id: string, w: World) {
    s.mapping.Some? && s.mapping.value.pending.Some? && Repeats(s.mapping.value.pending.value, candidate, id, w)
  }

  /** The authority a configuration starts from, and the intent it records. */
  predicate Configured(s: Owner, n: Authority, candidate: Mapping, id: string, w: World)
    requires w.handles.Some?
  {
    && n.pending == Some(Operation(id, Configure, n.revision, s.current, candidate, n.admitted, w.handles.value, Intent, None))
    && if s.mapping.Some? then n == s.mapping.value.(pending := n.pending, revision := s.mapping.value.revision + 1)
       else
         && n.revision == 1 && !n.native && w.ownerDir == Some(n.ownerDir) && n.profile == candidate.profile
         && n.operatorUid == w.operatorUid && n.operatorGid == w.operatorGid
         && n.uids == [] && n.gids == [] && n.dormantUids == [] && n.dormantGids == [] && n.storage == {}
         && n.acceptedUids.None? && n.acceptedGids.None? && n.admitted.None? && n.supervisor.None?
         && n.engine.None? && n.nativeProcess.None? && !n.revoked
  }

  lemma ConfigureAttempt(s: Owner, candidate: Mapping, canonical: Mapping, id: string, w: World)
    requires ValidateGeometry(candidate) == Some(canonical)
    ensures Attempt(s, ConfigureMapping(s, candidate, id), w)
         == if SafeIdentity(id) && CheckPasses(s, canonical, w) then ConfigureEdit(s, canonical, id, w) else None
  {
  }

  lemma ConfigureAllowed(s: Owner, candidate: Mapping, id: string, w: World)
    ensures ConfigureEdit(s, candidate, id, w).Some? && !FirstInUnsafePlace(s, w) <==>
              Inventoried(w) && Placeable(s, w) && Replaceable(s, candidate, id, w)
  {
  }

  lemma RetryEdits(s: Owner, candidate: Mapping, id: string, w: World)
    requires ConfigureEdit(s, candidate, id, w).Some? && IsRetry(s, candidate, id, w)
    ensures ConfigureEdit(s, candidate, id, w).value == s
  {
  }

  lemma NewIntentEdits(s: Owner, candidate: Mapping, id: string, w: World)
    requires ConfigureEdit(s, candidate, id, w).Some? && !IsRetry(s, candidate, id, w)
    ensures var edited := ConfigureEdit(s, candidate, id, w).value;
            && edited != s && Bumped(edited).mapping.Some? && w.handles.Some?
            && Bumped(edited) == s.(mapping := Bumped(edited).mapping)
            && Configured(s, Bumped(edited).mapping.value, candidate, id, w)
  {
  }

  lemma ConfigureMeaning(s: Owner, candidate: Mapping, canonical: Mapping, id: string, w: World)
    requires Callable(s, w) && ValidateGeometry(candidate) == Some(canonical)
    ensures var call := ConfigureMapping(s, candidate, id);
            && (Succeeds(s, call, w) <==>
                  && SafeIdentity(id) && Checks(s, canonical, w) && Inventoried(w) && Placeable(s, w)
                  && Replaceable(s, canonical, id, w))
            && (Succeeds(s, call, w) && IsRetry(s, canonical, id, w) ==> After(s, call, w) == s)
            && (Succeeds(s, call, w) && !IsRetry(s, canonical, id, w) ==>
                  var t := After(s, call, w);
                  t.mapping.Some? && t == s.(mapping := t.mapping) && Configured(s, t.mapping.value, canonical, id, w))
  {
    ValidatedIsCanonical(candidate);
    ChecksMeaning(s, canonical, w);
    ConfigureAttempt(s, candidate, canonical, id, w);
    ConfigureAllowed(s, canonical, id, w);
    CallOutcome(s, ConfigureMapping(s, candidate, id), w);
    if ConfigureEdit(s, canonical, id, w).Some? {
      if IsRetry(s, canonical, id, w) { RetryEdits(s, canonical, id, w); } else { NewIntentEdits(s, canonical, id, w); }
    }
  }

  lemma InvalidGeometryIsRefused(s: Owner, candidate: Mapping, id: string, native: Native, w: World)
    requires Callable(s, w) && ValidateGeometry(candidate).None?
    ensures !Succeeds(s, ConfigureMapping(s, candidate, id), w) && !Succeeds(s, Call.Prepare(s, candidate, id, native), w)
  {
    CallOutcome(s, ConfigureMapping(s, candidate, id), w);
    CallOutcome(s, Call.Prepare(s, candidate, id, native), w);
  }

  // ----- preparing a native execution

  predicate Preparable(m: Authority, native: Native, w: World) {
    m.pending.None? && Inventoried(w) && !(m.nativeProcess == Some(native.process) && m.engine == Some(native.engine))
  }

  /** The recorded native intent: everything the caller gave and the environment answered, with
      an active map that binds exactly the declared IDs of the candidate. */
  ghost predicate IsNativeIntent(s: Owner, t: Owner, canonical: Mapping, id: string, native: Native, w: World) {
    && s.mapping.Some? && t.mapping.Some? && t.mapping.value.pending.Some? && w.handles.Some? && w.policy.Some?
    && t.mapping.value.pending.value.native.Some?
    && var m, n, a := s.mapping.value, t.mapping.value, t.mapping.value.pending.value.native.value.active;
       && t == s.(mapping := t.mapping) && n == m.(pending := n.pending, revision := m.revision + 1)
       && IsActive(a, canonical, w.policy.value)
       && n.pending == Some(Operation(id, NativeExecute, n.revision, t.current, canonical, m.admitted,
                                      w.handles.value, Intent, Some(native.(active := a))))
  }

  lemma PrepareAttempt(s: Owner, candidate: Mapping, canonical: Mapping, id: string, native: Native, w: World)
    requires ValidateGeometry(candidate) == Some(canonical)
    ensures var plan := NativePlan(s, canonical, native, w);
            Attempt(s, Call.Prepare(s, candidate, id, native), w)
            == if SafeIdentity(id) && SafeIdentity(native.engine) && SafeIdentity(native.process) && plan.Some?
               then PrepareEdit(s, canonical, id, native.(active := plan.value.active), w) else None
  {
  }

  lemma PrepareEditMeaning(s: Owner, canonical: Mapping, id: string, native: Native, w: World)
    requires s.mapping.Some?
    ensures var edited := PrepareEdit(s, canonical, id, native, w);
            && (edited.Some? <==> Preparable(s.mapping.value, native, w))
            && (edited.Some? && w.policy.Some? && IsActive(native.active, canonical, w.policy.value) ==>
                  edited.value != s && IsNativeIntent(s, Bumped(edited.value), canonical, id, native, w))
  {
  }

  lemma PrepareMeaning(s: Owner, candidate: Mapping, canonical: Mapping, id: string, native: Native, w: World)
    requires Callable(s, w) && ValidateGeometry(candidate) == Some(canonical)
    ensures var call := Call.Prepare(s, candidate, id, native);
            && (Succeeds(s, call, w) <==>
                  && SafeIdentity(id) && SafeIdentity(native.engine) && SafeIdentity(native.process)
                  && Plannable(s, canonical, native, w) && Preparable(s.mapping.value, native, w))
            && (Succeeds(s, call, w) ==> IsNativeIntent(s, After(s, call, w), canonical, id, native, w))
  {
    ValidatedIsCanonical(candidate);
    NativePlanMeaning(s, canonical, native, w);
    PrepareAttempt(s, candidate, canonical, id, native, w);
    CallOutcome(s, Call.Prepare(s, candidate, id, native), w);
    var plan := NativePlan(s, canonical, native, w);
    if plan.Some? { PrepareEditMeaning(s, canonical, id, native.(active := plan.value.active), w); }
  }

  // ----- beginning effects

  predicate Begun(s: Owner, t: Owner)
    requires s.mapping.Some? && s.mapping.value.pending.Some?
  {
    var m, p := s.mapping.value, s.mapping.value.pending.value;
    var revision := if p.native.Some? then m.revision + 1 else p.expectedRevision;
    Records(s, t, m.(pending := Some(p.(phase := EffectsPending, expectedRevision := revision))))
  }

  lemma BeginMeaning(s: Owner, id: string, w: World)
    requires Callable(s, w)
    ensures var call := BeginEffects(s, id);
            && (Succeeds(s, call, w) <==>
                  && IsCurrent(s, id) && StillFits(s, w) && s.mapping.value.pending.value.phase == Intent
                  && w.evidence && w.handles == Some(s.mapping.value.pending.value.owned))
            && (Succeeds(s, call, w) ==> Begun(s, After(s, call, w)))
  {
    PendingMeaning(s, id, w);
    CallOutcome(s, BeginEffects(s, id), w);
  }

  // ----- admitting

  /** One ID domain after a release: the candidate is protected, the active map accepted, and
      what else was accepted is dormant. */
  ghost predicate ReleasedIds(
    before: seq<Interval>, candidate: seq<Interval>, after: seq<Interval>,
    prior: seq<Interval>, active: seq<Interval>, accepted: seq<Interval>, dormant: seq<Interval>)
  {
    && IsUnion(after, before, candidate) && IsUnion(accepted, active, prior) && IsUnion(accepted, active, dormant)
    && forall c :: !(Covers(active, c) && Covers(dormant, c))
  }

  /** The fields a release sets; the geometry is `ReleasedIds`. */
  predicate Released(s: Owner, t: Owner)
    requires s.mapping.Some? && s.mapping.value.pending.Some? && s.mapping.value.pending.value.native.Some?
  {
    && t.mapping.Some? && t == s.(mapping := t.mapping) && Accepted(t.mapping.value).Some?
    && var m, n, p := s.mapping.value, t.mapping.value, s.mapping.value.pending.value;
       n == m.(uids := n.uids, gids := n.gids, acceptedUids := n.acceptedUids, acceptedGids := n.acceptedGids,
               dormantUids := n.dormantUids, dormantGids := n.dormantGids, admitted := p.expectedGeneration,
               engine := Some(p.native.value.engine), nativeProcess := Some(p.native.value.process),
               pending := Some(p.(phase := ReleaseAttempted, expectedRevision := m.revision + 1)),
               revision := m.revision + 1)
  }

  ghost predicate ReleasedGeometry(m: Authority, n: Authority)
    requires m.pending.Some? && m.pending.value.native.Some? && Accepted(n).Some?
  {
    var p, accepted := m.pending.value, Accepted(n).value;
    && ReleasedIds(m.uids, p.candidate.uids, n.uids, AcceptedUids(m), p.native.value.active.uids, accepted.uids, n.dormantUids)
    && ReleasedIds(m.gids, p.candidate.gids, n.gids, AcceptedGids(m), p.native.value.active.gids, accepted.gids, n.dormantGids)
  }

  lemma AdmittedFields(s: Owner, plan: Plan, policy: Policy)
    requires ValidOwner(s) && !Idle(s) && Planned(s.mapping.value, plan, policy)
    ensures Released(s, Edit(s, Admitted(s.mapping.value, plan)))
  {
    AdmissionRoundTrips(s.mapping.value, plan, policy);
  }

  lemma ReservedUnion(m: Authority, plan: Plan, policy: Policy)
    requires ValidAuthority(m) && Planned(m, plan, policy)
    ensures IsUnion(plan.reservations.uids, m.uids, m.pending.value.candidate.uids)
    ensures IsUnion(plan.reservations.gids, m.gids, m.pending.value.candidate.gids)
  {
    PlannedFacts(m, plan, policy);
    RetainedReservations(m, m.pending.value.candidate, plan.reservations);
  }

  lemma DormantSplit(m: Authority, plan: Plan, policy: Policy)
    requires ValidAuthority(m) && Planned(m, plan, policy)
    ensures IsUnion(plan.accepted.uids, plan.active.uids, plan.dormantUids)
    ensures IsUnion(plan.accepted.gids, plan.active.gids, plan.dormantGids)
    ensures forall c :: !(Covers(plan.active.uids, c) && Covers(plan.dormantUids, c))
    ensures forall c :: !(Covers(plan.active.gids, c) && Covers(plan.dormantGids, c))
  {
    PlanPartitions(PendingInput(m, policy));
  }

  lemma AdmittedGeometry(m: Authority, plan: Plan, policy: Policy)
    requires ValidAuthority(m) && Planned(m, plan, policy)
    ensures Accepted(Admitted(m, plan)).Some? && ReleasedGeometry(m, Admitted(m, plan))
  {
    PlannedFacts(m, plan, policy);
    ReservedUnion(m, plan, policy);
    DormantSplit(m, plan, policy);
    AdmissionRoundTrips(m, plan, policy);
  }

  predicate Admits(s: Owner, id: string, w: World) {
    && s.current.Some? && !Idle(s) && s.mapping.value.pending.value.native.Some?
    && s.mapping.value.pending.value.kind == NativeExecute && s.mapping.value.pending.value.phase == EffectsPending
    && w.evidence && w.verified
  }

  lemma AdmitAttempt(s: Owner, id: string, w: World)
    requires ValidOwner(s) && MayChange(s) && w.held
    ensures Attempt(s, Call.Admit(s, id), w).Some? <==> PendingPasses(s, id, w) && Admits(s, id, w)
    ensures Attempt(s, Call.Admit(s, id), w).Some? ==>
              && PendingNativePlan(s, w).Some?
              && Attempt(s, Call.Admit(s, id), w) == AdmitEdit(s, PendingNativePlan(s, w).value, w)
  {
    if !Idle(s) && s.mapping.value.pending.value.native.Some? && s.mapping.value.native {
      ActiveIsCanonical(s.mapping.value);
    }
  }

  lemma ActiveIsCanonical(m: Authority)
    requires ValidAuthority(m) && m.native && m.pending.Some? && m.pending.value.native.Some?
    ensures ValidateGeometry(m.pending.value.native.value.active) == Some(m.pending.value.native.value.active)
  {
    CanonicalIsValidated(m.pending.value.native.value.active);
  }

  lemma AdmitMeaning(s: Owner, id: string, w: World)
    requires Callable(s, w)
    ensures var call := Call.Admit(s, id);
            && (Succeeds(s, call, w) <==> IsCurrent(s, id) && StillFits(s, w) && Admits(s, id, w))
            && (Succeeds(s, call, w) ==>
                  && Released(s, After(s, call, w))
                  && ReleasedGeometry(s.mapping.value, After(s, call, w).mapping.value))
  {
    PendingMeaning(s, id, w);
    AdmitAttempt(s, id, w);
    CallOutcome(s, Call.Admit(s, id), w);
    if Succeeds(s, Call.Admit(s, id), w) {
      var plan := PendingNativePlan(s, w).value;
      PlannedByWorld(s, plan, w);
      AdmittedFields(s, plan, w.policy.value);
      AdmittedGeometry(s.mapping.value, plan, w.policy.value);
      assert AdmitEdit(s, plan, w).value.mapping.value.(revision := s.mapping.value.revision + 1)
          == Admitted(s.mapping.value, plan);
    }
  }

  // ----- recovering

  /** The operation is over: its candidate is protected and its objects are retained. */
  ghost predicate Closes(s: Owner, t: Owner, revision: nat)
    requires s.mapping.Some? && s.mapping.value.pending.Some?
  {
    && t.mapping.Some? && t == s.(mapping := t.mapping)
    && var m, n, p := s.mapping.value, t.mapping.value, s.mapping.value.pending.value;
       && n == m.(uids := n.uids, gids := n.gids, storage := m.storage + p.owned, pending := None, revision := revision)
       && IsUnion(n.uids, m.uids, p.candidate.uids) && IsUnion(n.gids, m.gids, p.candidate.gids)
  }

  lemma CancelMeaning(s: Owner, id: string, w: World)
    requires Callable(s, w)
    ensures var call := Call.Recover(s, id, true);
            && (Succeeds(s, call, w) <==>
                  IsCurrent(s, id) && StillFits(s, w) && w.evidence && w.unused
                  && s.mapping.value.pending.value.phase == Intent)
            && (Succeeds(s, call, w) ==> Records(s, After(s, call, w), s.mapping.value.(pending := None)))
  {
    PendingMeaning(s, id, w);
    RecoveryAttempt(s, id, true, w, IsCurrent(s, id) && StillFits(s, w));
    CallOutcome(s, Call.Recover(s, id, true), w);
  }

  lemma CloseEditTouches(s: Owner)
    requires !Idle(s) && CloseEdit(s).Some?
    ensures var e := CloseEdit(s).value;
            e.mapping.Some? && e.mapping.value.pending.None? && e == s.(mapping := e.mapping)
  {
  }

  lemma BumpedIs(s: Owner, e: Owner, n: Authority)
    requires e.mapping.Some? && e == s.(mapping := e.mapping) && Bump(e.mapping.value) == n
    ensures Bumped(e) == s.(mapping := Some(n))
  {
  }

  lemma CloseEditFields(s: Owner, reserved: Mapping)
    requires !Idle(s) && CloseEdit(s).Some?
    requires RetainGeometry(s.mapping.value.pending.value.candidate, Reservations(s.mapping.value)) == Some(reserved)
    ensures CloseEdit(s).value.mapping.Some? && CloseEdit(s).value.mapping.value.pending.None?
    ensures Bumped(CloseEdit(s).value) == s.(mapping := Some(Closed(s.mapping.value, reserved)))
  {
    CloseEditTouches(s);
    CloseEditIsClosed(s);
    BumpedIs(s, CloseEdit(s).value, Closed(s.mapping.value, reserved));
  }

  lemma ClosedUnion(m: Authority, candidate: Mapping, reserved: Mapping)
    requires AssignmentsOk(m) && Canonical(candidate) && candidate.profile == m.profile
    requires RetainGeometry(candidate, Reservations(m)) == Some(reserved)
    ensures IsUnion(reserved.uids, m.uids, candidate.uids) && IsUnion(reserved.gids, m.gids, candidate.gids)
  {
    RetainedReservations(m, candidate, reserved);
  }

  lemma ClosedCloses(s: Owner, reserved: Mapping)
    requires !Idle(s)
    requires IsUnion(reserved.uids, s.mapping.value.uids, s.mapping.value.pending.value.candidate.uids)
    requires IsUnion(reserved.gids, s.mapping.value.gids, s.mapping.value.pending.value.candidate.gids)
    ensures Closes(s, s.(mapping := Some(Closed(s.mapping.value, reserved))), s.mapping.value.revision + 1)
  {
  }

  lemma CloseEditCloses(s: Owner)
    requires ValidOwner(s) && !Idle(s)
    ensures CloseEdit(s).Some? && CloseEdit(s).value != s
    ensures Closes(s, Bumped(CloseEdit(s).value), s.mapping.value.revision + 1)
  {
    CloseAlwaysEdits(s);
    CloseEditIsClosed(s);
    var reserved := RetainGeometry(s.mapping.value.pending.value.candidate, Reservations(s.mapping.value)).value;
    CloseEditFields(s, reserved);
    ClosedUnion(s.mapping.value, s.mapping.value.pending.value.candidate, reserved);
    ClosedCloses(s, reserved);
  }

  lemma RecoveryAttempt(s: Owner, id: string, cancel: bool, w: World, passes: bool)
    requires passes <==> PendingPasses(s, id, w)
    ensures !passes ==> Attempt(s, Call.Recover(s, id, cancel), w).None?
    ensures passes ==> !Idle(s) && Attempt(s, Call.Recover(s, id, cancel), w) == RecoverEdit(s, cancel, w)
  {
    if passes { RecoverAttempt(s, id, cancel, w); } else { assert AttemptRecovery(s, id, cancel, w).None?; }
  }

  lemma NativeRecoverEdit(s: Owner, w: World)
    requires !Idle(s) && s.mapping.value.pending.value.kind == NativeExecute
    ensures RecoverEdit(s, false, w)
         == if w.evidence && s.mapping.value.pending.value.phase != Intent && w.verified then CloseEdit(s) else None
  {
  }

  predicate PastIntent(s: Owner, w: World)
    requires s.mapping.Some? && s.mapping.value.pending.Some?
  {
    w.evidence && w.verified && s.mapping.value.pending.value.phase != Intent
  }

  /** A native operation past its intent is closed with one write. */
  lemma NativeRecoveryMeaning(s: Owner, id: string, w: World)
    requires Callable(s, w) && !Idle(s) && s.mapping.value.pending.value.kind == NativeExecute
    ensures var call := Call.Recover(s, id, false);
            && (Succeeds(s, call, w) <==> IsCurrent(s, id) && StillFits(s, w) && PastIntent(s, w))
            && (Succeeds(s, call, w) ==> Closes(s, After(s, call, w), s.mapping.value.revision + 1))
  {
    PendingMeaning(s, id, w);
    CloseEditCloses(s);
    NativeRecoverEdit(s, w);
    RecoveryAttempt(s, id, false, w, IsCurrent(s, id) && StillFits(s, w));
    CallOutcome(s, Call.Recover(s, id, false), w);
  }

  /** A configuration is first marked verified, unless it is already, and then closed. */
  function MarkedVerified(s: Owner): Owner
    requires s.mapping.Some? && s.mapping.value.pending.Some?
  {
    var m, p := s.mapping.value, s.mapping.value.pending.value;
    if p.phase == Verified then s
    else s.(mapping := Some(m.(pending := Some(p.(phase := Verified)), revision := m.revision + 1)))
  }

  lemma VerifyEditMarks(s: Owner, w: World)
    requires !Idle(s) && w.verified
    ensures VerifyEdit(s, w).Some?
    ensures var e := VerifyEdit(s, w).value;
            if e == s then MarkedVerified(s) == s else MarkedVerified(s) == Bumped(e)
  {
  }

  lemma VerifiedFirst(s: Owner, w: World)
    requires Callable(s, w) && !Idle(s) && s.mapping.value.pending.value.kind == Configure && w.verified
    ensures Change(s, s, true, VerifyEdit(s, w), true, Written) == Outcome(Some(MarkedVerified(s)), MarkedVerified(s))
    ensures ValidOwner(MarkedVerified(s))
  {
    VerifyEditMarks(s, w);
    var e := VerifyEdit(s, w).value;
    if e == s {
      UnchangedSucceeds(s);
    } else {
      VerifyIsValid(s, w);
      ValidByParts(s, e);
      ChangeSucceeds(s, e);
    }
  }

  lemma UnchangedSucceeds(s: Owner)
    requires MayChange(s)
    ensures Change(s, s, true, Some(s), true, Written) == Outcome(Some(s), s)
  {
  }

  lemma ClosedAfter(v: Owner)
    requires ValidOwner(v) && MayChange(v) && !Idle(v)
    ensures var o := Change(v, v, true, CloseEdit(v), true, Written);
            o.returned == Some(o.durable) && Closes(v, o.durable, v.mapping.value.revision + 1)
  {
    CloseEditCloses(v);
    CloseEditIsValid(v);
    ValidByParts(v, CloseEdit(v).value);
    ChangeSucceeds(v, CloseEdit(v).value);
  }

  lemma ClosesThroughVerified(s: Owner, t: Owner, revision: nat)
    requires !Idle(s) && Closes(MarkedVerified(s), t, revision)
    ensures Closes(s, t, revision)
  {
  }

  lemma ConfigurationRecoverEdit(s: Owner, w: World)
    requires !Idle(s) && s.mapping.value.pending.value.kind == Configure
    ensures RecoverEdit(s, false, w) == if PastIntent(s, w) then VerifyEdit(s, w) else None
  {
    if w.evidence && !w.verified { assert VerifyEdit(s, w).None?; }
  }

  /** Two writes that both take effect, the second over what the first returned. */
  lemma TwoWrites(s: Owner, id: string, w: World, edited: Option<Owner>, v: Owner)
    requires w.held && w.commit && w.write == Written && w.commitAgain && w.writeAgain == Written
    requires !Idle(s) && s.mapping.value.pending.value.kind == Configure && !Idle(v)
    requires Attempt(s, Call.Recover(s, id, false), w) == edited
    requires Change(s, s, true, edited, true, Written) == Outcome(Some(v), v)
    ensures Step(s, Call.Recover(s, id, false), w) == Change(v, v, true, CloseEdit(v), true, Written)
  {
    StepByEdit(s, Call.Recover(s, id, false), w, edited);
  }

  lemma NoWrite(s: Owner, id: string, w: World)
    requires Attempt(s, Call.Recover(s, id, false), w).None?
    ensures Step(s, Call.Recover(s, id, false), w) == Outcome(None, s)
  {
    StepByEdit(s, Call.Recover(s, id, false), w, None);
  }

  lemma ConfigurationRecoveryMeaning(s: Owner, id: string, w: World)
    requires Callable(s, w) && !Idle(s) && s.mapping.value.pending.value.kind == Configure
    requires w.commitAgain && w.writeAgain == Written && s.mapping.value.revision < MAX_UINT64 - 1
    ensures var call := Call.Recover(s, id, false);
            && (Succeeds(s, call, w) <==> IsCurrent(s, id) && StillFits(s, w) && PastIntent(s, w))
            && (Succeeds(s, call, w) ==>
                  Closes(s, After(s, call, w), MarkedVerified(s).mapping.value.revision + 1))
  {
    PendingMeaning(s, id, w);
    ConfigurationRecoverEdit(s, w);
    RecoveryAttempt(s, id, false, w, IsCurrent(s, id) && StillFits(s, w));
    if IsCurrent(s, id) && StillFits(s, w) && PastIntent(s, w) {
      var v := MarkedVerified(s);
      VerifiedFirst(s, w);
      ClosedAfter(v);
      TwoWrites(s, id, w, VerifyEdit(s, w), v);
      ClosesThroughVerified(s, After(s, Call.Recover(s, id, false), w), v.mapping.value.revision + 1);
    } else {
      NoWrite(s, id, w);
    }
  }

  // ----- what a preparation records, whatever became of its write, and what becomes of it

  /** Every preparation that left a new durable state recorded exactly its own intent. */
  lemma PrepareRecords(s: Owner, candidate: Mapping, id: string, native: Native, w: World, t: Owner)
    requires ValidOwner(s) && Moves(s, Event(Call.Prepare(s, candidate, id, native), w), t) && t != s
    ensures ValidateGeometry(candidate).Some?
    ensures IsNativeIntent(s, t, ValidateGeometry(candidate).value, id, native, w)
  {
    var edited := Attempt(s, Call.Prepare(s, candidate, id, native), w);
    ChangeCases(s, s, w.held, edited, w.commit, w.write);
    var canonical := ValidateGeometry(candidate).value;
    ValidatedIsCanonical(candidate);
    NativePlanMeaning(s, canonical, native, w);
    PrepareAttempt(s, candidate, canonical, id, native, w);
    PrepareEditMeaning(s, canonical, id, native.(active := NativePlan(s, canonical, native, w).value.active), w);
  }

  predicate InNative(s: Owner) { !Idle(s) && s.mapping.value.pending.value.kind == NativeExecute }

  lemma NativeCommit(m: Authority, n: Authority, call: Call)
    requires CommitStep(m, n, call) && m.pending.Some? && m.pending.value.kind == NativeExecute && n.pending.Some?
    ensures SameOperation(m.pending.value, n.pending.value)
  {
    if call.Admit? { var plan, policy :| Planned(m, plan, policy) && n == Admitted(m, plan); }
  }

  lemma NativeLink(a: Owner, b: Owner, call: Call)
    requires Link(a, b, call) && InNative(a) && !Idle(b)
    ensures InNative(b) && SameOperation(a.mapping.value.pending.value, b.mapping.value.pending.value)
  {
    if a.mapping != b.mapping { NativeCommit(a.mapping.value, b.mapping.value, call); }
  }

  /** A native operation is not replaced: until it ends it stays the one that was recorded. */
  predicate StaysNative(a: Owner, b: Owner) {
    InNative(a) && !Idle(b) ==>
      InNative(b) && SameOperation(a.mapping.value.pending.value, b.mapping.value.pending.value)
  }

  lemma NativeStep(s: Owner, e: Event)
    requires ValidOwner(s)
    ensures StaysNative(s, Next(s, e))
  {
    if InNative(s) && !Idle(Next(s, e)) {
      var mid := StepLinks(s, e.call, e.world);
      if Idle(mid) {
        IdleLink(mid, Next(s, e), e.call);
      } else {
        NativeLink(s, mid, e.call);
        NativeLink(mid, Next(s, e), e.call);
      }
    }
  }

  lemma {:induction false} NativeAlong(trace: seq<Owner>, i: nat, k: nat)
    requires i <= k < |trace| && InNative(trace[i])
    requires forall x :: i <= x < k ==> StaysNative(trace[x], trace[x + 1])
    requires forall x :: i <= x <= k ==> !Idle(trace[x])
    ensures InNative(trace[k])
    ensures SameOperation(trace[i].mapping.value.pending.value, trace[k].mapping.value.pending.value)
    decreases k
  {
    if i < k {
      NativeAlong(trace, i, k - 1);
      assert StaysNative(trace[k - 1], trace[k - 1 + 1]) && !Idle(trace[k]);
    }
  }

  /** The operation is recorded with exactly these handles, or they are retained. */
  predicate HandlesKept(s: Owner, id: string, handles: set<string>) {
    || (!Idle(s) && s.mapping.value.pending.value.id == id && s.mapping.value.pending.value.owned == handles)
    || (s.mapping.Some? && handles <= s.mapping.value.storage)
  }

  lemma AccountedKeepsHandles(p: Operation, q: Operation, s: Owner)
    requires SameOperation(p, q) && Accounted(q, s)
    ensures HandlesKept(s, p.id, p.owned)
  {
  }

  lemma PreparedAt(trace: seq<Owner>, events: seq<Event>, i: nat)
    requires Run(trace, events) && i < |events| && events[i].call.Prepare? && trace[i + 1] != trace[i]
    ensures InNative(trace[i + 1]) && events[i].world.handles.Some?
    ensures trace[i + 1].mapping.value.pending.value.id == events[i].call.id
    ensures trace[i + 1].mapping.value.pending.value.owned == events[i].world.handles.value
  {
    var call, w := events[i].call, events[i].world;
    assert Moves(trace[i], events[i], trace[i + 1]);
    EveryRunStaysValid(trace, events, i);
    ChangeCases(trace[i], call.expected, w.held, Attempt(call.expected, call, w), w.commit, w.write);
    PrepareRecords(trace[i], call.candidate, call.id, call.native, w, trace[i + 1]);
  }

  lemma NativeUntil(trace: seq<Owner>, events: seq<Event>, i: nat, k: nat)
    requires Run(trace, events) && i <= k < |trace| && InNative(trace[i]) && forall x :: i <= x <= k ==> !Idle(trace[x])
    ensures InNative(trace[k])
    ensures SameOperation(trace[i].mapping.value.pending.value, trace[k].mapping.value.pending.value)
  {
    forall x | i <= x < k ensures StaysNative(trace[x], trace[x + 1]) {
      EveryRunStaysValid(trace, events, x);
      assert Moves(trace[x], events[x], trace[x + 1]);
      NativeStep(trace[x], events[x]);
    }
    NativeAlong(trace, i, k);
  }

  predicate MayHaveEffects(s: Owner) { !Idle(s) && s.mapping.value.pending.value.phase != Intent }

  /** If the effects of a prepared operation may have begun, every later state still records
      exactly the handles of its preparation, or retains them. */
  lemma PreparedHandlesAreKept(trace: seq<Owner>, events: seq<Event>, i: nat, k: nat, j: nat)
    requires Run(trace, events) && i < k <= j < |trace| && events[i].call.Prepare? && trace[i + 1] != trace[i]
    requires MayHaveEffects(trace[k]) && forall x :: i < x <= k ==> !Idle(trace[x])
    ensures events[i].world.handles.Some? && HandlesKept(trace[j], events[i].call.id, events[i].world.handles.value)
  {
    PreparedAt(trace, events, i);
    NativeUntil(trace, events, i + 1, k);
    EffectsAreNeverForgotten(trace, events, k, j);
    AccountedKeepsHandles(trace[i + 1].mapping.value.pending.value, trace[k].mapping.value.pending.value, trace[j]);
  }
}
