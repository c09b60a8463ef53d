/**
 The journalled mapping operations (internal/deploy/identity_mapping_operations.go,
 identity_mapping_native.go, identity_mapping_effects.go).

 A call compares the caller's whole observation with the durable state, edits a copy,
 validates it and writes it with the revision raised by one. Everything the code asks
 of the outside world - locks, host checks, evidence of effects, build evidence, and
 whether the write took effect - is an answer in `World`.
 */
module MappingOperations {
  import opened Common
  import opened Geometry
  import opened GeometryChecks
  import opened Subtraction
  import opened Mappings
  import opened ExecutionPlan
  import opened MappingState

  /** A failed write may nevertheless have replaced the file. */
  datatype Write = Written | NotWritten | WrittenButReportedFailed

  datatype World = World(
    held: bool,                  // the operation lock is held and writable, contexts are live
    hostAccepts: bool,           // the host check accepts the reservations ...
    hostAcceptsPending: bool,    // ... and those of the pending candidate, for the same operator
    operatorUid: uint32,
    operatorGid: uint32,
    ownerDir: Option<Directory>, // the selected directory with its links resolved, if they can be
    evidence: bool,              // an effect owner is attached
    handles: Option<set<string>>,// its planned inventory, when known and well formed
    unused: bool,                // it proves that the candidate was never used
    verified: bool,              // it verifies the exact effects
    policy: Option<Policy>,      // policy of the selected immutable build, when all its evidence matches
    policyLocked: bool,          // that policy's image evidence is valid
    commit: bool,                // still live and writable just before the write, owner path unchanged
    write: Write,
    commitAgain: bool,           // the same for the second write of a two-step recovery
    writeAgain: Write)

  datatype Call =
    | Upgrade(expected: Owner)
    | ConfigureMapping(expected: Owner, candidate: Mapping, id: string)
    | Prepare(expected: Owner, candidate: Mapping, id: string, native: Native)
    | BeginEffects(expected: Owner, id: string)
    | Admit(expected: Owner, id: string)
    | Recover(expected: Owner, id: string, cancel: bool)
    | Elsewhere(owner: Owner)    // other code rewrites the state around the mapping operations

  /** What the caller gets (nothing on failure) and what is on disk afterwards. */
  datatype Outcome = Outcome(returned: Option<Owner>, durable: Owner)

  // ----- change: compare and commit

  predicate MayChange(s: Owner) {
    && !s.terminalRemoval && (s.staged || s.deployed)
    && (s.mapping.Some? ==> !s.mapping.value.revoked && s.mapping.value.revision != MAX_UINT64)
  }

  function Bumped(s: Owner): Owner {
    if s.mapping.None? then s
    else s.(mapping := Some(s.mapping.value.(revision := s.mapping.value.revision + 1)))
  }

  /** Go's `change`, given the edited copy (`None` when the edit reported an error). */
  function Change(durable: Owner, expected: Owner, held: bool, edited: Option<Owner>, commit: bool, write: Write): Outcome {
    if !held || durable != expected || !MayChange(durable) || edited.None? then Outcome(None, durable)
    else if edited.value == durable then Outcome(Some(durable), durable)
    else if !ValidOwner(Bumped(edited.value)) || !commit then Outcome(None, durable)
    else
      match write
      case Written => Outcome(Some(Bumped(edited.value)), Bumped(edited.value))
      case NotWritten => Outcome(None, durable)
      case WrittenButReportedFailed => Outcome(None, Bumped(edited.value))
  }

  // ----- checks before a change

  /** An accepting host check names a non-root operator with usable IDs. */
  predicate HostAccepts(w: World) {
    w.hostAccepts && 0 < w.operatorUid < MAX_UINT32 && 0 < w.operatorGid < MAX_UINT32
  }

  /** Go's `check`: the candidate fits the protected history and the host. */
  predicate CheckPasses(s: Owner, candidate: Mapping, w: World) {
    && w.held && HostAccepts(w)
    && !(s.deployed && s.mapping.None?)
    && ValidOwner(s)
    && match s.mapping
       case None => RetainGeometry(candidate, None).Some?
       case Some(m) =>
         && !m.revoked && m.profile == candidate.profile
         && RetainGeometry(candidate, Reservations(m)).Some?
         && (m.pending.Some? ==>
               m.pending.value.candidate.profile == m.profile
               && RetainGeometry(m.pending.value.candidate, Reservations(m)).Some? && w.hostAcceptsPending)
         && m.operatorUid == w.operatorUid && m.operatorGid == w.operatorGid
  }

  function NativePlan(s: Owner, candidate: Mapping, native: Native, w: World): Option<Plan> {
    if !w.held || s.mapping.None? || !s.mapping.value.native || s.current.None? || !ValidOwner(s)
       || w.policy.None? || !CheckPasses(s, candidate, w)
    then None
    else
      var m := s.mapping.value;
      PlanExecution(PlanInput(w.policyLocked, w.policy.value, candidate, Reservations(m), Accepted(m),
                              native.runtimeUsers, native.runtimeGroups))
  }

  /** The fresh plan for the pending native operation, if its active map still agrees. */
  function PendingNativePlan(s: Owner, w: World): Option<Plan>
    requires s.mapping.Some? && s.mapping.value.pending.Some? && s.mapping.value.pending.value.native.Some?
  {
    var p := s.mapping.value.pending.value;
    match NativePlan(s, p.candidate, p.native.value, w)
    case None => None
    case Some(plan) => if plan.active == p.native.value.active then Some(plan) else None
  }

  predicate PendingPasses(s: Owner, id: string, w: World) {
    && s.mapping.Some? && s.mapping.value.pending.Some?
    && var m := s.mapping.value;
       var p := m.pending.value;
       && (p.kind == Configure || p.kind == NativeExecute) && p.id == id
       && p.expectedGeneration == s.current
       && (p.phase != ReleaseAttempted ==> p.priorAccepted == m.admitted)
       && (p.phase == Intent ==> p.expectedRevision == m.revision)
       && if p.kind == NativeExecute then p.native.Some? && PendingNativePlan(s, w).Some?
          else CheckPasses(s, p.candidate, w)
  }

  /** Go's `ObserveEffects` on the pending operation's own active map, once the durable
      state has been found to be the expected one. */
  predicate EffectsObserved(expected: Owner, id: string, w: World) {
    && w.held && !expected.terminalRemoval && (expected.staged || expected.deployed)
    && expected.current.Some? && expected.mapping.Some? && expected.mapping.value.pending.Some?
    && var p := expected.mapping.value.pending.value;
       && p.phase == EffectsPending && p.native.Some?
       && ValidateGeometry(p.native.value.active) == Some(p.native.value.active)
       && PendingPasses(expected, id, w)
  }

  // ----- the edits

  function Edit(s: Owner, m: Authority): Owner { s.(mapping := Some(m)) }

  function UpgradeEdit(s: Owner): Option<Owner> {
    match s.mapping
    case None => None
    case Some(m) =>
      if m.native || m.supervisor.Some? || m.engine.Some? || m.admitted.Some?
         || m.dormantUids != [] || m.dormantGids != [] then None
      else
        var upgraded := m.(native := true, acceptedUids := Some([]), acceptedGids := Some([]));
        match m.pending
        case None => Some(Edit(s, upgraded))
        case Some(p) =>
          if p.kind != Configure || (p.phase == Intent && p.expectedRevision != m.revision)
             || p.expectedGeneration != s.current || p.priorAccepted.Some? then None
          else if p.phase == Intent then
            Some(Edit(s, upgraded.(pending := Some(p.(expectedRevision := m.revision + 1)))))
          else Some(Edit(s, upgraded))
  }

  /** The authority a first configuration starts from. */
  function FreshAuthority(profile: Profile, dir: Directory, w: World): Authority {
    Authority(false, dir, 0, w.operatorUid, w.operatorGid, profile, [], [], None, None, [], [],
              None, None, None, None, {}, false, None)
  }

  function NewIntent(s: Owner, m: Authority, candidate: Mapping, id: string, handles: set<string>): Operation {
    Operation(id, Configure, m.revision + 1, s.current, candidate, m.admitted, handles, Intent, None)
  }

  /** `candidate` is already canonical. */
  function ConfigureEdit(s: Owner, candidate: Mapping, id: string, w: World): Option<Owner> {
    if s.mapping.Some? && s.mapping.value.pending.Some? && s.mapping.value.pending.value.kind != Configure then None
    else if !w.evidence || w.handles.None? || !SafeHandles(w.handles.value) then None
    else if s.mapping.None? && (!s.staged || w.ownerDir.None?) then None
    else
      var m := if s.mapping.Some? then s.mapping.value else FreshAuthority(candidate.profile, w.ownerDir.value, w);
      var replaced := Some(Edit(s, m.(pending := Some(NewIntent(s, m, candidate, id, w.handles.value)))));
      match m.pending
      case None => replaced
      case Some(p) =>
        if p.expectedGeneration != s.current || p.priorAccepted != m.admitted
           || (p.phase == Intent && p.expectedRevision != m.revision) then None
        else if p.id == id && p.phase == Intent && p.candidate == candidate && p.owned == w.handles.value then Some(s)
        else if p.id == id || p.phase != Intent || !w.unused then None
        else replaced
  }

  function PrepareEdit(s: Owner, candidate: Mapping, id: string, native: Native, w: World): Option<Owner> {
    if s.mapping.None? then None
    else
      var m := s.mapping.value;
      if m.pending.Some? || !w.evidence || w.handles.None? || !SafeHandles(w.handles.value)
         || (m.nativeProcess == Some(native.process) && m.engine == Some(native.engine)) then None
      else
        Some(Edit(s, m.(pending := Some(
          Operation(id, NativeExecute, m.revision + 1, s.current, candidate, m.admitted,
                    w.handles.value, Intent, Some(native))))))
  }

  function BeginEdit(s: Owner, w: World): Option<Owner>
    requires s.mapping.Some? && s.mapping.value.pending.Some?
  {
    var m := s.mapping.value;
    var p := m.pending.value;
    if p.phase != Intent || !w.evidence || w.handles != Some(p.owned) then None
    else
      var revision := if p.native.Some? then m.revision + 1 else p.expectedRevision;
      Some(Edit(s, m.(pending := Some(p.(phase := EffectsPending, expectedRevision := revision)))))
  }

  function AdmitEdit(s: Owner, plan: Plan, w: World): Option<Owner>
    requires s.mapping.Some? && s.mapping.value.pending.Some? && s.mapping.value.pending.value.native.Some?
  {
    if !w.evidence || !w.verified then None
    else
      var m := s.mapping.value;
      var p := m.pending.value;
      Some(Edit(s, m.(
        uids := plan.reservations.uids, gids := plan.reservations.gids,
        acceptedUids := Some(plan.accepted.uids), acceptedGids := Some(plan.accepted.gids),
        dormantUids := plan.dormantUids, dormantGids := plan.dormantGids,
        admitted := p.expectedGeneration, engine := Some(p.native.value.engine),
        nativeProcess := Some(p.native.value.process),
        pending := Some(p.(phase := ReleaseAttempted, expectedRevision := m.revision + 1)))))
  }

  function CancelEdit(s: Owner, w: World): Option<Owner>
    requires s.mapping.Some? && s.mapping.value.pending.Some?
  {
    if s.mapping.value.pending.value.phase != Intent || !w.unused then None
    else Some(Edit(s, s.mapping.value.(pending := None)))
  }

  function VerifyEdit(s: Owner, w: World): Option<Owner>
    requires s.mapping.Some? && s.mapping.value.pending.Some?
  {
    if !w.verified then None
    else
      var m := s.mapping.value;
      Some(Edit(s, m.(pending := Some(m.pending.value.(phase := Verified)))))
  }

  /** Close the pending operation, keeping its candidate reserved and its objects retained. */
  function CloseEdit(s: Owner): Option<Owner>
    requires s.mapping.Some? && s.mapping.value.pending.Some?
  {
    var m := s.mapping.value;
    var p := m.pending.value;
    match RetainGeometry(p.candidate, Reservations(m))
    case None => None
    case Some(reserved) =>
      Some(Edit(s, m.(uids := reserved.uids, gids := reserved.gids, storage := m.storage + p.owned, pending := None)))
  }

  function RecoverEdit(s: Owner, cancel: bool, w: World): Option<Owner>
    requires s.mapping.Some? && s.mapping.value.pending.Some?
  {
    if !w.evidence then None
    else if cancel then CancelEdit(s, w)
    else if s.mapping.value.pending.value.phase == Intent then None
    else if s.mapping.value.pending.value.kind == NativeExecute then if w.verified then CloseEdit(s) else None
    else VerifyEdit(s, w)
  }

  // ----- one call

  /** The edited copy that a call over the observation `s` hands to its (first) change. */
  function Attempt(s: Owner, call: Call, w: World): Option<Owner> {
    match call
    case Upgrade(_) => UpgradeEdit(s)
    case ConfigureMapping(_, candidate, id) => (
      if !SafeIdentity(id) then None
      else
        match ValidateGeometry(candidate)
        case None => None
        case Some(canonical) => if CheckPasses(s, canonical, w) then ConfigureEdit(s, canonical, id, w) else None)
    case Prepare(_, candidate, id, native) => AttemptPreparation(s, candidate, id, native, w)
    case BeginEffects(_, id) => if PendingPasses(s, id, w) then BeginEdit(s, w) else None
    case Admit(_, id) =>
      if s.mapping.None? || s.mapping.value.pending.None? || s.mapping.value.pending.value.native.None?
         || s.mapping.value.pending.value.kind != NativeExecute
         || !EffectsObserved(s, id, w) || PendingNativePlan(s, w).None?
      then None
      else AdmitEdit(s, PendingNativePlan(s, w).value, w)
    case Recover(_, id, cancel) => AttemptRecovery(s, id, cancel, w)
    case Elsewhere(_) => None
  }

  function AttemptPreparation(s: Owner, candidate: Mapping, id: string, native: Native, w: World): Option<Owner> {
    if !SafeIdentity(id) || !SafeIdentity(native.engine) || !SafeIdentity(native.process) then None
    else
      match ValidateGeometry(candidate)
      case None => None
      case Some(canonical) =>
        match NativePlan(s, canonical, native, w)
        case None => None
        case Some(plan) => PrepareEdit(s, canonical, id, native.(active := plan.active), w)
  }

  function AttemptRecovery(s: Owner, id: string, cancel: bool, w: World): Option<Owner> {
    if PendingPasses(s, id, w) then RecoverEdit(s, cancel, w) else None
  }

  /** A recovered configuration commits twice: it is marked verified, then closed. */
  predicate CommitsTwice(call: Call) {
    call.Recover? && !call.cancel && call.expected.mapping.Some? && call.expected.mapping.value.pending.Some?
    && call.expected.mapping.value.pending.value.kind != NativeExecute
  }

  function CloseVerified(first: Outcome, w: World): Outcome {
    if first.returned.None? then first
    else
      var verified := first.returned.value;
      if verified.mapping.None? || verified.mapping.value.pending.None? then Outcome(None, first.durable)
      else Change(first.durable, verified, w.held, CloseEdit(verified), w.commitAgain, w.writeAgain)
  }

  /** A first authority that other code records: nothing reserved, accepted or pending. */
  predicate Created(n: Authority) {
    && !n.native && n.revision == 1 && n.uids == [] && n.gids == [] && n.dormantUids == [] && n.dormantGids == []
    && n.acceptedUids.None? && n.acceptedGids.None? && n.supervisor.None? && n.engine.None? && n.nativeProcess.None?
    && n.admitted.None? && n.storage == {} && !n.revoked && n.pending.None?
  }

  /** What other code may do to the authority: leave it, record a first one, or raise the
      revision of an idle one that it otherwise leaves alone. */
  predicate Rewritten(a: Option<Authority>, b: Option<Authority>) {
    || a == b
    || (a.None? && b.Some? && Created(b.value))
    || (a.Some? && a.value.pending.None? && b == Some(a.value.(revision := a.value.revision + 1)))
  }

  function Step(durable: Owner, call: Call, w: World): Outcome {
    if call.Elsewhere? then
      if ValidOwner(call.owner) && Rewritten(durable.mapping, call.owner.mapping) then Outcome(Some(call.owner), call.owner)
      else Outcome(None, durable)
    else Committed(durable, call.expected, Attempt(call.expected, call, w), CommitsTwice(call), w)
  }

  /** The outcome of handing `edited` to a change, and of closing it when that is due. */
  function Committed(durable: Owner, expected: Owner, edited: Option<Owner>, twice: bool, w: World): Outcome {
    var first := Change(durable, expected, w.held, edited, w.commit, w.write);
    if twice then CloseVerified(first, w) else first
  }

  lemma RecoverAttempt(s: Owner, id: string, cancel: bool, w: World)
    requires PendingPasses(s, id, w)
    ensures Attempt(s, Call.Recover(s, id, cancel), w) == RecoverEdit(s, cancel, w)
  {
    assert Attempt(s, Call.Recover(s, id, cancel), w) == AttemptRecovery(s, id, cancel, w);
  }

  lemma StepByEdit(durable: Owner, call: Call, w: World, edited: Option<Owner>)
    requires !call.Elsewhere? && Attempt(call.expected, call, w) == edited
    ensures Step(durable, call, w) == Committed(durable, call.expected, edited, CommitsTwice(call), w)
  {
  }

  // ----- the edits as Go's closures make them, field by field

  method InhibitPending(s: Owner, w: World) returns (edited: Option<Owner>)
    requires s.mapping.Some? && s.mapping.value.pending.Some?
    ensures edited == BeginEdit(s, w)
  {
    var m := s.mapping.value;
    var p := m.pending.value;
    if p.phase != Intent || !w.evidence || w.handles != Some(p.owned) { return None; }
    p := p.(phase := EffectsPending);
    if p.native.Some? { p := p.(expectedRevision := m.revision + 1); }
    m := m.(pending := Some(p));
    return Some(Edit(s, m));
  }

  method AdmitPending(s: Owner, plan: Plan, w: World) returns (edited: Option<Owner>)
    requires s.mapping.Some? && s.mapping.value.pending.Some? && s.mapping.value.pending.value.native.Some?
    ensures edited == AdmitEdit(s, plan, w)
  {
    if !w.evidence || !w.verified { return None; }
    var m := s.mapping.value;
    var p := m.pending.value;
    m := m.(uids := plan.reservations.uids, gids := plan.reservations.gids);
    m := m.(acceptedUids := Some(plan.accepted.uids), acceptedGids := Some(plan.accepted.gids));
    m := m.(dormantUids := plan.dormantUids, dormantGids := plan.dormantGids);
    m := m.(admitted := p.expectedGeneration, engine := Some(p.native.value.engine));
    m := m.(nativeProcess := Some(p.native.value.process));
    p := p.(phase := ReleaseAttempted, expectedRevision := m.revision + 1);
    m := m.(pending := Some(p));
    return Some(Edit(s, m));
  }

  method RecoverPending(s: Owner, cancel: bool, w: World) returns (edited: Option<Owner>)
    requires s.mapping.Some? && s.mapping.value.pending.Some?
    ensures edited == RecoverEdit(s, cancel, w)
  {
    if !w.evidence { return None; }
    var m := s.mapping.value;
    var p := m.pending.value;
    if cancel {
      if p.phase != Intent || !w.unused { return None; }
      m := m.(pending := None);
      return Some(Edit(s, m));
    }
    if p.phase == Intent || !w.verified { return None; }
    if p.kind != NativeExecute {
      p := p.(phase := Verified);
      m := m.(pending := Some(p));
      return Some(Edit(s, m));
    }
    var reserved := Retain(p.candidate, Reservations(m));
    if reserved.None? { return None; }
    m := m.(uids := reserved.value.uids, gids := reserved.value.gids);
    m := m.(storage := m.storage + p.owned, pending := None);
    return Some(Edit(s, m));
  }

  // ----- the operations over the durable state

  class Store {
    var durable: Owner

    constructor (durable: Owner)
      ensures this.durable == durable
    {
      this.durable := durable;
    }

    method Commit(expected: Owner, edited: Option<Owner>, held: bool, commit: bool, write: Write)
      returns (returned: Option<Owner>)
      modifies this
      ensures Outcome(returned, durable) == Change(old(durable), expected, held, edited, commit, write)
    {
      if !held { return None; }
      var state := durable;
      if state != expected || !MayChange(state) { return None; }
      if edited.None? { return None; }
      if edited.value == state { return Some(state); }
      state := Bumped(edited.value);
      if !ValidOwner(state) || !commit { return None; }
      if write == NotWritten { return None; }
      durable := state;
      if write == WrittenButReportedFailed { return None; }
      return Some(state);
    }

    method PlanNative(s: Owner, candidate: Mapping, native: Native, w: World) returns (plan: Option<Plan>)
      ensures plan == NativePlan(s, candidate, native, w)
    {
      if !w.held || s.mapping.None? || !s.mapping.value.native || s.current.None? { return None; }
      if !ValidOwner(s) || w.policy.None? || !CheckPasses(s, candidate, w) { return None; }
      var m := s.mapping.value;
      plan := PlanIdentityExecution(
        PlanInput(w.policyLocked, w.policy.value, candidate, Reservations(m), Accepted(m),
                  native.runtimeUsers, native.runtimeGroups));
    }

    method Upgrade(expected: Owner, w: World) returns (returned: Option<Owner>)
      modifies this
      ensures Outcome(returned, durable) == Step(old(durable), Call.Upgrade(expected), w)
    {
      var edited: Option<Owner> := None;
      if expected.mapping.Some? {
        var m := expected.mapping.value;
        var unambiguous := !m.native && m.supervisor.None? && m.engine.None? && m.admitted.None?
                           && m.dormantUids == [] && m.dormantGids == [];
        m := m.(native := true, acceptedUids := Some([]), acceptedGids := Some([]));
        if m.pending.Some? {
          var p := m.pending.value;
          if p.kind != Kind.Configure || (p.phase == Intent && p.expectedRevision != m.revision)
             || p.expectedGeneration != expected.current || p.priorAccepted.Some? {
            unambiguous := false;
          } else if p.phase == Intent {
            p := p.(expectedRevision := m.revision + 1);
            m := m.(pending := Some(p));
          }
        }
        if unambiguous { edited := Some(Edit(expected, m)); }
      }
      returned := Commit(expected, edited, w.held, w.commit, w.write);
    }

    method Configure(expected: Owner, candidate: Mapping, id: string, w: World) returns (returned: Option<Owner>)
      modifies this
      ensures Outcome(returned, durable) == Step(old(durable), ConfigureMapping(expected, candidate, id), w)
    {
      if !SafeIdentity(id) { return None; }
      var canonical := Validate(candidate);
      if canonical.None? || !CheckPasses(expected, canonical.value, w) { return None; }
      var edited := ConfigureEdit(expected, canonical.value, id, w);
      returned := Commit(expected, edited, w.held, w.commit, w.write);
    }

    method Prepare(expected: Owner, candidate: Mapping, id: string, native: Native, w: World)
      returns (returned: Option<Owner>)
      modifies this
      ensures Outcome(returned, durable) == Step(old(durable), Call.Prepare(expected, candidate, id, native), w)
    {
      if !SafeIdentity(id) || !SafeIdentity(native.engine) || !SafeIdentity(native.process) { return None; }
      var canonical := Validate(candidate);
      if canonical.None? { return None; }
      var plan := PlanNative(expected, canonical.value, native, w);
      if plan.None? { return None; }
      var bound := native.(active := plan.value.active);
      var edited := PrepareEdit(expected, canonical.value, id, bound, w);
      returned := Commit(expected, edited, w.held, w.commit, w.write);
    }

    method Begin(expected: Owner, id: string, w: World) returns (returned: Option<Owner>)
      modifies this
      ensures Outcome(returned, durable) == Step(old(durable), BeginEffects(expected, id), w)
    {
      if !PendingPasses(expected, id, w) { return None; }
      var edited := InhibitPending(expected, w);
      returned := Commit(expected, edited, w.held, w.commit, w.write);
    }

    method Admit(expected: Owner, id: string, w: World) returns (returned: Option<Owner>)
      modifies this
      ensures Outcome(returned, durable) == Step(old(durable), Call.Admit(expected, id), w)
    {
      if expected.mapping.None? || expected.mapping.value.pending.None? { return None; }
      var p := expected.mapping.value.pending.value;
      if p.native.None? || p.kind != NativeExecute || durable != expected || !EffectsObserved(expected, id, w) {
        return None;
      }
      var replanned := PlanNative(expected, p.candidate, p.native.value, w);
      if replanned.None? || replanned.value.active != p.native.value.active { return None; }
      var edited := AdmitPending(expected, replanned.value, w);
      returned := Commit(expected, edited, w.held, w.commit, w.write);
    }

    method Recover(expected: Owner, id: string, cancel: bool, w: World) returns (returned: Option<Owner>)
      modifies this
      ensures Outcome(returned, durable) == Step(old(durable), Call.Recover(expected, id, cancel), w)
    {
      if !PendingPasses(expected, id, w) { return None; }
      var edited := RecoverPending(expected, cancel, w);
      RecoverAttempt(expected, id, cancel, w);
      StepByEdit(durable, Call.Recover(expected, id, cancel), w, edited);
      var twice := !cancel && expected.mapping.value.pending.value.kind != NativeExecute;
      returned := CommitAndClose(expected, edited, twice, w);
    }

    method CommitAndClose(expected: Owner, edited: Option<Owner>, twice: bool, w: World) returns (returned: Option<Owner>)
      modifies this
      ensures Outcome(returned, durable) == Committed(old(durable), expected, edited, twice, w)
    {
      returned := Commit(expected, edited, w.held, w.commit, w.write);
      if twice { returned := Close(returned, w); }
    }

    method Close(verified: Option<Owner>, w: World) returns (returned: Option<Owner>)
      modifies this
      ensures Outcome(returned, durable) == CloseVerified(Outcome(verified, old(durable)), w)
    {
      if verified.None? || verified.value.mapping.None? || verified.value.mapping.value.pending.None? { return None; }
      returned := Commit(verified.value, CloseEdit(verified.value), w.held, w.commitAgain, w.writeAgain);
    }
  }
}
