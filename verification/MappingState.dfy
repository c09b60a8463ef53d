/**
 Deployment-local mapping authority and its validator
 (internal/deploy/identity_mapping_state.go, identity_mapping_native_state.go).
 */
module MappingState {
  import opened Common
  import opened Geometry
  import opened GeometryChecks
  import opened Subtraction
  import opened Mappings

  /** The identity of one validated environment generation. */
  datatype Generation = Generation(reference: string)

  datatype Kind = Configure | NativeExecute | OtherKind(name: string)
  datatype Phase = Intent | EffectsPending | Verified | ReleaseAttempted

  datatype Native = Native(
    active: Mapping,
    engine: string,
    process: string,
    runtimeUsers: seq<string>,
    runtimeGroups: seq<string>)

  datatype Operation = Operation(
    id: string,
    kind: Kind,
    expectedRevision: nat,
    expectedGeneration: Option<Generation>,
    candidate: Mapping,
    priorAccepted: Option<Generation>,
    owned: set<string>,
    phase: Phase,
    native: Option<Native>)

  /** A directory path; one that is not UTF-8 is shown with the characters Go puts for it. */
  datatype Directory = Directory(path: string, utf8: bool)

  datatype Authority = Authority(
    native: bool,
    ownerDir: Directory,
    revision: nat,
    operatorUid: uint32,
    operatorGid: uint32,
    profile: Profile,
    uids: seq<Interval>,
    gids: seq<Interval>,
    acceptedUids: Option<seq<Interval>>,
    acceptedGids: Option<seq<Interval>>,
    dormantUids: seq<Interval>,
    dormantGids: seq<Interval>,
    supervisor: Option<string>,
    engine: Option<string>,
    nativeProcess: Option<string>,
    admitted: Option<Generation>,
    storage: set<string>,
    revoked: bool,
    pending: Option<Operation>)

  /** The part of the deployment state that the mapping operations read or write. */
  datatype Owner = Owner(
    staged: bool,
    deployed: bool,
    terminalRemoval: bool,
    current: Option<Generation>,
    mapping: Option<Authority>)

  // ----- identities

  predicate IsSpace(c: char) {
    var n := c as int;
    || 0x09 <= n <= 0x0D || n == 0x20 || n == 0x85 || n == 0xA0 || n == 0x1680
    || 0x2000 <= n <= 0x200A || n == 0x2028 || n == 0x2029 || n == 0x202F || n == 0x205F || n == 0x3000
  }

  predicate SafeIdentity(s: string) {
    && s != "" && !IsSpace(s[0]) && !IsSpace(s[|s| - 1]) && s[0] != '-'
    && forall i :: 0 <= i < |s| ==> s[i] as int >= 0x20 && s[i] as int != 0x7F
  }

  /** A path component ends at `i`. */
  predicate EndsAt(path: string, i: nat) { i >= |path| || path[i] == '/' }

  /** The component that starts at `i` is neither empty nor "." nor "..". */
  predicate ProperAt(path: string, i: nat) {
    && !EndsAt(path, i)
    && !(path[i] == '.' && EndsAt(path, i + 1))
    && !(path[i] == '.' && !EndsAt(path, i + 1) && path[i + 1] == '.' && EndsAt(path, i + 2))
  }

  predicate CleanAbsolute(path: string) {
    path == "/" || (path != "" && path[0] == '/' && forall i :: 0 <= i < |path| && path[i] == '/' ==> ProperAt(path, i + 1))
  }

  /** The validator's clause on the owner directory. */
  predicate OwnerDirOk(d: Directory) { d.utf8 && SafeIdentity(d.path) && CleanAbsolute(d.path) }

  predicate SafeHandles(handles: set<string>) { forall h :: h in handles ==> SafeIdentity(h) }

  // ----- derived geometry

  function Protected(m: Authority): Mapping { Mapping(m.profile, m.uids, m.gids) }

  /** The protected reservations as Go passes them to retention: absent while empty. */
  function Reservations(m: Authority): Option<Mapping> {
    if m.uids == [] then None else Some(Protected(m))
  }

  function Accepted(m: Authority): Option<Mapping> {
    if m.acceptedUids.None? || m.acceptedGids.None? || m.acceptedUids.value == [] then None
    else Some(Mapping(m.profile, m.acceptedUids.value, m.acceptedGids.value))
  }

  /** The active map the validator recomputes from what is accepted and dormant. */
  function RecomputedActive(m: Authority, accepted: Mapping): Mapping {
    Mapping(m.profile, Subtract(accepted.uids, m.dormantUids), Subtract(accepted.gids, m.dormantGids))
  }

  // ----- the validator

  predicate HeldBy(v: Interval, home: Interval) {
    home.container <= v.container && v.End() <= home.End() && v.Offset() == home.Offset()
  }

  predicate Retained(v: Interval, protected: seq<Interval>) {
    exists k :: 0 <= k < |protected| && HeldBy(v, protected[k])
  }

  predicate DormantOk(m: Authority, dormant: seq<Interval>, protected: seq<Interval>) {
    dormant == []
    || (m.admitted.Some? && CanonicalDomain(Exact, dormant)
        && forall i :: 0 <= i < |dormant| ==> Retained(dormant[i], protected))
  }

  function DormancySource(m: Authority): (seq<Interval>, seq<Interval>) {
    if m.native && m.acceptedUids.Some? && m.acceptedGids.Some? then (m.acceptedUids.value, m.acceptedGids.value)
    else (m.uids, m.gids)
  }

  predicate AssignmentsOk(m: Authority) {
    && 0 < m.revision <= MAX_UINT64 && OwnerDirOk(m.ownerDir)
    && 0 < m.operatorUid < MAX_UINT32 && 0 < m.operatorGid < MAX_UINT32
    && (m.profile == Exact || m.profile == Bounded)
    && (m.uids == [] <==> m.gids == [])
    && (m.uids != [] ==> Canonical(Protected(m)))
    && (m.supervisor.Some? ==> SafeIdentity(m.supervisor.value))
    && (m.engine.Some? ==> SafeIdentity(m.engine.value))
    && (m.admitted.Some? ==> m.uids != [] && m.engine.Some? && (m.native || m.supervisor.Some?))
    && SafeHandles(m.storage)
  }

  predicate PendingOk(m: Authority) {
    m.pending.Some? ==>
      var p := m.pending.value;
      && SafeIdentity(p.id) && (p.kind.OtherKind? ==> SafeIdentity(p.kind.name))
      && 0 < p.expectedRevision <= m.revision
      && (p.phase == ReleaseAttempted ==> m.native && p.kind == NativeExecute)
      && p.candidate.profile == m.profile
      && Canonical(p.candidate)
      && (m.uids != [] ==> RetainGeometry(p.candidate, Some(Protected(m))).Some?)
      && SafeHandles(p.owned)
  }

  predicate AcceptedOk(m: Authority) {
    match Accepted(m)
    case None =>
      m.admitted.None? && m.engine.None? && m.nativeProcess.None? && m.dormantUids == [] && m.dormantGids == []
    case Some(accepted) =>
      && Canonical(accepted)
      && UnionIsUnchanged(accepted, Protected(m))
      && m.admitted.Some? && m.nativeProcess.Some? && SafeIdentity(m.nativeProcess.value)
      && ValidateGeometry(RecomputedActive(m, accepted)).Some?
      && (m.profile == Bounded ==> m.dormantUids == [] && m.dormantGids == [] && accepted == Protected(m))
  }

  predicate NativePendingOk(m: Authority) {
    m.pending.Some? && !(m.pending.value.kind == Configure && m.pending.value.native.None?) ==>
      var p := m.pending.value;
      && p.kind == NativeExecute && p.native.Some? && p.expectedGeneration.Some?
      && p.expectedRevision == m.revision && p.phase != Verified
      && SafeIdentity(p.native.value.engine) && SafeIdentity(p.native.value.process)
      && Canonical(p.native.value.active)
      && UnionIsUnchanged(p.native.value.active, p.candidate)
      && (p.phase == ReleaseAttempted ==>
            && m.admitted == p.expectedGeneration
            && m.engine == Some(p.native.value.engine) && m.nativeProcess == Some(p.native.value.process)
            && Accepted(m).Some?
            && RecomputedActive(m, Accepted(m).value) == p.native.value.active)
  }

  predicate NativeOk(m: Authority) {
    if !m.native then
      && m.acceptedUids.None? && m.acceptedGids.None? && m.nativeProcess.None?
      && (m.pending.Some? ==> m.pending.value.native.None? && m.pending.value.kind != NativeExecute)
    else
      && m.supervisor.None? && m.acceptedUids.Some? && m.acceptedGids.Some?
      && (m.acceptedUids.value == [] <==> m.acceptedGids.value == [])
      && AcceptedOk(m)
      && NativePendingOk(m)
  }

  predicate ValidAuthority(m: Authority) {
    && AssignmentsOk(m)
    && DormantOk(m, m.dormantUids, DormancySource(m).0)
    && DormantOk(m, m.dormantGids, DormancySource(m).1)
    && PendingOk(m)
    && NativeOk(m)
  }

  predicate ValidOwner(s: Owner) {
    s.mapping.Some? ==> (s.staged || s.deployed) && ValidAuthority(s.mapping.value)
  }
}
