/**
 Whole runs of the mapping operations: any sequence of calls, by any callers, with any
 answers from the outside world, including writes that report failure but took effect.
 */
module MappingRuns {
  import opened Common
  import opened Geometry
  import opened GeometryChecks
  import opened Subtraction
  import opened Mappings
  import opened ExecutionPlan
  import opened MappingState
  import opened MappingOperations
  import opened MappingCommits
  import opened MappingSteps

  datatype Event = Event(call: Call, world: World)

  function Next(s: Owner, e: Event): Owner { Step(s, e.call, e.world).durable }

  predicate Moves(a: Owner, e: Event, b: Owner) { b == Next(a, e) }

  /** The durable states along a run that starts in a valid state. */
  predicate Run(trace: seq<Owner>, events: seq<Event>) {
    && |trace| == |events| + 1 && ValidOwner(trace[0])
    && forall i :: 0 <= i < |events| ==> Moves(trace[i], events[i], trace[i + 1])
  }

  lemma StepStaysValid(s: Owner, e: Event)
    requires ValidOwner(s)
    ensures ValidOwner(Next(s, e))
  {
    var mid := StepLinks(s, e.call, e.world);
  }

  /** Every durable state of every run passes the validator. */
  lemma {:induction false} EveryRunStaysValid(trace: seq<Owner>, events: seq<Event>, i: nat)
    requires Run(trace, events) && i < |trace|
    ensures ValidOwner(trace[i])
  {
    if i > 0 {
      EveryRunStaysValid(trace, events, i - 1);
      StepStaysValid(trace[i - 1], events[i - 1]);
    }
  }

  // ----- authority only grows

  datatype Domain = Users | Groups

  function Ids(g: Mapping, d: Domain): seq<Interval> { if d == Users then g.uids else g.gids }

  function AcceptedIds(a: Option<Authority>, d: Domain): seq<Interval> {
    if a.None? then [] else if d == Users then AcceptedUids(a.value) else AcceptedGids(a.value)
  }

  function ProtectedIds(a: Option<Authority>, d: Domain): seq<Interval> {
    if a.None? then [] else Ids(Protected(a.value), d)
  }

  ghost predicate GrowsIn(a: Option<Authority>, b: Option<Authority>, d: Domain) {
    Within(ProtectedIds(a, d), ProtectedIds(b, d)) && Within(AcceptedIds(a, d), AcceptedIds(b, d))
  }

  /** Authority, once recorded, stays, with the same profile, operator and owner directory. */
  predicate Lasts(a: Option<Authority>, b: Option<Authority>) {
    a.Some? ==> b.Some? && Fixed(a.value, b.value)
  }

  predicate Fixed(m: Authority, n: Authority) {
    && n.profile == m.profile && n.operatorUid == m.operatorUid && n.operatorGid == m.operatorGid
    && n.ownerDir == m.ownerDir
    && m.storage <= n.storage && (m.native ==> n.native) && (m.admitted.Some? ==> n.admitted.Some?)
  }

  /** The pending native operation that `call` may admit. */
  predicate Admissible(a: Option<Authority>, call: Call) {
    && call.Admit? && a.Some? && a.value.pending.Some? && a.value.pending.value.native.Some?
    && a.value.pending.value.phase == EffectsPending
  }

  /** New accepted bindings are those of an admitted active map. */
  ghost predicate AcceptsOnly(a: Option<Authority>, b: Option<Authority>, call: Call, d: Domain) {
    forall c, h | Binds(AcceptedIds(b, d), c, h) ::
      || Binds(AcceptedIds(a, d), c, h)
      || (Admissible(a, call) && Binds(Ids(a.value.pending.value.native.value.active, d), c, h))
  }

  /** New protected bindings are those of the recorded candidate of an operation with effects. */
  ghost predicate ReservesOnly(a: Option<Authority>, b: Option<Authority>, d: Domain) {
    forall c, h | Binds(ProtectedIds(b, d), c, h) ::
      || Binds(ProtectedIds(a, d), c, h)
      || (a.Some? && a.value.pending.Some? && a.value.pending.value.phase != Intent
          && Binds(Ids(a.value.pending.value.candidate, d), c, h))
  }

  ghost predicate GrowsSoundly(a: Option<Authority>, b: Option<Authority>, call: Call, d: Domain) {
    GrowsIn(a, b, d) && AcceptsOnly(a, b, call, d) && ReservesOnly(a, b, d)
  }

  lemma AdmitAccepts(m: Authority, plan: Plan, policy: Policy, d: Domain)
    requires ValidAuthority(m) && Planned(m, plan, policy)
    ensures IsUnion(AcceptedIds(Some(Admitted(m, plan)), d),
                    Ids(m.pending.value.native.value.active, d), AcceptedIds(Some(m), d))
  {
    PlannedFacts(m, plan, policy);
    AdmissionRoundTrips(m, plan, policy);
  }

  lemma AdmitReserves(m: Authority, plan: Plan, policy: Policy, d: Domain)
    requires ValidAuthority(m) && Planned(m, plan, policy)
    ensures Within(ProtectedIds(Some(m), d), Ids(plan.reservations, d))
    ensures forall c, h | Binds(Ids(plan.reservations, d), c, h) ::
              Binds(ProtectedIds(Some(m), d), c, h) || Binds(Ids(m.pending.value.candidate, d), c, h)
  {
    PlannedFacts(m, plan, policy);
    RetainedReservations(m, m.pending.value.candidate, plan.reservations);
  }

  lemma AdmitGrows(m: Authority, plan: Plan, policy: Policy, call: Call, d: Domain)
    requires ValidAuthority(m) && Planned(m, plan, policy) && m.pending.value.phase == EffectsPending && call.Admit?
    ensures GrowsSoundly(Some(m), Some(Admitted(m, plan)), call, d)
  {
    AdmitAccepts(m, plan, policy, d);
    AdmitReserves(m, plan, policy, d);
  }

  lemma CloseReserves(m: Authority, d: Domain)
    requires ValidAuthority(m) && m.pending.Some? && RetainGeometry(m.pending.value.candidate, Reservations(m)).Some?
    ensures var r := RetainGeometry(m.pending.value.candidate, Reservations(m)).value;
            && Within(ProtectedIds(Some(m), d), Ids(r, d))
            && forall c, h | Binds(Ids(r, d), c, h) ::
                 Binds(ProtectedIds(Some(m), d), c, h) || Binds(Ids(m.pending.value.candidate, d), c, h)
  {
    ClosedReservations(m, RetainGeometry(m.pending.value.candidate, Reservations(m)).value);
  }

  lemma CloseGrows(m: Authority, n: Authority, call: Call, d: Domain)
    requires ValidAuthority(m) && CloseShape(m, n)
    ensures GrowsSoundly(Some(m), Some(n), call, d)
  {
    CloseReserves(m, d);
    assert Accepted(n) == Accepted(m);
  }

  lemma OtherGrows(m: Authority, n: Authority, call: Call, d: Domain)
    requires UpgradeShape(m, n) || Repended(m, n)
    ensures GrowsSoundly(Some(m), Some(n), call, d)
  {
    assert Accepted(n) == Accepted(m);
  }

  lemma CommitGrows(m: Authority, n: Authority, call: Call, d: Domain)
    requires ValidAuthority(m) && CommitStep(m, n, call)
    ensures GrowsSoundly(Some(m), Some(n), call, d)
  {
    if call.Admit? {
      var plan, policy :| Planned(m, plan, policy) && n == Admitted(m, plan);
      AdmitGrows(m, plan, policy, call, d);
    } else if CloseShape(m, n) {
      CloseGrows(m, n, call, d);
    } else {
      OtherGrows(m, n, call, d);
    }
  }

  /** A pending native operation names the generation it is for. */
  predicate Generational(m: Authority) {
    m.native && m.pending.Some? && m.pending.value.native.Some? ==> m.pending.value.expectedGeneration.Some?
  }

  lemma ValidIsGenerational(m: Authority)
    requires ValidAuthority(m)
    ensures Generational(m)
  {
    assert m.native ==> NativePendingOk(m);
  }

  lemma AdmitLasts(m: Authority, n: Authority)
    requires Generational(m) && AdmitShape(m, n)
    ensures Fixed(m, n)
  {
    var plan, policy :| Planned(m, plan, policy) && n == Admitted(m, plan);
  }

  lemma CommitLasts(m: Authority, n: Authority, call: Call)
    requires Generational(m) && CommitStep(m, n, call)
    ensures Fixed(m, n)
  {
    if call.Admit? { AdmitLasts(m, n); }
  }

  lemma SameGrows(a: Option<Authority>, call: Call, d: Domain)
    ensures GrowsSoundly(a, a, call, d)
  {
  }

  lemma FirstGrows(n: Authority, call: Call, d: Domain)
    requires FirstShape(n)
    ensures GrowsSoundly(None, Some(n), call, d)
  {
  }

  lemma RewrittenGrows(a: Option<Authority>, b: Option<Authority>, call: Call, d: Domain)
    requires Rewritten(a, b)
    ensures GrowsSoundly(a, b, call, d) && Lasts(a, b)
  {
    if a.Some? && b != a { assert Accepted(b.value) == Accepted(a.value); }
  }

  lemma LinkGrows(a: Owner, b: Owner, call: Call, d: Domain)
    requires ValidOwner(a) && Link(a, b, call)
    ensures GrowsSoundly(a.mapping, b.mapping, call, d) && Lasts(a.mapping, b.mapping)
  {
    if a.mapping == b.mapping {
      SameGrows(a.mapping, call, d);
    } else if call.Elsewhere? {
      RewrittenGrows(a.mapping, b.mapping, call, d);
    } else if a.mapping.Some? {
      CommitGrows(a.mapping.value, b.mapping.value, call, d);
      ValidIsGenerational(a.mapping.value);
      CommitLasts(a.mapping.value, b.mapping.value, call);
    } else {
      FirstGrows(b.mapping.value, call, d);
    }
  }

  lemma GrowsOn(a: Option<Authority>, b: Option<Authority>, c: Option<Authority>, d: Domain)
    requires GrowsIn(a, b, d) && GrowsIn(b, c, d) && Lasts(a, b) && Lasts(b, c)
    ensures GrowsIn(a, c, d) && Lasts(a, c)
  {
  }

  lemma StepGrows(s: Owner, e: Event, d: Domain)
    requires ValidOwner(s)
    ensures GrowsIn(s.mapping, Next(s, e).mapping, d) && Lasts(s.mapping, Next(s, e).mapping)
  {
    var mid := StepLinks(s, e.call, e.world);
    LinkGrows(s, mid, e.call, d);
    LinkGrows(mid, Next(s, e), e.call, d);
    GrowsOn(s.mapping, mid.mapping, Next(s, e).mapping, d);
  }

  lemma TraceGrows(trace: seq<Owner>, events: seq<Event>, i: nat, d: Domain)
    requires Run(trace, events) && i < |events|
    ensures GrowsIn(trace[i].mapping, trace[i + 1].mapping, d) && Lasts(trace[i].mapping, trace[i + 1].mapping)
  {
    EveryRunStaysValid(trace, events, i);
    StepGrows(trace[i], events[i], d);
  }

  ghost predicate Keeps(a: Option<Authority>, b: Option<Authority>, d: Domain) {
    GrowsIn(a, b, d) && Lasts(a, b)
  }

  lemma {:induction false} GrowthAlong(trace: seq<Owner>, i: nat, j: nat, d: Domain)
    requires i <= j < |trace|
    requires forall k :: i <= k < j ==> Keeps(trace[k].mapping, trace[k + 1].mapping, d)
    ensures Keeps(trace[i].mapping, trace[j].mapping, d)
    decreases j
  {
    if i < j {
      GrowthAlong(trace, i, j - 1, d);
      assert Keeps(trace[j - 1].mapping, trace[j - 1 + 1].mapping, d);
      GrowsOn(trace[i].mapping, trace[j - 1].mapping, trace[j].mapping, d);
    }
  }

  /** In every run, protected and accepted bindings are kept, each to the same host ID. */
  lemma AuthorityOnlyGrows(trace: seq<Owner>, events: seq<Event>, i: nat, j: nat, d: Domain)
    requires Run(trace, events) && i <= j < |trace|
    ensures GrowsIn(trace[i].mapping, trace[j].mapping, d) && Lasts(trace[i].mapping, trace[j].mapping)
  {
    forall k | i <= k < j ensures Keeps(trace[k].mapping, trace[k + 1].mapping, d) {
      TraceGrows(trace, events, k, d);
    }
    GrowthAlong(trace, i, j, d);
  }

  // ----- revisions

  function Revision(a: Option<Authority>): nat { if a.Some? then a.value.revision else 0 }

  lemma LinkRevision(a: Owner, b: Owner, call: Call)
    requires Link(a, b, call)
    ensures a.mapping == b.mapping || Revision(b.mapping) == Revision(a.mapping) + 1
  {
  }

  /** A step leaves the authority alone or raises its revision once per durable write. */
  lemma StepRevision(s: Owner, e: Event)
    requires ValidOwner(s)
    ensures var a, b := s.mapping, Next(s, e).mapping;
            a == b || Revision(b) == Revision(a) + 1 || (CommitsTwice(e.call) && Revision(b) == Revision(a) + 2)
  {
    var mid := StepLinks(s, e.call, e.world);
    LinkRevision(s, mid, e.call);
    LinkRevision(mid, Next(s, e), e.call);
  }

  predicate RevisionMoves(a: Option<Authority>, b: Option<Authority>) {
    a == b || Revision(b) > Revision(a)
  }

  lemma TraceRevision(trace: seq<Owner>, events: seq<Event>, i: nat)
    requires Run(trace, events) && i < |events|
    ensures RevisionMoves(trace[i].mapping, trace[i + 1].mapping)
  {
    EveryRunStaysValid(trace, events, i);
    StepRevision(trace[i], events[i]);
  }

  lemma {:induction false} RevisionsAlong(trace: seq<Owner>, i: nat, j: nat)
    requires i <= j < |trace| && forall k :: i <= k < j ==> RevisionMoves(trace[k].mapping, trace[k + 1].mapping)
    ensures RevisionMoves(trace[i].mapping, trace[j].mapping)
    decreases j
  {
    if i < j {
      RevisionsAlong(trace, i, j - 1);
      assert RevisionMoves(trace[j - 1].mapping, trace[j - 1 + 1].mapping);
    }
  }

  /** Revisions identify authorities: the same revision twice in a run is the same authority. */
  lemma SameRevisionSameAuthority(trace: seq<Owner>, events: seq<Event>, i: nat, j: nat)
    requires Run(trace, events) && i <= j < |trace|
    ensures Revision(trace[i].mapping) <= Revision(trace[j].mapping)
    ensures Revision(trace[i].mapping) == Revision(trace[j].mapping) ==> trace[i].mapping == trace[j].mapping
  {
    forall k | i <= k < j ensures RevisionMoves(trace[k].mapping, trace[k + 1].mapping) {
      TraceRevision(trace, events, k);
    }
    RevisionsAlong(trace, i, j);
  }

  // ----- one-shot admission

  /** The durable state records an admission, whatever the caller was told. */
  predicate TookEffect(s: Owner, e: Event) { e.call.Admit? && Next(s, e) != s }

  /** The caller was given the release. */
  predicate Granted(s: Owner, e: Event) { e.call.Admit? && Step(s, e.call, e.world).returned.Some? }

  predicate Idle(s: Owner) { s.mapping.None? || s.mapping.value.pending.None? }

  predicate InRelease(s: Owner) { !Idle(s) && s.mapping.value.pending.value.phase == ReleaseAttempted }

  lemma AdmissionMoves(s: Owner, e: Event)
    requires ValidOwner(s) && TookEffect(s, e)
    ensures s.mapping.Some? && Next(s, e).mapping.Some? && AdmitShape(s.mapping.value, Next(s, e).mapping.value)
    ensures !Idle(s) && s.mapping.value.pending.value.phase == EffectsPending && InRelease(Next(s, e))
  {
    var mid := StepLinks(s, e.call, e.world);
    AdmitLink(s, Next(s, e), e.call);
  }

  lemma AdmitLink(a: Owner, b: Owner, call: Call)
    requires call.Admit? && Link(a, b, call) && a != b
    ensures a.mapping.Some? && b.mapping.Some? && AdmitShape(a.mapping.value, b.mapping.value)
    ensures !Idle(a) && a.mapping.value.pending.value.phase == EffectsPending && InRelease(b)
  {
  }

  /** A grant is only given for an admission that is durable, verified and reported written. */
  lemma GrantIsDurable(s: Owner, e: Event)
    requires ValidOwner(s) && Granted(s, e)
    ensures TookEffect(s, e) && e.world.verified && e.world.write == Written
    ensures Step(s, e.call, e.world).returned == Some(Next(s, e))
  {
    var edited := Attempt(e.call.expected, e.call, e.world);
    assert edited.Some? && edited.value.mapping.value.pending.value.phase == ReleaseAttempted;
    assert e.call.expected.mapping.value.pending.value.phase == EffectsPending;
    assert edited.value != s;
  }

  /** Leaving the release-attempted phase: only by an uncancelled recovery of that operation,
      which ends it and keeps what was admitted. */
  ghost predicate LeavesRelease(m: Authority, n: Authority, call: Call) {
    && m.pending.Some? && call.Recover? && !call.cancel && call.id == m.pending.value.id
    && n.pending.None? && Accepted(n) == Accepted(m) && n.admitted == m.admitted
  }

  lemma ReleaseLink(a: Owner, b: Owner, call: Call)
    requires InRelease(a) && a.mapping.value.pending.value.kind == NativeExecute && Link(a, b, call)
    ensures b.mapping == a.mapping || (b.mapping.Some? && LeavesRelease(a.mapping.value, b.mapping.value, call))
  {
  }

  lemma IdleLink(a: Owner, b: Owner, call: Call)
    requires Idle(a) && call.Recover? && Link(a, b, call)
    ensures b.mapping == a.mapping
  {
  }

  lemma ReleaseIsNative(s: Owner)
    requires ValidOwner(s) && InRelease(s)
    ensures s.mapping.value.pending.value.kind == NativeExecute
  {
  }

  lemma RecoveryIsVerified(s: Owner, e: Event)
    requires e.call.Recover? && !e.call.cancel && Next(s, e) != s
    ensures e.world.verified
  {
    var edited := Attempt(e.call.expected, e.call, e.world);
    assert edited.Some? ==> edited == RecoverEdit(e.call.expected, false, e.world);
  }

  lemma OnlyRecoveryLeavesRelease(s: Owner, e: Event, t: Owner)
    requires ValidOwner(s) && InRelease(s) && Moves(s, e, t) && s.mapping != t.mapping
    ensures t.mapping.Some? && LeavesRelease(s.mapping.value, t.mapping.value, e.call) && e.world.verified
  {
    var mid := StepLinks(s, e.call, e.world);
    ReleaseIsNative(s);
    ReleaseLink(s, mid, e.call);
    if mid.mapping == s.mapping { ReleaseLink(mid, t, e.call); } else { IdleLink(mid, t, e.call); }
    RecoveryIsVerified(s, e);
  }

  predicate ReleaseKept(a: Owner, b: Owner) { InRelease(a) ==> b.mapping == a.mapping || Idle(b) }

  lemma TraceRelease(trace: seq<Owner>, events: seq<Event>, i: nat)
    requires Run(trace, events) && i < |events|
    ensures ReleaseKept(trace[i], trace[i + 1])
  {
    EveryRunStaysValid(trace, events, i);
    if InRelease(trace[i]) && trace[i + 1].mapping != trace[i].mapping {
      OnlyRecoveryLeavesRelease(trace[i], events[i], trace[i + 1]);
    }
  }

  lemma {:induction false} ReleaseStays(trace: seq<Owner>, i: nat, j: nat)
    requires i <= j < |trace| && InRelease(trace[i])
    requires forall k :: i <= k < j ==> ReleaseKept(trace[k], trace[k + 1])
    requires forall k :: i <= k <= j ==> !Idle(trace[k])
    ensures InRelease(trace[j])
    decreases j
  {
    if i < j {
      ReleaseStays(trace, i, j - 1);
      assert ReleaseKept(trace[j - 1], trace[j - 1 + 1]) && !Idle(trace[j]);
    }
  }

  lemma AdmissionAt(trace: seq<Owner>, events: seq<Event>, i: nat)
    requires Run(trace, events) && i < |events| && TookEffect(trace[i], events[i])
    ensures !InRelease(trace[i]) && InRelease(trace[i + 1])
    ensures !Idle(trace[i]) && trace[i].mapping.value.pending.value.phase == EffectsPending
  {
    EveryRunStaysValid(trace, events, i);
    AdmissionMoves(trace[i], events[i]);
  }

  /** Between two admissions that took effect, the first operation was closed. So a recorded
      operation is admitted at most once, and released to at most one caller. */
  lemma AtMostOneAdmission(trace: seq<Owner>, events: seq<Event>, i: nat, j: nat)
    requires Run(trace, events) && i < j < |events|
    requires TookEffect(trace[i], events[i]) && TookEffect(trace[j], events[j])
    ensures exists k :: i < k < j && Idle(trace[k])
  {
    AdmissionAt(trace, events, i);
    AdmissionAt(trace, events, j);
    forall k | i < k < j ensures ReleaseKept(trace[k], trace[k + 1]) { TraceRelease(trace, events, k); }
    ReleaseWasLeft(trace, i, j);
  }

  lemma ReleaseWasLeft(trace: seq<Owner>, i: nat, j: nat)
    requires i < j < |trace| && InRelease(trace[i + 1]) && !InRelease(trace[j]) && !Idle(trace[j])
    requires forall k :: i < k < j ==> ReleaseKept(trace[k], trace[k + 1])
    ensures exists k :: i < k < j && Idle(trace[k])
  {
    if forall k :: i < k < j ==> !Idle(trace[k]) { ReleaseStays(trace, i + 1, j); }
  }

  // ----- every accepted binding was admitted

  ghost predicate AdmittedAt(s: Owner, e: Event, d: Domain, c: int, h: int) {
    && TookEffect(s, e) && Admissible(s.mapping, e.call)
    && Binds(Ids(s.mapping.value.pending.value.native.value.active, d), c, h)
  }

  lemma StepAccepts(s: Owner, e: Event, d: Domain, c: int, h: int)
    requires ValidOwner(s) && Binds(AcceptedIds(Next(s, e).mapping, d), c, h)
    ensures Binds(AcceptedIds(s.mapping, d), c, h) || AdmittedAt(s, e, d, c, h)
  {
    var mid := StepLinks(s, e.call, e.world);
    LinkGrows(s, mid, e.call, d);
    LinkGrows(mid, Next(s, e), e.call, d);
  }

  lemma TraceAccepts(trace: seq<Owner>, events: seq<Event>, i: nat, d: Domain, c: int, h: int)
    requires Run(trace, events) && i < |events| && Binds(AcceptedIds(trace[i + 1].mapping, d), c, h)
    ensures Binds(AcceptedIds(trace[i].mapping, d), c, h) || AdmittedAt(trace[i], events[i], d, c, h)
  {
    EveryRunStaysValid(trace, events, i);
    StepAccepts(trace[i], events[i], d, c, h);
  }

  /** No binding is accepted in a run unless an admission made it active. */
  lemma {:induction false} AcceptedWasAdmitted(trace: seq<Owner>, events: seq<Event>, n: nat, d: Domain, c: int, h: int)
    requires Run(trace, events) && n < |trace| && Binds(AcceptedIds(trace[n].mapping, d), c, h)
    ensures || Binds(AcceptedIds(trace[0].mapping, d), c, h)
            || exists i :: 0 <= i < n && AdmittedAt(trace[i], events[i], d, c, h)
    decreases n
  {
    if n > 0 {
      TraceAccepts(trace, events, n - 1, d, c, h);
      if Binds(AcceptedIds(trace[n - 1].mapping, d), c, h) { AcceptedWasAdmitted(trace, events, n - 1, d, c, h); }
    }
  }

  // ----- what is active is what was admitted last

  predicate SameAdmission(m: Authority, n: Authority) {
    && n.profile == m.profile && Accepted(n) == Accepted(m)
    && n.dormantUids == m.dormantUids && n.dormantGids == m.dormantGids
  }

  /** Accepted and dormant geometry only change by admission. */
  predicate KeepsAdmission(a: Option<Authority>, b: Option<Authority>) {
    a.Some? ==> b.Some? && SameAdmission(a.value, b.value)
  }

  lemma LinkKeepsAdmission(a: Owner, b: Owner, call: Call)
    requires Link(a, b, call) && !call.Admit?
    ensures KeepsAdmission(a.mapping, b.mapping)
  {
  }

  lemma StepKeepsAdmission(s: Owner, e: Event)
    requires ValidOwner(s) && !TookEffect(s, e)
    ensures KeepsAdmission(s.mapping, Next(s, e).mapping)
  {
    if !e.call.Admit? {
      var mid := StepLinks(s, e.call, e.world);
      LinkKeepsAdmission(s, mid, e.call);
      LinkKeepsAdmission(mid, Next(s, e), e.call);
    }
  }

  lemma TraceKeepsAdmission(trace: seq<Owner>, events: seq<Event>, i: nat)
    requires Run(trace, events) && i < |events| && !TookEffect(trace[i], events[i])
    ensures KeepsAdmission(trace[i].mapping, trace[i + 1].mapping)
  {
    EveryRunStaysValid(trace, events, i);
    StepKeepsAdmission(trace[i], events[i]);
  }

  lemma {:induction false} AdmissionAlong(trace: seq<Owner>, i: nat, j: nat)
    requires i <= j < |trace|
    requires forall k :: i <= k < j ==> KeepsAdmission(trace[k].mapping, trace[k + 1].mapping)
    ensures KeepsAdmission(trace[i].mapping, trace[j].mapping)
    decreases j
  {
    if i < j {
      AdmissionAlong(trace, i, j - 1);
      assert KeepsAdmission(trace[j - 1].mapping, trace[j - 1 + 1].mapping);
    }
  }

  /** The map the validator derives from the state is the one that was admitted. */
  ghost predicate Derives(b: Option<Authority>, active: Mapping) {
    b.Some? && Accepted(b.value).Some? && RecomputedActive(b.value, Accepted(b.value).value) == active
  }

  lemma AdmittedDerives(m: Authority, n: Authority)
    requires ValidAuthority(m) && AdmitShape(m, n)
    ensures Derives(Some(n), m.pending.value.native.value.active)
  {
    var plan, policy :| Planned(m, plan, policy) && n == Admitted(m, plan);
    AdmissionRoundTrips(m, plan, policy);
  }

  lemma TraceDerives(trace: seq<Owner>, events: seq<Event>, i: nat)
    requires Run(trace, events) && i < |events| && TookEffect(trace[i], events[i])
    ensures Admissible(trace[i].mapping, events[i].call)
    ensures Derives(trace[i + 1].mapping, trace[i].mapping.value.pending.value.native.value.active)
  {
    EveryRunStaysValid(trace, events, i);
    AdmissionMoves(trace[i], events[i]);
    AdmittedDerives(trace[i].mapping.value, trace[i + 1].mapping.value);
  }

  lemma DerivesOn(a: Option<Authority>, b: Option<Authority>, active: Mapping)
    requires Derives(a, active) && KeepsAdmission(a, b)
    ensures Derives(b, active)
  {
  }

  /** Until the next admission takes effect, whatever else happens, the active map recomputed
      from the durable state is exactly the one that was admitted last. */
  lemma ActiveIsLastAdmitted(trace: seq<Owner>, events: seq<Event>, i: nat, j: nat)
    requires Run(trace, events) && i < j <= |events| && TookEffect(trace[i], events[i])
    requires forall k :: i < k < j ==> !TookEffect(trace[k], events[k])
    ensures Admissible(trace[i].mapping, events[i].call)
    ensures Derives(trace[j].mapping, trace[i].mapping.value.pending.value.native.value.active)
  {
    TraceDerives(trace, events, i);
    forall k | i < k < j ensures KeepsAdmission(trace[k].mapping, trace[k + 1].mapping) {
      TraceKeepsAdmission(trace, events, k);
    }
    AdmissionAlong(trace, i + 1, j);
    DerivesOn(trace[i + 1].mapping, trace[j].mapping, trace[i].mapping.value.pending.value.native.value.active);
  }

  // ----- recovery is complete

  /** The lock, the evidence and the disk cooperate. */
  predicate Cooperates(w: World) {
    && w.held && w.evidence && w.unused && w.verified
    && w.commit && w.write == Written && w.commitAgain && w.writeAgain == Written
  }

  lemma ChangeSucceeds(s: Owner, edited: Owner)
    requires MayChange(s) && edited != s && ValidOwner(Bumped(edited))
    ensures Change(s, s, true, Some(edited), true, Written) == Outcome(Some(Bumped(edited)), Bumped(edited))
  {
  }

  lemma ClosingEnds(s: Owner)
    requires ValidOwner(s) && MayChange(s) && !Idle(s)
    ensures var o := Change(s, s, true, CloseEdit(s), true, Written);
            o.returned == Some(o.durable) && Idle(o.durable) && ValidOwner(o.durable)
  {
    CloseAlwaysEdits(s);
    CloseEditIsValid(s);
    ValidByParts(s, CloseEdit(s).value);
    ChangeSucceeds(s, CloseEdit(s).value);
  }

  lemma CancellingEnds(s: Owner, w: World)
    requires ValidOwner(s) && MayChange(s) && !Idle(s) && s.mapping.value.pending.value.phase == Intent && w.unused
    ensures var o := Change(s, s, true, CancelEdit(s, w), true, Written);
            o.returned == Some(o.durable) && Idle(o.durable)
  {
    CancelIsValid(s, w);
    ValidByParts(s, CancelEdit(s, w).value);
    ChangeSucceeds(s, CancelEdit(s, w).value);
  }

  lemma VerifyingSucceeds(s: Owner, w: World)
    requires ValidOwner(s) && MayChange(s) && !Idle(s) && s.mapping.value.pending.value.kind == Configure && w.verified
    ensures var o := Change(s, s, true, VerifyEdit(s, w), true, Written);
            && o.returned == Some(o.durable) && !Idle(o.durable) && ValidOwner(o.durable)
            && o.durable.mapping.value.revision <= s.mapping.value.revision + 1
            && o.durable == s.(mapping := o.durable.mapping) && o.durable.mapping.value.revoked == s.mapping.value.revoked
  {
    if VerifyEdit(s, w).value != s {
      VerifyIsValid(s, w);
      ValidByParts(s, VerifyEdit(s, w).value);
      ChangeSucceeds(s, VerifyEdit(s, w).value);
    }
  }

  predicate Ends(o: Outcome) { o.returned == Some(o.durable) && Idle(o.durable) }

  lemma NativeRecoveryEnds(s: Owner, w: World)
    requires ValidOwner(s) && MayChange(s) && Cooperates(w) && !Idle(s)
    requires s.mapping.value.pending.value.phase != Intent && s.mapping.value.pending.value.kind == NativeExecute
    ensures Ends(Committed(s, s, RecoverEdit(s, false, w), false, w))
  {
    ClosingEnds(s);
  }

  lemma ConfigurationRecoveryEnds(s: Owner, w: World)
    requires ValidOwner(s) && MayChange(s) && Cooperates(w) && !Idle(s) && s.mapping.value.revision < MAX_UINT64 - 1
    requires s.mapping.value.pending.value.phase != Intent && s.mapping.value.pending.value.kind == Configure
    ensures Ends(Committed(s, s, RecoverEdit(s, false, w), true, w))
  {
    VerifyingSucceeds(s, w);
    ClosingEnds(Change(s, s, true, VerifyEdit(s, w), true, Written).durable);
  }

  /** Cancelling an intent, or recovering anything later, ends a pending operation whose
      checks still pass, in one call. */
  lemma RecoveryEndsTheOperation(s: Owner, id: string, w: World)
    requires ValidOwner(s) && MayChange(s) && PendingPasses(s, id, w) && Cooperates(w)
    requires s.mapping.value.revision < MAX_UINT64 - 1
    ensures Ends(Step(s, Call.Recover(s, id, s.mapping.value.pending.value.phase == Intent), w))
  {
    var p := s.mapping.value.pending.value;
    RecoverAttempt(s, id, p.phase == Intent, w);
    StepByEdit(s, Call.Recover(s, id, p.phase == Intent), w, RecoverEdit(s, p.phase == Intent, w));
    if p.phase == Intent { CancellingEnds(s, w); }
    else if p.kind == NativeExecute { NativeRecoveryEnds(s, w); }
    else { ConfigurationRecoveryEnds(s, w); }
  }

  // ----- the journal never goes stale on its own

  /** The pending operation is current and, before its release, names a fresh instance. */
  predicate JournalOk(s: Owner) {
    Idle(s)
    || (var m, p := s.mapping.value, s.mapping.value.pending.value;
        && (p.kind == Configure || p.kind == NativeExecute)
        && (p.phase == Intent ==> p.expectedRevision == m.revision)
        && (p.phase == ReleaseAttempted ==> p.kind == NativeExecute)
        && (p.phase != ReleaseAttempted ==>
              p.priorAccepted == m.admitted && (p.native.Some? ==> !IsInstance(m, p.native.value))))
  }

  lemma CommitKeepsJournal(a: Owner, b: Owner, call: Call)
    requires JournalOk(a) && a.mapping.Some? && b.mapping.Some?
    requires CommitStep(a.mapping.value, b.mapping.value, call)
    ensures JournalOk(b)
  {
  }

  lemma LinkKeepsJournal(a: Owner, b: Owner, call: Call)
    requires JournalOk(a) && Link(a, b, call)
    ensures JournalOk(b)
  {
    if a.mapping != b.mapping && a.mapping.Some? && !call.Elsewhere? { CommitKeepsJournal(a, b, call); }
  }

  lemma StepKeepsJournal(s: Owner, e: Event)
    requires ValidOwner(s) && JournalOk(s)
    ensures JournalOk(Next(s, e))
  {
    var mid := StepLinks(s, e.call, e.world);
    LinkKeepsJournal(s, mid, e.call);
    LinkKeepsJournal(mid, Next(s, e), e.call);
  }

  lemma TraceKeepsJournal(trace: seq<Owner>, events: seq<Event>, i: nat)
    requires Run(trace, events) && i < |events| && JournalOk(trace[i])
    ensures JournalOk(trace[i + 1])
  {
    EveryRunStaysValid(trace, events, i);
    StepKeepsJournal(trace[i], events[i]);
  }

  lemma {:induction false} JournalAlong(trace: seq<Owner>, n: nat)
    requires n < |trace| && JournalOk(trace[0])
    requires forall k :: 0 <= k < n && JournalOk(trace[k]) ==> JournalOk(trace[k + 1])
    ensures JournalOk(trace[n])
  {
    if n > 0 {
      JournalAlong(trace, n - 1);
      assert JournalOk(trace[n - 1]) ==> JournalOk(trace[n - 1 + 1]);
    }
  }

  lemma JournalStaysCurrent(trace: seq<Owner>, events: seq<Event>, i: nat)
    requires Run(trace, events) && JournalOk(trace[0]) && i < |trace|
    ensures JournalOk(trace[i])
  {
    forall k | 0 <= k < i && JournalOk(trace[k]) ensures JournalOk(trace[k + 1]) { TraceKeepsJournal(trace, events, k); }
    JournalAlong(trace, i);
  }

  /** In a run from a current journal, a pending operation can only be refused for its ID,
      a moved generation, or a failing fresh check: never for the journal itself. */
  lemma PendingIsOnlyRefusedFromOutside(trace: seq<Owner>, events: seq<Event>, i: nat, id: string, w: World)
    requires Run(trace, events) && JournalOk(trace[0]) && i < |trace| && !Idle(trace[i])
    ensures var p := trace[i].mapping.value.pending.value;
            PendingPasses(trace[i], id, w) <==>
              && p.id == id && p.expectedGeneration == trace[i].current
              && if p.native.Some? then PendingNativePlan(trace[i], w).Some? else CheckPasses(trace[i], p.candidate, w)
  {
    EveryRunStaysValid(trace, events, i);
    JournalStaysCurrent(trace, events, i);
    NativeIsByKind(trace[i]);
  }

  lemma NativeIsByKind(s: Owner)
    requires ValidOwner(s) && JournalOk(s) && !Idle(s)
    ensures s.mapping.value.pending.value.kind == NativeExecute <==> s.mapping.value.pending.value.native.Some?
  {
  }

  /** Every admission is of an instance other than the one admitted before it. */
  lemma AdmissionsNeverRepeatAnInstance(trace: seq<Owner>, events: seq<Event>, i: nat)
    requires Run(trace, events) && JournalOk(trace[0]) && i < |events| && TookEffect(trace[i], events[i])
    ensures var a, b := trace[i].mapping, trace[i + 1].mapping;
            && a.Some? && b.Some? && a.value.pending.Some? && a.value.pending.value.native.Some?
            && !IsInstance(a.value, a.value.pending.value.native.value)
            && IsInstance(b.value, a.value.pending.value.native.value)
  {
    EveryRunStaysValid(trace, events, i);
    JournalStaysCurrent(trace, events, i);
    AdmissionMoves(trace[i], events[i]);
  }

  // ----- exact retries

  /** Repeating a configuration over the state it left, with the same inventory, succeeds
      and writes nothing - also when the first write was reported as failed. */
  lemma ExactRetryChangesNothing(s: Owner, candidate: Mapping, id: string, w: World, t: Owner, v: World)
    requires Moves(s, Event(ConfigureMapping(s, candidate, id), w), t) && t != s
    requires v.held && v.evidence && v.handles == w.handles && MayChange(t)
    requires ValidateGeometry(candidate).Some? ==> CheckPasses(t, ValidateGeometry(candidate).value, v)
    ensures Step(t, ConfigureMapping(t, candidate, id), v) == Outcome(Some(t), t)
  {
    ConfigurationRecords(s, candidate, id, w, t);
    RetriedIntent(t, ValidateGeometry(candidate).value, id, v);
    assert Attempt(t, ConfigureMapping(t, candidate, id), v) == Some(t);
  }

  lemma ConfigurationRecords(s: Owner, candidate: Mapping, id: string, w: World, t: Owner)
    requires Moves(s, Event(ConfigureMapping(s, candidate, id), w), t) && t != s
    ensures SafeIdentity(id) && ValidateGeometry(candidate).Some? && w.handles.Some? && SafeHandles(w.handles.value)
    ensures IntentOf(t, ValidateGeometry(candidate).value, id, w.handles.value)
  {
    var call := ConfigureMapping(s, candidate, id);
    var edited := Attempt(s, call, w);
    ChangeCases(s, s, w.held, edited, w.commit, w.write);
    RecordedIntent(s, ValidateGeometry(candidate).value, id, w);
  }

  /** What a configuration records. */
  lemma RecordedIntent(s: Owner, canonical: Mapping, id: string, w: World)
    requires ConfigureEdit(s, canonical, id, w).Some? && ConfigureEdit(s, canonical, id, w).value != s
    ensures w.handles.Some? && SafeHandles(w.handles.value)
    ensures IntentOf(Bumped(ConfigureEdit(s, canonical, id, w).value), canonical, id, w.handles.value)
  {
  }

  predicate IntentOf(t: Owner, canonical: Mapping, id: string, handles: set<string>) {
    && !Idle(t)
    && var m := t.mapping.value;
       m.pending.value == Operation(id, Configure, m.revision, t.current, canonical, m.admitted, handles, Intent, None)
  }

  lemma RetriedIntent(t: Owner, canonical: Mapping, id: string, v: World)
    requires v.handles.Some? && SafeHandles(v.handles.value) && v.evidence
    requires IntentOf(t, canonical, id, v.handles.value)
    ensures ConfigureEdit(t, canonical, id, v) == Some(t)
  {
  }
}
