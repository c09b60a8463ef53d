/**
 What the journal remembers: an operation that may have had effects is never forgotten, an
 intent only with proof that it was never used; and what a call can fail for.
 */
module MappingClosure {
  import opened Common
  import opened Geometry
  import opened GeometryChecks
  import opened Subtraction
  import opened Mappings
  import opened ExecutionPlan
  import opened MappingState
  import opened MappingOperations
  import opened MappingCommits
  import opened MappingSteps
  import opened MappingRuns

  // ----- operations with effects

  /** The operation is still recorded, past its intent. */
  predicate StillPending(p: Operation, s: Owner) {
    !Idle(s) && SameOperation(p, s.mapping.value.pending.value) && s.mapping.value.pending.value.phase != Intent
  }

  /** Its objects are retained and its candidate is reserved. */
  ghost predicate Kept(p: Operation, s: Owner) {
    && s.mapping.Some? && p.owned <= s.mapping.value.storage
    && forall d :: Within(Ids(p.candidate, d), ProtectedIds(s.mapping, d))
  }

  ghost predicate Accounted(p: Operation, s: Owner) { StillPending(p, s) || Kept(p, s) }

  lemma CloseRetains(m: Authority, n: Authority, s: Owner)
    requires ValidAuthority(m) && CloseShape(m, n) && s.mapping == Some(n)
    ensures Kept(m.pending.value, s)
  {
    ClosedReservations(m, RetainGeometry(m.pending.value.candidate, Reservations(m)).value);
  }

  lemma CommitKeepsOperation(a: Owner, b: Owner, call: Call)
    requires a.mapping.Some? && b.mapping.Some? && CommitStep(a.mapping.value, b.mapping.value, call)
    requires a.mapping.value.pending.Some? && a.mapping.value.pending.value.phase != Intent
    ensures CloseShape(a.mapping.value, b.mapping.value) || StillPending(a.mapping.value.pending.value, b)
  {
  }

  lemma LinkKeepsPending(p: Operation, a: Owner, b: Owner, call: Call)
    requires ValidOwner(a) && Link(a, b, call) && StillPending(p, a)
    ensures Accounted(p, b)
  {
    if a.mapping != b.mapping {
      CommitKeepsOperation(a, b, call);
      if CloseShape(a.mapping.value, b.mapping.value) {
        CloseRetains(a.mapping.value, b.mapping.value, b);
        SameRetention(p, a.mapping.value.pending.value, b);
      } else {
        SameOperationOn(p, a.mapping.value.pending.value, b);
      }
    }
  }

  lemma SameRetention(p: Operation, q: Operation, s: Owner)
    requires SameOperation(p, q) && Kept(q, s)
    ensures Kept(p, s)
  {
  }

  lemma SameOperationOn(p: Operation, q: Operation, s: Owner)
    requires SameOperation(p, q) && StillPending(q, s)
    ensures StillPending(p, s)
  {
  }

  lemma LinkKeepsKept(p: Operation, a: Owner, b: Owner, call: Call)
    requires ValidOwner(a) && Link(a, b, call) && Kept(p, a)
    ensures Kept(p, b)
  {
    forall d ensures Within(Ids(p.candidate, d), ProtectedIds(b.mapping, d)) {
      LinkGrows(a, b, call, d);
    }
    LinkGrows(a, b, call, Users);
  }

  lemma StepKeepsAccounted(p: Operation, s: Owner, e: Event)
    requires ValidOwner(s) && Accounted(p, s)
    ensures Accounted(p, Next(s, e))
  {
    var mid := StepLinks(s, e.call, e.world);
    if StillPending(p, s) { LinkKeepsPending(p, s, mid, e.call); } else { LinkKeepsKept(p, s, mid, e.call); }
    if StillPending(p, mid) { LinkKeepsPending(p, mid, Next(s, e), e.call); }
    else { LinkKeepsKept(p, mid, Next(s, e), e.call); }
  }

  lemma TraceKeepsAccounted(p: Operation, trace: seq<Owner>, events: seq<Event>, i: nat)
    requires Run(trace, events) && i < |events| && Accounted(p, trace[i])
    ensures Accounted(p, trace[i + 1])
  {
    EveryRunStaysValid(trace, events, i);
    StepKeepsAccounted(p, trace[i], events[i]);
  }

  lemma {:induction false} AccountedAlong(p: Operation, trace: seq<Owner>, i: nat, j: nat)
    requires i <= j < |trace| && Accounted(p, trace[i])
    requires forall k :: i <= k < j && Accounted(p, trace[k]) ==> Accounted(p, trace[k + 1])
    ensures Accounted(p, trace[j])
    decreases j
  {
    if i < j {
      AccountedAlong(p, trace, i, j - 1);
      assert Accounted(p, trace[j - 1]) ==> Accounted(p, trace[j - 1 + 1]);
    }
  }

  /** Once the effects of an operation may have begun, every later state of the run still
      records it, or retains all its objects and reserves every binding of its candidate. */
  lemma EffectsAreNeverForgotten(trace: seq<Owner>, events: seq<Event>, i: nat, j: nat)
    requires Run(trace, events) && i <= j < |trace| && !Idle(trace[i])
    requires trace[i].mapping.value.pending.value.phase != Intent
    ensures Accounted(trace[i].mapping.value.pending.value, trace[j])
  {
    var p := trace[i].mapping.value.pending.value;
    assert StillPending(p, trace[i]);
    forall k | i <= k < j && Accounted(p, trace[k]) ensures Accounted(p, trace[k + 1]) {
      TraceKeepsAccounted(p, trace, events, k);
    }
    AccountedAlong(p, trace, i, j);
  }

  // ----- intents

  /** The recorded intent is no longer there. */
  predicate IntentGone(s: Owner, t: Owner) {
    && !Idle(s) && s.mapping.value.pending.value.phase == Intent
    && (Idle(t) || !SameOperation(s.mapping.value.pending.value, t.mapping.value.pending.value))
  }

  lemma IntentEdits(s: Owner, call: Call, w: World)
    requires Attempt(s, call, w).Some? && IntentGone(s, Attempt(s, call, w).value)
    ensures w.unused
  {
    match call
    case Upgrade(_) =>
    case ConfigureMapping(_, _, _) =>
    case Prepare(_, _, _, _) =>
    case BeginEffects(_, _) =>
    case Admit(_, _) =>
    case Recover(_, id, cancel) => assert Attempt(s, call, w) == RecoverEdit(s, cancel, w);
  }

  lemma BumpedIntent(s: Owner, edited: Owner)
    requires IntentGone(s, Bumped(edited))
    ensures IntentGone(s, edited)
  {
  }

  /** A recovery that would commit twice does nothing to an intent. */
  lemma IntentsAreNotVerified(s: Owner, e: Event)
    requires CommitsTwice(e.call) && !Idle(s) && s.mapping.value.pending.value.phase == Intent
    ensures Next(s, e) == s
  {
    var edited := Attempt(e.call.expected, e.call, e.world);
    ChangeCases(s, e.call.expected, e.world.held, edited, e.world.commit, e.world.write);
    if edited.Some? { assert edited == RecoverEdit(e.call.expected, false, e.world); }
  }

  /** A recorded intent is cancelled or replaced only with proof that it was never used. */
  lemma IntentsEndUnused(s: Owner, e: Event)
    requires ValidOwner(s) && IntentGone(s, Next(s, e))
    ensures e.world.unused
  {
    if CommitsTwice(e.call) {
      IntentsAreNotVerified(s, e);
    } else {
      var edited := Attempt(e.call.expected, e.call, e.world);
      ChangeCases(s, e.call.expected, e.world.held, edited, e.world.commit, e.world.write);
      BumpedIntent(s, edited.value);
      IntentEdits(s, e.call, e.world);
    }
  }

  // ----- what a call can fail for

  /** With the lock, the context and the disk cooperating, a call over an observed valid state
      fails only when one of its own checks does, or when it is the first configuration in a
      directory whose path the validator rejects: any other attempted edit is committed. */
  lemma CooperativeCallsCommit(s: Owner, call: Call, w: World)
    requires ValidOwner(s) && MayChange(s) && !call.Elsewhere? && !CommitsTwice(call) && call.expected == s
    requires w.held && w.commit && w.write == Written && Attempt(s, call, w).Some?
    ensures var edited := Attempt(s, call, w).value;
            var t := if edited == s then s else Bumped(edited);
            Step(s, call, w) == if edited != s && FirstInUnsafePlace(s, w) then Outcome(None, s) else Outcome(Some(t), t)
  {
    var edited := Attempt(s, call, w).value;
    StepByEdit(s, call, w, Some(edited));
    if edited != s {
      ValidatorRefusesIff(s, call, w);
      if !FirstInUnsafePlace(s, w) { ChangeSucceeds(s, edited); }
    }
  }

  /** A staged owner without mapping authority, and a first candidate for it. */
  function Staged(): Owner { Owner(true, false, false, None, None) }

  function Candidate(): Mapping { Mapping(Exact, [Interval(0, 100_000, 1)], [Interval(0, 100_000, 1)]) }

  /** Everything cooperates, in a directory whose name ends in a space. */
  function TrailingSpace(): World {
    World(true, true, true, 1000, 1000, Some(Directory("/app ", true)), true, Some({}), true, true,
          None, false, true, Written, true, Written)
  }

  lemma CandidateIsCanonical()
    ensures ValidateGeometry(Candidate()) == Some(Candidate())
  {
    CanonicalIsValidated(Candidate());
  }

  /** A first configuration that passes every check and is refused by the validator. */
  lemma FirstConfigurationRefused()
    ensures var call := ConfigureMapping(Staged(), Candidate(), "op");
            && ValidOwner(Staged()) && MayChange(Staged()) && Attempt(Staged(), call, TrailingSpace()).Some?
            && CheckPasses(Staged(), Candidate(), TrailingSpace())
            && Step(Staged(), call, TrailingSpace()) == Outcome(None, Staged())
  {
    var call := ConfigureMapping(Staged(), Candidate(), "op");
    CandidateIsCanonical();
    assert CheckPasses(Staged(), Candidate(), TrailingSpace());
    assert !SafeIdentity("/app ");
    CooperativeCallsCommit(Staged(), call, TrailingSpace());
  }
}
