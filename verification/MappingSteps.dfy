/**
 The effect of one committed mapping operation on the durable authority: which fields it
 may touch, how the journal advances, and that authority only grows.
 */
module MappingSteps {
  import opened Common
  import opened Geometry
  import opened GeometryChecks
  import opened Subtraction
  import opened Mappings
  import opened ExecutionPlan
  import opened MappingState
  import opened MappingOperations
  import opened MappingCommits

  // ----- the shape of each commit

  predicate Repended(m: Authority, n: Authority) {
    n == m.(pending := n.pending, revision := m.revision + 1)
  }

  /** The same recorded operation, in another phase. */
  predicate SameOperation(p: Operation, q: Operation) {
    q == p.(phase := q.phase, expectedRevision := q.expectedRevision)
  }

  predicate UpgradeShape(m: Authority, n: Authority) {
    && !m.native && m.admitted.None? && Accepted(m).None?
    && n == m.(native := true, acceptedUids := Some([]), acceptedGids := Some([]),
               pending := n.pending, revision := m.revision + 1)
    && (m.pending.None? ==> n.pending.None?)
    && (m.pending.Some? ==>
          && n.pending.Some? && m.pending.value.kind == Configure
          && m.pending.value.priorAccepted.None?
          && SameOperation(m.pending.value, n.pending.value) && n.pending.value.phase == m.pending.value.phase
          && (n.pending.value.phase == Intent ==> n.pending.value.expectedRevision == n.revision))
  }

  /** A new intent, recorded against the committed revision and the current admission. */
  predicate Intended(m: Authority, n: Authority) {
    && n.pending.Some? && n.pending.value.phase == Intent
    && n.pending.value.expectedRevision == n.revision && n.pending.value.priorAccepted == m.admitted
  }

  predicate ConfigureShape(m: Authority, n: Authority) {
    && Repended(m, n) && Intended(m, n) && n.pending.value.kind == Configure && n.pending.value.native.None?
    && (m.pending.Some? ==> m.pending.value.phase == Intent && m.pending.value.kind == Configure)
  }

  predicate PrepareShape(m: Authority, n: Authority) {
    && m.native && Repended(m, n) && Intended(m, n) && m.pending.None?
    && n.pending.value.kind == NativeExecute && n.pending.value.native.Some?
    && !IsInstance(m, n.pending.value.native.value)
  }

  /** The engine instance that was admitted last. */
  predicate IsInstance(m: Authority, native: Native) {
    m.nativeProcess == Some(native.process) && m.engine == Some(native.engine)
  }

  predicate BeginShape(m: Authority, n: Authority) {
    && Repended(m, n) && m.pending.Some? && n.pending.Some? && SameOperation(m.pending.value, n.pending.value)
    && m.pending.value.phase == Intent && n.pending.value.phase == EffectsPending
  }

  ghost predicate AdmitShape(m: Authority, n: Authority) {
    && m.pending.Some? && m.pending.value.native.Some?
    && m.pending.value.kind == NativeExecute && m.pending.value.phase == EffectsPending
    && exists plan, policy :: Planned(m, plan, policy) && n == Admitted(m, plan)
  }

  predicate CancelShape(m: Authority, n: Authority) {
    m.pending.Some? && m.pending.value.phase == Intent && n == Bump(m.(pending := None))
  }

  predicate VerifyShape(m: Authority, n: Authority) {
    && Repended(m, n) && m.pending.Some? && n.pending.Some? && SameOperation(m.pending.value, n.pending.value)
    && m.pending.value.kind == Configure && m.pending.value.phase != Intent && n.pending.value.phase == Verified
  }

  predicate CloseShape(m: Authority, n: Authority) {
    && m.pending.Some? && m.pending.value.phase != Intent
    && RetainGeometry(m.pending.value.candidate, Reservations(m)).Some?
    && n == Closed(m, RetainGeometry(m.pending.value.candidate, Reservations(m)).value)
  }

  ghost predicate CommitShape(m: Authority, n: Authority, call: Call) {
    match call
    case Upgrade(_) => UpgradeShape(m, n)
    case ConfigureMapping(_, _, _) => ConfigureShape(m, n)
    case Prepare(_, _, _, _) => PrepareShape(m, n)
    case BeginEffects(_, _) => BeginShape(m, n)
    case Admit(_, _) => AdmitShape(m, n)
    case Recover(_, id, cancel) =>
      && m.pending.Some? && m.pending.value.id == id
      && if cancel then CancelShape(m, n)
         else if m.pending.value.kind == NativeExecute then CloseShape(m, n)
         else VerifyShape(m, n)
    case Elsewhere(_) => false
  }

  /** The first configuration of a deployment that had no mapping authority. */
  predicate FirstShape(n: Authority) {
    && !n.native && n.revision == 1 && n.uids == [] && n.gids == [] && n.admitted.None? && n.storage == {}
    && n.engine.None? && n.nativeProcess.None? && Accepted(n).None? && n.pending.Some?
    && n.pending.value.kind == Configure && n.pending.value.phase == Intent
    && n.pending.value.expectedRevision == 1 && n.pending.value.priorAccepted.None?
  }

  lemma RecoverEditShape(s: Owner, cancel: bool, w: World)
    requires s.mapping.Some? && s.mapping.value.pending.Some? && RecoverEdit(s, cancel, w).Some?
    requires s.mapping.value.pending.value.kind == Configure || s.mapping.value.pending.value.kind == NativeExecute
    ensures var m, n := s.mapping.value, Bump(RecoverEdit(s, cancel, w).value.mapping.value);
            if cancel then CancelShape(m, n)
            else if m.pending.value.kind == NativeExecute then CloseShape(m, n)
            else VerifyShape(m, n)
  {
  }

  lemma RecoverShape(s: Owner, call: Call, w: World)
    requires call.Recover? && Attempt(s, call, w).Some?
    ensures s.mapping.Some? && CommitShape(s.mapping.value, Bump(Attempt(s, call, w).value.mapping.value), call)
  {
    assert Attempt(s, call, w) == RecoverEdit(s, call.cancel, w);
    RecoverEditShape(s, call.cancel, w);
  }

  /** Legacy authority carries no native admission. */
  predicate LegacyUnadmitted(m: Authority) { m.native || (m.acceptedUids.None? && m.nativeProcess.None?) }

  lemma ValidIsUnadmitted(m: Authority)
    requires ValidAuthority(m)
    ensures LegacyUnadmitted(m)
  {
  }

  lemma UpgradeEditShape(s: Owner)
    requires s.mapping.Some? && LegacyUnadmitted(s.mapping.value) && UpgradeEdit(s).Some?
    ensures UpgradeShape(s.mapping.value, Bump(UpgradeEdit(s).value.mapping.value))
  {
  }

  lemma UpgradeShapes(s: Owner, call: Call, w: World)
    requires call.Upgrade? && Attempt(s, call, w).Some? && s.mapping.Some? && LegacyUnadmitted(s.mapping.value)
    ensures UpgradeShape(s.mapping.value, Bump(Attempt(s, call, w).value.mapping.value))
  {
    UpgradeEditShape(s);
  }

  lemma ConfigureEditShape(s: Owner, candidate: Mapping, id: string, w: World)
    requires s.mapping.Some? && ConfigureEdit(s, candidate, id, w).Some? && ConfigureEdit(s, candidate, id, w).value != s
    ensures ConfigureShape(s.mapping.value, Bump(ConfigureEdit(s, candidate, id, w).value.mapping.value))
  {
  }

  lemma ConfigureShapes(s: Owner, call: Call, w: World)
    requires call.ConfigureMapping? && Attempt(s, call, w).Some? && Attempt(s, call, w).value != s && s.mapping.Some?
    ensures ConfigureShape(s.mapping.value, Bump(Attempt(s, call, w).value.mapping.value))
  {
    ConfigureEditShape(s, ValidateGeometry(call.candidate).value, call.id, w);
  }

  lemma PrepareShapes(s: Owner, call: Call, w: World)
    requires call.Prepare? && Attempt(s, call, w).Some?
    ensures s.mapping.Some? && PrepareShape(s.mapping.value, Bump(Attempt(s, call, w).value.mapping.value))
  {
  }

  lemma BeginShapes(s: Owner, call: Call, w: World)
    requires call.BeginEffects? && Attempt(s, call, w).Some?
    ensures s.mapping.Some? && BeginShape(s.mapping.value, Bump(Attempt(s, call, w).value.mapping.value))
  {
    assert Attempt(s, call, w) == BeginEdit(s, w);
  }

  lemma AdmissionShape(s: Owner, call: Call, w: World)
    requires call.Admit? && Attempt(s, call, w).Some?
    ensures s.mapping.Some? && AdmitShape(s.mapping.value, Bump(Attempt(s, call, w).value.mapping.value))
  {
    var m := s.mapping.value;
    var plan := PendingNativePlan(s, w).value;
    PlannedByWorld(s, plan, w);
    assert Bump(AdmitEdit(s, plan, w).value.mapping.value) == Admitted(m, plan);
  }

  lemma AttemptShape(s: Owner, call: Call, w: World)
    requires s.mapping.Some? && LegacyUnadmitted(s.mapping.value)
    requires Attempt(s, call, w).Some? && Attempt(s, call, w).value != s
    ensures CommitShape(s.mapping.value, Bump(Attempt(s, call, w).value.mapping.value), call)
  {
    if call.Admit? { AdmissionShape(s, call, w); }
    else if call.Recover? { RecoverShape(s, call, w); }
    else if call.BeginEffects? { BeginShapes(s, call, w); }
    else if call.Prepare? { PrepareShapes(s, call, w); }
    else if call.Upgrade? { UpgradeShapes(s, call, w); }
    else { ConfigureShapes(s, call, w); }
  }

  lemma FirstAttemptShape(s: Owner, call: Call, w: World)
    requires Attempt(s, call, w).Some? && s.mapping.None?
    ensures Attempt(s, call, w).value.mapping.Some? && call.ConfigureMapping?
    ensures FirstShape(Bump(Attempt(s, call, w).value.mapping.value))
  {
  }

  // ----- a step is a chain of links

  /** What one durable write of a call does; a recovered configuration also closes. */
  ghost predicate CommitStep(m: Authority, n: Authority, call: Call) {
    CommitShape(m, n, call) || (CommitsTwice(call) && CloseShape(m, n) && m.pending.value.phase == Verified)
  }

  ghost predicate Link(a: Owner, b: Owner, call: Call) {
    || a == b
    || (call.Elsewhere? && Rewritten(a.mapping, b.mapping))
    || (&& b == a.(mapping := b.mapping) && b.mapping.Some? && MayChange(a)
        && if a.mapping.None? then call.ConfigureMapping? && FirstShape(b.mapping.value)
           else CommitStep(a.mapping.value, b.mapping.value, call))
  }

  lemma EditLinks(s: Owner, edited: Owner, call: Call)
    requires MayChange(s) && edited == s.(mapping := edited.mapping) && edited.mapping.Some?
    requires if s.mapping.None? then call.ConfigureMapping? && FirstShape(Bump(edited.mapping.value))
             else CommitStep(s.mapping.value, Bump(edited.mapping.value), call)
    ensures Link(s, Bumped(edited), call)
  {
  }

  /** A change either leaves the durable state alone or replaces it by the whole edit. */
  lemma ChangeCases(durable: Owner, expected: Owner, held: bool, edited: Option<Owner>, commit: bool, write: Write)
    ensures var o := Change(durable, expected, held, edited, commit, write);
            && (o.durable == durable
                || (&& durable == expected && MayChange(durable) && edited.Some? && edited.value != durable
                    && o.durable == Bumped(edited.value) && ValidOwner(o.durable)))
            && (o.returned.Some? ==> durable == expected && edited.Some? && o.returned.value == o.durable
                                     && o.durable == if edited.value == durable then durable else Bumped(edited.value))
  {
  }

  /** The edit is new, based on the durable state, and acceptable. */
  predicate Committable(durable: Owner, expected: Owner, held: bool, edited: Option<Owner>, commit: bool) {
    && held && durable == expected && MayChange(durable) && edited.Some? && edited.value != durable
    && commit && ValidOwner(Bumped(edited.value))
  }

  /** A change replaces the state exactly when its edit is committable and the write takes
      effect, whatever is reported; and it returns a state exactly when that is the durable one
      for sure: nothing had to be written, or the write was reported as done. */
  lemma ChangeMeaning(durable: Owner, expected: Owner, held: bool, edited: Option<Owner>, commit: bool, write: Write)
    ensures var o := Change(durable, expected, held, edited, commit, write);
            && o.durable == (if Committable(durable, expected, held, edited, commit) && write != NotWritten
                             then Bumped(edited.value) else durable)
            && (o.returned.Some? <==>
                  || (Committable(durable, expected, held, edited, commit) && write == Written)
                  || (held && durable == expected && MayChange(durable) && edited == Some(durable)))
            && (o.returned.Some? ==> o.returned.value == o.durable)
  {
  }

  predicate Unadmitted(s: Owner) { s.mapping.Some? ==> LegacyUnadmitted(s.mapping.value) }

  lemma ValidOwnerIsUnadmitted(s: Owner)
    requires ValidOwner(s)
    ensures Unadmitted(s)
  {
    if s.mapping.Some? { ValidIsUnadmitted(s.mapping.value); }
  }

  lemma AttemptLinks(s: Owner, call: Call, w: World)
    requires Unadmitted(s) && MayChange(s) && Attempt(s, call, w).Some? && Attempt(s, call, w).value != s
    ensures Link(s, Bumped(Attempt(s, call, w).value), call)
  {
    OnlyTheMappingIsEdited(s, call, w);
    if s.mapping.Some? { AttemptShape(s, call, w); } else { FirstAttemptShape(s, call, w); }
    EditLinks(s, Attempt(s, call, w).value, call);
  }

  lemma CloseLinks(verified: Owner, call: Call)
    requires MayChange(verified) && CommitsTwice(call) && InVerified(verified) && CloseEdit(verified).Some?
    ensures Link(verified, Bumped(CloseEdit(verified).value), call)
  {
    var edited := CloseEdit(verified).value;
    assert CloseShape(verified.mapping.value, Bump(edited.mapping.value));
    EditLinks(verified, edited, call);
  }

  predicate InVerified(s: Owner) {
    s.mapping.Some? && s.mapping.value.pending.Some? && s.mapping.value.pending.value.phase == Verified
  }

  /** The first edit of a recovered configuration leaves it in the verified phase. */
  lemma RecoveredIsVerified(s: Owner, call: Call, w: World)
    requires CommitsTwice(call) && call.expected == s && Attempt(s, call, w).Some?
    ensures InVerified(Attempt(s, call, w).value)
  {
    assert Attempt(s, call, w) == RecoverEdit(s, false, w) == VerifyEdit(s, w);
  }

  lemma BumpedStaysVerified(s: Owner)
    requires InVerified(s)
    ensures InVerified(Bumped(s))
  {
  }

  lemma ClosingLinks(first: Outcome, call: Call, w: World)
    requires CommitsTwice(call) && ValidOwner(first.durable)
    requires first.returned.Some? ==> first.returned.value == first.durable && InVerified(first.durable)
    ensures ValidOwner(CloseVerified(first, w).durable) && Link(first.durable, CloseVerified(first, w).durable, call)
  {
    if first.returned.Some? {
      var verified := first.durable;
      var edited := CloseEdit(verified);
      ChangeCases(verified, verified, w.held, edited, w.commitAgain, w.writeAgain);
      if MayChange(verified) && edited.Some? { CloseLinks(verified, call); }
    }
  }

  /** Every step is at most two links through valid states, and one unless it commits twice. */
  lemma StepLinks(s: Owner, call: Call, w: World) returns (mid: Owner)
    requires ValidOwner(s)
    ensures ValidOwner(mid) && Link(s, mid, call)
    ensures ValidOwner(Step(s, call, w).durable) && Link(mid, Step(s, call, w).durable, call)
    ensures !CommitsTwice(call) ==> mid == Step(s, call, w).durable
  {
    if call.Elsewhere? {
      mid := Step(s, call, w).durable;
    } else {
      var edited := Attempt(call.expected, call, w);
      var first := Change(s, call.expected, w.held, edited, w.commit, w.write);
      mid := first.durable;
      ChangeCases(s, call.expected, w.held, edited, w.commit, w.write);
      ValidOwnerIsUnadmitted(s);
      if mid != s { AttemptLinks(s, call, w); }
      if CommitsTwice(call) {
        if first.returned.Some? {
          RecoveredIsVerified(s, call, w);
          BumpedStaysVerified(edited.value);
        }
        ClosingLinks(first, call, w);
      }
    }
  }
}
