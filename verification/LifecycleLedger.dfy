/**
 The lifecycle told by its history: every field of a reachable machine, and which step it
 accepts next, follow from a short ledger of the steps accepted so far, by their kinds.
 */
module LifecycleLedger {
  import opened Common
  import opened SessionModel
  import opened Requests
  import opened Lifecycle
  import opened LifecycleRuns

  // ----- the ledger

  datatype Ledger = Ledger(
    activated: bool,
    cause: Cause,                        // named by the first step that names one
    exit: Option<ProcessStatus>,         // the first exit report
    loss: Option<Text>,                  // the reason of the first observation loss
    settled: Option<ControllerStatus>,   // the first end of the controller's part
    outputs: OutputStatus,               // the latest output status
    closed: bool,                        // outputs were finalized for an active controller
    published: bool,
    finish: Option<Finish>,
    delivered: bool,
    acknowledged: bool)

  function EmptyLedger(): Ledger {
    Ledger(false, NoCause, None, None, None, UNSET_OUTPUTS, false, false, None, false, false)
  }

  /** A cause before activation means that there are no outputs to wait for. */
  function Naming(l: Ledger, cause: Cause): Ledger {
    if l.cause != NoCause then l
    else if l.activated then l.(cause := cause)
    else l.(cause := cause, outputs := DRAINED)
  }

  function Settling(l: Ledger, status: ControllerStatus): Ledger {
    if l.settled.Some? then l else l.(settled := Some(status))
  }

  function Closing(l: Ledger, status: OutputStatus): Ledger {
    l.(outputs := status, closed := l.activated && l.settled.None?)
  }

  /** Losing the view of a session that never ran fails its outputs. */
  function LosingOutputs(l: Ledger, reason: Text): Ledger {
    if l.activated || l.cause != ObservationLoss || l.outputs.kind != Drained then l
    else l.(outputs := OutputStatus(Failed, if reason.Blank? then PRE_ACTIVATION_LOSS else reason))
  }

  function EnterSeen(l: Ledger, o: Observation): Ledger {
    match o.kind
    case Activated => l.(activated := true)
    case WorkloadExit => Naming(l.(exit := if l.exit.Some? then l.exit else o.workload), WorkloadExited)
    case HostCancel => Naming(l, HostCancelled)
    case ControllerGone => Naming(Settling(l, ControllerStatus(Lost, o.reason)), ControllerLoss)
    case RuntimeObservationGone =>
      LosingOutputs(Naming(l.(loss := if l.loss.Some? then l.loss else Some(o.reason)), ObservationLoss), o.reason)
    case CleanupContainmentGone => Naming(l, ContainmentLoss)
    case StartupFailing =>
      var failed := Naming(Settling(l, ControllerStatus(StartupFailed, o.reason)), StartupFailure);
      if o.outputPending then failed.(outputs := UNSET_OUTPUTS)
      else if o.outputs.Some? then failed.(outputs := o.outputs.value)
      else failed
    case OutputsFinalized => if o.outputs.Some? then Closing(l, o.outputs.value) else l
    case OutputFinalizationExpired => Closing(l, OutputStatus(Failed, o.reason))
    case OutputsPublished => l.(published := true)
    case ControllerFinalizationExpired => Settling(l, ControllerStatus(TimedOut, Blank))
    case Finished => l.(finish := o.finish)
    case ResultDelivered => l.(delivered := true)
    case OtherObservation(_) => l
  }

  function EnterAsked(l: Ledger, r: Request): Ledger {
    match r.kind
    case Terminate => Naming(l, ControllerTerminate)
    case Complete => Settling(l, ControllerStatus(Completed, Blank))
    case AcknowledgeTerminated => l.(acknowledged := true)
    case _ => l
  }

  function Enter(l: Ledger, step: Step): Ledger {
    if step.Saw? then EnterSeen(l, step.observation) else EnterAsked(l, step.request)
  }

  function Book(h: seq<Step>): Ledger {
    if h == [] then EmptyLedger() else Enter(Book(h[..|h| - 1]), h[|h| - 1])
  }

  // ----- the fields, read off the ledger

  function StateOf(l: Ledger): State {
    if l.finish.Some? then Terminated
    else if l.cause != NoCause then Terminating
    else if l.activated then Active
    else Preparing
  }

  function WorkloadOf(l: Ledger): ProcessStatus {
    if l.finish.Some? then l.finish.value.workload else if l.exit.Some? then l.exit.value else UNKNOWN_PROCESS
  }

  function ControllerOf(l: Ledger): ControllerStatus {
    if l.finish.Some? then l.finish.value.controller
    else if l.settled.Some? then l.settled.value
    else ControllerStatus(if l.activated then ControllerActive else ControllerUnknown, Blank)
  }

  function RuntimeOf(l: Ledger): RuntimeStatus {
    if l.loss.Some? then RuntimeStatus(ObservationLost, l.loss.value) else RuntimeStatus(Maintained, Blank)
  }

  predicate AwaitsOutputs(l: Ledger) { StateOf(l) == Terminating && l.outputs.kind == Unset }
  predicate AwaitsPublication(l: Ledger) { StateOf(l) == Terminating && l.closed && !l.published && l.settled.None? }
  predicate AwaitsController(l: Ledger, operations: seq<Operation>) {
    StateOf(l) == Terminating && l.published && l.settled.None? && CompleteOperation in operations
  }

  function ResultIs(l: Ledger): Option<SessionResult> {
    if l.finish.None? then None
    else
      var f := l.finish.value;
      Some(SessionResult(l.cause, f.workload, f.outputs, RuntimeOf(l), f.controller, f.cleanup, f.recovery))
  }

  function ViewOf(operations: seq<Operation>, l: Ledger): View {
    View(operations, StateOf(l), l.activated, l.cause, WorkloadOf(l), l.outputs, ControllerOf(l), RuntimeOf(l),
         AwaitsOutputs(l), AwaitsPublication(l), AwaitsController(l, operations), l.delivered, l.acknowledged, ResultIs(l))
  }

  // ----- the next step it accepts

  predicate Live(l: Ledger) { l.finish.None? }

  predicate WelcomesExit(l: Ledger, o: Observation) {
    && o.workload.Some? && o.outputs.None? && o.reason.Blank? && o.finish.None? && o.workload.value.Valid(false)
    && StateOf(l) != Preparing && Live(l)
    && (l.exit.None? || l.exit == o.workload)
    && (l.outputs.kind == Unset
        || (l.activated && StateOf(l) == Terminating && l.exit.None? && l.outputs.kind == Failed))
  }

  predicate WelcomesStartupFailure(l: Ledger, o: Observation) {
    && Live(l) && !l.activated && l.settled.None?
    && o.workload.None? && o.finish.None? && !(o.outputPending && o.outputs.Some?)
    && o.reason.Required() && (o.outputs.Some? ==> o.outputs.value.Valid())
  }

  /** An activated workload without an exit report may only have failed outputs, and only
      after the view of it was lost; after a loss outputs never count as drained. */
  predicate WelcomesOutputs(l: Ledger, o: Observation) {
    && AwaitsOutputs(l) && o.workload.None? && o.outputs.Some? && o.reason.Blank? && o.finish.None?
    && o.outputs.value.Valid()
    && (l.loss.Some? ==> o.outputs.value.kind == Failed)
    && (l.activated && l.exit.None? ==> l.loss.Some?)
  }

  predicate WelcomesFinish(l: Ledger, operations: seq<Operation>, o: Observation) {
    && o.workload.None? && o.outputs.None? && o.reason.Blank? && o.finish.Some? && o.finish.value.Valid()
    && StateOf(l) == Terminating && !AwaitsOutputs(l) && !AwaitsPublication(l) && !AwaitsController(l, operations)
    && var f := o.finish.value;
       && f.outputs == l.outputs && (l.exit.Some? ==> f.workload == l.exit.value)
       && (if l.settled.Some? then f.controller == l.settled.value else f.controller.kind == NotCompleted)
       && (l.cause == ObservationLoss ==> l.outputs.kind == Failed)
  }

  predicate WelcomesSeen(l: Ledger, operations: seq<Operation>, o: Observation) {
    && (o.outputPending ==> o.kind == StartupFailing)
    && match o.kind
       case Activated => o.Bare() && StateOf(l) == Preparing
       case WorkloadExit => WelcomesExit(l, o)
       case StartupFailing => WelcomesStartupFailure(l, o)
       case OutputsFinalized => WelcomesOutputs(l, o)
       case OutputsPublished => o.Bare() && AwaitsPublication(l)
       case OutputFinalizationExpired => o.ReasonOnly() && o.reason.Required() && AwaitsOutputs(l)
       case ControllerFinalizationExpired => o.Bare() && AwaitsController(l, operations)
       case Finished => WelcomesFinish(l, operations, o)
       case ResultDelivered => o.Bare() && !Live(l)
       case OtherObservation(_) => false
       case _ => o.ReasonOnly() && o.reason.Optional() && Live(l)
  }

  predicate Granted(operations: seq<Operation>, r: Request) {
    r.Valid() && OperationFor(r.kind).Some? && OperationFor(r.kind).value in operations
  }

  predicate WelcomesAsked(l: Ledger, operations: seq<Operation>, r: Request) {
    match r.kind
    case AcknowledgeTerminated => r.Valid() && !Live(l) && l.delivered
    case Complete => Granted(operations, r) && AwaitsController(l, operations)
    case Terminate => Granted(operations, r) && (StateOf(l) == Active || StateOf(l) == Terminating)
    case _ => Granted(operations, r) && StateOf(l) == Active
  }

  predicate Welcomes(l: Ledger, operations: seq<Operation>, step: Step) {
    if step.Saw? then WelcomesSeen(l, operations, step.observation) else WelcomesAsked(l, operations, step.request)
  }

  /** Terminal input that lost the race with termination. */
  predicate Loses(l: Ledger, operations: seq<Operation>, step: Step) {
    && step.Asked? && step.discardTerminatingPTY && (step.request.kind == Input || step.request.kind == Resize)
    && Granted(operations, step.request) && StateOf(l) == Terminating
  }

  // ----- the machine keeps to its ledger

  /** What the entries say about each other. */
  predicate Sound(l: Ledger) {
    && (l.exit.Some? ==> l.exit.value.Valid(false))
    && (l.settled.Some? ==>
          var kind := l.settled.value.kind;
          if l.activated then kind == Completed || kind == Lost || kind == TimedOut
          else kind == StartupFailed || kind == Lost)
    && (l.finish.Some? ==> l.cause != NoCause)
    && (l.cause == NoCause ==> l.exit.None? && l.loss.None? && l.settled.None? && l.outputs == UNSET_OUTPUTS && !l.closed)
    && (l.published ==> l.closed) && (l.closed ==> l.activated && l.outputs.kind != Unset)
    && (l.activated && l.outputs.kind != Unset && l.settled.None? ==> l.closed)
  }

  predicate KeepsTo(m: View, l: Ledger) { Invariant(m) && Sound(l) && m == ViewOf(m.operations, l) }

  /** One step as the ledger has it. */
  predicate FollowsLedger(m: View, l: Ledger, step: Step) {
    && var out := Apply(m, step);
       && (out.verdict == Accepted <==> Welcomes(l, m.operations, step))
       && (out.verdict == Discarded <==> Loses(l, m.operations, step))
       && (out.verdict == Accepted ==> Sound(Enter(l, step)) && out.view == ViewOf(m.operations, Enter(l, step)))
       && (out.verdict != Accepted ==> out.view == m)
  }

  lemma CauseFollows(m: View, l: Ledger, o: Observation)
    requires KeepsTo(m, l) && (o.kind.HostCancel? || o.kind.CleanupContainmentGone? || o.kind.ControllerGone?)
    ensures FollowsLedger(m, l, Saw(o))
  {
  }

  lemma LossFollows(m: View, l: Ledger, o: Observation)
    requires KeepsTo(m, l) && o.kind.RuntimeObservationGone?
    ensures FollowsLedger(m, l, Saw(o))
  {
  }

  lemma StartupFollows(m: View, l: Ledger, o: Observation)
    requires KeepsTo(m, l) && o.kind.StartupFailing?
    ensures FollowsLedger(m, l, Saw(o))
  {
  }

  lemma BarrierFollows(m: View, l: Ledger, o: Observation)
    requires KeepsTo(m, l) && (o.kind.OutputsPublished? || o.kind.ControllerFinalizationExpired?)
    ensures FollowsLedger(m, l, Saw(o))
  {
  }

  lemma OutputsFollow(m: View, l: Ledger, o: Observation)
    requires KeepsTo(m, l) && (o.kind.OutputsFinalized? || o.kind.OutputFinalizationExpired?)
    ensures FollowsLedger(m, l, Saw(o))
  {
  }

  lemma ExitFollows(m: View, l: Ledger, o: Observation)
    requires KeepsTo(m, l) && o.kind.WorkloadExit?
    ensures FollowsLedger(m, l, Saw(o))
  {
  }

  lemma FinishFollows(m: View, l: Ledger, o: Observation)
    requires KeepsTo(m, l) && o.kind.Finished?
    ensures FollowsLedger(m, l, Saw(o))
  {
  }

  lemma RestFollows(m: View, l: Ledger, o: Observation)
    requires KeepsTo(m, l) && (o.kind.Activated? || o.kind.ResultDelivered? || o.kind.OtherObservation?)
    ensures FollowsLedger(m, l, Saw(o))
  {
  }

  lemma AcknowledgementFollows(m: View, l: Ledger, r: Request, discard: bool)
    requires KeepsTo(m, l) && r.kind == AcknowledgeTerminated
    ensures FollowsLedger(m, l, Asked(r, discard))
  {
  }

  lemma EndingFollows(m: View, l: Ledger, r: Request, discard: bool)
    requires KeepsTo(m, l) && (r.kind == Terminate || r.kind == Complete)
    ensures FollowsLedger(m, l, Asked(r, discard))
  {
  }

  lemma TypingFollows(m: View, l: Ledger, r: Request, discard: bool)
    requires KeepsTo(m, l) && r.kind != Terminate && r.kind != Complete && r.kind != AcknowledgeTerminated
    ensures FollowsLedger(m, l, Asked(r, discard))
  {
  }

  lemma RequestFollows(m: View, l: Ledger, r: Request, discard: bool)
    requires KeepsTo(m, l)
    ensures FollowsLedger(m, l, Asked(r, discard))
  {
    if r.kind == AcknowledgeTerminated { AcknowledgementFollows(m, l, r, discard); }
    else if r.kind == Terminate || r.kind == Complete { EndingFollows(m, l, r, discard); }
    else { TypingFollows(m, l, r, discard); }
  }

  lemma SeenFollows(m: View, l: Ledger, o: Observation)
    requires KeepsTo(m, l)
    ensures FollowsLedger(m, l, Saw(o))
  {
    match o.kind
    case WorkloadExit => ExitFollows(m, l, o);
    case RuntimeObservationGone => LossFollows(m, l, o);
    case StartupFailing => StartupFollows(m, l, o);
    case OutputsFinalized => OutputsFollow(m, l, o);
    case OutputFinalizationExpired => OutputsFollow(m, l, o);
    case OutputsPublished => BarrierFollows(m, l, o);
    case ControllerFinalizationExpired => BarrierFollows(m, l, o);
    case Finished => FinishFollows(m, l, o);
    case Activated => RestFollows(m, l, o);
    case ResultDelivered => RestFollows(m, l, o);
    case OtherObservation(_) => RestFollows(m, l, o);
    case _ => CauseFollows(m, l, o);
  }

  lemma StepFollows(m: View, l: Ledger, step: Step)
    requires KeepsTo(m, l)
    ensures FollowsLedger(m, l, step)
  {
    match step
    case Saw(o) => SeenFollows(m, l, o);
    case Asked(r, discard) => RequestFollows(m, l, r, discard);
  }

  // ----- over whole runs

  /** The steps of a run that were accepted, in order. */
  function AcceptedSteps(operations: seq<Operation>, steps: seq<Step>): seq<Step> {
    if steps == [] then []
    else
      var last := |steps| - 1;
      AcceptedSteps(operations, steps[..last])
      + if Apply(Run(operations, steps[..last]), steps[last]).verdict == Accepted then [steps[last]] else []
  }

  function LedgerOf(operations: seq<Operation>, steps: seq<Step>): Ledger { Book(AcceptedSteps(operations, steps)) }

  lemma BookMore(h: seq<Step>, more: seq<Step>)
    requires |more| <= 1
    ensures Book(h + more) == if more == [] then Book(h) else Enter(Book(h), more[0])
  {
    if more == [] { assert h + more == h; } else { assert (h + more)[..|h|] == h; }
  }

  lemma KeepsOn(m: View, l: Ledger, step: Step)
    requires KeepsTo(m, l)
    ensures KeepsTo(Apply(m, step).view, if Apply(m, step).verdict == Accepted then Enter(l, step) else l)
  {
    StepFollows(m, l, step);
    StepKeepsInvariant(m, step);
  }

  lemma {:induction false} EveryRunKeepsToItsLedger(operations: seq<Operation>, steps: seq<Step>)
    ensures KeepsTo(Run(operations, steps), LedgerOf(operations, steps)) && Run(operations, steps).operations == operations
  {
    if steps != [] {
      var last := |steps| - 1;
      var m, step := Run(operations, steps[..last]), steps[last];
      EveryRunKeepsToItsLedger(operations, steps[..last]);
      KeepsOn(m, LedgerOf(operations, steps[..last]), step);
      EveryRunKeepsInvariant(operations, steps);
      BookMore(AcceptedSteps(operations, steps[..last]), if Apply(m, step).verdict == Accepted then [step] else []);
    }
  }

  /** In every run all fields, and the fate of any further step, follow from the accepted
      steps so far and their kinds. */
  lemma RunIsItsLedger(operations: seq<Operation>, steps: seq<Step>, step: Step)
    ensures var m, l := Run(operations, steps), LedgerOf(operations, steps);
            && m == ViewOf(operations, l)
            && (Apply(m, step).verdict == Accepted <==> Welcomes(l, operations, step))
            && (Apply(m, step).verdict == Discarded <==> Loses(l, operations, step))
  {
    EveryRunKeepsToItsLedger(operations, steps);
    StepFollows(Run(operations, steps), LedgerOf(operations, steps), step);
  }

  // ----- the cause

  /** The cause a step names, by its kind. */
  function Named(step: Step): Cause {
    match step
    case Saw(o) => (
      match o.kind
      case WorkloadExit => WorkloadExited
      case HostCancel => HostCancelled
      case ControllerGone => ControllerLoss
      case RuntimeObservationGone => ObservationLoss
      case CleanupContainmentGone => ContainmentLoss
      case StartupFailing => StartupFailure
      case _ => NoCause)
    case Asked(r, _) => if r.kind == Terminate then ControllerTerminate else NoCause
  }

  /** The cause named by the first step that names one. */
  function FirstNamed(h: seq<Step>): Cause {
    if h == [] then NoCause
    else
      var earlier := FirstNamed(h[..|h| - 1]);
      if earlier != NoCause then earlier else Named(h[|h| - 1])
  }

  function FirstOf(earlier: Cause, later: Cause): Cause { if earlier != NoCause then earlier else later }

  lemma AskedNames(l: Ledger, r: Request, discard: bool)
    ensures EnterAsked(l, r).cause == FirstOf(l.cause, Named(Asked(r, discard)))
  {
  }

  lemma PlainNames(l: Ledger, o: Observation)
    requires o.kind.HostCancel? || o.kind.CleanupContainmentGone?
    ensures EnterSeen(l, o).cause == FirstOf(l.cause, Named(Saw(o)))
  {
  }

  lemma GoneNames(l: Ledger, o: Observation)
    requires o.kind.ControllerGone?
    ensures EnterSeen(l, o).cause == FirstOf(l.cause, Named(Saw(o)))
  {
  }

  lemma LossNames(l: Ledger, o: Observation)
    requires o.kind.RuntimeObservationGone?
    ensures EnterSeen(l, o).cause == FirstOf(l.cause, Named(Saw(o)))
  {
    var named := Naming(l.(loss := if l.loss.Some? then l.loss else Some(o.reason)), ObservationLoss);
    assert EnterSeen(l, o) == LosingOutputs(named, o.reason);
    assert LosingOutputs(named, o.reason).cause == named.cause;
  }

  lemma StartNames(l: Ledger, o: Observation)
    requires o.kind.StartupFailing? || o.kind.WorkloadExit?
    ensures EnterSeen(l, o).cause == FirstOf(l.cause, Named(Saw(o)))
  {
  }

  lemma OthersNameNothing(l: Ledger, o: Observation)
    requires !o.kind.IsCause() && !o.kind.WorkloadExit?
    ensures EnterSeen(l, o).cause == l.cause && Named(Saw(o)) == NoCause
  {
  }

  lemma EnterNames(l: Ledger, step: Step)
    ensures Enter(l, step).cause == FirstOf(l.cause, Named(step))
  {
    match step
    case Asked(r, discard) => AskedNames(l, r, discard);
    case Saw(o) =>
      if o.kind.StartupFailing? || o.kind.WorkloadExit? { StartNames(l, o); }
      else if o.kind.RuntimeObservationGone? { LossNames(l, o); }
      else if o.kind.ControllerGone? { GoneNames(l, o); }
      else if o.kind.IsCause() { PlainNames(l, o); }
      else { OthersNameNothing(l, o); }
  }

  lemma {:induction false} BookedCause(h: seq<Step>)
    ensures Book(h).cause == FirstNamed(h)
  {
    if h != [] {
      var l, step := Book(h[..|h| - 1]), h[|h| - 1];
      BookedCause(h[..|h| - 1]);
      EnterNames(l, step);
      assert Book(h) == Enter(l, step);
    }
  }

  /** The cause of every run is the one its first accepted cause-naming step names. */
  lemma CauseIsFirstNamed(operations: seq<Operation>, steps: seq<Step>)
    ensures Run(operations, steps).cause == FirstNamed(AcceptedSteps(operations, steps))
  {
    EveryRunKeepsToItsLedger(operations, steps);
    BookedCause(AcceptedSteps(operations, steps));
  }

  // ----- what is reported

  /** What a report `t` of a step says about the machine before and after it. */
  predicate Reports(m: View, n: View, t: Transition, accepted: bool, asked: bool) {
    && t.before == m.state && t.after == n.state && t.cause == n.cause
    && (t.causeLatched <==> m.cause == NoCause && n.cause != NoCause) && t.beginTermination == t.causeLatched
    && (t.awaitingOutputs <==> accepted && n.waitingOutputs)
    && (t.awaitingPublication <==> accepted && n.waitingPublication)
    && (t.awaitingController <==> accepted && n.waitingFinalize)
    && (t.requestAccepted <==> accepted && asked)
    && (t.resultAcknowledged <==> accepted && n.acknowledged)
    && (t.awaitingAcknowledgement <==> accepted && n.delivered && !n.acknowledged)
    && t.outputs == (if accepted && m.state != Terminated then n.outputs else UNSET_OUTPUTS)
    && t.result == (if accepted && (!asked || m.state == Terminated) then n.result else None)
  }

  lemma LiveReport(m: View, n: View)
    requires Invariant(m) && Invariant(n) && m.state != Terminated
    ensures Reports(m, n, Report(m, n), true, false)
  {
  }

  lemma SeenReport(m: View, o: Observation)
    requires Invariant(m)
    ensures Reports(m, Observed(m, o).view, Observed(m, o).transition, Observed(m, o).verdict == Accepted, false)
  {
    ObservationKeepsInvariant(m, o);
    if m.state != Terminated && ObserveLive(m, o).Some? && (o.outputPending ==> o.kind == StartupFailing) {
      LiveReport(m, ObserveLive(m, o).value);
    }
  }

  lemma AskedReport(m: View, r: Request, discard: bool)
    requires Invariant(m)
    ensures Reports(m, Requested(m, r, discard).view, Requested(m, r, discard).transition,
                    Requested(m, r, discard).verdict == Accepted, true)
  {
    RequestKeepsInvariant(m, r, discard);
  }

  /** In every run each report says exactly what the step changed and what is awaited after it. */
  lemma TransitionMeaning(operations: seq<Operation>, steps: seq<Step>, step: Step)
    ensures var m := Run(operations, steps);
            Reports(m, Run(operations, steps + [step]), Apply(m, step).transition, Apply(m, step).verdict == Accepted,
                    step.Asked?)
  {
    EveryRunKeepsInvariant(operations, steps);
    Extend(operations, steps, step);
    match step
    case Saw(o) => SeenReport(Run(operations, steps), o);
    case Asked(r, discard) => AskedReport(Run(operations, steps), r, discard);
  }

  // ----- the result

  /** The result a controller is shown is a true account of the run behind it. */
  lemma ResultTellsTheTruth(operations: seq<Operation>, steps: seq<Step>)
    requires Run(operations, steps).result.Some?
    ensures var m := Run(operations, steps);
            var r, history := m.result.value, History(operations, steps);
            && m.state == Terminated && r.Valid() && InOrder([DidFinish], history)
            && r.cause == FirstNamed(AcceptedSteps(operations, steps)) != NoCause
            && r.runtime == RuntimeOf(LedgerOf(operations, steps))
            && (r.controller.kind == Completed ==>
                  CompleteOperation in operations
                  && InOrder([DidActivate, DidRecordOutputs(r.outputs), DidPublish, DidComplete], history))
            && (m.activated && r.outputs.kind == Drained ==>
                  r.workload.Known()
                  && InOrder([DidActivate, DidExit(r.workload), DidRecordOutputs(r.outputs)], history))
            && (m.delivered ==> InOrder([DidFinish, DidDeliver], history))
            && (m.acknowledged ==> m.delivered && InOrder([DidFinish, DidDeliver, DidAcknowledge], history))
  {
    EveryRunIsTruthful(operations, steps);
    EveryRunKeepsToItsLedger(operations, steps);
    CauseIsFirstNamed(operations, steps);
    EveryRunKeepsInvariant(operations, steps);
  }
}
