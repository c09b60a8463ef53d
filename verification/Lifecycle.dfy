/**
 The authoritative lifecycle of one controlled session
 (internal/controlledsession/lifecycle.go).

 `Observed` and `Requested` give the meaning of one step as a function of the
 machine's value; class `Machine` updates its fields the way the Go code does and
 is proved to compute exactly those functions.
 */
module Lifecycle {
  import opened Common
  import opened SessionModel
  import opened Requests

  datatype State = Preparing | Active | Terminating | Terminated

  datatype Finish = Finish(
    workload: ProcessStatus,
    outputs: OutputStatus,
    controller: ControllerStatus,
    cleanup: CleanupStatus,
    recovery: Recovery)
  {
    predicate Valid() {
      && workload.Valid(true)
      && outputs.Valid()
      && controller.ValidTerminal()
      && ValidCleanup(cleanup, recovery)
    }
  }

  datatype ObservationKind =
    | Activated
    | WorkloadExit
    | HostCancel
    | ControllerGone
    | RuntimeObservationGone
    | CleanupContainmentGone
    | StartupFailing
    | OutputsFinalized
    | OutputsPublished
    | OutputFinalizationExpired
    | ControllerFinalizationExpired
    | Finished
    | ResultDelivered
    | OtherObservation(name: string)
  {
    predicate IsCause() {
      HostCancel? || ControllerGone? || RuntimeObservationGone? || CleanupContainmentGone? || StartupFailing?
    }
    predicate IsBarrier() {
      OutputsFinalized? || OutputsPublished? || OutputFinalizationExpired? || ControllerFinalizationExpired?
    }
    predicate IsProgress() { Activated? || WorkloadExit? || Finished? }
  }

  datatype Observation = Observation(
    kind: ObservationKind,
    workload: Option<ProcessStatus>,
    outputs: Option<OutputStatus>,
    outputPending: bool,
    reason: Text,
    finish: Option<Finish>)
  {
    /** No payload other than, possibly, a reason. */
    predicate ReasonOnly() { workload.None? && outputs.None? && finish.None? }
    predicate Bare() { ReasonOnly() && reason.Blank? }
  }

  /** The value of all fields of the machine. */
  datatype View = View(
    operations: seq<Operation>,
    state: State,
    activated: bool,
    cause: Cause,
    workload: ProcessStatus,
    outputs: OutputStatus,
    controller: ControllerStatus,
    runtime: RuntimeStatus,
    waitingOutputs: bool,
    waitingPublication: bool,
    waitingFinalize: bool,
    delivered: bool,
    acknowledged: bool,
    result: Option<SessionResult>)

  /** What the machine reports about one step. */
  datatype Transition = Transition(
    before: State,
    after: State,
    cause: Cause,
    causeLatched: bool,
    beginTermination: bool,
    outputs: OutputStatus,
    awaitingOutputs: bool,
    awaitingPublication: bool,
    awaitingController: bool,
    awaitingAcknowledgement: bool,
    requestAccepted: bool,
    resultAcknowledged: bool,
    result: Option<SessionResult>)

  datatype Verdict = Accepted | Discarded | Rejected
  datatype Outcome = Outcome(view: View, verdict: Verdict, transition: Transition)

  const UNKNOWN_PROCESS := ProcessStatus(Unknown, None, Blank)
  const UNSET_OUTPUTS := OutputStatus(Unset, Blank)
  const DRAINED := OutputStatus(Drained, Blank)
  const PRE_ACTIVATION_LOSS := Safe("runtime observation was lost before workload output finalization completed")

  function Initial(operations: seq<Operation>): View {
    View(operations, Preparing, false, NoCause, UNKNOWN_PROCESS, UNSET_OUTPUTS,
         ControllerStatus(ControllerUnknown, Blank), RuntimeStatus(Maintained, Blank),
         false, false, false, false, false, None)
  }

  // ----- transitions reported to the supervisor

  /** The report of a step that stopped before changing anything. */
  function Untouched(m: View): Transition {
    Transition(m.state, m.state, m.cause, false, false, UNSET_OUTPUTS,
               false, false, false, false, false, false, None)
  }

  function Report(m: View, n: View): Transition {
    var latched := m.cause == NoCause && n.cause != NoCause;
    Transition(m.state, n.state, n.cause, latched, latched, n.outputs,
               n.waitingOutputs, n.waitingPublication, n.waitingFinalize,
               n.delivered && !n.acknowledged, false, n.acknowledged, n.result)
  }

  // ----- observations

  function Latch(m: View, cause: Cause): View {
    if m.cause != NoCause then m
    else if m.state == Active then m.(cause := cause, state := Terminating, waitingOutputs := true)
    else m.(cause := cause, state := Terminating, outputs := DRAINED)
  }

  function CompleteOutputs(m: View, status: OutputStatus): View {
    m.(outputs := status, waitingOutputs := false,
       waitingPublication := m.controller.kind == ControllerActive, waitingFinalize := false)
  }

  function FailPreActivationOutputs(m: View, reason: Text): View {
    if m.activated || m.cause != ObservationLoss || m.outputs.kind != Drained then m
    else CompleteOutputs(m, OutputStatus(Failed, if reason.Blank? then PRE_ACTIVATION_LOSS else reason))
  }

  /** A later exit report is still welcome after a failed output closure. */
  predicate LateExitAllowed(m: View) {
    && m.activated && m.state == Terminating
    && m.workload.kind == Unknown && m.outputs.kind == Failed
  }

  predicate AcceptsWorkloadExit(m: View, o: Observation) {
    && o.workload.Some? && o.outputs.None? && o.reason.Blank? && o.finish.None?
    && (m.outputs.kind == Unset || LateExitAllowed(m))
    && m.state != Preparing
    && o.workload.value.Valid(false)
    && (m.workload.kind == Unknown || m.workload == o.workload.value)
  }

  predicate AcceptsStartupFailure(m: View, o: Observation) {
    && o.workload.None? && o.finish.None? && !(o.outputPending && o.outputs.Some?)
    && o.reason.Required()
    && (o.outputs.Some? ==> o.outputs.value.Valid())
    && m.controller.kind == ControllerUnknown
  }

  predicate AcceptsOutputsFinalized(m: View, o: Observation) {
    && o.workload.None? && o.outputs.Some? && o.reason.Blank? && o.finish.None? && m.waitingOutputs
    && (m.activated && m.workload.kind == Unknown ==>
          m.runtime.kind == ObservationLost && o.outputs.value.kind == Failed)
    && o.outputs.value.Valid()
    && !(m.runtime.kind == ObservationLost && o.outputs.value.kind == Drained)
  }

  predicate AcceptsOutputsPublished(m: View, o: Observation) {
    && o.Bare() && m.state == Terminating && !m.waitingOutputs
    && m.outputs.kind != Unset && m.waitingPublication
  }

  predicate ControllerMayFinish(m: View, status: ControllerStatus) {
    match m.controller.kind
    case Completed => status == m.controller
    case Lost => status == m.controller
    case TimedOut => status == m.controller
    case StartupFailed => status == m.controller
    case ControllerActive => status.kind == NotCompleted
    case ControllerUnknown => status.kind == NotCompleted
    case _ => false
  }

  function ResultOf(m: View, finish: Finish): SessionResult {
    SessionResult(m.cause, finish.workload, finish.outputs, m.runtime,
                  finish.controller, finish.cleanup, finish.recovery)
  }

  predicate AcceptsFinished(m: View, o: Observation) {
    && o.workload.None? && o.outputs.None? && o.reason.Blank? && o.finish.Some?
    && m.state == Terminating && !m.waitingOutputs && !m.waitingPublication
    && m.outputs.kind != Unset && !m.waitingFinalize
    && o.finish.value.Valid()
    && (m.workload.kind == Unknown || m.workload == o.finish.value.workload)
    && m.outputs == o.finish.value.outputs
    && ControllerMayFinish(m, o.finish.value.controller)
    && ResultOf(m, o.finish.value).Valid()
  }

  /** One observation of a machine that has not terminated; `None` is a rejection. */
  function ObserveLive(m: View, o: Observation): Option<View> {
    match o.kind
    case Activated =>
      if !o.Bare() || m.state != Preparing then None
      else Some(m.(state := Active, activated := true, controller := ControllerStatus(ControllerActive, Blank)))
    case WorkloadExit =>
      if !AcceptsWorkloadExit(m, o) then None
      else
        var n := m.(workload := o.workload.value);
        Some(if m.state == Active then Latch(n, WorkloadExited) else n)
    case HostCancel =>
      if !o.ReasonOnly() || !o.reason.Optional() then None else Some(Latch(m, HostCancelled))
    case ControllerGone =>
      if !o.ReasonOnly() || !o.reason.Optional() then None
      else
        var controller :=
          if m.controller.kind.ControllerUnknown? || m.controller.kind.ControllerActive?
          then ControllerStatus(Lost, o.reason)
          else m.controller;
        Some(Latch(m.(controller := controller, waitingFinalize := false, waitingPublication := false), ControllerLoss))
    case RuntimeObservationGone =>
      if !o.ReasonOnly() || !o.reason.Optional() then None
      else
        var runtime := if m.runtime.kind == ObservationLost then m.runtime else RuntimeStatus(ObservationLost, o.reason);
        Some(FailPreActivationOutputs(Latch(m.(runtime := runtime), ObservationLoss), o.reason))
    case CleanupContainmentGone =>
      if !o.ReasonOnly() || !o.reason.Optional() then None else Some(Latch(m, ContainmentLoss))
    case StartupFailing =>
      if !AcceptsStartupFailure(m, o) then None
      else
        var n := Latch(m.(controller := ControllerStatus(StartupFailed, o.reason)), StartupFailure);
        Some(if o.outputPending then n.(outputs := UNSET_OUTPUTS, waitingOutputs := true)
             else if o.outputs.Some? then CompleteOutputs(n, o.outputs.value)
             else n)
    case OutputsFinalized =>
      if !AcceptsOutputsFinalized(m, o) then None else Some(CompleteOutputs(m, o.outputs.value))
    case OutputsPublished =>
      if !AcceptsOutputsPublished(m, o) then None
      else Some(m.(waitingPublication := false,
                   waitingFinalize := m.controller.kind == ControllerActive && CompleteOperation in m.operations))
    case OutputFinalizationExpired =>
      if !o.ReasonOnly() || !m.waitingOutputs || !o.reason.Required() then None
      else Some(CompleteOutputs(m, OutputStatus(Failed, o.reason)))
    case ControllerFinalizationExpired =>
      if !o.Bare() || !m.waitingFinalize then None
      else Some(m.(waitingFinalize := false, controller := ControllerStatus(TimedOut, Blank)))
    case Finished =>
      if !AcceptsFinished(m, o) then None
      else
        var f := o.finish.value;
        Some(m.(workload := f.workload, controller := f.controller, result := Some(ResultOf(m, f)), state := Terminated))
    case ResultDelivered => None
    case OtherObservation(_) => None
  }

  function Observed(m: View, o: Observation): Outcome {
    if o.outputPending && o.kind != StartupFailing then Outcome(m, Rejected, Untouched(m))
    else if o.kind == ResultDelivered then
      if !o.Bare() || m.state != Terminated || m.result.None? then Outcome(m, Rejected, Untouched(m))
      else
        Outcome(m.(delivered := true), Accepted,
                Untouched(m).(awaitingAcknowledgement := !m.acknowledged,
                              resultAcknowledged := m.acknowledged, result := m.result))
    else if m.state == Terminated then Outcome(m, Rejected, Untouched(m))
    else
      match ObserveLive(m, o)
      case None => Outcome(m, Rejected, Untouched(m))
      case Some(n) => Outcome(n, Accepted, Report(m, n))
  }

  // ----- requests

  /** A granted, valid request other than an acknowledgement, while active or terminating. */
  function RequestLive(m: View, r: Request, discardTerminatingPTY: bool): (Verdict, View) {
    match m.state
    case Active =>
      if r.kind == Complete then (Rejected, m)
      else if r.kind == Terminate then (Accepted, Latch(m, ControllerTerminate))
      else (Accepted, m)
    case Terminating =>
      if r.kind == Input || r.kind == Resize then ((if discardTerminatingPTY then Discarded else Rejected), m)
      else if r.kind == Terminate then (Accepted, m)
      else if m.waitingOutputs || !m.waitingFinalize || m.controller.kind != ControllerActive then (Rejected, m)
      else (Accepted, m.(waitingFinalize := false, controller := ControllerStatus(Completed, Blank)))
    case _ => (Rejected, m)
  }

  function Requested(m: View, r: Request, discardTerminatingPTY: bool): Outcome {
    if !r.Valid() then Outcome(m, Rejected, Untouched(m))
    else if r.kind == AcknowledgeTerminated then
      if m.state != Terminated || m.result.None? || !m.delivered then Outcome(m, Rejected, Untouched(m))
      else
        Outcome(m.(acknowledged := true), Accepted,
                Untouched(m).(requestAccepted := true, resultAcknowledged := true, result := m.result))
    else if OperationFor(r.kind).value !in m.operations then Outcome(m, Rejected, Untouched(m))
    else
      var (verdict, n) := RequestLive(m, r, discardTerminatingPTY);
      Outcome(n, verdict,
              if verdict == Accepted then Report(m, n).(requestAccepted := true, result := None) else Untouched(m))
  }

  // ----- the mutable machine

  class Machine {
    const operations: seq<Operation>
    var state: State
    var activated: bool
    var cause: Cause
    var workload: ProcessStatus
    var outputs: OutputStatus
    var controller: ControllerStatus
    var runtime: RuntimeStatus
    var waitingOutputs: bool
    var waitingPublication: bool
    var waitingFinalize: bool
    var delivered: bool
    var acknowledged: bool
    var result: Option<SessionResult>

    function Value(): View
      reads this
    {
      View(operations, state, activated, cause, workload, outputs, controller, runtime,
           waitingOutputs, waitingPublication, waitingFinalize, delivered, acknowledged, result)
    }

    constructor (operations: seq<Operation>)
      ensures Value() == Initial(operations)
    {
      this.operations := operations;
      state, activated, cause := Preparing, false, NoCause;
      workload, outputs := UNKNOWN_PROCESS, UNSET_OUTPUTS;
      controller, runtime := ControllerStatus(ControllerUnknown, Blank), RuntimeStatus(Maintained, Blank);
      waitingOutputs, waitingPublication, waitingFinalize := false, false, false;
      delivered, acknowledged, result := false, false, None;
    }

    method LatchCause(why: Cause)
      modifies this
      ensures Value() == Latch(old(Value()), why)
    {
      if cause != NoCause { return; }
      cause := why;
      if state == Active { waitingOutputs := true; } else { outputs := DRAINED; }
      state := Terminating;
    }

    method RecordOutputs(status: OutputStatus)
      modifies this
      ensures Value() == CompleteOutputs(old(Value()), status)
    {
      outputs := status;
      waitingOutputs := false;
      waitingPublication := controller.kind == ControllerActive;
      waitingFinalize := false;
    }

    /** The arms of Go's switch that may latch a termination cause; false when rejected. */
    method ObserveCause(o: Observation) returns (ok: bool)
      requires o.kind.IsCause()
      modifies this
      ensures ok <==> ObserveLive(old(Value()), o).Some?
      ensures ok ==> Value() == ObserveLive(old(Value()), o).value
      ensures !ok ==> Value() == old(Value())
    {
      if o.kind == StartupFailing {
        ok := AcceptsStartupFailure(Value(), o);
        if ok { FailStartup(o); }
        return;
      }
      if !o.ReasonOnly() || !o.reason.Optional() { return false; }
      if o.kind == HostCancel {
        LatchCause(HostCancelled);
      } else if o.kind == ControllerGone {
        LoseController(o);
      } else if o.kind == CleanupContainmentGone {
        LatchCause(ContainmentLoss);
      } else {
        LoseObservation(o);
      }
      return true;
    }

    method LoseController(o: Observation)
      requires o.kind == ControllerGone && o.ReasonOnly() && o.reason.Optional()
      modifies this
      ensures ObserveLive(old(Value()), o) == Some(Value())
    {
      if (controller.kind.ControllerUnknown? || controller.kind.ControllerActive?) {
        controller := ControllerStatus(Lost, o.reason);
      }
      waitingFinalize, waitingPublication := false, false;
      LatchCause(ControllerLoss);
    }

    method LoseObservation(o: Observation)
      requires o.kind == RuntimeObservationGone && o.ReasonOnly() && o.reason.Optional()
      modifies this
      ensures ObserveLive(old(Value()), o) == Some(Value())
    {
      if runtime.kind != ObservationLost { runtime := RuntimeStatus(ObservationLost, o.reason); }
      LatchCause(ObservationLoss);
      if !activated && cause == ObservationLoss && outputs.kind == Drained {
        RecordOutputs(OutputStatus(Failed, if o.reason.Blank? then PRE_ACTIVATION_LOSS else o.reason));
      }
    }

    method FailStartup(o: Observation)
      requires o.kind == StartupFailing && AcceptsStartupFailure(Value(), o)
      modifies this
      ensures ObserveLive(old(Value()), o) == Some(Value())
    {
      controller := ControllerStatus(StartupFailed, o.reason);
      LatchCause(StartupFailure);
      if o.outputPending {
        outputs, waitingOutputs := UNSET_OUTPUTS, true;
      } else if o.outputs.Some? {
        RecordOutputs(o.outputs.value);
      }
    }

    /** The arms of Go's switch that move the output and controller barriers; false when rejected. */
    method ObserveBarrier(o: Observation) returns (ok: bool)
      requires o.kind.IsBarrier()
      modifies this
      ensures ok <==> ObserveLive(old(Value()), o).Some?
      ensures ok ==> Value() == ObserveLive(old(Value()), o).value
      ensures !ok ==> Value() == old(Value())
    {
      if o.kind == OutputsFinalized {
        if !AcceptsOutputsFinalized(Value(), o) { return false; }
        RecordOutputs(o.outputs.value);
      } else if o.kind == OutputsPublished {
        if !AcceptsOutputsPublished(Value(), o) { return false; }
        waitingPublication := false;
        waitingFinalize := controller.kind == ControllerActive && CompleteOperation in operations;
      } else if o.kind == OutputFinalizationExpired {
        if !o.ReasonOnly() || !waitingOutputs || !o.reason.Required() { return false; }
        RecordOutputs(OutputStatus(Failed, o.reason));
      } else {
        if !o.Bare() || !waitingFinalize { return false; }
        waitingFinalize, controller := false, ControllerStatus(TimedOut, Blank);
      }
      return true;
    }

    /** The arms of Go's switch that follow the workload itself; false when rejected. */
    method ObserveProgress(o: Observation) returns (ok: bool)
      requires o.kind.IsProgress()
      modifies this
      ensures ok <==> ObserveLive(old(Value()), o).Some?
      ensures ok ==> Value() == ObserveLive(old(Value()), o).value
      ensures !ok ==> Value() == old(Value())
    {
      if o.kind == Activated {
        if !o.Bare() || state != Preparing { return false; }
        state, activated, controller := Active, true, ControllerStatus(ControllerActive, Blank);
      } else if o.kind == WorkloadExit {
        if !AcceptsWorkloadExit(Value(), o) { return false; }
        workload := o.workload.value;
        if state == Active { LatchCause(WorkloadExited); }
      } else {
        if !AcceptsFinished(Value(), o) { return false; }
        EndWith(o);
      }
      return true;
    }

    method EndWith(o: Observation)
      requires o.kind == Finished && AcceptsFinished(Value(), o)
      modifies this
      ensures ObserveLive(old(Value()), o) == Some(Value())
    {
      var r := ResultOf(Value(), o.finish.value);
      workload, controller := r.workload, r.controller;
      result, state := Some(r), Terminated;
    }

    /** The whole switch in Go's `Observe`: false when the observation is rejected. */
    method ObserveStep(o: Observation) returns (ok: bool)
      modifies this
      ensures ok <==> ObserveLive(old(Value()), o).Some?
      ensures ok ==> Value() == ObserveLive(old(Value()), o).value
      ensures !ok ==> Value() == old(Value())
    {
      if o.kind.IsProgress() {
        ok := ObserveProgress(o);
      } else if o.kind.IsBarrier() {
        ok := ObserveBarrier(o);
      } else if o.kind == ResultDelivered || o.kind.OtherObservation? {
        ok := false;
      } else {
        ok := ObserveCause(o);
      }
    }

    method Observe(o: Observation) returns (ok: bool, transition: Transition)
      modifies this
      ensures var expected := Observed(old(Value()), o);
              && Value() == expected.view
              && transition == expected.transition
              && ok == (expected.verdict == Accepted)
    {
      var before := Value();
      transition := Untouched(before);
      if o.outputPending && o.kind != StartupFailing { return false, transition; }
      if o.kind == ResultDelivered {
        if !o.Bare() || state != Terminated || result.None? { return false, transition; }
        delivered := true;
        transition := transition.(awaitingAcknowledgement := !acknowledged,
                                  resultAcknowledged := acknowledged, result := result);
        return true, transition;
      }
      if state == Terminated { return false, transition; }
      ok := ObserveStep(o);
      if ok { transition := Report(before, Value()); }
    }

    method ApplyRequest(r: Request, discardTerminatingPTY: bool) returns (verdict: Verdict, transition: Transition)
      modifies this
      ensures var expected := Requested(old(Value()), r, discardTerminatingPTY);
              && Value() == expected.view
              && transition == expected.transition
              && verdict == expected.verdict
    {
      var before := Value();
      transition := Untouched(before);
      if !r.Valid() { return Rejected, transition; }
      if r.kind == AcknowledgeTerminated {
        if state != Terminated || result.None? || !delivered { return Rejected, transition; }
        acknowledged := true;
        return Accepted, transition.(requestAccepted := true, resultAcknowledged := true, result := result);
      }
      if OperationFor(r.kind).value !in operations { return Rejected, transition; }
      verdict := GrantedRequest(r, discardTerminatingPTY);
      if verdict == Accepted { transition := Report(before, Value()).(requestAccepted := true, result := None); }
    }

    /** The state switch of Go's `applyRequestV1`. */
    method GrantedRequest(r: Request, discardTerminatingPTY: bool) returns (verdict: Verdict)
      requires r.Valid() && r.kind != AcknowledgeTerminated
      modifies this
      ensures (verdict, Value()) == RequestLive(old(Value()), r, discardTerminatingPTY)
    {
      match state {
        case Active =>
          if r.kind == Complete { return Rejected; }
          if r.kind == Terminate { LatchCause(ControllerTerminate); }
        case Terminating =>
          if r.kind == Input || r.kind == Resize {
            return if discardTerminatingPTY then Discarded else Rejected;
          }
          if r.kind == Complete {
            if waitingOutputs || !waitingFinalize || controller.kind != ControllerActive { return Rejected; }
            waitingFinalize, controller := false, ControllerStatus(Completed, Blank);
          }
        case Preparing => return Rejected;
        case Terminated => return Rejected;
      }
      return Accepted;
    }
  }
}
