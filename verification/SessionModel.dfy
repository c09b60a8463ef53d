/**
 The statuses a controlled session reports and the validators that guard them
 (internal/controlledsession/model.go).
 */
module SessionModel {
  import opened Common

  /** A Go string together with the verdict of the safe-text check on it. */
  datatype Text = Blank | Safe(text: string) | Unsafe(text: string) {
    predicate Optional() { !Unsafe? }
    predicate Required() { Safe? }
  }

  /** `NoCause` stands for the empty (or any unsupported) cause string. */
  datatype Cause =
    | NoCause
    | ControllerTerminate
    | WorkloadExited
    | HostCancelled
    | ControllerLoss
    | ObservationLoss
    | ContainmentLoss
    | StartupFailure

  datatype ProcessKind = Unknown | Exited | Killed | Unavailable | OtherProcess(name: string)

  datatype ProcessStatus = ProcessStatus(kind: ProcessKind, code: Option<int>, reason: Text) {
    predicate Known() { kind != Unknown }

    predicate Valid(allowUnknown: bool) {
      && reason.Optional()
      && match kind
         case Unknown => allowUnknown && code.None? && reason.Blank?
         case Exited => code.Some?
         case Killed => code.None?
         case Unavailable => code.None?
         case OtherProcess(_) => false
    }
  }

  datatype ControllerKind =
    | ControllerUnknown | ControllerActive | Completed | Lost | TimedOut | NotCompleted | StartupFailed
    | OtherController(name: string)

  datatype ControllerStatus = ControllerStatus(kind: ControllerKind, reason: Text) {
    predicate ValidTerminal() {
      && (kind.Completed? || kind.Lost? || kind.TimedOut? || kind.NotCompleted? || kind.StartupFailed?)
      && reason.Optional()
    }
  }

  /** `Unset` is the empty kind: no output status has been recorded yet. */
  datatype OutputKind = Unset | Drained | Failed | OtherOutput(name: string)

  datatype OutputStatus = OutputStatus(kind: OutputKind, reason: Text) {
    predicate Valid() {
      (kind == Drained && reason.Blank?) || (kind == Failed && reason.Required())
    }
  }

  datatype RuntimeKind = Maintained | ObservationLost | OtherRuntime(name: string)

  datatype RuntimeStatus = RuntimeStatus(kind: RuntimeKind, reason: Text) {
    predicate Valid() {
      (kind == Maintained && reason.Blank?) || (kind == ObservationLost && reason.Optional())
    }
  }

  datatype CleanupKind = CleanupSucceeded | CleanupFailed | OtherCleanup(name: string)
  datatype CleanupStatus = CleanupStatus(kind: CleanupKind, message: Text)
  datatype Recovery = NoRecovery | RetryCleanup | ReconcileNext | OtherRecovery(name: string)

  predicate ValidCleanup(status: CleanupStatus, recovery: Recovery) {
    match status.kind
    case CleanupSucceeded => status.message.Blank? && recovery == NoRecovery
    case CleanupFailed => status.message.Required() && (recovery.RetryCleanup? || recovery.ReconcileNext?)
    case OtherCleanup(_) => false
  }

  datatype SessionResult = SessionResult(
    cause: Cause,
    workload: ProcessStatus,
    outputs: OutputStatus,
    runtime: RuntimeStatus,
    controller: ControllerStatus,
    cleanup: CleanupStatus,
    recovery: Recovery)
  {
    predicate Consistent() {
      && (cause == ObservationLoss ==> runtime.kind == ObservationLost && outputs.kind == Failed)
      && (cause == ControllerLoss ==> controller.kind == Lost)
      && (cause == StartupFailure ==> controller.kind == StartupFailed)
    }

    predicate Valid() {
      && cause != NoCause
      && workload.Valid(true)
      && (cause == WorkloadExited ==> workload.Known())
      && outputs.Valid()
      && runtime.Valid()
      && controller.ValidTerminal()
      && ValidCleanup(cleanup, recovery)
      && Consistent()
    }
  }

  /** The process statuses that may be reported: unknown, where that is allowed, an exit with
      its code, a kill, or unavailable. */
  lemma ProcessStatusMeaning(p: ProcessStatus, allowUnknown: bool)
    ensures p.Valid(allowUnknown) <==>
              || (allowUnknown && p == ProcessStatus(Unknown, None, Blank))
              || (p.kind == Exited && p.code.Some? && !p.reason.Unsafe?)
              || ((p.kind == Killed || p.kind == Unavailable) && p.code.None? && !p.reason.Unsafe?)
  {
  }

  /** The results that may be shown: a named cause, statuses that may be reported, and each
      cause borne out by the status that belongs to it. */
  lemma ResultMeaning(r: SessionResult)
    ensures r.Valid() <==>
              && r.cause != NoCause && r.workload.Valid(true)
              && (r.outputs == OutputStatus(Drained, Blank) || (r.outputs.kind == Failed && r.outputs.reason.Safe?))
              && (r.runtime == RuntimeStatus(Maintained, Blank) || (r.runtime.kind == ObservationLost && !r.runtime.reason.Unsafe?))
              && r.controller.kind in {Completed, Lost, TimedOut, NotCompleted, StartupFailed} && !r.controller.reason.Unsafe?
              && (|| (r.cleanup == CleanupStatus(CleanupSucceeded, Blank) && r.recovery == NoRecovery)
                  || (r.cleanup.kind == CleanupFailed && r.cleanup.message.Safe? && r.recovery in {RetryCleanup, ReconcileNext}))
              && match r.cause
                 case WorkloadExited => r.workload.kind != Unknown
                 case ObservationLoss => r.runtime.kind == ObservationLost && r.outputs.kind == Failed
                 case ControllerLoss => r.controller.kind == Lost
                 case StartupFailure => r.controller.kind == StartupFailed
                 case _ => true
  {
  }
}
