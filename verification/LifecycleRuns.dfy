/**
 What every run of the controlled-session lifecycle keeps: the inductive
 invariant, the exact number of field changes a run can make, the absence of
 dead ends, and the truth of the terminal result about the run that produced it.
 */
module LifecycleRuns {
  import opened Common
  import opened SessionModel
  import opened Requests
  import opened Lifecycle

  datatype Step = Saw(observation: Observation) | Asked(request: Request, discardTerminatingPTY: bool)

  function Apply(m: View, step: Step): Outcome {
    match step
    case Saw(o) => Observed(m, o)
    case Asked(r, discard) => Requested(m, r, discard)
  }

  /** The machine after a whole run, starting from a fresh session. */
  function Run(operations: seq<Operation>, steps: seq<Step>): View
  {
    if steps == [] then Initial(operations)
    else Apply(Run(operations, steps[..|steps| - 1]), steps[|steps| - 1]).view
  }

  // ----- the inductive invariant

  predicate Fresh(m: View) {
    && m.cause == NoCause && m.workload == UNKNOWN_PROCESS && m.outputs == UNSET_OUTPUTS
    && m.runtime == RuntimeStatus(Maintained, Blank)
    && !m.waitingOutputs && !m.waitingPublication && !m.waitingFinalize
  }

  /** The three waits, and what each of them says about outputs and controller. */
  predicate Barriers(m: View) {
    && (m.waitingOutputs <==> m.outputs.kind == Unset)
    && !(m.waitingOutputs && m.waitingPublication)
    && !(m.waitingOutputs && m.waitingFinalize)
    && !(m.waitingPublication && m.waitingFinalize)
    && (m.waitingPublication || m.waitingFinalize ==> m.controller.kind == ControllerActive)
    && (m.waitingFinalize ==> CompleteOperation in m.operations)
    && (m.waitingOutputs ==>
          if m.activated then m.controller.kind.ControllerActive? || m.controller.kind.Lost?
          else m.controller.kind.StartupFailed?)
  }

  /** What is known once a termination cause is latched. */
  predicate CauseFacts(m: View) {
    && m.cause != NoCause
    && (m.cause == WorkloadExited ==> m.activated && m.workload.Known())
    && (m.cause == ControllerTerminate ==> m.activated)
    && (m.cause == ControllerLoss ==> m.controller.kind == Lost)
    && (m.cause == StartupFailure ==> m.controller.kind == StartupFailed)
    && (m.cause == ObservationLoss ==> m.runtime.kind == ObservationLost)
    && (m.cause == ObservationLoss && m.outputs.kind == Drained ==>
          !m.activated && m.controller.kind == StartupFailed)
  }

  predicate StatusFacts(m: View) {
    && m.workload.Valid(true)
    && (m.outputs.kind != Unset ==> m.outputs.Valid())
    && m.runtime.Valid()
    && m.controller.reason.Optional()
    && (m.activated && m.outputs.kind == Drained ==> m.workload.Known())
  }

  predicate ControllerFits(kind: ControllerKind, activated: bool) {
    kind.Lost? || (if activated then kind.ControllerActive? || kind.Completed? || kind.TimedOut?
                   else kind.ControllerUnknown? || kind.StartupFailed?)
  }

  predicate Invariant(m: View) {
    match m.state
    case Preparing =>
      && Fresh(m) && !m.activated && m.controller == ControllerStatus(ControllerUnknown, Blank)
      && m.result.None? && !m.delivered && !m.acknowledged
    case Active =>
      && Fresh(m) && m.activated && m.controller == ControllerStatus(ControllerActive, Blank)
      && m.result.None? && !m.delivered && !m.acknowledged
    case Terminating =>
      && Barriers(m) && CauseFacts(m) && StatusFacts(m)
      && ControllerFits(m.controller.kind, m.activated)
      && m.result.None? && !m.delivered && !m.acknowledged
    case Terminated =>
      && m.result.Some? && m.result.value.Valid()
      && m.result.value == SessionResult(m.cause, m.workload, m.outputs, m.runtime, m.controller,
                                         m.result.value.cleanup, m.result.value.recovery)
      && !m.waitingOutputs && !m.waitingPublication && !m.waitingFinalize
      && (m.activated && m.outputs.kind == Drained ==> m.workload.Known())
      && (m.activated ==> m.controller.kind != StartupFailed)
      && (m.controller.kind == Completed ==> m.activated)
      && (m.acknowledged ==> m.delivered)
  }

  predicate Keeps(m: View, n: View) { Invariant(n) && n.operations == m.operations }

  lemma LatchKeepsInvariant(m: View, cause: Cause)
    requires Invariant(m) && m.state != Terminated
    requires (cause.HostCancelled? || cause.ContainmentLoss?)
    ensures Keeps(m, Latch(m, cause))
  {
  }

  lemma LossKeepsInvariant(m: View, o: Observation)
    requires Invariant(m) && m.state != Terminated
    requires (o.kind.ControllerGone? || o.kind.RuntimeObservationGone?)
    ensures ObserveLive(m, o).Some? ==> Keeps(m, ObserveLive(m, o).value)
  {
  }

  lemma StartupFailureKeepsInvariant(m: View, o: Observation)
    requires Invariant(m) && m.state != Terminated && o.kind == StartupFailing
    ensures ObserveLive(m, o).Some? ==> Keeps(m, ObserveLive(m, o).value)
  {
  }

  lemma BarrierKeepsInvariant(m: View, o: Observation)
    requires Invariant(m) && m.state != Terminated
    requires o.kind.IsBarrier()
    ensures ObserveLive(m, o).Some? ==> Keeps(m, ObserveLive(m, o).value)
  {
  }

  lemma ProgressKeepsInvariant(m: View, o: Observation)
    requires Invariant(m) && m.state != Terminated
    requires o.kind.IsProgress()
    ensures ObserveLive(m, o).Some? ==> Keeps(m, ObserveLive(m, o).value)
  {
  }

  lemma ObservationKeepsInvariant(m: View, o: Observation)
    requires Invariant(m)
    ensures Keeps(m, Observed(m, o).view)
  {
    if m.state == Terminated {
    } else if (o.kind.HostCancel? || o.kind.CleanupContainmentGone?) {
      LatchKeepsInvariant(m, if o.kind == HostCancel then HostCancelled else ContainmentLoss);
    } else if (o.kind.ControllerGone? || o.kind.RuntimeObservationGone?) {
      LossKeepsInvariant(m, o);
    } else if o.kind == StartupFailing {
      StartupFailureKeepsInvariant(m, o);
    } else if o.kind.IsProgress() {
      ProgressKeepsInvariant(m, o);
    } else if o.kind != ResultDelivered && !o.kind.OtherObservation? {
      BarrierKeepsInvariant(m, o);
    }
  }

  lemma RequestKeepsInvariant(m: View, r: Request, discard: bool)
    requires Invariant(m)
    ensures Keeps(m, Requested(m, r, discard).view)
  {
  }

  lemma StepKeepsInvariant(m: View, step: Step)
    requires Invariant(m)
    ensures Keeps(m, Apply(m, step).view)
  {
    match step
    case Saw(o) => ObservationKeepsInvariant(m, o);
    case Asked(r, discard) => RequestKeepsInvariant(m, r, discard);
  }

  lemma {:induction false} EveryRunKeepsInvariant(operations: seq<Operation>, steps: seq<Step>)
    ensures Keeps(Initial(operations), Run(operations, steps))
  {
    if steps != [] {
      var last := |steps| - 1;
      EveryRunKeepsInvariant(operations, steps[..last]);
      StepKeepsInvariant(Run(operations, steps[..last]), steps[last]);
    }
  }

  // ----- a run changes the fields at most ten times

  function BarrierRank(m: View): nat {
    match m.controller.kind
    case ControllerActive => if m.waitingOutputs then 3 else if m.waitingPublication then 2 else 1
    case ControllerUnknown => 2
    case _ => if m.waitingOutputs || (m.cause == ObservationLoss && m.outputs.kind == Drained) then 1 else 0
  }

  /** An upper bound on the number of changes still to come. */
  function Rank(m: View): nat {
    match m.state
    case Preparing => 10
    case Active => 9
    case Terminating =>
      3 + (if m.workload.kind == Unknown then 1 else 0) + (if m.runtime.kind == Maintained then 1 else 0) + BarrierRank(m)
    case Terminated => (if m.delivered then 0 else 1) + (if m.acknowledged then 0 else 1)
  }

  lemma CauseLowersRank(m: View, o: Observation)
    requires Invariant(m) && m.state == Terminating && o.kind.IsCause()
    ensures ObserveLive(m, o).Some? ==> ObserveLive(m, o).value == m || Rank(ObserveLive(m, o).value) < Rank(m)
  {
  }

  lemma BarrierLowersRank(m: View, o: Observation)
    requires Invariant(m) && m.state == Terminating && !o.kind.IsCause()
    ensures ObserveLive(m, o).Some? ==> ObserveLive(m, o).value == m || Rank(ObserveLive(m, o).value) < Rank(m)
  {
  }

  lemma StepLowersRank(m: View, step: Step)
    requires Invariant(m)
    ensures Apply(m, step).view == m || Rank(Apply(m, step).view) < Rank(m)
    ensures Apply(m, step).verdict != Accepted ==> Apply(m, step).view == m
  {
    StepKeepsInvariant(m, step);
    if m.state == Terminating && step.Saw? {
      if step.observation.kind.IsCause() { CauseLowersRank(m, step.observation); }
      else { BarrierLowersRank(m, step.observation); }
    }
  }

  /** How many steps of the run changed some field. */
  function Changes(operations: seq<Operation>, steps: seq<Step>): nat {
    if steps == [] then 0
    else
      var before := Run(operations, steps[..|steps| - 1]);
      Changes(operations, steps[..|steps| - 1])
      + (if Apply(before, steps[|steps| - 1]).view == before then 0 else 1)
  }

  lemma {:induction false} EveryRunChangesAtMostTenTimes(operations: seq<Operation>, steps: seq<Step>)
    ensures Changes(operations, steps) + Rank(Run(operations, steps)) <= 10
  {
    if steps != [] {
      var last := |steps| - 1;
      EveryRunChangesAtMostTenTimes(operations, steps[..last]);
      EveryRunKeepsInvariant(operations, steps[..last]);
      StepLowersRank(Run(operations, steps[..last]), steps[last]);
    }
  }

  lemma Extend(operations: seq<Operation>, steps: seq<Step>, step: Step)
    ensures Run(operations, steps + [step]) == Apply(Run(operations, steps), step).view
    ensures Changes(operations, steps + [step])
         == Changes(operations, steps) + (if Run(operations, steps + [step]) == Run(operations, steps) then 0 else 1)
  {
    assert (steps + [step])[..|steps|] == steps;
  }

  function Plain(kind: ObservationKind): Step {
    Saw(Observation(kind, None, None, false, Blank, None))
  }

  lemma Grow(operations: seq<Operation>, steps: seq<Step>, step: Step, next: View) returns (longer: seq<Step>)
    requires Apply(Run(operations, steps), step).view == next != Run(operations, steps)
    ensures longer == steps + [step]
    ensures Run(operations, longer) == next
    ensures Changes(operations, longer) == Changes(operations, steps) + 1
  {
    Extend(operations, steps, step);
    longer := steps + [step];
  }

  /** An active session that was cancelled and is waiting for its workload and outputs. */
  function Cancelled(operations: seq<Operation>): View {
    Initial(operations).(state := Terminating, activated := true, cause := HostCancelled, waitingOutputs := true,
                         controller := ControllerStatus(ControllerActive, Blank))
  }

  lemma TwoChangesToCancel(operations: seq<Operation>, before: seq<Step>) returns (steps: seq<Step>)
    requires Run(operations, before) == Initial(operations)
    ensures Changes(operations, steps) == Changes(operations, before) + 2
    ensures Run(operations, steps) == Cancelled(operations)
  {
    var active := Cancelled(operations).(state := Active, cause := NoCause, waitingOutputs := false);
    steps := Grow(operations, before, Plain(Activated), active);
    steps := Grow(operations, steps, Plain(HostCancel), Cancelled(operations));
  }

  /** A cancelled session whose workload has exited and whose host then stopped observing it. */
  function ExitedAndLost(operations: seq<Operation>, exit: ProcessStatus): View {
    Cancelled(operations).(workload := exit, runtime := RuntimeStatus(ObservationLost, Blank))
  }

  lemma TwoChangesToLoss(operations: seq<Operation>, before: seq<Step>, exit: ProcessStatus) returns (steps: seq<Step>)
    requires Run(operations, before) == Cancelled(operations) && exit.Valid(false)
    ensures Changes(operations, steps) == Changes(operations, before) + 2
    ensures Run(operations, steps) == ExitedAndLost(operations, exit)
  {
    steps := Grow(operations, before, Saw(Observation(WorkloadExit, Some(exit), None, false, Blank, None)),
                  Cancelled(operations).(workload := exit));
    steps := Grow(operations, steps, Plain(RuntimeObservationGone), ExitedAndLost(operations, exit));
  }

  lemma OneChangeToOutputs(operations: seq<Operation>, before: seq<Step>, exit: ProcessStatus, failed: OutputStatus)
    returns (steps: seq<Step>)
    requires Run(operations, before) == ExitedAndLost(operations, exit)
    requires exit.Valid(false) && failed.Valid() && failed.kind == Failed
    ensures Changes(operations, steps) == Changes(operations, before) + 1
    ensures Run(operations, steps)
         == ExitedAndLost(operations, exit).(outputs := failed, waitingOutputs := false, waitingPublication := true)
  {
    steps := Grow(operations, before, Saw(Observation(OutputsFinalized, None, Some(failed), false, Blank, None)),
      ExitedAndLost(operations, exit).(outputs := failed, waitingOutputs := false, waitingPublication := true));
  }

  lemma PublicationIsAccepted(m: View)
    requires CompleteOperation in m.operations
    requires Invariant(m) && m.state == Terminating && m.waitingPublication && m.cause == HostCancelled
    ensures Apply(m, Plain(OutputsPublished)).view == m.(waitingPublication := false, waitingFinalize := true)
  {
  }

  lemma CompletionIsGranted(m: View)
    requires CompleteOperation in m.operations
    requires Invariant(m) && m.state == Terminating && m.waitingPublication && m.cause == HostCancelled
    ensures Apply(m.(waitingPublication := false, waitingFinalize := true),
                  Asked(Request(Complete, None, 0, 0), false)).view
         == m.(waitingPublication := false, controller := ControllerStatus(Completed, Blank))
  {
  }

  lemma TwoChangesToCompletion(operations: seq<Operation>, before: seq<Step>) returns (steps: seq<Step>)
    requires CompleteOperation in operations
    requires var m := Run(operations, before);
             && Invariant(m) && m.state == Terminating && m.waitingPublication
             && m.operations == operations && m.cause == HostCancelled
    ensures Changes(operations, steps) == Changes(operations, before) + 2
    ensures Run(operations, steps)
         == Run(operations, before).(waitingPublication := false, controller := ControllerStatus(Completed, Blank))
  {
    var published := Run(operations, before).(waitingPublication := false, waitingFinalize := true);
    var completed := Run(operations, before).(waitingPublication := false,
                                              controller := ControllerStatus(Completed, Blank));
    PublicationIsAccepted(Run(operations, before));
    CompletionIsGranted(Run(operations, before));
    steps := Grow(operations, before, Plain(OutputsPublished), published);
    steps := Grow(operations, steps, Asked(Request(Complete, None, 0, 0), false), completed);
  }

  function Ended(m: View): View
    requires Invariant(m) && m.state == Terminating && Distance(m) == 1
  {
    m.(state := Terminated, workload := FinishFor(m).workload, controller := FinishFor(m).controller,
       result := Some(ResultOf(m, FinishFor(m))))
  }

  lemma FinishIsAccepted(m: View)
    requires Invariant(m) && m.state == Terminating && Distance(m) == 1
    ensures Apply(m, Saw(NextTowardResult(m))).view == Ended(m)
    ensures !Ended(m).delivered && !Ended(m).acknowledged
  {
    NextGetsNearer(m);
  }

  lemma TailIsAccepted(m: View)
    requires m.state == Terminated && m.result.Some? && !m.delivered && !m.acknowledged
    ensures Apply(m, Plain(ResultDelivered)).view == m.(delivered := true)
    ensures Apply(m.(delivered := true), Asked(Request(AcknowledgeTerminated, None, 0, 0), false)).view
         == m.(delivered := true, acknowledged := true)
  {
  }

  /** The finish report, its delivery and its acknowledgement. */
  lemma ThreeChangesToAcknowledged(operations: seq<Operation>, before: seq<Step>) returns (steps: seq<Step>)
    requires var m := Run(operations, before);
             Invariant(m) && m.state == Terminating && Distance(m) == 1
    ensures Changes(operations, steps) == Changes(operations, before) + 3
  {
    var m := Run(operations, before);
    var ended := Ended(m);
    FinishIsAccepted(m);
    TailIsAccepted(ended);
    steps := Grow(operations, before, Saw(NextTowardResult(m)), ended);
    steps := Grow(operations, steps, Plain(ResultDelivered), ended.(delivered := true));
    steps := Grow(operations, steps, Asked(Request(AcknowledgeTerminated, None, 0, 0), false),
                  ended.(delivered := true, acknowledged := true));
  }

  /** The bound is reached by every session that was granted completion. */
  lemma TenChangesHappen(operations: seq<Operation>) returns (steps: seq<Step>)
    requires CompleteOperation in operations
    ensures Changes(operations, steps) == 10
  {
    steps := TwoChangesToCancel(operations, []);
    var exit := ProcessStatus(Exited, Some(0), Blank);
    steps := TwoChangesToLoss(operations, steps, exit);
    steps := OneChangeToOutputs(operations, steps, exit, OutputStatus(Failed, Safe("closed early")));
    steps := TwoChangesToCompletion(operations, steps);
    steps := ThreeChangesToAcknowledged(operations, steps);
  }

  // ----- the first cause stands, and termination begins exactly once

  lemma CauseObservationKeepsCause(m: View, o: Observation)
    requires m.cause != NoCause && o.kind.IsCause()
    ensures ObserveLive(m, o).Some? ==> ObserveLive(m, o).value.cause == m.cause
  {
  }

  lemma OtherObservationKeepsCause(m: View, o: Observation)
    requires m.cause != NoCause && !o.kind.IsCause()
    ensures ObserveLive(m, o).Some? ==> ObserveLive(m, o).value.cause == m.cause
  {
  }

  lemma RequestCauseIsFinal(m: View, r: Request, discard: bool)
    requires m.cause != NoCause
    ensures Requested(m, r, discard).view.cause == m.cause
    ensures !Requested(m, r, discard).transition.beginTermination
  {
  }

  lemma ObservationCauseIsFinal(m: View, o: Observation)
    requires m.cause != NoCause
    ensures Observed(m, o).view.cause == m.cause
    ensures !Observed(m, o).transition.beginTermination
  {
    if o.kind.IsCause() { CauseObservationKeepsCause(m, o); } else { OtherObservationKeepsCause(m, o); }
  }

  lemma CauseIsFinal(m: View, step: Step)
    requires m.cause != NoCause
    ensures Apply(m, step).view.cause == m.cause
    ensures !Apply(m, step).transition.beginTermination
  {
    match step
    case Saw(o) => ObservationCauseIsFinal(m, o);
    case Asked(r, discard) => RequestCauseIsFinal(m, r, discard);
  }

  /** How many reports of the run told the supervisor to begin termination. */
  function Beginnings(operations: seq<Operation>, steps: seq<Step>): nat {
    if steps == [] then 0
    else
      var last := |steps| - 1;
      Beginnings(operations, steps[..last])
      + (if Apply(Run(operations, steps[..last]), steps[last]).transition.beginTermination then 1 else 0)
  }

  lemma {:induction false} TerminationBeginsOnce(operations: seq<Operation>, steps: seq<Step>)
    ensures Beginnings(operations, steps) == (if Run(operations, steps).cause == NoCause then 0 else 1)
    ensures Run(operations, steps).cause == NoCause <==>
              Run(operations, steps).state.Preparing? || Run(operations, steps).state.Active?
  {
    EveryRunKeepsInvariant(operations, steps);
    if steps != [] {
      var last := |steps| - 1;
      var m := Run(operations, steps[..last]);
      TerminationBeginsOnce(operations, steps[..last]);
      if m.cause != NoCause {
        CauseIsFinal(m, steps[last]);
      }
    }
  }

  lemma {:induction false} FirstCauseNeverChanges(operations: seq<Operation>, steps: seq<Step>, k: nat)
    requires k <= |steps| && Run(operations, steps[..k]).cause != NoCause
    ensures Run(operations, steps).cause == Run(operations, steps[..k]).cause
    decreases |steps|
  {
    if k == |steps| {
      assert steps[..k] == steps;
    } else {
      var last := |steps| - 1;
      assert steps[..last][..k] == steps[..k];
      FirstCauseNeverChanges(operations, steps[..last], k);
      CauseIsFinal(Run(operations, steps[..last]), steps[last]);
    }
  }

  // ----- no dead ends

  /** Observation loss was latched before activation, yet outputs were later reported drained. */
  predicate DrainedDespiteLoss(m: View) {
    m.cause == ObservationLoss && m.outputs.kind == Drained
  }

  function FinishFor(m: View): Finish {
    Finish(m.workload, m.outputs,
           if m.controller.kind.ControllerActive? || m.controller.kind.ControllerUnknown?
           then ControllerStatus(NotCompleted, Blank)
           else m.controller,
           CleanupStatus(CleanupSucceeded, Blank), NoRecovery)
  }

  /** The observation that brings a terminating session one step nearer to its result. */
  function NextTowardResult(m: View): Observation {
    var bare := Observation(Finished, None, None, false, Blank, None);
    if m.waitingOutputs then bare.(kind := OutputFinalizationExpired, reason := Safe("expired"))
    else if m.waitingPublication then bare.(kind := OutputsPublished)
    else if m.waitingFinalize then bare.(kind := ControllerFinalizationExpired)
    else if DrainedDespiteLoss(m) then bare.(kind := RuntimeObservationGone)
    else bare.(finish := Some(FinishFor(m)))
  }

  function Distance(m: View): nat {
    var afterPublication := if CompleteOperation in m.operations then 2 else 1;
    if m.waitingOutputs then (if m.controller.kind == ControllerActive then 2 + afterPublication else 2)
    else if m.waitingPublication then 1 + afterPublication
    else if m.waitingFinalize || DrainedDespiteLoss(m) then 2
    else 1
  }

  lemma NextGetsNearer(m: View)
    requires Invariant(m) && m.state == Terminating
    ensures var next := Observed(m, NextTowardResult(m));
            && next.verdict == Accepted
            && if Distance(m) == 1 then next.view.state == Terminated
               else next.view.state == Terminating && Distance(next.view) == Distance(m) - 1
  {
  }

  /** Every observation is accepted, and the last one leaves a valid result. */
  predicate Terminates(m: View, path: seq<Observation>)
    decreases |path|
  {
    if path == [] then m.state == Terminated && m.result.Some? && m.result.value.Valid()
    else Observed(m, path[0]).verdict == Accepted && Terminates(Observed(m, path[0]).view, path[1..])
  }

  lemma {:induction false} WayOut(m: View) returns (path: seq<Observation>)
    requires Invariant(m) && m.state == Terminating
    ensures |path| == Distance(m) && Terminates(m, path)
    ensures forall i :: 0 <= i < |path| ==> path[i].kind != ControllerGone
    decreases Distance(m)
  {
    NextGetsNearer(m);
    var o := NextTowardResult(m);
    var n := Observed(m, o).view;
    ObservationKeepsInvariant(m, o);
    if n.state == Terminated {
      path := [o];
    } else {
      var rest := WayOut(n);
      path := [o] + rest;
      assert path[1..] == rest;
    }
  }

  /** From every reachable terminating state at most four observations, none of them a
      loss of the controller, lead to a terminated session with a valid result. */
  lemma NoDeadEnd(operations: seq<Operation>, steps: seq<Step>) returns (path: seq<Observation>)
    requires Run(operations, steps).state == Terminating
    ensures 1 <= |path| <= 4 && Terminates(Run(operations, steps), path)
    ensures forall i :: 0 <= i < |path| ==> path[i].kind != ControllerGone
  {
    EveryRunKeepsInvariant(operations, steps);
    path := WayOut(Run(operations, steps));
  }

  lemma AcceptedFinishMeansNoWait(m: View, o: Observation)
    requires Invariant(m) && m.state == Terminating
    requires o.kind == Finished && Observed(m, o).verdict == Accepted
    ensures !m.waitingOutputs && !m.waitingPublication && !m.waitingFinalize
    ensures !DrainedDespiteLoss(m)
  {
  }

  /** Exactly when a finish report can be accepted right away. */
  lemma FinishIsPossibleIff(operations: seq<Operation>, steps: seq<Step>)
    requires Run(operations, steps).state == Terminating
    ensures var m := Run(operations, steps);
            (exists o: Observation :: o.kind == Finished && Observed(m, o).verdict == Accepted)
            <==> !m.waitingOutputs && !m.waitingPublication && !m.waitingFinalize && !DrainedDespiteLoss(m)
  {
    var m := Run(operations, steps);
    EveryRunKeepsInvariant(operations, steps);
    forall o: Observation | o.kind == Finished && Observed(m, o).verdict == Accepted
      ensures !m.waitingOutputs && !m.waitingPublication && !m.waitingFinalize && !DrainedDespiteLoss(m)
    {
      AcceptedFinishMeansNoWait(m, o);
    }
    if !m.waitingOutputs && !m.waitingPublication && !m.waitingFinalize && !DrainedDespiteLoss(m) {
      NextGetsNearer(m);
      assert NextTowardResult(m).kind == Finished;
    }
  }

  /** A run that ends in the one waiting-free state no finish report can leave. */
  lemma StartupMayReportDrainedDespiteLoss(operations: seq<Operation>) returns (steps: seq<Step>)
    ensures var m := Run(operations, steps);
            && m.state == Terminating && DrainedDespiteLoss(m)
            && !m.waitingOutputs && !m.waitingPublication && !m.waitingFinalize
  {
    var loss := Plain(RuntimeObservationGone);
    var startup := Saw(Observation(StartupFailing, None, Some(DRAINED), false, Safe("startup failed"), None));
    Extend(operations, [], loss);
    Extend(operations, [loss], startup);
    assert [] + [loss] == [loss];
    steps := [loss] + [startup];
  }

  // ----- the result tells the truth about the run

  /** The accepted steps that matter to the meaning of a result. */
  datatype Event =
    | DidActivate
    | DidExit(exit: ProcessStatus)
    | DidRecordOutputs(outputs: OutputStatus)
    | DidPublish
    | DidComplete
    | DidFinish
    | DidDeliver
    | DidAcknowledge

  /** The event an accepted observation stands for, if it is one that matters. */
  function ObservationEvents(o: Observation): (events: seq<Event>)
    ensures |events| <= 1
  {
    match o.kind
    case Activated => [DidActivate]
    case WorkloadExit => if o.workload.Some? then [DidExit(o.workload.value)] else []
    case OutputsFinalized => if o.outputs.Some? then [DidRecordOutputs(o.outputs.value)] else []
    case OutputFinalizationExpired => [DidRecordOutputs(OutputStatus(Failed, o.reason))]
    case OutputsPublished => [DidPublish]
    case Finished => [DidFinish]
    case ResultDelivered => [DidDeliver]
    case _ => []
  }

  function RequestEvents(r: Request): (events: seq<Event>)
    ensures |events| <= 1
  {
    if r.kind == Complete then [DidComplete]
    else if r.kind == AcknowledgeTerminated then [DidAcknowledge]
    else []
  }

  function EventsOf(m: View, step: Step): (events: seq<Event>)
    ensures |events| <= 1
  {
    if Apply(m, step).verdict != Accepted then []
    else if step.Saw? then ObservationEvents(step.observation)
    else RequestEvents(step.request)
  }

  function History(operations: seq<Operation>, steps: seq<Step>): seq<Event> {
    if steps == [] then []
    else
      var last := |steps| - 1;
      History(operations, steps[..last]) + EventsOf(Run(operations, steps[..last]), steps[last])
  }

  /** The events of `pattern` occur in `history` in that order, possibly among others. */
  predicate InOrder(pattern: seq<Event>, history: seq<Event>)
    decreases |history|
  {
    pattern == []
    || (history != [] && var last, end := |history| - 1, |pattern| - 1;
        (pattern[end] == history[last] && InOrder(pattern[..end], history[..last]))
        || InOrder(pattern, history[..last]))
  }

  lemma {:induction false} OrderSurvives(pattern: seq<Event>, history: seq<Event>, more: seq<Event>)
    requires InOrder(pattern, history) && |more| <= 1
    ensures InOrder(pattern, history + more)
  {
    if more != [] {
      assert (history + more)[..|history|] == history;
    } else {
      assert history + more == history;
    }
  }

  lemma OrderGrows(pattern: seq<Event>, history: seq<Event>, e: Event)
    requires InOrder(pattern, history)
    ensures InOrder(pattern + [e], history + [e])
  {
    assert (history + [e])[..|history|] == history;
    assert (pattern + [e])[..|pattern|] == pattern;
  }

  /** What the recorded statuses promise about the past. */
  ghost predicate Truthful(m: View, history: seq<Event>) {
    && (m.activated ==> InOrder([DidActivate], history))
    && (m.activated && (m.state.Active? || m.state.Terminating?) && m.workload.Known() ==>
          InOrder([DidActivate, DidExit(m.workload)], history))
    && (m.activated && m.outputs.kind == Drained ==>
          InOrder([DidActivate, DidExit(m.workload), DidRecordOutputs(m.outputs)], history))
    && (m.activated && m.outputs.kind != Unset ==>
          InOrder([DidActivate, DidRecordOutputs(m.outputs)], history))
    && (m.waitingFinalize ==>
          InOrder([DidActivate, DidRecordOutputs(m.outputs), DidPublish], history))
    && (m.controller.kind == Completed ==>
          InOrder([DidActivate, DidRecordOutputs(m.outputs), DidPublish, DidComplete], history)
          && CompleteOperation in m.operations)
    && (m.state == Terminated ==> InOrder([DidFinish], history))
    && (m.delivered ==> InOrder([DidFinish, DidDeliver], history))
    && (m.acknowledged ==> InOrder([DidFinish, DidDeliver, DidAcknowledge], history))
  }

  lemma TruthSurvives(m: View, history: seq<Event>, more: seq<Event>)
    requires Truthful(m, history) && |more| <= 1
    ensures Truthful(m, history + more)
  {
    forall pattern | InOrder(pattern, history) ensures InOrder(pattern, history + more) {
      OrderSurvives(pattern, history, more);
    }
  }

  /** The growth of the ordered facts that one more event `e` supports. */
  lemma TruthGrows(m: View, history: seq<Event>, e: Event)
    requires Truthful(m, history)
    ensures Truthful(m, history + [e])
    ensures InOrder([e], history + [e])
    ensures m.activated ==> InOrder([DidActivate, e], history + [e])
    ensures m.activated && (m.state.Active? || m.state.Terminating?) && m.workload.Known() ==>
              InOrder([DidActivate, DidExit(m.workload), e], history + [e])
    ensures m.activated && m.outputs.kind != Unset ==>
              InOrder([DidActivate, DidRecordOutputs(m.outputs), e], history + [e])
    ensures m.waitingFinalize ==>
              InOrder([DidActivate, DidRecordOutputs(m.outputs), DidPublish, e], history + [e])
    ensures m.state == Terminated ==> InOrder([DidFinish, e], history + [e])
    ensures m.delivered ==> InOrder([DidFinish, DidDeliver, e], history + [e])
  {
    TruthSurvives(m, history, [e]);
    forall pattern | InOrder(pattern, history) ensures InOrder(pattern + [e], history + [e]) {
      OrderGrows(pattern, history, e);
    }
    assert [] + [e] == [e];
    assert [DidActivate] + [e] == [DidActivate, e];
    assert [DidActivate, DidExit(m.workload)] + [e] == [DidActivate, DidExit(m.workload), e];
    assert [DidActivate, DidRecordOutputs(m.outputs)] + [e] == [DidActivate, DidRecordOutputs(m.outputs), e];
    assert [DidActivate, DidRecordOutputs(m.outputs), DidPublish] + [e]
        == [DidActivate, DidRecordOutputs(m.outputs), DidPublish, e];
    assert [DidFinish] + [e] == [DidFinish, e];
    assert [DidFinish, DidDeliver] + [e] == [DidFinish, DidDeliver, e];
  }

  /** Truth on an extended history: either nothing was added, or one event was. */
  lemma TruthAfter(m: View, history: seq<Event>, events: seq<Event>)
    requires Truthful(m, history) && |events| <= 1
    ensures Truthful(m, history + events)
  {
    TruthSurvives(m, history, events);
  }

  lemma CauseStaysTruthful(m: View, o: Observation, history: seq<Event>)
    requires Invariant(m) && Truthful(m, history) && m.state != Terminated
    requires o.kind.IsCause()
    ensures ObserveLive(m, o).Some? ==> Truthful(ObserveLive(m, o).value, history)
  {
  }

  lemma OutputsStayTruthful(m: View, o: Observation, history: seq<Event>)
    requires Invariant(m) && Truthful(m, history) && m.state != Terminated
    requires (o.kind.OutputsFinalized? || o.kind.OutputFinalizationExpired?)
    ensures ObserveLive(m, o).Some? ==> Truthful(ObserveLive(m, o).value, history + ObservationEvents(o))
  {
    if ObserveLive(m, o).Some? {
      TruthGrows(m, history, DidRecordOutputs(ObserveLive(m, o).value.outputs));
    }
  }

  lemma BarrierStaysTruthful(m: View, o: Observation, history: seq<Event>)
    requires Invariant(m) && Truthful(m, history) && m.state != Terminated
    requires (o.kind.OutputsPublished? || o.kind.ControllerFinalizationExpired?)
    ensures ObserveLive(m, o).Some? ==> Truthful(ObserveLive(m, o).value, history + ObservationEvents(o))
  {
    TruthAfter(m, history, ObservationEvents(o));
    TruthGrows(m, history, DidPublish);
  }

  lemma ActivationStaysTruthful(m: View, o: Observation, history: seq<Event>)
    requires Invariant(m) && Truthful(m, history) && m.state != Terminated
    requires o.kind == Activated
    ensures ObserveLive(m, o).Some? ==> Truthful(ObserveLive(m, o).value, history + ObservationEvents(o))
  {
    TruthGrows(m, history, DidActivate);
  }

  lemma ExitStaysTruthful(m: View, o: Observation, history: seq<Event>)
    requires Invariant(m) && Truthful(m, history) && m.state != Terminated
    requires o.kind == WorkloadExit
    ensures ObserveLive(m, o).Some? ==> Truthful(ObserveLive(m, o).value, history + ObservationEvents(o))
  {
    if o.workload.Some? {
      TruthGrows(m, history, DidExit(o.workload.value));
    }
  }

  lemma FinishStaysTruthful(m: View, o: Observation, history: seq<Event>)
    requires Invariant(m) && Truthful(m, history) && m.state != Terminated
    requires o.kind == Finished
    ensures ObserveLive(m, o).Some? ==> Truthful(ObserveLive(m, o).value, history + ObservationEvents(o))
  {
    TruthGrows(m, history, DidFinish);
  }

  lemma RefusedStaysTruthful(m: View, o: Observation, history: seq<Event>)
    requires Truthful(m, history) && Observed(m, o).verdict != Accepted
    ensures Truthful(Observed(m, o).view, history + EventsOf(m, Saw(o)))
  {
    assert Observed(m, o).view == m;
    TruthAfter(m, history, EventsOf(m, Saw(o)));
  }

  lemma DeliveredStaysTruthful(m: View, o: Observation, history: seq<Event>)
    requires Invariant(m) && Truthful(m, history) && Observed(m, o).verdict == Accepted && o.kind == ResultDelivered
    ensures Truthful(Observed(m, o).view, history + EventsOf(m, Saw(o)))
  {
    TruthGrows(m, history, DidDeliver);
  }

  lemma DeliveryStaysTruthful(m: View, o: Observation, history: seq<Event>)
    requires Invariant(m) && Truthful(m, history)
    requires m.state == Terminated || o.kind == ResultDelivered || o.kind.OtherObservation?
    ensures Truthful(Observed(m, o).view, history + EventsOf(m, Saw(o)))
  {
    if Observed(m, o).verdict == Accepted { DeliveredStaysTruthful(m, o, history); }
    else { RefusedStaysTruthful(m, o, history); }
  }

  lemma ObservationStaysTruthful(m: View, o: Observation, history: seq<Event>)
    requires Invariant(m) && Truthful(m, history)
    ensures Truthful(Observed(m, o).view, history + EventsOf(m, Saw(o)))
  {
    if m.state == Terminated || o.kind == ResultDelivered || o.kind.OtherObservation? {
      DeliveryStaysTruthful(m, o, history);
    } else if ObserveLive(m, o).None? || Observed(m, o).verdict != Accepted {
      TruthAfter(m, history, []);
    } else if o.kind == Activated {
      ActivationStaysTruthful(m, o, history);
    } else if o.kind == WorkloadExit {
      ExitStaysTruthful(m, o, history);
    } else if o.kind == Finished {
      FinishStaysTruthful(m, o, history);
    } else if o.kind.IsCause() {
      CauseStaysTruthful(m, o, history);
      assert history + [] == history;
    } else if (o.kind.OutputsPublished? || o.kind.ControllerFinalizationExpired?) {
      BarrierStaysTruthful(m, o, history);
    } else {
      OutputsStayTruthful(m, o, history);
    }
  }

  lemma RequestStaysTruthful(m: View, r: Request, discard: bool, history: seq<Event>)
    requires Invariant(m) && Truthful(m, history)
    ensures Truthful(Requested(m, r, discard).view, history + EventsOf(m, Asked(r, discard)))
  {
    var events := EventsOf(m, Asked(r, discard));
    TruthAfter(m, history, events);
    if events != [] {
      assert events == [events[0]];
      TruthGrows(m, history, events[0]);
    }
  }

  lemma {:induction false} EveryRunIsTruthful(operations: seq<Operation>, steps: seq<Step>)
    ensures Truthful(Run(operations, steps), History(operations, steps))
  {
    if steps != [] {
      var last := |steps| - 1;
      var m, history := Run(operations, steps[..last]), History(operations, steps[..last]);
      EveryRunIsTruthful(operations, steps[..last]);
      EveryRunKeepsInvariant(operations, steps[..last]);
      match steps[last] {
        case Saw(o) => ObservationStaysTruthful(m, o, history);
        case Asked(r, discard) => RequestStaysTruthful(m, r, discard, history);
      }
    }
  }
}
