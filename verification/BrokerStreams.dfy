/**
 What the controller broker passes on, and when it keeps running: its public stream is the
 host's events, its host stream the requests, each in order and exactly once.
 */
module BrokerStreams {
  import opened Common
  import opened Requests
  import opened Broker
  import opened BrokerRuns

  // ----- which requests and events a running broker takes

  predicate TakesRequest(v: View, source: Source, r: Request, a: Answers) {
    match source
    case Terminal =>
      && (r.kind == Input || r.kind == Resize)
      && (v.terminating || v.terminated
          || (Granted(v, r.kind) && if v.ready then a.host
                                    else r.kind == Resize || |Buffered(v)| + |Bytes(r)| <= MAX_FRAME_PAYLOAD))
    case Public =>
      match r.kind
      case AcknowledgeTerminated => v.terminated && !v.acknowledged && a.host
      case Resize => v.ready && !v.terminating && !v.terminated && Granted(v, Resize) && a.host
      case Terminate => v.ready && !v.terminated && Granted(v, Terminate) && a.host
      case Complete =>
        v.ready && v.terminating && v.finalized && !v.terminated && !v.completeSent && Granted(v, Complete) && a.host
      case _ => false
  }

  lemma RequestIsTakenIff(v: View, source: Source, r: Request, a: Answers)
    ensures ApplyRequest(v, source, r, a).ok <==> TakesRequest(v, source, r, a)
  {
  }

  predicate TakesEvent(v: View, e: HostEvent, a: Answers) {
    && !v.terminated
    && match e
       case Ready =>
         !v.ready && !v.terminating && a.public && (v.resize.Some? ==> a.host) && (v.input.Some? ==> a.hostAgain)
       case WorkloadExit(present) => present && !v.exited && !v.finalized && a.public
       case Terminating(present) => present && !v.terminating && a.public
       case Diagnostic(payload) => payload.Some? && a.public
       case OutputsFinalized(present, drained) =>
         present && v.terminating && !v.finalized && (v.ready && drained ==> v.exited) && a.public && a.terminal
       case Terminated(present) =>
         present && a.public && (v.ready ==> v.terminating && v.ended) && (!v.ended ==> a.terminal)
       case _ => false
  }

  lemma EventIsTakenIff(v: View, e: HostEvent, a: Answers)
    ensures ApplyHostEvent(v, e, a).ok <==> TakesEvent(v, e, a)
  {
  }

  /** What may stop a running broker, and with what verdict. */
  function StopVerdict(s: State, a: Action): Option<bool> {
    match a
    case Asks(source, r, answers) => if TakesRequest(s.v, source, r, answers) then None else Some(false)
    case Happens(Output(bytes), _) => if !s.v.finalized && !s.v.terminated && bytes.Some? then None else Some(false)
    case Happens(e, answers) => if TakesEvent(s.v, e, answers) then None else Some(false)
    case WriterReports => if s.writer == Wrote(true) then None else Some(false)
    case HostEnds => Some(s.v.acknowledged)
    case InputEnds(source) =>
      if (source == Terminal && s.v.ended) || (source == Public && s.v.acknowledged) then None else Some(false)
    case Cancelled => Some(false)
    case _ => None
  }

  lemma StopsIff(s: State, a: Action, t: State)
    requires Moves(s, a, t) && s.stopped.None?
    ensures t.stopped == StopVerdict(s, a)
  {
    match a
    case Asks(source, r, answers) => RequestIsTakenIff(s.v, source, r, answers);
    case Happens(e, answers) => EventIsTakenIff(s.v, e, answers);
    case _ =>
  }

  // ----- the public stream

  /** What the host's event becomes on the public stream. */
  function PublicOf(a: Action): seq<PublicEvent> {
    if !a.Happens? then []
    else
      match a.event
      case Ready => [PublicReady]
      case WorkloadExit(_) => [PublicWorkloadExit]
      case Terminating(_) => [PublicTerminating]
      case Diagnostic(Some(payload)) => [PublicDiagnostic(payload)]
      case OutputsFinalized(_, drained) => [PublicOutputsFinalized(drained)]
      case Terminated(_) => [PublicTerminated]
      case _ => []
  }

  function PublicFrom(actions: seq<Action>): seq<PublicEvent> {
    if actions == [] then [] else PublicFrom(actions[..|actions| - 1]) + PublicOf(actions[|actions| - 1])
  }

  lemma PublicMore(actions: seq<Action>, i: nat)
    requires i < |actions|
    ensures PublicFrom(actions[..i + 1]) == PublicFrom(actions[..i]) + PublicOf(actions[i])
  {
    assert actions[..i + 1][..i] == actions[..i];
  }

  lemma ReadyIsAnnounced(v: View, a: Answers)
    ensures var o := OnReady(v, a);
            (o.ok ==> o.view.toPublic == v.toPublic + [PublicReady])
            && (o.view.toPublic == v.toPublic || o.view.toPublic == v.toPublic + [PublicReady])
  {
    ReadyAnnounces(v, a);
  }

  lemma EventIsAnnounced(v: View, e: HostEvent, a: Answers)
    ensures var o := ApplyHostEvent(v, e, a);
            (o.ok ==> o.view.toPublic == v.toPublic + PublicOf(Happens(e, a)))
            && (o.view.toPublic == v.toPublic || o.view.toPublic == v.toPublic + PublicOf(Happens(e, a)))
  {
    if e.Ready? { ReadyIsAnnounced(v, a); }
  }

  /** A step announces its own event, all of it while the broker runs on; a broker that fails
      adds the client error. */
  lemma StepAnnounces(s: State, a: Action, t: State)
    requires Moves(s, a, t) && !a.Complain?
    ensures t.stopped.None? ==> s.stopped.None? && t.v.toPublic == s.v.toPublic + PublicOf(a)
    ensures t.v.toPublic == s.v.toPublic || t.v.toPublic == s.v.toPublic + PublicOf(a)
  {
    match a
    case Asks(source, r, answers) => AskKeepsEnds(s.v, source, r, answers);
    case Happens(e, answers) => if !e.Output? { EventIsAnnounced(s.v, e, answers); }
    case _ => OthersAnnounceNothing(s, a, t);
  }

  lemma OthersAnnounceNothing(s: State, a: Action, t: State)
    requires Moves(s, a, t) && !a.Asks? && !a.Happens? && !a.Complain?
    ensures t.v.toPublic == s.v.toPublic && (t.stopped.None? ==> s.stopped.None?)
  {
  }

  lemma StartedSilently(operations: set<Operation>, p: Setup)
    ensures Started(operations, p).v.toPublic == []
  {
    var blank := Blank(operations);
    var none := Answers(false, false, false, false);
    if p.resize.Some? { AskKeepsEnds(blank.v, Terminal, p.resize.value, none); }
    var resized := if p.resize.Some? then Replay(blank, p.resize.value) else blank;
    if p.input.Some? { AskKeepsEnds(resized.v, Terminal, InputRequest(p.input.value), none); }
  }

  /** While the broker runs, its public stream is the host's events in order, diagnostics with
      what they say and finalization with its verdict. */
  lemma {:induction false} PublicIsWhatTheHostSaid(
    operations: set<Operation>, setup: seq<Request>, trace: seq<State>, actions: seq<Action>, i: nat)
    requires Run(operations, setup, trace, actions) && i < |trace| && trace[i].stopped.None?
    ensures trace[i].v.toPublic == PublicFrom(actions[..i])
  {
    if i == 0 {
      StartedSilently(operations, AddAll(Setup(None, None), setup).value);
    } else {
      assert Moves(trace[i - 1], actions[i - 1], trace[i - 1 + 1]);
      StepAnnounces(trace[i - 1], actions[i - 1], trace[i]);
      PublicIsWhatTheHostSaid(operations, setup, trace, actions, i - 1);
      PublicMore(actions, i - 1);
    }
  }

  // ----- the host stream

  /** What a request becomes on the host stream of a ready broker: itself, unless terminal
      input has become pointless. */
  function HostOf(s: State, a: Action): seq<Request> {
    if !a.Asks? || (a.source == Terminal && (s.v.terminating || s.v.terminated)) then [] else [a.request]
  }

  function HostFrom(trace: seq<State>, actions: seq<Action>, p: nat, i: nat): seq<Request>
    requires p <= i <= |actions| && i <= |trace|
  {
    if i == p then [] else HostFrom(trace, actions, p, i - 1) + HostOf(trace[i - 1], actions[i - 1])
  }

  /** What readiness sends: the newest resize, then all the input so far. */
  function Flush(v: View): seq<Request> {
    (if v.resize.Some? then [v.resize.value] else []) + (if v.input.Some? then [InputRequest(v.input.value)] else [])
  }

  lemma AskSends(v: View, source: Source, r: Request, a: Answers)
    requires v.ready && ApplyRequest(v, source, r, a).ok
    ensures ApplyRequest(v, source, r, a).view.toHost
         == v.toHost + if source == Terminal && (v.terminating || v.terminated) then [] else [r]
  {
  }

  lemma ReadyFlushes(v: View, a: Answers)
    requires OnReady(v, a).ok
    ensures OnReady(v, a).view.toHost == v.toHost + Flush(v)
  {
    var announced := ToPublic(ResizeSent(v).(ready := true), PublicReady);
    assert OnReady(v, a).view == InputSent(announced);
  }

  lemma StepSends(s: State, a: Action, t: State)
    requires Moves(s, a, t) && t.stopped.None? && s.v.ready
    ensures t.v.toHost == s.v.toHost + HostOf(s, a)
  {
    match a
    case Asks(source, r, answers) => AskSends(s.v, source, r, answers);
    case Happens(e, answers) => if !e.Output? && !e.Ready? { EventShape(s.v, e, answers); }
    case _ => OthersSendNothing(s, a, t);
  }

  lemma WriterSendsNothing(s: State, a: Action, t: State)
    requires Moves(s, a, t) && OfWriter(a)
    ensures t.v.toHost == s.v.toHost
  {
  }

  lemma EndsSendNothing(s: State, a: Action, t: State)
    requires Moves(s, a, t) && (a.HostEnds? || a.InputEnds? || a.Cancelled? || a.Complain?)
    ensures t.v.toHost == s.v.toHost
  {
  }

  lemma OthersSendNothing(s: State, a: Action, t: State)
    requires Moves(s, a, t) && !a.Asks? && !a.Happens?
    ensures t.v.toHost == s.v.toHost
  {
    if OfWriter(a) { WriterSendsNothing(s, a, t); } else { EndsSendNothing(s, a, t); }
  }

  lemma ReadinessSends(s: State, a: Action, t: State)
    requires Moves(s, a, t) && t.stopped.None? && !s.v.ready && t.v.ready
    ensures t.v.toHost == s.v.toHost + Flush(s.v) && a.Happens? && a.event.Ready?
  {
    if a.Asks? { AskStep(s, a, t); }
    else if IsEvent(a) {
      if a.event.Ready? { ReadyFlushes(s.v, a.answers); } else { EventShape(s.v, a.event, a.answers); }
    } else { OthersLeaveView(s, a, t); }
  }

  lemma RunningBefore(s: State, a: Action, t: State)
    requires Moves(s, a, t) && t.stopped.None?
    ensures s.stopped.None?
  {
  }

  lemma {:induction false} SendsAlong(
    trace: seq<State>, actions: seq<Action>, p: nat, i: nat)
    requires |trace| == |actions| + 1 && p <= i < |trace| && trace[i].stopped.None?
    requires forall k :: 0 <= k < |actions| ==> Moves(trace[k], actions[k], trace[k + 1])
    requires forall k :: p <= k <= i ==> trace[k].v.ready
    ensures trace[p].stopped.None? && trace[i].v.toHost == trace[p].v.toHost + HostFrom(trace, actions, p, i)
    decreases i
  {
    if p < i {
      assert Moves(trace[i - 1], actions[i - 1], trace[i - 1 + 1]);
      RunningBefore(trace[i - 1], actions[i - 1], trace[i]);
      SendsAlong(trace, actions, p, i - 1);
      StepSends(trace[i - 1], actions[i - 1], trace[i]);
    }
  }

  /** A ready broker that runs has sent the host first what it had buffered at readiness, the
      resize before the input, and then every request it was given, in order. */
  lemma HostGetsWhatWasAsked(
    operations: set<Operation>, setup: seq<Request>, trace: seq<State>, actions: seq<Action>, i: nat) returns (p: nat)
    requires Run(operations, setup, trace, actions) && i < |trace| && trace[i].stopped.None? && trace[i].v.ready
    ensures p < i && actions[p].Happens? && actions[p].event.Ready?
    ensures trace[i].v.toHost == Flush(trace[p].v) + HostFrom(trace, actions, p + 1, i)
  {
    p := ReadyStep(operations, setup, trace, actions, i);
    SendsAlong(trace, actions, p + 1, i);
    assert Moves(trace[p], actions[p], trace[p + 1]);
    ReadinessSends(trace[p], actions[p], trace[p + 1]);
    EveryRunKeepsInvariant(operations, setup, trace, actions, p);
    BecomesReady(trace[p], actions[p], trace[p + 1]);
  }
}
