/** The order in which the controller broker announces events on its public stream. */
module BrokerOrder {
  import opened Common
  import opened Requests
  import opened Broker
  import opened BrokerRuns

  type Announced = seq<PublicEvent>

  /** Diagnostics may repeat; every other kind is announced at most once. */
  predicate SameKind(a: PublicEvent, b: PublicEvent) {
    || (a.PublicReady? && b.PublicReady?) || (a.PublicWorkloadExit? && b.PublicWorkloadExit?)
    || (a.PublicTerminating? && b.PublicTerminating?) || (a.PublicTerminated? && b.PublicTerminated?)
    || (a.PublicOutputsFinalized? && b.PublicOutputsFinalized?) || (a.PublicClientError? && b.PublicClientError?)
  }

  predicate Finalization(p: Announced) { PublicOutputsFinalized(true) in p || PublicOutputsFinalized(false) in p }

  /** What must, and must not, come before an event. */
  predicate Allowed(p: Announced, e: PublicEvent) {
    && PublicClientError !in p && (PublicTerminated in p ==> e.PublicClientError?)
    && (e.PublicReady? ==> PublicTerminating !in p)
    && (e.PublicWorkloadExit? ==> !Finalization(p))
    && (e.PublicOutputsFinalized? ==>
          PublicTerminating in p && (e.drained && PublicReady in p ==> PublicWorkloadExit in p))
    && (e.PublicTerminated? && PublicReady in p ==> PublicTerminating in p && Finalization(p))
  }

  predicate Fresh(p: Announced, e: PublicEvent) { forall i :: 0 <= i < |p| ==> !SameKind(p[i], e) }

  /** Each event is allowed after those before it, and new. */
  predicate Orderly(p: Announced) { forall i :: 0 <= i < |p| ==> Allowed(p[..i], p[i]) && Fresh(p[..i], p[i]) }

  lemma OrderlyMore(p: Announced, e: PublicEvent)
    requires Orderly(p) && Allowed(p, e) && Fresh(p, e)
    ensures Orderly(p + [e])
  {
    var q := p + [e];
    forall i | 0 <= i < |q| ensures Allowed(q[..i], q[i]) && Fresh(q[..i], q[i]) {
      assert q[..i] == if i < |p| then p[..i] else p;
    }
  }

  lemma FreshIff(p: Announced, e: PublicEvent)
    ensures Fresh(p, e) <==> forall x :: x in p ==> !SameKind(x, e)
  {
  }

  /** What has been announced, as a set of facts. */
  datatype Facts = Facts(ready: bool, exited: bool, terminating: bool, finalized: bool, terminated: bool, failed: bool)

  function FactsOf(p: Announced): Facts {
    Facts(PublicReady in p, PublicWorkloadExit in p, PublicTerminating in p, Finalization(p), PublicTerminated in p,
          PublicClientError in p)
  }

  /** The facts after one more event. */
  function Learn(f: Facts, e: PublicEvent): Facts {
    match e
    case PublicReady => f.(ready := true)
    case PublicWorkloadExit => f.(exited := true)
    case PublicTerminating => f.(terminating := true)
    case PublicDiagnostic(_) => f
    case PublicOutputsFinalized(_) => f.(finalized := true)
    case PublicTerminated => f.(terminated := true)
    case PublicClientError => f.(failed := true)
  }

  lemma FactsGrow(p: Announced, e: PublicEvent)
    ensures FactsOf(p + [e]) == Learn(FactsOf(p), e)
  {
    assert forall x :: x in p + [e] <==> x in p || x == e;
  }

  /** The rules in terms of the facts. */
  predicate MayAnnounce(f: Facts, e: PublicEvent) {
    && !f.failed && (f.terminated ==> e.PublicClientError?)
    && match e
       case PublicReady => !f.ready && !f.terminating
       case PublicWorkloadExit => !f.exited && !f.finalized
       case PublicTerminating => !f.terminating
       case PublicDiagnostic(_) => true
       case PublicOutputsFinalized(drained) => !f.finalized && f.terminating && (drained && f.ready ==> f.exited)
       case PublicTerminated => f.ready ==> f.terminating && f.finalized
       case PublicClientError => true
  }

  lemma AnnouncingKeepsOrder(p: Announced, e: PublicEvent)
    requires Orderly(p) && MayAnnounce(FactsOf(p), e)
    ensures Orderly(p + [e])
  {
    FreshIff(p, e);
    forall x | x in p ensures !SameKind(x, e) {
      if x.PublicOutputsFinalized? { assert x == PublicOutputsFinalized(true) || x == PublicOutputsFinalized(false); }
    }
    OrderlyMore(p, e);
  }

  /** The flags of a running broker against what it has announced. */
  predicate Told(v: View, f: Facts) {
    && v.ready == f.ready && v.exited == f.exited && v.terminating == f.terminating && v.terminated == f.terminated
    && !f.failed
    && (f.finalized ==> v.finalized) && (v.finalized && v.ready ==> f.finalized)
    && (v.finalized ==> v.terminating || v.terminated) && v.finalized == v.ended
  }

  /** An event is announced when it may be, or not at all. */
  ghost predicate Announcing(v: View, o: Outcome, f: Facts) {
    || (o.view.toPublic == v.toPublic && (o.ok ==> Told(o.view, f)))
    || exists e :: o.view.toPublic == v.toPublic + [e] && MayAnnounce(f, e) && !e.PublicClientError?
                   && (o.ok ==> Told(o.view, Learn(f, e)))
  }

  lemma ReadyIsAnnounced(v: View, a: Answers, f: Facts)
    requires Told(v, f)
    ensures Announcing(v, OnReady(v, a), f)
  {
    var o := OnReady(v, a);
    ReadyAnnounces(v, a);
    if o.view.toPublic != v.toPublic { assert MayAnnounce(f, PublicReady); }
    if o.ok { ReadyIsTold(v, a, f); }
  }

  lemma ReadyIsTold(v: View, a: Answers, f: Facts)
    requires Told(v, f) && OnReady(v, a).ok
    ensures Told(OnReady(v, a).view, Learn(f, PublicReady))
  {
  }

  lemma FinalizedIsAnnounced(v: View, present: bool, drained: bool, a: Answers, f: Facts)
    requires Told(v, f)
    ensures Announcing(v, OnFinalized(v, present, drained, a), f)
  {
    var e := PublicOutputsFinalized(drained);
    if OnFinalized(v, present, drained, a).view.toPublic == v.toPublic + [e] { assert MayAnnounce(f, e); }
  }

  lemma TerminatedIsAnnounced(v: View, present: bool, a: Answers, f: Facts)
    requires Told(v, f)
    ensures Announcing(v, OnTerminated(v, present, a), f)
  {
    var e := PublicTerminated;
    if OnTerminated(v, present, a).view.toPublic == v.toPublic + [e] { assert MayAnnounce(f, e); }
  }

  lemma EventIsAnnounced(v: View, e: HostEvent, a: Answers, f: Facts)
    requires Told(v, f)
    ensures Announcing(v, ApplyHostEvent(v, e, a), f)
  {
    var o := ApplyHostEvent(v, e, a);
    match e
    case Ready => ReadyIsAnnounced(v, a, f);
    case OutputsFinalized(present, drained) => FinalizedIsAnnounced(v, present, drained, a, f);
    case Terminated(present) => TerminatedIsAnnounced(v, present, a, f);
    case WorkloadExit(_) => if o.ok { assert MayAnnounce(f, PublicWorkloadExit); }
    case Terminating(_) => if o.ok { assert MayAnnounce(f, PublicTerminating); }
    case Diagnostic(payload) => if o.ok { assert MayAnnounce(f, PublicDiagnostic(payload.value)); }
    case _ =>
  }

  lemma AskIsSilent(v: View, source: Source, r: Request, a: Answers, f: Facts)
    requires Told(v, f)
    ensures ApplyRequest(v, source, r, a).view.toPublic == v.toPublic && Told(ApplyRequest(v, source, r, a).view, f)
  {
    AskShape(v, source, r, a);
  }

  /** In every state the announcements so far are in order; while the broker runs, its flags
      agree with them. */
  ghost predicate OrderInvariant(s: State) {
    && Orderly(s.v.toPublic) && (s.stopped.None? ==> Told(s.v, FactsOf(s.v.toPublic)))
    && (PublicClientError in s.v.toPublic <==> s.complaint == Some(true))
    && (s.complaint.Some? ==> s.stopped == Some(false))
  }

  lemma AskKeepsOrder(s: State, source: Source, r: Request, a: Answers)
    requires OrderInvariant(s) && s.stopped.None?
    ensures OrderInvariant(OnAsk(s, source, r, a))
  {
    AskIsSilent(s.v, source, r, a, FactsOf(s.v.toPublic));
  }

  lemma AnnouncingKeepsInvariant(v: View, o: Outcome)
    requires Orderly(v.toPublic) && Announcing(v, o, FactsOf(v.toPublic))
    ensures Orderly(o.view.toPublic) && (o.ok ==> Told(o.view, FactsOf(o.view.toPublic)))
    ensures PublicClientError in o.view.toPublic <==> PublicClientError in v.toPublic
  {
    var p := v.toPublic;
    if o.view.toPublic != p {
      var e :| o.view.toPublic == p + [e] && MayAnnounce(FactsOf(p), e) && !e.PublicClientError?
               && (o.ok ==> Told(o.view, Learn(FactsOf(p), e)));
      AnnouncingKeepsOrder(p, e);
      FactsGrow(p, e);
    }
  }

  lemma EventKeepsOrder(s: State, e: HostEvent, a: Answers)
    requires OrderInvariant(s) && s.stopped.None?
    ensures OrderInvariant(OnEvent(s, e, a))
  {
    if !e.Output? {
      EventIsAnnounced(s.v, e, a, FactsOf(s.v.toPublic));
      AnnouncingKeepsInvariant(s.v, ApplyHostEvent(s.v, e, a));
    }
  }

  /** The writer only touches the terminal's side, the ends of streams nothing. */
  predicate Silent(v: View, w: View) { w == v.(toTerminal := w.toTerminal) }

  lemma WriterIsSilent(s: State, ok: bool, t: State)
    requires OnWrite(s, ok) == Some(t)
    ensures Silent(s.v, t.v) && t.stopped == s.stopped && t.complaint == s.complaint
  {
  }

  lemma EndsAreSilent(s: State, a: Action, t: State)
    requires Moves(s, a, t) && (a.Offer? || a.WriterReports? || a.HostEnds? || a.InputEnds? || a.Cancelled?)
    ensures t.v == s.v && s.stopped.None? && t.complaint == s.complaint
  {
  }

  lemma SilenceKeepsOrder(s: State, t: State)
    requires OrderInvariant(s) && Silent(s.v, t.v) && t.complaint == s.complaint
    requires s.stopped.Some? ==> t.stopped == s.stopped
    ensures OrderInvariant(t)
  {
  }

  lemma ComplaintKeepsOrder(s: State, ok: bool, t: State)
    requires OrderInvariant(s) && OnComplain(s, ok) == Some(t)
    ensures OrderInvariant(t)
  {
    if ok { AnnouncingKeepsOrder(s.v.toPublic, PublicClientError); }
  }

  lemma StepKeepsOrder(s: State, a: Action, t: State)
    requires OrderInvariant(s) && Moves(s, a, t)
    ensures OrderInvariant(t)
  {
    if a.Asks? { AskKeepsOrder(s, a.source, a.request, a.answers); }
    else if a.Happens? { EventKeepsOrder(s, a.event, a.answers); }
    else if a.Complain? { ComplaintKeepsOrder(s, a.ok, t); }
    else {
      if a.WriterWrites? { WriterIsSilent(s, a.ok, t); } else { EndsAreSilent(s, a, t); }
      SilenceKeepsOrder(s, t);
    }
  }

  lemma ReplayKeepsOrder(s: State, r: Request)
    requires OrderInvariant(s)
    ensures OrderInvariant(Replay(s, r))
  {
    if s.stopped.None? { AskKeepsOrder(s, Terminal, r, Answers(false, false, false, false)); }
  }

  lemma StartedInOrder(operations: set<Operation>, p: Setup)
    ensures OrderInvariant(Started(operations, p))
  {
    var blank := Blank(operations);
    assert OrderInvariant(blank);
    if p.resize.Some? { ReplayKeepsOrder(blank, p.resize.value); }
    if p.input.Some? {
      ReplayKeepsOrder(if p.resize.Some? then Replay(blank, p.resize.value) else blank, InputRequest(p.input.value));
    }
  }

  /** In every run, readiness, workload exit, termination, output finalization and the final
      result are announced at most once each and in their order; drained output of a ready
      session only after its exit; diagnostics at any time before the final result; a client
      error at most once, as the last event, and nothing else after the final result. */
  lemma {:induction false} PublicEventsAreInOrder(
    operations: set<Operation>, setup: seq<Request>, trace: seq<State>, actions: seq<Action>, i: nat)
    requires Run(operations, setup, trace, actions) && i < |trace|
    ensures OrderInvariant(trace[i])
  {
    if i == 0 {
      StartedInOrder(operations, AddAll(Setup(None, None), setup).value);
    } else {
      PublicEventsAreInOrder(operations, setup, trace, actions, i - 1);
      assert Moves(trace[i - 1], actions[i - 1], trace[i - 1 + 1]);
      StepKeepsOrder(trace[i - 1], actions[i - 1], trace[i]);
    }
  }

  lemma Follows(p: Announced, k: nat, i: nat)
    requires Orderly(p) && k < i < |p|
    ensures p[k] != PublicClientError && (p[k] == PublicTerminated ==> p[i] == PublicClientError)
  {
    assert p[..i][k] == p[k];
    assert Allowed(p[..i], p[i]);
  }

  /** A client error ends the public stream. */
  lemma ClientErrorIsLast(p: Announced, k: nat)
    requires Orderly(p) && k < |p| && p[k] == PublicClientError
    ensures k == |p| - 1
  {
    if k < |p| - 1 { Follows(p, k, k + 1); }
  }

  /** ... and only that error can follow the final result. */
  lemma FinalResultIsLastButForAnError(p: Announced, k: nat)
    requires Orderly(p) && k < |p| && p[k] == PublicTerminated
    ensures p[k + 1..] == [] || p[k + 1..] == [PublicClientError]
  {
    if k + 1 < |p| {
      Follows(p, k, k + 1);
      ClientErrorIsLast(p, k + 1);
    }
  }

  /** In every run the public stream carries a client error if and only if the broker has
      stopped with an error and that announcement could be written; it is then the last
      event, and it alone can follow the final result. */
  lemma ClientErrorMeansFailure(
    operations: set<Operation>, setup: seq<Request>, trace: seq<State>, actions: seq<Action>, i: nat)
    requires Run(operations, setup, trace, actions) && i < |trace|
    ensures var p := trace[i].v.toPublic;
            && (PublicClientError in p <==> trace[i].complaint == Some(true))
            && (PublicClientError in p ==> trace[i].stopped == Some(false))
            && (forall k :: 0 <= k < |p| && p[k] == PublicClientError ==> k == |p| - 1)
            && (forall k :: 0 <= k < |p| && p[k] == PublicTerminated ==>
                  p[k + 1..] == [] || p[k + 1..] == [PublicClientError])
  {
    PublicEventsAreInOrder(operations, setup, trace, actions, i);
    var p := trace[i].v.toPublic;
    forall k | 0 <= k < |p| && p[k] == PublicClientError ensures k == |p| - 1 { ClientErrorIsLast(p, k); }
    forall k | 0 <= k < |p| && p[k] == PublicTerminated ensures p[k + 1..] == [] || p[k + 1..] == [PublicClientError] {
      FinalResultIsLastButForAnError(p, k);
    }
  }

  /** A run in which the client error follows the final result: the host ends its connection
      before the controller has acknowledged. */
  lemma ErrorAfterTheFinalResult() returns (trace: seq<State>, actions: seq<Action>)
    ensures Run({}, [], trace, actions) && |actions| == 3
    ensures actions[1] == HostEnds && trace[3].v.toPublic == [PublicTerminated, PublicClientError]
  {
    actions := [Happens(Terminated(true), Answers(true, true, true, true)), HostEnds, Complain(true)];
    var s0 := Started({}, Setup(None, None));
    var s1 := Next(s0, actions[0]).value;
    var s2 := Next(s1, actions[1]).value;
    var s3 := Next(s2, actions[2]).value;
    trace := [s0, s1, s2, s3];
    assert s1.v.toPublic == [PublicTerminated];
    assert AddAll(Setup(None, None), []) == Some(Setup(None, None));
    assert Moves(s0, actions[0], s1) && Moves(s1, actions[1], s2) && Moves(s2, actions[2], s3);
  }
}
