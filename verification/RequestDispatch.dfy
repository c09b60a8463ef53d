/**
 Request dispatch of a session bridge (internal/controlledsession/session_io.go): one loop
 reads requests and hands them to a handler; the host may cancel the request that is active,
 or stop the dispatch, at any moment.
 */
module RequestDispatch {
  import opened Common

  /** What went wrong; a cancellation is told apart from other errors. */
  datatype Failure = Cancellation | Other(code: nat)

  /** The loop: reading, handling request `id`, or back from its handler; then finished. */
  datatype Loop =
    | Reading
    | Starting(id: nat)
    | Handling(id: nat)
    | Returned(id: nat, failure: Option<Failure>)
    | Done(result: Option<Failure>)

  datatype State = State(
    loop: Loop,
    active: Option<nat>,         // the request that CancelActiveRequest would hit
    cancelled: set<nat>,         // requests marked as cancelled by the host
    stopped: bool,               // StopRequests was called
    started: nat,                // requests read so far
    handled: seq<(nat, Option<Failure>)>)   // handler returns, in order

  datatype Action =
    | ReadReturns(failure: Option<Failure>)
    | Publish
    | HandlerReturns(failure: Option<Failure>)
    | Clear
    | CancelActive
    | StopDispatch

  function Initial(): State { State(Reading, None, {}, false, 0, []) }

  /** Go's `requestFailure`: a cancellation after the host stopped the dispatch is no error. */
  function Verdict(s: State, f: Failure): Option<Failure> {
    if f == Cancellation && s.stopped then None else Some(f)
  }

  /** The section that leaves a request: forgiven when the host cancelled it. */
  function Leave(s: State, id: nat, failure: Option<Failure>): State {
    var t := s.(active := if s.active == Some(id) then None else s.active);
    if failure.None? || id in s.cancelled then t.(loop := Reading)
    else t.(loop := Done(Verdict(s, failure.value)))
  }

  function Cancel(s: State): State {
    if s.active.None? then s else s.(cancelled := s.cancelled + {s.active.value})
  }

  function Next(s: State, a: Action): Option<State> {
    match a
    case ReadReturns(None) =>
      if s.loop.Reading? then Some(s.(loop := Starting(s.started), started := s.started + 1)) else None
    case ReadReturns(Some(f)) => if s.loop.Reading? then Some(s.(loop := Done(Verdict(s, f)))) else None
    case Publish => if s.loop.Starting? then Some(s.(loop := Handling(s.loop.id), active := Some(s.loop.id))) else None
    case HandlerReturns(f) =>
      if s.loop.Handling? then Some(s.(loop := Returned(s.loop.id, f), handled := s.handled + [(s.loop.id, f)])) else None
    case Clear => if s.loop.Returned? then Some(Leave(s, s.loop.id, s.loop.failure)) else None
    case CancelActive => Some(Cancel(s))
    case StopDispatch => Some(s.(stopped := true))
  }

  predicate Moves(s: State, a: Action, t: State) { Next(s, a) == Some(t) }

  predicate Run(trace: seq<State>, actions: seq<Action>) {
    && |trace| == |actions| + 1 && trace[0] == Initial()
    && forall i :: 0 <= i < |actions| ==> Moves(trace[i], actions[i], trace[i + 1])
  }

  /** The request the loop is busy with. */
  function Current(l: Loop): Option<nat> {
    match l
    case Starting(id) => Some(id)
    case Handling(id) => Some(id)
    case Returned(id, _) => Some(id)
    case _ => None
  }

  predicate Invariant(s: State) {
    && (Current(s.loop).Some? ==> s.started == Current(s.loop).value + 1)
    && s.active == (if s.loop.Handling? || s.loop.Returned? then Current(s.loop) else None)
    && (forall id :: id in s.cancelled ==> id < s.started)
    && (s.loop.Starting? ==> s.loop.id !in s.cancelled)
    && |s.handled| == (if s.loop.Starting? || s.loop.Handling? then s.started - 1 else s.started)
    && (forall i :: 0 <= i < |s.handled| ==> s.handled[i].0 == i)
    && (s.loop.Returned? ==> s.handled[s.loop.id] == (s.loop.id, s.loop.failure))
    && (forall i :: 0 <= i < |s.handled| && s.handled[i].1.Some? && i !in s.cancelled ==>
          i == s.started - 1 && (s.loop.Returned? || s.loop.Done?))
    && (s.loop == Done(None) ==> s.stopped)
  }

  lemma StepKeepsInvariant(s: State, a: Action, t: State)
    requires Invariant(s) && Moves(s, a, t)
    ensures Invariant(t)
  {
  }

  lemma {:induction false} EveryScheduleKeepsInvariant(trace: seq<State>, actions: seq<Action>, i: nat)
    requires Run(trace, actions) && i < |trace|
    ensures Invariant(trace[i])
  {
    if i > 0 {
      EveryScheduleKeepsInvariant(trace, actions, i - 1);
      assert Moves(trace[i - 1], actions[i - 1], trace[i - 1 + 1]);
      StepKeepsInvariant(trace[i - 1], actions[i - 1], trace[i]);
    }
  }

  /** Requests are handled one at a time, each once, in the order they were read; a failure
      the host did not cancel is the last one; the dispatch ends without an error only after
      the host stopped it. */
  lemma DispatchIsSerial(trace: seq<State>, actions: seq<Action>, i: nat)
    requires Run(trace, actions) && i < |trace|
    ensures var s := trace[i];
            && s.started - 1 <= |s.handled| <= s.started
            && (forall k :: 0 <= k < |s.handled| ==> s.handled[k].0 == k)
            && (forall k :: 0 <= k < |s.handled| && s.handled[k].1.Some? && k !in s.cancelled ==>
                  k == s.started - 1 && (s.loop.Returned? || s.loop.Done?))
            && (s.loop == Done(None) ==> s.stopped)
  {
    EveryScheduleKeepsInvariant(trace, actions, i);
  }

  /** A cancellation marks the request the loop is busy with, and never any other. */
  lemma CancellationHitsTheActiveRequest(trace: seq<State>, actions: seq<Action>, i: nat, id: nat)
    requires Run(trace, actions) && i < |actions| && id in trace[i + 1].cancelled && id !in trace[i].cancelled
    ensures actions[i].CancelActive? && Current(trace[i].loop) == Some(id) && !trace[i].loop.Starting?
    ensures trace[i + 1].loop == trace[i].loop
  {
    EveryScheduleKeepsInvariant(trace, actions, i);
    assert Moves(trace[i], actions[i], trace[i + 1]);
  }

  // ----- what a cancellation amounts to, over whole runs

  /** Step `p` makes request `id` the active one. */
  predicate PublishedAt(trace: seq<State>, actions: seq<Action>, p: nat, id: nat) {
    p < |actions| < |trace| && actions[p].Publish? && trace[p].loop == Starting(id)
  }

  predicate CancelledBetween(actions: seq<Action>, p: nat, j: nat) {
    exists c :: p < c < j && c < |actions| && actions[c].CancelActive?
  }

  /** The host asked to cancel at a step in between, while the request was not over yet. */
  ghost predicate CancelledByHost(trace: seq<State>, actions: seq<Action>, j: nat, id: nat) {
    exists p: nat, c: nat :: PublishedAt(trace, actions, p, id) && HitsAt(actions, p, c) && c < j
  }

  /** A cancellation at step `c`, with no request ending since step `p`. */
  predicate HitsAt(actions: seq<Action>, p: nat, c: nat) {
    p < c < |actions| && actions[c].CancelActive? && forall x :: p < x < c ==> !actions[x].Clear?
  }

  lemma StepFacts(trace: seq<State>, actions: seq<Action>, i: nat)
    requires Run(trace, actions) && i < |actions|
    ensures Invariant(trace[i]) && Invariant(trace[i + 1]) && Moves(trace[i], actions[i], trace[i + 1])
    ensures trace[i].started <= trace[i + 1].started
  {
    EveryScheduleKeepsInvariant(trace, actions, i);
    EveryScheduleKeepsInvariant(trace, actions, i + 1);
  }

  lemma {:induction false} StartedGrows(trace: seq<State>, actions: seq<Action>, i: nat, j: nat)
    requires Run(trace, actions) && i <= j < |trace|
    ensures trace[i].started <= trace[j].started
    decreases j
  {
    if i < j {
      StartedGrows(trace, actions, i, j - 1);
      StepFacts(trace, actions, j - 1);
    }
  }

  /** A request that is active was published by some earlier step and has not ended since. */
  lemma {:induction false} PublishOf(trace: seq<State>, actions: seq<Action>, j: nat, id: nat) returns (p: nat)
    requires Run(trace, actions) && j < |trace| && trace[j].active == Some(id)
    ensures p < j && PublishedAt(trace, actions, p, id) && forall x :: p < x < j ==> !actions[x].Clear?
  {
    if j == 0 {
      assert false;
    } else {
      StepFacts(trace, actions, j - 1);
      if actions[j - 1].Publish? {
        p := j - 1;
      } else {
        p := PublishOf(trace, actions, j - 1, id);
      }
    }
  }

  /** Until it ends, a published request is the active one, and it is marked as cancelled
      if and only if the host has asked for a cancellation since. */
  lemma {:induction false} MarkedSince(trace: seq<State>, actions: seq<Action>, p: nat, j: nat, id: nat)
    requires Run(trace, actions) && p < j < |trace| && PublishedAt(trace, actions, p, id)
    requires forall x :: p < x < j ==> !actions[x].Clear?
    ensures trace[j].active == Some(id)
    ensures id in trace[j].cancelled <==> CancelledBetween(actions, p, j)
    decreases j
  {
    StepFacts(trace, actions, j - 1);
    if p < j - 1 {
      MarkedSince(trace, actions, p, j - 1, id);
      if CancelledBetween(actions, p, j) && !actions[j - 1].CancelActive? {
        var c :| p < c < j && c < |actions| && actions[c].CancelActive?;
        assert c < j - 1;
      }
      if actions[j - 1].CancelActive? { assert CancelledBetween(actions, p, j); }
    }
  }

  lemma {:induction false} MarksStay(trace: seq<State>, actions: seq<Action>, i: nat, j: nat)
    requires Run(trace, actions) && i <= j < |trace|
    ensures trace[i].cancelled <= trace[j].cancelled
    decreases j
  {
    if i < j {
      MarksStay(trace, actions, i, j - 1);
      StepFacts(trace, actions, j - 1);
    }
  }

  lemma {:induction false} MarkHasACause(trace: seq<State>, actions: seq<Action>, j: nat, id: nat)
    requires Run(trace, actions) && j < |trace| && id in trace[j].cancelled
    ensures CancelledByHost(trace, actions, j, id)
  {
    if j == 0 {
      assert false;
    } else if id in trace[j - 1].cancelled {
      MarkHasACause(trace, actions, j - 1, id);
    } else {
      StepFacts(trace, actions, j - 1);
      var p := PublishOf(trace, actions, j - 1, id);
      assert HitsAt(actions, p, j - 1);
    }
  }

  /** The marked requests are exactly those the host asked to cancel between their
      publication and their end. */
  lemma MarkedIffCancelled(trace: seq<State>, actions: seq<Action>, j: nat, id: nat)
    requires Run(trace, actions) && j < |trace|
    ensures id in trace[j].cancelled <==> CancelledByHost(trace, actions, j, id)
  {
    if id in trace[j].cancelled { MarkHasACause(trace, actions, j, id); }
    if CancelledByHost(trace, actions, j, id) {
      var p: nat, c: nat :| PublishedAt(trace, actions, p, id) && HitsAt(actions, p, c) && c < j;
      MarkedSince(trace, actions, p, c + 1, id);
      assert CancelledBetween(actions, p, c + 1);
      MarksStay(trace, actions, c + 1, j);
    }
  }

  /** The loop leaves a failed request, published at step `p`, for the next one if and only if
      the host asked for a cancellation between that publication and the leaving. */
  lemma ForgivenIffCancelled(trace: seq<State>, actions: seq<Action>, j: nat) returns (p: nat)
    requires Run(trace, actions) && j < |actions| && actions[j].Clear?
    requires trace[j].loop.Returned? && trace[j].loop.failure.Some?
    ensures p < j && PublishedAt(trace, actions, p, trace[j].loop.id)
    ensures trace[j + 1].loop.Reading? <==> CancelledBetween(actions, p, j)
    ensures !CancelledBetween(actions, p, j) ==>
              trace[j + 1].loop == Done(Verdict(trace[j], trace[j].loop.failure.value))
  {
    StepFacts(trace, actions, j);
    p := PublishOf(trace, actions, j, trace[j].loop.id);
    MarkedSince(trace, actions, p, j, trace[j].loop.id);
  }

  lemma PublishedOnce(trace: seq<State>, actions: seq<Action>, p: nat, q: nat, id: nat)
    requires Run(trace, actions) && PublishedAt(trace, actions, p, id) && PublishedAt(trace, actions, q, id)
    ensures p == q
  {
    StepFacts(trace, actions, p);
    StepFacts(trace, actions, q);
    if p < q { NotPublishedAgain(trace, actions, p, q, id); }
    if q < p { NotPublishedAgain(trace, actions, q, p, id); }
  }

  lemma {:induction false} NotPublishedAgain(trace: seq<State>, actions: seq<Action>, p: nat, j: nat, id: nat)
    requires Run(trace, actions) && p < j < |trace| && PublishedAt(trace, actions, p, id)
    ensures trace[j].loop != Starting(id)
    decreases j
  {
    StepFacts(trace, actions, p);
    StepFacts(trace, actions, j - 1);
    if p < j - 1 {
      NotPublishedAgain(trace, actions, p, j - 1, id);
      StartedGrows(trace, actions, p, j - 1);
    }
  }

  /** The host stopped the dispatch before step `j`. */
  predicate StoppedBefore(actions: seq<Action>, j: nat) {
    exists c :: 0 <= c < j && c < |actions| && actions[c].StopDispatch?
  }

  lemma {:induction false} StopsAreRemembered(trace: seq<State>, actions: seq<Action>, j: nat)
    requires Run(trace, actions) && j < |trace|
    ensures trace[j].stopped <==> StoppedBefore(actions, j)
  {
    if j > 0 {
      StopsAreRemembered(trace, actions, j - 1);
      assert Moves(trace[j - 1], actions[j - 1], trace[j - 1 + 1]);
      if StoppedBefore(actions, j) && !actions[j - 1].StopDispatch? {
        var c :| 0 <= c < j && c < |actions| && actions[c].StopDispatch?;
        assert c < j - 1;
      }
      if actions[j - 1].StopDispatch? { assert StoppedBefore(actions, j); }
    }
  }

  /** The failure that a step ends the dispatch with: of a read, or of a handler that the host
      had not cancelled. */
  function EndingFailure(s: State, a: Action): Option<Failure> {
    match a
    case ReadReturns(f) => f
    case Clear => if s.loop.Returned? then s.loop.failure else None
    case _ => None
  }

  /** The dispatch ends with the failure of its last read or handler, except that a
      cancellation after the host stopped it is no failure; and it ends in no other way. */
  lemma EndMeaning(trace: seq<State>, actions: seq<Action>, j: nat)
    requires Run(trace, actions) && j < |actions| && !trace[j].loop.Done? && trace[j + 1].loop.Done?
    ensures EndingFailure(trace[j], actions[j]).Some?
    ensures var f := EndingFailure(trace[j], actions[j]).value;
            trace[j + 1].loop.result == if f == Cancellation && StoppedBefore(actions, j) then None else Some(f)
  {
    StopsAreRemembered(trace, actions, j);
    assert Moves(trace[j], actions[j], trace[j + 1]);
  }

  lemma DoneIsDone(s: State, a: Action, t: State)
    requires Moves(s, a, t) && s.loop.Done?
    ensures t.loop == s.loop
  {
  }

  /** A failed read always ends the dispatch, and a handler that succeeds never does. */
  lemma GoesOnIff(trace: seq<State>, actions: seq<Action>, j: nat)
    requires Run(trace, actions) && j < |actions|
    ensures actions[j].ReadReturns? ==> (trace[j + 1].loop.Done? <==> actions[j].failure.Some?)
    ensures actions[j].ReadReturns? && actions[j].failure.None? ==> trace[j + 1].loop == Starting(trace[j].started)
    ensures actions[j].Clear? && EndingFailure(trace[j], actions[j]).None? ==> trace[j + 1].loop.Reading?
    ensures actions[j].HandlerReturns? ==>
              trace[j + 1].handled == trace[j].handled + [(trace[j].started - 1, actions[j].failure)]
  {
    EveryScheduleKeepsInvariant(trace, actions, j);
    assert Moves(trace[j], actions[j], trace[j + 1]);
  }

  /** The host may cancel a request whose handler has already failed for reasons of its own;
      that failure is then forgiven as well. */
  lemma LateCancellationForgives(code: nat) returns (trace: seq<State>, actions: seq<Action>)
    ensures Run(trace, actions) && |actions| == 5 && trace[5].loop.Reading?
    ensures trace[5].handled == [(0, Some(Other(code)))]
    ensures actions[2] == HandlerReturns(Some(Other(code))) && actions[3] == CancelActive
  {
    actions := [ReadReturns(None), Publish, HandlerReturns(Some(Other(code))), CancelActive, Clear];
    var s0 := Initial();
    var s1 := Next(s0, actions[0]).value;
    var s2 := Next(s1, actions[1]).value;
    var s3 := Next(s2, actions[2]).value;
    var s4 := Next(s3, actions[3]).value;
    var s5 := Next(s4, actions[4]).value;
    trace := [s0, s1, s2, s3, s4, s5];
  }

  // ----- the bridge as Go's methods update it

  /** The shared fields, and where the dispatching goroutine is. Each method is one section
      of the program that holds the mutex, or one answer of the transport or the handler. */
  class Bridge {
    var loop: Loop
    var active: Option<nat>
    var cancelled: set<nat>
    var stopped: bool
    var started: nat
    var handled: seq<(nat, Option<Failure>)>

    constructor ()
      ensures Value() == Initial() && Invariant(Value())
    {
      loop, active, cancelled, stopped, started, handled := Reading, None, {}, false, 0, [];
    }

    ghost function Value(): State
      reads this
    {
      State(loop, active, cancelled, stopped, started, handled)
    }

    method RequestFailure(f: Failure) returns (r: Option<Failure>)
      ensures r == Verdict(Value(), f)
    {
      if f == Cancellation && stopped { return None; }
      return Some(f);
    }

    method ReadRequest(failure: Option<Failure>)
      requires Invariant(Value()) && loop.Reading?
      modifies this
      ensures Moves(old(Value()), ReadReturns(failure), Value()) && Invariant(Value())
    {
      ghost var was := Value();
      if failure.Some? {
        var result := RequestFailure(failure.value);
        loop := Done(result);
      } else {
        loop, started := Starting(started), started + 1;
      }
      StepKeepsInvariant(was, ReadReturns(failure), Value());
    }

    method Begin()
      requires Invariant(Value()) && loop.Starting?
      modifies this
      ensures Moves(old(Value()), Publish, Value()) && Invariant(Value())
    {
      ghost var was := Value();
      active, loop := Some(loop.id), Handling(loop.id);
      StepKeepsInvariant(was, Publish, Value());
    }

    method Handle(failure: Option<Failure>)
      requires Invariant(Value()) && loop.Handling?
      modifies this
      ensures Moves(old(Value()), HandlerReturns(failure), Value()) && Invariant(Value())
    {
      ghost var was := Value();
      handled, loop := handled + [(loop.id, failure)], Returned(loop.id, failure);
      StepKeepsInvariant(was, HandlerReturns(failure), Value());
    }

    /** The request is over; the loop goes on, or ends with its failure. */
    method Finish()
      requires Invariant(Value()) && loop.Returned?
      modifies this
      ensures Moves(old(Value()), Clear, Value()) && Invariant(Value())
      ensures active == None
    {
      ghost var was := Value();
      var id, failure := loop.id, loop.failure;
      var canceledByHost := id in cancelled;
      if active == Some(id) { active := None; }
      loop := Reading;
      if failure.Some? && !canceledByHost {
        var result := RequestFailure(failure.value);
        loop := Done(result);
      }
      StepKeepsInvariant(was, Clear, Value());
    }

    method CancelActiveRequest()
      requires Invariant(Value())
      modifies this
      ensures Moves(old(Value()), CancelActive, Value()) && Invariant(Value())
    {
      ghost var was := Value();
      if active.None? { return; }
      cancelled := cancelled + {active.value};
      StepKeepsInvariant(was, CancelActive, Value());
    }

    method StopRequests()
      requires Invariant(Value())
      modifies this
      ensures Moves(old(Value()), StopDispatch, Value()) && Invariant(Value())
    {
      ghost var was := Value();
      stopped := true;
      StepKeepsInvariant(was, StopDispatch, Value());
    }
  }
}
