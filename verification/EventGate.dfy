/**
 The monitor that serializes event writes on one controller channel
 (internal/controlledsession/session_io.go, `sessionEventWriteGateV1`).

 Class `Gate` holds the fields the mutex protects; each of its methods is one
 critical section of `acquire` or `release`. The step system below it runs any
 number of writers over such a gate, in every interleaving of those sections.
 A wake-up channel is known by its number: `changed` is the number of the channel
 currently installed, and every channel with a smaller number has been closed.
 */
module EventGate {

  datatype Fields = Fields(writing: bool, lifecycleWaiting: int, failed: bool, changed: nat)

  datatype Decision = Wait(channel: nat) | Refuse | Admit

  /** The condition of the wait loop in `acquire`. */
  predicate MustWait(g: Fields, lifecycle: bool) {
    !g.failed && (g.writing || (!lifecycle && g.lifecycleWaiting > 0))
  }

  function Notify(g: Fields): Fields { g.(changed := g.changed + 1) }

  function Unregister(g: Fields, lifecycle: bool): Fields {
    if lifecycle then Notify(g.(lifecycleWaiting := g.lifecycleWaiting - 1)) else g
  }

  function Register(g: Fields, lifecycle: bool): Fields {
    if lifecycle then Notify(g.(lifecycleWaiting := g.lifecycleWaiting + 1)) else g
  }

  /** One pass of the loop test and of what follows it, under the mutex. */
  function Check(g: Fields, lifecycle: bool, cancelled: bool): (Fields, Decision) {
    if MustWait(g, lifecycle) then (g, Wait(g.changed))
    else if g.failed || cancelled then (Unregister(g, lifecycle), Refuse)
    else
      (Notify(g.(writing := true, lifecycleWaiting := g.lifecycleWaiting - (if lifecycle then 1 else 0))), Admit)
  }

  function Released(g: Fields, writeFailed: bool): Fields {
    Notify(g.(writing := false, failed := g.failed || writeFailed))
  }

  class Gate {
    var writing: bool
    var lifecycleWaiting: int
    var failed: bool
    var changed: nat

    function Value(): Fields
      reads this
    {
      Fields(writing, lifecycleWaiting, failed, changed)
    }

    constructor ()
      ensures Value() == Fields(false, 0, false, 0)
    {
      writing, lifecycleWaiting, failed, changed := false, 0, false, 0;
    }

    method NotifyLocked()
      modifies this`changed
      ensures changed == old(changed) + 1
    {
      changed := changed + 1;
    }

    /** The first critical section of `acquire`: register, then test. */
    method Enter(lifecycle: bool, cancelled: bool) returns (decision: Decision)
      modifies this
      ensures (Value(), decision) == Check(Register(old(Value()), lifecycle), lifecycle, cancelled)
    {
      if lifecycle {
        lifecycleWaiting := lifecycleWaiting + 1;
        NotifyLocked();
      }
      decision := Recheck(lifecycle, cancelled);
    }

    /** The critical section entered at first and again after every wake-up. */
    method Recheck(lifecycle: bool, cancelled: bool) returns (decision: Decision)
      modifies this
      ensures (Value(), decision) == Check(old(Value()), lifecycle, cancelled)
    {
      if MustWait(Value(), lifecycle) { return Wait(changed); }
      if failed {
        GiveUp(lifecycle);
        return Refuse;
      }
      if cancelled {
        GiveUp(lifecycle);
        return Refuse;
      }
      if lifecycle { lifecycleWaiting := lifecycleWaiting - 1; }
      writing := true;
      NotifyLocked();
      return Admit;
    }

    /** A writer whose context ends, or who finds the gate failed, withdraws. */
    method GiveUp(lifecycle: bool)
      modifies this
      ensures Value() == Unregister(old(Value()), lifecycle)
    {
      if lifecycle {
        lifecycleWaiting := lifecycleWaiting - 1;
        NotifyLocked();
      }
    }

    method Release(writeFailed: bool)
      modifies this
      ensures Value() == Released(old(Value()), writeFailed)
    {
      if writeFailed && !failed { failed := true; }
      writing := false;
      NotifyLocked();
    }
  }

  // ----- any number of writers, in any interleaving

  datatype Place = Idle | Blocked(channel: nat) | Writing | Gone

  datatype Writer = Writer(lifecycle: bool, place: Place)

  datatype System = System(gate: Fields, writers: seq<Writer>)

  datatype Step =
    | Arrive(who: nat, cancelled: bool)     // acquire, up to the first wait
    | Wake(who: nat, cancelled: bool)       // the captured channel was found closed
    | Cancel(who: nat)                      // the context ended while waiting
    | Finish(who: nat, writeFailed: bool)   // the transport returned; release

  function After(decision: Decision): Place {
    match decision
    case Wait(channel) => Blocked(channel)
    case Refuse => Gone
    case Admit => Writing
  }

  predicate Enabled(s: System, step: Step) {
    && step.who < |s.writers|
    && var place := s.writers[step.who].place;
       match step
       case Arrive(_, _) => place.Idle?
       case Wake(_, _) => place.Blocked? && place.channel < s.gate.changed
       case Cancel(_) => place.Blocked?
       case Finish(_, _) => place.Writing?
  }

  function Next(s: System, step: Step): System
    requires Enabled(s, step)
  {
    var w := s.writers[step.who];
    match step
    case Arrive(who, cancelled) =>
      var (gate, decision) := Check(Register(s.gate, w.lifecycle), w.lifecycle, cancelled);
      System(gate, s.writers[who := w.(place := After(decision))])
    case Wake(who, cancelled) =>
      var (gate, decision) := Check(s.gate, w.lifecycle, cancelled);
      System(gate, s.writers[who := w.(place := After(decision))])
    case Cancel(who) =>
      System(Unregister(s.gate, w.lifecycle), s.writers[who := w.(place := Gone)])
    case Finish(who, writeFailed) =>
      System(Released(s.gate, writeFailed), s.writers[who := w.(place := Gone)])
  }

  predicate Initial(s: System) {
    && s.gate == Fields(false, 0, false, 0)
    && forall i :: 0 <= i < |s.writers| ==> s.writers[i].place == Idle
  }

  /** `s` is the state after some enabled schedule from `start`. */
  ghost predicate Reaches(start: System, schedule: seq<Step>, s: System)
    decreases |schedule|
  {
    if schedule == [] then s == start
    else
      var last := |schedule| - 1;
      exists before :: Reaches(start, schedule[..last], before)
                       && Enabled(before, schedule[last]) && s == Next(before, schedule[last])
  }

  predicate Registered(w: Writer) { w.lifecycle && w.place.Blocked? }

  function Sum(writers: seq<Writer>, weight: Writer -> nat): nat {
    if writers == [] then 0
    else Sum(writers[..|writers| - 1], weight) + weight(writers[|writers| - 1])
  }

  /** How many lifecycle writers are registered and still waiting. */
  function CountRegistered(writers: seq<Writer>): nat {
    Sum(writers, RegisteredWeight)
  }

  function RegisteredWeight(w: Writer): nat { if Registered(w) then 1 else 0 }

  /** No writer waits on the channel that is still current unless it still has to wait. */
  predicate NoLostWakeup(s: System) {
    forall i :: 0 <= i < |s.writers| && s.writers[i].place.Blocked? ==>
      && s.writers[i].place.channel <= s.gate.changed
      && (s.writers[i].place.channel == s.gate.changed ==> MustWait(s.gate, s.writers[i].lifecycle))
  }

  predicate OneWriter(s: System) {
    && (forall i, j | 0 <= i < |s.writers| && 0 <= j < |s.writers|
          :: s.writers[i].place.Writing? && s.writers[j].place.Writing? ==> i == j)
    && (forall i :: 0 <= i < |s.writers| && s.writers[i].place.Writing? ==> s.gate.writing)
    && (s.gate.writing ==> exists i :: 0 <= i < |s.writers| && s.writers[i].place.Writing?)
    && (s.gate.failed ==> !s.gate.writing)
  }

  predicate Invariant(s: System) {
    && OneWriter(s)
    && NoLostWakeup(s)
    && s.gate.lifecycleWaiting == CountRegistered(s.writers)
  }

  lemma {:induction false} SumAfterMove(writers: seq<Writer>, weight: Writer -> nat, who: nat, w: Writer)
    requires who < |writers|
    ensures Sum(writers[who := w], weight) == Sum(writers, weight) - weight(writers[who]) + weight(w)
  {
    var last := |writers| - 1;
    if who < last {
      SumAfterMove(writers[..last], weight, who, w);
      assert writers[who := w][..last] == writers[..last][who := w];
    } else {
      assert writers[who := w][..last] == writers[..last];
    }
  }

  lemma {:induction false} SumIsAtLeast(writers: seq<Writer>, weight: Writer -> nat, i: nat)
    requires i < |writers|
    ensures Sum(writers, weight) >= weight(writers[i])
  {
    if i < |writers| - 1 { SumIsAtLeast(writers[..|writers| - 1], weight, i); }
  }

  /** A positive sum has a positive summand. */
  lemma {:induction false} SummandOf(writers: seq<Writer>, weight: Writer -> nat) returns (i: nat)
    requires Sum(writers, weight) > 0
    ensures i < |writers| && weight(writers[i]) > 0
  {
    var last := |writers| - 1;
    if weight(writers[last]) > 0 { i := last; }
    else { i := SummandOf(writers[..last], weight); }
  }

  lemma {:induction false} SumIsAtMost(writers: seq<Writer>, weight: Writer -> nat, bound: nat)
    requires forall i :: 0 <= i < |writers| ==> weight(writers[i]) <= bound
    ensures Sum(writers, weight) <= bound * |writers|
  {
    if writers != [] { SumIsAtMost(writers[..|writers| - 1], weight, bound); }
  }

  /** Every change to what writers wait for installs a new channel. */
  lemma ChangesAreNotified(s: System, step: Step)
    requires Enabled(s, step)
    ensures Next(s, step).gate == s.gate || Next(s, step).gate.changed > s.gate.changed
    ensures Next(s, step).writers[step.who].place.Blocked? ==>
              && Next(s, step).writers[step.who].place.channel == Next(s, step).gate.changed
              && MustWait(Next(s, step).gate, s.writers[step.who].lifecycle)
    ensures Next(s, step).writers == s.writers[step.who := Next(s, step).writers[step.who]]
    ensures Next(s, step).writers[step.who].lifecycle == s.writers[step.who].lifecycle
  {
  }

  lemma StepKeepsWakeups(s: System, step: Step)
    requires NoLostWakeup(s) && Enabled(s, step)
    ensures NoLostWakeup(Next(s, step))
  {
    ChangesAreNotified(s, step);
    var t := Next(s, step);
    forall i | 0 <= i < |t.writers| && t.writers[i].place.Blocked?
      ensures t.writers[i].place.channel <= t.gate.changed
      ensures t.writers[i].place.channel == t.gate.changed ==> MustWait(t.gate, t.writers[i].lifecycle)
    {
      if i != step.who { assert t.writers[i] == s.writers[i]; }
    }
  }

  lemma StepKeepsOneWriter(s: System, step: Step)
    requires OneWriter(s) && Enabled(s, step)
    ensures OneWriter(Next(s, step))
  {
    var t := Next(s, step);
    assert forall i :: 0 <= i < |s.writers| && i != step.who ==> t.writers[i] == s.writers[i];
    if t.gate.writing && !t.writers[step.who].place.Writing? {
      var i :| 0 <= i < |s.writers| && s.writers[i].place.Writing?;
      assert t.writers[i].place.Writing?;
    }
  }

  lemma StepKeepsCount(s: System, step: Step)
    requires s.gate.lifecycleWaiting == CountRegistered(s.writers) && Enabled(s, step)
    ensures Next(s, step).gate.lifecycleWaiting == CountRegistered(Next(s, step).writers)
  {
    SumAfterMove(s.writers, RegisteredWeight, step.who, Next(s, step).writers[step.who]);
  }

  lemma StepKeepsInvariant(s: System, step: Step)
    requires Invariant(s) && Enabled(s, step)
    ensures Invariant(Next(s, step))
  {
    StepKeepsOneWriter(s, step);
    StepKeepsWakeups(s, step);
    StepKeepsCount(s, step);
  }

  lemma StartKeepsInvariant(s: System)
    requires Initial(s)
    ensures Invariant(s)
  {
    SumIsAtMost(s.writers, RegisteredWeight, 0);
  }

  /** Mutual exclusion, an exact waiting count and no lost wake-up, in every interleaving. */
  lemma {:induction false} EveryScheduleKeepsInvariant(start: System, schedule: seq<Step>, s: System)
    requires Invariant(start) && Reaches(start, schedule, s)
    ensures Invariant(s) && |s.writers| == |start.writers|
    ensures start.gate.failed ==> s.gate.failed
    decreases |schedule|
  {
    if schedule != [] {
      var last := |schedule| - 1;
      var before :| Reaches(start, schedule[..last], before)
                    && Enabled(before, schedule[last]) && s == Next(before, schedule[last]);
      EveryScheduleKeepsInvariant(start, schedule[..last], before);
      StepKeepsInvariant(before, schedule[last]);
    }
  }

  // ----- what the invariant buys

  predicate Admits(s: System, step: Step)
    requires Enabled(s, step)
  {
    !s.writers[step.who].place.Writing? && Next(s, step).writers[step.who].place.Writing?
  }

  /** An admitted writer is alone, finds no earlier failure and, if it writes output,
      overtakes no registered lifecycle writer. */
  lemma AdmissionIsExclusive(start: System, schedule: seq<Step>, s: System, step: Step)
    requires Initial(start) && Reaches(start, schedule, s) && Enabled(s, step) && Admits(s, step)
    ensures !s.gate.failed
    ensures forall i :: 0 <= i < |s.writers| ==> !s.writers[i].place.Writing?
    ensures !s.writers[step.who].lifecycle ==> forall i :: 0 <= i < |s.writers| ==> !Registered(s.writers[i])
  {
    StartKeepsInvariant(start);
    EveryScheduleKeepsInvariant(start, schedule, s);
    if !s.writers[step.who].lifecycle {
      forall i | 0 <= i < |s.writers| ensures !Registered(s.writers[i]) {
        SumIsAtLeast(s.writers, RegisteredWeight, i);
      }
    }
  }

  /** Once a write has failed, no schedule ever lets another writer through. */
  lemma NobodyWritesAfterFailure(start: System, schedule: seq<Step>, s: System, later: seq<Step>, t: System)
    requires Initial(start) && Reaches(start, schedule, s) && s.gate.failed && Reaches(s, later, t)
    ensures t.gate.failed && forall i :: 0 <= i < |t.writers| ==> !t.writers[i].place.Writing?
  {
    StartKeepsInvariant(start);
    EveryScheduleKeepsInvariant(start, schedule, s);
    EveryScheduleKeepsInvariant(s, later, t);
  }

  // ----- who is admitted, who waits and who is refused

  /** Some other writer stands in the way: one that is writing or, for output, a lifecycle
      writer that is waiting. */
  predicate Obstructed(s: System, who: nat)
    requires who < |s.writers|
  {
    || (exists i :: 0 <= i < |s.writers| && s.writers[i].place.Writing?)
    || (!s.writers[who].lifecycle && exists i :: 0 <= i < |s.writers| && Registered(s.writers[i]))
  }

  lemma RegisteredIsCounted(s: System)
    requires Invariant(s)
    ensures s.gate.lifecycleWaiting > 0 <==> exists i :: 0 <= i < |s.writers| && Registered(s.writers[i])
  {
    if s.gate.lifecycleWaiting > 0 {
      var i := SummandOf(s.writers, RegisteredWeight);
      assert Registered(s.writers[i]);
    }
    if i :| 0 <= i < |s.writers| && Registered(s.writers[i]) { SumIsAtLeast(s.writers, RegisteredWeight, i); }
  }

  predicate Tries(step: Step) { step.Arrive? || step.Wake? }

  /** In every reachable state, a writer that arrives or is woken is admitted exactly if
      nobody stands in its way, no write has failed and it was not cancelled; it waits
      exactly if somebody stands in its way and no write has failed. */
  lemma DecisionMeaning(start: System, schedule: seq<Step>, s: System, step: Step)
    requires Initial(start) && Reaches(start, schedule, s) && Enabled(s, step) && Tries(step)
    ensures var place := Next(s, step).writers[step.who].place;
            && (place.Writing? <==> !WriteFailed(schedule) && !Obstructed(s, step.who) && !step.cancelled)
            && (place.Blocked? <==> !WriteFailed(schedule) && Obstructed(s, step.who))
            && (place.Gone? <==> WriteFailed(schedule) || (step.cancelled && !Obstructed(s, step.who)))
  {
    StartKeepsInvariant(start);
    EveryScheduleKeepsInvariant(start, schedule, s);
    FailureIsRemembered(start, schedule, s);
    RegisteredIsCounted(s);
    assert s.gate.writing <==> exists i :: 0 <= i < |s.writers| && s.writers[i].place.Writing?;
    DecisionByFields(s, step);
  }

  lemma DecisionByFields(s: System, step: Step)
    requires Enabled(s, step) && Tries(step)
    ensures var place := Next(s, step).writers[step.who].place;
            var obstructed := s.gate.writing || (!s.writers[step.who].lifecycle && s.gate.lifecycleWaiting > 0);
            && (place.Writing? <==> !s.gate.failed && !obstructed && !step.cancelled)
            && (place.Blocked? <==> !s.gate.failed && obstructed)
            && (place.Gone? <==> s.gate.failed || (step.cancelled && !obstructed))
  {
  }

  /** Some write of the schedule failed. */
  predicate WriteFailed(schedule: seq<Step>) {
    exists k :: 0 <= k < |schedule| && schedule[k].Finish? && schedule[k].writeFailed
  }

  lemma FailureMore(schedule: seq<Step>, step: Step)
    ensures WriteFailed(schedule + [step]) <==> WriteFailed(schedule) || (step.Finish? && step.writeFailed)
  {
    var longer := schedule + [step];
    assert longer[|schedule|] == step && forall k :: 0 <= k < |schedule| ==> longer[k] == schedule[k];
  }

  lemma {:induction false} FailureIsRemembered(start: System, schedule: seq<Step>, s: System)
    requires Initial(start) && Reaches(start, schedule, s)
    ensures s.gate.failed <==> WriteFailed(schedule)
    decreases |schedule|
  {
    if schedule != [] {
      var last := |schedule| - 1;
      var before :| Reaches(start, schedule[..last], before)
                    && Enabled(before, schedule[last]) && s == Next(before, schedule[last]);
      FailureIsRemembered(start, schedule[..last], before);
      FailureMore(schedule[..last], schedule[last]);
      assert schedule == schedule[..last] + [schedule[last]];
    }
  }

  /** If somebody waits and nobody writes, then some waiter can be woken and is then admitted,
      unless a write has failed; after a failure it is refused. */
  lemma SomebodyCanProceed(start: System, schedule: seq<Step>, s: System, waiting: nat) returns (who: nat)
    requires Initial(start) && Reaches(start, schedule, s)
    requires waiting < |s.writers| && s.writers[waiting].place.Blocked?
    requires forall i :: 0 <= i < |s.writers| ==> !s.writers[i].place.Writing?
    ensures Enabled(s, Wake(who, false))
    ensures Next(s, Wake(who, false)).writers[who].place == if WriteFailed(schedule) then Gone else Writing
  {
    StartKeepsInvariant(start);
    EveryScheduleKeepsInvariant(start, schedule, s);
    FailureIsRemembered(start, schedule, s);
    who := waiting;
    if MustWait(s.gate, s.writers[waiting].lifecycle) {
      who := SummandOf(s.writers, RegisteredWeight);
    }
  }

  /** A schedule that can only be continued by cancelling waiters has nobody left waiting. */
  lemma QuietMeansDone(start: System, schedule: seq<Step>, s: System)
    requires Initial(start) && Reaches(start, schedule, s)
    requires forall step :: Enabled(s, step) ==> step.Cancel?
    ensures forall i :: 0 <= i < |s.writers| ==> s.writers[i].place == Gone
  {
    forall i | 0 <= i < |s.writers| ensures s.writers[i].place == Gone {
      assert !Enabled(s, Arrive(i, false)) && !Enabled(s, Finish(i, false));
      if s.writers[i].place.Blocked? {
        forall j | 0 <= j < |s.writers| ensures !s.writers[j].place.Writing? {
          assert !Enabled(s, Finish(j, false));
        }
        var who := SomebodyCanProceed(start, schedule, s, i);
        assert false;
      }
    }
  }

  // ----- every write happens

  /** How many writes of this writer have come to an end. */
  function Finishes(schedule: seq<Step>, who: nat): nat {
    if schedule == [] then 0
    else
      var last := |schedule| - 1;
      Finishes(schedule[..last], who) + if schedule[last].Finish? && schedule[last].who == who then 1 else 0
  }

  predicate Cancels(step: Step) { step.Cancel? || (Tries(step) && step.cancelled) }

  /** Nobody was cancelled and no write failed. */
  predicate Undisturbed(schedule: seq<Step>) {
    !WriteFailed(schedule) && forall k :: 0 <= k < |schedule| ==> !Cancels(schedule[k])
  }

  lemma UndisturbedBefore(schedule: seq<Step>)
    requires schedule != [] && Undisturbed(schedule)
    ensures Undisturbed(schedule[..|schedule| - 1]) && !Cancels(schedule[|schedule| - 1])
  {
    var last := |schedule| - 1;
    FailureMore(schedule[..last], schedule[last]);
    assert schedule == schedule[..last] + [schedule[last]];
  }

  /** A writer that is gone has written once if nothing disturbed the schedule, and never
      more than once; nobody else has written at all. */
  lemma {:induction false} WritesOnce(start: System, schedule: seq<Step>, s: System, who: nat)
    requires Initial(start) && Reaches(start, schedule, s) && who < |s.writers|
    ensures Finishes(schedule, who) <= 1 && (s.writers[who].place != Gone ==> Finishes(schedule, who) == 0)
    ensures Undisturbed(schedule) && s.writers[who].place == Gone ==> Finishes(schedule, who) == 1
    decreases |schedule|
  {
    if schedule == [] {
      assert s.writers[who].place == Idle;
    } else {
      var last := |schedule| - 1;
      var before :| Reaches(start, schedule[..last], before)
                    && Enabled(before, schedule[last]) && s == Next(before, schedule[last]);
      WritesOnce(start, schedule[..last], before, who);
      if Undisturbed(schedule) { UndisturbedBefore(schedule); }
      if Tries(schedule[last]) { DecisionMeaning(start, schedule[..last], before, schedule[last]); }
    }
  }

  /** A schedule without cancellations and failed writes that cannot be continued has let
      every writer write exactly once. */
  lemma EverybodyWrites(start: System, schedule: seq<Step>, s: System)
    requires Initial(start) && Reaches(start, schedule, s) && Undisturbed(schedule)
    requires forall step :: Enabled(s, step) ==> step.Cancel?
    ensures forall who :: 0 <= who < |s.writers| ==> Finishes(schedule, who) == 1
  {
    QuietMeansDone(start, schedule, s);
    forall who | 0 <= who < |s.writers| ensures Finishes(schedule, who) == 1 {
      WritesOnce(start, schedule, s, who);
    }
  }

  // ----- every schedule is finite

  function PlaceWeight(w: Writer): nat {
    match w.place
    case Idle => 3
    case Blocked(_) => 2
    case Writing => 1
    case Gone => 0
  }

  function StaleWeight(w: Writer, changed: nat): nat {
    if w.place.Blocked? && w.place.channel < changed then 1 else 0
  }

  function StaleAt(changed: nat): Writer -> nat { (w: Writer) => StaleWeight(w, changed) }

  /** How many waiters hold a channel that has been closed. */
  function Stale(s: System): nat { Sum(s.writers, StaleAt(s.gate.changed)) }

  /** Steps still possible: each writer moves on three times, and between two such moves
      every waiter is woken in vain at most once. */
  function Remaining(s: System): nat {
    Sum(s.writers, PlaceWeight) * (|s.writers| + 1) + Stale(s)
  }

  lemma MoveOrWaitAgain(s: System, step: Step)
    requires Enabled(s, step)
    ensures var v, w := s.writers[step.who], Next(s, step).writers[step.who];
            PlaceWeight(w) < PlaceWeight(v)
            || (Next(s, step).gate == s.gate && PlaceWeight(w) == PlaceWeight(v)
                && StaleWeight(v, s.gate.changed) == 1 && StaleWeight(w, s.gate.changed) == 0)
    ensures |Next(s, step).writers| == |s.writers|
  {
  }

  lemma Heavier(fewer: nat, more: nat, n: nat, stale: nat)
    requires fewer < more && stale <= n
    ensures fewer * (n + 1) + stale < more * (n + 1)
  {
    assert (fewer + 1) * (n + 1) <= more * (n + 1);
  }

  lemma StepLowersRemaining(s: System, step: Step)
    requires Enabled(s, step)
    ensures Remaining(Next(s, step)) < Remaining(s)
  {
    var t := Next(s, step);
    var w := t.writers[step.who];
    ChangesAreNotified(s, step);
    MoveOrWaitAgain(s, step);
    SumAfterMove(s.writers, PlaceWeight, step.who, w);
    if PlaceWeight(w) == PlaceWeight(s.writers[step.who]) {
      SumAfterMove(s.writers, StaleAt(s.gate.changed), step.who, w);
    } else {
      SumIsAtMost(t.writers, StaleAt(t.gate.changed), 1);
      Heavier(Sum(t.writers, PlaceWeight), Sum(s.writers, PlaceWeight), |s.writers|, Stale(t));
    }
  }

  lemma {:induction false} SchedulesAreFinite(start: System, schedule: seq<Step>, s: System)
    requires Reaches(start, schedule, s)
    ensures |schedule| + Remaining(s) <= Remaining(start)
    decreases |schedule|
  {
    if schedule != [] {
      var last := |schedule| - 1;
      var before :| Reaches(start, schedule[..last], before)
                    && Enabled(before, schedule[last]) && s == Next(before, schedule[last]);
      SchedulesAreFinite(start, schedule[..last], before);
      StepLowersRemaining(before, schedule[last]);
    }
  }

  /** With n writers no schedule has more than 3n(n + 1) steps. */
  lemma ScheduleBound(start: System, schedule: seq<Step>, s: System)
    requires Initial(start) && Reaches(start, schedule, s)
    ensures |schedule| <= 3 * |start.writers| * (|start.writers| + 1)
  {
    SchedulesAreFinite(start, schedule, s);
    SumIsAtMost(start.writers, PlaceWeight, 3);
    SumIsAtMost(start.writers, StaleAt(start.gate.changed), 0);
    Widen(Sum(start.writers, PlaceWeight), 3 * |start.writers|, |start.writers| + 1);
  }

  lemma Widen(a: nat, b: nat, k: nat)
    requires a <= b
    ensures a * k <= b * k
  {
  }
}
