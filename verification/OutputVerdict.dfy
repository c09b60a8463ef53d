/**
 What the output pump reports, in terms of what the source, the emitter and the timer did:
 every status has its reason, and every reason its status.
 */
module OutputVerdict {
  import opened Common
  import opened OutputPump

  // ----- what decides the verdict, read off the actions

  /** What the source and the emitter have said so far. */
  datatype Story = Story(
    eof: bool,                    // a read reported the end of the source
    broken: Option<Cause>,        // a read failed
    refused: Option<Cause>,       // the emitter failed
    empties: nat)                 // reads in a row that returned nothing

  function Told(actions: seq<Action>): Story {
    if actions == [] then Story(false, None, None, 0)
    else Tell(Told(actions[..|actions| - 1]), actions[|actions| - 1])
  }

  function Tell(y: Story, a: Action): Story {
    match a
    case ReadReturns(chunk, More) => y.(empties := if chunk == [] then y.empties + 1 else 0)
    case ReadReturns(_, Eof) => y.(eof := true)
    case ReadReturns(_, Broken(c)) => y.(broken := Some(c))
    case EmitReturns(Some(c), _) => y.(refused := Some(c))
    case _ => y
  }

  predicate Starved(y: Story) { y.empties >= 100 }

  /** Nothing has ended the reading yet. */
  predicate Unfinished(y: Story) { !y.eof && y.broken.None? && y.refused.None? && !Starved(y) }

  predicate AtEnd(y: Story) { y.eof && y.broken.None? && y.refused.None? && !Starved(y) }

  /** The reading failed, and this is the status and the cause to report. */
  predicate FailedWith(y: Story, status: Status, cause: Cause) {
    match status
    case DeliveryFailed => y.refused == Some(cause)
    case ReadFailed => y.refused.None? && !y.eof && if Starved(y) then cause == NoProgress else y.broken == Some(cause)
    case _ => false
  }

  predicate Fails(y: Story) { y.refused.Some? || (!y.eof && (y.broken.Some? || Starved(y))) }

  /** A read outcome that is still being delivered is what the story says. */
  predicate Promised(y: Story, outcome: ReadOutcome) {
    && y.refused.None? && !Starved(y) && y.eof == outcome.Eof?
    && y.broken == if outcome.Broken? then Some(outcome.cause) else None
  }

  predicate InFailure(r: Reader) { r.FailCancel? || r.FailClose? || r.FailClosing? || r.FailAppend? }

  /** Where the reader is agrees with the story. */
  predicate Placed(s: State, y: Story) {
    && (s.reader.Reading? ==> Unfinished(y) && s.reader.empties == y.empties)
    && (s.reader.Emitting? ==> Promised(y, s.reader.outcome) && (s.reader.outcome.More? ==> y.empties == 0))
    && (s.reader.FailLatch? ==> FailedWith(y, s.reader.status, s.reader.cause))
    && (InFailure(s.reader) ==> Fails(y))
    && (Draining(s.reader) ==> AtEnd(y))
    && (Ending(s.reader) ==> Fails(y) || AtEnd(y))
  }

  /** The status and the first cause of a latched result, unless the timer latched it. */
  predicate Justified(f: Fields, y: Story) {
    f.result.Some? && f.result.value.status != TimedOut ==>
      var r := f.result.value;
      && (r.status == Drained ==> AtEnd(y) && f.closing == Closed(None))
      && (r.status == ClosureFailed ==>
            AtEnd(y) && f.closing.Closed? && f.closing.error.Some? && r.causes != [] && r.causes[0] == f.closing.error.value)
      && (r.status == ReadFailed || r.status == DeliveryFailed ==>
            r.causes != [] && FailedWith(y, r.status, r.causes[0]))
  }

  lemma TickTells(s: State, y: Story, a: Action, t: State)
    requires Placed(s, y) && Moves(s, a, t) && !a.ReadReturns? && !a.EmitReturns? && !a.ReaderStep? && !a.ReaderCloseReturns?
    ensures Tell(y, a) == y && t.reader == s.reader
  {
  }

  lemma ReadTells(s: State, y: Story, chunk: seq<byte>, outcome: ReadOutcome)
    requires Placed(s, y) && OnRead(s, chunk, outcome).Some?
    ensures Placed(OnRead(s, chunk, outcome).value, Tell(y, ReadReturns(chunk, outcome)))
  {
  }

  lemma EmitTells(s: State, y: Story, error: Option<Cause>, consumed: nat)
    requires Placed(s, y) && OnEmit(s, error, consumed).Some?
    ensures Placed(OnEmit(s, error, consumed).value, Tell(y, EmitReturns(error, consumed)))
  {
  }

  lemma ReportPlaced(s: State, y: Story)
    requires Placed(s, y) && OnReader(s).Some? && Reports(s.reader)
    ensures Placed(OnReader(s).value, y)
  {
  }

  lemma OtherPlaced(s: State, y: Story)
    requires Placed(s, y) && OnReader(s).Some? && !Reports(s.reader)
    ensures Placed(OnReader(s).value, y)
  {
  }

  lemma ClosedPlaced(s: State, y: Story, error: Option<Cause>)
    requires Placed(s, y) && OnReaderClosed(s, error).Some?
    ensures Placed(OnReaderClosed(s, error).value, y)
  {
  }

  lemma StepPlaces(s: State, y: Story, a: Action, t: State)
    requires Placed(s, y) && Moves(s, a, t)
    ensures Placed(t, Tell(y, a))
  {
    match a
    case ReadReturns(chunk, outcome) => ReadTells(s, y, chunk, outcome);
    case EmitReturns(error, consumed) => EmitTells(s, y, error, consumed);
    case ReaderStep => if Reports(s.reader) { ReportPlaced(s, y); } else { OtherPlaced(s, y); }
    case ReaderCloseReturns(error) => ClosedPlaced(s, y, error);
    case _ => TickTells(s, y, a, t);
  }

  /** Nothing is said any more once the reader has latched a result. */
  lemma LatchedIsQuiet(s: State, y: Story, a: Action, t: State)
    requires Moves(s, a, t) && !s.reader.Reading? && !s.reader.Emitting?
    ensures Tell(y, a) == y
  {
  }

  lemma ReporterJustifies(s: State, y: Story)
    requires Placed(s, y) && CloseInvariant(s) && DataInvariant(s) && Justified(s.f, y) && OnReader(s).Some? && Reports(s.reader)
    requires s.reader.FailAppend? || s.reader.DrainAppend? ==> s.f.result.Some?
    ensures Justified(OnReader(s).value.f, y)
  {
  }

  /** Every other step leaves the result as it is and does not open the source again. */
  predicate LeavesResult(s: State, t: State) {
    t.f.result == s.f.result && (s.f.closing.Closed? ==> t.f.closing == s.f.closing)
  }

  lemma OtherLeaves(s: State)
    requires OnReader(s).Some? && !Reports(s.reader)
    ensures LeavesResult(s, OnReader(s).value)
  {
  }

  lemma FinalizerJustifies(s: State, y: Story)
    requires LatchInvariant(s) && CloseInvariant(s) && Justified(s.f, y) && OnFinalizer(s).Some?
    ensures Justified(OnFinalizer(s).value.f, y)
  {
  }

  lemma AnswerLeaves(s: State, a: Action, t: State)
    requires CloseInvariant(s) && Moves(s, a, t) && !a.ReaderStep? && !a.FinalizerStep?
    ensures LeavesResult(s, t)
  {
  }

  lemma LeavingJustifies(s: State, y: Story, t: State)
    requires LeavesResult(s, t) && Justified(s.f, y)
    ensures Justified(t.f, y)
  {
  }

  /** A result that is not the timer's was latched by the reader. */
  predicate ReaderLatched(s: State) {
    s.f.result.Some? && s.f.result.value.status != TimedOut ==> Latched(s.reader)
  }

  lemma ReportKeepsLatched(s: State)
    requires ReaderLatched(s) && OnReader(s).Some? && Reports(s.reader)
    ensures ReaderLatched(OnReader(s).value)
  {
  }

  lemma OtherKeepsLatched(s: State)
    requires ReaderLatched(s) && OnReader(s).Some? && !Reports(s.reader)
    ensures ReaderLatched(OnReader(s).value)
  {
  }

  lemma FinalizerKeepsLatched(s: State)
    requires ReaderLatched(s) && OnFinalizer(s).Some?
    ensures ReaderLatched(OnFinalizer(s).value)
  {
  }

  lemma StepKeepsLatched(s: State, a: Action, t: State)
    requires ReaderLatched(s) && Moves(s, a, t)
    ensures ReaderLatched(t)
  {
    if a.ReaderStep? { if Reports(s.reader) { ReportKeepsLatched(s); } else { OtherKeepsLatched(s); } }
    else if a.FinalizerStep? { FinalizerKeepsLatched(s); }
    else { AnswerKeepsLatched(s, a, t); }
  }

  lemma AnswerKeepsLatched(s: State, a: Action, t: State)
    requires ReaderLatched(s) && Moves(s, a, t) && !a.ReaderStep? && !a.FinalizerStep?
    ensures ReaderLatched(t)
  {
  }

  /** The step of the timer that latches a timeout. */
  predicate TimerWins(s: State, a: Action) { a.FinalizerStep? && s.finalizer.TimerFired? && s.f.result.None? }

  predicate TimeoutLatched(f: Fields) { f.result.Some? && f.result.value.status == TimedOut }

  lemma StepTimes(s: State, y: Story, a: Action, t: State)
    requires Placed(s, y) && LatchInvariant(s) && Moves(s, a, t)
    ensures TimeoutLatched(t.f) <==> TimeoutLatched(s.f) || TimerWins(s, a)
  {
    if a.ReaderStep? {
      if Reports(s.reader) { ReportTimes(s, y); } else { OtherLeaves(s); }
    } else if a.FinalizerStep? {
      FinalizerTimes(s);
    } else {
      AnswerTimes(s, a, t);
    }
  }

  lemma ReportTimes(s: State, y: Story)
    requires Placed(s, y) && OnReader(s).Some? && Reports(s.reader)
    ensures TimeoutLatched(OnReader(s).value.f) <==> TimeoutLatched(s.f)
  {
  }

  lemma FinalizerTimes(s: State)
    requires OnFinalizer(s).Some?
    ensures TimeoutLatched(OnFinalizer(s).value.f) <==> TimeoutLatched(s.f) || TimerWins(s, FinalizerStep)
  {
  }

  lemma AnswerTimes(s: State, a: Action, t: State)
    requires Moves(s, a, t) && !a.ReaderStep? && !a.FinalizerStep?
    ensures t.f.result == s.f.result
  {
  }

  lemma StepJustifies(s: State, y: Story, a: Action, t: State)
    requires Invariant(s) && Placed(s, y) && ReaderLatched(s) && Justified(s.f, y) && Moves(s, a, t)
    ensures Justified(t.f, Tell(y, a))
  {
    if s.reader.Reading? || s.reader.Emitting? {
      TalkKeepsTimeout(s, y, a, t);
    } else {
      LatchedIsQuiet(s, y, a, t);
      if a.ReaderStep? {
        if Reports(s.reader) { ReporterJustifies(s, y); } else { OtherLeaves(s); LeavingJustifies(s, y, t); }
      } else if a.FinalizerStep? {
        FinalizerJustifies(s, y);
      } else {
        AnswerLeaves(s, a, t);
        LeavingJustifies(s, y, t);
      }
    }
  }

  /** While the source is still being read there is no result but a timeout. */
  lemma TalkKeepsTimeout(s: State, y: Story, a: Action, t: State)
    requires Placed(s, y) && ReaderLatched(s) && LatchInvariant(s) && Moves(s, a, t) && (s.reader.Reading? || s.reader.Emitting?)
    ensures t.f.result.Some? ==> t.f.result.value.status == TimedOut
  {
    StepTimes(s, y, a, t);
    if !a.FinalizerStep? { AnswerTimes(s, a, t); } else { FinalizerKeepsLatched(s); }
  }

  /** All of it along a schedule. */
  predicate Explained(s: State, y: Story) { Placed(s, y) && ReaderLatched(s) && Justified(s.f, y) }

  lemma {:induction false} EveryScheduleIsExplained(trace: seq<State>, actions: seq<Action>, i: nat)
    requires Run(trace, actions) && i < |trace|
    ensures Explained(trace[i], Told(actions[..i]))
  {
    if i > 0 {
      EveryScheduleIsExplained(trace, actions, i - 1);
      EveryScheduleKeepsInvariant(trace, actions, i - 1);
      assert Moves(trace[i - 1], actions[i - 1], trace[i - 1 + 1]);
      ToldMore(actions, i - 1);
      StepPlaces(trace[i - 1], Told(actions[..i - 1]), actions[i - 1], trace[i]);
      StepKeepsLatched(trace[i - 1], actions[i - 1], trace[i]);
      StepJustifies(trace[i - 1], Told(actions[..i - 1]), actions[i - 1], trace[i]);
    }
  }

  lemma ToldMore(actions: seq<Action>, i: nat)
    requires i < |actions|
    ensures Told(actions[..i + 1]) == Tell(Told(actions[..i]), actions[i])
  {
    assert actions[..i + 1][..i] == actions[..i];
  }

  /** The timer latched its timeout before the reader latched anything. */
  predicate TimerLatched(trace: seq<State>, actions: seq<Action>, i: nat) {
    exists k :: 0 <= k < i && k < |actions| && k < |trace| && TimerWins(trace[k], actions[k])
  }

  lemma {:induction false} TimeoutIsTheTimers(trace: seq<State>, actions: seq<Action>, i: nat)
    requires Run(trace, actions) && i < |trace|
    ensures TimeoutLatched(trace[i].f) <==> TimerLatched(trace, actions, i)
  {
    if i > 0 {
      TimeoutIsTheTimers(trace, actions, i - 1);
      EveryScheduleIsExplained(trace, actions, i - 1);
      EveryScheduleKeepsInvariant(trace, actions, i - 1);
      assert Moves(trace[i - 1], actions[i - 1], trace[i - 1 + 1]);
      StepTimes(trace[i - 1], Told(actions[..i - 1]), actions[i - 1], trace[i]);
    }
  }

  /** What finalization must report by the deadline, read off what the timer, the emitter,
      the source and its closing did. */
  predicate VerdictIs(r: Finalization, timer: bool, y: Story, closing: Closing) {
    && (r.status == TimedOut <==> timer)
    && (r.status == DeliveryFailed <==> !timer && y.refused.Some?)
    && (r.status == ReadFailed <==> !timer && y.refused.None? && !y.eof && (y.broken.Some? || Starved(y)))
    && (r.status == Drained <==> !timer && AtEnd(y) && closing == Closed(None))
    && (r.status == ClosureFailed <==> !timer && AtEnd(y) && closing != Closed(None))
    && (r.status == DeliveryFailed || r.status == ReadFailed ==> r.causes != [] && FailedWith(y, r.status, r.causes[0]))
    && (r.status == ClosureFailed ==> closing.Closed? && closing.error.Some? && r.causes != [] && r.causes[0] == closing.error.value)
  }

  lemma ExplainedVerdict(s: State, y: Story)
    requires Explained(s, y) && s.reader.Stopped? && s.f.result.Some? && s.f.closing.Closed?
    ensures VerdictIs(s.f.result.value, TimeoutLatched(s.f), y, s.f.closing)
  {
  }

  /** A finalization that returns by the deadline says exactly what happened. */
  lemma VerdictMeaning(trace: seq<State>, actions: seq<Action>, i: nat)
    requires Run(trace, actions) && i < |trace| && trace[i].finalizer.Returned?
    ensures var s := trace[i];
            && s.f.stoppedAt.Some?
            && (s.f.stoppedAt.value <= s.deadline ==>
                  VerdictIs(s.finalizer.r, TimerLatched(trace, actions, i), Told(actions[..i]), s.f.closing))
  {
    EveryScheduleKeepsInvariant(trace, actions, i);
    EveryScheduleIsExplained(trace, actions, i);
    TimeoutIsTheTimers(trace, actions, i);
    ExplainedVerdict(trace[i], Told(actions[..i]));
  }

  predicate ReportsEnd(a: Action) { a.ReadReturns? && a.outcome.Eof? }
  predicate ReportsBreak(a: Action) { a.ReadReturns? && a.outcome.Broken? }
  predicate ReportsRefusal(a: Action) { a.EmitReturns? && a.error.Some? }

  predicate Sometime(actions: seq<Action>, what: Action -> bool) {
    exists k :: 0 <= k < |actions| && what(actions[k])
  }

  lemma SometimeMore(actions: seq<Action>, a: Action, what: Action -> bool)
    ensures Sometime(actions + [a], what) <==> Sometime(actions, what) || what(a)
  {
    var longer := actions + [a];
    assert longer[|actions|] == a && forall k :: 0 <= k < |actions| ==> longer[k] == actions[k];
  }

  lemma TellSays(y: Story, a: Action)
    ensures Tell(y, a).eof == (y.eof || ReportsEnd(a))
    ensures Tell(y, a).broken.Some? == (y.broken.Some? || ReportsBreak(a))
    ensures Tell(y, a).refused.Some? == (y.refused.Some? || ReportsRefusal(a))
  {
  }

  /** The story in terms of single actions. */
  lemma {:induction false} ToldMeaning(actions: seq<Action>)
    ensures Told(actions).eof <==> Sometime(actions, ReportsEnd)
    ensures Told(actions).broken.Some? <==> Sometime(actions, ReportsBreak)
    ensures Told(actions).refused.Some? <==> Sometime(actions, ReportsRefusal)
  {
    if actions != [] {
      var before, a := actions[..|actions| - 1], actions[|actions| - 1];
      ToldMeaning(before);
      TellSays(Told(before), a);
      assert actions == before + [a];
      SometimeMore(before, a, ReportsEnd);
      SometimeMore(before, a, ReportsBreak);
      SometimeMore(before, a, ReportsRefusal);
    }
  }
}
