/**
 The PTY output pump (internal/controlledsession/output.go): a reader that forwards output
 until the source ends, racing a finalizer with a deadline. Both go through one result
 latch and one closing of the source.
 */
module OutputPump {
  import opened Common

  datatype Status = Drained | ReadFailed | DeliveryFailed | ClosureFailed | TimedOut

  /** The distinct causes a diagnostic can wrap. */
  datatype Cause = ReadError(n: nat) | EmitError(n: nat) | CloseError(n: nat) | NoProgress | DeadlineExceeded

  datatype Finalization = Finalization(status: Status, causes: seq<Cause>)

  /** The closing of the source behind its `sync.Once`. */
  datatype Closing = Unclosed | Closing | Closed(error: Option<Cause>)

  datatype Fields = Fields(result: Option<Finalization>, closing: Closing, cancelled: bool, stoppedAt: Option<nat>)

  const MAX_EMPTY_READS: nat := 100

  // ----- the latch

  /** The first result stays. */
  function Latch(f: Fields, r: Finalization): Fields {
    if f.result.Some? then f else f.(result := Some(r))
  }

  /** Add a cause that the diagnostic does not wrap yet. */
  function Append(f: Fields, cause: Cause): Fields
    requires f.result.Some?
  {
    var r := f.result.value;
    if cause in r.causes then f else f.(result := Some(r.(causes := r.causes + [cause])))
  }

  function ForDeadline(r: Finalization, stoppedAt: nat, deadline: nat): Finalization {
    if stoppedAt <= deadline then r else Finalization(TimedOut, [DeadlineExceeded] + r.causes)
  }

  class Pump {
    var result: Option<Finalization>
    var closing: Closing
    var cancelled: bool
    var stoppedAt: Option<nat>

    constructor ()
      ensures Now() == Fields(None, Unclosed, false, None)
    {
      result, closing, cancelled, stoppedAt := None, Unclosed, false, None;
    }

    ghost function Now(): Fields
      reads this
    {
      Fields(result, closing, cancelled, stoppedAt)
    }

    method LatchResult(r: Finalization) returns (latched: bool)
      modifies this
      ensures Now() == Latch(old(Now()), r) && latched == old(result).None?
    {
      if result.Some? { return false; }
      result := Some(r);
      return true;
    }

    method AppendResultErrorIfMissing(cause: Cause)
      requires result.Some?
      modifies this
      ensures Now() == Append(old(Now()), cause)
    {
      if cause !in result.value.causes {
        result := Some(result.value.(causes := result.value.causes + [cause]));
      }
    }

    /** The once-only closing; `answer` is what the source's Close would return. */
    method CloseSource(answer: Option<Cause>) returns (closed: bool, error: Option<Cause>)
      requires !closing.Closing?
      modifies this
      ensures closed == old(closing).Unclosed? && closing == Closed(error)
      ensures error == if closed then answer else old(closing).error
      ensures Now() == old(Now()).(closing := closing)
    {
      if closing.Closed? { return false, closing.error; }
      closing := Closed(answer);
      return true, answer;
    }

    method ResultForDeadline(deadline: nat) returns (r: Finalization)
      requires result.Some? && stoppedAt.Some?
      ensures r == ForDeadline(result.value, stoppedAt.value, deadline)
    {
      if stoppedAt.value <= deadline { return result.value; }
      return Finalization(TimedOut, [DeadlineExceeded] + result.value.causes);
    }
  }

  // ----- the two goroutines

  datatype ReadOutcome = More | Eof | Broken(cause: Cause)

  /** Where the reader is. `FailAt` is Go's failAndClose, `Drain` the orderly end of file,
      the last three its deferred calls. */
  datatype Reader =
    | Reading(empties: nat)
    | Emitting(chunk: seq<byte>, outcome: ReadOutcome)
    | FailLatch(status: Status, cause: Cause)
    | FailCancel
    | FailClose
    | FailClosing
    | FailAppend(error: Cause)
    | Drain
    | DrainClosing
    | DrainFailed(error: Cause)
    | DrainAppend(error: Cause)
    | DrainLatch
    | Cancelling
    | Marking
    | Signalling
    | Stopped

  datatype Finalizer =
    | Uncalled
    | Waiting
    | TimerFired
    | TimedCancel
    | TimedClose
    | TimedClosing
    | TimedAppend(error: Cause)
    | AwaitDone
    | Returned(r: Finalization)

  datatype State = State(
    f: Fields,
    now: nat,
    deadline: nat,
    reader: Reader,
    finalizer: Finalizer,
    read: seq<byte>,        // every byte the source returned
    delivered: seq<byte>,   // every byte the emitter consumed
    eof: bool,              // the source reported its end
    closes: nat,            // calls of the source's Close
    panicked: bool)

  /** Time passes, the source or the emitter answers, or a goroutine takes its next step. */
  datatype Action =
    | Tick
    | ReadReturns(chunk: seq<byte>, outcome: ReadOutcome)
    | EmitReturns(error: Option<Cause>, consumed: nat)
    | ReaderStep
    | ReaderCloseReturns(error: Option<Cause>)
    | Call(deadline: nat)
    | SeeDone
    | SeeTimer
    | FinalizerStep
    | FinalizerCloseReturns(error: Option<Cause>)

  function Initial(now: nat): State {
    State(Fields(None, Unclosed, false, None), now, 0, Reading(0), Uncalled, [], [], false, 0, false)
  }

  function AfterRead(outcome: ReadOutcome): Reader {
    match outcome
    case More => Reading(0)
    case Eof => Drain
    case Broken(c) => FailLatch(ReadFailed, c)
  }

  /** A read returns, possibly with bytes and an error at once. Once the source is closed a
      read no longer succeeds. */
  function OnRead(s: State, chunk: seq<byte>, outcome: ReadOutcome): Option<State> {
    if !s.reader.Reading? || (outcome.More? && s.f.closing.Closed?) then None
    else
      var t := s.(read := s.read + chunk, eof := s.eof || outcome.Eof?);
      if chunk != [] then Some(t.(reader := Emitting(chunk, outcome)))
      else if !outcome.More? then Some(t.(reader := AfterRead(outcome)))
      else if s.reader.empties + 1 >= MAX_EMPTY_READS then Some(t.(reader := FailLatch(ReadFailed, NoProgress)))
      else Some(t.(reader := Reading(s.reader.empties + 1)))
  }

  /** The emitter consumed the chunk, or some of it and then failed. */
  function OnEmit(s: State, error: Option<Cause>, consumed: nat): Option<State> {
    if !s.reader.Emitting? then None
    else
      match error
      case None => Some(s.(delivered := s.delivered + s.reader.chunk, reader := AfterRead(s.reader.outcome)))
      case Some(c) =>
        if consumed > |s.reader.chunk| then None
        else Some(s.(delivered := s.delivered + s.reader.chunk[..consumed], reader := FailLatch(DeliveryFailed, c)))
  }

  function Appended(s: State, cause: Cause): State {
    if s.f.result.None? then s.(panicked := true) else s.(f := Append(s.f, cause))
  }

  function Claim(s: State): State { s.(f := s.f.(closing := Closing), closes := s.closes + 1) }

  /** Enter the source's closing: claim it, wait for another, or find it done. */
  function OnFailClose(s: State): Option<State> {
    match s.f.closing
    case Unclosed => Some(Claim(s).(reader := FailClosing))
    case Closing => None
    case Closed(None) => Some(s.(reader := Cancelling))
    case Closed(Some(c)) => Some(s.(reader := FailAppend(c)))
  }

  function OnDrain(s: State): Option<State> {
    match s.f.closing
    case Unclosed => Some(Claim(s).(reader := DrainClosing))
    case Closing => None
    case Closed(None) => Some(s.(reader := DrainLatch))
    case Closed(Some(c)) => Some(s.(reader := DrainFailed(c)))
  }

  function OnTimedClose(s: State): Option<State> {
    match s.f.closing
    case Unclosed => Some(Claim(s).(finalizer := TimedClosing))
    case Closing => None
    case Closed(None) => Some(s.(finalizer := AwaitDone))
    case Closed(Some(c)) => Some(s.(finalizer := TimedAppend(c)))
  }

  function OnReader(s: State): Option<State> {
    match s.reader
    case FailLatch(status, cause) => Some(s.(f := Latch(s.f, Finalization(status, [cause])), reader := FailCancel))
    case FailCancel => Some(s.(f := s.f.(cancelled := true), reader := FailClose))
    case FailClose => OnFailClose(s)
    case FailAppend(c) => Some(Appended(s, c).(reader := Cancelling))
    case Drain => OnDrain(s)
    case DrainFailed(c) => Some(s.(f := Latch(s.f, Finalization(ClosureFailed, [c])), reader := DrainAppend(c)))
    case DrainAppend(c) => Some(Appended(s, c).(reader := Cancelling))
    case DrainLatch => Some(s.(f := Latch(s.f, Finalization(Drained, [])), reader := Cancelling))
    case Cancelling => Some(s.(f := s.f.(cancelled := true), reader := Marking))
    case Marking => Some(s.(f := s.f.(stoppedAt := Some(s.now)), reader := Signalling))
    case Signalling => Some(s.(reader := Stopped))
    case _ => None
  }

  function OnReaderClosed(s: State, error: Option<Cause>): Option<State> {
    var t := s.(f := s.f.(closing := Closed(error)));
    match s.reader
    case FailClosing => Some(t.(reader := match error case None => Cancelling case Some(c) => FailAppend(c)))
    case DrainClosing => Some(t.(reader := match error case None => DrainLatch case Some(c) => DrainFailed(c)))
    case _ => None
  }

  function Return(s: State): State {
    if s.f.result.None? || s.f.stoppedAt.None? then s.(panicked := true)
    else s.(finalizer := Returned(ForDeadline(s.f.result.value, s.f.stoppedAt.value, s.deadline)))
  }

  function OnFinalizer(s: State): Option<State> {
    match s.finalizer
    case TimerFired =>
      Some(s.(f := Latch(s.f, Finalization(TimedOut, [DeadlineExceeded])),
              finalizer := if s.f.result.None? then TimedCancel else AwaitDone))
    case TimedCancel => Some(s.(f := s.f.(cancelled := true), finalizer := TimedClose))
    case TimedClose => OnTimedClose(s)
    case TimedAppend(c) => Some(Appended(s, c).(finalizer := AwaitDone))
    case _ => None
  }

  function OnFinalizerClosed(s: State, error: Option<Cause>): Option<State> {
    if !s.finalizer.TimedClosing? then None
    else
      Some(s.(f := s.f.(closing := Closed(error)),
              finalizer := match error case None => AwaitDone case Some(c) => TimedAppend(c)))
  }

  /** `None` when the action is not enabled. */
  function Next(s: State, a: Action): Option<State> {
    match a
    case Tick => Some(s.(now := s.now + 1))
    case ReadReturns(chunk, outcome) => OnRead(s, chunk, outcome)
    case EmitReturns(error, consumed) => OnEmit(s, error, consumed)
    case ReaderStep => OnReader(s)
    case ReaderCloseReturns(error) => OnReaderClosed(s, error)
    case Call(deadline) => if s.finalizer.Uncalled? then Some(s.(deadline := deadline, finalizer := Waiting)) else None
    case SeeDone => if s.reader.Stopped? && (s.finalizer.Waiting? || s.finalizer.AwaitDone?) then Some(Return(s)) else None
    case SeeTimer => if s.finalizer.Waiting? && s.now >= s.deadline then Some(s.(finalizer := TimerFired)) else None
    case FinalizerStep => OnFinalizer(s)
    case FinalizerCloseReturns(error) => OnFinalizerClosed(s, error)
  }

  predicate Moves(s: State, a: Action, t: State) { Next(s, a) == Some(t) }

  /** The states along a schedule. */
  predicate Run(trace: seq<State>, actions: seq<Action>) {
    && |trace| == |actions| + 1 && trace[0] == Initial(trace[0].now)
    && forall i :: 0 <= i < |actions| ==> Moves(trace[i], actions[i], trace[i + 1])
  }

  // ----- the invariant

  /** The reader has latched a result. */
  predicate Latched(r: Reader) {
    || r.FailCancel? || r.FailClose? || r.FailClosing? || r.FailAppend? || r.DrainAppend?
    || Ending(r)
  }

  /** The reader is in its deferred calls or has returned. */
  predicate Ending(r: Reader) { r.Cancelling? || r.Marking? || r.Signalling? || r.Stopped? }

  predicate Draining(r: Reader) { r.Drain? || r.DrainClosing? || r.DrainFailed? || r.DrainAppend? || r.DrainLatch? }

  /** The finalizer won the latch and is closing. */
  predicate TimingOut(z: Finalizer) { z.TimedCancel? || z.TimedClose? || z.TimedClosing? || z.TimedAppend? }

  /** The finalizer has latched nothing. */
  predicate Patient(z: Finalizer) { z.Uncalled? || z.Waiting? || z.TimerFired? }

  predicate LatchInvariant(s: State) {
    && !s.panicked
    && (Latched(s.reader) ==> s.f.result.Some?)
    && (TimingOut(s.finalizer) ==> s.f.result.Some? && s.f.result.value.status == TimedOut)
    && (s.finalizer.AwaitDone? ==> s.f.result.Some? && (Latched(s.reader) || s.f.closing.Closed?))
    && (s.f.result.Some? && Patient(s.finalizer) ==> Latched(s.reader))
    && (s.f.stoppedAt.Some? <==> s.reader.Signalling? || s.reader.Stopped?)
    && (s.f.stoppedAt.Some? ==> s.f.stoppedAt.value <= s.now)
    && (s.finalizer.Returned? ==>
          && s.reader.Stopped? && s.f.result.Some? && s.f.stoppedAt.Some?
          && s.finalizer.r == ForDeadline(s.f.result.value, s.f.stoppedAt.value, s.deadline))
  }

  predicate HasCancelled(r: Reader) {
    r.FailClose? || r.FailClosing? || r.FailAppend? || r.Marking? || r.Signalling? || r.Stopped?
  }

  /** The delivery context is cancelled before a failed source is closed and before anyone
      stops, and a reader never makes more than the allowed number of empty reads. */
  predicate CancelInvariant(s: State) {
    && (HasCancelled(s.reader) ==> s.f.cancelled)
    && (s.finalizer.TimedClose? || s.finalizer.TimedClosing? || s.finalizer.TimedAppend? ==> s.f.cancelled)
    && (s.reader.Reading? ==> s.reader.empties < MAX_EMPTY_READS)
  }

  predicate CloseInvariant(s: State) {
    && s.closes == (if s.f.closing.Unclosed? then 0 else 1)
    && (s.f.closing.Closing? <==> s.reader.FailClosing? || s.reader.DrainClosing? || s.finalizer.TimedClosing?)
    && !((s.reader.FailClosing? || s.reader.DrainClosing?) && s.finalizer.TimedClosing?)
    && (Ending(s.reader) || s.reader.DrainLatch? ==> s.f.closing.Closed?)
    && (s.reader.DrainLatch? ==> s.f.closing == Closed(None))
    && (s.reader.FailAppend? || s.reader.DrainFailed? || s.reader.DrainAppend? ==>
          s.f.closing == Closed(Some(s.reader.error)))
    && (s.finalizer.TimedAppend? ==> s.f.closing == Closed(Some(s.finalizer.error)))
  }

  predicate DataInvariant(s: State) {
    && (s.reader.Reading? ==> s.delivered == s.read)
    && (s.reader.Emitting? ==> s.delivered + s.reader.chunk == s.read && (s.reader.outcome.Eof? ==> s.eof))
    && (Draining(s.reader) ==> s.delivered == s.read && s.eof)
    && (s.reader.FailLatch? ==> s.reader.status != Drained)
    && s.delivered <= s.read
    && (s.f.result.Some? && s.f.result.value.status == Drained ==>
          Ending(s.reader) && s.delivered == s.read && s.eof && s.f.closing == Closed(None))
  }

  /** The error of a failed closing ends up in the diagnostic. */
  predicate DiagnosticInvariant(s: State) {
    Ending(s.reader) && s.f.closing.Closed? && s.f.closing.error.Some? ==>
      s.f.result.Some? && s.f.closing.error.value in s.f.result.value.causes
  }

  predicate Invariant(s: State) {
    LatchInvariant(s) && CloseInvariant(s) && CancelInvariant(s) && DataInvariant(s) && DiagnosticInvariant(s)
  }

  // ----- each part of the invariant rests on itself and at most on the latch and the closing

  lemma StepKeepsLatch(s: State, a: Action)
    requires LatchInvariant(s) && CloseInvariant(s) && Next(s, a).Some?
    ensures LatchInvariant(Next(s, a).value)
  {
    if a.ReaderStep? { ReaderKeepsLatch(s); }
    else if a.FinalizerStep? { FinalizerKeepsLatch(s); }
  }

  lemma ReaderKeepsLatch(s: State)
    requires LatchInvariant(s) && CloseInvariant(s) && OnReader(s).Some?
    ensures LatchInvariant(OnReader(s).value)
  {
  }

  lemma FinalizerKeepsLatch(s: State)
    requires LatchInvariant(s) && CloseInvariant(s) && OnFinalizer(s).Some?
    ensures LatchInvariant(OnFinalizer(s).value)
  {
  }

  lemma StepKeepsClose(s: State, a: Action)
    requires CloseInvariant(s) && Next(s, a).Some?
    ensures CloseInvariant(Next(s, a).value)
  {
    if a.ReaderStep? { ReaderKeepsClose(s); }
    else if a.FinalizerStep? { FinalizerKeepsClose(s); }
  }

  lemma ReaderKeepsClose(s: State)
    requires CloseInvariant(s) && OnReader(s).Some?
    ensures CloseInvariant(OnReader(s).value)
  {
    if s.reader.FailClose? || s.reader.Drain? { ReaderEntersClosing(s); } else { ReaderLeavesClosing(s); }
  }

  lemma ReaderEntersClosing(s: State)
    requires CloseInvariant(s) && OnReader(s).Some? && (s.reader.FailClose? || s.reader.Drain?)
    ensures CloseInvariant(OnReader(s).value)
  {
  }

  lemma ReaderLeavesClosing(s: State)
    requires CloseInvariant(s) && OnReader(s).Some? && !s.reader.FailClose? && !s.reader.Drain?
    ensures CloseInvariant(OnReader(s).value)
    ensures OnReader(s).value.closes == s.closes
  {
  }

  lemma FinalizerKeepsClose(s: State)
    requires CloseInvariant(s) && OnFinalizer(s).Some?
    ensures CloseInvariant(OnFinalizer(s).value)
  {
  }

  lemma StepKeepsData(s: State, a: Action)
    requires DataInvariant(s) && CloseInvariant(s) && LatchInvariant(s) && Next(s, a).Some?
    ensures DataInvariant(Next(s, a).value)
  {
    if a.ReaderStep? { ReaderKeepsData(s); }
    else if a.FinalizerStep? { FinalizerKeepsData(s); }
    else if a.EmitReturns? { EmitKeepsData(s, a.error, a.consumed); }
  }

  lemma EmitKeepsData(s: State, error: Option<Cause>, consumed: nat)
    requires DataInvariant(s) && CloseInvariant(s) && LatchInvariant(s) && OnEmit(s, error, consumed).Some?
    ensures DataInvariant(OnEmit(s, error, consumed).value)
  {
    var chunk := s.reader.chunk;
    if error.Some? { assert s.delivered + chunk[..consumed] <= s.delivered + chunk; }
  }

  lemma ReaderKeepsData(s: State)
    requires DataInvariant(s) && CloseInvariant(s) && LatchInvariant(s) && OnReader(s).Some?
    ensures DataInvariant(OnReader(s).value)
  {
  }

  lemma FinalizerKeepsData(s: State)
    requires DataInvariant(s) && CloseInvariant(s) && LatchInvariant(s) && OnFinalizer(s).Some?
    ensures DataInvariant(OnFinalizer(s).value)
  {
  }

  lemma StepKeepsDiagnostic(s: State, a: Action)
    requires DiagnosticInvariant(s) && CloseInvariant(s) && LatchInvariant(s) && Next(s, a).Some?
    ensures DiagnosticInvariant(Next(s, a).value)
  {
    if a.ReaderStep? { ReaderKeepsDiagnostic(s); }
    else if a.FinalizerStep? { FinalizerKeepsDiagnostic(s); }
  }

  lemma ReaderKeepsDiagnostic(s: State)
    requires DiagnosticInvariant(s) && CloseInvariant(s) && LatchInvariant(s) && OnReader(s).Some?
    ensures DiagnosticInvariant(OnReader(s).value)
  {
  }

  lemma FinalizerKeepsDiagnostic(s: State)
    requires DiagnosticInvariant(s) && CloseInvariant(s) && LatchInvariant(s) && OnFinalizer(s).Some?
    ensures DiagnosticInvariant(OnFinalizer(s).value)
  {
  }

  lemma StepKeepsCancel(s: State, a: Action)
    requires CancelInvariant(s) && Next(s, a).Some?
    ensures CancelInvariant(Next(s, a).value)
  {
    if a.ReaderStep? { ReaderKeepsCancel(s); }
    else if a.FinalizerStep? { FinalizerKeepsCancel(s); }
  }

  lemma ReportKeepsCancel(s: State)
    requires CancelInvariant(s) && OnReader(s).Some? && Reports(s.reader)
    ensures CancelInvariant(OnReader(s).value)
  {
  }

  lemma OtherKeepsCancel(s: State)
    requires CancelInvariant(s) && OnReader(s).Some? && !Reports(s.reader)
    ensures CancelInvariant(OnReader(s).value)
  {
  }

  lemma ReaderKeepsCancel(s: State)
    requires CancelInvariant(s) && OnReader(s).Some?
    ensures CancelInvariant(OnReader(s).value)
  {
    if Reports(s.reader) { ReportKeepsCancel(s); } else { OtherKeepsCancel(s); }
  }

  lemma FinalizerKeepsCancel(s: State)
    requires CancelInvariant(s) && OnFinalizer(s).Some?
    ensures CancelInvariant(OnFinalizer(s).value)
  {
  }

  lemma StepKeepsInvariant(s: State, a: Action)
    requires Invariant(s) && Next(s, a).Some?
    ensures Invariant(Next(s, a).value)
  {
    StepKeepsLatch(s, a);
    StepKeepsClose(s, a);
    StepKeepsCancel(s, a);
    StepKeepsData(s, a);
    StepKeepsDiagnostic(s, a);
  }

  lemma {:induction false} EveryScheduleKeepsInvariant(trace: seq<State>, actions: seq<Action>, i: nat)
    requires Run(trace, actions) && i < |trace|
    ensures Invariant(trace[i])
  {
    if i > 0 {
      EveryScheduleKeepsInvariant(trace, actions, i - 1);
      assert Moves(trace[i - 1], actions[i - 1], trace[i - 1 + 1]);
      StepKeepsInvariant(trace[i - 1], actions[i - 1]);
    }
  }

  // ----- what callers can rely on

  /** No interleaving reaches one of the pump's panics. */
  lemma NoPanicIsReachable(trace: seq<State>, actions: seq<Action>, i: nat)
    requires Run(trace, actions) && i < |trace|
    ensures !trace[i].panicked
  {
    EveryScheduleKeepsInvariant(trace, actions, i);
  }

  /** A latched status stays; its diagnostic only grows. */
  predicate KeepsResult(s: State, t: State) {
    s.f.result.Some? ==>
      && t.f.result.Some? && t.f.result.value.status == s.f.result.value.status
      && s.f.result.value.causes <= t.f.result.value.causes
  }

  /** The steps of the reader that latch or append. */
  predicate Reports(r: Reader) {
    r.FailLatch? || r.FailAppend? || r.DrainFailed? || r.DrainAppend? || r.DrainLatch?
  }

  lemma ReportKeepsResult(s: State, t: State)
    requires OnReader(s) == Some(t) && Reports(s.reader)
    ensures KeepsResult(s, t)
  {
  }

  lemma ReaderLeavesResult(s: State, t: State)
    requires OnReader(s) == Some(t) && !Reports(s.reader)
    ensures t.f.result == s.f.result
  {
  }

  lemma ReaderKeepsResult(s: State, t: State)
    requires OnReader(s) == Some(t)
    ensures KeepsResult(s, t)
  {
    if Reports(s.reader) { ReportKeepsResult(s, t); } else { ReaderLeavesResult(s, t); }
  }

  lemma FinalizerKeepsResult(s: State, t: State)
    requires OnFinalizer(s) == Some(t)
    ensures KeepsResult(s, t)
  {
  }

  lemma AnswerKeepsResult(s: State, a: Action, t: State)
    requires Moves(s, a, t) && !a.ReaderStep? && !a.FinalizerStep?
    ensures KeepsResult(s, t)
  {
  }

  lemma StepKeepsResult(s: State, a: Action, t: State)
    requires Moves(s, a, t)
    ensures KeepsResult(s, t)
  {
    if a.ReaderStep? { ReaderKeepsResult(s, t); }
    else if a.FinalizerStep? { FinalizerKeepsResult(s, t); }
    else { AnswerKeepsResult(s, a, t); }
  }

  lemma {:induction false} StatusIsNeverReplaced(trace: seq<State>, actions: seq<Action>, i: nat, j: nat)
    requires Run(trace, actions) && i <= j < |trace|
    ensures KeepsResult(trace[i], trace[j])
    decreases j
  {
    if i < j {
      StatusIsNeverReplaced(trace, actions, i, j - 1);
      assert Moves(trace[j - 1], actions[j - 1], trace[j - 1 + 1]);
      StepKeepsResult(trace[j - 1], actions[j - 1], trace[j]);
    }
  }

  /** All bytes the source has returned, in order. */
  function Output(actions: seq<Action>): seq<byte> {
    if actions == [] then []
    else
      var n := |actions| - 1;
      Output(actions[..n]) + if actions[n].ReadReturns? then actions[n].chunk else []
  }

  lemma {:induction false} ReadIsOutput(trace: seq<State>, actions: seq<Action>, i: nat)
    requires Run(trace, actions) && i < |trace|
    ensures trace[i].read == Output(actions[..i])
  {
    if i > 0 {
      ReadIsOutput(trace, actions, i - 1);
      assert Moves(trace[i - 1], actions[i - 1], trace[i - 1 + 1]);
      assert actions[..i][..i - 1] == actions[..i - 1];
      StepReads(trace[i - 1], actions[i - 1], trace[i]);
    }
  }

  lemma StepReads(s: State, a: Action, t: State)
    requires Moves(s, a, t)
    ensures t.read == s.read + if a.ReadReturns? then a.chunk else []
  {
  }

  /** If finalization reports drained output, the source had ended, every byte it returned
      was delivered in order, it was closed once and cleanly, and in time. */
  lemma DrainedMeansDelivered(trace: seq<State>, actions: seq<Action>, i: nat)
    requires Run(trace, actions) && i < |trace|
    requires trace[i].finalizer.Returned? && trace[i].finalizer.r.status == Drained
    ensures trace[i].eof && trace[i].delivered == Output(actions[..i])
    ensures trace[i].closes == 1 && trace[i].f.closing == Closed(None)
    ensures trace[i].f.stoppedAt.Some? && trace[i].f.stoppedAt.value <= trace[i].deadline
  {
    EveryScheduleKeepsInvariant(trace, actions, i);
    ReadIsOutput(trace, actions, i);
  }

  /** Whatever happens, output is delivered in order and without gaps. */
  lemma DeliveryIsAPrefix(trace: seq<State>, actions: seq<Action>, i: nat)
    requires Run(trace, actions) && i < |trace|
    ensures trace[i].delivered <= Output(actions[..i])
  {
    EveryScheduleKeepsInvariant(trace, actions, i);
    ReadIsOutput(trace, actions, i);
  }

  /** Finalization reports the latched status exactly when the pump stopped by the deadline,
      and otherwise a timeout; by then the delivery context is cancelled, the source has been
      closed exactly once, and a failed closing is part of the diagnostic. */
  lemma ReturnedIsTheVerdict(trace: seq<State>, actions: seq<Action>, i: nat)
    requires Run(trace, actions) && i < |trace| && trace[i].finalizer.Returned?
    ensures var s, r := trace[i], trace[i].finalizer.r;
            && s.f.result.Some? && s.f.stoppedAt.Some? && s.closes == 1 && s.f.closing.Closed? && s.f.cancelled
            && (if s.f.stoppedAt.value <= s.deadline then r == s.f.result.value
                else r.status == TimedOut && r.causes == [DeadlineExceeded] + s.f.result.value.causes)
            && (s.f.closing.error.Some? ==> s.f.closing.error.value in r.causes)
  {
    EveryScheduleKeepsInvariant(trace, actions, i);
  }

  // ----- finalization is bounded

  function ReaderRank(r: Reader): nat {
    match r
    case Emitting(_, outcome) => if outcome.More? then 20 else 18
    case Reading(_) => 19
    case FailLatch(_, _) => 17
    case FailCancel => 16
    case FailClose => 15
    case FailClosing => 14
    case FailAppend(_) => 13
    case Drain => 12
    case DrainClosing => 11
    case DrainFailed(_) => 10
    case DrainAppend(_) => 9
    case DrainLatch => 8
    case Cancelling => 3
    case Marking => 2
    case Signalling => 1
    case Stopped => 0
  }

  function FinalizerRank(z: Finalizer): nat {
    match z
    case Uncalled => 8
    case Waiting => 7
    case TimerFired => 6
    case TimedCancel => 5
    case TimedClose => 4
    case TimedClosing => 3
    case TimedAppend(_) => 2
    case AwaitDone => 1
    case Returned(_) => 0
  }

  function Rank(s: State): nat { ReaderRank(s.reader) + FinalizerRank(s.finalizer) }

  /** The reader moves strictly onward, with the source still closed. */
  predicate ReaderOnward(s: State, t: State) {
    t.f.closing.Closed? && (t.reader == s.reader || ReaderRank(t.reader) < ReaderRank(s.reader))
  }

  lemma ReportsOnward(s: State, t: State)
    requires OnReader(s) == Some(t) && s.f.closing.Closed? && Reports(s.reader)
    ensures ReaderOnward(s, t)
  {
  }

  lemma OthersOnward(s: State, t: State)
    requires OnReader(s) == Some(t) && s.f.closing.Closed? && !Reports(s.reader)
    ensures ReaderOnward(s, t)
  {
  }

  lemma ReaderStepsOnward(s: State, t: State)
    requires OnReader(s) == Some(t) && s.f.closing.Closed?
    ensures ReaderOnward(s, t)
  {
    if Reports(s.reader) { ReportsOnward(s, t); } else { OthersOnward(s, t); }
  }

  lemma FinalizerStepsOnward(s: State, t: State)
    requires OnFinalizer(s) == Some(t) && s.f.closing.Closed?
    ensures ReaderOnward(s, t)
  {
  }

  lemma AnswersOnward(s: State, a: Action, t: State)
    requires Moves(s, a, t) && !a.ReaderStep? && !a.FinalizerStep? && s.f.closing.Closed?
    ensures ReaderOnward(s, t)
  {
  }

  /** Once the source is closed, no step of anyone lets the reader go back to reading. */
  lemma ClosedSourceEndsTheReader(s: State, a: Action, t: State)
    requires Moves(s, a, t) && s.f.closing.Closed?
    ensures ReaderOnward(s, t)
  {
    if a.ReaderStep? { ReaderStepsOnward(s, t); }
    else if a.FinalizerStep? { FinalizerStepsOnward(s, t); }
    else { AnswersOnward(s, a, t); }
  }

  /** What a reader that is being waited for does next. */
  function ReaderOn(s: State): Action {
    match s.reader
    case Reading(_) => ReadReturns([], Broken(NoProgress))
    case Emitting(_, _) => EmitReturns(None, 0)
    case FailClosing => ReaderCloseReturns(None)
    case DrainClosing => ReaderCloseReturns(None)
    case _ => ReaderStep
  }

  /** What the finalizer does next, or what it waits for. */
  function Onward(s: State): Action {
    match s.finalizer
    case Waiting => SeeTimer
    case TimedClose => if s.f.closing.Closing? then ReaderCloseReturns(None) else FinalizerStep
    case TimedClosing => FinalizerCloseReturns(None)
    case AwaitDone => if s.reader.Stopped? then SeeDone else ReaderOn(s)
    case _ => FinalizerStep
  }

  /** The step is enabled and the two goroutines together come nearer to their end. */
  predicate Nearer(s: State, a: Action) {
    && Next(s, a).Some?
    && var t := Next(s, a).value;
       Rank(t) < Rank(s) && t.now == s.now && t.deadline == s.deadline && !t.finalizer.Uncalled?
  }

  lemma WaitingForTheReader(s: State)
    requires Invariant(s) && s.finalizer.AwaitDone? && !s.reader.Stopped? && !s.reader.FailClose? && !s.reader.Drain?
    ensures Nearer(s, ReaderOn(s))
  {
  }

  lemma WaitingForTheCloser(s: State)
    requires Invariant(s) && s.finalizer.AwaitDone? && (s.reader.FailClose? || s.reader.Drain?)
    ensures Nearer(s, ReaderStep)
  {
  }

  lemma FinalizerIsNearer(s: State)
    requires Invariant(s) && !s.finalizer.Uncalled? && !s.finalizer.Returned? && s.now >= s.deadline
    requires s.finalizer.AwaitDone? ==> s.reader.Stopped?
    ensures Nearer(s, Onward(s))
  {
  }

  /** After the deadline some enabled step always brings the finalizer nearer to its return. */
  lemma OnwardIsNearer(s: State)
    requires Invariant(s) && !s.finalizer.Uncalled? && !s.finalizer.Returned? && s.now >= s.deadline
    ensures Nearer(s, Onward(s))
  {
    if s.finalizer.AwaitDone? && !s.reader.Stopped? {
      if s.reader.FailClose? || s.reader.Drain? { WaitingForTheCloser(s); } else { WaitingForTheReader(s); }
    } else {
      FinalizerIsNearer(s);
    }
  }

  ghost predicate Leads(s: State, actions: seq<Action>, t: State)
    decreases |actions|
  {
    if actions == [] then s == t else Next(s, actions[0]).Some? && Leads(Next(s, actions[0]).value, actions[1..], t)
  }

  /** From every reachable state after the deadline, finalization can return in at most 27
      steps, none of which waits for more time: it never deadlocks with the reader. */
  lemma {:induction false} FinalizationReturns(s: State) returns (actions: seq<Action>, t: State)
    requires Invariant(s) && !s.finalizer.Uncalled? && s.now >= s.deadline
    ensures Leads(s, actions, t) && t.finalizer.Returned? && |actions| <= Rank(s) <= 27
    ensures forall a :: a in actions ==> !a.Tick?
    decreases Rank(s)
  {
    if s.finalizer.Returned? {
      actions, t := [], s;
    } else {
      OnwardIsNearer(s);
      StepKeepsInvariant(s, Onward(s));
      var rest, last := FinalizationReturns(Next(s, Onward(s)).value);
      actions, t := [Onward(s)] + rest, last;
      assert actions[1..] == rest;
    }
  }

  // ----- over all schedules

  lemma ReportMovesOn(s: State, t: State)
    requires OnReader(s) == Some(t) && Reports(s.reader)
    ensures t.finalizer == s.finalizer && t.reader != s.reader
  {
  }

  lemma OtherMovesOn(s: State, t: State)
    requires OnReader(s) == Some(t) && !Reports(s.reader)
    ensures t.finalizer == s.finalizer && t.reader != s.reader
  {
  }

  lemma ReaderOfClosed(s: State, t: State)
    requires OnReader(s) == Some(t) && s.f.closing.Closed?
    ensures t.f.closing.Closed? && t.finalizer == s.finalizer && ReaderRank(t.reader) < ReaderRank(s.reader)
  {
    ReaderStepsOnward(s, t);
    if Reports(s.reader) { ReportMovesOn(s, t); } else { OtherMovesOn(s, t); }
  }

  lemma FinalizerOfClosed(s: State, t: State)
    requires OnFinalizer(s) == Some(t) && s.f.closing.Closed?
    ensures t.f.closing.Closed? && t.reader == s.reader && FinalizerRank(t.finalizer) < FinalizerRank(s.finalizer)
  {
  }

  lemma AnswerOfClosed(s: State, a: Action, t: State)
    requires Invariant(s) && Moves(s, a, t) && s.f.closing.Closed?
    requires !a.Tick? && !a.ReaderStep? && !a.FinalizerStep?
    ensures t.f.closing.Closed? && Rank(t) < Rank(s)
  {
  }

  /** Once the source is closed, every step but the passing of time comes nearer to the end. */
  lemma StepLowersRank(s: State, a: Action, t: State)
    requires Invariant(s) && Moves(s, a, t) && s.f.closing.Closed?
    ensures t.f.closing.Closed? && Rank(t) <= Rank(s) - if a.Tick? then 0 else 1
  {
    if a.ReaderStep? { ReaderOfClosed(s, t); }
    else if a.FinalizerStep? { FinalizerOfClosed(s, t); }
    else if !a.Tick? { AnswerOfClosed(s, a, t); }
  }

  /** The steps that are not the passing of time. */
  function Busy(actions: seq<Action>): nat {
    if actions == [] then 0 else Busy(actions[..|actions| - 1]) + if actions[|actions| - 1].Tick? then 0 else 1
  }

  /** In every schedule, at most `Rank` steps follow the closing of the source. */
  lemma {:induction false} SchedulesEnd(trace: seq<State>, actions: seq<Action>, i: nat, j: nat)
    requires Run(trace, actions) && i <= j < |trace| && trace[i].f.closing.Closed?
    ensures trace[j].f.closing.Closed? && Rank(trace[j]) + Busy(actions[i..j]) <= Rank(trace[i]) <= 28
    decreases j
  {
    if i < j {
      SchedulesEnd(trace, actions, i, j - 1);
      EveryScheduleKeepsInvariant(trace, actions, j - 1);
      assert Moves(trace[j - 1], actions[j - 1], trace[j - 1 + 1]);
      StepLowersRank(trace[j - 1], actions[j - 1], trace[j]);
      BusyMore(actions, i, j);
    }
  }

  lemma BusyMore(actions: seq<Action>, i: nat, j: nat)
    requires i < j <= |actions|
    ensures Busy(actions[i..j]) == Busy(actions[i..j - 1]) + if actions[j - 1].Tick? then 0 else 1
  {
    assert actions[i..j][..j - 1 - i] == actions[i..j - 1];
  }

  /** Nothing can happen any more but that time passes. */
  ghost predicate Quiet(s: State) { forall a: Action :: !a.Tick? ==> Next(s, a).None? }

  /** After the deadline something other than time can move, until finalization has returned. */
  lemma SomethingCanHappen(s: State) returns (a: Action)
    requires Invariant(s) && !s.finalizer.Returned? && (!s.finalizer.Uncalled? ==> s.now >= s.deadline)
    ensures !a.Tick? && Next(s, a).Some?
  {
    if s.finalizer.Uncalled? {
      a := Call(0);
    } else {
      OnwardIsNearer(s);
      a := Onward(s);
    }
  }

  /** A schedule after the deadline can only come to rest with finalization returned. */
  lemma QuietMeansReturned(trace: seq<State>, actions: seq<Action>, i: nat)
    requires Run(trace, actions) && i < |trace| && Quiet(trace[i])
    requires !trace[i].finalizer.Uncalled? ==> trace[i].now >= trace[i].deadline
    ensures trace[i].finalizer.Returned? && trace[i].reader.Stopped?
  {
    EveryScheduleKeepsInvariant(trace, actions, i);
    if !trace[i].finalizer.Returned? { var a := SomethingCanHappen(trace[i]); }
  }
}
