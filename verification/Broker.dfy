/**
 The controller broker (internal/controlledsession/controller_broker.go): how one request
 or one host event changes its flags and buffers, and what it writes to the host, to the
 public stream and to the terminal.
 */
module Broker {
  import opened Common
  import opened Requests

  datatype Source = Public | Terminal

  /** Host events; `present` tells whether the payload the kind requires is there,
      for a diagnostic the payload is carried along. */
  datatype HostEvent =
    | Ready
    | Output(bytes: Option<seq<byte>>)
    | WorkloadExit(present: bool)
    | Terminating(present: bool)
    | Diagnostic(payload: Option<string>)
    | OutputsFinalized(present: bool, drained: bool)
    | Terminated(present: bool)
    | Opened
    | OtherEvent(name: string)

  datatype PublicEvent =
    PublicReady | PublicWorkloadExit | PublicTerminating | PublicDiagnostic(payload: string)
    | PublicOutputsFinalized(drained: bool) | PublicTerminated | PublicClientError

  datatype TerminalWrite = Chunk(bytes: seq<byte>) | End

  /** Whether each of the writes a step may make succeeds. */
  datatype Answers = Answers(host: bool, hostAgain: bool, public: bool, terminal: bool)

  datatype View = View(
    operations: set<Operation>,
    ready: bool,
    exited: bool,
    terminating: bool,
    finalized: bool,
    ended: bool,
    terminated: bool,
    completeSent: bool,
    acknowledged: bool,
    input: Option<seq<byte>>,
    resize: Option<Request>,
    toHost: seq<Request>,
    toPublic: seq<PublicEvent>,
    toTerminal: seq<TerminalWrite>)

  datatype Outcome = Outcome(view: View, ok: bool)

  function Bytes(r: Request): seq<byte> { if r.bytes.Some? then r.bytes.value else [] }

  function Buffered(v: View): seq<byte> { if v.input.Some? then v.input.value else [] }

  function InputRequest(bytes: seq<byte>): Request { Request(Input, Some(bytes), 0, 0) }

  predicate Granted(v: View, kind: RequestKind) {
    OperationFor(kind).Some? && OperationFor(kind).value in v.operations
  }

  function ToHost(v: View, r: Request): View { v.(toHost := v.toHost + [r]) }
  function ToPublic(v: View, e: PublicEvent): View { v.(toPublic := v.toPublic + [e]) }

  // ----- requests

  /** A terminal request before ready is buffered. */
  function Buffer(v: View, r: Request): Outcome {
    if !Granted(v, r.kind) then Outcome(v, false)
    else if r.kind == Resize then Outcome(v.(resize := Some(r)), true)
    else if |Buffered(v)| + |Bytes(r)| > MAX_FRAME_PAYLOAD then Outcome(v, false)
    else Outcome(v.(input := Some(Buffered(v) + Bytes(r))), true)
  }

  /** A request while ready and not terminated. */
  function Forward(v: View, r: Request, a: Answers): Outcome {
    if !Granted(v, r.kind) then Outcome(v, false)
    else if (r.kind == Input || r.kind == Resize) && v.terminating then Outcome(v, false)
    else if r.kind == Complete && (!v.terminating || !v.finalized || v.completeSent) then Outcome(v, false)
    else if !a.host then Outcome(v, false)
    else Outcome(ToHost(v, r).(completeSent := v.completeSent || r.kind == Complete), true)
  }

  function ApplyRequest(v: View, source: Source, r: Request, a: Answers): Outcome {
    if source == Public && r.kind == Input then Outcome(v, false)
    else if source == Terminal && r.kind != Input && r.kind != Resize then Outcome(v, false)
    else if source == Terminal && (v.terminating || v.terminated) then Outcome(v, true)
    else if r.kind == AcknowledgeTerminated then
      if !v.terminated || v.acknowledged || !a.host then Outcome(v, false)
      else Outcome(ToHost(v, r).(acknowledged := true), true)
    else if !v.ready then if source == Terminal then Buffer(v, r) else Outcome(v, false)
    else if v.terminated then Outcome(v, false)
    else Forward(v, r, a)
  }

  // ----- host events

  function ResizeSent(v: View): View {
    if v.resize.Some? then ToHost(v, v.resize.value).(resize := None) else v
  }

  function InputSent(v: View): View {
    if v.input.Some? then ToHost(v, InputRequest(v.input.value)).(input := None) else v
  }

  /** The resize goes out before the readiness is announced, the input after it. */
  function OnReady(v: View, a: Answers): Outcome {
    if v.ready || v.terminating || v.terminated || (v.resize.Some? && !a.host) then Outcome(v, false)
    else if !a.public then Outcome(ResizeSent(v).(ready := true), false)
    else
      var announced := ToPublic(ResizeSent(v).(ready := true), PublicReady);
      if v.input.Some? && !a.hostAgain then Outcome(announced, false) else Outcome(InputSent(announced), true)
  }

  function Announce(v: View, e: PublicEvent, a: Answers): Outcome {
    if a.public then Outcome(ToPublic(v, e), true) else Outcome(v, false)
  }

  function Ended(v: View): View { v.(toTerminal := v.toTerminal + [End], ended := true, finalized := true) }

  function OnFinalized(v: View, present: bool, drained: bool, a: Answers): Outcome {
    if !v.terminating || v.finalized || v.terminated || !present || (v.ready && !v.exited && drained) then Outcome(v, false)
    else if !a.public then Outcome(v, false)
    else if !a.terminal then Outcome(ToPublic(v, PublicOutputsFinalized(drained)), false)
    else Outcome(Ended(ToPublic(v, PublicOutputsFinalized(drained))), true)
  }

  function OnTerminated(v: View, present: bool, a: Answers): Outcome {
    if v.terminated || !present || (v.ready && !v.terminating) then Outcome(v, false)
    else if !v.ended && (v.ready || !a.terminal) then Outcome(v, false)
    else
      var t := if v.ended then v else Ended(v);
      if a.public then Outcome(ToPublic(t, PublicTerminated).(terminated := true), true) else Outcome(t, false)
  }

  predicate AcceptsOutput(v: View, bytes: Option<seq<byte>>) { !v.finalized && !v.terminated && bytes.Some? }

  /** Every event but output, which goes through the loop's own buffer. */
  function ApplyHostEvent(v: View, e: HostEvent, a: Answers): Outcome {
    match e
    case Ready => OnReady(v, a)
    case WorkloadExit(present) =>
      if v.exited || v.finalized || v.terminated || !present then Outcome(v, false)
      else Announce(v.(exited := true), PublicWorkloadExit, a)
    case Terminating(present) =>
      if v.terminating || v.terminated || !present then Outcome(v, false)
      else Announce(v.(terminating := true), PublicTerminating, a)
    case Diagnostic(payload) =>
      if v.terminated || payload.None? then Outcome(v, false) else Announce(v, PublicDiagnostic(payload.value), a)
    case OutputsFinalized(present, drained) => OnFinalized(v, present, drained, a)
    case Terminated(present) => OnTerminated(v, present, a)
    case _ => Outcome(v, false)
  }

  // ----- the buffer used before the host session is open

  datatype Setup = Setup(input: Option<seq<byte>>, resize: Option<Request>)

  function Add(p: Setup, r: Request): Option<Setup> {
    var buffered := if p.input.Some? then p.input.value else [];
    match r.kind
    case Input =>
      if |buffered| + |Bytes(r)| > MAX_FRAME_PAYLOAD then None else Some(p.(input := Some(buffered + Bytes(r))))
    case Resize => Some(p.(resize := Some(r)))
    case _ => None
  }

  /** The newest resize, then all the input. */
  function SetupRequests(p: Setup): seq<Request> {
    (if p.resize.Some? then [p.resize.value] else [])
    + (if p.input.Some? then [InputRequest(p.input.value)] else [])
  }

  // ----- the broker as Go's methods update it

  class Machine {
    const operations: set<Operation>
    var ready: bool
    var exited: bool
    var terminating: bool
    var finalized: bool
    var ended: bool
    var terminated: bool
    var completeSent: bool
    var acknowledged: bool
    var input: Option<seq<byte>>
    var resize: Option<Request>
    var toHost: seq<Request>
    var toPublic: seq<PublicEvent>
    var toTerminal: seq<TerminalWrite>

    constructor (operations: set<Operation>)
      ensures Now() == NewView(operations)
    {
      this.operations := operations;
      ready, exited, terminating, finalized := false, false, false, false;
      ended, terminated, completeSent, acknowledged := false, false, false, false;
      input, resize, toHost, toPublic, toTerminal := None, None, [], [], [];
    }

    ghost function Now(): View
      reads this
    {
      View(operations, ready, exited, terminating, finalized, ended, terminated, completeSent, acknowledged,
           input, resize, toHost, toPublic, toTerminal)
    }

    predicate Grants(kind: RequestKind) { OperationFor(kind).Some? && OperationFor(kind).value in operations }

    method WriteHost(r: Request, answer: bool) returns (ok: bool)
      modifies this`toHost
      ensures ok == answer && toHost == if ok then old(toHost) + [r] else old(toHost)
    {
      if answer { toHost := toHost + [r]; }
      return answer;
    }

    method WritePublic(e: PublicEvent, answer: bool) returns (ok: bool)
      modifies this`toPublic
      ensures ok == answer && toPublic == if ok then old(toPublic) + [e] else old(toPublic)
    {
      if answer { toPublic := toPublic + [e]; }
      return answer;
    }

    method BufferTerminal(r: Request) returns (ok: bool)
      requires r.kind == Input || r.kind == Resize
      modifies this`input, this`resize
      ensures Outcome(Now(), ok) == Buffer(old(Now()), r)
    {
      if !Grants(r.kind) { return false; }
      if r.kind == Resize {
        resize := Some(r);
        return true;
      }
      var pending := if input.Some? then input.value else [];
      if |pending| + |Bytes(r)| > MAX_FRAME_PAYLOAD { return false; }
      input := Some(pending + Bytes(r));
      return true;
    }

    method ForwardRequest(r: Request, a: Answers) returns (ok: bool)
      modifies this
      ensures Outcome(Now(), ok) == Forward(old(Now()), r, a)
    {
      if !Grants(r.kind) { return false; }
      if (r.kind == Input || r.kind == Resize) && terminating { return false; }
      if r.kind == Complete && (!terminating || !finalized || completeSent) { return false; }
      ok := WriteHost(r, a.host);
      if ok && r.kind == Complete { completeSent := true; }
    }

    method HandleRequest(source: Source, r: Request, a: Answers) returns (ok: bool)
      modifies this
      ensures Outcome(Now(), ok) == ApplyRequest(old(Now()), source, r, a)
    {
      if source == Public && r.kind == Input { return false; }
      if source == Terminal && r.kind != Input && r.kind != Resize { return false; }
      if source == Terminal && (terminating || terminated) { return true; }
      if r.kind == AcknowledgeTerminated {
        if !terminated || acknowledged { return false; }
        ok := WriteHost(r, a.host);
        if ok { acknowledged := true; }
        return;
      }
      if !ready {
        if source == Public { return false; }
        ok := BufferTerminal(r);
        return;
      }
      if terminated { return false; }
      ok := ForwardRequest(r, a);
    }

    method HandleReady(a: Answers) returns (ok: bool)
      modifies this
      ensures Outcome(Now(), ok) == OnReady(old(Now()), a)
    {
      if ready || terminating || terminated { return false; }
      if resize.Some? {
        ok := WriteHost(resize.value, a.host);
        if !ok { return; }
        resize := None;
      }
      ready := true;
      ok := WritePublic(PublicReady, a.public);
      if !ok { return; }
      if input.Some? {
        ok := WriteHost(InputRequest(input.value), a.hostAgain);
        if !ok { return; }
        input := None;
      }
      return true;
    }

    method HandleFinalized(present: bool, drained: bool, a: Answers) returns (ok: bool)
      modifies this
      ensures Outcome(Now(), ok) == OnFinalized(old(Now()), present, drained, a)
    {
      if !terminating || finalized || terminated || !present { return false; }
      if ready && !exited && drained { return false; }
      ok := WritePublic(PublicOutputsFinalized(drained), a.public);
      if !ok || !a.terminal { return false; }
      toTerminal := toTerminal + [End];
      finalized, ended := true, true;
      return true;
    }

    method HandleTerminated(present: bool, a: Answers) returns (ok: bool)
      modifies this
      ensures Outcome(Now(), ok) == OnTerminated(old(Now()), present, a)
    {
      if terminated || !present || (ready && !terminating) { return false; }
      if !ended {
        if ready || !a.terminal { return false; }
        toTerminal := toTerminal + [End];
        ended, finalized := true, true;
      }
      ok := WritePublic(PublicTerminated, a.public);
      if ok { terminated := true; }
    }

    method HandleHostEvent(e: HostEvent, a: Answers) returns (ok: bool)
      modifies this
      ensures Outcome(Now(), ok) == ApplyHostEvent(old(Now()), e, a)
    {
      match e
      case Ready => ok := HandleReady(a);
      case WorkloadExit(present) =>
        if exited || finalized || terminated || !present { return false; }
        exited := true;
        ok := WritePublic(PublicWorkloadExit, a.public);
      case Terminating(present) =>
        if terminating || terminated || !present { return false; }
        terminating := true;
        ok := WritePublic(PublicTerminating, a.public);
      case Diagnostic(payload) =>
        if terminated || payload.None? { return false; }
        ok := WritePublic(PublicDiagnostic(payload.value), a.public);
      case OutputsFinalized(present, drained) => ok := HandleFinalized(present, drained, a);
      case Terminated(present) => ok := HandleTerminated(present, a);
      case _ => ok := false;
    }
  }

  function NewView(operations: set<Operation>): View {
    View(operations, false, false, false, false, false, false, false, false, None, None, [], [], [])
  }
}
