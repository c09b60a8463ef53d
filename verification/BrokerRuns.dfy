/**
 Whole runs of the controller broker: the buffer before the session is open, then the
 select loop with its one-chunk output buffer and the goroutine that writes to the terminal.
 */
module BrokerRuns {
  import opened Common
  import opened Requests
  import opened Broker

  /** The terminal writer: idle, holding a chunk, or reporting how its write went. */
  datatype Writer = Idle | Holding(chunk: seq<byte>) | Wrote(ok: bool)

  datatype State = State(
    v: View,
    output: Option<seq<byte>>,    // pendingOutput, while outputPending
    offered: bool,                // the writer has taken it
    writer: Writer,
    stopped: Option<bool>,        // the broker returned, with or without success
    received: seq<byte>,          // terminal input so far
    outputs: seq<byte>,           // host output accepted so far
    early: Option<Request>,       // the newest resize buffered before ready
    complaint: Option<bool>)      // the failure was announced, with or without success

  datatype Action =
    | Asks(source: Source, request: Request, answers: Answers)
    | Happens(event: HostEvent, answers: Answers)
    | Offer
    | WriterWrites(ok: bool)
    | WriterReports
    | HostEnds
    | InputEnds(source: Source)
    | Cancelled
    | Complain(ok: bool)

  function Stop(s: State, ok: bool): State { s.(stopped := Some(ok)) }

  /** What the terminal has sent, whether or not it is still wanted. */
  function Received(s: State, source: Source, r: Request): State {
    if source == Terminal && r.kind == Input then s.(received := s.received + Bytes(r)) else s
  }

  function OnAsk(s: State, source: Source, r: Request, a: Answers): State {
    var o := ApplyRequest(s.v, source, r, a);
    var t := Received(s, source, r).(v := o.view, early := if s.v.ready then s.early else o.view.resize);
    if o.ok then t else Stop(t, false)
  }

  function OnEvent(s: State, e: HostEvent, a: Answers): State {
    if e.Output? then
      if AcceptsOutput(s.v, e.bytes) then s.(output := e.bytes, outputs := s.outputs + e.bytes.value) else Stop(s, false)
    else
      var o := ApplyHostEvent(s.v, e, a);
      if o.ok then s.(v := o.view) else Stop(s.(v := o.view), false)
  }

  function OnWrite(s: State, ok: bool): Option<State> {
    if !s.writer.Holding? then None
    else if ok then
      Some(s.(writer := Wrote(true), v := s.v.(toTerminal := s.v.toTerminal + [Chunk(s.writer.chunk)])))
    else Some(s.(writer := Wrote(false)))
  }

  function OnReport(s: State): Option<State> {
    if !s.offered || !s.writer.Wrote? then None
    else if !s.writer.ok then Some(Stop(s, false))
    else Some(s.(output := None, offered := false, writer := Idle))
  }

  function OnInputEnd(s: State, source: Source): State {
    if (source == Terminal && s.v.ended) || (source == Public && s.v.acknowledged) then s else Stop(s, false)
  }

  /** Go's `failControllerBrokerV1`: a broker that stops with an error announces it, once. */
  function OnComplain(s: State, ok: bool): Option<State> {
    if s.stopped != Some(false) || s.complaint.Some? then None
    else Some(s.(complaint := Some(ok), v := if ok then ToPublic(s.v, PublicClientError) else s.v))
  }

  /** `None` when the select cannot take that branch. */
  function Next(s: State, a: Action): Option<State> {
    if a.WriterWrites? then OnWrite(s, a.ok)
    else if a.Complain? then OnComplain(s, a.ok)
    else if s.stopped.Some? then None
    else
      match a
      case Asks(source, r, answers) => Some(OnAsk(s, source, r, answers))
      case Happens(e, answers) => if s.output.Some? then None else Some(OnEvent(s, e, answers))
      case Offer =>
        if s.output.Some? && !s.offered && s.writer.Idle? then
          Some(s.(writer := Holding(s.output.value), offered := true))
        else None
      case WriterReports => OnReport(s)
      case HostEnds => Some(Stop(s, s.v.acknowledged))
      case InputEnds(source) => Some(OnInputEnd(s, source))
      case Cancelled => Some(Stop(s, false))
      case WriterWrites(ok) => OnWrite(s, ok)
      case Complain(ok) => OnComplain(s, ok)
  }

  // ----- the buffer before the session is open

  function AddAll(p: Setup, rs: seq<Request>): Option<Setup> {
    if rs == [] then Some(p)
    else
      match AddAll(p, rs[..|rs| - 1])
      case None => None
      case Some(q) => Add(q, rs[|rs| - 1])
  }

  /** All input bytes of the requests, in order. */
  function InputOf(rs: seq<Request>): seq<byte> {
    if rs == [] then []
    else
      var r := rs[|rs| - 1];
      InputOf(rs[..|rs| - 1]) + if r.kind == Input then Bytes(r) else []
  }

  function NewestResize(rs: seq<Request>): Option<Request> {
    if rs == [] then None
    else if rs[|rs| - 1].kind == Resize then Some(rs[|rs| - 1])
    else NewestResize(rs[..|rs| - 1])
  }

  lemma {:induction false} SetupKeepsEverything(rs: seq<Request>, p: Setup)
    requires AddAll(Setup(None, None), rs) == Some(p)
    ensures (if p.input.Some? then p.input.value else []) == InputOf(rs)
    ensures p.resize == NewestResize(rs) && |InputOf(rs)| <= MAX_FRAME_PAYLOAD
    ensures p.resize.Some? ==> p.resize.value.kind == Resize
  {
    if rs != [] {
      var n := |rs| - 1;
      SetupKeepsEverything(rs[..n], AddAll(Setup(None, None), rs[..n]).value);
    }
  }

  /** Terminal requests whose input fits one frame. */
  predicate Bufferable(rs: seq<Request>) {
    && (forall i :: 0 <= i < |rs| ==> rs[i].kind == Input || rs[i].kind == Resize)
    && |InputOf(rs)| <= 1_048_576
  }

  lemma BufferableMore(rs: seq<Request>)
    requires rs != []
    ensures var n := |rs| - 1;
            Bufferable(rs) <==>
              && Bufferable(rs[..n]) && (rs[n].kind == Resize || rs[n].kind == Input)
              && (rs[n].kind == Input ==> |InputOf(rs[..n])| + |Bytes(rs[n])| <= MAX_FRAME_PAYLOAD)
  {
    var n := |rs| - 1;
    assert forall i :: 0 <= i < n ==> rs[..n][i] == rs[i];
    assert |InputOf(rs)| == |InputOf(rs[..n])| + if rs[n].kind == Input then |Bytes(rs[n])| else 0;
    if Bufferable(rs) {
      forall i | 0 <= i < n ensures rs[..n][i].kind == Input || rs[..n][i].kind == Resize { assert rs[i] == rs[..n][i]; }
    }
  }

  lemma AddIsTakenIff(p: Setup, r: Request, buffered: seq<byte>)
    requires buffered == if p.input.Some? then p.input.value else []
    ensures Add(p, r).Some? <==>
              r.kind == Resize || (r.kind == Input && |buffered| + |Bytes(r)| <= MAX_FRAME_PAYLOAD)
  {
  }

  /** Before the session is open exactly such requests are buffered. */
  lemma {:induction false} SetupIsTakenIff(rs: seq<Request>)
    ensures AddAll(Setup(None, None), rs).Some? <==> Bufferable(rs)
  {
    if rs != [] {
      var n := |rs| - 1;
      var before := AddAll(Setup(None, None), rs[..n]);
      SetupIsTakenIff(rs[..n]);
      BufferableMore(rs);
      if before.Some? {
        SetupKeepsEverything(rs[..n], before.value);
        AddIsTakenIff(before.value, rs[n], InputOf(rs[..n]));
      }
    }
  }

  function Blank(operations: set<Operation>): State {
    State(NewView(operations), None, false, Idle, None, [], [], None, None)
  }

  /** One buffered request is replayed; before readiness none of them writes anything. */
  function Replay(s: State, r: Request): State {
    if s.stopped.Some? then s else OnAsk(s, Terminal, r, Answers(false, false, false, false))
  }

  /** The loop's first state: the buffered requests have been replayed. */
  function Started(operations: set<Operation>, p: Setup): State {
    var resized := if p.resize.Some? then Replay(Blank(operations), p.resize.value) else Blank(operations);
    if p.input.Some? then Replay(resized, InputRequest(p.input.value)) else resized
  }

  function ReplayAll(s: State, rs: seq<Request>): State
    decreases |rs|
  {
    if rs == [] then s else ReplayAll(Replay(s, rs[0]), rs[1..])
  }

  lemma ReplayTwo(s: State, q: Request, r: Request)
    ensures ReplayAll(s, [q]) == Replay(s, q)
    ensures ReplayAll(s, [q] + [r]) == Replay(Replay(s, q), r)
  {
    assert [q][1..] == [] && ([q] + [r])[1..] == [r] && [r][1..] == [];
    assert ReplayAll(Replay(s, q), [r]) == ReplayAll(Replay(Replay(s, q), r), []);
    assert ReplayAll(s, [q]) == ReplayAll(Replay(s, q), []);
  }

  /** The requests of the setup buffer are replayed in their order. */
  lemma StartedReplaysSetup(operations: set<Operation>, p: Setup)
    ensures Started(operations, p) == ReplayAll(Blank(operations), SetupRequests(p))
  {
    var s := Blank(operations);
    match (p.resize, p.input)
    case (Some(q), Some(b)) => ReplayTwo(s, q, InputRequest(b));
    case (Some(q), None) =>
      ReplayTwo(s, q, q);
      assert SetupRequests(p) == [q];
    case (None, Some(b)) =>
      ReplayTwo(s, InputRequest(b), InputRequest(b));
      assert SetupRequests(p) == [InputRequest(b)];
    case (None, None) => assert SetupRequests(p) == [];
  }

  predicate Moves(s: State, a: Action, t: State) { Next(s, a) == Some(t) }

  predicate Run(operations: set<Operation>, setup: seq<Request>, trace: seq<State>, actions: seq<Action>) {
    && |trace| == |actions| + 1
    && AddAll(Setup(None, None), setup).Some?
    && trace[0] == Started(operations, AddAll(Setup(None, None), setup).value)
    && forall i :: 0 <= i < |actions| ==> Moves(trace[i], actions[i], trace[i + 1])
  }

  // ----- what the writes amount to

  function ChunkBytes(w: seq<TerminalWrite>): seq<byte> {
    if w == [] then []
    else ChunkBytes(w[..|w| - 1]) + if w[|w| - 1].Chunk? then w[|w| - 1].bytes else []
  }

  lemma InputMore(rs: seq<Request>, r: Request)
    ensures InputOf(rs + [r]) == InputOf(rs) + if r.kind == Input then Bytes(r) else []
  {
    assert (rs + [r])[..|rs|] == rs;
  }

  lemma ChunkMore(w: seq<TerminalWrite>, x: TerminalWrite)
    ensures ChunkBytes(w + [x]) == ChunkBytes(w) + if x.Chunk? then x.bytes else []
  {
    assert (w + [x])[..|w|] == w;
  }

  /** Output accepted from the host that the terminal has not got yet. */
  function Undelivered(s: State): seq<byte> {
    if s.output.None? || s.writer == Wrote(true) then [] else s.output.value
  }

  // ----- the invariant

  predicate Live(s: State) { s.stopped.None? && !s.v.terminating && !s.v.terminated }

  /** Input is neither lost, duplicated nor reordered on its way to the host. */
  predicate InputInvariant(s: State) {
    && InputOf(s.v.toHost) + Buffered(s.v) <= s.received
    && (Live(s) ==> InputOf(s.v.toHost) + Buffered(s.v) == s.received)
    && |Buffered(s.v)| <= MAX_FRAME_PAYLOAD
    && (s.v.ready && s.stopped.None? ==> s.v.input.None? && s.v.resize.None?)
    && (!s.v.ready ==> InputOf(s.v.toHost) == [] && (!s.v.terminated ==> s.v.toHost == []))
  }

  /** The newest early resize is the first thing the host gets. */
  predicate ResizeInvariant(s: State) {
    && (!s.v.ready ==> s.early == s.v.resize)
    && (s.v.ready && s.early.Some? ==> s.v.toHost != [] && s.v.toHost[0] == s.early.value)
  }

  predicate OutputInvariant(s: State) {
    && ChunkBytes(s.v.toTerminal) + Undelivered(s) == s.outputs
    && (!s.writer.Idle? ==> s.output.Some? && s.offered)
    && (s.writer.Holding? ==> s.writer.chunk == s.output.value)
    && (s.output.Some? ==> !s.v.ended)
    && (s.offered ==> s.output.Some? && !s.writer.Idle?)
  }

  /** The terminal's end comes once, last, and with the finalized flag. */
  predicate EndInvariant(v: View) {
    && v.finalized == v.ended
    && (v.ended <==> v.toTerminal != [] && v.toTerminal[|v.toTerminal| - 1] == End)
    && (forall i :: 0 <= i < |v.toTerminal| - 1 ==> v.toTerminal[i].Chunk?)
    && (v.terminated ==> v.ended)
    && (v.terminated <==> PublicTerminated in v.toPublic)
  }

  function Count(rs: seq<Request>, kind: RequestKind): nat {
    if rs == [] then 0 else Count(rs[..|rs| - 1], kind) + if rs[|rs| - 1].kind == kind then 1 else 0
  }

  lemma CountMore(rs: seq<Request>, r: Request, kind: RequestKind)
    ensures Count(rs + [r], kind) == Count(rs, kind) + if r.kind == kind then 1 else 0
  {
    assert (rs + [r])[..|rs|] == rs;
  }

  /** Only granted requests are sent; completion and acknowledgement at most once. */
  predicate GrantInvariant(v: View) {
    && (forall i :: 0 <= i < |v.toHost| ==> v.toHost[i].kind == AcknowledgeTerminated || Granted(v, v.toHost[i].kind))
    && Count(v.toHost, Complete) == (if v.completeSent then 1 else 0)
    && Count(v.toHost, AcknowledgeTerminated) == (if v.acknowledged then 1 else 0)
    && (v.completeSent ==> v.finalized) && (v.acknowledged ==> v.terminated)
    && (v.resize.Some? ==> v.resize.value.kind == Resize && Granted(v, Resize))
    && (v.input.Some? ==> Granted(v, Input))
  }

  predicate HostSide(s: State) { InputInvariant(s) && ResizeInvariant(s) && GrantInvariant(s.v) }
  predicate TerminalSide(s: State) { OutputInvariant(s) && EndInvariant(s.v) }
  predicate Verdict(s: State) { s.stopped == Some(true) ==> s.v.acknowledged }

  predicate Invariant(s: State) { HostSide(s) && TerminalSide(s) && Verdict(s) }

  // ----- what a request does to the view

  /** The input on its way: sent or buffered. */
  function Passed(v: View): seq<byte> { InputOf(v.toHost) + Buffered(v) }

  predicate BufferShape(v: View, r: Request, w: View) {
    && !v.ready && !v.terminating && !v.terminated && Granted(v, r.kind)
    && ((r.kind == Resize && w == v.(resize := Some(r)))
        || (r.kind == Input && |Buffered(v)| + |Bytes(r)| <= MAX_FRAME_PAYLOAD
            && w == v.(input := Some(Buffered(v) + Bytes(r)))))
  }

  predicate SendShape(v: View, source: Source, r: Request, w: View) {
    && w == ToHost(v, r).(completeSent := w.completeSent, acknowledged := w.acknowledged)
    && (r.kind == Input ==> source == Terminal)
    && if r.kind == AcknowledgeTerminated then
         v.terminated && !v.acknowledged && w.acknowledged && w.completeSent == v.completeSent
       else
         && v.ready && !v.terminated && Granted(v, r.kind) && w.acknowledged == v.acknowledged
         && (r.kind == Input ==> !v.terminating)
         && (if r.kind == Complete then v.finalized && !v.completeSent && w.completeSent
             else w.completeSent == v.completeSent)
  }

  predicate DropShape(v: View, source: Source, o: Outcome) {
    o.view == v && (o.ok ==> source == Terminal && (v.terminating || v.terminated))
  }

  /** A request is refused or dropped, or buffered, or sent. */
  lemma AskShape(v: View, source: Source, r: Request, a: Answers)
    ensures var o := ApplyRequest(v, source, r, a);
            || DropShape(v, source, o)
            || (o.ok && source == Terminal && BufferShape(v, r, o.view))
            || (o.ok && SendShape(v, source, r, o.view))
  {
  }

  // ----- requests keep the invariant

  lemma SentKeepsInput(s: State, source: Source, r: Request, w: View)
    requires InputInvariant(s) && ResizeInvariant(s) && s.stopped.None? && SendShape(s.v, source, r, w)
    requires s.v.acknowledged ==> s.v.terminated
    ensures var t := Received(s, source, r).(v := w, early := if s.v.ready then s.early else w.resize);
            InputInvariant(t) && ResizeInvariant(t)
  {
    InputMore(s.v.toHost, r);
    assert Passed(w) == InputOf(s.v.toHost) + (if r.kind == Input then Bytes(r) else []) + Buffered(s.v);
  }

  lemma BufferedKeepsInput(s: State, r: Request, w: View)
    requires InputInvariant(s) && ResizeInvariant(s) && s.stopped.None? && BufferShape(s.v, r, w)
    ensures var t := Received(s, Terminal, r).(v := w, early := w.resize); InputInvariant(t) && ResizeInvariant(t)
  {
    if r.kind == Input {
      assert Passed(w) == Passed(s.v) + Bytes(r);
    }
  }

  lemma DroppedKeepsInput(s: State, source: Source, r: Request, ok: bool)
    requires InputInvariant(s) && ResizeInvariant(s) && s.stopped.None?
    requires ok ==> s.v.terminating || s.v.terminated
    ensures var u := Received(s, source, r).(early := if s.v.ready then s.early else s.v.resize);
            var t := if ok then u else Stop(u, false);
            InputInvariant(t) && ResizeInvariant(t)
  {
    assert Passed(s.v) <= Received(s, source, r).received;
  }

  lemma AskKeepsInput(s: State, source: Source, r: Request, a: Answers)
    requires InputInvariant(s) && ResizeInvariant(s) && s.stopped.None? && (s.v.acknowledged ==> s.v.terminated)
    ensures InputInvariant(OnAsk(s, source, r, a)) && ResizeInvariant(OnAsk(s, source, r, a))
  {
    var o := ApplyRequest(s.v, source, r, a);
    AskShape(s.v, source, r, a);
    if DropShape(s.v, source, o) { DroppedKeepsInput(s, source, r, o.ok); }
    else if BufferShape(s.v, r, o.view) { BufferedKeepsInput(s, r, o.view); }
    else { SentKeepsInput(s, source, r, o.view); }
  }

  /** The terminal's and the public stream's side of the view. */
  datatype Ending = Ending(
    toTerminal: seq<TerminalWrite>, toPublic: seq<PublicEvent>, finalized: bool, ended: bool, terminated: bool)

  function EndOf(v: View): Ending { Ending(v.toTerminal, v.toPublic, v.finalized, v.ended, v.terminated) }

  predicate SameEnds(v: View, w: View) { EndOf(w) == EndOf(v) }

  lemma AskKeepsEnds(v: View, source: Source, r: Request, a: Answers)
    ensures SameEnds(v, ApplyRequest(v, source, r, a).view)
  {
    AskShape(v, source, r, a);
  }

  lemma SameEndsKeep(s: State, t: State)
    requires OutputInvariant(s) && EndInvariant(s.v) && SameEnds(s.v, t.v)
    requires t.output == s.output && t.writer == s.writer && t.offered == s.offered && t.outputs == s.outputs
    ensures OutputInvariant(t) && EndInvariant(t.v)
  {
  }

  lemma SentKeepsGrants(v: View, source: Source, r: Request, w: View)
    requires GrantInvariant(v) && SendShape(v, source, r, w)
    ensures GrantInvariant(w)
  {
    CountMore(v.toHost, r, Complete);
    CountMore(v.toHost, r, AcknowledgeTerminated);
  }

  lemma AskKeepsGrants(v: View, source: Source, r: Request, a: Answers)
    requires GrantInvariant(v)
    ensures GrantInvariant(ApplyRequest(v, source, r, a).view)
  {
    var w := ApplyRequest(v, source, r, a).view;
    AskShape(v, source, r, a);
    if SendShape(v, source, r, w) { SentKeepsGrants(v, source, r, w); }
  }

  // ----- readiness

  lemma ResizeSentPasses(v: View)
    requires v.resize.Some? ==> v.resize.value.kind == Resize
    ensures Passed(ResizeSent(v)) == Passed(v)
  {
    if v.resize.Some? { InputMore(v.toHost, v.resize.value); }
  }

  lemma InputSentPasses(v: View)
    ensures Passed(InputSent(v)) == Passed(v)
  {
    if v.input.Some? { InputMore(v.toHost, InputRequest(v.input.value)); }
  }

  /** Readiness moves the buffer to the host without changing what passes. */
  lemma ReadyPasses(v: View, a: Answers)
    requires v.resize.Some? ==> v.resize.value.kind == Resize
    ensures Passed(OnReady(v, a).view) == Passed(v)
  {
    ResizeSentPasses(v);
    InputSentPasses(ToPublic(ResizeSent(v).(ready := true), PublicReady));
  }

  /** Readiness that is refused outright changes nothing. */
  predicate ReadyFlags(v: View, o: Outcome) {
    && o.view.terminating == v.terminating && o.view.terminated == v.terminated
    && (!o.view.ready || v.ready || v.terminated ==> o.view == v)
    && (v.ready ==> !o.ok)
  }

  predicate ReadyBuffers(v: View, o: Outcome) {
    && (o.ok ==> o.view.ready && o.view.input.None? && o.view.resize.None?)
    && |Buffered(o.view)| <= |Buffered(v)|
  }

  lemma ReadyHasFlags(v: View, a: Answers)
    ensures ReadyFlags(v, OnReady(v, a))
  {
  }

  lemma ReadyHasBuffers(v: View, a: Answers)
    ensures ReadyBuffers(v, OnReady(v, a))
  {
  }

  /** The requests sent by an announced readiness follow the resize. */
  lemma ReadySends(v: View, a: Answers)
    ensures var w := OnReady(v, a).view;
            || w == v
            || w.toHost == ResizeSent(v).toHost
            || (v.input.Some? && w.toHost == ResizeSent(v).toHost + [InputRequest(v.input.value)])
  {
  }

  lemma ReadySendsTheResizeFirst(v: View, a: Answers)
    requires v.toHost == [] && !v.ready && v.resize.Some?
    ensures OnReady(v, a).view.ready ==>
              OnReady(v, a).view.toHost != [] && OnReady(v, a).view.toHost[0] == v.resize.value
  {
    ReadySends(v, a);
    assert ResizeSent(v).toHost == [v.resize.value];
  }

  lemma ReadyKeepsInput(s: State, a: Answers)
    requires InputInvariant(s) && ResizeInvariant(s) && s.stopped.None?
    requires s.v.resize.Some? ==> s.v.resize.value.kind == Resize
    ensures InputInvariant(OnEvent(s, Ready, a)) && ResizeInvariant(OnEvent(s, Ready, a))
  {
    var o := OnReady(s.v, a);
    ReadyPasses(s.v, a);
    ReadyHasFlags(s.v, a);
    ReadyHasBuffers(s.v, a);
    if !s.v.ready && !s.v.terminated && s.v.resize.Some? { ReadySendsTheResizeFirst(s.v, a); }
    ReadyKeepsByShape(s, o);
  }

  lemma ReadyKeepsByShape(s: State, o: Outcome)
    requires InputInvariant(s) && ResizeInvariant(s) && s.stopped.None?
    requires ReadyFlags(s.v, o) && ReadyBuffers(s.v, o) && Passed(o.view) == Passed(s.v)
    requires o.view.ready && !s.v.ready && !s.v.terminated && s.v.resize.Some? ==>
               o.view.toHost != [] && o.view.toHost[0] == s.v.resize.value
    ensures var t := if o.ok then s.(v := o.view) else Stop(s.(v := o.view), false);
            InputInvariant(t) && ResizeInvariant(t)
  {
  }

  lemma ResizeSentKeepsGrants(v: View)
    requires GrantInvariant(v)
    ensures GrantInvariant(ResizeSent(v))
  {
    if v.resize.Some? {
      CountMore(v.toHost, v.resize.value, Complete);
      CountMore(v.toHost, v.resize.value, AcknowledgeTerminated);
    }
  }

  lemma InputSentKeepsGrants(v: View)
    requires GrantInvariant(v)
    ensures GrantInvariant(InputSent(v))
  {
    if v.input.Some? {
      CountMore(v.toHost, InputRequest(v.input.value), Complete);
      CountMore(v.toHost, InputRequest(v.input.value), AcknowledgeTerminated);
    }
  }

  lemma ReadyKeepsGrants(v: View, a: Answers)
    requires GrantInvariant(v)
    ensures GrantInvariant(OnReady(v, a).view)
  {
    ResizeSentKeepsGrants(v);
    InputSentKeepsGrants(ToPublic(ResizeSent(v).(ready := true), PublicReady));
  }

  // ----- the other host events

  /** The host side is untouched; the session only moves towards its end. */
  predicate HostSideKept(v: View, w: View) {
    && w.toHost == v.toHost && w.input == v.input && w.resize == v.resize && w.ready == v.ready
    && w.operations == v.operations && w.completeSent == v.completeSent && w.acknowledged == v.acknowledged
    && (v.terminating ==> w.terminating) && (v.terminated ==> w.terminated) && (v.finalized ==> w.finalized)
  }

  lemma EventShape(v: View, e: HostEvent, a: Answers)
    requires !e.Ready?
    ensures HostSideKept(v, ApplyHostEvent(v, e, a).view)
  {
  }

  lemma KeptKeepsInput(s: State, t: State)
    requires InputInvariant(s) && ResizeInvariant(s) && HostSideKept(s.v, t.v)
    requires t.received == s.received && t.early == s.early && (s.stopped.Some? ==> t.stopped.Some?)
    ensures InputInvariant(t) && ResizeInvariant(t)
  {
    assert Passed(t.v) == Passed(s.v);
  }

  lemma EventKeepsInput(s: State, e: HostEvent, a: Answers)
    requires InputInvariant(s) && ResizeInvariant(s) && s.stopped.None? && !e.Ready?
    ensures InputInvariant(OnEvent(s, e, a)) && ResizeInvariant(OnEvent(s, e, a))
  {
    EventShape(s.v, e, a);
    KeptKeepsInput(s, OnEvent(s, e, a));
  }

  lemma EventKeepsGrants(v: View, e: HostEvent, a: Answers)
    requires GrantInvariant(v)
    ensures GrantInvariant(ApplyHostEvent(v, e, a).view)
  {
    if e.Ready? { ReadyKeepsGrants(v, a); } else { EventShape(v, e, a); }
  }

  // ----- the end

  function Newest(v: View): PublicEvent {
    if v.toPublic == [] then PublicReady else v.toPublic[|v.toPublic| - 1]
  }

  /** The terminal's end and the last public event come at most once each. */
  predicate EndMoves(v: View, w: View) {
    && ((w.toTerminal == v.toTerminal && w.ended == v.ended && w.finalized == v.finalized)
        || (!v.ended && w.toTerminal == v.toTerminal + [End] && w.ended && w.finalized))
    && ((w.toPublic == v.toPublic && w.terminated == v.terminated)
        || (!v.terminated && w.toPublic == v.toPublic + [Newest(w)]
            && (w.terminated <==> Newest(w) == PublicTerminated) && (w.terminated ==> w.ended)))
  }

  lemma ResizeSentKeepsEnds(v: View, w: View)
    requires w == ResizeSent(v)
    ensures SameEnds(v, w)
  {
  }

  lemma InputSentKeepsEnds(v: View, w: View)
    requires w == InputSent(v)
    ensures SameEnds(v, w)
  {
  }

  /** A refusal changes nothing; otherwise the announcement is the only public event. */
  predicate Announces(v: View, w: View) {
    SameEnds(v, w) || (!v.terminated && SameEnds(ToPublic(v, PublicReady), w))
  }

  lemma ReadyAnnounces(v: View, a: Answers)
    ensures Announces(v, OnReady(v, a).view)
  {
    ResizeSentKeepsEnds(v, ResizeSent(v));
    var announced := ToPublic(ResizeSent(v).(ready := true), PublicReady);
    InputSentKeepsEnds(announced, InputSent(announced));
  }

  lemma AnnouncementMoves(v: View, w: View)
    requires Announces(v, w)
    ensures EndMoves(v, w)
  {
    assert SameEnds(v, w) || Newest(w) == PublicReady;
  }

  lemma ReadyEndMoves(v: View, a: Answers)
    ensures EndMoves(v, OnReady(v, a).view)
  {
    ReadyAnnounces(v, a);
    AnnouncementMoves(v, OnReady(v, a).view);
  }

  lemma EventEndMoves(v: View, e: HostEvent, a: Answers)
    requires v.finalized == v.ended && !e.Ready?
    ensures EndMoves(v, ApplyHostEvent(v, e, a).view)
  {
  }

  lemma EndMovesKeep(v: View, w: View)
    requires EndInvariant(v) && EndMoves(v, w)
    ensures EndInvariant(w)
  {
  }

  lemma EventKeepsEnd(v: View, e: HostEvent, a: Answers)
    requires EndInvariant(v)
    ensures EndInvariant(ApplyHostEvent(v, e, a).view) && EndMoves(v, ApplyHostEvent(v, e, a).view)
  {
    if e.Ready? { ReadyEndMoves(v, a); } else { EventEndMoves(v, e, a); }
    EndMovesKeep(v, ApplyHostEvent(v, e, a).view);
  }

  lemma EventKeepsOutput(s: State, e: HostEvent, a: Answers)
    requires OutputInvariant(s) && EndInvariant(s.v) && s.output.None?
    ensures OutputInvariant(OnEvent(s, e, a))
  {
    ChunkMore(s.v.toTerminal, End);
    EventKeepsEnd(s.v, e, a);
  }

  // ----- the writer and the rest keep it

  lemma WriteKeepsOutput(s: State, ok: bool)
    requires OutputInvariant(s) && EndInvariant(s.v) && OnWrite(s, ok).Some?
    ensures OutputInvariant(OnWrite(s, ok).value) && EndInvariant(OnWrite(s, ok).value.v)
  {
    ChunkMore(s.v.toTerminal, Chunk(s.writer.chunk));
  }

  lemma WriteKeepsHostSide(s: State, ok: bool)
    requires HostSide(s) && OnWrite(s, ok).Some?
    ensures HostSide(OnWrite(s, ok).value)
  {
    KeptKeepsInput(s, OnWrite(s, ok).value);
  }

  lemma OtherKeepsInvariant(s: State, a: Action)
    requires Invariant(s) && Next(s, a).Some? && !a.Asks? && !a.Happens? && !a.WriterWrites? && !a.Complain?
    ensures Invariant(Next(s, a).value)
  {
  }

  lemma ComplaintKeepsInvariant(s: State, ok: bool)
    requires Invariant(s) && OnComplain(s, ok).Some?
    ensures Invariant(OnComplain(s, ok).value)
  {
    KeptKeepsInput(s, OnComplain(s, ok).value);
  }

  lemma AskKeepsHostSide(s: State, source: Source, r: Request, a: Answers)
    requires HostSide(s) && s.stopped.None?
    ensures HostSide(OnAsk(s, source, r, a))
  {
    AskKeepsInput(s, source, r, a);
    AskKeepsGrants(s.v, source, r, a);
  }

  lemma AskKeepsTerminalSide(s: State, source: Source, r: Request, a: Answers)
    requires TerminalSide(s)
    ensures TerminalSide(OnAsk(s, source, r, a))
  {
    AskKeepsEnds(s.v, source, r, a);
    SameEndsKeep(s, OnAsk(s, source, r, a));
  }

  lemma EventKeepsHostSide(s: State, e: HostEvent, a: Answers)
    requires HostSide(s) && s.stopped.None?
    ensures HostSide(OnEvent(s, e, a))
  {
    if e.Ready? { ReadyKeepsInput(s, a); } else { EventKeepsInput(s, e, a); }
    EventKeepsGrants(s.v, e, a);
  }

  lemma EventKeepsTerminalSide(s: State, e: HostEvent, a: Answers)
    requires TerminalSide(s) && s.output.None?
    ensures TerminalSide(OnEvent(s, e, a))
  {
    EventKeepsOutput(s, e, a);
    EventKeepsEnd(s.v, e, a);
  }

  lemma StepKeepsVerdict(s: State, a: Action)
    requires Next(s, a).Some? && Verdict(s)
    ensures Verdict(Next(s, a).value)
  {
  }

  lemma StepKeepsHostSide(s: State, a: Action)
    requires Invariant(s) && Next(s, a).Some?
    ensures HostSide(Next(s, a).value)
  {
    if a.WriterWrites? { WriteKeepsHostSide(s, a.ok); }
    else if a.Asks? { AskKeepsHostSide(s, a.source, a.request, a.answers); }
    else if a.Happens? { EventKeepsHostSide(s, a.event, a.answers); }
    else if a.Complain? { ComplaintKeepsInvariant(s, a.ok); }
    else { OtherKeepsInvariant(s, a); }
  }

  lemma StepKeepsTerminalSide(s: State, a: Action)
    requires Invariant(s) && Next(s, a).Some?
    ensures TerminalSide(Next(s, a).value)
  {
    if a.WriterWrites? { WriteKeepsOutput(s, a.ok); }
    else if a.Asks? { AskKeepsTerminalSide(s, a.source, a.request, a.answers); }
    else if a.Happens? { EventKeepsTerminalSide(s, a.event, a.answers); }
    else if a.Complain? { ComplaintKeepsInvariant(s, a.ok); }
    else { OtherKeepsInvariant(s, a); }
  }

  // ----- over whole runs

  lemma BlankInvariant(operations: set<Operation>)
    ensures Invariant(Blank(operations))
  {
  }

  lemma ReplayKeepsInvariant(s: State, r: Request)
    requires Invariant(s)
    ensures Invariant(Replay(s, r))
  {
    if s.stopped.None? {
      AskKeepsHostSide(s, Terminal, r, Answers(false, false, false, false));
      AskKeepsTerminalSide(s, Terminal, r, Answers(false, false, false, false));
    }
  }

  lemma StartedInvariant(operations: set<Operation>, p: Setup)
    ensures Invariant(Started(operations, p))
  {
    var blank := Blank(operations);
    BlankInvariant(operations);
    if p.resize.Some? { ReplayKeepsInvariant(blank, p.resize.value); }
    if p.input.Some? {
      ReplayKeepsInvariant(if p.resize.Some? then Replay(blank, p.resize.value) else blank, InputRequest(p.input.value));
    }
  }

  lemma StepKeepsInvariant(s: State, a: Action, t: State)
    requires Invariant(s) && Moves(s, a, t)
    ensures Invariant(t)
  {
    StepKeepsHostSide(s, a);
    StepKeepsTerminalSide(s, a);
    StepKeepsVerdict(s, a);
  }

  lemma {:induction false} EveryRunKeepsInvariant(
    operations: set<Operation>, setup: seq<Request>, trace: seq<State>, actions: seq<Action>, i: nat)
    requires Run(operations, setup, trace, actions) && i < |trace|
    ensures Invariant(trace[i])
  {
    if i == 0 {
      StartedInvariant(operations, AddAll(Setup(None, None), setup).value);
    } else {
      EveryRunKeepsInvariant(operations, setup, trace, actions, i - 1);
      assert Moves(trace[i - 1], actions[i - 1], trace[i - 1 + 1]);
      StepKeepsInvariant(trace[i - 1], actions[i - 1], trace[i]);
    }
  }

  /** All terminal input of the loop's requests, in order. */
  function Typed(actions: seq<Action>): seq<byte> {
    if actions == [] then []
    else
      var a := actions[|actions| - 1];
      Typed(actions[..|actions| - 1])
      + if a.Asks? && a.source == Terminal && a.request.kind == Input then Bytes(a.request) else []
  }

  /** All host output, in order. */
  function HostOutput(actions: seq<Action>): seq<byte> {
    if actions == [] then []
    else
      var a := actions[|actions| - 1];
      HostOutput(actions[..|actions| - 1])
      + if a.Happens? && a.event.Output? && a.event.bytes.Some? then a.event.bytes.value else []
  }

  lemma StepHistory(s: State, a: Action, t: State)
    requires Moves(s, a, t) && t.stopped.None?
    ensures s.stopped.None?
    ensures t.received == s.received + Typed([a]) && t.outputs == s.outputs + HostOutput([a])
  {
  }

  lemma StartedHistory(operations: set<Operation>, p: Setup)
    requires Started(operations, p).stopped.None? && (p.resize.Some? ==> p.resize.value.kind == Resize)
    ensures Started(operations, p).received == (if p.input.Some? then p.input.value else [])
    ensures Started(operations, p).outputs == []
  {
    if p.input.Some? { assert [] + p.input.value == p.input.value; }
  }

  lemma TypedMore(actions: seq<Action>, i: nat)
    requires i < |actions|
    ensures Typed(actions[..i + 1]) == Typed(actions[..i]) + Typed([actions[i]])
    ensures HostOutput(actions[..i + 1]) == HostOutput(actions[..i]) + HostOutput([actions[i]])
  {
    assert actions[..i + 1][..i] == actions[..i];
  }

  /** What has been received and put out is exactly what came in. */
  predicate Accounted(setup: seq<Request>, s: State, actions: seq<Action>) {
    s.received == InputOf(setup) + Typed(actions) && s.outputs == HostOutput(actions)
  }

  lemma AccountedMore(setup: seq<Request>, s: State, t: State, actions: seq<Action>, i: nat)
    requires i < |actions| && Moves(s, actions[i], t) && t.stopped.None?
    requires Accounted(setup, s, actions[..i])
    ensures Accounted(setup, t, actions[..i + 1])
  {
    StepHistory(s, actions[i], t);
    TypedMore(actions, i);
    Regroup(InputOf(setup), Typed(actions[..i]), Typed([actions[i]]));
  }

  lemma StepWasLive(s: State, a: Action, t: State)
    requires Moves(s, a, t) && t.stopped.None?
    ensures s.stopped.None?
  {
  }

  lemma {:induction false} History(
    operations: set<Operation>, setup: seq<Request>, trace: seq<State>, actions: seq<Action>, i: nat)
    requires Run(operations, setup, trace, actions) && i < |trace| && trace[i].stopped.None?
    ensures Accounted(setup, trace[i], actions[..i])
  {
    if i == 0 {
      var p := AddAll(Setup(None, None), setup).value;
      SetupKeepsEverything(setup, p);
      StartedHistory(operations, p);
      NothingMore(InputOf(setup));
    } else {
      assert Moves(trace[i - 1], actions[i - 1], trace[i - 1 + 1]);
      StepWasLive(trace[i - 1], actions[i - 1], trace[i]);
      History(operations, setup, trace, actions, i - 1);
      AccountedMore(setup, trace[i - 1], trace[i], actions, i - 1);
    }
  }

  lemma Regroup(a: seq<byte>, b: seq<byte>, c: seq<byte>)
    ensures (a + b) + c == a + (b + c)
  {
  }

  /** Until termination, what the host has been sent followed by what is still buffered is
      exactly what the terminal has sent; the buffer always fits one frame. */
  lemma InputIsConserved(
    operations: set<Operation>, setup: seq<Request>, trace: seq<State>, actions: seq<Action>, i: nat)
    requires Run(operations, setup, trace, actions) && i < |trace| && Live(trace[i])
    ensures InputOf(trace[i].v.toHost) + Buffered(trace[i].v) == InputOf(setup) + Typed(actions[..i])
    ensures |Buffered(trace[i].v)| <= MAX_FRAME_PAYLOAD
    ensures trace[i].v.ready ==> InputOf(trace[i].v.toHost) == InputOf(setup) + Typed(actions[..i])
  {
    EveryRunKeepsInvariant(operations, setup, trace, actions, i);
    History(operations, setup, trace, actions, i);
    NothingMore(InputOf(trace[i].v.toHost));
  }

  lemma NothingMore(a: seq<byte>)
    ensures a + [] == a
  {
  }

  /** All requests of the terminal, in order. */
  function FromTerminal(actions: seq<Action>): seq<Request> {
    if actions == [] then []
    else
      var a := actions[|actions| - 1];
      FromTerminal(actions[..|actions| - 1]) + if a.Asks? && a.source == Terminal then [a.request] else []
  }

  lemma FromTerminalMore(actions: seq<Action>, i: nat)
    requires i < |actions|
    ensures FromTerminal(actions[..i + 1]) == FromTerminal(actions[..i]) + FromTerminal([actions[i]])
  {
    assert actions[..i + 1][..i] == actions[..i];
  }

  lemma NewestResizeMore(before: seq<Request>, more: seq<Request>)
    requires |more| <= 1
    ensures NewestResize(before + more)
         == if more != [] && more[0].kind == Resize then Some(more[0]) else NewestResize(before)
  {
    if more == [] { assert before + more == before; } else { assert (before + more)[..|before|] == before; }
  }

  lemma StartedResize(operations: set<Operation>, p: Setup)
    requires Started(operations, p).stopped.None? && (p.resize.Some? ==> p.resize.value.kind == Resize)
    ensures Started(operations, p).early == p.resize
  {
  }

  /** Nothing is taken back. */
  predicate Later(v: View, w: View) {
    (v.ready ==> w.ready) && (v.terminating ==> w.terminating) && (v.terminated ==> w.terminated)
  }

  lemma AskIsLater(v: View, source: Source, r: Request, a: Answers)
    ensures var o := ApplyRequest(v, source, r, a);
            Later(v, o.view) && o.view.ready == v.ready && (v.ready ==> o.view.resize == v.resize)
  {
  }

  lemma AskResizes(v: View, source: Source, r: Request, a: Answers)
    requires !v.ready && !v.terminating && !v.terminated
    ensures var o := ApplyRequest(v, source, r, a);
            o.ok ==> o.view.resize == if source == Terminal && r.kind == Resize then Some(r) else v.resize
  {
  }

  lemma EventIsLater(v: View, e: HostEvent, a: Answers)
    ensures var o := ApplyHostEvent(v, e, a);
            && Later(v, o.view) && (!o.view.ready ==> o.view.resize == v.resize)
            && (!v.ready && o.view.ready ==> !v.terminating && !v.terminated)
  {
  }

  predicate IsEvent(a: Action) { a.Happens? && !a.event.Output? }

  /** The flags and the buffered resize are as they were. */
  predicate LeavesView(s: State, t: State) {
    && t.v.ready == s.v.ready && t.v.terminating == s.v.terminating && t.v.terminated == s.v.terminated
    && t.early == s.early && (s.stopped.Some? ==> t.stopped.Some?)
  }

  predicate OfWriter(a: Action) { a.Offer? || a.WriterWrites? || a.WriterReports? }

  lemma WriterLeavesView(s: State, a: Action, t: State)
    requires Moves(s, a, t) && OfWriter(a)
    ensures LeavesView(s, t)
  {
  }

  lemma EndLeavesView(s: State, a: Action, t: State)
    requires Moves(s, a, t) && !a.Asks? && !IsEvent(a) && !OfWriter(a)
    ensures LeavesView(s, t)
  {
  }

  lemma OthersLeaveView(s: State, a: Action, t: State)
    requires Moves(s, a, t) && !a.Asks? && !IsEvent(a)
    ensures LeavesView(s, t)
  {
    if OfWriter(a) { WriterLeavesView(s, a, t); } else { EndLeavesView(s, a, t); }
  }

  lemma AskStep(s: State, a: Action, t: State)
    requires Moves(s, a, t) && a.Asks?
    ensures s.stopped.None? && Later(s.v, t.v) && t.v.ready == s.v.ready
    ensures t.early == if s.v.ready then s.early else t.v.resize
    ensures !s.v.ready && Live(t) ==>
              t.v.resize == if a.source == Terminal && a.request.kind == Resize then Some(a.request) else s.v.resize
  {
    AskIsLater(s.v, a.source, a.request, a.answers);
    if !s.v.ready && Live(t) { AskResizes(s.v, a.source, a.request, a.answers); }
  }

  lemma EventStep(s: State, a: Action, t: State)
    requires Moves(s, a, t) && IsEvent(a)
    ensures s.stopped.None? && Later(s.v, t.v) && t.early == s.early
    ensures !s.v.ready && t.v.ready ==> Live(s)
  {
    EventIsLater(s.v, a.event, a.answers);
  }

  /** Before readiness only an accepted resize of the terminal changes what is buffered. */
  lemma StepResize(s: State, a: Action, t: State)
    requires Moves(s, a, t) && Live(t) && !t.v.ready && s.early == s.v.resize
    ensures Live(s) && !s.v.ready
    ensures t.early == if a.Asks? && a.source == Terminal && a.request.kind == Resize then Some(a.request) else s.early
  {
    if a.Asks? { AskStep(s, a, t); } else if IsEvent(a) { EventStep(s, a, t); } else { OthersLeaveView(s, a, t); }
  }

  lemma NewestAfter(setup: seq<Request>, actions: seq<Action>, i: nat)
    requires i < |actions|
    ensures var a := actions[i];
            NewestResize(setup + FromTerminal(actions[..i + 1]))
            == if a.Asks? && a.source == Terminal && a.request.kind == Resize then Some(a.request)
               else NewestResize(setup + FromTerminal(actions[..i]))
  {
    var before, more := FromTerminal(actions[..i]), FromTerminal([actions[i]]);
    FromTerminalMore(actions, i);
    NewestResizeMore(setup + before, more);
    assert setup + (before + more) == (setup + before) + more;
  }

  /** Before readiness the buffered resize is the newest the terminal has sent at all. */
  lemma {:induction false} EarlyIsNewest(
    operations: set<Operation>, setup: seq<Request>, trace: seq<State>, actions: seq<Action>, i: nat)
    requires Run(operations, setup, trace, actions) && i < |trace| && Live(trace[i]) && !trace[i].v.ready
    ensures trace[i].early == NewestResize(setup + FromTerminal(actions[..i]))
  {
    if i == 0 {
      var p := AddAll(Setup(None, None), setup).value;
      SetupKeepsEverything(setup, p);
      StartedResize(operations, p);
      assert setup + [] == setup;
    } else {
      EveryRunKeepsInvariant(operations, setup, trace, actions, i - 1);
      assert Moves(trace[i - 1], actions[i - 1], trace[i - 1 + 1]);
      EarlyStep(trace[i - 1], actions[i - 1], trace[i]);
      EarlyIsNewest(operations, setup, trace, actions, i - 1);
      NewestAfter(setup, actions, i - 1);
    }
  }

  lemma EarlyStep(s: State, a: Action, t: State)
    requires Invariant(s) && Moves(s, a, t) && Live(t) && !t.v.ready
    ensures Live(s) && !s.v.ready
    ensures t.early == if a.Asks? && a.source == Terminal && a.request.kind == Resize then Some(a.request) else s.early
  {
    StepWasUnready(s, a, t);
    StepResize(s, a, t);
  }

  lemma StepWasUnready(s: State, a: Action, t: State)
    requires Moves(s, a, t) && !t.v.ready
    ensures !s.v.ready
  {
    if s.v.ready { StepKeepsEarly(s, a, t); }
  }

  lemma StepKeepsEarly(s: State, a: Action, t: State)
    requires Moves(s, a, t) && s.v.ready
    ensures t.v.ready && t.early == s.early
  {
    if a.Asks? { AskStep(s, a, t); } else if IsEvent(a) { EventStep(s, a, t); } else { OthersLeaveView(s, a, t); }
  }

  lemma BecomesReady(s: State, a: Action, t: State)
    requires Moves(s, a, t) && !s.v.ready && t.v.ready
    ensures Live(s) && t.early == s.early
  {
    if a.Asks? { AskStep(s, a, t); } else if IsEvent(a) { EventStep(s, a, t); } else { OthersLeaveView(s, a, t); }
  }

  lemma StartedUnready(operations: set<Operation>, p: Setup)
    ensures !Started(operations, p).v.ready
  {
  }

  /** The one step at which a ready broker became ready. */
  lemma {:induction false} ReadyStep(
    operations: set<Operation>, setup: seq<Request>, trace: seq<State>, actions: seq<Action>, i: nat) returns (p: nat)
    requires Run(operations, setup, trace, actions) && i < |trace| && trace[i].v.ready
    ensures p < i && !trace[p].v.ready && (forall k :: p < k <= i ==> trace[k].v.ready)
    ensures trace[i].early == trace[p].early
  {
    if i == 0 {
      StartedUnready(operations, AddAll(Setup(None, None), setup).value);
      assert false;
    } else {
      assert Moves(trace[i - 1], actions[i - 1], trace[i - 1 + 1]);
      if trace[i - 1].v.ready {
        StepKeepsEarly(trace[i - 1], actions[i - 1], trace[i]);
        p := ReadyStep(operations, setup, trace, actions, i - 1);
      } else {
        p := i - 1;
        BecomesReady(trace[p], actions[p], trace[i]);
      }
    }
  }

  /** Until the session is ready the host gets no input; and of all the terminal had sent by
      then, in the setup buffer and to the loop, the newest resize reaches the host first. */
  lemma EarlyResizeGoesFirst(
    operations: set<Operation>, setup: seq<Request>, trace: seq<State>, actions: seq<Action>, i: nat) returns (p: nat)
    requires Run(operations, setup, trace, actions) && i < |trace|
    ensures !trace[i].v.ready ==> InputOf(trace[i].v.toHost) == []
    ensures trace[i].v.ready ==> p < i && !trace[p].v.ready && forall k :: p < k <= i ==> trace[k].v.ready
    ensures trace[i].v.ready ==>
              var newest := NewestResize(setup + FromTerminal(actions[..p]));
              newest.Some? ==> trace[i].v.toHost != [] && trace[i].v.toHost[0] == newest.value
  {
    EveryRunKeepsInvariant(operations, setup, trace, actions, i);
    p := 0;
    if trace[i].v.ready {
      p := ReadyStep(operations, setup, trace, actions, i);
      assert Moves(trace[p], actions[p], trace[p + 1]);
      BecomesReady(trace[p], actions[p], trace[p + 1]);
      EarlyIsNewest(operations, setup, trace, actions, p);
    }
  }

  /** When the terminal has been told the end, it has been told once, last, and after all the
      host's output in order. */
  lemma AllOutputBeforeTheEnd(
    operations: set<Operation>, setup: seq<Request>, trace: seq<State>, actions: seq<Action>, i: nat)
    requires Run(operations, setup, trace, actions) && i < |trace| && trace[i].stopped.None?
    ensures ChunkBytes(trace[i].v.toTerminal) + Undelivered(trace[i]) == HostOutput(actions[..i])
    ensures trace[i].v.ended ==>
              var w := trace[i].v.toTerminal;
              && w != [] && w[|w| - 1] == End && (forall k :: 0 <= k < |w| - 1 ==> w[k].Chunk?)
              && ChunkBytes(w) == HostOutput(actions[..i])
    ensures trace[i].v.terminated ==> trace[i].v.ended
  {
    EveryRunKeepsInvariant(operations, setup, trace, actions, i);
    History(operations, setup, trace, actions, i);
    NothingMore(ChunkBytes(trace[i].v.toTerminal));
  }

  /** No more host events can be accepted: one was the last, or the broker has returned. */
  predicate Closing(s: State) { s.v.terminated || s.stopped.Some? }

  lemma TerminatedCloses(s: State, e: HostEvent, a: Answers, t: State)
    requires Moves(s, Happens(e, a), t) && (e.Terminated? || Closing(s))
    ensures Closing(t) && (Closing(s) ==> t == Stop(s, false))
  {
  }

  lemma StaysClosing(s: State, a: Action, t: State)
    requires Moves(s, a, t) && Closing(s)
    ensures Closing(t)
  {
    if a.Asks? { AskStep(s, a, t); } else if IsEvent(a) { EventStep(s, a, t); } else { OthersLeaveView(s, a, t); }
  }

  /** `terminated` is the last host event that can be accepted: any later one stops the
      broker with an error and changes nothing else. */
  lemma TerminatedIsTheLastEvent(
    operations: set<Operation>, setup: seq<Request>, trace: seq<State>, actions: seq<Action>, i: nat, j: nat)
    requires Run(operations, setup, trace, actions) && i < j < |actions|
    requires actions[i].Happens? && actions[i].event.Terminated? && actions[j].Happens?
    ensures trace[j + 1] == Stop(trace[j], false)
  {
    assert Moves(trace[i], actions[i], trace[i + 1]);
    TerminatedCloses(trace[i], actions[i].event, actions[i].answers, trace[i + 1]);
    ClosingAlong(operations, setup, trace, actions, i + 1, j);
    assert Moves(trace[j], actions[j], trace[j + 1]);
    TerminatedCloses(trace[j], actions[j].event, actions[j].answers, trace[j + 1]);
  }

  lemma {:induction false} ClosingAlong(
    operations: set<Operation>, setup: seq<Request>, trace: seq<State>, actions: seq<Action>, i: nat, j: nat)
    requires Run(operations, setup, trace, actions) && i <= j < |trace| && Closing(trace[i])
    ensures Closing(trace[j])
    decreases j
  {
    if i < j {
      ClosingAlong(operations, setup, trace, actions, i, j - 1);
      assert Moves(trace[j - 1], actions[j - 1], trace[j - 1 + 1]);
      StaysClosing(trace[j - 1], actions[j - 1], trace[j]);
    }
  }

  lemma SuccessSteps(s: State, a: Action, t: State)
    requires Moves(s, a, t) && t.stopped == Some(true)
    ensures s.stopped.None? || s.stopped == Some(true)
    ensures t.outputs == s.outputs && HostOutput([a]) == []
  {
  }

  lemma StartedWithoutSuccess(operations: set<Operation>, p: Setup)
    ensures Started(operations, p).stopped != Some(true)
  {
  }

  /** A broker that returned success had accepted all output of the host. */
  lemma {:induction false} SuccessHistory(
    operations: set<Operation>, setup: seq<Request>, trace: seq<State>, actions: seq<Action>, i: nat)
    requires Run(operations, setup, trace, actions) && i < |trace| && trace[i].stopped == Some(true)
    ensures trace[i].outputs == HostOutput(actions[..i])
  {
    if i == 0 {
      StartedWithoutSuccess(operations, AddAll(Setup(None, None), setup).value);
    } else {
      assert Moves(trace[i - 1], actions[i - 1], trace[i - 1 + 1]);
      SuccessSteps(trace[i - 1], actions[i - 1], trace[i]);
      if trace[i - 1].stopped.None? { History(operations, setup, trace, actions, i - 1); }
      else { SuccessHistory(operations, setup, trace, actions, i - 1); }
      TypedMore(actions, i - 1);
      NothingMore(HostOutput(actions[..i - 1]));
    }
  }

  /** The broker only returns success after termination was announced and acknowledged, with
      all output delivered and the end told. */
  lemma SuccessMeansAcknowledged(
    operations: set<Operation>, setup: seq<Request>, trace: seq<State>, actions: seq<Action>, i: nat)
    requires Run(operations, setup, trace, actions) && i < |trace| && trace[i].stopped == Some(true)
    ensures var v := trace[i].v;
            && v.terminated && v.ended && Count(v.toHost, AcknowledgeTerminated) == 1
            && ChunkBytes(v.toTerminal) == HostOutput(actions[..i])
  {
    SuccessHistory(operations, setup, trace, actions, i);
    EveryRunKeepsInvariant(operations, setup, trace, actions, i);
    NothingMore(ChunkBytes(trace[i].v.toTerminal));
  }

  /** Every request on the host channel was granted, or acknowledges the end; completion and
      acknowledgement are sent at most once. */
  lemma OnlyGrantedRequestsAreSent(
    operations: set<Operation>, setup: seq<Request>, trace: seq<State>, actions: seq<Action>, i: nat)
    requires Run(operations, setup, trace, actions) && i < |trace|
    ensures GrantInvariant(trace[i].v)
    ensures Count(trace[i].v.toHost, Complete) <= 1 && Count(trace[i].v.toHost, AcknowledgeTerminated) <= 1
  {
    EveryRunKeepsInvariant(operations, setup, trace, actions, i);
  }
}
