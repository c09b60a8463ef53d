/**
 The frame codec for controller requests (internal/controlledsession/protocol.go), over a
 byte stream whose reads and writes may be short.
 */
module Codec {
  import opened Common
  import opened Requests

  const HEADER_SIZE: nat := 10
  const MAGIC: seq<byte> := [0x52, 0x50, 0x53, 0x4E]  // "RPSN"
  const VERSION: byte := 1

  const INPUT: byte := 0x01
  const RESIZE: byte := 0x02
  const TERMINATE: byte := 0x03
  const COMPLETE: byte := 0x04
  const ACKNOWLEDGE: byte := 0x05

  // ----- big-endian words

  function Big(n: uint32): seq<byte> { [n / 0x100_0000, n / 0x1_0000 % 256, n / 256 % 256, n % 256] }

  function Pair(a: int, b: int): int { a * 256 + b }
  function Word(a: int, b: int, c: int, d: int): int { Pair(Pair(Pair(a, b), c), d) }

  function Unbig(s: seq<byte>): uint32
    requires |s| == 4
  {
    Word(s[0], s[1], s[2], s[3])
  }

  lemma BigRoundTrip(n: uint32)
    ensures Unbig(Big(n)) == n
  {
    assert n == n / 256 * 256 + n % 256;
    assert n / 256 == n / 0x1_0000 * 256 + n / 256 % 256;
    assert n / 0x1_0000 == n / 0x100_0000 * 256 + n / 0x1_0000 % 256;
  }

  lemma Shift(q: nat, d: byte)
    ensures Pair(q, d) / 256 == q && Pair(q, d) % 256 == d
  {
  }

  lemma Halves(n: nat)
    ensures n / 0x1_0000 == n / 256 / 256 && n / 0x100_0000 == n / 256 / 256 / 256
  {
  }

  lemma UnbigRoundTrip(s: seq<byte>)
    requires |s| == 4
    ensures Big(Unbig(s)) == s
  {
    var ab := Pair(s[0], s[1]);
    var abc := Pair(ab, s[2]);
    Shift(s[0], s[1]);
    Shift(ab, s[2]);
    Shift(abc, s[3]);
    Halves(Unbig(s));
    assert Unbig(s) / 256 == abc;
  }

  // ----- frames

  datatype Frame = Frame(kind: byte, payload: seq<byte>)

  function Header(f: Frame): seq<byte>
    requires |f.payload| <= MAX_FRAME_PAYLOAD
  {
    MAGIC + [VERSION, f.kind] + Big(|f.payload|)
  }

  function Bytes(f: Frame): seq<byte>
    requires |f.payload| <= MAX_FRAME_PAYLOAD
  {
    Header(f) + f.payload
  }

  /** Kind and payload length of an acceptable header. */
  function ParseHeader(h: seq<byte>): Option<(byte, uint32)>
    requires |h| == HEADER_SIZE
  {
    if h[..4] != MAGIC || h[4] != VERSION || Unbig(h[6..]) > MAX_FRAME_PAYLOAD then None
    else Some((h[5], Unbig(h[6..])))
  }

  /** The first frame of a stream and what follows it. */
  function Parse(s: seq<byte>): Option<(Frame, seq<byte>)> {
    if |s| < HEADER_SIZE then None
    else
      match ParseHeader(s[..HEADER_SIZE])
      case None => None
      case Some((kind, length)) =>
        if |s| < HEADER_SIZE + length then None
        else Some((Frame(kind, s[HEADER_SIZE..HEADER_SIZE + length]), s[HEADER_SIZE + length..]))
  }

  lemma HeaderRoundTrip(f: Frame)
    requires |f.payload| <= MAX_FRAME_PAYLOAD
    ensures |Header(f)| == HEADER_SIZE && ParseHeader(Header(f)) == Some((f.kind, |f.payload|))
  {
    var h := Header(f);
    assert h[..4] == MAGIC && h[6..] == Big(|f.payload|);
    BigRoundTrip(|f.payload|);
  }

  lemma HeaderIsParsed(h: seq<byte>, f: Frame)
    requires |h| == HEADER_SIZE && ParseHeader(h) == Some((f.kind, |f.payload|))
    ensures Header(f) == h
  {
    UnbigRoundTrip(h[6..]);
    assert h == h[..4] + [h[4], h[5]] + h[6..];
  }

  lemma ParseOfBytes(f: Frame, rest: seq<byte>)
    requires |f.payload| <= MAX_FRAME_PAYLOAD
    ensures Parse(Bytes(f) + rest) == Some((f, rest))
  {
    var s := Bytes(f) + rest;
    HeaderRoundTrip(f);
    assert s[..HEADER_SIZE] == Header(f);
    assert s[HEADER_SIZE..HEADER_SIZE + |f.payload|] == f.payload;
    assert s[HEADER_SIZE + |f.payload|..] == rest;
  }

  lemma Parts(s: seq<byte>, m: nat, n: nat)
    requires m <= n <= |s|
    ensures s[..m] + s[m..n] + s[n..] == s
  {
  }

  /** Where the parts of an accepted frame come from. */
  lemma ParsedParts(s: seq<byte>, f: Frame, rest: seq<byte>)
    requires Parse(s) == Some((f, rest))
    ensures |f.payload| <= MAX_FRAME_PAYLOAD && HEADER_SIZE + |f.payload| <= |s|
    ensures ParseHeader(s[..HEADER_SIZE]) == Some((f.kind, |f.payload|))
    ensures f.payload == s[HEADER_SIZE..HEADER_SIZE + |f.payload|] && rest == s[HEADER_SIZE + |f.payload|..]
  {
  }

  /** An accepted frame is exactly the bytes it would be written as. */
  lemma BytesOfParsed(s: seq<byte>)
    requires Parse(s).Some?
    ensures |Parse(s).value.0.payload| <= MAX_FRAME_PAYLOAD && Bytes(Parse(s).value.0) + Parse(s).value.1 == s
  {
    var (f, rest) := Parse(s).value;
    ParsedParts(s, f, rest);
    HeaderIsParsed(s[..HEADER_SIZE], f);
    Parts(s, HEADER_SIZE, HEADER_SIZE + |f.payload|);
  }

  // ----- requests

  function Encode(r: Request): Frame
    requires r.Valid()
  {
    match r.kind
    case Input => Frame(INPUT, r.bytes.value)
    case Resize => Frame(RESIZE, Big(r.columns) + Big(r.rows))
    case Terminate => Frame(TERMINATE, [])
    case Complete => Frame(COMPLETE, [])
    case AcknowledgeTerminated => Frame(ACKNOWLEDGE, [])
  }

  function Decode(f: Frame): Option<Request> {
    if f.kind == INPUT then Some(Request(Input, Some(f.payload), 0, 0))
    else if f.kind == RESIZE then
      if |f.payload| != 8 then None else Some(Request(Resize, None, Unbig(f.payload[..4]), Unbig(f.payload[4..])))
    else if f.payload != [] then None
    else if f.kind == TERMINATE then Some(Request(Terminate, None, 0, 0))
    else if f.kind == COMPLETE then Some(Request(Complete, None, 0, 0))
    else if f.kind == ACKNOWLEDGE then Some(Request(AcknowledgeTerminated, None, 0, 0))
    else None
  }

  lemma DecodeOfEncoded(r: Request)
    requires r.Valid()
    ensures Decode(Encode(r)) == Some(r)
  {
    if r.kind == Resize {
      var p := Encode(r).payload;
      assert p[..4] == Big(r.columns) && p[4..] == Big(r.rows);
      BigRoundTrip(r.columns);
      BigRoundTrip(r.rows);
    }
  }

  lemma EncodeOfDecoded(f: Frame)
    requires Decode(f).Some? && Decode(f).value.Valid()
    ensures Encode(Decode(f).value) == f
  {
    if f.kind == RESIZE {
      UnbigRoundTrip(f.payload[..4]);
      UnbigRoundTrip(f.payload[4..]);
      assert f.payload == f.payload[..4] + f.payload[4..];
    }
  }

  /** What writing a request puts on the stream; `None` when it is refused. */
  function Written(r: Request): Option<seq<byte>> {
    if !r.Valid() || |Encode(r).payload| > MAX_FRAME_PAYLOAD then None else Some(Bytes(Encode(r)))
  }

  /** The first request of a stream and what follows it. */
  function Read(s: seq<byte>): Option<(Request, seq<byte>)> {
    match Parse(s)
    case None => None
    case Some((f, rest)) =>
      match Decode(f)
      case None => None
      case Some(r) => if r.Valid() then Some((r, rest)) else None
  }

  /** A length of at most four bytes, the highest first. */
  predicate IsBig(text: seq<byte>, n: uint32) { |text| == 4 && n == Number(text[0], text[1], text[2], text[3]) }

  function Number(a: int, b: int, c: int, d: int): int { a * 0x100_0000 + b * 0x1_0000 + c * 0x100 + d }

  /** The bytes of a written request, as the protocol lays them down: "RPSN", version 1, the
      byte of the kind, the length of the payload and the payload. */
  predicate IsFrame(text: seq<byte>, kind: byte, payload: seq<byte>) {
    && |text| == 10 + |payload| && |payload| <= 0x10_0000 && text[..4] == [0x52, 0x50, 0x53, 0x4E]
    && text[4] == 1 && text[5] == kind && IsBig(text[6..10], |payload|) && text[10..] == payload
  }

  predicate IsRequest(text: seq<byte>, r: Request) {
    match r.kind
    case Input => r.bytes.Some? && IsFrame(text, 1, r.bytes.value)
    case Resize => |text| == 18 && IsFrame(text, 2, text[10..]) && IsBig(text[10..14], r.columns) && IsBig(text[14..], r.rows)
    case Terminate => IsFrame(text, 3, [])
    case Complete => IsFrame(text, 4, [])
    case AcknowledgeTerminated => IsFrame(text, 5, [])
    case _ => false
  }

  lemma BigIsBig(n: uint32)
    ensures IsBig(Big(n), n)
  {
    BigRoundTrip(n);
  }

  lemma FrameBytes(f: Frame)
    requires |f.payload| <= MAX_FRAME_PAYLOAD
    ensures IsFrame(Bytes(f), f.kind, f.payload)
  {
    var text, length := Bytes(f), Big(|f.payload|);
    BigIsBig(|f.payload|);
    assert text == MAGIC + [VERSION, f.kind] + length + f.payload;
    assert text[..4] == MAGIC && text[6..10] == length && text[10..] == f.payload;
  }

  /** Every written request has exactly the bytes of its kind. */
  lemma WrittenBytes(r: Request)
    requires Written(r).Some?
    ensures IsRequest(Written(r).value, r)
  {
    FrameBytes(Encode(r));
    if r.kind == Resize {
      var text := Written(r).value;
      BigIsBig(r.columns);
      BigIsBig(r.rows);
      assert text[10..] == Big(r.columns) + Big(r.rows);
      assert text[10..14] == text[10..][..4] == Big(r.columns) && text[14..] == text[10..][4..] == Big(r.rows);
    }
  }

  /** Exactly the requests that can be written. */
  lemma WritableIff(r: Request)
    ensures Written(r).Some? <==>
              match r.kind
              case Input => r.bytes.Some? && |r.bytes.value| <= 1_048_576 && r.columns == 0 && r.rows == 0
              case Resize => r.bytes.None? && 0 < r.columns < 65_536 && 0 < r.rows < 65_536
              case OtherRequest(_) => false
              case _ => r.bytes.None? && r.columns == 0 && r.rows == 0
  {
    if r.Valid() && r.kind == Resize { assert |Encode(r).payload| == 8; }
  }

  lemma ReadOfWritten(r: Request, rest: seq<byte>)
    requires Written(r).Some?
    ensures Read(Written(r).value + rest) == Some((r, rest))
  {
    ParseOfBytes(Encode(r), rest);
    DecodeOfEncoded(r);
  }

  /** Whatever is accepted would be written as the very bytes that were read. */
  lemma WrittenOfRead(s: seq<byte>)
    requires Read(s).Some?
    ensures Written(Read(s).value.0).Some? && Written(Read(s).value.0).value + Read(s).value.1 == s
  {
    BytesOfParsed(s);
    EncodeOfDecoded(Parse(s).value.0);
  }

  // ----- whole streams

  predicate AllWritten(rs: seq<Request>) { forall i :: 0 <= i < |rs| ==> Written(rs[i]).Some? }

  function Stream(rs: seq<Request>): seq<byte>
    requires AllWritten(rs)
  {
    if rs == [] then [] else Written(rs[0]).value + Stream(rs[1..])
  }

  /** Read requests until the stream ends; `None` if something in it is not acceptable. */
  function ReadAll(s: seq<byte>): Option<seq<Request>>
    decreases |s|
  {
    if s == [] then Some([])
    else
      match Read(s)
      case None => None
      case Some((r, rest)) =>
        if |rest| >= |s| then None
        else match ReadAll(rest) case None => None case Some(rs) => Some([r] + rs)
  }

  lemma FramesAreLong(r: Request)
    requires Written(r).Some?
    ensures |Written(r).value| >= HEADER_SIZE
  {
    HeaderRoundTrip(Encode(r));
  }

  lemma {:induction false} ReadAllOfStream(rs: seq<Request>)
    requires AllWritten(rs)
    ensures ReadAll(Stream(rs)) == Some(rs)
  {
    if rs != [] {
      var rest := Stream(rs[1..]);
      FramesAreLong(rs[0]);
      ReadOfWritten(rs[0], rest);
      ReadAllOfStream(rs[1..]);
      assert rs == [rs[0]] + rs[1..];
    }
  }

  lemma {:induction false} StreamOfReadAll(s: seq<byte>)
    requires ReadAll(s).Some?
    ensures AllWritten(ReadAll(s).value) && Stream(ReadAll(s).value) == s
    decreases |s|
  {
    if s != [] {
      var (r, rest) := Read(s).value;
      WrittenOfRead(s);
      StreamOfReadAll(rest);
      var rs := [r] + ReadAll(rest).value;
      assert rs[1..] == ReadAll(rest).value;
    }
  }

  /** A stream is accepted exactly when it is the writing of some requests, and then as them. */
  lemma StreamsAreRequests(s: seq<byte>, rs: seq<Request>)
    ensures ReadAll(s) == Some(rs) <==> AllWritten(rs) && Stream(rs) == s
  {
    if ReadAll(s) == Some(rs) { StreamOfReadAll(s); }
    if AllWritten(rs) { ReadAllOfStream(rs); }
  }

  // ----- the stream with short reads and writes

  /** How one call of the underlying writer or reader goes; a failing one may have moved bytes. */
  datatype Answer = Moved(count: int) | Failed(count: int)

  /** The peer's behaviour: its answer to the `n`th call, with so many bytes wanted. */
  type Peer = (nat, nat) -> Answer

  /** Every call moves something, however little. */
  ghost predicate Progresses(peer: Peer) {
    forall n: nat, wanted: nat :: wanted > 0 ==> peer(n, wanted).Moved? && 1 <= peer(n, wanted).count <= wanted
  }

  /** From the `n`th call on, some call for that many bytes moves something or fails. */
  ghost predicate WakesAfter(peer: Peer, n: nat, wanted: nat) {
    exists k: nat :: n <= k && peer(k, wanted) != Moved(0)
  }

  /** A reader may return no bytes without an error, but not for ever. */
  ghost predicate Lively(peer: Peer) {
    forall n: nat, wanted: nat :: wanted > 0 ==> WakesAfter(peer, n, wanted)
  }

  /** ... and it never fails. */
  ghost predicate Delivers(peer: Peer) {
    Lively(peer)
    && forall n: nat, wanted: nat :: wanted > 0 ==> peer(n, wanted).Moved? && 0 <= peer(n, wanted).count <= wanted
  }

  ghost function NextWake(peer: Peer, n: nat, wanted: nat): (k: nat)
    requires Lively(peer)
    ensures wanted > 0 ==> n <= k && peer(k, wanted) != Moved(0)
  {
    if wanted == 0 then n
    else
      assert WakesAfter(peer, n, wanted);
      var k: nat :| n <= k && peer(k, wanted) != Moved(0);
      k
  }

  class Channel {
    var stream: seq<byte>

    constructor ()
      ensures stream == []
    {
      stream := [];
    }

    /** Go's `writeAllV1`: keep writing what is left, as long as the writer makes progress. */
    method WriteAll(content: seq<byte>, peer: Peer) returns (ok: bool)
      modifies this
      ensures ok ==> stream == old(stream) + content
      ensures exists k :: 0 <= k <= |content| && stream == old(stream) + content[..k]
      ensures Progresses(peer) ==> ok
    {
      var left := content;
      var calls: nat := 0;
      while left != []
        invariant |left| <= |content| && left == content[|content| - |left|..]
        invariant stream == old(stream) + content[..|content| - |left|]
        decreases |left|
      {
        var answer := peer(calls, |left|);
        calls := calls + 1;
        if answer.count < 0 || answer.count > |left| || answer == Moved(0) { return false; }
        ghost var before := |content| - |left|;
        stream := stream + left[..answer.count];
        left := left[answer.count..];
        assert content[..before + answer.count] == content[..before] + content[before..before + answer.count];
        if answer.Failed? { return false; }
      }
      assert content[..|content|] == content;
      return true;
    }

    /** Go's `io.ReadFull`: exactly `n` bytes, in as many reads as it takes; a read of no bytes
        is repeated, and an error that comes with the last bytes does not matter. */
    method ReadFull(n: nat, peer: Peer) returns (r: Option<seq<byte>>)
      requires Lively(peer)
      modifies this
      ensures r.Some? ==> |r.value| == n && r.value + stream == old(stream)
      ensures Delivers(peer) ==> (r.Some? <==> |old(stream)| >= n)
    {
      var got: seq<byte> := [];
      var calls: nat := 0;
      ghost var wake := NextWake(peer, calls, n);
      while |got| < n
        invariant |got| <= n && got + stream == old(stream)
        invariant |got| < n ==> calls <= wake && peer(wake, n - |got|) != Moved(0)
        decreases n - |got|, wake - calls
      {
        var answer := peer(calls, n - |got|);
        calls := calls + 1;
        if answer == Moved(0) { continue; }
        if answer.count < 0 || answer.count > n - |got| || (answer.Moved? && stream == []) { return None; }
        var count := if answer.count < |stream| then answer.count else |stream|;
        got := got + stream[..count];
        stream := stream[count..];
        if answer.Failed? && |got| < n { return None; }
        wake := NextWake(peer, calls, n - |got|);
      }
      return Some(got);
    }

    method WriteFrame(f: Frame, peer: Peer, again: Peer) returns (ok: bool)
      modifies this
      ensures ok ==> |f.payload| <= MAX_FRAME_PAYLOAD && stream == old(stream) + Bytes(f)
      ensures |f.payload| <= MAX_FRAME_PAYLOAD && Progresses(peer) && Progresses(again) ==> ok
    {
      if |f.payload| > MAX_FRAME_PAYLOAD { return false; }
      ok := WriteAll(Header(f), peer);
      if !ok { return; }
      ok := WriteAll(f.payload, again);
    }

    method ReadFrame(peer: Peer, again: Peer) returns (r: Option<Frame>)
      requires Lively(peer) && Lively(again)
      modifies this
      ensures r.Some? ==> Parse(old(stream)) == Some((r.value, stream))
      ensures Delivers(peer) && Delivers(again) && Parse(old(stream)).Some? ==> r.Some?
    {
      var header := ReadFull(HEADER_SIZE, peer);
      if header.None? { return None; }
      assert old(stream)[..HEADER_SIZE] == header.value;
      var parsed := ParseHeader(header.value);
      if parsed.None? { return None; }
      var (kind, length) := parsed.value;
      var payload := ReadFull(length, again);
      if payload.None? { return None; }
      var n := HEADER_SIZE + length;
      assert old(stream) == header.value + payload.value + stream;
      assert old(stream)[HEADER_SIZE..n] == payload.value && old(stream)[n..] == stream;
      return Some(Frame(kind, payload.value));
    }

    method WriteRequest(r: Request, peer: Peer, again: Peer) returns (ok: bool)
      modifies this
      ensures ok ==> Written(r).Some? && stream == old(stream) + Written(r).value
      ensures Progresses(peer) && Progresses(again) && Written(r).Some? ==> ok
    {
      if !r.Valid() { return false; }
      ok := WriteFrame(Encode(r), peer, again);
    }

    method ReadRequest(peer: Peer, again: Peer) returns (r: Option<Request>)
      requires Lively(peer) && Lively(again)
      modifies this
      ensures r.Some? ==> Read(old(stream)) == Some((r.value, stream))
      ensures Delivers(peer) && Delivers(again) && Read(old(stream)).Some? ==> r.Some?
    {
      var f := ReadFrame(peer, again);
      if f.None? { return None; }
      var request := Decode(f.value);
      if request.None? || !request.value.Valid() { return None; }
      return request;
    }
  }
}
