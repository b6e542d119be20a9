/**
 * The wire format between a client and the background server: a frame is a tag
 * byte, a big-endian 32-bit payload length and the payload.
 */
module Protocol {
  import opened Prelude

  type Byte = b: nat | b < 0x100
  type Bytes = seq<Byte>

  const U32_LIMIT: nat := 0x1_0000_0000
  const HEADER_LEN: nat := 5
  const MAX_FRAME_LEN: nat := 16 * 1024 * 1024

  const TAG_ATTACH: Byte := 97
  const TAG_QUIT: Byte := 113
  const TAG_EVENT: Byte := 101
  const TAG_RESIZE: Byte := 114
  const TAG_OUTPUT: Byte := 111
  const TAG_DETACHED: Byte := 100
  const TAG_EXITED: Byte := 120

  datatype Error = UnexpectedEof | InvalidData

  datatype Frame = Frame(tag: Byte, payload: Bytes)

  /** What a read leaves behind: its result and the bytes still in the stream. */
  datatype Parsed<+T> = Parsed(result: Result<T, Error>, rest: Bytes)

  // ---------------------------------------------------------------- frames

  function U32ToBe(n: nat): (b: Bytes)
    requires n < U32_LIMIT
    ensures |b| == 4
  {
    [n / 0x100_0000, n / 0x1_0000 % 0x100, n / 0x100 % 0x100, n % 0x100]
  }

  function U32FromBe(b: Bytes): nat
    requires |b| == 4
  {
    b[0] as nat * 0x100_0000 + b[1] as nat * 0x1_0000 + b[2] as nat * 0x100 + b[3] as nat
  }

  lemma U32RoundTrip(n: nat)
    requires n < U32_LIMIT
    ensures U32FromBe(U32ToBe(n)) == n
  {
    var high, low := n / 0x1_0000, n % 0x1_0000;
    assert n / 0x100_0000 == high / 0x100;
    assert n / 0x100 == high * 0x100 + low / 0x100;
    assert n / 0x100 % 0x100 == low / 0x100;
    assert n % 0x100 == low % 0x100;
  }

  lemma U32Canonical(b: Bytes)
    requires |b| == 4
    ensures U32FromBe(b) < U32_LIMIT && U32ToBe(U32FromBe(b)) == b
  {
    var n := U32FromBe(b);
    assert n / 0x100_0000 == b[0];
    assert n / 0x1_0000 == b[0] as nat * 0x100 + b[1] as nat;
    assert n / 0x100 == b[0] as nat * 0x1_0000 + b[1] as nat * 0x100 + b[2] as nat;
  }

  predicate Writable(f: Frame) { |f.payload| < U32_LIMIT }

  /** The bytes of one frame on the wire. */
  function FrameBytes(f: Frame): (s: Bytes)
    requires Writable(f)
    ensures |s| == HEADER_LEN + |f.payload|
  {
    [f.tag] + U32ToBe(|f.payload|) + f.payload
  }

  function ParseFrame(s: Bytes): Parsed<Frame> {
    if |s| < HEADER_LEN then Parsed(Failure(UnexpectedEof), [])
    else
      var len := U32FromBe(s[1..HEADER_LEN]);
      if len > MAX_FRAME_LEN then Parsed(Failure(InvalidData), s[HEADER_LEN..])
      else if |s| < HEADER_LEN + len then Parsed(Failure(UnexpectedEof), [])
      else Parsed(Success(Frame(s[0], s[HEADER_LEN..HEADER_LEN + len])), s[HEADER_LEN + len..])
  }

  /**
   * The writer refuses only payloads whose length overflows 32 bits, while the
   * reader refuses everything over MAX_FRAME_LEN, so a written frame comes back
   * exactly when it fits the reader's limit. Past it the reader stops inside
   * the frame, at the first payload byte.
   */
  lemma FrameRoundTrip(f: Frame, tail: Bytes)
    requires Writable(f)
    ensures ParseFrame(FrameBytes(f) + tail) == Parsed(Success(f), tail) <==> |f.payload| <= 16_777_216
    ensures |f.payload| > 16_777_216 ==>
      ParseFrame(FrameBytes(f) + tail) == Parsed(Failure(InvalidData), f.payload + tail)
  {
    var s := FrameBytes(f) + tail;
    assert s[1..HEADER_LEN] == U32ToBe(|f.payload|);
    U32RoundTrip(|f.payload|);
    assert s[HEADER_LEN..] == f.payload + tail;
    if |f.payload| <= MAX_FRAME_LEN {
      assert s[HEADER_LEN..HEADER_LEN + |f.payload|] == f.payload;
      assert s[HEADER_LEN + |f.payload|..] == tail;
    }
  }

  /** Whatever the reader accepts is the encoding of the frame it returns: no two byte strings read as one frame. */
  lemma ParseIsCanonical(s: Bytes)
    requires ParseFrame(s).result.Success?
    ensures var p := ParseFrame(s);
      Writable(p.result.value) && s == FrameBytes(p.result.value) + p.rest
  {
    var p := ParseFrame(s);
    U32Canonical(s[1..HEADER_LEN]);
    var len := U32FromBe(s[1..HEADER_LEN]);
    assert s == [s[0]] + s[1..HEADER_LEN] + s[HEADER_LEN..HEADER_LEN + len] + s[HEADER_LEN + len..];
  }

  /** A stream cut anywhere inside a frame reads as an end of file, never as a shorter frame. */
  lemma StrictPrefixNeverReads(f: Frame, cut: nat)
    requires Writable(f) && |f.payload| <= MAX_FRAME_LEN
    requires cut < |FrameBytes(f)|
    ensures ParseFrame(FrameBytes(f)[..cut]) == Parsed(Failure(UnexpectedEof), [])
  {
    var s := FrameBytes(f)[..cut];
    if cut >= HEADER_LEN {
      assert FrameBytes(f)[1..HEADER_LEN] == U32ToBe(|f.payload|);
      assert s[1..HEADER_LEN] == U32ToBe(|f.payload|);
      U32RoundTrip(|f.payload|);
    }
  }

  ghost predicate AllReadable(fs: seq<Frame>) {
    forall i :: 0 <= i < |fs| ==> |fs[i].payload| <= MAX_FRAME_LEN
  }

  function StreamBytes(fs: seq<Frame>): Bytes
    requires AllReadable(fs)
  {
    if fs == [] then [] else FrameBytes(fs[0]) + StreamBytes(fs[1..])
  }

  /** The frames that `n` reads in a row return, and what they leave; None if one of them fails. */
  function ReadFrames(s: Bytes, n: nat): Option<(seq<Frame>, Bytes)> {
    if n == 0 then Some(([], s))
    else
      var p := ParseFrame(s);
      if p.result.Failure? then None
      else match ReadFrames(p.rest, n - 1)
        case None => None
        case Some((fs, rest)) => Some(([p.result.value] + fs, rest))
  }

  lemma {:induction false} StreamRoundTrip(fs: seq<Frame>, tail: Bytes)
    requires AllReadable(fs)
    ensures ReadFrames(StreamBytes(fs) + tail, |fs|) == Some((fs, tail))
  {
    if fs == [] {
      assert StreamBytes(fs) + tail == tail;
    } else {
      var rest := StreamBytes(fs[1..]) + tail;
      assert StreamBytes(fs) + tail == FrameBytes(fs[0]) + rest;
      FrameRoundTrip(fs[0], rest);
      StreamRoundTrip(fs[1..], tail);
      assert [fs[0]] + fs[1..] == fs;
    }
  }

  // -------------------------------------------------------------- messages

  datatype Hello = Attach(cols: U16, rows: U16) | Quit

  datatype ClientMsg<+E> = Event(event: E) | Resize(cols: U16, rows: U16)

  datatype ServerMsg = Output(bytes: Bytes) | Detached | Exited

  /** How terminal events travel: a library's escape-sequence encoder and parser, either of which may refuse. */
  datatype Codec<!E> = Codec(encode: E -> Option<Bytes>, decode: Bytes -> Option<E>)

  function EncodeSize(cols: U16, rows: U16): Bytes {
    [cols / 0x100, cols % 0x100, rows / 0x100, rows % 0x100]
  }

  function DecodeSize(payload: Bytes): Result<(U16, U16), Error> {
    if |payload| != 4 then Failure(InvalidData)
    else Success((payload[0] as nat * 0x100 + payload[1] as nat, payload[2] as nat * 0x100 + payload[3] as nat))
  }

  function HelloFrame(h: Hello): Frame {
    match h
    case Attach(cols, rows) => Frame(TAG_ATTACH, EncodeSize(cols, rows))
    case Quit => Frame(TAG_QUIT, [])
  }

  function ToHello(f: Frame): Result<Hello, Error> {
    if f.tag == TAG_ATTACH then
      match DecodeSize(f.payload)
      case Success((cols, rows)) => Success(Attach(cols, rows))
      case Failure(e) => Failure(e)
    else if f.tag == TAG_QUIT then Success(Quit)
    else Failure(InvalidData)
  }

  function ClientFrame<E>(codec: Codec<E>, m: ClientMsg<E>): Option<Frame> {
    match m
    case Event(e) => (match codec.encode(e) case Some(b) => Some(Frame(TAG_EVENT, b)) case None => None)
    case Resize(cols, rows) => Some(Frame(TAG_RESIZE, EncodeSize(cols, rows)))
  }

  /** None inside Success is an event this build cannot decode. */
  function ToClientMsg<E>(codec: Codec<E>, f: Frame): Result<Option<ClientMsg<E>>, Error> {
    if f.tag == TAG_EVENT then
      Success(match codec.decode(f.payload) case Some(e) => Some(Event(e)) case None => None)
    else if f.tag == TAG_RESIZE then
      match DecodeSize(f.payload)
      case Success((cols, rows)) => Success(Some(Resize(cols, rows)))
      case Failure(e) => Failure(e)
    else Failure(InvalidData)
  }

  function ServerFrame(m: ServerMsg): Frame {
    match m
    case Output(bytes) => Frame(TAG_OUTPUT, bytes)
    case Detached => Frame(TAG_DETACHED, [])
    case Exited => Frame(TAG_EXITED, [])
  }

  function ToServerMsg(f: Frame): Result<ServerMsg, Error> {
    if f.tag == TAG_OUTPUT then Success(Output(f.payload))
    else if f.tag == TAG_DETACHED then Success(Detached)
    else if f.tag == TAG_EXITED then Success(Exited)
    else Failure(InvalidData)
  }

  function Decode<T>(s: Bytes, decode: Frame -> Result<T, Error>): Parsed<T> {
    var p := ParseFrame(s);
    match p.result
    case Failure(e) => Parsed(Failure(e), p.rest)
    case Success(f) => Parsed(decode(f), p.rest)
  }

  lemma SizeRoundTrip(cols: U16, rows: U16)
    ensures DecodeSize(EncodeSize(cols, rows)) == Success((cols, rows))
  {}

  /** A size is four bytes, and each four bytes are one size. */
  lemma SizeDecodesIff(payload: Bytes)
    ensures DecodeSize(payload).Success? <==> |payload| == 4
    ensures |payload| == 4 ==> EncodeSize(DecodeSize(payload).value.0, DecodeSize(payload).value.1) == payload
    ensures |payload| != 4 ==> DecodeSize(payload) == Failure(InvalidData)
  {}

  /** Frames that open a connection: 'a' with a size, and 'q' whatever else it carries. Everything else is an error. */
  lemma HelloDecodesIff(f: Frame)
    ensures ToHello(f).Success? <==> (f.tag == 97 && |f.payload| == 4) || f.tag == 113
    ensures ToHello(f).Failure? ==> ToHello(f) == Failure(InvalidData)
    ensures f.tag == 97 && |f.payload| == 4 ==> ToHello(f).value.Attach? && HelloFrame(ToHello(f).value) == f
    ensures f.tag == 113 ==> ToHello(f) == Success(Quit)
  {
    SizeDecodesIff(f.payload);
  }

  /** Frames from a client: 'e' with an event, skipped if it does not decode, and 'r' with a size. */
  lemma ClientMsgDecodesIff<E>(codec: Codec<E>, f: Frame)
    ensures ToClientMsg(codec, f).Success? <==> f.tag == 101 || (f.tag == 114 && |f.payload| == 4)
    ensures ToClientMsg(codec, f).Failure? ==> ToClientMsg(codec, f) == Failure(InvalidData)
    ensures f.tag == 101 ==>
      match codec.decode(f.payload)
      case Some(e) => ToClientMsg(codec, f) == Success(Some(Event(e)))
      case None => ToClientMsg(codec, f) == Success(None)
    ensures f.tag == 114 && |f.payload| == 4 ==>
      var m := ToClientMsg(codec, f).value; m.Some? && m.value.Resize? && ClientFrame(codec, m.value) == Some(f)
  {
    SizeDecodesIff(f.payload);
  }

  /** Frames from the server: 'o' with output, 'd' and 'x' whatever else they carry. */
  lemma ServerMsgDecodesIff(f: Frame)
    ensures ToServerMsg(f).Success? <==> f.tag == 111 || f.tag == 100 || f.tag == 120
    ensures ToServerMsg(f).Failure? ==> ToServerMsg(f) == Failure(InvalidData)
    ensures f.tag == 111 ==> ToServerMsg(f) == Success(Output(f.payload)) && ServerFrame(Output(f.payload)) == f
    ensures f.tag == 100 ==> ToServerMsg(f) == Success(Detached)
    ensures f.tag == 120 ==> ToServerMsg(f) == Success(Exited)
  {}

  /** Every hello survives the wire, whatever follows it. */
  lemma HelloRoundTrip(h: Hello, tail: Bytes)
    ensures Decode(FrameBytes(HelloFrame(h)) + tail, ToHello) == Parsed(Success(h), tail)
  {
    FrameRoundTrip(HelloFrame(h), tail);
    if h.Attach? { SizeRoundTrip(h.cols, h.rows); }
  }

  /** A server message survives the wire exactly when its bytes fit one readable frame. */
  lemma ServerMsgRoundTrip(m: ServerMsg, tail: Bytes)
    requires Writable(ServerFrame(m))
    ensures Decode(FrameBytes(ServerFrame(m)) + tail, ToServerMsg) == Parsed(Success(m), tail)
      <==> (m.Output? ==> |m.bytes| <= MAX_FRAME_LEN)
  {
    FrameRoundTrip(ServerFrame(m), tail);
  }

  /** What a reader makes of an event frame: the event as decoded, or None; never an error. */
  function Arrives<E>(codec: Codec<E>, m: ClientMsg<E>): Option<ClientMsg<E>>
    requires ClientFrame(codec, m).Some?
  {
    match m
    case Event(e) =>
      (match codec.decode(codec.encode(e).value) case Some(d) => Some(Event(d)) case None => None)
    case Resize(_, _) => Some(m)
  }

  /**
   * A client message consumes its own frame and no more, decodable or not, and a
   * resize arrives unchanged. The encoder writes into 64 bytes, so an event
   * frame is always readable.
   */
  lemma ClientMsgRoundTrip<E>(codec: Codec<E>, m: ClientMsg<E>, tail: Bytes)
    requires ClientFrame(codec, m).Some? && |ClientFrame(codec, m).value.payload| <= 64
    ensures Decode(FrameBytes(ClientFrame(codec, m).value) + tail, f => ToClientMsg(codec, f))
      == Parsed(Success(Arrives(codec, m)), tail)
  {
    FrameRoundTrip(ClientFrame(codec, m).value, tail);
    if m.Resize? { SizeRoundTrip(m.cols, m.rows); }
  }

  // ------------------------------------------------------- a whole connection

  ghost predicate Sendable<E>(codec: Codec<E>, ms: seq<ClientMsg<E>>) {
    forall i :: 0 <= i < |ms| ==>
      ClientFrame(codec, ms[i]).Some? && |ClientFrame(codec, ms[i]).value.payload| <= 64
  }

  ghost function ConversationBytes<E>(codec: Codec<E>, ms: seq<ClientMsg<E>>): Bytes
    requires Sendable(codec, ms)
  {
    if ms == [] then []
    else FrameBytes(ClientFrame(codec, ms[0]).value) + ConversationBytes(codec, ms[1..])
  }

  /** The messages the App receives: each as it arrives, undecodable ones dropped. */
  ghost function Received<E>(codec: Codec<E>, ms: seq<ClientMsg<E>>): seq<ClientMsg<E>>
    requires Sendable(codec, ms)
  {
    if ms == [] then []
    else
      (match Arrives(codec, ms[0]) case Some(m) => [m] case None => []) + Received(codec, ms[1..])
  }

  /** The connection's read loop after the hello: it skips undecodable events and ends at the first error. */
  function ForwardAll<E>(codec: Codec<E>, s: Bytes): (r: (seq<ClientMsg<E>>, Error))
    decreases |s|
  {
    var p := ParseFrame(s);
    match p.result
    case Failure(e) => ([], e)
    case Success(f) =>
      match ToClientMsg(codec, f)
      case Failure(e) => ([], e)
      case Success(m) =>
        var (ms, e) := ForwardAll(codec, p.rest);
        ((match m case Some(msg) => [msg] case None => []) + ms, e)
  }

  /**
   * A connection that sends any hello and any messages and then hangs up, even
   * in the middle of a further frame, delivers that hello and every decodable
   * message, in order and nothing else, before the reader sees the end.
   */
  lemma ConversationRoundTrip<E>(codec: Codec<E>, h: Hello, ms: seq<ClientMsg<E>>, torn: Bytes)
    requires Sendable(codec, ms)
    requires ParseFrame(torn) == Parsed(Failure(UnexpectedEof), [])
    ensures var p := Decode(FrameBytes(HelloFrame(h)) + (ConversationBytes(codec, ms) + torn), ToHello);
      p.result == Success(h) && ForwardAll(codec, p.rest) == (Received(codec, ms), UnexpectedEof)
  {
    HelloRoundTrip(h, ConversationBytes(codec, ms) + torn);
    ForwardsConversation(codec, ms, torn);
  }

  lemma {:induction false} ForwardsConversation<E>(codec: Codec<E>, ms: seq<ClientMsg<E>>, torn: Bytes)
    requires Sendable(codec, ms)
    requires ParseFrame(torn) == Parsed(Failure(UnexpectedEof), [])
    ensures ForwardAll(codec, ConversationBytes(codec, ms) + torn) == (Received(codec, ms), UnexpectedEof)
  {
    if ms == [] {
      assert ConversationBytes(codec, ms) + torn == torn;
    } else {
      var f := ClientFrame(codec, ms[0]).value;
      var tail := ConversationBytes(codec, ms[1..]) + torn;
      assert ConversationBytes(codec, ms) + torn == FrameBytes(f) + tail;
      FrameRoundTrip(f, tail);
      ClientMsgRoundTrip(codec, ms[0], tail);
      ForwardsConversation(codec, ms[1..], torn);
    }
  }

  // ------------------------------------------------------ the stream itself

  /** A byte stream between the two ends; reads take from the front, writes append. */
  class Stream {
    var bytes: Bytes

    constructor ()
      ensures bytes == []
    {
      bytes := [];
    }

    method ReadU8() returns (r: Result<Byte, Error>)
      modifies this
      ensures if |old(bytes)| == 0 then r == Failure(UnexpectedEof) && bytes == []
              else r == Success(old(bytes)[0]) && bytes == old(bytes)[1..]
    {
      if |bytes| == 0 {
        return Failure(UnexpectedEof);
      }
      r := Success(bytes[0]);
      bytes := bytes[1..];
    }

    method ReadExact(n: nat) returns (r: Result<Bytes, Error>)
      modifies this
      ensures if |old(bytes)| < n then r == Failure(UnexpectedEof) && bytes == []
              else r == Success(old(bytes)[..n]) && bytes == old(bytes)[n..]
    {
      if |bytes| < n {
        bytes := [];
        return Failure(UnexpectedEof);
      }
      r := Success(bytes[..n]);
      bytes := bytes[n..];
    }

    method WriteFrame(f: Frame) returns (r: Result<(), Error>)
      modifies this
      ensures r.Success? <==> Writable(f)
      ensures bytes == old(bytes) + (if Writable(f) then FrameBytes(f) else [])
    {
      if |f.payload| >= U32_LIMIT {
        return Failure(InvalidData);
      }
      bytes := bytes + ([f.tag] + U32ToBe(|f.payload|));
      bytes := bytes + f.payload;
      assert bytes == old(bytes) + FrameBytes(f);
      r := Success(());
    }

    method ReadFrame() returns (r: Result<Frame, Error>)
      modifies this
      ensures Parsed(r, bytes) == ParseFrame(old(bytes))
    {
      ghost var was := bytes;
      var tag := ReadU8();
      if tag.Failure? {
        return Failure(tag.error);
      }
      var header := ReadExact(4);
      if header.Failure? {
        return Failure(header.error);
      }
      assert header.value == was[1..HEADER_LEN];
      var len := U32FromBe(header.value);
      if len > MAX_FRAME_LEN {
        return Failure(InvalidData);
      }
      var payload := ReadExact(len);
      if payload.Failure? {
        return Failure(payload.error);
      }
      assert payload.value == was[HEADER_LEN..HEADER_LEN + len];
      r := Success(Frame(tag.value, payload.value));
    }
  }
}
