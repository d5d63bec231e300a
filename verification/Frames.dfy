/**
 The tunnel's binary frame, in the three places that build and read it: the Rust tunnel
 client (`protocol.rs`), the Python tunnel package (`tunnel/protocol.py`) and the copy in the
 CLI forwarder (`forward.py`). The two Python codecs are the same expressions, so they share
 one model here.

 Wire format, big-endian: type (1), proto (1), client id (4), port (2), payload.
 */
module Frames {
  import opened Wrappers

  const HEADER_SIZE := 8
  const U16_LIMIT := 0x1_0000
  const U32_LIMIT := 0x1_0000_0000

  type byte = i: int | 0 <= i < 0x100
  type Bytes = seq<byte>
  type u16 = i: int | 0 <= i < U16_LIMIT
  type u32 = i: int | 0 <= i < U32_LIMIT

  // ---------------------------------------------------------------------------
  // Rust: typed headers

  datatype MsgType = Connect | Connected | Data | Close | Error | Ping | Pong

  datatype Proto = Tcp | Udp

  datatype ProtocolError =
    | InvalidMsgType(value: byte)
    | InvalidProto(value: byte)
    | MessageTooShort(length: nat)

  datatype Header = Header(msgType: MsgType, proto: Proto, clientId: u32, port: u16)

  function MsgCode(t: MsgType): byte {
    match t
    case Connect => 1
    case Connected => 2
    case Data => 3
    case Close => 4
    case Error => 5
    case Ping => 6
    case Pong => 7
  }

  function ProtoCode(p: Proto): byte {
    match p
    case Tcp => 0
    case Udp => 1
  }

  function MsgTypeOf(value: byte): Result<MsgType, ProtocolError> {
    match value
    case 1 => Ok(Connect)
    case 2 => Ok(Connected)
    case 3 => Ok(Data)
    case 4 => Ok(Close)
    case 5 => Ok(Error)
    case 6 => Ok(Ping)
    case 7 => Ok(Pong)
    case _ => Err(InvalidMsgType(value))
  }

  function ProtoOf(value: byte): Result<Proto, ProtocolError> {
    match value
    case 0 => Ok(Tcp)
    case 1 => Ok(Udp)
    case _ => Err(InvalidProto(value))
  }

  function U32Bytes(n: u32): Bytes {
    U16Bytes(n / U16_LIMIT) + U16Bytes(n % U16_LIMIT)
  }

  function U16Bytes(n: u16): Bytes {
    [n / 0x100, n % 0x100]
  }

  function U32Of(a: byte, b: byte, c: byte, d: byte): u32 {
    U16Of(a, b) * U16_LIMIT + U16Of(c, d)
  }

  function U16Of(a: byte, b: byte): u16 {
    a * 0x100 + b
  }

  /** `Header::parse`: length first, then type, then proto. */
  function ParseHeader(data: Bytes): Result<Header, ProtocolError> {
    if |data| < HEADER_SIZE then Err(MessageTooShort(|data|))
    else
      match MsgTypeOf(data[0])
      case Err(e) => Err(e)
      case Ok(t) =>
        match ProtoOf(data[1])
        case Err(e) => Err(e)
        case Ok(p) =>
          Ok(Header(t, p, U32Of(data[2], data[3], data[4], data[5]), U16Of(data[6], data[7])))
  }

  function GetPayload(data: Bytes): Bytes {
    if |data| > HEADER_SIZE then data[HEADER_SIZE..] else []
  }

  /** The frame as a value; `BuildMessage` below produces it the way the source does. */
  function EncodeFrame(h: Header, payload: Bytes): Bytes {
    [MsgCode(h.msgType), ProtoCode(h.proto)] + U32Bytes(h.clientId) + U16Bytes(h.port) + payload
  }

  /** `Header::write_to`: appends field by field. */
  method WriteTo(h: Header, prefix: Bytes) returns (buf: Bytes)
    ensures buf == prefix + EncodeFrame(h, [])
  {
    buf := prefix;
    buf := buf + [MsgCode(h.msgType)];
    buf := buf + [ProtoCode(h.proto)];
    buf := buf + U32Bytes(h.clientId);
    buf := buf + U16Bytes(h.port);
  }

  /** `build_message`: whoever parses the result gets exactly the four fields and the payload back. */
  method BuildMessage(msgType: MsgType, proto: Proto, clientId: u32, port: u16, payload: Bytes) returns (buf: Bytes)
    ensures ParseHeader(buf) == Ok(Header(msgType, proto, clientId, port))
    ensures GetPayload(buf) == payload
    ensures |buf| == HEADER_SIZE + |payload|
  {
    var header := Header(msgType, proto, clientId, port);
    buf := WriteTo(header, []);
    buf := buf + payload;
    assert buf == EncodeFrame(header, payload);
    RustRoundTrip(header, payload);
  }

  // ---------------------------------------------------------------------------
  // Python: struct.pack(">BBIH", ...) and struct.unpack

  datatype PyHeader = PyHeader(msgType: int, proto: int, clientId: int, port: int)

  /** `struct.error`: a field does not fit its format character. */
  datatype PackError = OutOfRange

  predicate Packable(h: PyHeader) {
    && 0 <= h.msgType < 0x100
    && 0 <= h.proto < 0x100
    && 0 <= h.clientId < U32_LIMIT
    && 0 <= h.port < U16_LIMIT
  }

  function PackFrame(h: PyHeader, payload: Bytes): Result<Bytes, PackError> {
    if Packable(h)
    then Ok([h.msgType as byte, h.proto as byte] + U32Bytes(h.clientId) + U16Bytes(h.port) + payload)
    else Err(OutOfRange)
  }

  function UnpackHeader(data: Bytes): Option<PyHeader> {
    if |data| < HEADER_SIZE then None
    else Some(PyHeader(data[0], data[1], U32Of(data[2], data[3], data[4], data[5]), U16Of(data[6], data[7])))
  }

  function Untyped(h: Header): PyHeader {
    PyHeader(MsgCode(h.msgType), ProtoCode(h.proto), h.clientId, h.port)
  }

  // ---------------------------------------------------------------------------
  // Properties

  lemma U16RoundTrip(n: u16, a: byte, b: byte)
    ensures U16Of(U16Bytes(n)[0], U16Bytes(n)[1]) == n
    ensures U16Bytes(U16Of(a, b)) == [a, b]
  {
  }

  lemma U32RoundTrip(n: u32, a: byte, b: byte, c: byte, d: byte)
    ensures var s := U32Bytes(n); |s| == 4 && U32Of(s[0], s[1], s[2], s[3]) == n
    ensures U32Bytes(U32Of(a, b, c, d)) == [a, b, c, d]
  {
    U16RoundTrip(n / U16_LIMIT, a, b);
    U16RoundTrip(n % U16_LIMIT, c, d);
    assert U32Of(a, b, c, d) / U16_LIMIT == U16Of(a, b);
    assert U32Of(a, b, c, d) % U16_LIMIT == U16Of(c, d);
  }

  /** The header's bytes sit at fixed offsets, whatever follows. */
  lemma HeaderLayout(t: byte, p: byte, id: u32, port: u16, payload: Bytes)
    ensures var data := [t, p] + U32Bytes(id) + U16Bytes(port) + payload;
            && |data| == HEADER_SIZE + |payload|
            && data[0] == t && data[1] == p
            && U32Of(data[2], data[3], data[4], data[5]) == id
            && U16Of(data[6], data[7]) == port
            && GetPayload(data) == payload
  {
    U32RoundTrip(id, 0, 0, 0, 0);
    U16RoundTrip(port, 0, 0);
    var data := [t, p] + U32Bytes(id) + U16Bytes(port) + payload;
    assert data[8..] == payload;
  }

  /** Encoding then parsing gives the header and payload back, for every header and payload. */
  lemma RustRoundTrip(h: Header, payload: Bytes)
    ensures ParseHeader(EncodeFrame(h, payload)) == Ok(h)
    ensures GetPayload(EncodeFrame(h, payload)) == payload
  {
    HeaderLayout(MsgCode(h.msgType), ProtoCode(h.proto), h.clientId, h.port, payload);
  }

  lemma BytesOfNumber(a: byte, b: byte, c: byte, d: byte)
    ensures var n := ((a * 0x100 + b) * 0x100 + c) * 0x100 + d;
            n / 0x100_0000 == a && n / 0x1_0000 % 0x100 == b && n / 0x100 % 0x100 == c && n % 0x100 == d
  {
    var n := ((a * 0x100 + b) * 0x100 + c) * 0x100 + d;
    assert n / 0x100 == (a * 0x100 + b) * 0x100 + c;
    assert n / 0x1_0000 == a * 0x100 + b;
  }

  lemma U32Spelled(n: u32)
    ensures U32Bytes(n) == [n / 0x100_0000, n / 0x1_0000 % 0x100, n / 0x100 % 0x100, n % 0x100]
  {
    var hi, lo := n / U16_LIMIT, n % U16_LIMIT;
    var a, b, c, d := hi / 0x100, hi % 0x100, lo / 0x100, lo % 0x100;
    assert n == ((a * 0x100 + b) * 0x100 + c) * 0x100 + d;
    BytesOfNumber(a, b, c, d);
  }

  /** The eight header bytes: type and protocol codes, then id and port, high byte first. */
  lemma FrameBytes(h: Header, payload: Bytes)
    ensures MsgCode(Connect) == 1 && MsgCode(Connected) == 2 && MsgCode(Data) == 3 && MsgCode(Close) == 4
    ensures MsgCode(Error) == 5 && MsgCode(Ping) == 6 && MsgCode(Pong) == 7
    ensures EncodeFrame(h, payload)
            == [MsgCode(h.msgType), if h.proto == Tcp then 0 else 1]
               + [h.clientId / 0x100_0000, h.clientId / 0x1_0000 % 0x100, h.clientId / 0x100 % 0x100, h.clientId % 0x100]
               + [h.port / 0x100, h.port % 0x100] + payload
  {
    U32Spelled(h.clientId);
  }

  /** Rust accepts a frame exactly when it is long enough and both enumerations are in range. */
  lemma RustAcceptsExactly(data: Bytes)
    ensures ParseHeader(data).Ok? <==> |data| >= HEADER_SIZE && 1 <= data[0] <= 7 && data[1] <= 1
    ensures ParseHeader(data).Ok? ==> UnpackHeader(data) == Some(Untyped(ParseHeader(data).value))
  {
  }

  lemma CodesInvert(t: byte, p: byte)
    ensures MsgTypeOf(t).Ok? ==> MsgCode(MsgTypeOf(t).value) == t
    ensures ProtoOf(p).Ok? ==> ProtoCode(ProtoOf(p).value) == p
  {
  }

  lemma RebuildFields(t: byte, p: byte, a: byte, b: byte, c: byte, d: byte, e: byte, f: byte, payload: Bytes)
    ensures PackFrame(PyHeader(t, p, U32Of(a, b, c, d), U16Of(e, f)), payload)
            == Ok([t, p, a, b, c, d, e, f] + payload)
  {
    U32RoundTrip(0, a, b, c, d);
    U16RoundTrip(0, e, f);
    assert [t, p] + [a, b, c, d] + [e, f] == [t, p, a, b, c, d, e, f];
  }

  /** Rebuilding an accepted frame from its header and payload gives the same bytes, in Rust and in Python. */
  lemma RebuildAccepted(data: Bytes)
    ensures UnpackHeader(data).Some? ==> PackFrame(UnpackHeader(data).value, GetPayload(data)) == Ok(data)
    ensures ParseHeader(data).Ok? ==> EncodeFrame(ParseHeader(data).value, GetPayload(data)) == data
  {
    if |data| >= HEADER_SIZE {
      RebuildFields(data[0], data[1], data[2], data[3], data[4], data[5], data[6], data[7], data[8..]);
      assert data == [data[0], data[1], data[2], data[3], data[4], data[5], data[6], data[7]] + data[8..];
      CodesInvert(data[0], data[1]);
    }
  }

  /** Python's pack accepts exactly the in-range fields, and unpacking inverts it there. */
  lemma PythonRoundTrip(h: PyHeader, payload: Bytes)
    ensures PackFrame(h, payload).Ok? <==> Packable(h)
    ensures Packable(h) ==> UnpackHeader(PackFrame(h, payload).value) == Some(h)
    ensures Packable(h) ==> GetPayload(PackFrame(h, payload).value) == payload
  {
    if Packable(h) {
      HeaderLayout(h.msgType as byte, h.proto as byte, h.clientId, h.port, payload);
    }
  }

  /** All codecs write the same bytes for the same typed fields, so either side reads the other. */
  lemma CodecsAgree(h: Header, payload: Bytes)
    ensures PackFrame(Untyped(h), payload) == Ok(EncodeFrame(h, payload))
    ensures ParseHeader(PackFrame(Untyped(h), payload).value) == Ok(h)
    ensures GetPayload(PackFrame(Untyped(h), payload).value) == payload
    ensures UnpackHeader(EncodeFrame(h, payload)) == Some(Untyped(h))
  {
    RustRoundTrip(h, payload);
    PythonRoundTrip(Untyped(h), payload);
  }
}
