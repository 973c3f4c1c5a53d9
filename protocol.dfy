/** The byte-level handshake between the client and the relay
    (crates/models/src/protocol.rs). A new proxy connection starts with a
    hello, `version:u16 BE ‖ token ‖ host_len:u16 BE ‖ host`, which the
    relay reads as a fixed 20-byte portion followed by `host_len` bytes of
    host name; the relay answers with a two-byte signed acknowledgement.
    A stream is the sequence of bytes it will deliver; `read_exact` on too
    few bytes is the `ShortRead` error. */
module Protocol {
  import opened Wrappers

  type byte = x: int | 0 <= x < 0x100
  type u16 = x: int | 0 <= x < 0x1_0000
  type i16 = x: int | -0x8000 <= x < 0x8000

  /** The version every hello is written with. */
  const PROTOCOL_VERSION: u16 := 1
  /** The length of the fixed portion the relay reads first. */
  const FIXED_HELLO_LEN: nat := 20
  /** The length of a raw UUID token. */
  const TOKEN_LEN: nat := 16
  /** The largest host length the relay accepts. */
  const MAX_HOST_LEN: nat := 1024

  datatype ProtocolError = ShortRead | InvalidHostLength | UnknownAckCode

  /** `ProxyConnectionHelloFixed`: the token is the UUID's 16 raw bytes. */
  datatype HelloFixed = HelloFixed(version: u16, innerAuthToken: seq<byte>, hostLen: u16)

  /** `ProxyConnectionAckMessage`. */
  datatype AckMessage = AckOk | AckFailed

  /** `u16::from_be_bytes`. */
  function U16FromBe(b: seq<byte>): u16
    requires |b| == 2
  {
    (b[0] as int) * 0x100 + (b[1] as int)
  }

  /** `u16::to_be_bytes`: the two bytes that read back as `n`. */
  function U16ToBe(n: u16): (r: seq<byte>)
    ensures |r| == 2 && U16FromBe(r) == n
  {
    [n / 0x100, n % 0x100]
  }

  /** `i16::from_be_bytes`: the big-endian two's-complement value. */
  function I16FromBe(b: seq<byte>): i16
    requires |b| == 2
  {
    var u := U16FromBe(b);
    if u >= 0x8000 then u - 0x1_0000 else u
  }

  /** `i16::to_be_bytes`: the two bytes that read back as `n`. */
  function I16ToBe(n: i16): (r: seq<byte>)
    ensures |r| == 2 && I16FromBe(r) == n
    ensures (n < 0) == (r[0] >= 0x80)
  {
    U16ToBe(if n < 0 then n + 0x1_0000 else n)
  }

  /** `host_name_bytes.len() as u16`: the length truncated to 16 bits. */
  function HostLenField(host: seq<byte>): u16
  {
    |host| % 0x1_0000
  }

  /** `write_hello_message`: everything written to the stream, in order.
      The token is written as given; the relay expects it to be 16 bytes. */
  function WriteHello(token: seq<byte>, host: seq<byte>): (r: seq<byte>)
    ensures |r| == 2 + |token| + 2 + |host|
    ensures U16FromBe(r[..2]) == PROTOCOL_VERSION && r[..2] == [0, 1]
    ensures r[2..2 + |token|] == token
    ensures U16FromBe(r[2 + |token|..4 + |token|]) == HostLenField(host)
    ensures r[4 + |token|..] == host
  {
    U16ToBe(PROTOCOL_VERSION) + token + U16ToBe(HostLenField(host)) + host
  }

  /** `read_fixed_portion_hello_message`: reads exactly 20 bytes and
      returns the decoded fixed portion with the bytes that follow it.
      The version is not checked; a host length over 1024 is refused. */
  function ReadFixedHello(stream: seq<byte>): (r: Result<(HelloFixed, seq<byte>), ProtocolError>)
    ensures r == Err(ShortRead) <==> |stream| < FIXED_HELLO_LEN
    ensures r == Err(InvalidHostLength) <==>
              |stream| >= FIXED_HELLO_LEN && U16FromBe(stream[18..20]) > MAX_HOST_LEN
    ensures r.Ok? ==>
              && r.value.0.version == U16FromBe(stream[..2])
              && r.value.0.innerAuthToken == stream[2..18]
              && r.value.0.hostLen == U16FromBe(stream[18..20]) <= MAX_HOST_LEN
              && |r.value.0.innerAuthToken| == TOKEN_LEN
              && r.value.1 == stream[FIXED_HELLO_LEN..]
  {
    if |stream| < FIXED_HELLO_LEN then Err(ShortRead)
    else
      var version := U16FromBe(stream[..2]);
      var token := stream[2..18];
      var hostLen := U16FromBe(stream[18..20]);
      if hostLen > MAX_HOST_LEN then Err(InvalidHostLength)
      else
        Ok((HelloFixed(version, token, hostLen), stream[20..]))
  }

  /** The reader does not check the version: putting any version in front
      of an otherwise acceptable fixed portion is accepted, and that version
      is reported. */
  lemma ReadFixedHelloAcceptsAnyVersion(stream: seq<byte>, v: u16)
    requires |stream| >= FIXED_HELLO_LEN && U16FromBe(stream[18..20]) <= MAX_HOST_LEN
    ensures var s := U16ToBe(v) + stream[2..];
            ReadFixedHello(s).Ok? && ReadFixedHello(s).value.0.version == v
  {
    var s := U16ToBe(v) + stream[2..];
    assert s[..2] == U16ToBe(v);
    assert s[18..20] == stream[18..20];
  }

  /** Round trip: with a 16-byte token and a host of at most 1024 bytes, the
      relay reads back version 1, the token and the host length, and the
      bytes left on the stream are exactly the host. */
  lemma {:induction false} HelloRoundTrip(token: seq<byte>, host: seq<byte>)
    requires |token| == TOKEN_LEN && |host| <= MAX_HOST_LEN
    ensures ReadFixedHello(WriteHello(token, host))
         == Ok((HelloFixed(PROTOCOL_VERSION, token, |host|), host))
  {
    var w := WriteHello(token, host);
    assert w[..2] == [0, 1];
    assert w[2..18] == token;
    assert w[18..20] == U16ToBe(|host|);
    assert w[20..] == host;
  }

  /** Round trip with the host following on the stream: anything written
      after the hello stays on the stream after the host bytes. */
  lemma HelloRoundTripWithTrailer(token: seq<byte>, host: seq<byte>, trailer: seq<byte>)
    requires |token| == TOKEN_LEN && |host| <= MAX_HOST_LEN
    ensures ReadFixedHello(WriteHello(token, host) + trailer)
         == Ok((HelloFixed(PROTOCOL_VERSION, token, |host|), host + trailer))
  {
    var w := WriteHello(token, host) + trailer;
    assert w[..2] == [0, 1];
    assert w[2..18] == token;
    assert w[18..20] == U16ToBe(|host|);
    assert w[20..] == host + trailer;
  }

  /** A host longer than 1024 bytes (and shorter than 65536, so that its
      length field is not truncated) makes the relay refuse the hello. */
  lemma HelloLongHostRefused(token: seq<byte>, host: seq<byte>)
    requires |token| == TOKEN_LEN && MAX_HOST_LEN < |host| < 0x1_0000
    ensures ReadFixedHello(WriteHello(token, host)) == Err(InvalidHostLength)
  {
    var w := WriteHello(token, host);
    assert w[18..20] == U16ToBe(|host|);
  }

  /** The ack code of each message. */
  function AckCode(m: AckMessage): i16
  {
    match m
    case AckOk => 0
    case AckFailed => -1
  }

  /** `write_ack_message`: the two big-endian bytes of the ack code. */
  function WriteAck(m: AckMessage): (r: seq<byte>)
    ensures |r| == 2 && I16FromBe(r) == AckCode(m)
    ensures r == (if m == AckOk then [0, 0] else [0xFF, 0xFF])
  {
    I16ToBe(AckCode(m))
  }

  /** `read_ack_message`: 0 is `Ok`, any negative code is `Failed`, any
      positive code is an error. */
  function ReadAck(stream: seq<byte>): (r: Result<AckMessage, ProtocolError>)
    ensures r == Err(ShortRead) <==> |stream| < 2
    ensures r == Ok(AckOk) <==> |stream| >= 2 && I16FromBe(stream[..2]) == 0
    ensures r == Ok(AckFailed) <==> |stream| >= 2 && I16FromBe(stream[..2]) < 0
    ensures r == Err(UnknownAckCode) <==> |stream| >= 2 && I16FromBe(stream[..2]) > 0
  {
    if |stream| < 2 then Err(ShortRead)
    else
      var code := I16FromBe(stream[..2]);
      if code == 0 then Ok(AckOk)
      else if code < 0 then Ok(AckFailed)
      else Err(UnknownAckCode)
  }

  /** Ack round trip for both messages. */
  lemma AckRoundTrip(m: AckMessage, rest: seq<byte>)
    ensures ReadAck(WriteAck(m) + rest) == Ok(m)
  {
    assert (WriteAck(m) + rest)[..2] == WriteAck(m);
  }

  /** The acknowledgement read from raw bytes: the sign bit of the first
      byte decides `Failed`, two zero bytes are `Ok`, and every other
      pair is an unknown code. */
  lemma {:induction false} ReadAckByBytes(b0: byte, b1: byte)
    ensures ReadAck([b0, b1]) == Ok(AckFailed) <==> b0 >= 0x80
    ensures ReadAck([b0, b1]) == Ok(AckOk) <==> b0 == 0 && b1 == 0
    ensures ReadAck([b0, b1]) == Err(UnknownAckCode) <==> b0 < 0x80 && (b0 != 0 || b1 != 0)
  {
    var s := [b0, b1];
    assert s[..2] == s;
    assert U16FromBe(s) == b0 * 0x100 + b1;
  }
}
