/** The control handshake: the hidden side writes the remote port it wants
    exposed as one 32-bit unsigned integer in network byte order, and the
    relay reads it back as the first thing it does on a new connection
    (binary.Write / binary.Read with binary.BigEndian on a uint32). */
module Handshake {
  import opened Common

  newtype byte = x: int | 0 <= x < 0x100

  newtype uint32 = x: int | 0 <= x < 0x1_0000_0000

  /** Reference meaning of a byte string read most significant byte first. */
  function BigEndian(b: seq<byte>): nat
  {
    if b == [] then 0 else BigEndian(b[..|b| - 1]) * 0x100 + b[|b| - 1] as int
  }

  lemma BigEndianOfFour(b: seq<byte>)
    requires |b| == 4
    ensures BigEndian(b) == b[0] as int * 0x100_0000 + b[1] as int * 0x1_0000 + b[2] as int * 0x100 + b[3] as int
  {
    assert b[..1][..0] == [];
    assert BigEndian(b[..1]) == b[0] as int;
    assert b[..2][..1] == b[..1];
    assert BigEndian(b[..2]) == BigEndian(b[..1]) * 0x100 + b[1] as int;
    assert b[..3][..2] == b[..2];
    assert BigEndian(b[..3]) == BigEndian(b[..2]) * 0x100 + b[2] as int;
    assert b[..3] == b[..|b| - 1];
  }

  /** The four bytes binary.Write puts on the wire for `port`:
      byte(v >> 24), byte(v >> 16), byte(v >> 8), byte(v). */
  function Encode(port: uint32): (b: seq<byte>)
    ensures |b| == 4
    ensures BigEndian(b) == port as int
  {
    var v := port as int;
    var q1 := v / 0x100;
    var q2 := q1 / 0x100;
    var q3 := q2 / 0x100;
    var b := [q3 as byte, (q2 % 0x100) as byte, (q1 % 0x100) as byte, (v % 0x100) as byte];
    BigEndianOfFour(b);
    b
  }

  /** binary.BigEndian.Uint32 on exactly four bytes. */
  function Uint32Of(b: seq<byte>): (v: uint32)
    requires |b| == 4
    ensures v as int == BigEndian(b)
  {
    BigEndianOfFour(b);
    (b[0] as int * 0x100_0000 + b[1] as int * 0x1_0000 + b[2] as int * 0x100 + b[3] as int) as uint32
  }

  /** How io.ReadFull reports a stream that ends before four bytes:
      io.EOF when nothing arrived, io.ErrUnexpectedEOF after 1 to 3 bytes. */
  datatype ReadError = EndOfStream | UnexpectedEndOfStream

  /** binary.Read of a uint32 from the bytes the control connection
      delivers before it ends: the port and the bytes left unread, which
      belong to the multiplexed session. */
  function ReadPort(stream: seq<byte>): (r: Result<(uint32, seq<byte>), ReadError>)
    ensures r.Ok? <==> |stream| >= 4
    ensures r.Ok? ==> r.value.0 as int == BigEndian(stream[..4]) && r.value.1 == stream[4..]
    ensures r.Err? ==> r.error == if stream == [] then EndOfStream else UnexpectedEndOfStream
  {
    if |stream| < 4 then Err(if |stream| == 0 then EndOfStream else UnexpectedEndOfStream)
    else Ok((Uint32Of(stream[..4]), stream[4..]))
  }

  /** What the hidden side writes, the relay reads back unchanged, and it
      consumes exactly the four handshake bytes. */
  lemma HandshakeRoundTrip(port: uint32, rest: seq<byte>)
    ensures ReadPort(Encode(port) + rest) == Ok((port, rest))
  {
    var s := Encode(port) + rest;
    assert s[..4] == Encode(port);
    assert s[4..] == rest;
  }

  /** Every four bytes that the relay can read are the encoding of the port
      they decode to: the encoding is onto, so no handshake is malformed
      once four bytes have arrived. */
  lemma ReadPortEncode(stream: seq<byte>)
    requires |stream| >= 4
    ensures Encode(ReadPort(stream).value.0) == stream[..4]
  {
    var b := stream[..4];
    var v := ReadPort(stream).value.0 as int;
    BigEndianOfFour(b);
    var hi := b[0] as int * 0x1_0000 + b[1] as int * 0x100 + b[2] as int;
    assert v == hi * 0x100 + b[3] as int;
    assert v / 0x100 == hi && v % 0x100 == b[3] as int;
    var mid := b[0] as int * 0x100 + b[1] as int;
    assert hi == mid * 0x100 + b[2] as int;
    assert hi / 0x100 == mid && hi % 0x100 == b[2] as int;
    assert mid / 0x100 == b[0] as int && mid % 0x100 == b[1] as int;
  }

  /** Distinct ports never share an encoding. */
  lemma EncodeInjective(p: uint32, q: uint32)
    requires Encode(p) == Encode(q)
    ensures p == q
  {
  }
}
