/** The ten-byte packet header: field offsets, big-endian byte order, and the
    in-place encoder and decoder of pkg/metadata. */
module MetadataCodec {

  type byte = b: int | 0 <= b < 0x100
  type uint16 = v: int | 0 <= v < 0x1_0000
  type uint32 = v: int | 0 <= v < 0x1_0000_0000

  const PACKET_MAGIC_HEADER: uint16 := 0x0F

  const MAGIC_OFFSET := 0
  const ID_OFFSET := 2
  const OPERATION_OFFSET := 4
  const CONTENT_LENGTH_OFFSET := 6
  const SIZE := 10

  /** A decoded header, the value of a Metadata struct. */
  datatype Header = Header(magic: uint16, id: uint16, operation: uint16, contentLength: uint32)

  datatype Result<T> = Ok(value: T) | InvalidBufferLength

  // Big-endian integers as byte strings

  function Big16(v: uint16): (s: seq<byte>)
    ensures |s| == 2
  {
    [v / 0x100, v % 0x100]
  }

  function Big32(v: uint32): (s: seq<byte>)
    ensures |s| == 4
  {
    [v / 0x100_0000, v / 0x1_0000 % 0x100, v / 0x100 % 0x100, v % 0x100]
  }

  function Join16(b0: int, b1: int): int {
    b0 * 0x100 + b1
  }

  function Join32(b0: int, b1: int, b2: int, b3: int): int {
    b0 * 0x100_0000 + b1 * 0x1_0000 + b2 * 0x100 + b3
  }

  function Read16(s: seq<byte>, at: nat): uint16
    requires at + 2 <= |s|
  {
    Join16(s[at], s[at + 1])
  }

  function Read32(s: seq<byte>, at: nat): uint32
    requires at + 4 <= |s|
  {
    Join32(s[at], s[at + 1], s[at + 2], s[at + 3])
  }

  // The header as a byte string

  function HeaderBytes(h: Header): (s: seq<byte>)
    ensures |s| == SIZE
  {
    Big16(h.magic) + Big16(h.id) + Big16(h.operation) + Big32(h.contentLength)
  }

  function ParseHeader(s: seq<byte>): Header
    requires SIZE <= |s|
  {
    Header(Read16(s, MAGIC_OFFSET), Read16(s, ID_OFFSET),
           Read16(s, OPERATION_OFFSET), Read32(s, CONTENT_LENGTH_OFFSET))
  }

  lemma Big32RoundTrip(v: uint32)
    ensures Read32(Big32(v), 0) == v
  {
    var q := v / 0x100;
    assert v == q * 0x100 + v % 0x100;
    assert q == q / 0x100 * 0x100 + q % 0x100;
    assert v / 0x1_0000 == q / 0x100;
    assert v / 0x100_0000 == q / 0x100 / 0x100;
  }

  /** Decoding a header that is followed by anything at all gives the header back. */
  lemma HeaderRoundTrip(h: Header, rest: seq<byte>)
    ensures ParseHeader(HeaderBytes(h) + rest) == h
  {
    Big32RoundTrip(h.contentLength);
    var s := HeaderBytes(h) + rest;
    assert s[MAGIC_OFFSET..ID_OFFSET] == Big16(h.magic);
    assert s[ID_OFFSET..OPERATION_OFFSET] == Big16(h.id);
    assert s[OPERATION_OFFSET..CONTENT_LENGTH_OFFSET] == Big16(h.operation);
    assert s[CONTENT_LENGTH_OFFSET..SIZE] == Big32(h.contentLength);
    assert s[6] == Big32(h.contentLength)[0] && s[7] == Big32(h.contentLength)[1];
    assert s[8] == Big32(h.contentLength)[2] && s[9] == Big32(h.contentLength)[3];
  }

  lemma LowByte(q: nat, r: byte)
    ensures (q * 0x100 + r) / 0x100 == q && (q * 0x100 + r) % 0x100 == r
  {
  }

  lemma Read32RoundTrip(s: seq<byte>)
    requires |s| == 4
    ensures Big32(Read32(s, 0)) == s
  {
    var q1 := Join16(s[0], s[1]);
    var q2 := q1 * 0x100 + s[2];
    var v := q2 * 0x100 + s[3];
    LowByte(s[0], s[1]);
    LowByte(q1, s[2]);
    LowByte(q2, s[3]);
    assert Read32(s, 0) == v;
    assert v / 0x1_0000 == v / 0x100 / 0x100 && v / 0x100_0000 == v / 0x1_0000 / 0x100;
  }

  /** Every ten-byte string is the encoding of the header it decodes to, so the
      two directions are inverse bijections. */
  lemma BytesRoundTrip(s: seq<byte>)
    requires |s| == SIZE
    ensures HeaderBytes(ParseHeader(s)) == s
  {
    Read32RoundTrip(s[6..10]);
    var h := ParseHeader(s);
    assert Big32(h.contentLength) == s[6..10];
    assert Big16(h.magic) == s[0..2] && Big16(h.id) == s[2..4] && Big16(h.operation) == s[4..6];
  }

  /** The header byte by byte: big-endian fields at offsets 0, 2, 4 and 6. */
  lemma Layout(h: Header)
    ensures var s := HeaderBytes(h);
      && s[0] == h.magic / 256 && s[1] == h.magic % 256 && s[2] == h.id / 256 && s[3] == h.id % 256
      && s[4] == h.operation / 256 && s[5] == h.operation % 256
      && s[6] == h.contentLength / 16777216 && s[7] == h.contentLength / 65536 % 256
      && s[8] == h.contentLength / 256 % 256 && s[9] == h.contentLength % 256
  {
  }

  // The imperative encoder and decoder

  /** binary.BigEndian.PutUint16 on a slice of the buffer. */
  method PutUint16(b: array<byte>, at: nat, v: uint16)
    requires at + 2 <= b.Length
    modifies b
    ensures b[..] == old(b[..at]) + Big16(v) + old(b[at + 2..])
  {
    b[at] := v / 0x100;
    b[at + 1] := v % 0x100;
  }

  /** binary.BigEndian.PutUint32 on a slice of the buffer. */
  method PutUint32(b: array<byte>, at: nat, v: uint32)
    requires at + 4 <= b.Length
    modifies b
    ensures b[..] == old(b[..at]) + Big32(v) + old(b[at + 4..])
  {
    b[at] := v / 0x100_0000;
    b[at + 1] := v / 0x1_0000 % 0x100;
    b[at + 2] := v / 0x100 % 0x100;
    b[at + 3] := v % 0x100;
  }

  class Metadata {
    var magic: uint16
    var id: uint16
    var operation: uint16
    var contentLength: uint32

    function View(): Header
      reads this
    {
      Header(magic, id, operation, contentLength)
    }

    constructor (h: Header)
      ensures View() == h
    {
      magic, id, operation, contentLength := h.magic, h.id, h.operation, h.contentLength;
    }

    /** Fills a fresh ten-byte buffer field by field. */
    method Encode() returns (b: array<byte>)
      ensures fresh(b)
      ensures b[..] == HeaderBytes(View())
    {
      b := new byte[SIZE];
      PutUint16(b, MAGIC_OFFSET, magic);
      PutUint16(b, ID_OFFSET, id);
      PutUint16(b, OPERATION_OFFSET, operation);
      PutUint32(b, CONTENT_LENGTH_OFFSET, contentLength);
      assert b[..0] == [];
      assert b[..] == Big16(magic) + Big16(id) + Big16(operation) + Big32(contentLength);
    }

    /** Overwrites every field from the buffer. */
    method Decode(b: array<byte>)
      requires SIZE <= b.Length
      modifies this
      ensures View() == ParseHeader(b[..])
      ensures b[..SIZE] == HeaderBytes(View())
    {
      magic := Join16(b[0], b[1]);
      id := Join16(b[2], b[3]);
      operation := Join16(b[4], b[5]);
      contentLength := Join32(b[6], b[7], b[8], b[9]);
      BytesRoundTrip(b[..SIZE]);
      assert View() == ParseHeader(b[..SIZE]);
    }
  }

  /** The package-level encoder, which fixes the magic. */
  method EncodeMetadata(id: uint16, operation: uint16, contentLength: uint32) returns (b: array<byte>)
    ensures b.Length == 10
    ensures b[0] == 0x00 && b[1] == 0x0F
    ensures b[2] == id / 256 && b[3] == id % 256
    ensures b[4] == operation / 256 && b[5] == operation % 256
    ensures b[6] == contentLength / 16777216 && b[7] == contentLength / 65536 % 256
    ensures b[8] == contentLength / 256 % 256 && b[9] == contentLength % 256
    ensures ParseHeader(b[..]) == Header(PACKET_MAGIC_HEADER, id, operation, contentLength)
  {
    var m := new Metadata(Header(PACKET_MAGIC_HEADER, id, operation, contentLength));
    b := m.Encode();
    Layout(m.View());
    HeaderRoundTrip(m.View(), []);
    assert b[..] + [] == b[..];
  }

  /** The package-level decoder: it refuses a buffer shorter than a header and
      ignores whatever follows the header. */
  method DecodeMetadata(b: array<byte>) returns (r: Result<Header>)
    ensures r.InvalidBufferLength? <==> b.Length < SIZE
    ensures r.Ok? ==> HeaderBytes(r.value) == b[..SIZE]
  {
    if b.Length < SIZE {
      return InvalidBufferLength;
    }
    var m := new Metadata(Header(0, 0, 0, 0));
    m.Decode(b);
    r := Ok(m.View());
  }
}
