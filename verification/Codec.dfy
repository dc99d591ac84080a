/** The packet frame: an 8-byte header (version, big-endian id, flags, big-endian sequence number)
    and a payload that may be compressed. The compressor is a parameter. */
module Codec {
  import opened Ids

  type Byte = x: int | 0 <= x < 0x100

  type UInt16 = x: int | 0 <= x < 0x1_0000

  type UInt32 = x: int | 0 <= x < 0x1_0000_0000

  type Bytes = seq<Byte>

  /** A compressor and its inverse; either may fail. */
  type Zip = Bytes -> Option<Bytes>

  const HEADER_SIZE := 8

  const VERSION: Byte := 1

  const COMPRESS_MIN_SIZE := 128

  ghost predicate Invertible(zip: Zip, unzip: Zip) {
    forall p: Bytes :: zip(p).Some? ==> unzip(zip(p).value) == Some(p)
  }

  datatype Packet = Packet(version: Byte, id: UInt16, payload: Bytes, compressed: bool, seqno: UInt32)

  datatype Decoded = Good(packet: Packet) | TooShort | BadVersion(version: Byte) | BadGzip

  // ---------- header fields ----------

  function Put16(v: UInt16): (b: Bytes)
    ensures |b| == 2
  {
    [v / 0x100, v % 0x100]
  }

  function Get16(b: Bytes): UInt16
    requires |b| == 2
  {
    var high: int := b[0];
    high * 0x100 + b[1]
  }

  function Put32(v: UInt32): (b: Bytes)
    ensures |b| == 4
  {
    Put16(v / 0x1_0000) + Put16(v % 0x1_0000)
  }

  function Get32(b: Bytes): UInt32
    requires |b| == 4
  {
    var high: int := Get16(b[..2]);
    high * 0x1_0000 + Get16(b[2..])
  }

  lemma RoundTrip16(v: UInt16, b: Bytes)
    requires |b| == 2
    ensures Get16(Put16(v)) == v && Put16(Get16(b)) == b
  {
  }

  lemma RoundTrip32(v: UInt32, b: Bytes)
    requires |b| == 4
    ensures Get32(Put32(v)) == v && Put32(Get32(b)) == b
  {
    RoundTrip16(v / 0x1_0000, b[..2]);
    RoundTrip16(v % 0x1_0000, b[2..]);
    assert Put32(v)[..2] == Put16(v / 0x1_0000) && Put32(v)[2..] == Put16(v % 0x1_0000);
    assert b[..2] + b[2..] == b;
  }

  // ---------- frames ----------

  /** What is sent for a payload and whether it is compressed: only if asked for, only above the
      minimum size and only if it helps. */
  function Body(payload: Bytes, compress: bool, zip: Zip): (Bytes, bool) {
    if compress && |payload| > COMPRESS_MIN_SIZE && zip(payload).Some? && |zip(payload).value| < |payload|
    then (zip(payload).value, true)
    else (payload, false)
  }

  function Frame(id: UInt16, payload: Bytes, compress: bool, seqno: UInt32, zip: Zip): Bytes {
    var (data, compressed) := Body(payload, compress, zip);
    [VERSION] + Put16(id) + [if compressed then 1 else 0] + Put32(seqno) + data
  }

  function Decode(p: Bytes, unzip: Zip): Decoded {
    if |p| < HEADER_SIZE then TooShort
    else if p[0] != VERSION then BadVersion(p[0])
    else
      var compressed := p[3] % 2 != 0;
      var data := p[HEADER_SIZE..];
      if compressed && unzip(data).None? then BadGzip
      else Good(Packet(p[0], Get16(p[1..3]), if compressed then unzip(data).value else data, compressed, Get32(p[4..8])))
  }

  lemma FrameFields(id: UInt16, payload: Bytes, compress: bool, seqno: UInt32, zip: Zip)
    ensures var f := Frame(id, payload, compress, seqno, zip);
            && |f| >= 8 && f[0] == VERSION && f[1..3] == Put16(id) && f[4..8] == Put32(seqno)
            && f[3] == (if Body(payload, compress, zip).1 then 1 else 0) && f[8..] == Body(payload, compress, zip).0
  {
    var (data, compressed) := Body(payload, compress, zip);
    var a, b, c, d := [VERSION], Put16(id), [if compressed then 1 else 0], Put32(seqno);
    assert (a + b + c + d + data)[1..3] == b;
    assert (a + b + c + d + data)[4..8] == d;
    assert (a + b + c + d + data)[8..] == data;
  }

  /** The header byte by byte: both numbers are big-endian. */
  lemma WireLayout(id: UInt16, payload: Bytes, compress: bool, seqno: UInt32, zip: Zip)
    ensures var f := Frame(id, payload, compress, seqno, zip);
            && |f| >= 8 && f[0] == 0x01 && f[3] in [0x00, 0x01]
            && (f[1] as int) * 0x100 + f[2] == id
            && (f[4] as int) * 0x100_0000 + (f[5] as int) * 0x1_0000 + (f[6] as int) * 0x100 + f[7] == seqno
  {
    FrameFields(id, payload, compress, seqno, zip);
    var f := Frame(id, payload, compress, seqno, zip);
    assert f[1] == f[1..3][0] && f[2] == f[1..3][1];
    assert f[4] == f[4..8][0] && f[5] == f[4..8][1] && f[6] == f[4..8][2] && f[7] == f[4..8][3];
  }

  /** A frame carries the compressed payload, and says so, if and only if that was asked for, the payload is
      longer than 128 bytes and compressing makes it shorter. */
  lemma CompressedIff(id: UInt16, payload: Bytes, compress: bool, seqno: UInt32, zip: Zip)
    ensures var f := Frame(id, payload, compress, seqno, zip);
            && |f| >= 8 && (f[3] == 1 <==> compress && |payload| > 128 && zip(payload).Some? && |zip(payload).value| < |payload|)
            && f[8..] == if f[3] == 1 then zip(payload).value else payload
  {
    FrameFields(id, payload, compress, seqno, zip);
  }

  /** What a frame decodes to, byte by byte: when each error is given, and what a good frame says. */
  lemma DecodesByBytes(p: Bytes, unzip: Zip)
    ensures Decode(p, unzip).TooShort? <==> |p| < 8
    ensures Decode(p, unzip).BadVersion? <==> |p| >= 8 && p[0] != 1
    ensures Decode(p, unzip).BadGzip? <==> |p| >= 8 && p[0] == 1 && p[3] % 2 == 1 && unzip(p[8..]).None?
    ensures Decode(p, unzip).Good? ==>
              var q := Decode(p, unzip).packet;
              && q.version == 1 && q.compressed == (p[3] % 2 == 1)
              && q.id == (p[1] as int) * 0x100 + p[2]
              && q.seqno == (p[4] as int) * 0x100_0000 + (p[5] as int) * 0x1_0000 + (p[6] as int) * 0x100 + p[7]
              && (if q.compressed then unzip(p[8..]) == Some(q.payload) else q.payload == p[8..])
  {
    if |p| >= 8 {
      assert p[4..8][..2] == p[4..6] && p[4..8][2..] == p[6..8];
    }
  }

  /** Every packet comes back as it was sent, and a frame is never longer than the plain one. */
  lemma EncodeThenDecode(id: UInt16, payload: Bytes, compress: bool, seqno: UInt32, zip: Zip, unzip: Zip)
    requires Invertible(zip, unzip)
    ensures var f := Frame(id, payload, compress, seqno, zip);
            && Decode(f, unzip) == Good(Packet(1, id, payload, Body(payload, compress, zip).1, seqno))
            && |f| <= HEADER_SIZE + |payload|
  {
    FrameFields(id, payload, compress, seqno, zip);
    RoundTrip16(id, Put16(id));
    RoundTrip32(seqno, Put32(seqno));
  }

  /** A frame that decodes uncompressed re-encodes to itself exactly if its flags byte is zero: the
      other seven flag bits are dropped without an error. */
  lemma DecodeThenEncodeIff(p: Bytes, zip: Zip, unzip: Zip)
    requires Decode(p, unzip).Good? && !Decode(p, unzip).packet.compressed
    ensures var q := Decode(p, unzip).packet;
            Frame(q.id, q.payload, false, q.seqno, zip) == p <==> p[3] == 0
  {
    var q := Decode(p, unzip).packet;
    FrameFields(q.id, q.payload, false, q.seqno, zip);
    RoundTrip16(q.id, p[1..3]);
    RoundTrip32(q.seqno, p[4..8]);
    var f := Frame(q.id, q.payload, false, q.seqno, zip);
    if p[3] == 0 {
      assert p == [p[0]] + p[1..3] + [p[3]] + p[4..8] + p[8..];
      assert f == [f[0]] + f[1..3] + [f[3]] + f[4..8] + f[8..];
    }
  }

  /** Encode: the header is written into a buffer of the final size, then the data is copied in. */
  method Encode(id: UInt16, payload: Bytes, compress: bool, seqno: UInt32, zip: Zip) returns (buf: array<Byte>)
    ensures fresh(buf) && buf[..] == Frame(id, payload, compress, seqno, zip)
  {
    var data, compressed := payload, false;
    if compress && |payload| > COMPRESS_MIN_SIZE {
      var zipped := zip(payload);
      if zipped.Some? && |zipped.value| < |payload| {
        data, compressed := zipped.value, true;
      }
    }
    buf := new Byte[HEADER_SIZE + |data|](_ => 0);
    buf[0] := VERSION;
    buf[1], buf[2] := Put16(id)[0], Put16(id)[1];
    buf[3] := if compressed then 1 else 0;
    buf[4], buf[5], buf[6], buf[7] := Put32(seqno)[0], Put32(seqno)[1], Put32(seqno)[2], Put32(seqno)[3];
    assert buf[..8] == [VERSION] + Put16(id) + [if compressed then 1 else 0] + Put32(seqno);
    Copy(buf, data);
    assert buf[..] == buf[..8] + buf[8..];
  }

  method Copy(buf: array<Byte>, data: Bytes)
    requires buf.Length == HEADER_SIZE + |data|
    modifies buf
    ensures buf[..8] == old(buf[..8]) && buf[8..] == data
  {
    for i := 0 to |data|
      invariant buf[..8] == old(buf[..8])
      invariant forall k :: 0 <= k < i ==> buf[8 + k] == data[k]
    {
      buf[8 + i] := data[i];
    }
  }
}
