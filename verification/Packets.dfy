/** The wire format (packet.h, packet.c): the packed struct, the control packets and their checksums. */
module Packets {

  type byte = x: int | 0 <= x < 0x100
  type uint16 = x: int | 0 <= x < 0x1_0000
  type uint32 = x: int | 0 <= x < 0x1_0000_0000

  const U16_SIZE := 0x1_0000
  const U32_SIZE := 0x1_0000_0000

  const PKT_TYPE_CXN: byte := 0xFF
  const PKT_TYPE_CXN2: byte := 0xEE
  const PKT_TYPE_RR: byte := 0xAA
  const PKT_TYPE_REJ: byte := 0x55
  const PKT_TYPE_BUF: byte := 0x99
  const PKT_TYPE_FLN: byte := 0x33
  const PKT_TYPE_DAT: byte := 0xBB
  const PKT_TYPE_WIN: byte := 0xCC

  const PKT_DMAX := 1400
  const PKT_TRNSMAX := 10

  /** The payload array `uint8_t data[PKT_DMAX]`. */
  type Data = d: seq<byte> | |d| == PKT_DMAX witness seq(PKT_DMAX, _ => 0)

  datatype Packet = Packet(typ: byte, sequence: uint32, checksum: uint16, size: uint16, data: Data)

  /** `in_cksum` over one packet: any function of the packet's contents. */
  type Checksum = Packet -> uint16

  /** `++` on an `unsigned int`. */
  function Inc(x: uint32): uint32 {
    (x + 1) % U32_SIZE
  }

  /** `memset(&pkt, b, sizeof(packet))`. */
  function Memset(b: byte): Packet {
    Packet(b, 0x0101_0101 * b, 0x0101 * b, 0x0101 * b, seq(PKT_DMAX, _ => b))
  }

  /** Zero the checksum field, then store the checksum of the packet in it. */
  function Seal(cksum: Checksum, p: Packet): Packet {
    var zeroed := p.(checksum := 0);
    zeroed.(checksum := cksum(zeroed))
  }

  /** `rrpkt` */
  function RrPkt(cksum: Checksum, sequence: uint32): Packet {
    Seal(cksum, Memset(PKT_TYPE_RR).(sequence := sequence))
  }

  /** `rejpkt` */
  function RejPkt(cksum: Checksum, sequence: uint32): Packet {
    Seal(cksum, Memset(PKT_TYPE_REJ).(sequence := sequence))
  }

  /** Bytes read into a zero-initialised payload array; what does not fit the array is cut off. */
  function Pad(bytes: seq<byte>): Data {
    if |bytes| <= PKT_DMAX then bytes + seq(PKT_DMAX - |bytes|, _ => 0) else bytes[..PKT_DMAX]
  }

  /** The data packet `fillWindow` builds from one `read`. */
  function DatPkt(cksum: Checksum, sequence: uint32, bytes: seq<byte>): Packet {
    Seal(cksum, Packet(PKT_TYPE_DAT, sequence, 0, |bytes| % U16_SIZE, Pad(bytes)))
  }

  predicate Intact(cksum: Checksum, p: Packet) {
    cksum(p.(checksum := 0)) == p.checksum
  }

  /** What one wait for a datagram brings: nothing for a second, a failing `recvfrom`, or a packet. */
  datatype Event = Timeout | RecvError | Arrive(p: Packet)

  /** The three results of `recvPacket`: 1, 2 and 0. */
  datatype Received = Failed | Again | Got(p: Packet)

  /** `recvPacket` of either side: the new retry counter and the result. */
  function Receive(cksum: Checksum, retries: int, e: Event): (int, Received) {
    match e
    case Timeout => (retries - 1, Again)
    case RecvError => (PKT_TRNSMAX, Failed)
    case Arrive(p) => if Intact(cksum, p) then (PKT_TRNSMAX, Got(p)) else (PKT_TRNSMAX - 1, Again)
  }

  /** A NUL-terminated string read back from a payload. */
  function CString(d: seq<byte>): seq<byte> {
    if d == [] || d[0] == 0 then [] else [d[0]] + CString(d[1..])
  }

  // ----- the packed struct as bytes

  const PKT_SIZE := 1 + 4 + 2 + 2 + PKT_DMAX

  /** An unsigned field of `width` bytes in memory order; the byte order is little-endian. */
  function Field(x: nat, width: nat): (r: seq<byte>)
    ensures |r| == width
  {
    if width == 0 then [] else [x % 0x100] + Field(x / 0x100, width - 1)
  }

  function Value(bytes: seq<byte>): nat {
    if bytes == [] then 0 else bytes[0] + 0x100 * Value(bytes[1..])
  }

  /** What `sendto` puts on the wire. */
  function Wire(p: Packet): (r: seq<byte>)
    ensures |r| == PKT_SIZE
  {
    [p.typ] + Field(p.sequence, 4) + Field(p.checksum, 2) + Field(p.size, 2) + p.data
  }

  /** What `recvfrom` puts in the struct. */
  function Parse(bytes: seq<byte>): Packet
    requires |bytes| == PKT_SIZE
  {
    ValueBounds(bytes[1..5]);
    ValueBounds(bytes[5..7]);
    ValueBounds(bytes[7..9]);
    Packet(bytes[0], Value(bytes[1..5]), Value(bytes[5..7]), Value(bytes[7..9]), bytes[9..])
  }

  function Power(n: nat): nat {
    if n == 0 then 1 else 0x100 * Power(n - 1)
  }

  lemma {:induction false} ValueBounds(bytes: seq<byte>)
    ensures Value(bytes) < Power(|bytes|)
    ensures Power(2) == U16_SIZE && Power(4) == U32_SIZE
  {
    assert Power(2) == 0x100 * Power(1) && Power(4) == 0x100 * Power(3) == 0x1_0000 * Power(2);
    if bytes != [] {
      ValueBounds(bytes[1..]);
    }
  }

  lemma {:induction false} ValueOfField(x: nat, width: nat)
    requires x < Power(width)
    ensures Value(Field(x, width)) == x
  {
    if width > 0 {
      ValueOfField(x / 0x100, width - 1);
      assert Field(x, width)[1..] == Field(x / 0x100, width - 1);
    }
  }

  lemma {:induction false} FieldOfValue(bytes: seq<byte>)
    ensures Field(Value(bytes), |bytes|) == bytes
  {
    if bytes != [] {
      FieldOfValue(bytes[1..]);
      var rest := Value(bytes[1..]);
      assert (bytes[0] + 0x100 * rest) % 0x100 == bytes[0] && (bytes[0] + 0x100 * rest) / 0x100 == rest;
    }
  }

  /** A packet sent and received is the same packet. */
  lemma ParseWire(p: Packet)
    ensures Parse(Wire(p)) == p
  {
    ValueBounds([]);
    ValueOfField(p.sequence, 4);
    ValueOfField(p.checksum, 2);
    ValueOfField(p.size, 2);
    var w := Wire(p);
    assert w[1..5] == Field(p.sequence, 4) && w[5..7] == Field(p.checksum, 2) && w[7..9] == Field(p.size, 2);
    assert w[9..] == p.data;
  }

  /** And every run of bytes of that length is a packet. */
  lemma WireParse(bytes: seq<byte>)
    requires |bytes| == PKT_SIZE
    ensures Wire(Parse(bytes)) == bytes
  {
    FieldOfValue(bytes[1..5]);
    FieldOfValue(bytes[5..7]);
    FieldOfValue(bytes[7..9]);
    hide Field, Value;
    assert bytes == [bytes[0]] + bytes[1..5] + bytes[5..7] + bytes[7..9] + bytes[9..];
  }

  lemma {:induction false} FieldOfByte(b: byte, width: nat, x: nat)
    requires (width == 2 && x == 0x0101 * b) || (width == 4 && x == 0x0101_0101 * b)
    ensures Field(x, width) == seq(width, _ => b)
  {
    var r := seq(width, _ => b);
    assert Field(x, width) == [x % 0x100] + Field(x / 0x100, width - 1);
    assert Value(r) == x by {
      ValueOfCopies(b, width);
    }
    FieldOfValue(r);
  }

  lemma {:induction false} ValueOfCopies(b: byte, width: nat)
    requires width == 2 || width == 4
    ensures Value(seq(width, _ => b)) == if width == 2 then 0x0101 * b else 0x0101_0101 * b
  {
    var r := seq(width, _ => b);
    assert r[1..][1..] == r[2..];
    if width == 2 {
      assert Value(r) == b + 0x100 * Value(r[1..]);
    } else {
      ValueOfCopies(b, 2);
      assert r[2..] == seq(2, _ => b);
      assert Value(r) == b + 0x100 * Value(r[1..]) == b + 0x100 * (b + 0x100 * Value(r[2..]));
    }
  }

  /** `memset` fills every byte of the struct. */
  lemma MemsetFills(b: byte)
    ensures Wire(Memset(b)) == seq(PKT_SIZE, _ => b)
  {
    FieldOfByte(b, 2, 0x0101 * b);
    FieldOfByte(b, 4, 0x0101_0101 * b);
    hide Field;
  }

  /** A packet of this type and number, sealed, with every other byte the type byte. */
  ghost predicate Uniform(cksum: Checksum, p: Packet, typ: byte, k: uint32) {
    && p.typ == typ && p.sequence == k && p.checksum == cksum(p.(checksum := 0))
    && forall i :: 7 <= i < PKT_SIZE ==> Wire(p)[i] == typ
  }

  lemma UniformTail(cksum: Checksum, p: Packet, k: uint32)
    requires p == Seal(cksum, Memset(p.typ).(sequence := k))
    ensures Uniform(cksum, p, p.typ, k)
  {
    var m := Memset(p.typ);
    MemsetFills(p.typ);
    assert Wire(p)[7..] == Field(p.size, 2) + p.data == Wire(m)[7..];
    assert forall i :: 7 <= i < PKT_SIZE ==> Wire(p)[i] == Wire(p)[7..][i - 7] == Wire(m)[7..][i - 7];
  }

  /** RR and REJ are their type byte throughout, but for the number and the checksum. */
  lemma ControlBytes(cksum: Checksum, k: uint32)
    ensures Uniform(cksum, RrPkt(cksum, k), 0xAA, k)
    ensures Uniform(cksum, RejPkt(cksum, k), 0x55, k)
  {
    UniformTail(cksum, RrPkt(cksum, k), k);
    UniformTail(cksum, RejPkt(cksum, k), k);
    hide Uniform;
  }

  /** A data packet carries what was read, and zeros behind it. */
  lemma DataBytes(cksum: Checksum, k: uint32, bytes: seq<byte>)
    requires |bytes| <= PKT_DMAX
    ensures var p := DatPkt(cksum, k, bytes);
      && p.typ == 0xBB && p.sequence == k && p.size == |bytes| && p.checksum == cksum(p.(checksum := 0))
      && Wire(p)[9..] == bytes + seq(PKT_DMAX - |bytes|, _ => 0)
  {
  }

  /** Every packet built by either side and delivered unaltered is accepted, whatever `in_cksum` computes. */
  lemma SealedIsAccepted(cksum: Checksum, p: Packet, retries: int)
    ensures Receive(cksum, retries, Arrive(Seal(cksum, p))) == (PKT_TRNSMAX, Got(Seal(cksum, p)))
  {
  }

  /** A change confined to the checksum field is rejected, whatever `in_cksum` computes. */
  lemma ChecksumFieldIsUnique(cksum: Checksum, p: Packet, other: uint16, retries: int)
    requires Intact(cksum, p)
    ensures Receive(cksum, retries, Arrive(p.(checksum := other))).1 == Again <==> other != p.checksum
  {
  }

  /** A name without NUL bytes, written with its terminator, is read back unchanged. */
  lemma {:induction false} CStringRoundTrip(name: seq<byte>, rest: seq<byte>)
    requires 0 !in name
    ensures CString(name + [0] + rest) == name
  {
    if name != [] {
      CStringRoundTrip(name[1..], rest);
      assert (name + [0] + rest)[1..] == name[1..] + [0] + rest;
    }
  }
}
