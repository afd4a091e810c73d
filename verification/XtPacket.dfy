/**
 The PandarXT data packet: a 12-byte head, `blocks` blocks of an azimuth and
 `lasers` 4-byte units, and a 28-byte tail that ends in a factory byte and the
 UDP sequence.
 */
module XtPacket {
  import opened Common

  const HEAD_SIZE := 12
  const BLOCK_NUMBER := 8
  const BLOCK_HEADER_AZIMUTH := 2
  const UNIT_NUM := 32
  const UNIT_SIZE := 4
  const RESERVED_SIZE := 10
  const ECHO_SIZE := 1
  const ENGINE_VELOCITY := 2
  const UTC_SIZE := 6
  const TIMESTAMP_SIZE := 4
  const FACTORY_SIZE := 1
  const SEQUENCE_SIZE := 4
  const PACKET_TAIL_SIZE := 28
  const XT32_PACKET_SIZE := 1080
  const XT16_PACKET_SIZE := 568
  const XTM_PACKET_SIZE := 820

  datatype XtUnit = XtUnit(range: uint16, intensity: byte, confidence: byte)
  datatype XtBlock = XtBlock(azimuth: uint16, units: seq<XtUnit>)
  datatype XtData = XtData(
    protocolMajor: byte, protocolMinor: byte, laserNumber: byte, blockNumber: byte, returnType: byte, disUnit: byte,
    blocks: seq<XtBlock>,
    echo: byte, spinSpeed: uint16, utc: seq<byte>, timestamp: uint32, udpSequence: uint32)

  predicate SupportedSize(size: nat) {
    size == XT16_PACKET_SIZE || size == XTM_PACKET_SIZE || size == XT32_PACKET_SIZE
  }

  function Word16(a: byte, b: byte): uint16 {
    a + 0x100 * b
  }

  function Word32(a: byte, b: byte, c: byte, d: byte): uint32 {
    a + 0x100 * b + 0x1_0000 * c + 0x100_0000 * d
  }

  function BlockSize(lasers: nat): nat {
    BLOCK_HEADER_AZIMUTH + lasers * UNIT_SIZE
  }

  function PacketSize(blocks: nat, lasers: nat): nat {
    HEAD_SIZE + blocks * BlockSize(lasers) + PACKET_TAIL_SIZE
  }

  predicate LayoutOk(size: nat, blocks: nat, lasers: nat) {
    0 < blocks <= BLOCK_NUMBER && 0 < lasers <= UNIT_NUM && PacketSize(blocks, lasers) == size
  }

  function DecodeXtUdpSequence(data: seq<byte>): Option<uint32> {
    if !SupportedSize(|data|) then None
    else
      var offset := |data| - SEQUENCE_SIZE;
      Some(Word32(data[offset], data[offset + 1], data[offset + 2], data[offset + 3]))
  }

  // ------------------------------------------------- the layout by offsets

  function UnitAt(data: seq<byte>, at: nat): XtUnit
    requires at + UNIT_SIZE <= |data|
  {
    XtUnit(Word16(data[at], data[at + 1]), data[at + 2], data[at + 3])
  }

  function UnitsAt(data: seq<byte>, at: nat, lasers: nat): seq<XtUnit>
    requires at + lasers * UNIT_SIZE <= |data|
  {
    seq(lasers, u requires 0 <= u < lasers => UnitAt(data, at + u * UNIT_SIZE))
  }

  function BlockAt(data: seq<byte>, at: nat, lasers: nat): XtBlock
    requires at + BlockSize(lasers) <= |data|
  {
    XtBlock(Word16(data[at], data[at + 1]), UnitsAt(data, at + BLOCK_HEADER_AZIMUTH, lasers))
  }

  function BlockOffset(b: nat, lasers: nat): nat {
    HEAD_SIZE + Strides(b, BlockSize(lasers))
  }

  lemma BlockFits(b: nat, blocks: nat, lasers: nat)
    requires b < blocks
    ensures BlockOffset(b, lasers) + BlockSize(lasers) == BlockOffset(b + 1, lasers) <= BlockOffset(blocks, lasers)
  {
    StrideFits(b, blocks, BlockSize(lasers));
  }

  lemma TailFits(blocks: nat, lasers: nat)
    ensures BlockOffset(blocks, lasers) + PACKET_TAIL_SIZE == PacketSize(blocks, lasers)
  {
    StridesIsProduct(blocks, BlockSize(lasers));
  }

  function BlocksAt(data: seq<byte>, blocks: nat, lasers: nat): seq<XtBlock>
    requires BlockOffset(blocks, lasers) <= |data|
  {
    seq(blocks, b requires 0 <= b < blocks =>
      BlockFits(b, blocks, lasers);
      BlockAt(data, BlockOffset(b, lasers), lasers))
  }

  function Assemble(head: seq<byte>, blocks: seq<XtBlock>, tail: seq<byte>, sequence: uint32): XtData
    requires |head| == HEAD_SIZE && |tail| == PACKET_TAIL_SIZE
  {
    XtData(head[2], head[3], head[6], head[7], head[8], head[9], blocks,
           tail[10], Word16(tail[11], tail[12]), tail[13..19], Word32(tail[19], tail[20], tail[21], tail[22]), sequence)
  }

  predicate HeadOk(data: seq<byte>) {
    SupportedSize(|data|) && data[0] == 0xEE && data[1] == 0xFF && LayoutOk(|data|, data[7], data[6])
  }

  /** What the packet means: every field at its fixed offset. */
  function DecodeXt(data: seq<byte>): Option<XtData> {
    if !HeadOk(data) then None
    else
      TailFits(data[7], data[6]);
      Some(Assemble(data[..HEAD_SIZE], BlocksAt(data, data[7], data[6]), data[BlockOffset(data[7], data[6])..],
                    DecodeXtUdpSequence(data).value))
  }

  // --------------------------------------------------- the parser's walk

  method ParseXtUnits(data: seq<byte>, start: nat, lasers: nat) returns (units: seq<XtUnit>, index: nat)
    requires start + lasers * UNIT_SIZE <= |data|
    ensures units == UnitsAt(data, start, lasers) && index == start + lasers * UNIT_SIZE
  {
    units, index := [], start;
    for unit := 0 to lasers
      invariant index == start + unit * UNIT_SIZE
      invariant units == UnitsAt(data, start, unit)
    {
      units := units + [XtUnit(Word16(data[index], data[index + 1]), data[index + 2], data[index + 3])];
      index := index + UNIT_SIZE;
    }
  }

  /**
   The parser's running index visits exactly the fixed offsets, every read is in
   bounds, and the walk stops one factory byte before the sequence.
   */
  method ParseXtData(data: seq<byte>) returns (packet: Option<XtData>)
    ensures packet == DecodeXt(data)
  {
    if !SupportedSize(|data|) {
      return None;
    }
    var index := 0;
    var sob := Word16(data[index + 1], data[index]);
    var major, minor := data[index + 2], data[index + 3];
    var laserNumber, blockNumber := data[index + 6], data[index + 7];
    var returnType, disUnit := data[index + 8], data[index + 9];
    index := index + HEAD_SIZE;
    if sob != 0xEEFF {
      return None;
    }
    if !LayoutOk(|data|, blockNumber, laserNumber) {
      return None;
    }
    TailFits(blockNumber, laserNumber);
    var sequence := DecodeXtUdpSequence(data);
    if sequence.None? {
      return None;
    }
    var blocks: seq<XtBlock> := [];
    for block := 0 to blockNumber
      invariant index == BlockOffset(block, laserNumber) <= BlockOffset(blockNumber, laserNumber)
      invariant blocks == BlocksAt(data, block, laserNumber)
    {
      BlockFits(block, blockNumber, laserNumber);
      BlocksGrow(data, block, laserNumber);
      var azimuth := Word16(data[index], data[index + 1]);
      var units;
      units, index := ParseXtUnits(data, index + BLOCK_HEADER_AZIMUTH, laserNumber);
      blocks := blocks + [XtBlock(azimuth, units)];
    }
    index := index + RESERVED_SIZE;
    var echo := data[index];
    index := index + ECHO_SIZE;
    var spinSpeed := Word16(data[index], data[index + 1]);
    index := index + ENGINE_VELOCITY;
    var utc := data[index..index + 6];
    index := index + UTC_SIZE;
    var timestamp := Word32(data[index], data[index + 1], data[index + 2], data[index + 3]);
    assert index + TIMESTAMP_SIZE + FACTORY_SIZE == |data| - SEQUENCE_SIZE;
    TailReads(data, BlockOffset(blockNumber, laserNumber));
    return Some(XtData(major, minor, laserNumber, blockNumber, returnType, disUnit,
                       blocks, echo, spinSpeed, utc, timestamp, sequence.value));
  }

  /** The fields of the tail, by offset in the packet. */
  lemma TailReads(data: seq<byte>, at: nat)
    requires at + PACKET_TAIL_SIZE == |data|
    ensures var tail := data[at..];
            && tail[10] == data[at + 10] && tail[11] == data[at + 11] && tail[12] == data[at + 12]
            && tail[13..19] == data[at + 13..at + 19]
            && tail[19] == data[at + 19] && tail[20] == data[at + 20] && tail[21] == data[at + 21] && tail[22] == data[at + 22]
  {
  }

  lemma BlocksGrow(data: seq<byte>, b: nat, lasers: nat)
    requires BlockOffset(b + 1, lasers) <= |data|
    ensures BlockOffset(b, lasers) + BlockSize(lasers) == BlockOffset(b + 1, lasers)
    ensures BlocksAt(data, b + 1, lasers) == BlocksAt(data, b, lasers) + [BlockAt(data, BlockOffset(b, lasers), lasers)]
  {
    BlockFits(b, b + 1, lasers);
  }

  // ------------------------------------------------------------ an encoder

  /** The bytes the parser does not look at. */
  datatype Filler = Filler(head4: byte, head5: byte, head10: byte, head11: byte, reserved: seq<byte>, factory: byte)

  function Bytes16(v: uint16): seq<byte> {
    [v % 0x100, v / 0x100]
  }

  function Bytes32(v: uint32): seq<byte> {
    [v % 0x100, v / 0x100 % 0x100, v / 0x1_0000 % 0x100, v / 0x100_0000]
  }

  function EncodeUnit(u: XtUnit): seq<byte> {
    Bytes16(u.range) + [u.intensity, u.confidence]
  }

  function EncodeUnits(units: seq<XtUnit>): seq<seq<byte>> {
    seq(|units|, i requires 0 <= i < |units| => EncodeUnit(units[i]))
  }

  function EncodeBlock(b: XtBlock): seq<byte> {
    Bytes16(b.azimuth) + Flatten(EncodeUnits(b.units))
  }

  function EncodeBlocks(blocks: seq<XtBlock>): seq<seq<byte>> {
    seq(|blocks|, i requires 0 <= i < |blocks| => EncodeBlock(blocks[i]))
  }

  function EncodeHead(p: XtData, f: Filler): seq<byte> {
    [0xEE, 0xFF, p.protocolMajor, p.protocolMinor, f.head4, f.head5, p.laserNumber, p.blockNumber,
     p.returnType, p.disUnit, f.head10, f.head11]
  }

  function EncodeTail(p: XtData, f: Filler): seq<byte> {
    f.reserved + [p.echo] + Bytes16(p.spinSpeed) + p.utc + Bytes32(p.timestamp) + [f.factory] + Bytes32(p.udpSequence)
  }

  function EncodeXt(p: XtData, f: Filler): seq<byte> {
    EncodeHead(p, f) + Flatten(EncodeBlocks(p.blocks)) + EncodeTail(p, f)
  }

  ghost predicate WellFormed(p: XtData, f: Filler) {
    && 0 < p.blockNumber == |p.blocks| <= BLOCK_NUMBER
    && 0 < p.laserNumber <= UNIT_NUM
    && (forall i :: 0 <= i < |p.blocks| ==> |p.blocks[i].units| == p.laserNumber)
    && |p.utc| == 6 && |f.reserved| == RESERVED_SIZE
    && SupportedSize(PacketSize(p.blockNumber, p.laserNumber))
  }

  lemma Word16OfBytes(v: uint16)
    ensures Word16(Bytes16(v)[0], Bytes16(v)[1]) == v
  {
  }

  lemma Word32OfBytes(v: uint32)
    ensures var b := Bytes32(v); Word32(b[0], b[1], b[2], b[3]) == v
  {
    var q: int := v / 0x100;
    var r: int := v / 0x1_0000;
    assert q == 0x100 * r + q % 0x100;
    assert r == 0x100 * (v / 0x100_0000) + r % 0x100;
  }

  lemma Bytes16OfWord(a: byte, b: byte)
    ensures Bytes16(Word16(a, b)) == [a, b]
  {
  }

  /** The lowest digit and the rest of a number in some base. */
  lemma LowestDigit(digit: nat, rest: nat, base: nat)
    requires digit < base
    ensures (digit + base * rest) % base == digit && (digit + base * rest) / base == rest
  {
    var v := digit + base * rest;
    var q, r := v / base, v % base;
    assert base * q + r == v && base * (q - rest) == digit - r;
    MulMonotone(1, q - rest, base);
    MulMonotone(q - rest, -1, base);
  }

  lemma Bytes32OfWord(a: byte, b: byte, c: byte, d: byte)
    ensures Bytes32(Word32(a, b, c, d)) == [a, b, c, d]
  {
    var high: int, higher: int := b + 0x100 * c + 0x1_0000 * d, c + 0x100 * d;
    LowestDigit(a, high, 0x100);
    LowestDigit(b, higher, 0x100);
    LowestDigit(a + 0x100 * b, higher, 0x1_0000);
    LowestDigit(c, d, 0x100);
    LowestDigit(a + 0x100 * b + 0x1_0000 * c, d, 0x100_0000);
  }

  lemma UnitRoundTrip(data: seq<byte>, at: nat, u: XtUnit)
    requires HasAt(data, at, EncodeUnit(u))
    ensures UnitAt(data, at) == u
  {
    var e := EncodeUnit(u);
    assert e[0] == data[at] && e[1] == data[at + 1] && e[2] == data[at + 2] && e[3] == data[at + 3];
    Word16OfBytes(u.range);
  }

  lemma BlockRoundTrip(data: seq<byte>, at: nat, b: XtBlock, lasers: nat)
    requires |b.units| == lasers && HasAt(data, at, EncodeBlock(b))
    ensures at + BlockSize(lasers) <= |data| && BlockAt(data, at, lasers) == b
  {
    var body, azimuth := Flatten(EncodeUnits(b.units)), Bytes16(b.azimuth);
    HasAtConcat(data, at, azimuth, body);
    assert azimuth[0] == data[at] && azimuth[1] == data[at + 1];
    Word16OfBytes(b.azimuth);
    EncodedBlockSize(b, lasers);
    forall u | 0 <= u < lasers
      ensures UnitAt(data, at + BLOCK_HEADER_AZIMUTH + u * UNIT_SIZE) == b.units[u]
    {
      FlattenFixedWidth(EncodeUnits(b.units), UNIT_SIZE, u);
      StridesIsProduct(u, UNIT_SIZE);
      HasAtTransitive(data, at + 2, body, u * UNIT_SIZE, EncodeUnit(b.units[u]));
      UnitRoundTrip(data, at + 2 + u * UNIT_SIZE, b.units[u]);
    }
  }

  lemma EncodedBlockSize(b: XtBlock, lasers: nat)
    requires |b.units| == lasers
    ensures |EncodeBlock(b)| == BlockSize(lasers)
  {
    FlattenFixedWidth(EncodeUnits(b.units), UNIT_SIZE, 0);
    StridesIsProduct(lasers, UNIT_SIZE);
  }

  lemma EncodedBlockSizes(p: XtData, f: Filler)
    requires WellFormed(p, f)
    ensures forall i :: 0 <= i < |p.blocks| ==> |EncodeBlocks(p.blocks)[i]| == BlockSize(p.laserNumber)
    ensures HEAD_SIZE + |Flatten(EncodeBlocks(p.blocks))| == BlockOffset(p.blockNumber, p.laserNumber)
  {
    forall i | 0 <= i < |p.blocks|
      ensures |EncodeBlocks(p.blocks)[i]| == BlockSize(p.laserNumber)
    {
      EncodedBlockSize(p.blocks[i], p.laserNumber);
    }
    FlattenFixedWidth(EncodeBlocks(p.blocks), BlockSize(p.laserNumber), 0);
  }

  /** Where the three parts of an encoded packet lie. */
  lemma EncodedParts(p: XtData, f: Filler)
    requires WellFormed(p, f)
    ensures var data, at := EncodeXt(p, f), BlockOffset(p.blockNumber, p.laserNumber);
            && |data| == PacketSize(p.blockNumber, p.laserNumber) == at + PACKET_TAIL_SIZE
            && HasAt(data, 0, EncodeHead(p, f))
            && HasAt(data, HEAD_SIZE, Flatten(EncodeBlocks(p.blocks)))
            && HasAt(data, at, EncodeTail(p, f))
  {
    var head, body, tail := EncodeHead(p, f), Flatten(EncodeBlocks(p.blocks)), EncodeTail(p, f);
    EncodedBlockSizes(p, f);
    TailFits(p.blockNumber, p.laserNumber);
    TailFields(p, f);
    HasAtConcat(EncodeXt(p, f), 0, head + body, tail);
    HasAtConcat(EncodeXt(p, f), 0, head, body);
  }

  lemma BlocksRoundTrip(p: XtData, f: Filler, data: seq<byte>)
    requires WellFormed(p, f) && HasAt(data, HEAD_SIZE, Flatten(EncodeBlocks(p.blocks)))
    requires BlockOffset(p.blockNumber, p.laserNumber) <= |data|
    ensures BlocksAt(data, p.blockNumber, p.laserNumber) == p.blocks
  {
    var lasers := p.laserNumber as nat;
    EncodedBlockSizes(p, f);
    forall b | 0 <= b < p.blockNumber
      ensures BlockOffset(b, lasers) + BlockSize(lasers) <= |data| && BlockAt(data, BlockOffset(b, lasers), lasers) == p.blocks[b]
    {
      BlockFits(b, p.blockNumber, lasers);
      FlattenFixedWidth(EncodeBlocks(p.blocks), BlockSize(lasers), b);
      HasAtTransitive(data, HEAD_SIZE, Flatten(EncodeBlocks(p.blocks)), Strides(b, BlockSize(lasers)), EncodeBlock(p.blocks[b]));
      BlockRoundTrip(data, BlockOffset(b, lasers), p.blocks[b], lasers);
    }
  }

  lemma TailFields(p: XtData, f: Filler)
    requires |p.utc| == 6 && |f.reserved| == RESERVED_SIZE
    ensures var t := EncodeTail(p, f);
            && |t| == PACKET_TAIL_SIZE && t[10] == p.echo && Word16(t[11], t[12]) == p.spinSpeed
            && t[13..19] == p.utc && Word32(t[19], t[20], t[21], t[22]) == p.timestamp
            && t[23] == f.factory && Word32(t[24], t[25], t[26], t[27]) == p.udpSequence
  {
    Word16OfBytes(p.spinSpeed);
    Word32OfBytes(p.timestamp);
    Word32OfBytes(p.udpSequence);
  }

  lemma HeadFromParts(p: XtData, f: Filler, data: seq<byte>)
    requires WellFormed(p, f) && |data| == PacketSize(p.blockNumber, p.laserNumber) && HasAt(data, 0, EncodeHead(p, f))
    ensures HeadOk(data) && data[6] == p.laserNumber && data[7] == p.blockNumber
    ensures data[..HEAD_SIZE] == EncodeHead(p, f)
  {
    var head := EncodeHead(p, f);
    assert head[0] == data[0] && head[1] == data[1] && head[6] == data[6] && head[7] == data[7];
  }

  lemma TailFromParts(p: XtData, f: Filler, data: seq<byte>, at: nat)
    requires |p.utc| == 6 && |f.reserved| == RESERVED_SIZE && SupportedSize(|data|)
    requires |data| == at + PACKET_TAIL_SIZE && HasAt(data, at, EncodeTail(p, f))
    ensures data[at..] == EncodeTail(p, f)
    ensures DecodeXtUdpSequence(data) == Some(p.udpSequence)
  {
    TailFields(p, f);
    var tail := EncodeTail(p, f);
    assert tail[24] == data[at + 24] && tail[25] == data[at + 25] && tail[26] == data[at + 26] && tail[27] == data[at + 27];
  }

  lemma AssembleParts(p: XtData, f: Filler)
    requires |p.utc| == 6 && |f.reserved| == RESERVED_SIZE
    ensures |EncodeHead(p, f)| == HEAD_SIZE && |EncodeTail(p, f)| == PACKET_TAIL_SIZE
    ensures Assemble(EncodeHead(p, f), p.blocks, EncodeTail(p, f), p.udpSequence) == p
  {
    TailFields(p, f);
  }

  /** Decoding inverts encoding, whatever the ignored bytes are. */
  lemma DecodeInvertsEncode(p: XtData, f: Filler)
    requires WellFormed(p, f)
    ensures DecodeXt(EncodeXt(p, f)) == Some(p)
  {
    var data := EncodeXt(p, f);
    EncodedParts(p, f);
    HeadFromParts(p, f, data);
    BlocksRoundTrip(p, f, data);
    TailFromParts(p, f, data, BlockOffset(p.blockNumber, p.laserNumber));
    AssembleParts(p, f);
  }

  // ------------------------------------------------- what passes the check

  /** The packet size fixes the block and laser counts of the layout check. */
  lemma LayoutIsUnique(size: nat, blocks: nat, lasers: nat)
    ensures SupportedSize(size) && LayoutOk(size, blocks, lasers)
       <==> (size == 568 && blocks == 8 && lasers == 16) || (size == 820 && blocks == 6 && lasers == 32)
            || (size == 1080 && blocks == 8 && lasers == 32)
    ensures SupportedSize(size) <==> size == 568 || size == 820 || size == 1080
  {
    var w := BlockSize(lasers);
    assert blocks == 1 ==> blocks * w == w;
    assert blocks == 2 ==> blocks * w == 2 * w;
    assert blocks == 3 ==> blocks * w == 3 * w;
    assert blocks == 4 ==> blocks * w == 4 * w;
    assert blocks == 5 ==> blocks * w == 5 * w;
    assert blocks == 6 ==> blocks * w == 6 * w;
    assert blocks == 7 ==> blocks * w == 7 * w;
    assert blocks == 8 ==> blocks * w == 8 * w;
  }

  /** The bytes of a packet that the parser does not look at. */
  function FillerOf(data: seq<byte>): Filler
    requires |data| >= HEAD_SIZE + PACKET_TAIL_SIZE
  {
    var tail := data[|data| - PACKET_TAIL_SIZE..];
    Filler(data[4], data[5], data[10], data[11], tail[..10], tail[23])
  }

  /** A decoded packet is exactly an encoded one: its own filler gives back its bytes. */
  lemma EncodeInvertsDecode(data: seq<byte>)
    requires DecodeXt(data).Some?
    ensures WellFormed(DecodeXt(data).value, FillerOf(data)) && EncodeXt(DecodeXt(data).value, FillerOf(data)) == data
  {
    var p, f := DecodeXt(data).value, FillerOf(data);
    DecodedIsWellFormed(data, f);
    EncodedParts(p, f);
    EndsFromBytes(data);
    MiddleFromBytes(data);
    ThreeParts(data, EncodeHead(p, f), Flatten(EncodeBlocks(p.blocks)), EncodeTail(p, f));
  }

  /** Head and tail of a decoded packet, encoded again. */
  lemma EndsFromBytes(data: seq<byte>)
    requires DecodeXt(data).Some?
    ensures HasAt(data, 0, EncodeHead(DecodeXt(data).value, FillerOf(data)))
    ensures EncodeTail(DecodeXt(data).value, FillerOf(data)) == data[|data| - PACKET_TAIL_SIZE..]
  {
    TailFits(data[7], data[6]);
    TailFromBytes(data[|data| - PACKET_TAIL_SIZE..], DecodeXt(data).value, FillerOf(data));
  }

  /** Its blocks, encoded again. */
  lemma MiddleFromBytes(data: seq<byte>)
    requires DecodeXt(data).Some?
    ensures HasAt(data, HEAD_SIZE, Flatten(EncodeBlocks(DecodeXt(data).value.blocks)))
    ensures HEAD_SIZE + |Flatten(EncodeBlocks(DecodeXt(data).value.blocks))| == |data| - PACKET_TAIL_SIZE
  {
    TailFits(data[7], data[6]);
    BodyFromBytes(data, BlocksAt(data, data[7], data[6]), data[6]);
  }

  lemma ThreeParts(data: seq<byte>, head: seq<byte>, body: seq<byte>, tail: seq<byte>)
    requires HasAt(data, 0, head) && HasAt(data, |head|, body)
    requires |head| + |body| + |tail| == |data| && tail == data[|head| + |body|..]
    ensures head + body + tail == data
  {
    HasAtConcat(data, 0, head, body);
    HasAtConcat(data, 0, head + body, tail);
    HasAtAll(data, head + body + tail);
  }

  lemma DecodedIsWellFormed(data: seq<byte>, f: Filler)
    requires DecodeXt(data).Some? && |f.reserved| == RESERVED_SIZE
    ensures WellFormed(DecodeXt(data).value, f)
  {
    TailFits(data[7], data[6]);
  }

  lemma TailFromBytes(tail: seq<byte>, p: XtData, f: Filler)
    requires |tail| == PACKET_TAIL_SIZE && f.reserved == tail[..10] && f.factory == tail[23]
    requires p.echo == tail[10] && p.spinSpeed == Word16(tail[11], tail[12]) && p.utc == tail[13..19]
    requires p.timestamp == Word32(tail[19], tail[20], tail[21], tail[22])
    requires p.udpSequence == Word32(tail[24], tail[25], tail[26], tail[27])
    ensures EncodeTail(p, f) == tail
  {
    Bytes16OfWord(tail[11], tail[12]);
    Bytes32OfWord(tail[19], tail[20], tail[21], tail[22]);
    Bytes32OfWord(tail[24], tail[25], tail[26], tail[27]);
    HasAtAll(tail, EncodeTail(p, f));
  }

  lemma {:induction false} UnitsFromBytes(data: seq<byte>, at: nat, n: nat)
    requires at + n * UNIT_SIZE <= |data|
    ensures HasAt(data, at, Flatten(EncodeUnits(UnitsAt(data, at, n))))
    ensures |Flatten(EncodeUnits(UnitsAt(data, at, n)))| == n * UNIT_SIZE
  {
    if n > 0 {
      UnitsFromBytes(data, at, n - 1);
      var i := at + (n - 1) * UNIT_SIZE;
      assert Front(EncodeUnits(UnitsAt(data, at, n))) == EncodeUnits(UnitsAt(data, at, n - 1));
      Bytes16OfWord(data[i], data[i + 1]);
      assert HasAt(data, i, EncodeUnit(UnitAt(data, i)));
      HasAtConcat(data, at, Flatten(EncodeUnits(UnitsAt(data, at, n - 1))), EncodeUnit(UnitAt(data, i)));
    }
  }

  lemma EncodeBlocksSnoc(blocks: seq<XtBlock>, b: XtBlock)
    ensures EncodeBlocks(blocks + [b]) == EncodeBlocks(blocks) + [EncodeBlock(b)]
  {
  }

  lemma BodyGrows(data: seq<byte>, blocks: seq<XtBlock>, b: XtBlock)
    requires HasAt(data, HEAD_SIZE, Flatten(EncodeBlocks(blocks)))
    requires HasAt(data, HEAD_SIZE + |Flatten(EncodeBlocks(blocks))|, EncodeBlock(b))
    ensures HasAt(data, HEAD_SIZE, Flatten(EncodeBlocks(blocks + [b])))
    ensures |Flatten(EncodeBlocks(blocks + [b]))| == |Flatten(EncodeBlocks(blocks))| + |EncodeBlock(b)|
  {
    EncodeBlocksSnoc(blocks, b);
    FlattenSnoc(EncodeBlocks(blocks), EncodeBlock(b));
    HasAtConcat(data, HEAD_SIZE, Flatten(EncodeBlocks(blocks)), EncodeBlock(b));
  }

  lemma {:induction false} BodyFromBytes(data: seq<byte>, blocks: seq<XtBlock>, lasers: nat)
    requires BlockOffset(|blocks|, lasers) <= |data|
    requires blocks == BlocksAt(data, |blocks|, lasers)
    ensures HasAt(data, HEAD_SIZE, Flatten(EncodeBlocks(blocks)))
    ensures HEAD_SIZE + |Flatten(EncodeBlocks(blocks))| == BlockOffset(|blocks|, lasers)
  {
    if blocks != [] {
      var rest, at := Front(blocks), BlockOffset(|blocks| - 1, lasers);
      BlocksGrow(data, |rest|, lasers);
      assert rest == BlocksAt(data, |rest|, lasers) && blocks == rest + [BlockAt(data, at, lasers)];
      BodyFromBytes(data, rest, lasers);
      BlockFromBytes(data, at, lasers);
      BodyGrows(data, rest, BlockAt(data, at, lasers));
    }
  }

  lemma BlockFromBytes(data: seq<byte>, at: nat, lasers: nat)
    requires at + BlockSize(lasers) <= |data|
    ensures HasAt(data, at, EncodeBlock(BlockAt(data, at, lasers)))
    ensures |EncodeBlock(BlockAt(data, at, lasers))| == BlockSize(lasers)
  {
    var b := BlockAt(data, at, lasers);
    Bytes16OfWord(data[at], data[at + 1]);
    UnitsFromBytes(data, at + 2, lasers);
    assert HasAt(data, at, Bytes16(b.azimuth));
    HasAtConcat(data, at, Bytes16(b.azimuth), Flatten(EncodeUnits(b.units)));
  }
}
