/**
 Serialization of a point cloud into the compact PointCloud2 layout: 26 bytes a
 point, no padding, fields in host byte order. Floating-point fields are carried
 as their bit patterns.
 */
module PointCloud2 {
  import opened Common

  const POINT_STEP := 26
  const MAX_UINT32 := 0xFFFF_FFFF

  type uint64 = x: int | 0 <= x < 0x1_0000_0000_0000_0000

  datatype Point = Point(x: uint32, y: uint32, z: uint32, intensity: uint32, timestamp: uint64, ring: uint16)

  datatype Cloud = Cloud(frameId: string, height: uint32, width: uint32, isDense: bool, points: seq<Point>)

  datatype FieldType = UInt16 | Float32 | Float64

  datatype Field = Field(name: string, offset: nat, datatype_: FieldType, count: nat)

  datatype Message = Message(
    frameId: string, height: uint32, width: uint32, fields: seq<Field>, isBigEndian: bool,
    pointStep: nat, rowStep: nat, data: seq<byte>, isDense: bool)

  datatype Outcome = Serialized(message: Message) | TooManyPoints | RowTooLong

  const FIELDS: seq<Field> := [
    Field("x", 0, Float32, 1), Field("y", 4, Float32, 1), Field("z", 8, Float32, 1), Field("intensity", 12, Float32, 1),
    Field("timestamp", 16, Float64, 1), Field("ring", 24, UInt16, 1)]

  // -------------------------------------------------------------- byte order

  /** `n` bytes of `v`, least significant first. */
  function Little(v: nat, n: nat): (r: seq<byte>)
    ensures |r| == n
    decreases n, v
  {
    if n == 0 then [] else [v % 0x100] + Little(v / 0x100, n - 1)
  }

  function FromLittle(bytes: seq<byte>): nat {
    if bytes == [] then 0 else bytes[0] + 0x100 * FromLittle(bytes[1..])
  }

  function Pow256(n: nat): nat {
    if n == 0 then 1 else 0x100 * Pow256(n - 1)
  }

  function Reverse<T>(xs: seq<T>): (r: seq<T>)
    ensures |r| == |xs| && forall i :: 0 <= i < |xs| ==> r[i] == xs[|xs| - 1 - i]
  {
    seq(|xs|, i requires 0 <= i < |xs| => xs[|xs| - 1 - i])
  }

  function Store(v: nat, n: nat, bigEndian: bool): (r: seq<byte>)
    ensures |r| == n
  {
    if bigEndian then Reverse(Little(v, n)) else Little(v, n)
  }

  function Load(bytes: seq<byte>, bigEndian: bool): nat {
    FromLittle(if bigEndian then Reverse(bytes) else bytes)
  }

  lemma {:induction false} LittleRoundTrip(v: nat, n: nat)
    requires v < Pow256(n)
    ensures FromLittle(Little(v, n)) == v
    decreases n
  {
    if n > 0 {
      LittleRoundTrip(v / 0x100, n - 1);
      assert Little(v, n)[1..] == Little(v / 0x100, n - 1);
    }
  }

  lemma LoadInvertsStore(v: nat, n: nat, bigEndian: bool)
    requires v < Pow256(n)
    ensures Load(Store(v, n, bigEndian), bigEndian) == v
  {
    LittleRoundTrip(v, n);
    assert Reverse(Reverse(Little(v, n))) == Little(v, n);
  }

  // -------------------------------------------------------------- the layout

  /** The packed struct as it lies in memory. */
  function PointBytes(p: Point, bigEndian: bool): (r: seq<byte>)
    ensures |r| == POINT_STEP
  {
    Store(p.x, 4, bigEndian) + Store(p.y, 4, bigEndian) + Store(p.z, 4, bigEndian) + Store(p.intensity, 4, bigEndian)
    + Store(p.timestamp, 8, bigEndian) + Store(p.ring, 2, bigEndian)
  }

  function PointsBytes(points: seq<Point>, bigEndian: bool): seq<seq<byte>> {
    seq(|points|, i requires 0 <= i < |points| => PointBytes(points[i], bigEndian))
  }

  /** Height and width after normalization: a contradictory pair becomes one row. */
  function Dimensions(cloud: Cloud): (nat, nat) {
    if cloud.height == 0 || cloud.width * cloud.height != |cloud.points| then (1, |cloud.points|)
    else (cloud.height, cloud.width)
  }

  function Serialize(cloud: Cloud, bigEndian: bool): Outcome {
    var (height, width) := Dimensions(cloud);
    if |cloud.points| > MAX_UINT32 then TooManyPoints
    else if width > MAX_UINT32 / POINT_STEP then RowTooLong
    else Serialized(Message(cloud.frameId, height, width, FIELDS, bigEndian, POINT_STEP, width * POINT_STEP,
                            Flatten(PointsBytes(cloud.points, bigEndian)), cloud.isDense))
  }

  /** A cloud the fixed point buffer can hold is never too large to serialize, whatever dimensions it declares. */
  lemma BufferedCloudsSerialize(cloud: Cloud, bigEndian: bool)
    requires |cloud.points| <= 1_000_000
    ensures Serialize(cloud, bigEndian).Serialized?
  {
    if cloud.height > 0 && cloud.width * cloud.height == |cloud.points| {
      MulMonotone(1, cloud.height, cloud.width);
    }
  }

  method CopyBytes(destination: array<byte>, at: nat, source: seq<byte>)
    requires at + |source| <= destination.Length
    modifies destination
    ensures destination[..] == old(destination[..at]) + source + old(destination[at + |source|..])
  {
    for k := 0 to |source|
      invariant destination[..] == old(destination[..at]) + source[..k] + old(destination[at + k..])
    {
      destination[at + k] := source[k];
    }
  }

  method MakeCompactPointCloud2(cloud: Cloud, hostIsBigEndian: bool) returns (r: Outcome)
    ensures r == Serialize(cloud, hostIsBigEndian)
  {
    var n := |cloud.points|;
    if n > MAX_UINT32 {
      return TooManyPoints;
    }
    var height, width: nat := cloud.height, cloud.width;
    var declaredPoints := width * height;
    if height == 0 || declaredPoints != n {
      height, width := 1, n;
    }
    if width > MAX_UINT32 / POINT_STEP {
      return RowTooLong;
    }
    var rowStep := width * POINT_STEP;
    assert rowStep * height == n * POINT_STEP by { RowsCoverPoints(width, height, n); }
    var data := new byte[rowStep * height](_ => 0);
    for index := 0 to n
      invariant data[..index * POINT_STEP] == Flatten(PointsBytes(cloud.points[..index], hostIsBigEndian))
    {
      ghost var done := data[..index * POINT_STEP];
      CopyBytes(data, index * POINT_STEP, PointBytes(cloud.points[index], hostIsBigEndian));
      SerializedSoFar(cloud.points, index, hostIsBigEndian);
      assert data[..(index + 1) * POINT_STEP] == done + PointBytes(cloud.points[index], hostIsBigEndian);
    }
    assert cloud.points[..n] == cloud.points && data[..n * POINT_STEP] == data[..];
    r := Serialized(Message(cloud.frameId, height, width, FIELDS, hostIsBigEndian, POINT_STEP, rowStep, data[..], cloud.isDense));
  }

  lemma RowsCoverPoints(width: nat, height: nat, n: nat)
    requires width * height == n
    ensures (width * POINT_STEP) * height == n * POINT_STEP
  {
    assert (width * POINT_STEP) * height == (width * height) * POINT_STEP;
  }

  lemma SerializedSoFar(points: seq<Point>, i: nat, bigEndian: bool)
    requires i < |points|
    ensures Flatten(PointsBytes(points[..i + 1], bigEndian))
         == Flatten(PointsBytes(points[..i], bigEndian)) + PointBytes(points[i], bigEndian)
  {
    assert PointsBytes(points[..i + 1], bigEndian) == PointsBytes(points[..i], bigEndian) + [PointBytes(points[i], bigEndian)];
    FlattenSnoc(PointsBytes(points[..i], bigEndian), PointBytes(points[i], bigEndian));
  }

  // ------------------------------------------------------------ main results

  function Size(t: FieldType): nat {
    match t
    case UInt16 => 2
    case Float32 => 4
    case Float64 => 8
  }

  /** The value of field `f` of point `i`, read where the message's own description says it is. */
  function ReadField(m: Message, i: nat, f: nat): Option<nat> {
    if f >= |m.fields| then None
    else
      var size := Size(m.fields[f].datatype_);
      var at := i * m.pointStep + m.fields[f].offset;
      if at + size > |m.data| then None else Some(Load(m.data[at..at + size], m.isBigEndian))
  }

  /** For every cloud that passes the width guards the sizes agree. */
  lemma SizesAgree(cloud: Cloud, bigEndian: bool)
    requires Serialize(cloud, bigEndian).Serialized?
    ensures var m := Serialize(cloud, bigEndian).message;
            && m.width * m.height == |cloud.points|
            && m.rowStep == m.width * m.pointStep <= MAX_UINT32
            && m.rowStep * m.height == |m.data| == |cloud.points| * POINT_STEP
  {
    var m := Serialize(cloud, bigEndian).message;
    RowsCoverPoints(m.width, m.height, |cloud.points|);
    FlattenFixedWidth(PointsBytes(cloud.points, bigEndian), POINT_STEP, 0);
    StridesIsProduct(|cloud.points|, POINT_STEP);
  }

  lemma PartsOfPoint(whole: seq<byte>, at: nat, p: Point, bigEndian: bool)
    requires HasAt(whole, at, PointBytes(p, bigEndian))
    ensures HasAt(whole, at, Store(p.x, 4, bigEndian)) && HasAt(whole, at + 4, Store(p.y, 4, bigEndian))
    ensures HasAt(whole, at + 8, Store(p.z, 4, bigEndian)) && HasAt(whole, at + 12, Store(p.intensity, 4, bigEndian))
    ensures HasAt(whole, at + 16, Store(p.timestamp, 8, bigEndian)) && HasAt(whole, at + 24, Store(p.ring, 2, bigEndian))
  {
    var x, y, z := Store(p.x, 4, bigEndian), Store(p.y, 4, bigEndian), Store(p.z, 4, bigEndian);
    var i, t, r := Store(p.intensity, 4, bigEndian), Store(p.timestamp, 8, bigEndian), Store(p.ring, 2, bigEndian);
    HasAtConcat(whole, at, x + y + z + i + t, r);
    HasAtConcat(whole, at, x + y + z + i, t);
    HasAtConcat(whole, at, x + y + z, i);
    HasAtConcat(whole, at, x + y, z);
    HasAtConcat(whole, at, x, y);
  }

  lemma FieldIsRead(m: Message, i: nat, f: nat, at: nat, v: nat)
    requires f < |m.fields| && at == i * m.pointStep + m.fields[f].offset
    requires v < Pow256(Size(m.fields[f].datatype_))
    requires HasAt(m.data, at, Store(v, Size(m.fields[f].datatype_), m.isBigEndian))
    ensures ReadField(m, i, f) == Some(v)
  {
    var size := Size(m.fields[f].datatype_);
    assert m.data[at..at + size] == Store(v, size, m.isBigEndian);
    LoadInvertsStore(v, size, m.isBigEndian);
  }

  lemma FieldLayout()
    ensures |FIELDS| == 6
    ensures FIELDS[0].offset == 0 && FIELDS[1].offset == 4 && FIELDS[2].offset == 8 && FIELDS[3].offset == 12
    ensures FIELDS[4].offset == 16 && FIELDS[5].offset == 24
    ensures Size(FIELDS[0].datatype_) == Size(FIELDS[1].datatype_) == Size(FIELDS[2].datatype_) == Size(FIELDS[3].datatype_) == 4
    ensures Size(FIELDS[4].datatype_) == 8 && Size(FIELDS[5].datatype_) == 2
  {
  }

  lemma PointIsRead(m: Message, i: nat, p: Point)
    requires m.fields == FIELDS && HasAt(m.data, i * m.pointStep, PointBytes(p, m.isBigEndian))
    ensures ReadField(m, i, 0) == Some(p.x) && ReadField(m, i, 1) == Some(p.y) && ReadField(m, i, 2) == Some(p.z)
    ensures ReadField(m, i, 3) == Some(p.intensity) && ReadField(m, i, 4) == Some(p.timestamp)
    ensures ReadField(m, i, 5) == Some(p.ring)
  {
    PositionIsRead(m, i, p);
    HeightIsRead(m, i, p);
    TimestampIsRead(m, i, p);
    RingIsRead(m, i, p);
  }

  lemma PositionIsRead(m: Message, i: nat, p: Point)
    requires m.fields == FIELDS && HasAt(m.data, i * m.pointStep, PointBytes(p, m.isBigEndian))
    ensures ReadField(m, i, 0) == Some(p.x) && ReadField(m, i, 1) == Some(p.y)
  {
    FieldLayout();
    FieldRanges();
    PartsOfPoint(m.data, i * m.pointStep, p, m.isBigEndian);
    FieldIsRead(m, i, 0, i * m.pointStep, p.x);
    FieldIsRead(m, i, 1, i * m.pointStep + 4, p.y);
  }

  lemma HeightIsRead(m: Message, i: nat, p: Point)
    requires m.fields == FIELDS && HasAt(m.data, i * m.pointStep, PointBytes(p, m.isBigEndian))
    ensures ReadField(m, i, 2) == Some(p.z) && ReadField(m, i, 3) == Some(p.intensity)
  {
    FieldLayout();
    FieldRanges();
    PartsOfPoint(m.data, i * m.pointStep, p, m.isBigEndian);
    FieldIsRead(m, i, 2, i * m.pointStep + 8, p.z);
    FieldIsRead(m, i, 3, i * m.pointStep + 12, p.intensity);
  }

  lemma TimestampIsRead(m: Message, i: nat, p: Point)
    requires m.fields == FIELDS && HasAt(m.data, i * m.pointStep, PointBytes(p, m.isBigEndian))
    ensures ReadField(m, i, 4) == Some(p.timestamp)
  {
    FieldLayout();
    FieldRanges();
    PartsOfPoint(m.data, i * m.pointStep, p, m.isBigEndian);
    FieldIsRead(m, i, 4, i * m.pointStep + 16, p.timestamp);
  }

  lemma RingIsRead(m: Message, i: nat, p: Point)
    requires m.fields == FIELDS && HasAt(m.data, i * m.pointStep, PointBytes(p, m.isBigEndian))
    ensures ReadField(m, i, 5) == Some(p.ring)
  {
    FieldLayout();
    FieldRanges();
    PartsOfPoint(m.data, i * m.pointStep, p, m.isBigEndian);
    FieldIsRead(m, i, 5, i * m.pointStep + 24, p.ring);
  }

  lemma FieldRanges()
    ensures Pow256(2) == TWO_POW_16 && Pow256(4) == TWO_POW_32 && Pow256(8) == 0x1_0000_0000_0000_0000
  {
    assert Pow256(2) == 0x100 * Pow256(1);
    assert Pow256(4) == 0x1_0000 * Pow256(2);
    assert Pow256(8) == 0x1_0000_0000 * Pow256(4);
  }

  // ------------------------------------------------------ a reader by name

  /** The positions from `f` on at which a field of this name is declared. */
  function Declared(fields: seq<Field>, name: string, f: nat): seq<nat>
    decreases |fields| - f
  {
    if f >= |fields| then []
    else (if fields[f].name == name then [f] else []) + Declared(fields, name, f + 1)
  }

  /** What a subscriber reads that looks a field up by its name; None unless it is declared once, as one value of type `t`. */
  function ReadNamed(m: Message, i: nat, name: string, t: FieldType): Option<nat> {
    var found := Declared(m.fields, name, 0);
    if |found| == 1 && found[0] < |m.fields| && m.fields[found[0]].count == 1 && m.fields[found[0]].datatype_ == t
    then ReadField(m, i, found[0]) else None
  }

  lemma NamesAreDeclaredOnce()
    ensures Declared(FIELDS, "x", 0) == [0] && Declared(FIELDS, "y", 0) == [1] && Declared(FIELDS, "z", 0) == [2]
    ensures Declared(FIELDS, "intensity", 0) == [3] && Declared(FIELDS, "timestamp", 0) == [4] && Declared(FIELDS, "ring", 0) == [5]
  {
  }

  /**
   A subscriber that finds a field by its name, and reads the declared type at the
   declared offset, gets that field of that point; the message keeps the cloud's
   frame, density and byte order.
   */
  lemma NamedFieldsReadBack(cloud: Cloud, bigEndian: bool, i: nat)
    requires Serialize(cloud, bigEndian).Serialized? && i < |cloud.points|
    ensures var (m, p) := (Serialize(cloud, bigEndian).message, cloud.points[i]);
            && ReadNamed(m, i, "x", Float32) == Some(p.x) && ReadNamed(m, i, "y", Float32) == Some(p.y)
            && ReadNamed(m, i, "z", Float32) == Some(p.z) && ReadNamed(m, i, "intensity", Float32) == Some(p.intensity)
            && ReadNamed(m, i, "timestamp", Float64) == Some(p.timestamp) && ReadNamed(m, i, "ring", UInt16) == Some(p.ring)
            && m.frameId == cloud.frameId && m.isDense == cloud.isDense && m.isBigEndian == bigEndian && |m.fields| == 6
  {
    NamesAreDeclaredOnce();
    FieldsReadBack(cloud, bigEndian, i);
  }

  /** Exactly when a cloud is serialized, and with which dimensions: its own if they fit its points, else one row. */
  lemma SerializedWhen(cloud: Cloud, bigEndian: bool)
    ensures var agree := cloud.height > 0 && cloud.width * cloud.height == |cloud.points|;
            && (Serialize(cloud, bigEndian).Serialized?
                <==> |cloud.points| <= 4_294_967_295 && (if agree then cloud.width else |cloud.points|) <= 165_191_049)
            && (Serialize(cloud, bigEndian).TooManyPoints? <==> |cloud.points| > 4_294_967_295)
            && (Serialize(cloud, bigEndian).Serialized? ==>
                  var m := Serialize(cloud, bigEndian).message;
                  (m.height, m.width) == if agree then (cloud.height, cloud.width) else (1, |cloud.points|))
  {
  }

  /** Reading the declared offsets returns every field of every point bit for bit, in either byte order. */
  lemma FieldsReadBack(cloud: Cloud, bigEndian: bool, i: nat)
    requires Serialize(cloud, bigEndian).Serialized? && i < |cloud.points|
    ensures var (m, p) := (Serialize(cloud, bigEndian).message, cloud.points[i]);
            && ReadField(m, i, 0) == Some(p.x) && ReadField(m, i, 1) == Some(p.y) && ReadField(m, i, 2) == Some(p.z)
            && ReadField(m, i, 3) == Some(p.intensity) && ReadField(m, i, 4) == Some(p.timestamp)
            && ReadField(m, i, 5) == Some(p.ring)
  {
    FlattenFixedWidth(PointsBytes(cloud.points, bigEndian), POINT_STEP, i);
    StridesIsProduct(i, POINT_STEP);
    PointIsRead(Serialize(cloud, bigEndian).message, i, cloud.points[i]);
  }
}
