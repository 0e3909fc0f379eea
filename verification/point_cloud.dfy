/**
  The PointCloud2 message scan2cloud publishes: a single row of points,
  each point three float32 values x, y, z in a 12-byte step. The source
  stores the floats through a `float*` into the data buffer, so their bytes
  are in the host's order, while the message always declares itself
  little-endian. The model fixes a little-endian host, where the two agree.
  Coordinates are carried as the float32 bit patterns the conversion from
  double produces; the conversion itself is not modelled.
 */
module PointCloud {

  type byte = bv8

  /** The bit pattern of one float32 coordinate. */
  type Float32Bits = bv32

  const Uint32Modulus: int := 0x1_0000_0000

  /** sensor_msgs::PointField::FLOAT32 */
  const Float32Type: nat := 7

  /** sizeof(float) * 3 */
  const PointStep: nat := 12

  /** The most points whose data size point_step * width still fits in 32 bits. */
  const MaxCloudPoints: nat := 357913941

  datatype Point = Point(x: Float32Bits, y: Float32Bits, z: Float32Bits)

  datatype PointField = PointField(name: string, offset: nat, kind: nat, count: nat)

  datatype Cloud = Cloud(
    frameId: string,
    stamp: nat,
    height: nat,
    width: nat,
    isBigEndian: bool,
    isDense: bool,
    pointStep: nat,
    rowStep: nat,
    fields: seq<PointField>,
    data: seq<byte>)

  /** Conversion of an int, or of a wider unsigned product, to uint32. */
  function ToUint32(x: int): (u: nat)
    ensures u < Uint32Modulus
    ensures (x - u) % Uint32Modulus == 0
    ensures 0 <= x < Uint32Modulus ==> u == x
  {
    x % Uint32Modulus
  }

  const XyzFields: seq<PointField> := [
    PointField("x", 0, Float32Type, 1),
    PointField("y", 4, Float32Type, 1),
    PointField("z", 8, Float32Type, 1)]

  /**
    CreateEmptyCloud: a fresh one-row cloud of `size` zeroed points. Width,
    row step and data size are uint32, so a negative size or one beyond
    MaxCloudPoints wraps.
   */
  function CreateEmptyCloud(size: int, frameId: string, stamp: nat): (cloud: Cloud)
    requires -0x8000_0000 <= size < 0x8000_0000
    ensures cloud.frameId == frameId && cloud.stamp == stamp
    ensures cloud.height == 1 && !cloud.isBigEndian && !cloud.isDense
    ensures cloud.pointStep == PointStep && cloud.fields == XyzFields
    ensures 0 <= size ==> cloud.width == size
    ensures size < 0 ==> cloud.width == size + Uint32Modulus
    ensures cloud.rowStep == |cloud.data|
    ensures 0 <= size <= MaxCloudPoints ==> |cloud.data| == PointStep * size
    // beyond MaxCloudPoints the buffer is too short for the points it announces
    ensures MaxCloudPoints < size ==> |cloud.data| < PointStep * size
    ensures forall j | 0 <= j < |cloud.data| :: cloud.data[j] == 0
  {
    var width := ToUint32(size);
    var rowStep := ToUint32(PointStep * width);
    Cloud(frameId, stamp, 1, width, false, false, PointStep, rowStep, XyzFields,
          seq(rowStep, _ => 0))
  }

  /** The three fields lie side by side, each one float32, inside one point step. */
  lemma XyzFieldsTile()
    ensures |XyzFields| == 3
    ensures forall i | 0 <= i < 3 ::
      XyzFields[i].offset == 4 * i && XyzFields[i].kind == Float32Type && XyzFields[i].count == 1
    ensures XyzFields[2].offset + 4 == PointStep
    ensures XyzFields[0].name == "x" && XyzFields[1].name == "y" && XyzFields[2].name == "z"
  {
  }

  /** A float32 as its four bytes in memory on a little-endian host, least significant first. */
  function LeBytes(w: Float32Bits): (b: seq<byte>)
    ensures |b| == 4
  {
    [(w & 0xFF) as byte, ((w >> 8) & 0xFF) as byte,
     ((w >> 16) & 0xFF) as byte, ((w >> 24) & 0xFF) as byte]
  }

  function FromLeBytes(b: seq<byte>): Float32Bits
    requires |b| == 4
  {
    (b[0] as bv32) | ((b[1] as bv32) << 8) | ((b[2] as bv32) << 16) | ((b[3] as bv32) << 24)
  }

  lemma LeBytesRoundTrip(w: Float32Bits)
    ensures FromLeBytes(LeBytes(w)) == w
  {
  }

  function EncodePoint(p: Point): (b: seq<byte>)
    ensures |b| == PointStep
  {
    LeBytes(p.x) + LeBytes(p.y) + LeBytes(p.z)
  }

  /** The data bytes of a cloud holding `ps` in order. */
  function EncodePoints(ps: seq<Point>): (b: seq<byte>)
    ensures |b| == PointStep * |ps|
  {
    if |ps| == 0 then [] else EncodePoints(ps[..|ps| - 1]) + EncodePoint(ps[|ps| - 1])
  }

  lemma {:induction false} EncodePointsAppend(a: seq<Point>, b: seq<Point>)
    ensures EncodePoints(a + b) == EncodePoints(a) + EncodePoints(b)
    decreases |b|
  {
    if |b| > 0 {
      var b' := b[..|b| - 1];
      assert (a + b)[..|a + b| - 1] == a + b';
      EncodePointsAppend(a, b');
    } else {
      assert a + b == a;
    }
  }

  /** Point i of a cloud, read back through the x, y and z field offsets. */
  function PointAt(cloud: Cloud, i: nat): Point
    requires cloud.fields == XyzFields && cloud.pointStep == PointStep
    requires PointStep * (i + 1) <= |cloud.data|
  {
    var slot := cloud.data[i * cloud.pointStep .. (i + 1) * cloud.pointStep];
    Point(FieldOf(slot, cloud.fields[0]), FieldOf(slot, cloud.fields[1]), FieldOf(slot, cloud.fields[2]))
  }

  /** The points of `ps` read back, in order, from the slots of `cloud` starting at slot `base`. */
  predicate HoldsAt(cloud: Cloud, base: nat, ps: seq<Point>)
  {
    && cloud.fields == XyzFields && cloud.pointStep == PointStep
    && PointStep * (base + |ps|) <= |cloud.data|
    && forall j | base <= j < base + |ps| :: PointAt(cloud, j) == ps[j - base]
  }

  /** The float32 a field names inside one point's bytes. */
  function FieldOf(slot: seq<byte>, f: PointField): Float32Bits
    requires f.offset + 4 <= |slot|
  {
    FromLeBytes(slot[f.offset .. f.offset + 4])
  }

  lemma {:induction false} EncodedSlot(ps: seq<Point>, i: nat)
    requires i < |ps|
    ensures EncodePoints(ps)[PointStep * i .. PointStep * i + PointStep] == EncodePoint(ps[i])
    decreases |ps|
  {
    var init := ps[..|ps| - 1];
    if i < |ps| - 1 {
      EncodedSlot(init, i);
      assert EncodePoints(ps)[..PointStep * |init|] == EncodePoints(init);
    }
  }

  /** The x, y and z slices of one encoded point decode to its coordinates. */
  lemma DecodeSlot(slot: seq<byte>, p: Point)
    requires slot == EncodePoint(p)
    ensures FromLeBytes(slot[0..4]) == p.x
    ensures FromLeBytes(slot[4..8]) == p.y
    ensures FromLeBytes(slot[8..12]) == p.z
  {
    assert slot[0..4] == LeBytes(p.x);
    assert slot[4..8] == LeBytes(p.y);
    assert slot[8..12] == LeBytes(p.z);
    LeBytesRoundTrip(p.x);
    LeBytesRoundTrip(p.y);
    LeBytesRoundTrip(p.z);
  }

  /** A cloud whose slot i holds the encoding of p decodes p there. */
  lemma DecodeAt(cloud: Cloud, i: nat, p: Point)
    requires cloud.fields == XyzFields && cloud.pointStep == PointStep
    requires PointStep * (i + 1) <= |cloud.data|
    requires cloud.data[PointStep * i .. PointStep * i + PointStep] == EncodePoint(p)
    ensures PointAt(cloud, i) == p
  {
    var slot := cloud.data[i * cloud.pointStep .. (i + 1) * cloud.pointStep];
    assert slot == EncodePoint(p);
    DecodeSlot(slot, p);
  }

  /** Decoding a cloud whose data encodes `ps` gives back every point. */
  lemma DecodeEncoded(cloud: Cloud, ps: seq<Point>, i: nat)
    requires cloud.fields == XyzFields && cloud.pointStep == PointStep
    requires cloud.data == EncodePoints(ps) && i < |ps|
    ensures PointStep * (i + 1) <= |cloud.data|
    ensures PointAt(cloud, i) == ps[i]
  {
    EncodedSlot(ps, i);
    DecodeAt(cloud, i, ps[i]);
  }

  /** Overwriting the bytes right after a prefix leaves the prefix and the rest alone. */
  lemma Splice(a: seq<byte>, r: seq<byte>, x: seq<byte>)
    requires |x| <= |r|
    ensures (a + r)[..|a|] + x + (a + r)[|a| + |x|..] == a + x + r[|x|..]
  {
    assert (a + r)[..|a|] == a;
    assert (a + r)[|a| + |x|..] == r[|x|..];
  }

  /** One turn of the write loop: point t lands in its slot. */
  lemma WriteStep(data0: seq<byte>, at: nat, ps: seq<Point>, t: nat)
    requires t < |ps| && PointStep * (at + |ps|) <= |data0|
    ensures var head := data0[..PointStep * at] + EncodePoints(ps[..t]);
      var rest := data0[PointStep * (at + t)..];
      head + EncodePoint(ps[t]) + rest[PointStep..] ==
        data0[..PointStep * at] + EncodePoints(ps[..t + 1]) + data0[PointStep * (at + t + 1)..]
  {
    assert ps[..t + 1][..t] == ps[..t];
    assert data0[PointStep * (at + t)..][PointStep..] == data0[PointStep * (at + t + 1)..];
  }

  /** The write loop: x, y, z of each point in turn, from slot `at` on. */
  method WritePoints(data0: seq<byte>, at: nat, ps: seq<Point>) returns (data: seq<byte>)
    requires PointStep * (at + |ps|) <= |data0|
    ensures |data| == |data0|
    ensures data == data0[..PointStep * at] + EncodePoints(ps) + data0[PointStep * (at + |ps|)..]
  {
    data := data0;
    var t := 0;
    while t < |ps|
      invariant 0 <= t <= |ps|
      invariant data == data0[..PointStep * at] + EncodePoints(ps[..t]) + data0[PointStep * (at + t)..]
    {
      ghost var head := data0[..PointStep * at] + EncodePoints(ps[..t]);
      ghost var rest := data0[PointStep * (at + t)..];
      var slot := PointStep * (at + t);
      Splice(head, rest, EncodePoint(ps[t]));
      WriteStep(data0, at, ps, t);
      data := data[..slot] + EncodePoint(ps[t]) + data[slot + PointStep..];
      t := t + 1;
    }
    assert ps[..t] == ps;
  }

  /** Every point of a cloud whose data encodes `ps` decodes back. */
  lemma DecodeAll(cloud: Cloud, ps: seq<Point>)
    requires cloud.fields == XyzFields && cloud.pointStep == PointStep
    requires cloud.data == EncodePoints(ps)
    ensures HoldsAt(cloud, 0, ps)
  {
    forall i: nat | i < |ps| {
      DecodeEncoded(cloud, ps, i);
    }
  }

  /** Points read back from consecutive slots: the first part, then the second right after it. */
  lemma HoldsSplit(cloud: Cloud, base: nat, a: seq<Point>, b: seq<Point>)
    requires HoldsAt(cloud, base, a + b)
    ensures HoldsAt(cloud, base, a) && HoldsAt(cloud, base + |a|, b)
  {
    forall j | base <= j < base + |a| ensures PointAt(cloud, j) == a[j - base] {
      assert (a + b)[j - base] == a[j - base];
    }
    forall j | base + |a| <= j < base + |a| + |b| ensures PointAt(cloud, j) == b[j - (base + |a|)] {
      assert (a + b)[j - base] == b[j - (base + |a|)];
    }
  }

  /** Writing p1 from slot 0 and then p2 right after it covers a buffer of exactly that size. */
  lemma {:induction false} WritesFill(d0: seq<byte>, d1: seq<byte>, d2: seq<byte>, p1: seq<Point>, p2: seq<Point>)
    requires |d0| == PointStep * (|p1| + |p2|)
    requires d1 == d0[..PointStep * 0] + EncodePoints(p1) + d0[PointStep * (0 + |p1|)..]
    requires |d1| == |d0|
    requires d2 == d1[..PointStep * |p1|] + EncodePoints(p2) + d1[PointStep * (|p1| + |p2|)..]
    ensures d2 == EncodePoints(p1 + p2)
  {
    assert d1[..PointStep * |p1|] == EncodePoints(p1);
    assert d1[PointStep * (|p1| + |p2|)..] == [];
    EncodePointsAppend(p1, p2);
  }

  /** The two write loops of CreateCloud: p1 from slot 0, then p2 right after it. */
  method WriteBoth(d0: seq<byte>, p1: seq<Point>, p2: seq<Point>) returns (d: seq<byte>)
    requires |d0| == PointStep * (|p1| + |p2|)
    ensures d == EncodePoints(p1 + p2)
  {
    var d1 := WritePoints(d0, 0, p1);
    d := WritePoints(d1, |p1|, p2);
    WritesFill(d0, d1, d, p1, p2);
  }

  /** CreateCloud with two point lists: p1's points, then p2's, fill the data exactly. */
  method CreateCloud(p1: seq<Point>, p2: seq<Point>, frameId: string, stamp: nat)
    returns (cloud: Cloud)
    requires |p1| + |p2| <= MaxCloudPoints
    ensures cloud.frameId == frameId && cloud.stamp == stamp
    ensures cloud.height == 1 && cloud.width == |p1| + |p2| && !cloud.isBigEndian
    ensures cloud.pointStep == PointStep && cloud.fields == XyzFields
    ensures cloud.rowStep == |cloud.data|
    ensures cloud.data == EncodePoints(p1 + p2)
    ensures HoldsAt(cloud, 0, p1 + p2)
  {
    cloud := CreateEmptyCloud(|p1| + |p2|, frameId, stamp);
    var data := WriteBoth(cloud.data, p1, p2);
    cloud := cloud.(data := data);
    DecodeAll(cloud, p1 + p2);
  }

  /** CreateCloud with one point list. */
  method CreateCloudOf(ps: seq<Point>, frameId: string, stamp: nat) returns (cloud: Cloud)
    requires |ps| <= MaxCloudPoints
    ensures cloud.frameId == frameId && cloud.stamp == stamp
    ensures cloud.height == 1 && cloud.width == |ps| && !cloud.isBigEndian
    ensures cloud.pointStep == PointStep && cloud.fields == XyzFields
    ensures cloud.rowStep == |cloud.data|
    ensures cloud.data == EncodePoints(ps)
    ensures HoldsAt(cloud, 0, ps)
  {
    cloud := CreateEmptyCloud(|ps|, frameId, stamp);
    var data := WritePoints(cloud.data, 0, ps);
    cloud := cloud.(data := data);
    assert data == EncodePoints(ps) by {
      assert data[..PointStep * 0] == [] && data[PointStep * |ps|..] == [];
    }
    DecodeAll(cloud, ps);
  }

  /** A size one past MaxCloudPoints announces 12 * size bytes but gets only 8. */
  lemma OversizedCloudWraps()
    ensures |CreateEmptyCloud(MaxCloudPoints + 1, "", 0).data| == 8
    ensures CreateEmptyCloud(-1, "", 0).width == Uint32Modulus - 1
  {
  }
}
