/** The mouse payload codecs and saturating arithmetic of main/src/hog_client.c. */
module MouseCodec {
  import opened Basics

  const COMPACT_LEN: nat := 5
  const EXTENDED_LEN: nat := 9

  datatype MouseBody = MouseBody(buttons: Byte, dx: Int16, dy: Int16, scrollY: Int16, scrollX: Int16)

  predicate SupportedLen(len: int) {
    len == COMPACT_LEN || len == EXTENDED_LEN
  }

  function Clamp(x: int, lo: int, hi: int): (r: int)
    requires lo <= hi
  {
    if x < lo then lo else if hi < x then hi else x
  }

  function Saturate16(x: int): Int16 {
    Clamp(x, -0x8000, 0x7fff)
  }

  function Saturate8(x: Int16): Int8 {
    Clamp(x, -0x80, 0x7f)
  }

  /** Reinterpretation of a byte as int8_t, and back. */
  function Signed8(b: Byte): Int8 {
    if b < 0x80 then b as int else b as int - 0x100
  }

  function Unsigned8(x: Int8): Byte {
    (if x < 0 then x + 0x100 else x) as Byte
  }

  /** sys_get_le16 followed by the cast to int16_t. */
  function GetLe16(lo: Byte, hi: Byte): Int16 {
    var u := lo as int + 0x100 * hi as int;
    if u < 0x8000 then u else u - 0x10000
  }

  /** sys_put_le16 of the value cast to uint16_t. */
  function PutLe16(x: Int16): seq<Byte> {
    var u := x as int + (if x < 0 then 0x10000 else 0);
    [(u % 0x100) as Byte, (u / 0x100) as Byte]
  }

  function Decode(p: seq<Byte>): Result<MouseBody> {
    if |p| == COMPACT_LEN then
      Ok(MouseBody(p[0], Signed8(p[1]), Signed8(p[2]), Signed8(p[3]), Signed8(p[4])))
    else if |p| == EXTENDED_LEN then
      Ok(MouseBody(p[0], GetLe16(p[1], p[2]), GetLe16(p[3], p[4]), GetLe16(p[5], p[6]), GetLe16(p[7], p[8])))
    else
      Err(SIZE_MISMATCH)
  }

  function Encode(m: MouseBody, len: nat): Result<seq<Byte>> {
    if len == COMPACT_LEN then
      Ok([m.buttons, Unsigned8(Saturate8(m.dx)), Unsigned8(Saturate8(m.dy)),
          Unsigned8(Saturate8(m.scrollY)), Unsigned8(Saturate8(m.scrollX))])
    else if len == EXTENDED_LEN then
      Ok([m.buttons] + PutLe16(m.dx) + PutLe16(m.dy) + PutLe16(m.scrollY) + PutLe16(m.scrollX))
    else
      Err(SIZE_MISMATCH)
  }

  // ---------- The codecs invert each other ----------

  lemma Le16RoundTrip(lo: Byte, hi: Byte)
    ensures PutLe16(GetLe16(lo, hi)) == [lo, hi]
  {
    var x := GetLe16(lo, hi);
    var u := x as int + (if x < 0 then 0x10000 else 0);
    assert u == lo as int + 0x100 * hi as int;
    assert u % 0x100 == lo as int && u / 0x100 == hi as int;
  }

  lemma Le16Inverse(x: Int16)
    ensures |PutLe16(x)| == 2
    ensures GetLe16(PutLe16(x)[0], PutLe16(x)[1]) == x
  {
    var u := x as int + (if x < 0 then 0x10000 else 0);
    assert u == 0x100 * (u / 0x100) + u % 0x100;
  }

  /** Both know payloads of 5 and of 9 bytes and no others. */
  lemma KnownLengthsExactly(p: seq<Byte>, m: MouseBody, len: nat)
    ensures Decode(p).Ok? <==> |p| == 5 || |p| == 9
    ensures Encode(m, len).Ok? <==> len == 5 || len == 9
    ensures Decode(p).Err? ==> Decode(p).status == SIZE_MISMATCH
    ensures Encode(m, len).Err? ==> Encode(m, len).status == SIZE_MISMATCH
    ensures Encode(m, len).Ok? ==> |Encode(m, len).value| == len
  {
  }

  /** Re-encoding what was decoded gives back the same bytes, for both layouts. */
  lemma EncodeInvertsDecode(p: seq<Byte>)
    requires SupportedLen(|p|)
    ensures Decode(p).Ok? && Encode(Decode(p).value, |p|) == Ok(p)
  {
    var m := Decode(p).value;
    if |p| == COMPACT_LEN {
      forall b: Byte ensures Unsigned8(Signed8(b)) == b && Saturate8(Signed8(b)) == Signed8(b) {
      }
      assert Encode(m, 5).value == p;
    } else {
      Le16RoundTrip(p[1], p[2]);
      Le16RoundTrip(p[3], p[4]);
      Le16RoundTrip(p[5], p[6]);
      Le16RoundTrip(p[7], p[8]);
      assert p == [p[0]] + [p[1], p[2]] + [p[3], p[4]] + [p[5], p[6]] + [p[7], p[8]];
    }
  }

  /** The largest and smallest delta an axis of a payload of this length can carry. */
  function AxisMax(len: nat): int {
    if len == COMPACT_LEN then 0x7f else 0x7fff
  }

  function AxisMin(len: nat): int {
    -AxisMax(len) - 1
  }

  /** What a payload of this length can represent of a body. */
  function Narrow(m: MouseBody, len: nat): MouseBody {
    MouseBody(m.buttons, Fit(m.dx, len), Fit(m.dy, len), Fit(m.scrollY, len), Fit(m.scrollX, len))
  }

  function Fit(x: int, len: nat): Int16 {
    Clamp(x, AxisMin(len), AxisMax(len))
  }

  lemma DecodeInvertsEncode(m: MouseBody, len: nat)
    requires SupportedLen(len)
    ensures Encode(m, len).Ok? && |Encode(m, len).value| == len
    ensures Decode(Encode(m, len).value) == Ok(Narrow(m, len))
  {
    if len == COMPACT_LEN {
      forall x: Int8 ensures Signed8(Unsigned8(x)) == x {
      }
    } else {
      var p := Encode(m, len).value;
      Le16Inverse(m.dx);
      Le16Inverse(m.dy);
      Le16Inverse(m.scrollY);
      Le16Inverse(m.scrollX);
      assert p[1..3] == PutLe16(m.dx) && p[3..5] == PutLe16(m.dy);
      assert p[5..7] == PutLe16(m.scrollY) && p[7..9] == PutLe16(m.scrollX);
    }
  }

  // ---------- Saturating addition ----------

  /** One step of the accumulation on one axis, at the width of the payload. */
  function SatAdd(a: int, b: int, len: nat): (r: Int16)
    ensures AxisMin(len) <= r <= AxisMax(len)
  {
    Fit(a + b, len)
  }

  /** Saturating to 16 bits first and to the payload's width afterwards is one saturation. */
  lemma NarrowAfterSaturate16(x: int, len: nat)
    ensures Fit(Saturate16(x), len) == Fit(x, len)
  {
  }

  function Sum(deltas: seq<int>): int {
    if deltas == [] then 0 else Sum(deltas[..|deltas| - 1]) + deltas[|deltas| - 1]
  }

  /** Left fold of saturating addition over the deltas of a group. */
  function SatFold(deltas: seq<int>, len: nat): (r: int)
    ensures AxisMin(len) <= r <= AxisMax(len)
  {
    if deltas == [] then 0
    else SatAdd(SatFold(deltas[..|deltas| - 1], len), deltas[|deltas| - 1], len)
  }

  ghost predicate InRange(x: int, len: nat) {
    AxisMin(len) <= x <= AxisMax(len)
  }

  /** No prefix leaves the range: the fold is the exact sum. */
  lemma {:induction false} SatFoldExact(deltas: seq<int>, len: nat)
    requires forall k :: 0 <= k <= |deltas| ==> InRange(Sum(deltas[..k]), len)
    ensures SatFold(deltas, len) == Sum(deltas)
  {
    if deltas != [] {
      var front := deltas[..|deltas| - 1];
      forall k | 0 <= k <= |front| ensures InRange(Sum(front[..k]), len) {
        assert front[..k] == deltas[..k];
      }
      SatFoldExact(front, len);
      assert deltas[..|deltas|] == deltas;
    }
  }

  /** All deltas of one sign: the fold is the clamped sum, however often it saturates. */
  lemma {:induction false} SatFoldOneSign(deltas: seq<int>, len: nat)
    requires (forall k :: 0 <= k < |deltas| ==> 0 <= deltas[k]) || (forall k :: 0 <= k < |deltas| ==> deltas[k] <= 0)
    ensures SatFold(deltas, len) == Fit(Sum(deltas), len)
    ensures (forall k :: 0 <= k < |deltas| ==> 0 <= deltas[k]) ==> 0 <= Sum(deltas)
    ensures (forall k :: 0 <= k < |deltas| ==> deltas[k] <= 0) ==> Sum(deltas) <= 0
  {
    if deltas != [] {
      SatFoldOneSign(deltas[..|deltas| - 1], len);
    }
  }

  /** With mixed signs the fold is not the clamped sum: saturation forgets the excess. */
  lemma SatFoldMixedSignsDiffers()
    ensures SatFold([100, 100, -100], COMPACT_LEN) == 27
    ensures Fit(Sum([100, 100, -100]), COMPACT_LEN) == 100
  {
    var d := [100, 100, -100];
    assert d[..2] == [100, 100] && d[..2][..1] == [100] && d[..2][..1][..0] == [];
    assert SatFold([100], 5) == 100 && SatFold([100, 100], 5) == 127;
    assert Sum([100]) == 100 && Sum([100, 100]) == 200;
  }
}
