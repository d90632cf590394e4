/** Bits and registers in the packed memory areas, and the flat map they refine: bit
    64 * area + 8 * byte + bit, register 32 * area + position. */
module Image {
  import opened Words
  import opened Buffers
  import opened Config
  import opened Layout
  import opened Frames

  // ---------------------------------------------------------------- the flat map

  /** Bit `number` of an area that starts at byte `first`. */
  predicate FlatBit(s: seq<byte>, first: nat, number: nat)
    requires first + number / 8 < |s|
  {
    Bit(s[first + number / 8], number % 8)
  }

  function FlatBitSet(s: seq<byte>, first: nat, number: nat, on: bool): (r: seq<byte>)
    requires first + number / 8 < |s|
    ensures |r| == |s|
  {
    Pow2Values();
    s[first + number / 8 := WithBit(8, s[first + number / 8], number % 8, on)]
  }

  /** Register `number` of an area that starts at byte `first`, little-endian. */
  function FlatRegister(s: seq<byte>, first: nat, number: nat): u16
    requires first + 2 * number + 2 <= |s|
  {
    Get16(s, first + 2 * number)
  }

  function FlatRegisterSet(s: seq<byte>, first: nat, number: nat, value: u16): (r: seq<byte>)
    requires first + 2 * number + 2 <= |s|
    ensures |r| == |s|
  {
    Splice(s, first + 2 * number, LE16(value))
  }

  /** Writing a bit changes that bit and nothing else: no other bit of any area, and no other byte. */
  lemma BitGetAfterSet(s: seq<byte>, first: nat, number: nat, on: bool, other: nat, k: nat)
    requires first + number / 8 < |s| && first + other / 8 < |s| && k < |s|
    ensures var r := FlatBitSet(s, first, number, on);
            && FlatBit(r, first, other) == (if other == number then on else FlatBit(s, first, other))
            && (k != first + number / 8 ==> r[k] == s[k])
  {
    Pow2Values();
    assert other / 8 == number / 8 && other % 8 == number % 8 ==> other == number;
  }

  /** Writing a register changes that register and nothing else. */
  lemma RegisterGetAfterSet(s: seq<byte>, first: nat, number: nat, value: u16, other: nat, k: nat)
    requires first + 2 * number + 2 <= |s| && first + 2 * other + 2 <= |s| && k < |s|
    ensures var r := FlatRegisterSet(s, first, number, value);
            && FlatRegister(r, first, other) == (if other == number then value else FlatRegister(s, first, other))
            && (k < first + 2 * number || k >= first + 2 * number + 2 ==> r[k] == s[k])
  {
    var r := FlatRegisterSet(s, first, number, value);
    if other == number {
      SpliceRead(s, first + 2 * number, LE16(value), 0, 0);
      Get16IsInverse(r, first + 2 * number, value);
    }
  }

  // ---------------------------------------------------------------- the source's address arithmetic

  /** `w & (2 * ones + 1)`, one bit at a time. */
  lemma MaskBit(w: nat, ones: nat, r: nat)
    requires And(w / 2, ones) == r
    ensures And(w, 2 * ones + 1) == 2 * r + w % 2
  {
    hide And;
    AndStep(w / 2, ones, w % 2, 1);
    assert w == 2 * (w / 2) + w % 2;
  }

  lemma MaskSeven(w: nat)
    ensures And(w, 0x07) == w % 8
  {
    hide And;
    AndWithZero(w / 2 / 2 / 2);
    MaskBit(w / 2 / 2, 0, 0);
    MaskBit(w / 2, 1, w / 2 / 2 % 2);
    MaskBit(w, 3, 2 * (w / 2 / 2 % 2) + w / 2 % 2);
  }

  lemma MaskThirtyOne(w: nat)
    ensures And(w, 0x1F) == w % 32
  {
    hide And;
    MaskSeven(w / 2 / 2);
    MaskBit(w / 2, 7, w / 2 / 2 % 8);
    MaskBit(w, 15, 2 * (w / 2 / 2 % 8) + w / 2 % 2);
  }

  /** cl_iefb_bit_calculate_areanumber; `x >> k` is division by 2^k. */
  method CalcBitArea(number: u16) returns (area: nat, byteInArea: nat, mask: byte)
    ensures number == 64 * area + 8 * byteInArea + number % 8 && byteInArea < 8
    ensures mask == Pow2(number % 8)
  {
    hide And;
    Pow2Values();
    MaskSeven(number);
    MaskSeven(number / 8);
    var bitNumber := And(number, 0x07);
    Pow2Grows(bitNumber, 8);
    AndWithOnes(8, Pow2(bitNumber));
    mask := And(Pow2(bitNumber), 0xFF);
    byteInArea := And(number / 8, 0x07);
    area := number / 64;
  }

  /** cl_iefb_register_calculate_areanumber */
  method CalcRegisterArea(number: u16) returns (area: nat, position: nat)
    ensures number == 32 * area + position && position < 32
  {
    MaskThirtyOne(number);
    position := And(number, 0x1F);
    area := number / 32;
  }

  // ---------------------------------------------------------------- accessors on a memory area

  /** The body of clm_iefb_set_ry_bit and cls_iefb_set_rx_bit, once the first area is known. */
  method SetBit(a: array<byte>, first: nat, number: u16, value: bool)
    requires first + number / 8 < a.Length
    modifies a
    ensures a[..] == FlatBitSet(old(a[..]), first, number, value)
  {
    var area, byteInArea, mask := CalcBitArea(number);
    var p := first + BIT_AREA * area + byteInArea;
    Pow2Values();
    Pow2Grows(number % 8, 8);
    ghost var r := WithBit(8, a[p], number % 8, value);
    if value {
      a[p] := Or(a[p], mask);
    } else {
      a[p] := And(a[p], Not(8, mask));
    }
    assert a[p] == r;
  }

  /** The body of clm_iefb_get_rx_bit, clm_iefb_get_ry_bit and their slave counterparts. */
  method GetBit(a: array<byte>, first: nat, number: u16) returns (value: bool)
    requires first + number / 8 < a.Length
    ensures value == FlatBit(a[..], first, number)
  {
    var area, byteInArea, mask := CalcBitArea(number);
    MaskTestIsBit(a[first + BIT_AREA * area + byteInArea], number % 8);
    value := And(a[first + BIT_AREA * area + byteInArea], mask) > 0;
  }

  /** The body of clm_iefb_set_rww_value and cls_iefb_set_rwr_value. */
  method SetRegister(a: array<byte>, first: nat, number: u16, value: u16)
    requires first + 2 * number + 2 <= a.Length
    modifies a
    ensures a[..] == FlatRegisterSet(old(a[..]), first, number, value)
  {
    var area, position := CalcRegisterArea(number);
    Put(a, first + WORD_AREA * area + 2 * position, LE16(value));
  }

  /** The body of the register getters. */
  method GetRegister(a: array<byte>, first: nat, number: u16) returns (value: u16)
    requires first + 2 * number + 2 <= a.Length
    ensures value == FlatRegister(a[..], first, number)
  {
    var area, position := CalcRegisterArea(number);
    var p := first + WORD_AREA * area + 2 * position;
    value := a[p] as int + 0x100 * a[p + 1] as int;
  }

  // ---------------------------------------------------------------- devices of a group

  /** Setting a bit of one device changes no bit of another: the whole group area is one flat map. */
  lemma SetOneDeviceOnly(devices: seq<DeviceSetting>, s: seq<byte>, i: nat, number: nat, on: bool, j: nat, other: nat)
    requires i < |devices| && j < |devices| && BIT_AREA * Total(devices) <= |s|
    requires number < 64 * devices[i].stations && other < 64 * devices[j].stations
    ensures BIT_AREA * Start(devices, i) + number / 8 < |s| && BIT_AREA * Start(devices, j) + other / 8 < |s|
    ensures var r := FlatBitSet(s, BIT_AREA * Start(devices, i), number, on);
            FlatBit(r, BIT_AREA * Start(devices, j), other)
            == if i == j && other == number then on else FlatBit(s, BIT_AREA * Start(devices, j), other)
  {
    OccupiedMonotone(devices, i + 1, |devices|);
    OccupiedMonotone(devices, j + 1, |devices|);
    var p, q := BIT_AREA * Start(devices, i) + number / 8, BIT_AREA * Start(devices, j) + other / 8;
    if i == j {
      BitGetAfterSet(s, BIT_AREA * Start(devices, i), number, on, other, q);
    } else {
      RangesApart(devices, i, j);
      BitGetAfterSet(s, BIT_AREA * Start(devices, i), number, on, number, q);
    }
  }
}
