/** The frames byte by byte, by arithmetic on their fields: offsets, widths and byte order
    (layouts in src/common/cl_types.h). */
module WireBytes {
  import opened Words
  import opened Buffers
  import opened Frames
  import opened Responses

  /** Byte j of v, counted from the least significant. */
  function ByteOf(v: nat, j: nat): byte {
    v / Weight(j) % 0x100
  }

  function Weight(j: nat): (w: nat)
    ensures w > 0
  {
    if j == 0 then 1 else 0x100 * Weight(j - 1)
  }

  /** The n bytes from p on are v, the least significant first. */
  predicate Field(b: seq<byte>, p: nat, n: nat, v: nat) {
    p + n <= |b| && forall j :: 0 <= j < n ==> b[p + j] == ByteOf(v, j)
  }

  predicate ZeroBytes(b: seq<byte>, p: nat, n: nat) {
    p + n <= |b| && forall k :: p <= k < p + n ==> b[k] == 0
  }

  // ---------------------------------------------------------------- one field

  lemma Weights()
    ensures Weight(0) == 1 && Weight(1) == 0x100 && Weight(2) == 0x1_0000 && Weight(3) == 0x100_0000
    ensures Weight(4) == 0x1_0000_0000 && Weight(5) == 0x100_0000_0000 && Weight(6) == 0x1_0000_0000_0000
    ensures Weight(7) == 0x100_0000_0000_0000
  {
    assert Weight(2) == 0x100 * Weight(1) && Weight(3) == 0x100 * Weight(2) && Weight(4) == 0x100 * Weight(3);
    assert Weight(5) == 0x100 * Weight(4) && Weight(6) == 0x100 * Weight(5) && Weight(7) == 0x100 * Weight(6);
  }

  lemma WordIsField(v: u16)
    ensures Field(LE16(v), 0, 2, v)
  {
    hide Weight;
    Weights();
  }

  lemma LongIsField(v: u32)
    ensures Field(LE32(v), 0, 4, v)
  {
    hide Weight;
    Weights();
    LongBytes(v);
    var b := [v % 0x100, v / 0x100 % 0x100, v / 0x1_0000 % 0x100, v / 0x100_0000];
    assert LE32(v) == b;
    forall j | 0 <= j < 4 ensures b[j] == ByteOf(v, j) {
      assert j == 0 || j == 1 || j == 2 || j == 3;
    }
  }

  lemma LongBytes(v: u32)
    ensures v % 0x1_0000 % 0x100 == v % 0x100 && v % 0x1_0000 / 0x100 == v / 0x100 % 0x100
    ensures v / 0x1_0000 / 0x100 == v / 0x100_0000 < 0x100
  {
  }

  /** The lower half of eight bytes, and the upper half. */
  lemma HalfBytes(v: u64, j: nat)
    requires j < 4
    ensures ByteOf(v % U32_MODULUS, j) == ByteOf(v, j) && ByteOf(v / U32_MODULUS, j) == ByteOf(v, j + 4)
  {
    hide Weight;
    Weights();
    Halves(v, Weight(j), if j == 0 then 0x1_0000_0000 else if j == 1 then 0x100_0000 else if j == 2 then 0x1_0000 else 0x100);
    assert Weight(j + 4) == U32_MODULUS * Weight(j);
  }

  /** v is split at 2^32, and 2^32 is w times a multiple of 2^8. */
  lemma Halves(v: nat, w: nat, u: nat)
    requires w > 0 && w * u == U32_MODULUS && u % 0x100 == 0
    ensures v % U32_MODULUS / w % 0x100 == v / w % 0x100
    ensures v / U32_MODULUS / w == v / (U32_MODULUS * w)
  {
    var q, r := v / U32_MODULUS, v % U32_MODULUS;
    LowHalf(v, w, u, q, r);
    HighHalf(v, w, q, r);
  }

  lemma LowHalf(v: nat, w: nat, u: nat, q: nat, r: nat)
    requires w > 0 && w * u == U32_MODULUS && u % 0x100 == 0 && v == U32_MODULUS * q + r
    ensures r / w % 0x100 == v / w % 0x100
  {
    var low := r / w;
    assert r == w * low + r % w;
    Regroup(w, u, q);
    Spread(w, u * q, low);
    Quotient(v, w, u * q + low, r % w);
    Regroup(0x100, u / 0x100, q);
    Multiple(u / 0x100 * q, low);
  }

  lemma HighHalf(v: nat, w: nat, q: nat, r: nat)
    requires w > 0 && v == U32_MODULUS * q + r && r < U32_MODULUS
    ensures q / w == v / (U32_MODULUS * w)
  {
    var n, a := q / w, q % w;
    assert q == w * n + a;
    Spread(U32_MODULUS, w * n, a);
    Regroup(U32_MODULUS, w, n);
    Rest(a, w, r);
    Quotient(v, U32_MODULUS * w, n, a * U32_MODULUS + r);
  }

  lemma Regroup(a: nat, b: nat, c: nat)
    ensures a * (b * c) == a * b * c
  {
  }

  lemma Spread(a: nat, b: nat, c: nat)
    ensures a * (b + c) == a * b + a * c
  {
  }

  lemma Multiple(n: nat, low: nat)
    ensures (0x100 * n + low) % 0x100 == low % 0x100
  {
  }

  lemma Rest(a: nat, w: nat, r: nat)
    requires a < w && r < U32_MODULUS
    ensures a * U32_MODULUS + r < U32_MODULUS * w
  {
  }

  /** Division with a remainder that fits. */
  lemma Quotient(v: nat, w: nat, q: nat, r: nat)
    requires r < w && v == w * q + r
    ensures v / w == q
  {
    assert v == w * (v / w) + v % w;
    assert w * (v / w - q) == r - v % w;
    AwayFromZero(w, v / w - q);
  }

  lemma AwayFromZero(w: nat, d: int)
    ensures d > 0 ==> w * d >= w
    ensures d < 0 ==> w * d <= 0 - w
  {
    if d > 0 {
      Product(w, d - 1);
    } else if d < 0 {
      Product(w, -1 - d);
    }
  }

  lemma Product(w: nat, n: nat)
    ensures w * n >= 0 && w * (n + 1) == w * n + w && w * (-1 - n) == 0 - w * (n + 1)
  {
  }

  lemma DoubleIsField(v: u64)
    ensures Field(LE64(v), 0, 8, v)
  {
    hide ByteOf, LE32;
    LongIsField(v % U32_MODULUS);
    LongIsField(v / U32_MODULUS);
    forall j | 0 <= j < 8 ensures LE64(v)[j] == ByteOf(v, j) {
      if j >= 4 {
        HalfBytes(v, j - 4);
        assert LE32(v / U32_MODULUS)[0 + (j - 4)] == ByteOf(v / U32_MODULUS, j - 4);
      } else {
        HalfBytes(v, j);
        assert LE32(v % U32_MODULUS)[0 + j] == ByteOf(v % U32_MODULUS, j);
      }
    }
  }

  /** A field of a section is a field of the whole, further in. */
  lemma FieldInSection(b: seq<byte>, from: nat, to: nat, p: nat, n: nat, v: nat)
    requires from <= to <= |b| && Field(b[from..to], p, n, v)
    ensures Field(b, from + p, n, v)
  {
    hide ByteOf;
    forall j | 0 <= j < n ensures b[from + p + j] == ByteOf(v, j) {
      assert b[from..to][p + j] == ByteOf(v, j);
    }
  }

  /** And a printed number inside a concatenation is a field of it. */
  lemma FieldAt(b: seq<byte>, p: nat, n: nat, s: seq<byte>, v: nat)
    requires p + n <= |b| && |s| == n && b[p..p + n] == s && Field(s, 0, n, v)
    ensures Field(b, p, n, v)
  {
    hide ByteOf;
    forall j | 0 <= j < n ensures b[p + j] == ByteOf(v, j) {
      assert s[0 + j] == ByteOf(v, j) && b[p..p + n][j] == s[j];
    }
  }

  // ---------------------------------------------------------------- requests

  lemma DataHeaderBytes(r: Request)
    requires |r.ids| < 0x1_0000
    ensures var h := RequestDataHeader(r);
            && Field(h, 0, 4, r.masterId) && h[4] == r.groupNo && h[5] == 0
            && Field(h, 6, 2, r.seqNo) && Field(h, 8, 2, r.timeout) && Field(h, 10, 2, r.offCount)
            && Field(h, 12, 2, r.parameterNo) && Field(h, 14, 2, |r.ids|) && Field(h, 16, 2, r.word) && ZeroBytes(h, 18, 2)
  {
    hide ByteOf, LE32;
    var h := RequestDataHeader(r);
    LongIsField(r.masterId);
    WordIsField(r.seqNo);
    WordIsField(r.timeout);
    WordIsField(r.offCount);
    WordIsField(r.parameterNo);
    WordIsField(|r.ids|);
    WordIsField(r.word);
    FieldAt(h, 0, 4, LE32(r.masterId), r.masterId);
    FieldAt(h, 6, 2, LE16(r.seqNo), r.seqNo);
    FieldAt(h, 8, 2, LE16(r.timeout), r.timeout);
    FieldAt(h, 10, 2, LE16(r.offCount), r.offCount);
    FieldAt(h, 12, 2, LE16(r.parameterNo), r.parameterNo);
    FieldAt(h, 14, 2, LE16(|r.ids|), |r.ids|);
    FieldAt(h, 16, 2, LE16(r.word), r.word);
  }

  lemma MasterNotificationBytes(unitInfo: u16, clock: u64)
    ensures var h := MasterNotification(unitInfo, clock); Field(h, 0, 2, unitInfo) && ZeroBytes(h, 2, 2) && Field(h, 4, 8, clock)
  {
    hide ByteOf, LE64;
    var h := MasterNotification(unitInfo, clock);
    WordIsField(unitInfo);
    DoubleIsField(clock);
    FieldAt(h, 0, 2, LE16(unitInfo), unitInfo);
    FieldAt(h, 4, 8, LE64(clock), clock);
  }

  /** The first header, in full; n is the number of stations. */
  lemma FirstHeaderBytes(n: nat)
    requires n <= 16
    ensures var h := RequestHeader(67 + 76 * n);
            && h[..7] == [0x50, 0x00, 0x00, 0xFF, 0xFF, 0x03, 0x00] && Field(h, 7, 2, 58 + 76 * n)
            && h[9..] == [0x00, 0x00, 0x70, 0x0E, 0x00, 0x00]
  {
    hide ByteOf;
    var h := RequestHeader(67 + 76 * n);
    WordIsField(58 + 76 * n);
    FieldAt(h, 7, 2, LE16(58 + 76 * n), 58 + 76 * n);
  }

  lemma IdsAreFields(ids: seq<u32>, k: nat)
    requires k < |ids|
    ensures Field(IdBytes(ids), 4 * k, 4, ids[k])
  {
    hide ByteOf, LE32, IdBytes;
    IdBytesAt(ids, k);
    LongIsField(ids[k]);
    FieldAt(IdBytes(ids), 4 * k, 4, LE32(ids[k]), ids[k]);
  }

  /** Every byte of a request on the wire. */
  lemma RequestBytes(r: Request)
    requires r.WellFormed()
    ensures var b, n := EncodeRequest(r), |r.ids|;
            && |b| == 67 + 76 * n
            && b[..7] == [0x50, 0x00, 0x00, 0xFF, 0xFF, 0x03, 0x00] && Field(b, 7, 2, |b| - 9)
            && b[9..15] == [0x00, 0x00, 0x70, 0x0E, 0x00, 0x00]
            && Field(b, 15, 2, r.protocolVer) && b[17..21] == [0x00, 0x00, 0x24, 0x00] && ZeroBytes(b, 21, 14)
            && Field(b, 35, 2, r.unitInfo) && ZeroBytes(b, 37, 2) && Field(b, 39, 8, r.clock)
            && Field(b, 47, 4, r.masterId) && b[51] == r.groupNo && b[52] == 0 && Field(b, 53, 2, r.seqNo)
            && Field(b, 55, 2, r.timeout) && Field(b, 57, 2, r.offCount) && Field(b, 59, 2, r.parameterNo)
            && Field(b, 61, 2, n) && Field(b, 63, 2, r.word) && ZeroBytes(b, 65, 2)
            && (forall k :: 0 <= k < n ==> Field(b, 67 + 4 * k, 4, r.ids[k]))
            && b[67 + 4 * n..67 + 68 * n] == r.rww && b[67 + 68 * n..] == r.ry
  {
    hide ByteOf, EncodeRequest, RequestHeader, MasterNotification, RequestDataHeader, IdBytes;
    var b, n := EncodeRequest(r), |r.ids|;
    RequestSections(r);
    FirstHeaderBytes(n);
    assert b[..15][..7] == b[..7] && b[..15][9..] == b[9..15];
    assert b[0..15] == b[..15];
    FieldInSection(b, 0, 15, 7, 2, |b| - 9);
    VersionBytes(b, r.protocolVer, 0, 36);
    MasterNotificationBytes(r.unitInfo, r.clock);
    FieldInSection(b, 35, 47, 0, 2, r.unitInfo);
    FieldInSection(b, 35, 47, 4, 8, r.clock);
    ZeroInSection(b, 35, 47, 2, 2);
    DataHeaderBytes(r);
    FieldInSection(b, 47, 67, 0, 4, r.masterId);
    FieldInSection(b, 47, 67, 6, 2, r.seqNo);
    FieldInSection(b, 47, 67, 8, 2, r.timeout);
    FieldInSection(b, 47, 67, 10, 2, r.offCount);
    FieldInSection(b, 47, 67, 12, 2, r.parameterNo);
    FieldInSection(b, 47, 67, 14, 2, n);
    FieldInSection(b, 47, 67, 16, 2, r.word);
    ZeroInSection(b, 47, 67, 18, 2);
    assert b[51] == b[47..67][4] && b[52] == b[47..67][5];
    forall k | 0 <= k < n ensures Field(b, 67 + 4 * k, 4, r.ids[k]) {
      IdsAreFields(r.ids, k);
      FieldInSection(b, 67, 67 + 4 * n, 4 * k, 4, r.ids[k]);
    }
  }

  lemma ZeroInSection(b: seq<byte>, from: nat, to: nat, p: nat, n: nat)
    requires from <= to <= |b| && ZeroBytes(b[from..to], p, n)
    ensures ZeroBytes(b, from + p, n)
  {
    forall k | from + p <= k < from + p + n ensures b[k] == 0 {
      assert b[from..to][k - from] == 0;
    }
  }

  /** The second header of a request. */
  lemma VersionBytes(b: seq<byte>, ver: u16, mid: u16, offset: u16)
    requires |b| >= 35 && b[15..35] == LE16(ver) + LE16(mid) + LE16(offset) + Zeros(14)
    ensures Field(b, 15, 2, ver) && ZeroBytes(b, 21, 14)
    ensures b[17..21] == LE16(mid) + LE16(offset)
  {
    hide ByteOf;
    var h := b[15..35];
    WordIsField(ver);
    FieldAt(h, 0, 2, LE16(ver), ver);
    FieldInSection(b, 15, 35, 0, 2, ver);
    assert h[2..6] == LE16(mid) + LE16(offset);
    assert forall k :: 0 <= k < 4 ==> b[17..21][k] == h[2..6][k];
    forall k | 6 <= k < 20 ensures h[k] == 0 {
      assert h[k] == Zeros(14)[k - 6];
    }
    ZeroInSection(b, 15, 35, 6, 14);
  }

  // ---------------------------------------------------------------- responses

  lemma SlaveNotificationBytes(r: Response)
    ensures var h := SlaveNotification(r);
            && Field(h, 0, 2, r.vendorCode) && ZeroBytes(h, 2, 2) && Field(h, 4, 4, r.modelCode) && Field(h, 8, 2, r.equipmentVer)
            && ZeroBytes(h, 10, 2) && Field(h, 12, 2, r.unitInfo) && Field(h, 14, 2, r.errCode) && Field(h, 16, 4, r.mgmtInfo)
  {
    hide ByteOf, LE32;
    var h := SlaveNotification(r);
    WordIsField(r.vendorCode);
    LongIsField(r.modelCode);
    WordIsField(r.equipmentVer);
    WordIsField(r.unitInfo);
    WordIsField(r.errCode);
    LongIsField(r.mgmtInfo);
    FieldAt(h, 0, 2, LE16(r.vendorCode), r.vendorCode);
    FieldAt(h, 4, 4, LE32(r.modelCode), r.modelCode);
    FieldAt(h, 8, 2, LE16(r.equipmentVer), r.equipmentVer);
    FieldAt(h, 12, 2, LE16(r.unitInfo), r.unitInfo);
    FieldAt(h, 14, 2, LE16(r.errCode), r.errCode);
    FieldAt(h, 16, 4, LE32(r.mgmtInfo), r.mgmtInfo);
  }

  lemma ResponseDataHeaderBytes(r: Response)
    ensures var h := ResponseDataHeader(r); Field(h, 0, 4, r.slaveId) && h[4] == r.groupNo && h[5] == 0 && Field(h, 6, 2, r.seqNo)
  {
    hide ByteOf, LE32;
    var h := ResponseDataHeader(r);
    LongIsField(r.slaveId);
    WordIsField(r.seqNo);
    FieldAt(h, 0, 4, LE32(r.slaveId), r.slaveId);
    FieldAt(h, 6, 2, LE16(r.seqNo), r.seqNo);
  }

  lemma FirstResponseHeaderBytes(size: nat)
    requires DL_OFFSET <= size < 0x1_0000
    ensures var h := ResponseHeader(size);
            && h[..7] == [0xD0, 0x00, 0x00, 0xFF, 0xFF, 0x03, 0x00] && Field(h, 7, 2, size - 9) && h[9..] == [0x00, 0x00]
  {
    hide ByteOf;
    WordIsField(size - 9);
    FieldAt(ResponseHeader(size), 7, 2, LE16(size - 9), size - 9);
  }

  lemma EndCodeBytes(b: seq<byte>, ver: u16, endCode: u16)
    requires |b| >= 31 && b[11..31] == CyclicResponseHeader(ver, endCode)
    ensures Field(b, 11, 2, ver) && Field(b, 13, 2, endCode) && b[15..17] == [0x28, 0x00] && ZeroBytes(b, 17, 14)
  {
    hide ByteOf;
    var h := b[11..31];
    WordIsField(ver);
    WordIsField(endCode);
    FieldAt(h, 0, 2, LE16(ver), ver);
    FieldAt(h, 2, 2, LE16(endCode), endCode);
    FieldInSection(b, 11, 31, 0, 2, ver);
    FieldInSection(b, 11, 31, 2, 2, endCode);
    assert b[15] == h[4] == 0x28 && b[16] == h[5] == 0x00;
    forall k | 6 <= k < 20 ensures h[k] == 0 {
      assert h[k] == Zeros(14)[k - 6];
    }
    ZeroInSection(b, 11, 31, 6, 14);
  }

  /** Every byte of a response on the wire. */
  lemma ResponseBytes(r: Response)
    requires r.WellFormed()
    ensures var b, n := EncodeResponse(r), |r.rx| / 8;
            && |b| == 59 + 72 * n
            && b[..7] == [0xD0, 0x00, 0x00, 0xFF, 0xFF, 0x03, 0x00] && Field(b, 7, 2, |b| - 9) && b[9..11] == [0x00, 0x00]
            && Field(b, 11, 2, r.protocolVer) && Field(b, 13, 2, r.endCode) && b[15..17] == [0x28, 0x00] && ZeroBytes(b, 17, 14)
            && Field(b, 31, 2, r.vendorCode) && ZeroBytes(b, 33, 2) && Field(b, 35, 4, r.modelCode) && Field(b, 39, 2, r.equipmentVer)
            && ZeroBytes(b, 41, 2) && Field(b, 43, 2, r.unitInfo) && Field(b, 45, 2, r.errCode) && Field(b, 47, 4, r.mgmtInfo)
            && Field(b, 51, 4, r.slaveId) && b[55] == r.groupNo && b[56] == 0 && Field(b, 57, 2, r.seqNo)
            && b[59..59 + 64 * n] == r.rwr && b[59 + 64 * n..] == r.rx
  {
    hide ByteOf, EncodeResponse, ResponseHeader, CyclicResponseHeader, SlaveNotification, ResponseDataHeader;
    var b := EncodeResponse(r);
    ResponseSections(r);
    FirstResponseHeaderBytes(|b|);
    assert b[..11][..7] == b[..7] && b[..11][9..] == b[9..11] && b[0..11] == b[..11];
    FieldInSection(b, 0, 11, 7, 2, |b| - 9);
    EndCodeBytes(b, r.protocolVer, r.endCode);
    SlaveNotificationBytes(r);
    FieldInSection(b, 31, 51, 0, 2, r.vendorCode);
    FieldInSection(b, 31, 51, 4, 4, r.modelCode);
    FieldInSection(b, 31, 51, 8, 2, r.equipmentVer);
    FieldInSection(b, 31, 51, 12, 2, r.unitInfo);
    FieldInSection(b, 31, 51, 14, 2, r.errCode);
    FieldInSection(b, 31, 51, 16, 4, r.mgmtInfo);
    ZeroInSection(b, 31, 51, 2, 2);
    ZeroInSection(b, 31, 51, 10, 2);
    ResponseDataHeaderBytes(r);
    FieldInSection(b, 51, 59, 0, 4, r.slaveId);
    FieldInSection(b, 51, 59, 6, 2, r.seqNo);
    assert b[55] == b[51..59][4] && b[56] == b[51..59][5];
  }

  /** A request of the master 192.168.3.1 has 01 03 A8 C0 behind its first 47 bytes. */
  lemma MasterIdInstance(r: Request)
    requires r.WellFormed() && r.masterId == 0xC0A8_0301
    ensures EncodeRequest(r)[47..51] == [0x01, 0x03, 0xA8, 0xC0]
  {
    hide EncodeRequest, Weight;
    RequestBytes(r);
    Weights();
    var b, v := EncodeRequest(r), r.masterId;
    assert ByteOf(v, 0) == 0x01 && ByteOf(v, 1) == 0x03 && ByteOf(v, 2) == 0xA8 && ByteOf(v, 3) == 0xC0;
    assert forall j :: 0 <= j < 4 ==> b[47 + j] == ByteOf(v, j);
  }
}
