/** Cyclic request and response frames: what they carry, the bytes they are, and the
    checks a receiver makes (src/common/cl_iefb.c, layouts in src/common/cl_types.h). */
module Frames {
  import opened Words
  import opened Buffers
  import opened Config

  const REQUEST_MARK: u16 := 0x5000
  const RESPONSE_MARK: u16 := 0xD000
  const HEADER_RESERVED4: u16 := 0x03FF
  const DL_OFFSET := 9
  const COMMAND_CCIEFB_CYCLIC: u16 := 0x0E70
  const SUBCOMMAND_CCIEFB_CYCLIC: u16 := 0x0000
  const REQUEST_CYCLIC_OFFSET: u16 := 36
  const RESPONSE_CYCLIC_OFFSET: u16 := 40
  const MAX_GROUP_NO := 64

  const ENDCODE_SUCCESS: u16 := 0x0000
  const ENDCODE_MASTER_DUPLICATION: u16 := 0xCFE0
  const ENDCODE_WRONG_NUMBER_OCCUPIED: u16 := 0xCFE1
  const ENDCODE_SLAVE_ERROR: u16 := 0xCFF0
  const ENDCODE_SLAVE_REQUESTS_DISCONNECT: u16 := 0xCFFF

  const UNIT_INFO_STOPPED: u16 := 0
  const UNIT_INFO_RUNNING: u16 := 1
  const UNIT_INFO_STOPPED_BY_USER: u16 := 2

  /** One station's share: 32 register words, and 64 bits. */
  const WORD_AREA := 64
  const BIT_AREA := 8

  // ---------------------------------------------------------------- requests

  datatype Request = Request(
    protocolVer: u16, unitInfo: u16, clock: u64,
    masterId: u32, groupNo: byte, seqNo: u16, timeout: u16, offCount: u16, parameterNo: u16, word: u16,
    ids: seq<u32>, rww: seq<byte>, ry: seq<byte>)
  {
    /** One ID, one RWw area and one RY area per station, and a length the header can state. */
    predicate WellFormed() {
      && 1 <= |ids| <= MAX_STATIONS_PER_GROUP
      && |rww| == WORD_AREA * |ids|
      && |ry| == BIT_AREA * |ids|
    }
  }

  /** Zeroed memory: not a request. */
  const NO_REQUEST := Request(0, 0, 0, 0, 0, 0, 0, 0, 0, 0, [], [], [])

  function RequestSize(stations: nat): nat {
    67 + 76 * stations
  }

  function RequestHeader(size: nat): (s: seq<byte>)
    requires DL_OFFSET <= size < 0x1_0000
    ensures |s| == 15
  {
    BE16(REQUEST_MARK) + [0x00, 0xFF] + LE16(HEADER_RESERVED4) + [0x00]
    + LE16(size - DL_OFFSET) + LE16(0) + LE16(COMMAND_CCIEFB_CYCLIC) + LE16(SUBCOMMAND_CCIEFB_CYCLIC)
  }

  function CyclicRequestHeader(protocolVer: u16): (s: seq<byte>)
    ensures |s| == 20
  {
    LE16(protocolVer) + LE16(0) + LE16(REQUEST_CYCLIC_OFFSET) + Zeros(14)
  }

  function MasterNotification(unitInfo: u16, clock: u64): (s: seq<byte>)
    ensures |s| == 12
  {
    LE16(unitInfo) + LE16(0) + LE64(clock)
  }

  function RequestDataHeader(r: Request): (s: seq<byte>)
    requires |r.ids| < 0x1_0000
    ensures |s| == 20
  {
    LE32(r.masterId) + [r.groupNo, 0x00] + LE16(r.seqNo) + LE16(r.timeout) + LE16(r.offCount)
    + LE16(r.parameterNo) + LE16(|r.ids|) + LE16(r.word) + LE16(0)
  }

  function IdBytes(ids: seq<u32>): (s: seq<byte>)
    ensures |s| == 4 * |ids|
  {
    seq(4 * |ids|, k requires 0 <= k < 4 * |ids| => LE32(ids[k / 4])[k % 4])
  }

  /** The four headers of a request. */
  function RequestHeaders(r: Request): (s: seq<byte>)
    requires r.WellFormed()
    ensures |s| == 67
  {
    RequestHeader(RequestSize(|r.ids|)) + CyclicRequestHeader(r.protocolVer)
    + MasterNotification(r.unitInfo, r.clock) + RequestDataHeader(r)
  }

  function EncodeRequest(r: Request): (s: seq<byte>)
    requires r.WellFormed()
    ensures |s| == RequestSize(|r.ids|)
  {
    RequestHeaders(r) + IdBytes(r.ids) + r.rww + r.ry
  }

  // ---------------------------------------------------------------- checks on a request

  /** cl_iefb_validate_request_header; the header is the first 15 bytes. */
  predicate ValidRequestHeader(h: seq<byte>, recvLen: nat)
    requires |h| == 15
  {
    && Get16(h, 7) + DL_OFFSET == recvLen
    && GetBE16(h, 0) == REQUEST_MARK
    && h[2] == 0x00
    && h[3] == 0xFF
    && Get16(h, 4) == HEADER_RESERVED4
    && h[6] == 0x00
    && Get16(h, 9) == 0
  }

  predicate IsCyclicCommand(h: seq<byte>)
    requires |h| == 15
  {
    Get16(h, 11) == COMMAND_CCIEFB_CYCLIC && Get16(h, 13) == SUBCOMMAND_CCIEFB_CYCLIC
  }

  predicate SupportedVersion(ver: u16) {
    MIN_PROTOCOL_VER <= ver <= MAX_PROTOCOL_VER
  }

  /** cl_iefb_validate_cyclic_request_header */
  predicate ValidCyclicRequestHeader(h: seq<byte>)
    requires |h| == 20
  {
    && SupportedVersion(Get16(h, 0))
    && Get16(h, 4) == REQUEST_CYCLIC_OFFSET
    && Get16(h, 2) == 0
    && (forall i :: 6 <= i < 20 ==> h[i] == 0)
  }

  /** cl_iefb_validate_master_station_notification */
  predicate ValidMasterNotification(h: seq<byte>, ver: u16)
    requires |h| == 12
  {
    && SupportedVersion(ver)
    && !(And(Get16(h, 0), if ver == 1 then 0xFFFE else 0xFFFC) > 0)
    && Get16(h, 2) == 0
  }

  /** cl_iefb_validate_req_cyclic_data_header */
  predicate ValidRequestDataHeader(h: seq<byte>, remoteIp: u32)
    requires |h| == 20
  {
    && 1 <= h[4] <= MAX_GROUP_NO
    && 1 <= Get16(h, 14) <= MAX_STATIONS_PER_GROUP
    && h[5] == 0
    && Get16(h, 18) == 0
    && Get32(h, 0) != IPADDR_INVALID
    && Get32(h, 0) == remoteIp
  }

  /** cl_iefb_validate_req_cyclic_frame_size: the total length, dl and the station count agree. */
  predicate ValidRequestSize(recvLen: nat, dl: u16, stations: u16) {
    recvLen == dl + DL_OFFSET && recvLen == RequestSize(stations)
  }

  /** The header part of the checks cls_iefb_handle_input_frame makes. */
  predicate IsRequest(b: seq<byte>) {
    |b| >= 15 && ValidRequestHeader(b[..15], |b|) && IsCyclicCommand(b[..15])
  }

  /** cl_iefb_parse_cyclic_request: the full headers and the size. */
  predicate ValidRequestHeaders(b: seq<byte>, remoteIp: u32) {
    && |b| >= 67
    && ValidCyclicRequestHeader(b[15..35])
    && ValidMasterNotification(b[35..47], Get16(b[15..35], 0))
    && ValidRequestDataHeader(b[47..67], remoteIp)
    && ValidRequestSize(|b|, Get16(b, 7), Get16(b[47..67], 14))
  }

  predicate AcceptsRequest(b: seq<byte>, remoteIp: u32) {
    IsRequest(b) && ValidRequestHeaders(b, remoteIp)
  }

  /** The fields of an accepted request. */
  function DecodeRequest(b: seq<byte>): Request
    requires |b| >= 67 && |b| == RequestSize(Get16(b[47..67], 14))
  {
    var h := b[47..67];
    var n := Get16(h, 14);
    Request(
      Get16(b[15..35], 0), Get16(b[35..47], 0), Get64(b[35..47], 4),
      Get32(h, 0), h[4], Get16(h, 6), Get16(h, 8), Get16(h, 10), Get16(h, 12), Get16(h, 16),
      seq(n, k requires 0 <= k < n => Get32(b, 67 + 4 * k)),
      b[67 + 4 * n..67 + 68 * n], b[67 + 68 * n..])
  }

  // ---------------------------------------------------------------- requests: printing and parsing agree

  /** The requests a receiver accepts from the master with address ip. */
  predicate Sendable(r: Request, ip: u32) {
    && r.WellFormed()
    && SupportedVersion(r.protocolVer)
    && r.unitInfo <= (if r.protocolVer == 1 then 1 else 3)
    && 1 <= r.groupNo <= MAX_GROUP_NO
    && r.masterId == ip != IPADDR_INVALID
  }

  /** Splitting a sequence in two decides equality with a concatenation. */
  lemma ConcatIff<T>(s: seq<T>, a: seq<T>, t: seq<T>)
    ensures s == a + t <==> |s| == |a| + |t| && s[..|a|] == a && s[|a|..] == t
  {
    if |s| == |a| + |t| && s[..|a|] == a && s[|a|..] == t {
      assert s == s[..|a|] + s[|a|..];
    }
    if s == a + t {
      assert s[..|a|] == a && s[|a|..] == t;
    }
  }

  lemma RequestHeaderIff(h: seq<byte>, size: nat)
    requires |h| == 15 && DL_OFFSET <= size < 0x1_0000
    ensures h == RequestHeader(size) <==> ValidRequestHeader(h, size) && IsCyclicCommand(h)
  {
    var want := RequestHeader(size);
    assert want == [0x50, 0x00, 0x00, 0xFF, 0xFF, 0x03, 0x00,
                    (size - DL_OFFSET) % 0x100, (size - DL_OFFSET) / 0x100, 0, 0, 0x70, 0x0E, 0, 0];
    if ValidRequestHeader(h, size) && IsCyclicCommand(h) {
      assert forall i :: 0 <= i < 15 ==> h[i] == want[i];
    }
  }

  lemma CyclicRequestHeaderIff(h: seq<byte>, ver: u16)
    requires |h| == 20 && SupportedVersion(ver)
    ensures h == CyclicRequestHeader(ver) <==> ValidCyclicRequestHeader(h) && Get16(h, 0) == ver
  {
    var want := CyclicRequestHeader(ver);
    assert want == [ver % 0x100, ver / 0x100, 0, 0, 36, 0] + Zeros(14);
    if ValidCyclicRequestHeader(h) && Get16(h, 0) == ver {
      assert forall i :: 0 <= i < 20 ==> h[i] == want[i];
    }
  }

  /** The mask test on the unit info leaves the values the protocol version defines. */
  lemma UnitInfoMask(w: u16)
    ensures And(w, 0xFFFE) == 0 <==> w <= 1
    ensures And(w, 0xFFFC) == 0 <==> w <= 3
  {
    Pow2Values();
    assert Pow2(15) == 2 * Pow2(14) && Pow2(16) == 2 * Pow2(15);
    AndWithOnes(15, w / 2);
    AndWithOnes(14, w / 4);
    assert And(w, 0xFFFE) == 2 * And(w / 2, 0x7FFF);
    assert And(w / 2, 0x7FFE) == 2 * And(w / 2 / 2, 0x3FFF);
    assert And(w, 0xFFFC) == 2 * And(w / 2, 0x7FFE);
  }

  lemma MasterNotificationIff(h: seq<byte>, ver: u16, unitInfo: u16, clock: u64)
    requires |h| == 12 && SupportedVersion(ver)
    ensures h == MasterNotification(unitInfo, clock) && unitInfo <= (if ver == 1 then 1 else 3)
            <==> ValidMasterNotification(h, ver) && Get16(h, 0) == unitInfo && Get64(h, 4) == clock
  {
    UnitInfoMask(Get16(h, 0));
    Get16IsInverse(h, 0, unitInfo);
    Get16IsInverse(h, 2, 0);
    Get64IsInverse(h, 4, clock);
    ConcatIff(h, LE16(unitInfo) + LE16(0), LE64(clock));
    ConcatIff(h[..4], LE16(unitInfo), LE16(0));
    assert h[..4][..2] == h[0..2] && h[..4][2..] == h[2..4] && h[4..] == h[4..12];
  }

  predicate DataHeaderFields(h: seq<byte>, r: Request)
    requires |h| == 20 && |r.ids| < 0x1_0000
  {
    && Get32(h, 0) == r.masterId && h[4] == r.groupNo && h[5] == 0
    && Get16(h, 6) == r.seqNo && Get16(h, 8) == r.timeout && Get16(h, 10) == r.offCount
    && Get16(h, 12) == r.parameterNo && Get16(h, 14) == |r.ids| && Get16(h, 16) == r.word
    && Get16(h, 18) == 0
  }

  lemma RequestDataHeaderIff(h: seq<byte>, r: Request)
    requires |h| == 20 && |r.ids| < 0x1_0000
    ensures h == RequestDataHeader(r) <==> DataHeaderFields(h, r)
  {
    var want := RequestDataHeader(r);
    var first := LE32(r.masterId) + [r.groupNo, 0x00];
    var rest := LE16(r.seqNo) + LE16(r.timeout) + LE16(r.offCount)
                + LE16(r.parameterNo) + LE16(|r.ids|) + LE16(r.word) + LE16(0);
    assert want == first + rest;
    ConcatIff(h, first, rest);
    ConcatIff(h[..6], LE32(r.masterId), [r.groupNo, 0x00]);
    assert h[..6][..4] == h[0..4] && h[..6][4..] == [h[4], h[5]];
    Get32IsInverse(h, 0, r.masterId);
    SevenWords(h[6..], r.seqNo, r.timeout, r.offCount, r.parameterNo, |r.ids|, r.word, 0);
  }

  lemma SevenWords(h: seq<byte>, a: u16, b: u16, c: u16, d: u16, e: u16, f: u16, g: u16)
    requires |h| == 14
    ensures h == LE16(a) + LE16(b) + LE16(c) + LE16(d) + LE16(e) + LE16(f) + LE16(g)
            <==> && Get16(h, 0) == a && Get16(h, 2) == b && Get16(h, 4) == c && Get16(h, 6) == d
                 && Get16(h, 8) == e && Get16(h, 10) == f && Get16(h, 12) == g
  {
    FourWords(h[..8], a, b, c, d);
    ThreeWords(h[8..], e, f, g);
    var front, back := LE16(a) + LE16(b) + LE16(c) + LE16(d), LE16(e) + LE16(f) + LE16(g);
    assert LE16(a) + LE16(b) + LE16(c) + LE16(d) + LE16(e) + LE16(f) + LE16(g) == front + back;
    ConcatIff(h, front, back);
  }

  lemma TwoWords(h: seq<byte>, a: u16, b: u16)
    requires |h| == 4
    ensures h == LE16(a) + LE16(b) <==> Get16(h, 0) == a && Get16(h, 2) == b
  {
    assert LE16(a) + LE16(b) == [a % 0x100, a / 0x100, b % 0x100, b / 0x100];
  }

  lemma ThreeWords(h: seq<byte>, a: u16, b: u16, c: u16)
    requires |h| == 6
    ensures h == LE16(a) + LE16(b) + LE16(c) <==> Get16(h, 0) == a && Get16(h, 2) == b && Get16(h, 4) == c
  {
    assert LE16(a) + LE16(b) + LE16(c) == [a % 0x100, a / 0x100, b % 0x100, b / 0x100, c % 0x100, c / 0x100];
  }

  lemma FourWords(h: seq<byte>, a: u16, b: u16, c: u16, d: u16)
    requires |h| == 8
    ensures h == LE16(a) + LE16(b) + LE16(c) + LE16(d)
            <==> Get16(h, 0) == a && Get16(h, 2) == b && Get16(h, 4) == c && Get16(h, 6) == d
  {
    assert LE16(a) + LE16(b) + LE16(c) + LE16(d)
           == [a % 0x100, a / 0x100, b % 0x100, b / 0x100, c % 0x100, c / 0x100, d % 0x100, d / 0x100];
  }

  lemma IdBytesAt(ids: seq<u32>, k: nat)
    requires k < |ids|
    ensures IdBytes(ids)[4 * k..4 * k + 4] == LE32(ids[k])
  {
    var want := IdBytes(ids);
    forall j | 0 <= j < 4 ensures want[4 * k + j] == LE32(ids[k])[j] {
      assert (4 * k + j) / 4 == k && (4 * k + j) % 4 == j;
    }
  }

  lemma IdBytesIff(s: seq<byte>, ids: seq<u32>)
    requires |s| == 4 * |ids|
    ensures s == IdBytes(ids) <==> forall k :: 0 <= k < |ids| ==> Get32(s, 4 * k) == ids[k]
  {
    forall k | 0 <= k < |ids| ensures Get32(s, 4 * k) == ids[k] <==> s[4 * k..4 * k + 4] == LE32(ids[k]) {
      Get32IsInverse(s, 4 * k, ids[k]);
    }
    forall k | 0 <= k < |ids| ensures IdBytes(ids)[4 * k..4 * k + 4] == LE32(ids[k]) {
      IdBytesAt(ids, k);
    }
    if forall k :: 0 <= k < |ids| ==> Get32(s, 4 * k) == ids[k] {
      forall i | 0 <= i < |s| ensures s[i] == IdBytes(ids)[i] {
        assert Get32(s, 4 * (i / 4)) == ids[i / 4];
        assert s[4 * (i / 4)..4 * (i / 4) + 4][i % 4] == s[i];
      }
    }
  }

  /** Where each section of an encoded request lies. */
  lemma RequestSections(r: Request)
    requires r.WellFormed()
    ensures var b, n := EncodeRequest(r), |r.ids|;
            && b[..15] == RequestHeader(|b|) && b[15..35] == CyclicRequestHeader(r.protocolVer)
            && b[35..47] == MasterNotification(r.unitInfo, r.clock) && b[47..67] == RequestDataHeader(r)
            && b[67..67 + 4 * n] == IdBytes(r.ids) && b[67 + 4 * n..67 + 68 * n] == r.rww
            && b[67 + 68 * n..] == r.ry
  {
    var b, n := EncodeRequest(r), |r.ids|;
    var heads := RequestHeaders(r);
    assert b[..67] == heads;
    assert b[..15] == heads[..15] && b[15..35] == heads[15..35] && b[35..47] == heads[35..47]
           && b[47..67] == heads[47..67];
  }

  /** Printer and parser are each other's inverse, in both directions: the bytes a slave
      accepts, and reads as r, are the bytes the printer makes of r and nothing else. */
  lemma RequestRoundTrip(b: seq<byte>, ip: u32, r: Request)
    ensures AcceptsRequest(b, ip) && DecodeRequest(b) == r
            <==> Sendable(r, ip) && b == EncodeRequest(r)
  {
    if Sendable(r, ip) && b == EncodeRequest(r) {
      EncodedIsAccepted(r, ip);
    }
    if AcceptsRequest(b, ip) && DecodeRequest(b) == r {
      AcceptedIsEncoded(b, ip);
    }
  }

  lemma EncodedIsAccepted(r: Request, ip: u32)
    requires Sendable(r, ip)
    ensures AcceptsRequest(EncodeRequest(r), ip) && DecodeRequest(EncodeRequest(r)) == r
  {
    var b, n := EncodeRequest(r), |r.ids|;
    RequestSections(r);
    RequestHeaderIff(b[..15], |b|);
    CyclicRequestHeaderIff(b[15..35], r.protocolVer);
    MasterNotificationIff(b[35..47], r.protocolVer, r.unitInfo, r.clock);
    RequestDataHeaderIff(b[47..67], r);
    assert Get16(b, 7) == Get16(b[..15], 7);
    EncodedIds(b, r.ids);
  }

  /** A field read through a section is the field at the section's offset. */
  lemma Get32InSection(b: seq<byte>, from: nat, to: nat, p: nat)
    requires from <= to <= |b| && from + p + 4 <= to
    ensures Get32(b[from..to], p) == Get32(b, from + p)
  {
  }

  lemma EncodedIds(b: seq<byte>, ids: seq<u32>)
    requires 67 + 4 * |ids| <= |b| && b[67..67 + 4 * |ids|] == IdBytes(ids)
    ensures seq(|ids|, k requires 0 <= k < |ids| => Get32(b, 67 + 4 * k)) == ids
  {
    IdBytesIff(b[67..67 + 4 * |ids|], ids);
    var got := seq(|ids|, k requires 0 <= k < |ids| => Get32(b, 67 + 4 * k));
    forall k | 0 <= k < |ids| ensures got[k] == ids[k] {
      Get32InSection(b, 67, 67 + 4 * |ids|, 4 * k);
    }
  }

  lemma AcceptedIsEncoded(b: seq<byte>, ip: u32)
    requires AcceptsRequest(b, ip)
    ensures Sendable(DecodeRequest(b), ip) && b == EncodeRequest(DecodeRequest(b))
  {
    var r := DecodeRequest(b);
    var n := |r.ids|;
    RequestHeaderIff(b[..15], |b|);
    CyclicRequestHeaderIff(b[15..35], r.protocolVer);
    MasterNotificationIff(b[35..47], r.protocolVer, r.unitInfo, r.clock);
    RequestDataHeaderIff(b[47..67], r);
    forall k | 0 <= k < n ensures Get32(b[67..67 + 4 * n], 4 * k) == r.ids[k] {
      Get32InSection(b, 67, 67 + 4 * n, 4 * k);
    }
    IdBytesIff(b[67..67 + 4 * n], r.ids);
    RequestParts(b, n);
  }

  lemma RequestParts(b: seq<byte>, n: nat)
    requires |b| == RequestSize(n)
    ensures b == (b[..15] + b[15..35] + b[35..47] + b[47..67]) + b[67..67 + 4 * n]
                 + b[67 + 4 * n..67 + 68 * n] + b[67 + 68 * n..]
  {
    assert b[..15] + b[15..35] + b[35..47] + b[47..67] == b[..67];
  }
}
