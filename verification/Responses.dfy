/** Cyclic response frames, printed by a slave and parsed by the master. */
module Responses {
  import opened Words
  import opened Buffers
  import opened Config
  import opened Frames

  const BUFFER_LEN := 1500

  datatype Response = Response(
    protocolVer: u16, endCode: u16,
    vendorCode: u16, modelCode: u32, equipmentVer: u16, unitInfo: u16, errCode: u16, mgmtInfo: u32,
    slaveId: u32, groupNo: byte, seqNo: u16, rwr: seq<byte>, rx: seq<byte>)
  {
    function Stations(): nat {
      |rx| / BIT_AREA
    }

    predicate WellFormed() {
      && |rx| == BIT_AREA * Stations()
      && |rwr| == WORD_AREA * Stations()
      && ResponseSize(Stations()) < 0x1_0000
    }
  }

  function ResponseSize(stations: nat): nat {
    59 + 72 * stations
  }

  function ResponseHeader(size: nat): (s: seq<byte>)
    requires DL_OFFSET <= size < 0x1_0000
    ensures |s| == 11
  {
    BE16(RESPONSE_MARK) + [0x00, 0xFF] + LE16(HEADER_RESERVED4) + [0x00] + LE16(size - DL_OFFSET) + LE16(0)
  }

  function CyclicResponseHeader(protocolVer: u16, endCode: u16): (s: seq<byte>)
    ensures |s| == 20
  {
    LE16(protocolVer) + LE16(endCode) + LE16(RESPONSE_CYCLIC_OFFSET) + Zeros(14)
  }

  function SlaveNotification(r: Response): (s: seq<byte>)
    ensures |s| == 20
  {
    LE16(r.vendorCode) + LE16(0) + LE32(r.modelCode) + LE16(r.equipmentVer) + LE16(0)
    + LE16(r.unitInfo) + LE16(r.errCode) + LE32(r.mgmtInfo)
  }

  function ResponseDataHeader(r: Response): (s: seq<byte>)
    ensures |s| == 8
  {
    LE32(r.slaveId) + [r.groupNo, 0x00] + LE16(r.seqNo)
  }

  function ResponseHeaders(r: Response): (s: seq<byte>)
    requires r.WellFormed()
    ensures |s| == 59
  {
    ResponseHeader(ResponseSize(r.Stations())) + CyclicResponseHeader(r.protocolVer, r.endCode)
    + SlaveNotification(r) + ResponseDataHeader(r)
  }

  function EncodeResponse(r: Response): (s: seq<byte>)
    requires r.WellFormed()
    ensures |s| == ResponseSize(r.Stations())
  {
    ResponseHeaders(r) + r.rwr + r.rx
  }

  // ---------------------------------------------------------------- checks on a response

  /** cl_iefb_validate_response_header */
  predicate ValidResponseHeader(h: seq<byte>, recvLen: nat)
    requires |h| == 11
  {
    && Get16(h, 7) + DL_OFFSET == recvLen
    && GetBE16(h, 0) == RESPONSE_MARK
    && h[2] == 0x00
    && h[3] == 0xFF
    && Get16(h, 4) == HEADER_RESERVED4
    && h[6] == 0x00
    && Get16(h, 9) == 0
  }

  predicate IsResponse(b: seq<byte>) {
    |b| >= 11 && ValidResponseHeader(b[..11], |b|)
  }

  /** cl_iefb_validate_cyclic_resp_header */
  predicate ValidCyclicResponseHeader(h: seq<byte>)
    requires |h| == 20
  {
    && SupportedVersion(Get16(h, 0))
    && Get16(h, 4) == RESPONSE_CYCLIC_OFFSET
    && (forall i :: 6 <= i < 20 ==> h[i] == 0)
  }

  /** cl_iefb_validate_slave_station_notification */
  predicate ValidSlaveNotification(h: seq<byte>)
    requires |h| == 20
  {
    && !(And(Get16(h, 12), 0xFFFE) > 0)
    && Get16(h, 2) == 0
    && Get16(h, 10) == 0
  }

  /** cl_iefb_validate_resp_cyclic_data_header */
  predicate ValidResponseDataHeader(h: seq<byte>, remoteIp: u32)
    requires |h| == 8
  {
    && 1 <= h[4] <= MAX_GROUP_NO
    && h[5] == 0
    && Get32(h, 0) != IPADDR_INVALID
    && Get32(h, 0) == remoteIp
  }

  /** cl_iefb_parse_resp_full_cyclic_headers and cl_iefb_validate_resp_full_cyclic_headers */
  predicate ValidResponseHeaders(b: seq<byte>, remoteIp: u32) {
    && |b| >= 59
    && ValidCyclicResponseHeader(b[11..31])
    && ValidSlaveNotification(b[31..51])
    && ValidResponseDataHeader(b[51..59], remoteIp)
    && |b| == Get16(b, 7) + DL_OFFSET
  }

  /** cl_calculate_number_of_occupied_stations, with its size_t subtraction and its
      truncation to 16 bits. */
  function StationsOfSize(size: nat): nat {
    var n := (size - 59) % 0x1_0000_0000_0000_0000 / 72 % 0x1_0000;
    if size == ResponseSize(n) then n else 0
  }

  /** It inverts the size calculation; other sizes give 0. */
  lemma StationsOfSizeIsInverse(size: nat, n: nat)
    requires 1 <= n < 0x1_0000
    ensures StationsOfSize(size) == n <==> size == ResponseSize(n)
  {
    if size == ResponseSize(n) {
      assert (size - 59) / 72 == n;
    }
  }

  datatype ParseResult = Rejected | AssertionFails | Parsed(r: Response)

  function DecodeResponse(b: seq<byte>): Response
    requires |b| >= 59 && |b| == ResponseSize(StationsOfSize(|b|))
  {
    var n := StationsOfSize(|b|);
    Response(
      Get16(b[11..31], 0), Get16(b[11..31], 2),
      Get16(b[31..51], 0), Get32(b[31..51], 4), Get16(b[31..51], 8), Get16(b[31..51], 12),
      Get16(b[31..51], 14), Get32(b[31..51], 16),
      Get32(b[51..59], 0), b[55], Get16(b[51..59], 6),
      b[59..59 + 64 * n], b[59 + 64 * n..])
  }

  /** cl_iefb_parse_cyclic_response, behind the check of the first header. */
  function ParseResponse(b: seq<byte>, remoteIp: u32): ParseResult {
    if !IsResponse(b) || !ValidResponseHeaders(b, remoteIp) then Rejected
    else if StationsOfSize(|b|) == 0 then Rejected
    else if StationsOfSize(|b|) > MAX_STATIONS_PER_GROUP then AssertionFails
    else Parsed(DecodeResponse(b))
  }

  // ---------------------------------------------------------------- printing and parsing agree

  /** The responses the master accepts from the slave with address ip. */
  predicate SendableResponse(r: Response, ip: u32) {
    && r.WellFormed()
    && 1 <= r.Stations() <= MAX_STATIONS_PER_GROUP
    && SupportedVersion(r.protocolVer)
    && r.unitInfo <= 1
    && 1 <= r.groupNo <= MAX_GROUP_NO
    && r.slaveId == ip != IPADDR_INVALID
  }

  lemma ResponseHeaderIff(h: seq<byte>, size: nat)
    requires |h| == 11 && DL_OFFSET <= size < 0x1_0000
    ensures h == ResponseHeader(size) <==> ValidResponseHeader(h, size)
  {
    var want := ResponseHeader(size);
    assert want == [0xD0, 0x00, 0x00, 0xFF, 0xFF, 0x03, 0x00,
                    (size - DL_OFFSET) % 0x100, (size - DL_OFFSET) / 0x100, 0, 0];
    if ValidResponseHeader(h, size) {
      assert forall i :: 0 <= i < 11 ==> h[i] == want[i];
    }
  }

  lemma CyclicResponseHeaderIff(h: seq<byte>, ver: u16, endCode: u16)
    requires |h| == 20 && SupportedVersion(ver)
    ensures h == CyclicResponseHeader(ver, endCode)
            <==> ValidCyclicResponseHeader(h) && Get16(h, 0) == ver && Get16(h, 2) == endCode
  {
    var want := CyclicResponseHeader(ver, endCode);
    assert want == [ver % 0x100, ver / 0x100, endCode % 0x100, endCode / 0x100, 40, 0] + Zeros(14);
    if ValidCyclicResponseHeader(h) && Get16(h, 0) == ver && Get16(h, 2) == endCode {
      assert forall i :: 0 <= i < 20 ==> h[i] == want[i];
    }
  }

  lemma SlaveNotificationIff(h: seq<byte>, r: Response)
    requires |h| == 20
    ensures h == SlaveNotification(r) && r.unitInfo <= 1
            <==> && ValidSlaveNotification(h) && Get16(h, 0) == r.vendorCode && Get32(h, 4) == r.modelCode
                 && Get16(h, 8) == r.equipmentVer && Get16(h, 12) == r.unitInfo && Get16(h, 14) == r.errCode
                 && Get32(h, 16) == r.mgmtInfo
  {
    UnitInfoMask(Get16(h, 12));
    var first := LE16(r.vendorCode) + LE16(0);
    var middle := LE16(r.equipmentVer) + LE16(0) + LE16(r.unitInfo) + LE16(r.errCode);
    assert SlaveNotification(r) == first + (LE32(r.modelCode) + (middle + LE32(r.mgmtInfo)));
    ConcatIff(h, first, LE32(r.modelCode) + (middle + LE32(r.mgmtInfo)));
    ConcatIff(h[4..], LE32(r.modelCode), middle + LE32(r.mgmtInfo));
    ConcatIff(h[4..][4..], middle, LE32(r.mgmtInfo));
    assert h[4..][..4] == h[4..8] && h[4..][4..] == h[8..] && h[8..][..8] == h[8..16] && h[8..][8..] == h[16..20];
    Get32IsInverse(h, 4, r.modelCode);
    Get32IsInverse(h, 16, r.mgmtInfo);
    TwoWords(h[..4], r.vendorCode, 0);
    FourWords(h[8..16], r.equipmentVer, 0, r.unitInfo, r.errCode);
  }

  lemma ResponseDataHeaderIff(h: seq<byte>, r: Response)
    requires |h| == 8
    ensures h == ResponseDataHeader(r)
            <==> Get32(h, 0) == r.slaveId && h[4] == r.groupNo && h[5] == 0 && Get16(h, 6) == r.seqNo
  {
    var rest := [r.groupNo, 0x00] + LE16(r.seqNo);
    assert ResponseDataHeader(r) == LE32(r.slaveId) + rest;
    ConcatIff(h, LE32(r.slaveId), rest);
    Get32IsInverse(h, 0, r.slaveId);
    assert h[..4] == h[0..4];
    assert rest == [r.groupNo, 0x00, r.seqNo % 0x100, r.seqNo / 0x100];
    assert h[4..] == [h[4], h[5], h[6], h[7]];
  }

  lemma ResponseSections(r: Response)
    requires r.WellFormed()
    ensures var b, n := EncodeResponse(r), r.Stations();
            && b[..11] == ResponseHeader(|b|) && b[11..31] == CyclicResponseHeader(r.protocolVer, r.endCode)
            && b[31..51] == SlaveNotification(r) && b[51..59] == ResponseDataHeader(r)
            && b[59..59 + 64 * n] == r.rwr && b[59 + 64 * n..] == r.rx
  {
    var b := EncodeResponse(r);
    var heads := ResponseHeaders(r);
    assert b[..59] == heads;
    assert b[..11] == heads[..11] && b[11..31] == heads[11..31] && b[31..51] == heads[31..51]
           && b[51..59] == heads[51..59];
  }

  /** The bytes the master accepts, and reads as r, are the bytes the printer makes of r. */
  lemma ResponseRoundTrip(b: seq<byte>, ip: u32, r: Response)
    ensures ParseResponse(b, ip) == Parsed(r) <==> SendableResponse(r, ip) && b == EncodeResponse(r)
  {
    if SendableResponse(r, ip) && b == EncodeResponse(r) {
      EncodedResponseIsAccepted(r, ip);
    }
    if ParseResponse(b, ip) == Parsed(r) {
      AcceptedResponseIsEncoded(b, ip);
    }
  }

  lemma ReplyIsResponse(b: seq<byte>, ip: u32)
    ensures ParseResponse(b, ip).Parsed? ==> IsResponse(b)
  {
  }

  lemma EncodedResponseIsAccepted(r: Response, ip: u32)
    requires SendableResponse(r, ip)
    ensures ParseResponse(EncodeResponse(r), ip) == Parsed(r)
  {
    var b := EncodeResponse(r);
    ResponseSections(r);
    StationsOfSizeIsInverse(|b|, r.Stations());
    ResponseHeaderIff(b[..11], |b|);
    CyclicResponseHeaderIff(b[11..31], r.protocolVer, r.endCode);
    SlaveNotificationIff(b[31..51], r);
    ResponseDataHeaderIff(b[51..59], r);
    assert b[51..59][4] == b[55];
    assert Get16(b, 7) == Get16(b[..11], 7);
  }

  lemma AcceptedResponseIsEncoded(b: seq<byte>, ip: u32)
    requires ParseResponse(b, ip).Parsed?
    ensures var r := ParseResponse(b, ip).r; SendableResponse(r, ip) && b == EncodeResponse(r)
  {
    var r := DecodeResponse(b);
    var n := StationsOfSize(|b|);
    StationsOfSizeIsInverse(|b|, n);
    assert r.Stations() == n;
    assert b[51..59][4] == b[55];
    ResponseHeaderIff(b[..11], |b|);
    CyclicResponseHeaderIff(b[11..31], r.protocolVer, r.endCode);
    SlaveNotificationIff(b[31..51], r);
    ResponseDataHeaderIff(b[51..59], r);
    assert b == b[..11] + b[11..31] + b[31..51] + b[51..59] + b[59..59 + 64 * n] + b[59 + 64 * n..];
  }

  /** Neither kind of frame is taken for the other: no bytes pass both first checks. */
  lemma KindsAreDisjoint(b: seq<byte>)
    ensures !(IsResponse(b) && IsRequest(b))
  {
    if |b| >= 15 {
      assert GetBE16(b[..11], 0) == GetBE16(b[..15], 0);
    }
  }

  /** Of the frames with valid headers, the parser's own assertion holds exactly for those
      of at most 16 stations; a receive buffer of 1500 bytes admits longer ones. */
  lemma ParserAssertionHoldsIff(b: seq<byte>, ip: u32)
    requires IsResponse(b) && ValidResponseHeaders(b, ip)
    ensures ParseResponse(b, ip) != AssertionFails <==>
            |b| <= ResponseSize(MAX_STATIONS_PER_GROUP) || (|b| - 59) % 72 != 0
  {
    StationsOfPlausibleSize(|b|);
  }

  lemma StationsOfPlausibleSize(size: nat)
    requires 59 <= size < 0x1_0000 + DL_OFFSET
    ensures StationsOfSize(size) == if (size - 59) % 72 == 0 then (size - 59) / 72 else 0
  {
  }

  lemma ParserAssertionFailsFor17Stations()
    ensures exists b: seq<byte>, ip: u32 :: |b| <= BUFFER_LEN && ParseResponse(b, ip) == AssertionFails
  {
    var r := Response(2, ENDCODE_SUCCESS, 0, 0, 0, 1, 0, 0, 1, 1, 0, Zeros(64 * 17), Zeros(8 * 17));
    var b := EncodeResponse(r);
    ResponseSections(r);
    ResponseHeaderIff(b[..11], |b|);
    CyclicResponseHeaderIff(b[11..31], r.protocolVer, r.endCode);
    SlaveNotificationIff(b[31..51], r);
    ResponseDataHeaderIff(b[51..59], r);
    assert Get16(b, 7) == Get16(b[..11], 7);
    StationsOfSizeIsInverse(|b|, 17);
    assert ParseResponse(b, 1) == AssertionFails;
  }
}
