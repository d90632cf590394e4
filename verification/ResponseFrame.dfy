/** A response frame in its buffer, as the slave keeps two of them: prepared once, its headers
    patched before every reply, its input data written in place by the application. */
module ResponseFrame {
  import opened Words
  import opened Buffers
  import opened Config
  import opened Frames
  import opened Responses
  import opened SlaveModel
  import opened Image

  // ---------------------------------------------------------------- a patch prints like the patched response

  lemma ResponseShape(r: Response)
    requires r.WellFormed()
    ensures var size := ResponseSize(r.Stations());
            && EncodeResponse(r) == ResponseHeader(size)
               + (CyclicResponseHeader(r.protocolVer, r.endCode) + (SlaveNotification(r) + (ResponseDataHeader(r) + (r.rwr + r.rx))))
  {
  }

  /** Writing inside the second part of a concatenation. */
  lemma SpliceBehind<T>(before: seq<T>, s: seq<T>, p: nat, d: seq<T>)
    requires p + |d| <= |s|
    ensures Splice(before + s, |before| + p, d) == before + Splice(s, p, d)
  {
  }

  lemma SpliceFront<T>(s: seq<T>, after: seq<T>, p: nat, d: seq<T>)
    requires p + |d| <= |s|
    ensures Splice(s + after, p, d) == Splice(s, p, d) + after
  {
  }

  lemma CyclicHeaderPatch(ver: u16, old_: u16, endCode: u16)
    ensures Splice(CyclicResponseHeader(ver, old_), 2, LE16(endCode)) == CyclicResponseHeader(ver, endCode)
  {
  }

  lemma NotificationPatch(r: Response, q: Response)
    requires q.vendorCode == r.vendorCode && q.modelCode == r.modelCode && q.equipmentVer == r.equipmentVer
    ensures Splice(Splice(Splice(SlaveNotification(r), 12, LE16(q.unitInfo)), 14, LE16(q.errCode)), 16, LE32(q.mgmtInfo))
            == SlaveNotification(q)
  {
  }

  lemma DataHeaderPatch(r: Response, q: Response)
    ensures Splice(Splice(Splice(ResponseDataHeader(r), 0, LE32(q.slaveId)), 4, [q.groupNo]), 6, LE16(q.seqNo))
            == ResponseDataHeader(q)
  {
  }

  /** The seven header fields written by cl_iefb_update_cyclic_response_frame. */
  function Patched(s: seq<byte>, q: Response): (r: seq<byte>)
    requires |s| >= 59
    ensures |r| == |s|
  {
    var s1 := Splice(s, 13, LE16(q.endCode));
    var s2 := Splice(Splice(Splice(s1, 43, LE16(q.unitInfo)), 45, LE16(q.errCode)), 47, LE32(q.mgmtInfo));
    Splice(Splice(Splice(s2, 51, LE32(q.slaveId)), 55, [q.groupNo]), 57, LE16(q.seqNo))
  }

  /** q is r with other header values of one reply. */
  predicate SameReply(r: Response, q: Response) {
    q == r.(endCode := q.endCode, unitInfo := q.unitInfo, errCode := q.errCode, mgmtInfo := q.mgmtInfo,
            slaveId := q.slaveId, groupNo := q.groupNo, seqNo := q.seqNo)
  }

  lemma SpliceMiddle<T>(before: seq<T>, mid: seq<T>, after: seq<T>, p: nat, d: seq<T>)
    requires p + |d| <= |mid|
    ensures Splice(before + (mid + after), |before| + p, d) == before + (Splice(mid, p, d) + after)
  {
    hide Splice;
    SpliceBehind(before, mid + after, p, d);
    SpliceFront(mid, after, p, d);
  }

  lemma PatchEndCode(r: Response, endCode: u16)
    requires r.WellFormed()
    ensures EncodeResponse(r.(endCode := endCode)) == Splice(EncodeResponse(r), 13, LE16(endCode))
  {
    hide Splice, LE16, ResponseSize;
    ResponseShape(r);
    ResponseShape(r.(endCode := endCode));
    SpliceMiddle(ResponseHeader(ResponseSize(r.Stations())), CyclicResponseHeader(r.protocolVer, r.endCode),
                 SlaveNotification(r) + (ResponseDataHeader(r) + (r.rwr + r.rx)), 2, LE16(endCode));
    CyclicHeaderPatch(r.protocolVer, r.endCode, endCode);
  }

  lemma FrontOf(r: Response)
    requires r.WellFormed()
    ensures var front := ResponseHeader(ResponseSize(r.Stations())) + CyclicResponseHeader(r.protocolVer, r.endCode);
            && |front| == 31
            && EncodeResponse(r) == front + (SlaveNotification(r) + (ResponseDataHeader(r) + (r.rwr + r.rx)))
            && EncodeResponse(r) == (front + SlaveNotification(r)) + (ResponseDataHeader(r) + (r.rwr + r.rx))
  {
  }

  lemma PatchNotice(r: Response, q: Response)
    requires r.WellFormed() && q == r.(unitInfo := q.unitInfo, errCode := q.errCode, mgmtInfo := q.mgmtInfo)
    ensures EncodeResponse(q)
            == Splice(Splice(Splice(EncodeResponse(r), 43, LE16(q.unitInfo)), 45, LE16(q.errCode)), 47, LE32(q.mgmtInfo))
  {
    hide Splice, LE16, LE32, ResponseSize, SlaveNotification, EncodeResponse, CyclicResponseHeader, ResponseHeader, ResponseDataHeader;
    FrontOf(r);
    FrontOf(q);
    SameDataHeader(r, q);
    var front := ResponseHeader(ResponseSize(r.Stations())) + CyclicResponseHeader(r.protocolVer, r.endCode);
    var after := ResponseDataHeader(r) + (r.rwr + r.rx);
    var n0 := SlaveNotification(r);
    var n1 := Splice(n0, 12, LE16(q.unitInfo));
    var n2 := Splice(n1, 14, LE16(q.errCode));
    SpliceMiddle(front, n0, after, 12, LE16(q.unitInfo));
    SpliceMiddle(front, n1, after, 14, LE16(q.errCode));
    SpliceMiddle(front, n2, after, 16, LE32(q.mgmtInfo));
    NotificationPatch(r, q);
  }

  lemma SameDataHeader(r: Response, q: Response)
    requires q.slaveId == r.slaveId && q.groupNo == r.groupNo && q.seqNo == r.seqNo
    ensures ResponseDataHeader(q) == ResponseDataHeader(r)
  {
  }

  lemma SameNotification(r: Response, q: Response)
    requires q == r.(slaveId := q.slaveId, groupNo := q.groupNo, seqNo := q.seqNo)
    ensures SlaveNotification(q) == SlaveNotification(r)
  {
  }

  lemma PatchAddress(r: Response, q: Response)
    requires r.WellFormed() && q == r.(slaveId := q.slaveId, groupNo := q.groupNo, seqNo := q.seqNo)
    ensures EncodeResponse(q)
            == Splice(Splice(Splice(EncodeResponse(r), 51, LE32(q.slaveId)), 55, [q.groupNo]), 57, LE16(q.seqNo))
  {
    hide Splice, LE16, LE32, ResponseSize, SlaveNotification, EncodeResponse, CyclicResponseHeader, ResponseHeader, ResponseDataHeader;
    FrontOf(r);
    FrontOf(q);
    SameNotification(r, q);
    var front := ResponseHeader(ResponseSize(r.Stations())) + CyclicResponseHeader(r.protocolVer, r.endCode) + SlaveNotification(r);
    var after := r.rwr + r.rx;
    var h0 := ResponseDataHeader(r);
    var h1 := Splice(h0, 0, LE32(q.slaveId));
    var h2 := Splice(h1, 4, [q.groupNo]);
    SpliceMiddle(front, h0, after, 0, LE32(q.slaveId));
    SpliceMiddle(front, h1, after, 4, [q.groupNo]);
    SpliceMiddle(front, h2, after, 6, LE16(q.seqNo));
    DataHeaderPatch(r, q);
  }

  /** The seven field assignments make the printed form of the new reply. */
  lemma PatchReply(r: Response, q: Response)
    requires r.WellFormed() && SameReply(r, q)
    ensures q.WellFormed() && EncodeResponse(q) == Patched(EncodeResponse(r), q)
  {
    hide Splice, LE16, LE32, EncodeResponse, ResponseSize;
    var r1 := r.(endCode := q.endCode);
    var r2 := r1.(unitInfo := q.unitInfo, errCode := q.errCode, mgmtInfo := q.mgmtInfo);
    PatchEndCode(r, q.endCode);
    PatchNotice(r1, r2);
    PatchAddress(r2, q);
  }

  /** Writing input data in the buffer is writing it in the response. */
  lemma PatchRwr(r: Response, p: nat, d: seq<byte>)
    requires r.WellFormed() && p + |d| <= |r.rwr|
    ensures EncodeResponse(r.(rwr := Splice(r.rwr, p, d))) == Splice(EncodeResponse(r), 59 + p, d)
  {
    hide Splice, ResponseHeaders;
    SameHeaders(r, r.(rwr := Splice(r.rwr, p, d)));
    assert EncodeResponse(r) == ResponseHeaders(r) + (r.rwr + r.rx);
    SpliceMiddle(ResponseHeaders(r), r.rwr, r.rx, p, d);
  }

  lemma PatchRx(r: Response, p: nat, d: seq<byte>)
    requires r.WellFormed() && p + |d| <= |r.rx|
    ensures EncodeResponse(r.(rx := Splice(r.rx, p, d))) == Splice(EncodeResponse(r), 59 + |r.rwr| + p, d)
  {
    hide Splice, ResponseHeaders;
    var q := r.(rx := Splice(r.rx, p, d));
    SameHeaders(r, q);
    SpliceBehind(ResponseHeaders(r) + r.rwr, r.rx, p, d);
  }

  lemma SameHeaders(r: Response, q: Response)
    requires r.WellFormed() && q == r.(rwr := q.rwr, rx := q.rx) && |q.rwr| == |r.rwr| && |q.rx| == |r.rx|
    ensures q.WellFormed() && ResponseHeaders(q) == ResponseHeaders(r)
  {
  }

  // ---------------------------------------------------------------- the frame in its buffer

  class ResponseFrame {
    const buffer: array<byte>
    var payloadLen: nat
    var firstRwr: nat
    var firstRx: nat
    ghost var content: Response

    ghost predicate Valid()
      reads this, buffer
    {
      && buffer.Length == BUFFER_LEN
      && content.WellFormed() && 1 <= content.Stations() <= MAX_STATIONS_PER_GROUP
      && payloadLen == ResponseSize(content.Stations())
      && firstRwr == 59
      && firstRx == 59 + |content.rwr|
      && buffer[..payloadLen] == EncodeResponse(content)
    }

    constructor ()
      ensures fresh(buffer) && buffer.Length == BUFFER_LEN && content == ZERO_SLAVE.normal
    {
      buffer := new byte[BUFFER_LEN](i => 0);
      payloadLen, firstRwr, firstRx := 0, 0, 0;
      content := ZERO_SLAVE.normal;
    }

    /** A write below payloadLen, seen on the payload. */
    method PutInFrame(p: nat, d: seq<byte>)
      requires p + |d| <= payloadLen <= buffer.Length
      modifies buffer
      ensures buffer[..payloadLen] == Splice(old(buffer[..payloadLen]), p, d)
    {
      Put(buffer, p, d);
    }

    /** cl_iefb_initialise_cyclic_response_frame */
    method Initialise(cfg: SlaveConfig)
      requires buffer.Length == BUFFER_LEN && ValidSlaveConfig(cfg)
      modifies this, buffer
      ensures Valid() && content == BlankResponse(cfg)
    {
      hide EncodeResponse;
      BlankFits(cfg);
      payloadLen := ResponseSize(cfg.stations);
      content := BlankResponse(cfg);
      Clear(buffer, 0, BUFFER_LEN);
      Put(buffer, 0, ResponseHeader(payloadLen));
      Put(buffer, 11, CyclicResponseHeader(MAX_PROTOCOL_VER, ENDCODE_SUCCESS));
      Put(buffer, 31, LE16(cfg.vendorCode) + LE16(0) + LE32(cfg.modelCode) + LE16(cfg.equipmentVer) + LE16(0)
                      + LE16(1) + LE16(0) + LE32(0));
      Put(buffer, 51, LE32(0) + [0, 0x00] + LE16(0));
      firstRwr := 59;
      firstRx := firstRwr + WORD_AREA * cfg.stations;
      BlankResponseBytes(cfg, buffer[..]);
    }

    /** cl_iefb_update_cyclic_response_frame */
    method Update(slaveId: u32, endCode: u16, groupNo: byte, seqNo: u16, unitInfo: u16, errCode: u16, mgmtInfo: u32)
      requires Valid()
      modifies this`content, buffer
      ensures Valid()
      ensures content == old(content).(slaveId := slaveId, endCode := endCode, groupNo := groupNo, seqNo := seqNo,
                                       unitInfo := unitInfo, errCode := errCode, mgmtInfo := mgmtInfo)
    {
      hide EncodeResponse, Splice, LE16, LE32;
      ghost var q := content.(slaveId := slaveId, endCode := endCode, groupNo := groupNo, seqNo := seqNo,
                              unitInfo := unitInfo, errCode := errCode, mgmtInfo := mgmtInfo);
      PatchReply(content, q);
      PutInFrame(13, LE16(endCode));
      PutInFrame(43, LE16(unitInfo));
      PutInFrame(45, LE16(errCode));
      PutInFrame(47, LE32(mgmtInfo));
      PutInFrame(51, LE32(slaveId));
      PutInFrame(55, [groupNo]);
      PutInFrame(57, LE16(seqNo));
      content := q;
    }

    /** cls_iefb_set_rx_bit: one bit of the input data, in place; header and registers stay. */
    method SetRxBit(number: u16, value: bool)
      requires Valid() && number < 64 * content.Stations()
      modifies this`content, buffer
      ensures Valid() && content == old(content).(rx := FlatBitSet(old(content).rx, 0, number, value))
    {
      hide EncodeResponse, WithBit;
      ghost var r := content;
      ghost var bytes := EncodeResponse(r);
      RxInBuffer(r, number, value);
      assert buffer[..payloadLen][firstRx + number / 8] == buffer[firstRx + number / 8];
      SetBit(buffer, firstRx, number, value);
      assert buffer[..payloadLen] == FlatBitSet(bytes, firstRx, number, value);
      content := r.(rx := FlatBitSet(r.rx, 0, number, value));
    }

    /** cls_iefb_set_rwr_value */
    method SetRwrValue(number: u16, value: u16)
      requires Valid() && number < 32 * content.Stations()
      modifies this`content, buffer
      ensures Valid() && content == old(content).(rwr := FlatRegisterSet(old(content).rwr, 0, number, value))
    {
      hide EncodeResponse;
      ghost var r := content;
      PatchRwr(r, 2 * number, LE16(value));
      SetRegister(buffer, firstRwr, number, value);
      assert buffer[..payloadLen] == Splice(EncodeResponse(r), 59 + 2 * number, LE16(value));
      content := r.(rwr := FlatRegisterSet(r.rwr, 0, number, value));
    }
  }

  /** A bit set in the buffer is the bit set in the input data. */
  lemma RxInBuffer(r: Response, number: nat, value: bool)
    requires r.WellFormed() && number < 64 * r.Stations()
    ensures var first := 59 + |r.rwr|;
            && first + number / 8 < |EncodeResponse(r)| && number / 8 < |r.rx|
            && EncodeResponse(r.(rx := FlatBitSet(r.rx, 0, number, value)))
               == FlatBitSet(EncodeResponse(r), first, number, value)
  {
    hide WithBit;
    var first := 59 + |r.rwr|;
    Pow2Values();
    ResponseSections(r);
    var b := WithBit(8, r.rx[number / 8], number % 8, value);
    PatchRx(r, number / 8, [b]);
    assert EncodeResponse(r)[first + number / 8] == r.rx[number / 8];
    assert FlatBitSet(r.rx, 0, number, value) == Splice(r.rx, number / 8, [b]);
  }

  /** The four headers over a cleared buffer are a whole blank response. */
  lemma BlankResponseBytes(cfg: SlaveConfig, b: seq<byte>)
    requires ValidSlaveConfig(cfg) && |b| == BUFFER_LEN
    requires BlankResponse(cfg).WellFormed()
    requires b == Splice(Splice(Splice(Splice(Splice(b, 0, Zeros(BUFFER_LEN)),
                    0, ResponseHeader(ResponseSize(cfg.stations))), 11, CyclicResponseHeader(MAX_PROTOCOL_VER, ENDCODE_SUCCESS)),
                    31, SlaveNotification(BlankResponse(cfg))), 51, ResponseDataHeader(BlankResponse(cfg)))
    ensures ResponseSize(cfg.stations) <= |b| && b[..ResponseSize(cfg.stations)] == EncodeResponse(BlankResponse(cfg))
  {
    var r := BlankResponse(cfg);
    assert r.Stations() == cfg.stations;
    assert b[..ResponseSize(cfg.stations)] == ResponseHeaders(r) + r.rwr + r.rx;
  }
}
