/** The master's request frame, kept in one send buffer and patched in place between
    scans. Every method leaves the bytes equal to the printed form of `content`. */
module RequestFrame {
  import opened Words
  import opened Buffers
  import opened Config
  import opened Layout
  import opened Frames
  import opened Responses

  // ---------------------------------------------------------------- a patch prints like the patched request

  lemma SpliceThenAppend<T>(s: seq<T>, p: nat, d: seq<T>, e: seq<T>)
    requires p + |d| + |e| <= |s|
    ensures Splice(Splice(s, p, d), p + |d|, e) == Splice(s, p, d + e)
  {
  }

  lemma SplicePrefix<T>(s: seq<T>, p: nat, d: seq<T>, n: nat)
    requires p + |d| <= n <= |s|
    ensures Splice(s, p, d)[..n] == Splice(s[..n], p, d)
  {
  }

  /** What surrounds the third and the fourth header. */
  lemma RequestShape(r: Request)
    requires r.WellFormed()
    ensures var front := RequestHeader(RequestSize(|r.ids|)) + CyclicRequestHeader(r.protocolVer);
            var data := IdBytes(r.ids) + r.rww + r.ry;
            && EncodeRequest(r) == front + MasterNotification(r.unitInfo, r.clock) + (RequestDataHeader(r) + data)
            && EncodeRequest(r) == (front + MasterNotification(r.unitInfo, r.clock)) + RequestDataHeader(r) + data
  {
  }

  lemma PatchNotification(r: Request, unitInfo: u16, clock: u64)
    requires r.WellFormed()
    ensures EncodeRequest(r.(unitInfo := unitInfo, clock := clock))
            == Splice(Splice(EncodeRequest(r), 35, LE16(unitInfo)), 39, LE64(clock))
  {
    var front := RequestHeader(RequestSize(|r.ids|)) + CyclicRequestHeader(r.protocolVer);
    var after := RequestDataHeader(r) + (IdBytes(r.ids) + r.rww + r.ry);
    var s0 := MasterNotification(r.unitInfo, r.clock);
    var s1 := Splice(s0, 0, LE16(unitInfo));
    RequestShape(r);
    RequestShape(r.(unitInfo := unitInfo, clock := clock));
    SpliceInSection(front, s0, after, 0, LE16(unitInfo));
    SpliceInSection(front, s1, after, 4, LE64(clock));
    assert Splice(s1, 4, LE64(clock)) == MasterNotification(unitInfo, clock);
    assert RequestDataHeader(r.(unitInfo := unitInfo, clock := clock)) == RequestDataHeader(r);
  }

  lemma PatchDataHeader(r: Request, seqNo: u16, word: u16)
    requires r.WellFormed()
    ensures EncodeRequest(r.(seqNo := seqNo, word := word))
            == Splice(Splice(EncodeRequest(r), 53, LE16(seqNo)), 63, LE16(word))
  {
    var front := RequestHeader(RequestSize(|r.ids|)) + CyclicRequestHeader(r.protocolVer)
                 + MasterNotification(r.unitInfo, r.clock);
    var data := IdBytes(r.ids) + r.rww + r.ry;
    var s0 := RequestDataHeader(r);
    var s1 := Splice(s0, 6, LE16(seqNo));
    RequestShape(r);
    RequestShape(r.(seqNo := seqNo, word := word));
    SpliceInSection(front, s0, data, 6, LE16(seqNo));
    SpliceInSection(front, s1, data, 16, LE16(word));
    DataHeaderPatches(r, seqNo, word);
  }

  lemma DataHeaderPatches(r: Request, seqNo: u16, word: u16)
    requires |r.ids| < 0x1_0000
    ensures Splice(Splice(RequestDataHeader(r), 6, LE16(seqNo)), 16, LE16(word))
            == RequestDataHeader(r.(seqNo := seqNo, word := word))
  {
  }

  lemma PatchIdBytes(ids: seq<u32>, pos: nat, id: u32)
    requires pos < |ids|
    ensures IdBytes(ids[pos := id]) == Splice(IdBytes(ids), 4 * pos, LE32(id))
  {
    var s := Splice(IdBytes(ids), 4 * pos, LE32(id));
    forall k | 0 <= k < |ids| ensures s[4 * k..4 * k + 4] == LE32(ids[pos := id][k]) {
      IdBytesAt(ids, k);
      SpliceRead(IdBytes(ids), 4 * pos, LE32(id), 4 * k, 4 * k + 4);
    }
    forall k | 0 <= k < |ids| ensures Get32(s, 4 * k) == ids[pos := id][k] {
      Get32IsInverse(s, 4 * k, ids[pos := id][k]);
    }
    IdBytesIff(s, ids[pos := id]);
  }

  lemma PatchId(r: Request, pos: nat, id: u32)
    requires r.WellFormed() && pos < |r.ids|
    ensures EncodeRequest(r.(ids := r.ids[pos := id])) == Splice(EncodeRequest(r), 67 + 4 * pos, LE32(id))
  {
    PatchIdBytes(r.ids, pos, id);
    SpliceInSection(RequestHeaders(r), IdBytes(r.ids), r.rww + r.ry, 4 * pos, LE32(id));
    assert EncodeRequest(r) == RequestHeaders(r) + IdBytes(r.ids) + (r.rww + r.ry);
    var q := r.(ids := r.ids[pos := id]);
    assert RequestHeaders(q) == RequestHeaders(r);
    assert EncodeRequest(q) == RequestHeaders(q) + IdBytes(q.ids) + (r.rww + r.ry);
  }

  lemma PatchRww(r: Request, p: nat, d: seq<byte>)
    requires r.WellFormed() && p + |d| <= |r.rww|
    ensures EncodeRequest(r.(rww := Splice(r.rww, p, d)))
            == Splice(EncodeRequest(r), 67 + 4 * |r.ids| + p, d)
  {
    SpliceInSection(RequestHeaders(r) + IdBytes(r.ids), r.rww, r.ry, p, d);
    assert RequestHeaders(r.(rww := Splice(r.rww, p, d))) == RequestHeaders(r);
  }

  lemma PatchRy(r: Request, p: nat, d: seq<byte>)
    requires r.WellFormed() && p + |d| <= |r.ry|
    ensures EncodeRequest(r.(ry := Splice(r.ry, p, d)))
            == Splice(EncodeRequest(r), 67 + 68 * |r.ids| + p, d)
  {
    SpliceInSection(RequestHeaders(r) + IdBytes(r.ids) + r.rww, r.ry, [], p, d);
    var q := r.(ry := Splice(r.ry, p, d));
    assert RequestHeaders(q) == RequestHeaders(r);
    assert EncodeRequest(r) == RequestHeaders(r) + IdBytes(r.ids) + r.rww + r.ry + [];
    assert EncodeRequest(q) == RequestHeaders(r) + IdBytes(r.ids) + r.rww + q.ry + [];
  }

  // ---------------------------------------------------------------- requests at the value level

  /** The request right after initialisation: no IDs, no data, headers not yet filled in. */
  function BlankRequest(cfg: MasterConfig, group: GroupSetting, groupNo: byte, parameterNo: u16, stations: nat): (r: Request)
    ensures 1 <= stations <= MAX_STATIONS_PER_GROUP ==> r.WellFormed()
  {
    Request(cfg.protocolVer, 0, 0, cfg.masterId, groupNo, 0, group.timeout, group.offCount, parameterNo, 0,
            seq(stations, k => IPADDR_INVALID), Zeros(WORD_AREA * stations), Zeros(BIT_AREA * stations))
  }

  function WithId(r: Request, station: nat, enable: bool, id: u32): Request
    requires 1 <= station <= |r.ids|
  {
    r.(ids := r.ids[station - 1 := if enable then id else IPADDR_INVALID])
  }

  /** The data of `count` stations from `station` on, copied from the group's memory, or zeros. */
  function WithData(r: Request, rww: seq<byte>, ry: seq<byte>, station: nat, count: nat, valid: bool): (q: Request)
    requires r.WellFormed() && 1 <= station && station - 1 + count <= |r.ids|
    requires WORD_AREA * (station - 1 + count) <= |rww| && BIT_AREA * (station - 1 + count) <= |ry|
    ensures q.WellFormed()
  {
    var start, end := station - 1, station - 1 + count;
    r.(rww := Splice(r.rww, WORD_AREA * start,
                     if valid then rww[WORD_AREA * start..WORD_AREA * end] else Zeros(WORD_AREA * count)),
       ry := Splice(r.ry, BIT_AREA * start,
                    if valid then ry[BIT_AREA * start..BIT_AREA * end] else Zeros(BIT_AREA * count)))
  }

  // ---------------------------------------------------------------- the frame in its buffer

  class RequestFrame {
    const buffer: array<byte>
    var payloadLen: nat
    var firstRww: nat
    var firstRy: nat
    ghost var content: Request

    ghost predicate Valid()
      reads this, buffer
    {
      && buffer.Length == BUFFER_LEN
      && content.WellFormed()
      && payloadLen == RequestSize(|content.ids|)
      && firstRww == 67 + 4 * |content.ids|
      && firstRy == 67 + 68 * |content.ids|
      && buffer[..payloadLen] == EncodeRequest(content)
    }

    constructor ()
      ensures fresh(buffer) && buffer.Length == BUFFER_LEN && content == NO_REQUEST
    {
      buffer := new byte[BUFFER_LEN](i => 0);
      payloadLen, firstRww, firstRy := 0, 0, 0;
      content := NO_REQUEST;
    }

    /** cl_iefb_initialise_request_frame */
    method Initialise(cfg: MasterConfig, group: GroupSetting, groupNo: byte, stations: u16, parameterNo: u16)
      requires buffer.Length == BUFFER_LEN && 1 <= stations <= MAX_STATIONS_PER_GROUP
      modifies this, buffer
      ensures Valid() && content == BlankRequest(cfg, group, groupNo, parameterNo, stations)
    {
      payloadLen := RequestSize(stations);
      Clear(buffer, 0, BUFFER_LEN);
      content := BlankRequest(cfg, group, groupNo, parameterNo, stations);
      Put(buffer, 0, RequestHeader(payloadLen));
      Put(buffer, 15, CyclicRequestHeader(cfg.protocolVer));
      Put(buffer, 35, MasterNotification(0, 0));
      Put(buffer, 47, LE32(cfg.masterId) + [groupNo, 0x00] + LE16(0) + LE16(group.timeout) + LE16(group.offCount)
                      + LE16(parameterNo) + LE16(stations) + LE16(0) + LE16(0));
      firstRww := 67 + 4 * stations;
      firstRy := firstRww + WORD_AREA * stations;
      BlankBytes(buffer[..], content);
    }

    /** cl_iefb_update_request_frame_headers */
    method UpdateHeaders(seqNo: u16, clock: u64, unitInfo: u16, word: u16)
      requires Valid()
      modifies this`content, buffer
      ensures Valid()
      ensures content == old(content).(seqNo := seqNo, clock := clock, unitInfo := unitInfo, word := word)
    {
      ghost var r := content;
      PatchNotification(r, unitInfo, clock);
      PatchDataHeader(r.(unitInfo := unitInfo, clock := clock), seqNo, word);
      PutInFrame(35, LE16(unitInfo));
      PutInFrame(39, LE64(clock));
      PutInFrame(53, LE16(seqNo));
      PutInFrame(63, LE16(word));
      content := r.(seqNo := seqNo, clock := clock, unitInfo := unitInfo, word := word);
    }

    /** A write below payloadLen, seen on the payload. */
    method PutInFrame(p: nat, d: seq<byte>)
      requires p + |d| <= payloadLen <= buffer.Length
      modifies buffer
      ensures buffer[..payloadLen] == Splice(old(buffer[..payloadLen]), p, d)
    {
      ghost var s := buffer[..];
      Put(buffer, p, d);
      SplicePrefix(s, p, d, payloadLen);
      assert s[..payloadLen] == old(buffer[..payloadLen]);
    }

    /** clm_iefb_update_request_slave_id */
    method UpdateSlaveId(station: u16, enable: bool, id: u32)
      requires Valid() && 1 <= station <= |content.ids|
      modifies this`content, buffer
      ensures Valid() && content == WithId(old(content), station, enable, id)
    {
      PutId(station - 1, if enable then id else IPADDR_INVALID);
    }

    method PutId(pos: nat, id: u32)
      requires Valid() && pos < |content.ids|
      modifies this`content, buffer
      ensures Valid() && content == old(content).(ids := old(content).ids[pos := id])
    {
      PatchId(content, pos, id);
      PutInFrame(67 + 4 * pos, LE32(id));
      content := content.(ids := content.ids[pos := id]);
    }

    /** clm_iefb_update_request_frame_cyclic_data_one_device */
    method UpdateCyclicData(rww: array<byte>, ry: array<byte>, station: u16, count: u16, valid: bool)
      requires Valid() && 1 <= station && station - 1 + count <= |content.ids|
      requires WORD_AREA * (station - 1 + count) <= rww.Length && BIT_AREA * (station - 1 + count) <= ry.Length
      requires rww != buffer && ry != buffer
      modifies this`content, buffer
      ensures Valid() && content == WithData(old(content), rww[..], ry[..], station, count, valid)
    {
      var p, q := WORD_AREA * (station - 1), BIT_AREA * (station - 1);
      if valid {
        assert rww[p..p + WORD_AREA * count] == rww[..][p..p + WORD_AREA * count];
        assert ry[q..q + BIT_AREA * count] == ry[..][q..q + BIT_AREA * count];
        PutRww(p, rww[p..p + WORD_AREA * count]);
        PutRy(q, ry[q..q + BIT_AREA * count]);
      } else {
        PutRww(p, Zeros(WORD_AREA * count));
        PutRy(q, Zeros(BIT_AREA * count));
      }
    }

    method PutRww(p: nat, d: seq<byte>)
      requires Valid() && p + |d| <= |content.rww|
      modifies this`content, buffer
      ensures Valid() && content == old(content).(rww := Splice(old(content).rww, p, d))
    {
      PatchRww(content, p, d);
      PutInFrame(firstRww + p, d);
      content := content.(rww := Splice(content.rww, p, d));
    }

    method PutRy(p: nat, d: seq<byte>)
      requires Valid() && p + |d| <= |content.ry|
      modifies this`content, buffer
      ensures Valid() && content == old(content).(ry := Splice(old(content).ry, p, d))
    {
      PatchRy(content, p, d);
      PutInFrame(firstRy + p, d);
      content := content.(ry := Splice(content.ry, p, d));
    }

    /** clm_iefb_initialise_request_slave_ids */
    method InitialiseSlaveIds(devices: seq<DeviceSetting>)
      requires Valid() && Positive(devices) && |content.ids| == Total(devices)
      modifies this`content, buffer
      ensures Valid()
      ensures content == old(content).(ids := SlaveIds(devices, seq(|devices|, k => true)))
    {
      var pos := 0;
      ghost var shown := seq(|devices|, k => true);
      ghost var want := SlaveIds(devices, shown);
      for i := 0 to |devices|
        invariant pos == Occupied(devices, i) <= |want|
        invariant Valid() && |content.ids| == |want| && forall s :: 0 <= s < pos ==> content.ids[s] == want[s]
        invariant content == old(content).(ids := content.ids)
      {
        OccupiedMonotone(devices, i + 1, |devices|);
        for j := 0 to devices[i].stations
          invariant pos == Occupied(devices, i) + j
          invariant Valid() && |content.ids| == |want| && forall s :: 0 <= s < pos ==> content.ids[s] == want[s]
          invariant content == old(content).(ids := content.ids)
        {
          var id := if j == 0 then devices[i].slaveId else MULTISTATION;
          SlaveIdAt(devices, shown, i, pos);
          PutId(pos, id);
          pos := pos + 1;
        }
      }
      assert content.ids == want;
    }
  }

  lemma HeadersTogether(b: seq<byte>, r: Request)
    requires r.WellFormed()
    requires b == Splice(Splice(Splice(Splice(Zeros(BUFFER_LEN),
                    0, RequestHeader(RequestSize(|r.ids|))), 15, CyclicRequestHeader(r.protocolVer)),
                    35, MasterNotification(r.unitInfo, r.clock)), 47, RequestDataHeader(r))
    ensures |RequestHeaders(r)| <= BUFFER_LEN && b == Splice(Zeros(BUFFER_LEN), 0, RequestHeaders(r))
  {
    var n := |r.ids|;
    SpliceThenAppend(Zeros(BUFFER_LEN), 0, RequestHeader(RequestSize(n)), CyclicRequestHeader(r.protocolVer));
    SpliceThenAppend(Zeros(BUFFER_LEN), 0, RequestHeader(RequestSize(n)) + CyclicRequestHeader(r.protocolVer),
                     MasterNotification(r.unitInfo, r.clock));
    SpliceThenAppend(Zeros(BUFFER_LEN), 0, RequestHeader(RequestSize(n)) + CyclicRequestHeader(r.protocolVer)
                     + MasterNotification(r.unitInfo, r.clock), RequestDataHeader(r));
  }

  /** The four headers over a cleared buffer are a whole blank request. */
  lemma BlankBytes(b: seq<byte>, r: Request)
    requires |b| == BUFFER_LEN && r.WellFormed()
    requires r.ids == seq(|r.ids|, k => IPADDR_INVALID)
    requires r.rww == Zeros(WORD_AREA * |r.ids|) && r.ry == Zeros(BIT_AREA * |r.ids|)
    requires b == Splice(Splice(Splice(Splice(Zeros(BUFFER_LEN),
                    0, RequestHeader(RequestSize(|r.ids|))), 15, CyclicRequestHeader(r.protocolVer)),
                    35, MasterNotification(r.unitInfo, r.clock)), 47, RequestDataHeader(r))
    ensures b[..RequestSize(|r.ids|)] == EncodeRequest(r)
  {
    var n := |r.ids|;
    HeadersTogether(b, r);
    forall k | 0 <= k < n ensures Get32(Zeros(4 * n), 4 * k) == r.ids[k] {
    }
    IdBytesIff(Zeros(4 * n), r.ids);
    assert b[..RequestSize(n)] == RequestHeaders(r) + Zeros(4 * n) + Zeros(64 * n) + Zeros(8 * n);
  }
}
