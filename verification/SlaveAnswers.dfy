/** What a slave does with each request, exactly: the reply, the reports, the areas and the new state,
    in terms of the bits and IDs of the request (src/slave/cls_iefb.c). */
module SlaveAnswers {
  import opened Words
  import opened Buffers
  import opened Layout
  import opened Timer
  import opened Frames
  import opened Responses
  import opened SlaveModel
  import opened SlaveInvariant

  // ---------------------------------------------------------------- the words of the request

  /** The request lists the slave's address once, at station p, with n stations reserved for it. */
  predicate Listed(q: Incoming, p: nat, n: nat) {
    && q.Incoming? && 1 <= p <= |q.r.ids| && 1 <= n && p - 1 + n <= |q.r.ids|
    && (forall k :: 0 <= k < |q.r.ids| ==> (q.r.ids[k] == q.localIp <==> k == p - 1))
    && (forall k :: p <= k < p - 1 + n ==> q.r.ids[k] == 0xFFFF_FFFF)
    && (p - 1 + n < |q.r.ids| ==> q.r.ids[p - 1 + n] != 0xFFFF_FFFF)
  }

  lemma ListedIsFound(q: Incoming, p: nat, n: nat)
    requires GoodIncoming(q)
    ensures Listed(q, p, n) <==> SearchSlaveId(q.localIp, q.r.ids) == Found(p, n)
  {
    var ids, mine := q.r.ids, q.localIp;
    if Listed(q, p, n) {
      FirstIndexIs(ids, mine, p - 1);
      assert mine !in ids[p..];
      RunIsUnique(ids, p, n - 1);
    }
    if SearchSlaveId(mine, ids) == Found(p, n) {
      forall k | 0 <= k < |ids| ensures ids[k] == mine <==> k == p - 1 {
        if k >= p {
          assert ids[p..][k - p] == ids[k];
        }
      }
    }
  }

  ghost predicate Unlisted(q: Incoming) {
    forall p: nat, n: nat :: !Listed(q, p, n)
  }

  lemma UnlistedIsNotFound(q: Incoming)
    requires GoodIncoming(q)
    ensures Unlisted(q) <==> !SearchSlaveId(q.localIp, q.r.ids).Found?
  {
    hide Listed, SearchSlaveId;
    forall p: nat, n: nat ensures Listed(q, p, n) <==> SearchSlaveId(q.localIp, q.r.ids) == Found(p, n) {
      ListedIsFound(q, p, n);
    }
    if SearchSlaveId(q.localIp, q.r.ids).Found? {
      var f := SearchSlaveId(q.localIp, q.r.ids);
      assert Listed(q, f.station, f.count);
    }
  }

  lemma MyBitIsBit(word: u16, p: u16)
    requires 1 <= p <= 16
    ensures MyBit(word, p) <==> Bit(word, p - 1)
  {
    MaskTestIsBit(word, p - 1);
  }

  // ---------------------------------------------------------------- the frames of the slave

  /** Both frames carry what the configuration says of the device. */
  predicate Branded(cfg: SlaveConfig, s: Slave) {
    && s.normal.vendorCode == cfg.vendorCode && s.normal.modelCode == cfg.modelCode && s.normal.equipmentVer == cfg.equipmentVer
    && s.error.vendorCode == cfg.vendorCode && s.error.modelCode == cfg.modelCode && s.error.equipmentVer == cfg.equipmentVer
  }

  /** The response to q with these inputs. */
  function ResponseTo(cfg: SlaveConfig, s: Slave, q: Incoming, endCode: u16, rwr: seq<byte>, rx: seq<byte>): Response
    requires q.Incoming?
  {
    Response(2, endCode, cfg.vendorCode, cfg.modelCode, cfg.equipmentVer, if s.operating then 1 else 0, s.errCode, s.mgmtInfo,
             q.localIp, q.r.groupNo, q.r.seqNo, rwr, rx)
  }

  /** A response without data. */
  function Bare(cfg: SlaveConfig, s: Slave, q: Incoming, endCode: u16): (f: Response)
    requires ValidSlaveConfig(cfg) && q.Incoming?
    ensures f.WellFormed() && f.Stations() == cfg.stations
  {
    ResponseTo(cfg, s, q, endCode, Zeros(64 * cfg.stations), Zeros(8 * cfg.stations))
  }

  /** A response with the slave's inputs. */
  function Full(cfg: SlaveConfig, s: Slave, q: Incoming): (f: Response)
    requires FramesFit(cfg, s) && q.Incoming?
    ensures f.WellFormed() && f.Stations() == cfg.stations
  {
    ResponseTo(cfg, s, q, 0, s.normal.rwr, s.normal.rx)
  }

  function Says(q: Incoming, f: Response): SlaveOutput
    requires q.Incoming? && f.WellFormed()
  {
    Replied(q.remoteIp, f, EncodeResponse(f))
  }

  /** These reports and then a reply without data, and nothing else. */
  function Refused(cfg: SlaveConfig, s: Slave, q: Incoming, reports: seq<SlaveOutput>, endCode: u16): Slave
    requires ValidSlaveConfig(cfg) && q.Incoming?
  {
    s.(error := Bare(cfg, s, q, endCode), trace := s.trace + reports + [Says(q, Bare(cfg, s, q, endCode))])
  }

  function Reported(s: Slave, reports: seq<SlaveOutput>): Slave {
    s.(trace := s.trace + reports)
  }

  lemma ZerosAre(b: seq<byte>, n: nat)
    requires |b| == n && forall k :: 0 <= k < n ==> b[k] == 0
    ensures b == Zeros(n)
  {
  }

  lemma SizesAre(r: Response, n: nat)
    requires r.WellFormed() && r.Stations() == n
    ensures |r.rwr| == 64 * n && |r.rx| == 8 * n
  {
  }

  lemma BareReply(cfg: SlaveConfig, s: Slave, q: Incoming, endCode: u16)
    requires Core(cfg, s) && Branded(cfg, s) && q.Incoming?
    ensures FramesFit(cfg, s) && Reply(cfg, s, q, false, endCode) == Refused(cfg, s, q, [], endCode)
  {
    hide EncodeResponse, TraceFits, Response.WellFormed, Response.Stations;
    SizesAre(s.error, cfg.stations);
    ZerosAre(s.error.rwr, 64 * cfg.stations);
    ZerosAre(s.error.rx, 8 * cfg.stations);
    assert s.trace + [] == s.trace;
  }

  lemma FullReply(cfg: SlaveConfig, s: Slave, q: Incoming)
    requires Core(cfg, s) && Branded(cfg, s) && q.Incoming?
    ensures FramesFit(cfg, s)
    ensures Reply(cfg, s, q, true, ENDCODE_SUCCESS)
            == s.(normal := Full(cfg, s, q), trace := s.trace + [Says(q, Full(cfg, s, q))])
  {
    hide EncodeResponse, TraceFits, Response.WellFormed, Response.Stations;
  }

  // ---------------------------------------------------------------- what the application is told

  /** A callback about the master's status, if it is news: running is bit 0 of the status, stopped by its
      user is bit 1 of a stopped master that speaks version 2. */
  function StatusNews(memo: Memo, ver: u16, status: u16): seq<SlaveOutput> {
    if memo == Memo(true, true, ver, status) then []
    else [MasterStateCb(true, status % 2 == 1, ver >= 2 && status % 2 == 0 && status / 2 % 2 == 1, ver, status)]
  }

  /** A callback about the loss of the master, if it is news. */
  function LossNews(memo: Memo): seq<SlaveOutput> {
    if memo == Memo(true, false, 0, 0) then [] else [MasterStateCb(false, false, false, 0, 0)]
  }

  lemma TellsStatus(s: Slave, ver: u16, status: u16)
    ensures TellMasterState(s, true, ver, status)
            == s.(memo := Memo(true, true, ver, status), trace := s.trace + StatusNews(s.memo, ver, status))
  {
    assert Bit(status, 1) <==> Bit(status / 2, 0);
    assert s.trace + [] == s.trace;
  }

  lemma TellsLoss(s: Slave)
    ensures TellMasterState(s, false, 0, 0) == s.(memo := Memo(true, false, 0, 0), trace := s.trace + LossNews(s.memo))
  {
    assert s.trace + [] == s.trace;
  }

  /** The master given up, behind the outputs so far. */
  function Parted(s: Slave): Slave {
    s.(state := MasterNone, master := NO_MASTER, receiveTimer := Stopped, disablingTimer := Stopped,
       memo := Memo(true, false, 0, 0), trace := s.trace + LossNews(s.memo) + [StateCb(MasterNone)])
  }

  lemma ToNoneParts(s: Slave)
    ensures ToNone(s) == Parted(s)
  {
    TellsLoss(s.(state := MasterNone, master := NO_MASTER, receiveTimer := Stopped, disablingTimer := Stopped));
  }

  // ---------------------------------------------------------------- requests that are refused

  /** The slave looks itself up in the ID list: without a master, waiting to be disabled, or when its own
      master has changed its parameters or starts afresh. */
  predicate LooksUp(s: Slave, q: Incoming) {
    && q.Incoming?
    && (s.state == MasterNone || s.state == WaitDisabling
        || (s.state == MasterControl && q.r.masterId == s.master.masterId
            && (q.r.parameterNo != s.master.parameterNo || q.r.seqNo == 0)))
  }

  lemma LooksUpSearches(cfg: SlaveConfig, s: Slave, now: u32, q: Incoming)
    requires SlaveInv(cfg, s) && GoodIncoming(q) && LooksUp(s, q)
    ensures FramesFit(cfg, s) && HandleRequest(cfg, s, now, q) == Searched(cfg, s, now, q)
  {
    hide Searched, TraceFits, SlaveEventStep;
  }

  /** A disabled slave does nothing, nor does one that looks itself up in vain. */
  lemma IgnoredIfAbsent(cfg: SlaveConfig, s: Slave, now: u32, q: Incoming)
    requires SlaveInv(cfg, s) && GoodIncoming(q)
    requires s.state == SlaveDisabled || (LooksUp(s, q) && Unlisted(q))
    ensures FramesFit(cfg, s) && q.r.WellFormed() && HandleRequest(cfg, s, now, q) == s
  {
    hide Core, SlaveEventStep, Unlisted, SearchSlaveId, Matched, Served;
    CoreFits(cfg, s);
    if LooksUp(s, q) {
      LooksUpSearches(cfg, s, now, q);
      UnlistedIsNotFound(q);
    }
  }

  /** A second master: reported, and answered with 0xCFE0. State, master and areas stay. */
  lemma SecondMasterIsRefused(cfg: SlaveConfig, s: Slave, now: u32, q: Incoming)
    requires SlaveInv(cfg, s) && Branded(cfg, s) && GoodIncoming(q)
    requires s.state == MasterControl && q.r.masterId != s.master.masterId
    ensures FramesFit(cfg, s) && q.r.WellFormed()
    ensures HandleRequest(cfg, s, now, q) == Refused(cfg, s, q, [ErrorReport(MasterDuplication, q.r.masterId, 0)], 0xCFE0)
  {
    hide Core, Reply, Searched;
    CoreFits(cfg, s);
    var s1 := SlaveModel.Note(s, ErrorReport(MasterDuplication, q.r.masterId, 0));
    ReportKeeps(cfg, s, ErrorReport(MasterDuplication, q.r.masterId, 0));
    BareReply(cfg, s1, q, 0xCFE0);
    assert s1.trace + [] == s1.trace;
  }

  /** A wrong number of stations: reported; the slave then answers 0xCFE1 and gives up its master if it
      has one. A slave waiting to be disabled only reports. */
  lemma WrongCountIsRefused(cfg: SlaveConfig, s: Slave, now: u32, q: Incoming, p: nat, n: nat)
    requires SlaveInv(cfg, s) && Branded(cfg, s) && GoodIncoming(q) && LooksUp(s, q)
    requires Listed(q, p, n) && n != cfg.stations
    ensures FramesFit(cfg, s) && q.r.WellFormed() && n <= 16
    ensures var r, report := HandleRequest(cfg, s, now, q), ErrorReport(WrongNumberOccupied, 0, n);
            && (s.state == MasterNone ==> r == Refused(cfg, s, q, [report], 0xCFE1))
            && (s.state == WaitDisabling ==> r == Reported(s, [report]))
            && (s.state == MasterControl ==> r == Parted(Refused(cfg, s, q, [report, DisconnectCb], 0xCFE1)))
  {
    hide Core, SlaveEventStep, SearchSlaveId, Matched, Served, Parted, Listed, Refused, Branded;
    CoreFits(cfg, s);
    ListedSize(q, p, n);
    LooksUpSearches(cfg, s, now, q);
    ListedIsFound(q, p, n);
    var report := ErrorReport(WrongNumberOccupied, 0, n);
    var s1 := SlaveModel.Note(s, report);
    ReportKeeps(cfg, s, report);
    BrandApart(cfg, s, s1);
    WrongCountStep(cfg, s1, now, q);
    MoreReports(cfg, s, q, report, [], 0xCFE1);
    MoreReports(cfg, s, q, report, [DisconnectCb], 0xCFE1);
    assert [report] + [] == [report] && [report] + [DisconnectCb] == [report, DisconnectCb];
  }

  lemma MoreReports(cfg: SlaveConfig, s: Slave, q: Incoming, o: SlaveOutput, reports: seq<SlaveOutput>, endCode: u16)
    requires ValidSlaveConfig(cfg) && q.Incoming?
    ensures Refused(cfg, SlaveModel.Note(s, o), q, reports, endCode) == Refused(cfg, s, q, [o] + reports, endCode)
  {
    hide EncodeResponse;
    assert (s.trace + [o]) + reports == s.trace + ([o] + reports);
  }

  lemma WrongCountStep(cfg: SlaveConfig, s: Slave, now: u32, q: Incoming)
    requires SlaveInv(cfg, s) && Branded(cfg, s) && GoodIncoming(q)
    ensures FramesFit(cfg, s) && q.r.WellFormed()
    ensures var r := SlaveEventStep(cfg, s, now, q, WrongStationCount);
            && (s.state == MasterNone ==> r == Refused(cfg, s, q, [], 0xCFE1))
            && (s.state == WaitDisabling ==> r == s)
            && (s.state == MasterControl ==> r == Parted(Refused(cfg, s, q, [DisconnectCb], 0xCFE1)))
  {
    hide Core, Reply, ToNone, Parted, Refused, Branded;
    CoreFits(cfg, s);
    BareReply(cfg, s, q, 0xCFE1);
    if s.state == MasterControl {
      var s2 := SlaveModel.Note(s, DisconnectCb).(state := MasterNone);
      ReportKeeps(cfg, s, DisconnectCb);
      CoreApart(cfg, SlaveModel.Note(s, DisconnectCb), s2);
      BrandApart(cfg, s, s2);
      BareReply(cfg, s2, q, 0xCFE1);
      ToNoneParts(Refused(cfg, s2, q, [], 0xCFE1));
      MoreReports(cfg, s, q, DisconnectCb, [], 0xCFE1);
      assert [DisconnectCb] + [] == [DisconnectCb];
      RefusedInState(cfg, SlaveModel.Note(s, DisconnectCb), q, [], 0xCFE1);
      PartedAnyState(Refused(cfg, s2, q, [], 0xCFE1), Refused(cfg, s, q, [DisconnectCb], 0xCFE1));
    }
  }

  lemma RefusedInState(cfg: SlaveConfig, s: Slave, q: Incoming, reports: seq<SlaveOutput>, endCode: u16)
    requires ValidSlaveConfig(cfg) && q.Incoming?
    ensures Refused(cfg, s.(state := MasterNone), q, reports, endCode) == Refused(cfg, s, q, reports, endCode).(state := MasterNone)
  {
    hide EncodeResponse;
  }

  lemma PartedAnyState(a: Slave, b: Slave)
    requires a == b.(state := MasterNone)
    ensures Parted(a) == Parted(b)
  {
  }

  lemma ListedSize(q: Incoming, p: nat, n: nat)
    requires GoodIncoming(q) && Listed(q, p, n)
    ensures 1 <= p && n >= 1 && p - 1 + n <= |q.r.ids| <= 16 && q.r.ids[p - 1] == q.localIp
  {
  }

  lemma ListedMatches(cfg: SlaveConfig, s: Slave, now: u32, q: Incoming, p: nat)
    requires SlaveInv(cfg, s) && GoodIncoming(q) && LooksUp(s, q) && Listed(q, p, cfg.stations)
    ensures FramesFit(cfg, s) && 1 <= p <= 16 && HandleRequest(cfg, s, now, q) == Matched(cfg, s, now, q, p)
    ensures MyBit(q.r.word, p) <==> Bit(q.r.word, p - 1)
  {
    hide Core, SearchSlaveId, Matched, SlaveEventStep, Listed, Served;
    CoreFits(cfg, s);
    ListedSize(q, p, cfg.stations);
    LooksUpSearches(cfg, s, now, q);
    ListedIsFound(q, p, cfg.stations);
    MyBitIsBit(q.r.word, p);
  }

  /** Listed as configured, but with the bit already on: a slave without a master drops the request and
      reports a duplicate slave; a controlled one drops it; one that waits to be disabled answers with its
      end code. */
  lemma EarlyBitIsRefused(cfg: SlaveConfig, s: Slave, now: u32, q: Incoming, p: nat)
    requires SlaveInv(cfg, s) && Branded(cfg, s) && GoodIncoming(q) && LooksUp(s, q)
    requires Listed(q, p, cfg.stations) && Bit(q.r.word, p - 1)
    ensures FramesFit(cfg, s) && q.r.WellFormed()
    ensures var r := HandleRequest(cfg, s, now, q);
            && (s.state == MasterNone ==> r == Reported(s, [ErrorReport(SlaveStationDuplication, 0, 0)]))
            && (s.state == MasterControl ==> r == s)
            && (s.state == WaitDisabling ==> r == Refused(cfg, s, q, [], s.endCodeDisabled))
  {
    hide Core, Reply, Listed, Served, Bit, MyBit, Searched;
    CoreFits(cfg, s);
    ListedMatches(cfg, s, now, q, p);
    BareReply(cfg, s, q, s.endCodeDisabled);
  }

  // ---------------------------------------------------------------- requests that are served

  /** The outputs of n stations from station p on, or zeros, in front of an area. */
  function Taken(area: seq<byte>, data: seq<byte>, width: nat, p: nat, n: nat, on: bool): seq<byte>
    requires 1 <= p && width * (p - 1 + n) <= |data| && width * n <= |area|
  {
    Stretch(width, p - 1, p - 1 + n);
    (if on then data[width * (p - 1)..width * (p - 1 + n)] else Zeros(width * n)) + area[width * n..]
  }

  lemma Stretch(width: nat, a: nat, b: nat)
    requires a <= b
    ensures width * a <= width * b
  {
  }

  /** The data exchange with station p: outputs in, status told, inputs out if the bit is on, timer restarted. */
  function Fed(cfg: SlaveConfig, s: Slave, now: u32, q: Incoming, p: nat): Slave
    requires FramesFit(cfg, s) && GoodIncoming(q) && 1 <= p && p - 1 + cfg.stations <= |q.r.ids|
  {
    var on := Bit(q.r.word, p - 1);
    var f := if on then Full(cfg, s, q) else Bare(cfg, s, q, 0);
    s.(ry := Taken(s.ry, q.r.ry, 8, p, cfg.stations, on), rww := Taken(s.rww, q.r.rww, 64, p, cfg.stations, on),
       master := s.master.(clock := q.r.clock, clockValid := q.r.clock != 0),
       memo := Memo(true, true, q.r.protocolVer, q.r.unitInfo),
       normal := if on then f else s.normal, error := if on then s.error else f,
       trace := s.trace + StatusNews(s.memo, q.r.protocolVer, q.r.unitInfo) + [Says(q, f)],
       receiveTimer := if s.receiveTimer.Running? then TimerState.Running(s.receiveTimer.period, now) else Stopped)
  }

  lemma SpliceIsTaken(area: seq<byte>, data: seq<byte>, width: nat, p: nat, n: nat, on: bool)
    requires 1 <= p && width * (p - 1 + n) <= |data| && width * n <= |area|
    ensures width * (p - 1) <= width * (p - 1 + n)
    ensures var piece := if on then data[width * (p - 1)..width * (p - 1 + n)] else Zeros(width * n);
            |piece| <= |area| && Splice(area, 0, piece) == Taken(area, data, width, p, n, on)
  {
    Stretch(width, p - 1, p - 1 + n);
    assert width * (p - 1 + n) - width * (p - 1) == width * n;
    assert area[..0] == [];
  }

  lemma CopyIsTaken(cfg: SlaveConfig, s: Slave, q: Incoming, p: u16, on: bool)
    requires FramesFit(cfg, s) && GoodIncoming(q) && 1 <= p && p - 1 + cfg.stations <= |q.r.ids|
    ensures Copied(cfg, s, q.r, p, on)
            == s.(ry := Taken(s.ry, q.r.ry, 8, p, cfg.stations, on), rww := Taken(s.rww, q.r.rww, 64, p, cfg.stations, on))
  {
    hide Splice, Taken;
    SpliceIsTaken(s.ry, q.r.ry, 8, p, cfg.stations, on);
    SpliceIsTaken(s.rww, q.r.rww, 64, p, cfg.stations, on);
  }

  lemma ExchangeIsServed(cfg: SlaveConfig, s: Slave, now: u32, q: Incoming)
    requires Core(cfg, s) && Branded(cfg, s) && GoodIncoming(q) && 1 <= s.master.station
    requires s.master.station - 1 + cfg.stations <= |q.r.ids|
    ensures FramesFit(cfg, s) && Exchanged(cfg, s, now, q) == Fed(cfg, s, now, q, s.master.station)
  {
    hide Copied, EncodeResponse, TellMasterState, Reply, Core, Taken, StatusNews, Bit, MyBit, Branded, Full, Bare;
    CoreFits(cfg, s);
    var p := s.master.station;
    MyBitIsBit(q.r.word, p);
    var on := Bit(q.r.word, p - 1);
    CopyIsTaken(cfg, s, q, p, on);
    var s1 := Copied(cfg, s, q.r, p, on);
    CopiedKeeps(cfg, s, q.r, p, on);
    var s2 := s1.(master := s1.master.(clock := q.r.clock, clockValid := q.r.clock != 0));
    CoreApart(cfg, s1, s2);
    TellsStatus(s2, q.r.protocolVer, q.r.unitInfo);
    TellIsChatter(s2, true, q.r.protocolVer, q.r.unitInfo);
    var s3 := TellMasterState(s2, true, q.r.protocolVer, q.r.unitInfo);
    CoreApart(cfg, s2, s3);
    BrandApart(cfg, s, s3);
    FullReply(cfg, s3, q);
    BareReply(cfg, s3, q, ENDCODE_SUCCESS);
    SameResponses(cfg, s, s3, q);
    assert s3.trace + [] == s3.trace;
  }

  lemma BrandApart(cfg: SlaveConfig, s: Slave, r: Slave)
    requires Branded(cfg, s) && r.normal == s.normal && r.error == s.error
    ensures Branded(cfg, r)
  {
  }

  lemma SameResponses(cfg: SlaveConfig, s: Slave, r: Slave, q: Incoming)
    requires FramesFit(cfg, s) && FramesFit(cfg, r) && q.Incoming? && r.normal == s.normal
    requires r.operating == s.operating && r.errCode == s.errCode && r.mgmtInfo == s.mgmtInfo
    ensures Full(cfg, r, q) == Full(cfg, s, q) && forall e: u16 :: Bare(cfg, r, q, e) == Bare(cfg, s, q, e)
  {
  }

  /** A request of the slave's own master that changes nothing but data. */
  predicate IsCyclic(s: Slave, q: Incoming) {
    && q.Incoming? && s.state == MasterControl && q.r.masterId == s.master.masterId
    && q.r.parameterNo == s.master.parameterNo && q.r.seqNo != 0
  }

  /** The data exchange happens exactly for requests of the stored group that name the slave at the stored
      station and reach its last one; others are dropped. */
  lemma CyclicRequestIsServed(cfg: SlaveConfig, s: Slave, now: u32, q: Incoming)
    requires SlaveInv(cfg, s) && Branded(cfg, s) && GoodIncoming(q) && IsCyclic(s, q)
    ensures FramesFit(cfg, s) && q.r.WellFormed() && s.master.station >= 1
    ensures var p := s.master.station;
            HandleRequest(cfg, s, now, q)
            == if q.r.groupNo == s.master.groupNo && p - 1 + cfg.stations <= |q.r.ids| && q.r.ids[p - 1] == q.localIp
               then Fed(cfg, s, now, q, p) else s
  {
    hide Core, Searched, Exchanged, Fed, Branded;
    CoreFits(cfg, s);
    if s.master.station - 1 + cfg.stations <= |q.r.ids| {
      ExchangeIsServed(cfg, s, now, q);
    } else {
      NoExchange(cfg, s, now, q);
    }
  }

  lemma NoExchange(cfg: SlaveConfig, s: Slave, now: u32, q: Incoming)
    requires FramesFit(cfg, s) && GoodIncoming(q) && s.master.station - 1 + cfg.stations > |q.r.ids|
    requires 1 <= s.master.station && s.master.station + cfg.stations - 1 <= 16
    ensures Exchanged(cfg, s, now, q) == s
  {
    hide Copied, TellMasterState, Reply;
  }

  // ---------------------------------------------------------------- a master is taken

  /** What the slave stores of its master. */
  function Stored(q: Incoming, p: nat): MasterInfo
    requires GoodIncoming(q) && p <= 16
  {
    MasterInfo(q.r.masterId, q.r.clock, q.r.clock != 0, q.r.protocolVer, q.r.groupNo, q.r.parameterNo, q.r.timeout, q.r.offCount,
               p, |q.r.ids|)
  }

  /** The master of q taken, or taken again, at station p; its bit is still off, so no data goes either way. */
  function Bound(cfg: SlaveConfig, s: Slave, now: u32, q: Incoming, p: nat): Slave
    requires FramesFit(cfg, s) && GoodIncoming(q) && 1 <= p && p - 1 + cfg.stations <= |q.r.ids|
  {
    var f := Bare(cfg, s, q, 0);
    s.(state := MasterControl, master := Stored(q, p),
       receiveTimer := TimerState.Running(TotalTimeout(q.r.timeout, q.r.offCount), now),
       memo := Memo(true, true, q.r.protocolVer, q.r.unitInfo),
       ry := Taken(s.ry, q.r.ry, 8, p, cfg.stations, false), rww := Taken(s.rww, q.r.rww, 64, p, cfg.stations, false),
       error := f,
       trace := s.trace + [ConnectCb(q.r.masterId, q.r.groupNo, p)] + StatusNews(s.memo, q.r.protocolVer, q.r.unitInfo)
                + (if s.state == MasterControl then [] else [StateCb(MasterControl)]) + [Says(q, f)])
  }

  lemma TakenIsStored(cfg: SlaveConfig, s: Slave, now: u32, q: Incoming, p: nat)
    requires FramesFit(cfg, s) && GoodIncoming(q) && 1 <= p <= 16 && s.master.station == p
    ensures TakenMaster(cfg, s, now, q)
            == s.(master := Stored(q, p), receiveTimer := TimerState.Running(TotalTimeout(q.r.timeout, q.r.offCount), now),
                  memo := Memo(true, true, q.r.protocolVer, q.r.unitInfo),
                  trace := s.trace + [ConnectCb(q.r.masterId, q.r.groupNo, p)] + StatusNews(s.memo, q.r.protocolVer, q.r.unitInfo))
  {
    hide TellMasterState, StatusNews, TotalTimeout;
    var s1 := s.(master := Stored(q, p), receiveTimer := TimerState.Running(TotalTimeout(q.r.timeout, q.r.offCount), now));
    TellsStatus(SlaveModel.Note(s1, ConnectCb(q.r.masterId, q.r.groupNo, p)), q.r.protocolVer, q.r.unitInfo);
  }

  lemma ConnectedIsBound(cfg: SlaveConfig, s: Slave, now: u32, q: Incoming, p: nat)
    requires SlaveInv(cfg, s) && Branded(cfg, s) && GoodIncoming(q) && (s.state == MasterNone || s.state == MasterControl)
    requires 1 <= p && p - 1 + cfg.stations <= |q.r.ids| && !Bit(q.r.word, p - 1)
    ensures FramesFit(cfg, s)
    ensures Connected(cfg, s.(master := s.master.(station := p), state := MasterControl), now, q, s.state != MasterControl)
            == Bound(cfg, s, now, q, p)
  {
    hide Core, TakenMaster, Exchanged, Bit, TotalTimeout, Taken, StatusNews, EncodeResponse, Branded, Bare, Full;
    CoreFits(cfg, s);
    var s0 := s.(master := s.master.(station := p), state := MasterControl);
    CoreApart(cfg, s, s0);
    TakenIsStored(cfg, s0, now, q, p);
    TakenKeeps(cfg, s0, now, q, s.state != MasterControl);
    var s1 := TakenMaster(cfg, s0, now, q);
    var s2 := if s.state != MasterControl then Entered(s1, MasterControl) else s1;
    BrandApart(cfg, s, s2);
    InvIsCore(cfg, s2);
    ExchangeIsServed(cfg, s2, now, q);
    SameResponses(cfg, s, s2, q);
    NoNews(s2.memo, q.r.protocolVer, q.r.unitInfo);
    assert s2.trace + [] == s2.trace;
    assert (s.trace + [ConnectCb(q.r.masterId, q.r.groupNo, p)] + StatusNews(s.memo, q.r.protocolVer, q.r.unitInfo)) + []
           == s.trace + [ConnectCb(q.r.masterId, q.r.groupNo, p)] + StatusNews(s.memo, q.r.protocolVer, q.r.unitInfo);
  }

  lemma InvIsCore(cfg: SlaveConfig, s: Slave)
    requires SlaveInv(cfg, s)
    ensures Core(cfg, s)
  {
  }

  lemma NoNews(memo: Memo, ver: u16, status: u16)
    requires memo == Memo(true, true, ver, status)
    ensures StatusNews(memo, ver, status) == []
  {
  }

  /** Listed as configured and the bit off: the master is taken, or taken again with its new parameters.
      A slave that waits to be disabled does nothing. */
  lemma MasterIsTaken(cfg: SlaveConfig, s: Slave, now: u32, q: Incoming, p: nat)
    requires SlaveInv(cfg, s) && Branded(cfg, s) && GoodIncoming(q) && LooksUp(s, q)
    requires Listed(q, p, cfg.stations) && !Bit(q.r.word, p - 1)
    ensures FramesFit(cfg, s) && q.r.WellFormed() && p - 1 + cfg.stations <= |q.r.ids| && p >= 1
    ensures HandleRequest(cfg, s, now, q) == if s.state == WaitDisabling then s else Bound(cfg, s, now, q, p)
  {
    hide Core, Listed, Served, Bit, MyBit, Searched, Connected, Branded, Bound;
    CoreFits(cfg, s);
    ListedSize(q, p, cfg.stations);
    ListedMatches(cfg, s, now, q, p);
    if s.state != WaitDisabling {
      ConnectedIsBound(cfg, s, now, q, p);
    }
  }

  /** A request takes a slave from MASTER_NONE to MASTER_CONTROL if and only if it lists the slave with its
      configured number of stations and with its bit off. */
  lemma TakesMasterIff(cfg: SlaveConfig, s: Slave, now: u32, q: Incoming)
    requires SlaveInv(cfg, s) && Branded(cfg, s) && GoodIncoming(q) && s.state == MasterNone
    ensures FramesFit(cfg, s) && q.r.WellFormed()
    ensures HandleRequest(cfg, s, now, q).state == MasterControl
            <==> exists p: nat :: Listed(q, p, cfg.stations) && p >= 1 && !Bit(q.r.word, p - 1)
  {
    hide Core, Listed, Bit, HandleRequest, Branded;
    CoreFits(cfg, s);
    if p: nat, n: nat :| Listed(q, p, n) {
      ListedSize(q, p, n);
      OneListing(q, p, n);
      if n != cfg.stations {
        WrongCountIsRefused(cfg, s, now, q, p, n);
      } else if Bit(q.r.word, p - 1) {
        EarlyBitIsRefused(cfg, s, now, q, p);
      } else {
        MasterIsTaken(cfg, s, now, q, p);
      }
    } else {
      IgnoredIfAbsent(cfg, s, now, q);
    }
  }

  lemma OneListing(q: Incoming, p: nat, n: nat)
    requires GoodIncoming(q) && Listed(q, p, n)
    ensures forall p2: nat, n2: nat :: Listed(q, p2, n2) ==> p2 == p && n2 == n
  {
    hide Listed, SearchSlaveId;
    ListedIsFound(q, p, n);
    forall p2: nat, n2: nat | Listed(q, p2, n2) ensures p2 == p && n2 == n {
      ListedIsFound(q, p2, n2);
    }
  }
}
