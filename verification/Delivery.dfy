/** End to end: what the application writes at one side is what it reads at the other, through
    the real byte offsets of both frames. */
module Delivery {
  import opened Words
  import opened Buffers
  import opened Config
  import opened Layout
  import opened Frames
  import opened Responses
  import opened GroupModel
  import opened MasterModel
  import opened FrameViews
  import opened GroupRuns
  import opened Scans
  import opened ScanInvariant
  import opened Freshness
  import opened SlaveModel
  import opened SlaveInvariant
  import opened Image
  import D = DeviceModel

  // ---------------------------------------------------------------- the layout of a request on the wire

  /** Which devices a request shows with their address. */
  function Shown(setting: GroupSetting, q: Request): (s: seq<bool>)
    requires Holds(setting, q)
    ensures |s| == |setting.devices|
  {
    seq(|setting.devices|, i requires 0 <= i < |setting.devices| => ViewOf(setting, q.word, q, i).id == setting.devices[i].slaveId)
  }

  /** A request of the master carries exactly the ID list of the devices it shows. */
  lemma IdsAreLayout(setting: GroupSetting, q: Request)
    requires Holds(setting, q) && Fillers(setting, q.word, q)
    requires forall i :: 0 <= i < |setting.devices| ==> PlainView(setting, ViewOf(setting, q.word, q, i), i)
    requires forall i :: 0 <= i < |setting.devices| ==> setting.devices[i].slaveId != IPADDR_INVALID
    ensures q.ids == SlaveIds(setting.devices, Shown(setting, q))
  {
    hide AreaOf, PlainView;
    var want := SlaveIds(setting.devices, Shown(setting, q));
    forall s | 0 <= s < |q.ids| ensures q.ids[s] == want[s] {
      var i := OwnerOf(setting.devices, |setting.devices|, s);
      SlaveIdAt(setting.devices, Shown(setting, q), i, s);
      if s == Start(setting.devices, i) {
        assert ViewOf(setting, q.word, q, i).id == q.ids[s];
        PlainId(setting, ViewOf(setting, q.word, q, i), i);
      } else {
        NotAStart(setting, i, s);
      }
    }
  }

  lemma PlainId(setting: GroupSetting, v: View, i: nat)
    requires i < |setting.devices| && PlainView(setting, v, i)
    ensures v.id == IPADDR_INVALID || v.id == setting.devices[i].slaveId
  {
  }

  lemma NotAStart(setting: GroupSetting, i: nat, s: nat)
    requires ValidGroupSetting(setting) && Owns(setting.devices, i, s) && s != Start(setting.devices, i)
    ensures !IsStart(setting.devices, s)
  {
    forall j: nat | j < |setting.devices| && Start(setting.devices, j) == s ensures false {
      Fits(setting, j);
      if j != i {
        RangesApart(setting.devices, i, j);
      }
    }
  }

  lemma DevicesAreUsable(cfg: MasterConfig, gi: nat)
    requires GoodConfig(cfg) && gi < |cfg.groups|
    ensures var devices := cfg.groups[gi].devices;
            && Positive(devices) && UsableIds(devices) && DistinctInGroup(devices)
            && Total(devices) <= MAX_STATIONS_PER_GROUP && |devices| > 0
            && (forall i :: 0 <= i < |devices| ==> devices[i].slaveId != cfg.masterId)
  {
    assert ValidGroup(cfg.groups[gi], cfg.masterId);
    var devices := cfg.groups[gi].devices;
    forall i | 0 <= i < |devices| ensures ValidDevice(devices[i], cfg.masterId) {
    }
  }

  /** The transmission bit a slave reads at its station. */
  lemma MyBitIsViewBit(setting: GroupSetting, q: Request, i: nat)
    requires Holds(setting, q) && i < |setting.devices|
    ensures 1 + Start(setting.devices, i) <= MAX_STATIONS_PER_GROUP
    ensures MyBit(q.word, 1 + Start(setting.devices, i)) == ViewOf(setting, q.word, q, i).bit
  {
    Fits(setting, i);
    MaskTestIsBit(q.word, Start(setting.devices, i));
  }

  /** What a slave concludes from a good request: its own configured place, if it is shown. */
  lemma SlaveFindsItself(cfg: MasterConfig, gi: nat, q: Request, bytes: seq<byte>, i: nat)
    requires GoodConfig(cfg) && gi < |cfg.groups| && GoodRequest(cfg, gi, q, bytes) && i < |cfg.groups[gi].devices|
    ensures ValidGroupSetting(cfg.groups[gi]) && Holds(cfg.groups[gi], q)
    ensures var setting := cfg.groups[gi];
            SearchSlaveId(setting.devices[i].slaveId, q.ids)
            == if ViewOf(setting, q.word, q, i).id == setting.devices[i].slaveId
               then Found(1 + Start(setting.devices, i), setting.devices[i].stations) else NotFound
  {
    hide AreaOf, Fillers, PlainView, EncodeRequest;
    GoodSetting(cfg, gi);
    var setting := cfg.groups[gi];
    DevicesAreUsable(cfg, gi);
    IdsAreLayout(setting, q);
    SearchFindsConfiguredStation(setting.devices, Shown(setting, q), i);
  }

  // ---------------------------------------------------------------- from the master to a slave

  /** A slave that is controlled by this master, as device i of group gi. */
  predicate BoundTo(cfg: MasterConfig, gi: nat, i: nat, scfg: SlaveConfig, s: Slave)
    requires gi < |cfg.groups| && i < |cfg.groups[gi].devices|
  {
    && s.state == MasterControl
    && scfg.stations == cfg.groups[gi].devices[i].stations
    && s.master.masterId == cfg.masterId && s.master.groupNo == gi + 1
    && s.master.station == 1 + Start(cfg.groups[gi].devices, i)
  }

  /** A request of the master as it reaches device i. */
  function Arriving(cfg: MasterConfig, gi: nat, q: Request, i: nat): Incoming
    requires gi < |cfg.groups| && i < |cfg.groups[gi].devices|
  {
    Incoming(q, cfg.masterId, cfg.groups[gi].devices[i].slaveId)
  }

  /** What the slave reads and answers after an exchange, in terms of its view of the request. */
  predicate Exchange(scfg: SlaveConfig, s: Slave, v: View, q: Incoming, r: Slave) {
    && q.Incoming? && |v.ry| == BIT_AREA * scfg.stations && |v.rww| == WORD_AREA * scfg.stations
    && |v.ry| <= |r.ry| && |v.rww| <= |r.rww|
    && r.ry[..|v.ry|] == (if v.bit then v.ry else Zeros(|v.ry|))
    && r.rww[..|v.rww|] == (if v.bit then v.rww else Zeros(|v.rww|))
    && |Replies(r.trace)| == |Replies(s.trace)| + 1
    && var o := Replies(r.trace)[|Replies(s.trace)|];
    && Answers(q, o) && o.response.endCode == ENDCODE_SUCCESS
    && o.response.rx == (if v.bit then s.normal.rx else s.error.rx)
    && o.response.rwr == (if v.bit then s.normal.rwr else s.error.rwr)
    && r.normal.rx == s.normal.rx && r.normal.rwr == s.normal.rwr
  }

  lemma SliceIsArea(setting: GroupSetting, q: Request, i: nat)
    requires Holds(setting, q) && i < |setting.devices|
    ensures var p, n, v := Start(setting.devices, i), setting.devices[i].stations, ViewOf(setting, q.word, q, i);
            && WORD_AREA * (p + n) <= |q.rww| && BIT_AREA * (p + n) <= |q.ry|
            && v.rww == q.rww[WORD_AREA * p..WORD_AREA * (p + n)] && v.ry == q.ry[BIT_AREA * p..BIT_AREA * (p + n)]
            && |v.rww| == WORD_AREA * n && |v.ry| == BIT_AREA * n
  {
    Fits(setting, i);
    StationInRange(setting, i);
  }

  lemma DoneIsExchange(cfg: MasterConfig, gi: nat, q: Request, i: nat, scfg: SlaveConfig, s: Slave, now: u32, r: Slave)
    requires gi < |cfg.groups| && Holds(cfg.groups[gi], q) && i < |cfg.groups[gi].devices|
    requires FramesFit(scfg, s) && scfg.stations == cfg.groups[gi].devices[i].stations
    requires s.master.station == 1 + Start(cfg.groups[gi].devices, i)
    requires GoodIncoming(Arriving(cfg, gi, q, i)) && CanCopy(scfg, |q.ids|, s.master.station)
    requires ExchangeDone(scfg, s, now, Arriving(cfg, gi, q, i), r)
    ensures Exchange(scfg, s, ViewOf(cfg.groups[gi], q.word, q, i), Arriving(cfg, gi, q, i), r)
  {
    hide Replies, ViewOf, MyBit, Sendable;
    var setting := cfg.groups[gi];
    SliceIsArea(setting, q, i);
    MyBitIsViewBit(setting, q, i);
  }

  lemma CopyFits(cfg: MasterConfig, gi: nat, q: Request, i: nat, scfg: SlaveConfig)
    requires gi < |cfg.groups| && Holds(cfg.groups[gi], q) && i < |cfg.groups[gi].devices|
    requires scfg.stations == cfg.groups[gi].devices[i].stations
    ensures 1 + Start(cfg.groups[gi].devices, i) < 0x1_0000
    ensures CanCopy(scfg, |q.ids|, 1 + Start(cfg.groups[gi].devices, i))
  {
    Fits(cfg.groups[gi], i);
    StationInRange(cfg.groups[gi], i);
  }

  /** A request in sequence from its own master leads a slave straight to the exchange. */
  lemma ServedIsExchanged(scfg: SlaveConfig, s: Slave, now: u32, q: Incoming)
    requires FramesFit(scfg, s) && q.Incoming? && q.r.WellFormed() && s.state == MasterControl
    requires s.master.masterId == q.r.masterId != IPADDR_INVALID && q.r.parameterNo == s.master.parameterNo && q.r.seqNo != 0
    requires q.r.groupNo == s.master.groupNo && Names(q, s.master.station) && s.master.station <= MAX_STATIONS_PER_GROUP
    requires q.localIp != IPADDR_INVALID
    ensures HandleRequest(scfg, s, now, q) == Exchanged(scfg, s, now, q)
  {
    hide Exchanged, FramesFit;
  }

  lemma ArrivingIsGood(cfg: MasterConfig, gi: nat, q: Request, bytes: seq<byte>, i: nat)
    requires GoodConfig(cfg) && gi < |cfg.groups| && GoodRequest(cfg, gi, q, bytes) && i < |cfg.groups[gi].devices|
    ensures GoodIncoming(Arriving(cfg, gi, q, i)) && q.WellFormed() && q.groupNo == gi + 1 && q.masterId == cfg.masterId
    ensures cfg.masterId != IPADDR_INVALID && ValidGroupSetting(cfg.groups[gi]) && Holds(cfg.groups[gi], q)
  {
    hide EncodeRequest, Fillers, PlainView, ViewOf;
    GoodSetting(cfg, gi);
    DevicesAreUsable(cfg, gi);
    assert IpInRange(cfg.groups[gi].devices[i].slaveId);
  }

  /** Outputs arrive: a bound slave that a request shows takes its view of the request into RY and RWw,
      or zeros when its bit is off, and answers with its own inputs. */
  lemma OutputsArrive(cfg: MasterConfig, gi: nat, q: Request, bytes: seq<byte>, i: nat, scfg: SlaveConfig, s: Slave, now: u32)
    requires GoodConfig(cfg) && gi < |cfg.groups| && GoodRequest(cfg, gi, q, bytes) && i < |cfg.groups[gi].devices|
    requires SlaveInv(scfg, s) && BoundTo(cfg, gi, i, scfg, s)
    requires q.parameterNo == s.master.parameterNo && q.seqNo != 0
    requires ValidGroupSetting(cfg.groups[gi]) && Holds(cfg.groups[gi], q)
    requires ViewOf(cfg.groups[gi], q.word, q, i).id == cfg.groups[gi].devices[i].slaveId
    ensures FramesFit(scfg, s) && q.WellFormed()
    ensures var r := HandleRequest(scfg, s, now, Arriving(cfg, gi, q, i));
            && SlaveInv(scfg, r) && BoundTo(cfg, gi, i, scfg, r)
            && r.master.parameterNo == s.master.parameterNo
            && r.master.timeout == s.master.timeout && r.master.offCount == s.master.offCount
            && Exchange(scfg, s, ViewOf(cfg.groups[gi], q.word, q, i), Arriving(cfg, gi, q, i), r)
  {
    hide HandleRequest, Core, Exchanged, Replies, GoodRequest, GoodConfig, AreaOf, CanCopy, Exchange, Placed, Sendable, Request.WellFormed;
    ArrivingIsGood(cfg, gi, q, bytes, i);
    CoreFits(scfg, s);
    Fits(cfg.groups[gi], i);
    CopyFits(cfg, gi, q, i, scfg);
    ServedIsExchanged(scfg, s, now, Arriving(cfg, gi, q, i));
    ExchangeKeeps(scfg, s, now, Arriving(cfg, gi, q, i));
    DoneIsExchange(cfg, gi, q, i, scfg, s, now, Exchanged(scfg, s, now, Arriving(cfg, gi, q, i)));
  }

  // ---------------------------------------------------------------- registers and bits, end to end

  /** Reading a copied area is reading the original. */
  lemma ReadCopy(setting: GroupSetting, data: seq<byte>, copy: seq<byte>, size: nat, i: nat)
    requires ValidGroupSetting(setting) && i < |setting.devices| && (size == WORD_AREA || size == BIT_AREA)
    requires Offset(size, End(setting.devices, i)) <= |data|
    requires size * setting.devices[i].stations <= |copy|
    requires copy[..size * setting.devices[i].stations] == AreaOf(setting, data, size, i)
    ensures size * Start(setting.devices, i) + size * setting.devices[i].stations <= |data|
    ensures forall k :: 0 <= k < size * setting.devices[i].stations ==> copy[k] == data[size * Start(setting.devices, i) + k]
  {
    AreaBounds(setting, size, i);
    var n := size * setting.devices[i].stations;
    forall k | 0 <= k < n ensures copy[k] == data[size * Start(setting.devices, i) + k] {
      assert copy[..n][k] == copy[k];
    }
  }

  lemma RegistersAgree(setting: GroupSetting, data: seq<byte>, copy: seq<byte>, i: nat, number: nat)
    requires ValidGroupSetting(setting) && i < |setting.devices| && number < 32 * setting.devices[i].stations
    requires Offset(WORD_AREA, End(setting.devices, i)) <= |data| && WORD_AREA * setting.devices[i].stations <= |copy|
    requires copy[..WORD_AREA * setting.devices[i].stations] == AreaOf(setting, data, WORD_AREA, i)
    ensures WORD_AREA * Start(setting.devices, i) + 2 * number + 2 <= |data|
    ensures FlatRegister(copy, 0, number) == FlatRegister(data, WORD_AREA * Start(setting.devices, i), number)
  {
    hide AreaOf;
    ReadCopy(setting, data, copy, WORD_AREA, i);
  }

  lemma BitsAgree(setting: GroupSetting, data: seq<byte>, copy: seq<byte>, i: nat, number: nat)
    requires ValidGroupSetting(setting) && i < |setting.devices| && number < 64 * setting.devices[i].stations
    requires Offset(BIT_AREA, End(setting.devices, i)) <= |data| && BIT_AREA * setting.devices[i].stations <= |copy|
    requires copy[..BIT_AREA * setting.devices[i].stations] == AreaOf(setting, data, BIT_AREA, i)
    ensures BIT_AREA * Start(setting.devices, i) + number / 8 < |data|
    ensures FlatBit(copy, 0, number) == FlatBit(data, BIT_AREA * Start(setting.devices, i), number)
  {
    hide AreaOf, Bit;
    ReadCopy(setting, data, copy, BIT_AREA, i);
  }

  /** Master to slave: at a scan start the request shows a device that re-enters the cycle with its
      address, its bit and the group's output memory as it is at that moment. */
  lemma StartShowsOutputs(cfg: MasterConfig, gi: nat, c: Scope, t: Clock, i: nat)
    requires GoodConfig(cfg) && gi < |cfg.groups| && AtBoundary(cfg, gi, c) && i < |c.g.devices|
    requires c.g.devices[i].enabled && c.g.devices[i].state == D.CyclicSent
    ensures ValidGroupSetting(cfg.groups[gi]) && LaidOut(cfg.groups[gi], c.g) && i < |cfg.groups[gi].devices|
    ensures var setting, q := cfg.groups[gi], RequestOf(cfg.groups[gi], gi, c, t);
            && Holds(setting, q)
            && GoodRequest(cfg, gi, q, EncodeRequest(q))
            && Offset(WORD_AREA, End(setting.devices, i)) <= |c.g.rww| && Offset(BIT_AREA, End(setting.devices, i)) <= |c.g.ry|
            && ViewOf(setting, q.word, q, i)
               == View(setting.devices[i].slaveId, true, AreaOf(setting, c.g.rww, WORD_AREA, i), AreaOf(setting, c.g.ry, BIT_AREA, i))
  {
    hide AreaOf, RequestOf, EncodeRequest, LaidOut, FrameFits, LogFits, GoodRequest;
    GoodSetting(cfg, gi);
    var setting := cfg.groups[gi];
    LaidOutShape(setting, c.g);
    BeginViews(setting, gi, c, t, i);
    RequestIsGood(cfg, gi, c, t);
    AreasFit(setting, i);
  }

  /** A value written at the master before a scan start is what the slave reads after that request. */
  lemma OutputDelivery(cfg: MasterConfig, gi: nat, c: Scope, t: Clock, i: nat, scfg: SlaveConfig, s: Slave, now: u32,
                       register: nat, bit: nat)
    requires GoodConfig(cfg) && gi < |cfg.groups| && AtBoundary(cfg, gi, c) && c.g.seqNo != 0 && i < |c.g.devices|
    requires c.g.devices[i].enabled && c.g.devices[i].state == D.CyclicSent
    requires i < |cfg.groups[gi].devices|
    requires SlaveInv(scfg, s) && BoundTo(cfg, gi, i, scfg, s) && s.master.parameterNo == c.g.frame.parameterNo
    requires register < 32 * scfg.stations && bit < 64 * scfg.stations
    ensures LaidOut(cfg.groups[gi], c.g) && ValidGroupSetting(cfg.groups[gi]) && FramesFit(scfg, s)
    ensures RequestOf(cfg.groups[gi], gi, c, t).WellFormed()
    ensures var q := RequestOf(cfg.groups[gi], gi, c, t);
            var r := HandleRequest(scfg, s, now, Arriving(cfg, gi, q, i));
            var start := Start(cfg.groups[gi].devices, i);
            && 2 * register + 2 <= |r.rww| && WORD_AREA * start + 2 * register + 2 <= |c.g.rww|
            && FlatRegister(r.rww, 0, register) == FlatRegister(c.g.rww, WORD_AREA * start, register)
            && bit / 8 < |r.ry| && BIT_AREA * start + bit / 8 < |c.g.ry|
            && FlatBit(r.ry, 0, bit) == FlatBit(c.g.ry, BIT_AREA * start, bit)
  {
    hide AreaOf, RequestOf, EncodeRequest, GoodRequest, HandleRequest, Core, Replies, Answers, Base, FlatBit, FlatRegister, Placed;
    var setting := cfg.groups[gi];
    StartShowsOutputs(cfg, gi, c, t, i);
    var q := RequestOf(setting, gi, c, t);
    BeginFacts(setting, gi, c, t);
    OutputsArrive(cfg, gi, q, EncodeRequest(q), i, scfg, s, now);
    var r := HandleRequest(scfg, s, now, Arriving(cfg, gi, q, i));
    RegistersAgree(setting, c.g.rww, r.rww, i, register);
    BitsAgree(setting, c.g.ry, r.ry, i, bit);
  }

  /** A value in a response that is taken for a connected device is what the master then reads. */
  lemma InputDelivery(cfg: MasterConfig, m: Master, t: Clock, gi: nat, i: nat, response: Response, register: nat, bit: nat)
    requires Ready(cfg, m) && gi < |m.groups| && i < |m.groups[gi].devices| && i < |cfg.groups[gi].devices|
    requires SendableResponse(response, cfg.groups[gi].devices[i].slaveId)
    requires TakenFor(cfg, m, Frame(t, EncodeResponse(response), cfg.groups[gi].devices[i].slaveId), gi, i)
    requires m.groups[gi].devices[i].bit
    requires register < 32 * cfg.groups[gi].devices[i].stations && bit < 64 * cfg.groups[gi].devices[i].stations
    ensures Allowed(Frame(t, EncodeResponse(response), cfg.groups[gi].devices[i].slaveId))
    ensures var g := Step(cfg, m, Frame(t, EncodeResponse(response), cfg.groups[gi].devices[i].slaveId)).groups[gi];
            var start := Start(cfg.groups[gi].devices, i);
            && 2 * register + 2 <= |response.rwr| && WORD_AREA * start + 2 * register + 2 <= |g.rwr|
            && FlatRegister(g.rwr, WORD_AREA * start, register) == FlatRegister(response.rwr, 0, register)
            && bit / 8 < |response.rx| && BIT_AREA * start + bit / 8 < |g.rx|
            && FlatBit(g.rx, BIT_AREA * start, bit) == FlatBit(response.rx, 0, bit)
  {
    hide AreaOf, EncodeResponse, ParseResponse, MasterModel.Receive, LaidOut, FlatBit, FlatRegister, IsTaken;
    var setting := cfg.groups[gi];
    var input := Frame(t, EncodeResponse(response), setting.devices[i].slaveId);
    EncodedResponseIsAccepted(response, setting.devices[i].slaveId);
    InputsAreFresh(cfg, m, input, gi, i);
    TakenSize(cfg, m, input, gi, i);
    var g := Step(cfg, m, input).groups[gi];
    assert response.rwr[..|response.rwr|] == response.rwr && response.rx[..|response.rx|] == response.rx;
    RegistersAgree(setting, g.rwr, response.rwr, i, register);
    BitsAgree(setting, g.rx, response.rx, i, bit);
  }

  lemma TakenSize(cfg: MasterConfig, m: Master, input: Input, gi: nat, i: nat)
    requires Ready(cfg, m) && gi < |m.groups| && TakenFor(cfg, m, input, gi, i)
    ensures GroupRuns.Reply(input).Stations() == cfg.groups[gi].devices[i].stations
  {
    hide ParseResponse;
  }
}
