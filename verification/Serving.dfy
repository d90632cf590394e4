/** A slave in the closed loop: the first request makes it take the master, every later one is
    served, and each is answered with success. */
module Serving {
  import opened Words
  import opened Config
  import opened Layout
  import opened Timer
  import opened Frames
  import opened Responses
  import opened GroupModel
  import M = MasterModel
  import opened FrameViews
  import opened Scans
  import opened SlaveModel
  import opened SlaveInvariant
  import opened Delivery
  import opened ClosedLoop

  /** The slave side of device i is set up as the master expects. */
  predicate Matching(cfg: MasterConfig, i: nat, scfg: SlaveConfig)
    requires |cfg.groups| > 0 && i < |cfg.groups[0].devices|
  {
    ValidSlaveConfig(scfg) && scfg.stations == cfg.groups[0].devices[i].stations
  }

  /** The timer the slave derives from the master's values does not run out at once. */
  predicate TimerHolds(cfg: MasterConfig)
    requires |cfg.groups| > 0
  {
    TotalTimeout(cfg.groups[0].timeout, cfg.groups[0].offCount) > 0
  }

  /** A slave without a master. */
  predicate Free(scfg: SlaveConfig, s: Slave) {
    SlaveInv(scfg, s) && s.state == MasterNone
  }

  /** A slave controlled by this master, as device i of its group. */
  predicate Serves(cfg: MasterConfig, i: nat, parameterNo: u16, scfg: SlaveConfig, s: Slave)
    requires |cfg.groups| > 0 && i < |cfg.groups[0].devices|
  {
    && SlaveInv(scfg, s) && BoundTo(cfg, 0, i, scfg, s) && s.master.parameterNo == parameterNo
    && s.master.timeout == cfg.groups[0].timeout && s.master.offCount == cfg.groups[0].offCount
  }

  // ---------------------------------------------------------------- the exchange restarts the timer

  lemma ExchangeRestarts(scfg: SlaveConfig, s: Slave, now: u32, q: Incoming)
    requires FramesFit(scfg, s) && q.Incoming? && q.r.WellFormed() && CanCopy(scfg, |q.r.ids|, s.master.station)
    ensures var r := Exchanged(scfg, s, now, q).receiveTimer;
            r.Running? ==> r.stamp == now
  {
    hide Copied, Reply, TellMasterState, FramesFit, MyBit;
  }

  lemma ServingTimer(cfg: MasterConfig, i: nat, parameterNo: u16, scfg: SlaveConfig, s: Slave, now: u32)
    requires |cfg.groups| > 0 && i < |cfg.groups[0].devices| && Serves(cfg, i, parameterNo, scfg, s) && TimerHolds(cfg)
    requires s.receiveTimer.Running? ==> s.receiveTimer.stamp == now
    ensures !Expired(s.receiveTimer, now)
  {
    hide Core, TotalTimeout;
  }

  // ---------------------------------------------------------------- replies

  lemma {:induction false} RepliesAreGood(scfg: SlaveConfig, trace: seq<SlaveOutput>, k: nat)
    requires forall j :: 0 <= j < |trace| ==> GoodReply(scfg, trace[j])
    requires k < |Replies(trace)|
    ensures Replies(trace)[k].Replied? && GoodReply(scfg, Replies(trace)[k])
  {
    hide GoodReply;
    if trace != [] && k < |Replies(trace[..|trace| - 1])| {
      RepliesAreGood(scfg, trace[..|trace| - 1], k);
    }
  }

  /** The slave answered this request with success, in a form the master accepts. */
  predicate ServedWell(cfg: MasterConfig, k: nat, i: nat, s: Slave, r: Slave)
    requires M.GoodConfig(cfg) && |cfg.groups| > 0 && i < |cfg.groups[0].devices|
  {
    && |Replies(r.trace)| == |Replies(s.trace)| + 1
    && var o := Replies(r.trace)[|Replies(s.trace)|];
    && o.Replied? && Proper(cfg, k, i, o.response) && o.bytes == EncodeResponse(o.response)
  }

  lemma SuccessIsProper(cfg: MasterConfig, k: nat, q: Request, i: nat, scfg: SlaveConfig, s: Slave, r: Slave)
    requires M.GoodConfig(cfg) && |cfg.groups| > 0 && i < |cfg.groups[0].devices| && Matching(cfg, i, scfg)
    requires SlaveInv(scfg, r) && q.seqNo == SeqOf(k) && q.groupNo == 1
    requires |Replies(r.trace)| == |Replies(s.trace)| + 1
    requires Answers(Arriving(cfg, 0, q, i), Replies(r.trace)[|Replies(s.trace)|])
    requires Replies(r.trace)[|Replies(s.trace)|].response.endCode == ENDCODE_SUCCESS
    ensures ServedWell(cfg, k, i, s, r)
  {
    hide Replies, EncodeResponse, SendableResponse, FramesFit;
    RepliesAreGood(scfg, r.trace, |Replies(s.trace)|);
  }

  // ---------------------------------------------------------------- requests

  lemma Shown(cfg: MasterConfig, k: nat, q: Request, i: nat)
    requires M.GoodConfig(cfg) && |cfg.groups| > 0 && ShowsAll(cfg, k, q) && i < |cfg.groups[0].devices|
    ensures ValidGroupSetting(cfg.groups[0]) && Holds(cfg.groups[0], q)
    ensures ViewOf(cfg.groups[0], q.word, q, i).id == cfg.groups[0].devices[i].slaveId
    ensures ViewOf(cfg.groups[0], q.word, q, i).bit == (k > 0)
  {
    hide ViewOf;
  }

  /** A later request reaches a slave that already serves its sender. */
  lemma LaterRequest(cfg: MasterConfig, k: nat, q: Request, bytes: seq<byte>, i: nat, scfg: SlaveConfig, s: Slave, now: u32)
    requires M.GoodConfig(cfg) && |cfg.groups| > 0 && i < |cfg.groups[0].devices| && Matching(cfg, i, scfg)
    requires GoodRequest(cfg, 0, q, bytes) && ShowsAll(cfg, k, q) && q.seqNo == SeqOf(k) && k > 0
    requires Serves(cfg, i, q.parameterNo, scfg, s)
    ensures FramesFit(scfg, s) && q.WellFormed()
    ensures var r := HandleRequest(scfg, s, now, Arriving(cfg, 0, q, i));
            && Serves(cfg, i, q.parameterNo, scfg, r) && ServedWell(cfg, k, i, s, r)
            && (r.receiveTimer.Running? ==> r.receiveTimer.stamp == now)
            && Holds(cfg.groups[0], q)
            && Exchange(scfg, s, ViewOf(cfg.groups[0], q.word, q, i), Arriving(cfg, 0, q, i), r)
  {
    hide HandleRequest, Core, Exchanged, Replies, GoodRequest, GoodReply, AreaOf, CanCopy, Placed, Sendable, ViewOf, Request.WellFormed, ShowsAll;
    ArrivingIsGood(cfg, 0, q, bytes, i);
    CoreFits(scfg, s);
    SeqAlwaysChanges(k);
    Shown(cfg, k, q, i);
    OutputsArrive(cfg, 0, q, bytes, i, scfg, s, now);
    var r := HandleRequest(scfg, s, now, Arriving(cfg, 0, q, i));
    SuccessIsProper(cfg, k, q, i, scfg, s, r);
    Fits(cfg.groups[0], i);
    CopyFits(cfg, 0, q, i, scfg);
    NamesDevice(cfg, q, i);
    ServedIsExchanged(scfg, s, now, Arriving(cfg, 0, q, i));
    ExchangeRestarts(scfg, s, now, Arriving(cfg, 0, q, i));
  }

  lemma NamesDevice(cfg: MasterConfig, q: Request, i: nat)
    requires |cfg.groups| > 0 && i < |cfg.groups[0].devices| && Holds(cfg.groups[0], q)
    requires ViewOf(cfg.groups[0], q.word, q, i).id == cfg.groups[0].devices[i].slaveId
    ensures 1 + Start(cfg.groups[0].devices, i) <= MAX_STATIONS_PER_GROUP
    ensures Names(Arriving(cfg, 0, q, i), 1 + Start(cfg.groups[0].devices, i))
  {
    hide AreaOf;
    Fits(cfg.groups[0], i);
    StationInRange(cfg.groups[0], i);
  }

  /** The request with which a free slave takes its sender as master. */
  lemma FirstIsConnected(cfg: MasterConfig, q: Request, bytes: seq<byte>, i: nat, scfg: SlaveConfig, s: Slave, now: u32)
    requires M.GoodConfig(cfg) && |cfg.groups| > 0 && i < |cfg.groups[0].devices| && Matching(cfg, i, scfg)
    requires GoodRequest(cfg, 0, q, bytes) && ShowsAll(cfg, 0, q) && FramesFit(scfg, s) && s.state == MasterNone
    ensures q.WellFormed() && 1 + Start(cfg.groups[0].devices, i) <= MAX_STATIONS_PER_GROUP
    ensures HandleRequest(scfg, s, now, Arriving(cfg, 0, q, i))
            == Connected(scfg, s.(state := MasterControl, master := s.master.(station := 1 + Start(cfg.groups[0].devices, i))),
                         now, Arriving(cfg, 0, q, i), true)
  {
    hide Connected, GoodRequest, FramesFit, ViewOf, ShowsAll, Request.WellFormed, SearchSlaveId, GoodIncoming;
    ArrivingIsGood(cfg, 0, q, bytes, i);
    Shown(cfg, 0, q, i);
    SlaveFindsItself(cfg, 0, q, bytes, i);
    MyBitIsViewBit(cfg.groups[0], q, i);
  }

  lemma FirstRequest(cfg: MasterConfig, q: Request, bytes: seq<byte>, i: nat, scfg: SlaveConfig, s: Slave, now: u32)
    requires M.GoodConfig(cfg) && |cfg.groups| > 0 && i < |cfg.groups[0].devices| && Matching(cfg, i, scfg)
    requires GoodRequest(cfg, 0, q, bytes) && ShowsAll(cfg, 0, q) && q.seqNo == SeqOf(0) && Free(scfg, s)
    ensures FramesFit(scfg, s) && q.WellFormed()
    ensures var r := HandleRequest(scfg, s, now, Arriving(cfg, 0, q, i));
            && Serves(cfg, i, q.parameterNo, scfg, r) && ServedWell(cfg, 0, i, s, r)
            && (r.receiveTimer.Running? ==> r.receiveTimer.stamp == now)
  {
    hide HandleRequest, Core, Exchanged, Replies, GoodRequest, GoodReply, AreaOf, CanCopy, Sendable, ViewOf,
         Request.WellFormed, ShowsAll, TakenMaster;
    var p := Arriving(cfg, 0, q, i);
    var station := 1 + Start(cfg.groups[0].devices, i);
    ArrivingIsGood(cfg, 0, q, bytes, i);
    RequestTimes(cfg, q, bytes);
    CoreFits(scfg, s);
    Fits(cfg.groups[0], i);
    StationInRange(cfg.groups[0], i);
    CopyFits(cfg, 0, q, i, scfg);
    FirstIsConnected(cfg, q, bytes, i, scfg, s, now);
    var s0 := s.(state := MasterControl, master := s.master.(station := station));
    CoreApart(scfg, s, s0);
    TakenKeeps(scfg, s0, now, p, true);
    var s2 := Entered(TakenMaster(scfg, s0, now, p), MasterControl);
    ExchangeKeeps(scfg, s2, now, p);
    ExchangeRestarts(scfg, s2, now, p);
    var r := Exchanged(scfg, s2, now, p);
    SuccessIsProper(cfg, 0, q, i, scfg, s2, r);
  }

  lemma RequestTimes(cfg: MasterConfig, q: Request, bytes: seq<byte>)
    requires M.GoodConfig(cfg) && |cfg.groups| > 0 && GoodRequest(cfg, 0, q, bytes)
    ensures q.timeout == cfg.groups[0].timeout && q.offCount == cfg.groups[0].offCount
  {
    hide Fillers, PlainView, EncodeRequest, Sendable;
  }

  // ---------------------------------------------------------------- a poll with the request in it

  /** The datagram that carries a request to device i. */
  function Carrying(cfg: MasterConfig, bytes: seq<byte>, i: nat): Datagram
    requires |cfg.groups| > 0 && i < |cfg.groups[0].devices|
  {
    Datagram.Datagram(bytes, cfg.masterId, cfg.groups[0].devices[i].slaveId)
  }

  lemma DatagramIsArriving(cfg: MasterConfig, q: Request, bytes: seq<byte>, i: nat, scfg: SlaveConfig, s: Slave, now: u32)
    requires M.GoodConfig(cfg) && |cfg.groups| > 0 && i < |cfg.groups[0].devices| && GoodRequest(cfg, 0, q, bytes)
    requires FramesFit(scfg, s) && s.state != SlaveDown && q.WellFormed()
    ensures ReceivedAny(scfg, s, now, Carrying(cfg, bytes, i)) == HandleRequest(scfg, s, now, Arriving(cfg, 0, q, i))
  {
    hide HandleRequest, EncodeRequest, FramesFit, Fillers, PlainView, DecodeRequest, IsRequest, ValidRequestHeaders;
    ArrivingIsGood(cfg, 0, q, bytes, i);
    RequestRoundTrip(bytes, cfg.masterId, q);
  }

  /** One poll of a slave into which request k of the master is delivered. */
  lemma RequestServed(cfg: MasterConfig, k: nat, q: Request, bytes: seq<byte>, i: nat, scfg: SlaveConfig, s: Slave, now: u32)
    requires M.GoodConfig(cfg) && |cfg.groups| > 0 && i < |cfg.groups[0].devices| && Matching(cfg, i, scfg) && TimerHolds(cfg)
    requires GoodRequest(cfg, 0, q, bytes) && ShowsAll(cfg, k, q) && q.seqNo == SeqOf(k)
    requires if k == 0 then Free(scfg, s) else Serves(cfg, i, q.parameterNo, scfg, s)
    ensures FramesFit(scfg, s)
    ensures var r := SlaveStep(scfg, s, Poll(now, Carrying(cfg, bytes, i)));
            && Serves(cfg, i, q.parameterNo, scfg, r) && ServedWell(cfg, k, i, s, r)
            && (k > 0 ==> Holds(cfg.groups[0], q)
                          && Exchange(scfg, s, ViewOf(cfg.groups[0], q.word, q, i), Arriving(cfg, 0, q, i), r))
  {
    hide HandleRequest, Core, Replies, GoodRequest, ShowsAll, Request.WellFormed, TotalTimeout, Placed, BoundTo, Matching,
         ReceivedAny, ReceiveTimerChecked, DisablingTimerChecked, ServedWell, Exchange, ViewOf;
    CoreFits(scfg, s);
    if k == 0 {
      FirstRequest(cfg, q, bytes, i, scfg, s, now);
    } else {
      LaterRequest(cfg, k, q, bytes, i, scfg, s, now);
    }
    DatagramIsArriving(cfg, q, bytes, i, scfg, s, now);
    var r := HandleRequest(scfg, s, now, Arriving(cfg, 0, q, i));
    ServingTimer(cfg, i, q.parameterNo, scfg, r, now);
    TimerKeeps(scfg, r, now);
    ServesState(cfg, i, q.parameterNo, scfg, r);
    NeverExpires(now);
    DisablingKeeps(scfg, r, now);
  }

  lemma ServesState(cfg: MasterConfig, i: nat, parameterNo: u16, scfg: SlaveConfig, s: Slave)
    requires |cfg.groups| > 0 && i < |cfg.groups[0].devices| && Serves(cfg, i, parameterNo, scfg, s)
    ensures s.state == MasterControl && s.disablingTimer == Stopped && s.receiveTimer.Running?
  {
    hide Core;
  }

  /** Any other poll in time leaves a slave as it is. */
  lemma QuietPoll(scfg: SlaveConfig, s: Slave, now: u32)
    requires SlaveInv(scfg, s) && !Expired(s.receiveTimer, now) && s.state != WaitDisabling
    ensures FramesFit(scfg, s) && SlaveStep(scfg, s, Poll(now, NoDatagram)) == s
  {
    hide Core;
    CoreFits(scfg, s);
    NeverExpires(now);
  }

  // ---------------------------------------------------------------- the limit of the slave's timer

  /** The slave's timer is zero exactly for totals that are multiples of 2^29 milliseconds. */
  lemma ZeroTimerIff(timeout: u16, offCount: u16)
    requires timeout >= MIN_TIMEOUT && offCount >= MIN_TIMEOUT_COUNT
    ensures TotalTimeout(timeout, offCount) == 0 <==> timeout * offCount % 0x2000_0000 == 0
  {
    ProductFits(timeout, offCount);
    ThousandfoldIsZero(timeout * offCount);
  }

  /** One group with one slave of one station, dropped after 32768 scans of 16384 ms: about six days. */
  const SIX_DAYS: MasterConfig := MasterConfig(1, 0xC0A8_0301, 0, 0,
    [GroupSetting(16384, 32768, false, [DeviceSetting(0xC0A8_0302, 1, false)])])

  /** The master accepts such a configuration, and no slave of it can keep this master. */
  lemma ZeroTimerInstance()
    ensures M.GoodConfig(SIX_DAYS) && TotalTimeout(16384, 32768) == 0 && !TimerHolds(SIX_DAYS)
  {
    ZeroTimerIff(16384, 32768);
    var devices := SIX_DAYS.groups[0].devices;
    assert Occupied(devices, 1) == Occupied(devices, 0) + 1;
    assert OccupiedByGroups(SIX_DAYS.groups, 1) == OccupiedByGroups(SIX_DAYS.groups, 0) + Total(devices);
  }

  lemma ThousandfoldIsZero(n: nat)
    requires n < U32_MODULUS
    ensures n % U32_MODULUS * 1000 % U32_MODULUS == 0 <==> n % 0x2000_0000 == 0
  {
    var q, r := n / 0x2000_0000, n % 0x2000_0000;
    assert n * 1000 == 125 * q * U32_MODULUS + 8 * (125 * r);
    if n * 1000 % U32_MODULUS == 0 {
      NoSharedFactor(r, n * 1000 / U32_MODULUS - 125 * q);
    }
  }

  /** 125 has an inverse modulo 2^29. */
  lemma NoSharedFactor(r: nat, m: int)
    requires r < 0x2000_0000 && 125 * r == 0x2000_0000 * m
    ensures r == 0
  {
    assert 115964117 * (125 * r) == r + 0x2000_0000 * (27 * r);
    assert r == 0x2000_0000 * (115964117 * m - 27 * r);
  }

  /** The bound is exact: with the first request a slave takes its master, and the same poll drops it
      again if and only if the timer it derives from the request is zero. */
  lemma FirstPollKeepsMasterIff(cfg: MasterConfig, q: Request, bytes: seq<byte>, i: nat, scfg: SlaveConfig, s: Slave, now: u32)
    requires M.GoodConfig(cfg) && |cfg.groups| > 0 && i < |cfg.groups[0].devices| && Matching(cfg, i, scfg)
    requires GoodRequest(cfg, 0, q, bytes) && ShowsAll(cfg, 0, q) && q.seqNo == SeqOf(0) && Free(scfg, s)
    ensures FramesFit(scfg, s)
    ensures SlaveStep(scfg, s, Poll(now, Carrying(cfg, bytes, i))).state == MasterControl <==> TimerHolds(cfg)
    ensures !TimerHolds(cfg) ==> SlaveStep(scfg, s, Poll(now, Carrying(cfg, bytes, i))).state == MasterNone
  {
    hide HandleRequest, Core, Replies, GoodRequest, ShowsAll, Request.WellFormed, TotalTimeout, BoundTo, Matching,
         ReceivedAny, ReceiveTimerChecked, DisablingTimerChecked, ServedWell;
    CoreFits(scfg, s);
    FirstRequest(cfg, q, bytes, i, scfg, s, now);
    DatagramIsArriving(cfg, q, bytes, i, scfg, s, now);
    var r := HandleRequest(scfg, s, now, Arriving(cfg, 0, q, i));
    ServesState(cfg, i, q.parameterNo, scfg, r);
    TimerKeeps(scfg, r, now);
    var r2 := ReceiveTimerChecked(scfg, r, now);
    NoDisabling(scfg, r2);
    NeverExpires(now);
    DisablingKeeps(scfg, r2, now);
    StampedNow(cfg, i, q.parameterNo, scfg, r, now);
  }

  lemma NoDisabling(scfg: SlaveConfig, s: Slave)
    requires SlaveInv(scfg, s)
    ensures s.state == MasterNone || s.state == MasterControl ==> s.disablingTimer == Stopped
  {
    hide Core;
  }

  lemma StampedNow(cfg: MasterConfig, i: nat, parameterNo: u16, scfg: SlaveConfig, s: Slave, now: u32)
    requires |cfg.groups| > 0 && i < |cfg.groups[0].devices| && Serves(cfg, i, parameterNo, scfg, s)
    requires s.receiveTimer.Running? ==> s.receiveTimer.stamp == now
    ensures Expired(s.receiveTimer, now) <==> !TimerHolds(cfg)
  {
    hide Core, TotalTimeout;
  }
}
