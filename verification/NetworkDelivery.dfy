/** Data through the closed loop: outputs written at the master reach each slave with the next
    request, and inputs written at a slave reach the master with the slave's response. */
module NetworkDelivery {
  import opened Words
  import opened Config
  import opened Layout
  import opened Timer
  import opened Frames
  import opened Responses
  import opened GroupModel
  import M = MasterModel
  import opened FrameViews
  import opened Scans
  import opened Startup
  import opened Freshness
  import opened SlaveModel
  import opened SlaveInvariant
  import opened Delivery
  import opened Image
  import opened ClosedLoop
  import opened Serving
  import opened Network
  import opened NetworkInvariant
  import D = DeviceModel

  predicate ArrivalOf(h: Happening, i: nat) {
    (h.RequestArrives? || h.ResponseArrives?) && h.i == i
  }

  /** Something of device i is under way. */
  predicate Busy(net: Net, i: nat) {
    i < |net.down| && i < |net.up| && (net.down[i].Carries? || net.up[i].Carries?)
  }

  /** The wires of device i, the log and the request are the same. */
  predicate Holding(net: Net, r: Net, i: nat) {
    && |r.down| == |net.down| && |r.up| == |net.up| && i < |net.down| && i < |net.up|
    && r.down[i] == net.down[i] && r.up[i] == net.up[i]
    && |net.m.groups| == |r.m.groups| == 1
    && r.m.groups[0].frame == net.m.groups[0].frame
    && Log(0, r.m.sh.trace) == Log(0, net.m.sh.trace)
  }

  // ---------------------------------------------------------------- nothing else touches what is under way

  lemma BusyIsUnanswered(p: Plant, net: Net, i: nat)
    requires NetInv(p, net) && Busy(net, i)
    ensures i < |p.scfgs| && net.m.groups[0].state == LinkScan && |net.m.groups| == 1
    ensures !Answered(net.down, net.up)[i]
    ensures Underway(p, |Log(0, net.m.sh.trace)| / 2, net)
  {
    hide M.GoodConfig, LaidOut, Log, Open, FramesFit, Matching, NoneReserved, TimerHolds, Story, Begun, Paused, Known, Station;
  }

  lemma OtherResponse(p: Plant, net: Net, j: nat, t: Clock, i: nat)
    requires NetInv(p, net) && Busy(net, i) && j < |net.up| && net.up[j].Carries? && j != i
    ensures Holding(net, Next(p, net, ResponseArrives(j, t)), i)
  {
    hide M.GoodConfig, LaidOut, Log, EncodeRequest, EncodeResponse, ParseResponse, Open, FramesFit, Matching, NoneReserved,
         TimerHolds, Known, Begun, Paused, Opens, Story, M.Step, M.Allowed, Proper, ShowsAll;
    var k, q := |Log(0, net.m.sh.trace)| / 2, net.m.groups[0].frame;
    BusyIsUnanswered(p, net, i);
    assert Station(p, k, q, j, net.slaves[j], net.down[j], net.up[j]);
    var r := ParseResponse(net.up[j].bytes, p.cfg.groups[0].devices[j].slaveId).r;
    OpenState(p.cfg, k, M.ScopeOf(net.m, 0), Answered(net.down, net.up));
    ProperSendable(p, k, j, r);
    ResponseStep(p.cfg, k, net.m, Answered(net.down, net.up), t, j, r);
    assert !Answered(net.down, net.up)[j := true][i];
  }

  lemma PollWhileOpen(p: Plant, net: Net, t: Clock, i: nat)
    requires NetInv(p, net) && Busy(net, i) && May(p, net, MasterPolls(t))
    ensures Holding(net, Next(p, net, MasterPolls(t)), i)
  {
    hide M.GoodConfig, LaidOut, Log, EncodeRequest, Open, FramesFit, Matching, NoneReserved, TimerHolds, Story,
         Known, ProperFrame, Begun, Opens, Paused, Expired, M.Step, Stations;
    BusyIsUnanswered(p, net, i);
    TickOfOne(p.cfg, net.m, t);
    NeverExpires(t.now);
    MonitorInScan(p.cfg, |Log(0, net.m.sh.trace)| / 2, net.m, Answered(net.down, net.up), t);
  }

  lemma ApplicationHolds(p: Plant, net: Net, input: M.Input, i: nat)
    requires NetInv(p, net) && Busy(net, i) && M.Allowed(input) && (input.SetStatus? || input.WriteOutputs? || input.ClearStatistics?)
    ensures Holding(net, MasterStep(p, net, input), i)
  {
    hide NetInv, LaidOut, Log, FramesFit, GoodPlant, M.Allowed, Underway, Answered, Broadcast;
    BusyIsUnanswered(p, net, i);
    InvIsSane(p, net);
    SameLog(net, M.Step(p.cfg, net.m, input));
  }

  lemma SlaveHolds(p: Plant, net: Net, j: nat, input: SlaveInput, i: nat)
    requires NetInv(p, net) && Busy(net, i) && j < |net.slaves| && AllowedInput(p.scfgs[j], input)
    requires SlaveStep(p.scfgs[j], net.slaves[j], input).trace == net.slaves[j].trace
    ensures Holding(net, SlaveMoves(p, net, j, input), i)
  {
    hide NetInv, LaidOut, Log, FramesFit, GoodPlant, SlaveStep, Replies;
    BusyIsUnanswered(p, net, i);
  }

  /** While something of device i is under way, whatever else happens leaves it under way, and the
      scan open. */
  lemma OthersHold(p: Plant, net: Net, h: Happening, i: nat)
    requires NetInv(p, net) && Busy(net, i) && May(p, net, h) && !ArrivalOf(h, i)
    ensures Holding(net, Next(p, net, h), i)
  {
    hide NetInv, MasterStep, SlaveMoves, Expired, GoodPlant, FramesFit, M.Ready, Log, SlaveStep, Holding, Busy;
    InvIsSane(p, net);
    match h
    case RequestArrives(j, now) => OtherRequest(p, net, j, now, i);
    case ResponseArrives(j, t) => OtherResponse(p, net, j, t, i);
    case MasterPolls(t) => PollWhileOpen(p, net, t, i);
    case SlavePolls(j, now) =>
      SlaveKeeps(p, net, j);
      QuietPoll(p.scfgs[j], net.slaves[j], now);
      SlaveHolds(p, net, j, Poll(now, NoDatagram), i);
    case MasterWrites(ry, rww) => ApplicationHolds(p, net, M.WriteOutputs(0, ry, rww), i);
    case MasterStatus(running, byUser) => ApplicationHolds(p, net, M.SetStatus(running, byUser), i);
    case MasterClears => ApplicationHolds(p, net, M.ClearStatistics, i);
    case SlaveWrites(j, rwr, rx) =>
      SameReplies(p.scfgs[j], net.slaves[j], WriteInputs(rwr, rx));
      SlaveHolds(p, net, j, WriteInputs(rwr, rx), i);
    case SlaveStatus(j, operating, errCode, mgmtInfo) =>
      SameReplies(p.scfgs[j], net.slaves[j], SlaveInput.SetStatus(operating, errCode, mgmtInfo));
      SlaveHolds(p, net, j, SlaveInput.SetStatus(operating, errCode, mgmtInfo), i);
  }

  lemma OtherRequest(p: Plant, net: Net, j: nat, now: u32, i: nat)
    requires NetInv(p, net) && Busy(net, i) && j < |net.down| && net.down[j].Carries? && j != i
    ensures Holding(net, Next(p, net, RequestArrives(j, now)), i)
  {
    hide NetInv, Log, Next, GoodPlant, FramesFit, M.Ready, Underway;
    InvIsSane(p, net);
    BusyIsUnanswered(p, net, i);
    RequestArrivalMoves(p, net, j, now);
  }

  lemma SameReplies(scfg: SlaveConfig, s: Slave, input: SlaveInput)
    requires FramesFit(scfg, s) && s.state != SlaveDown && AllowedInput(scfg, input) && (input.SetStatus? || input.WriteInputs?)
    ensures SlaveStep(scfg, s, input).trace == s.trace
  {
  }

  lemma HoldingOn(a: Net, b: Net, c: Net, i: nat)
    requires Holding(a, b, i) && Holding(b, c, i)
    ensures Holding(a, c, i)
  {
  }

  lemma HoldsItself(p: Plant, net: Net, i: nat)
    requires NetInv(p, net) && Busy(net, i)
    ensures Holding(net, net, i)
  {
    hide NetInv, Log;
    BusyIsUnanswered(p, net, i);
  }

  lemma StillBusy(net: Net, r: Net, i: nat)
    requires Busy(net, i) && Holding(net, r, i)
    ensures Busy(r, i)
  {
  }

  lemma {:induction false} RunHolds(p: Plant, net: Net, b: seq<Happening>, i: nat)
    requires NetInv(p, net) && Sane(p, net) && Busy(net, i) && InTime(p, net, b)
    requires forall j :: 0 <= j < |b| ==> !ArrivalOf(b[j], i)
    ensures NetInv(p, Final(p, net, b)) && Holding(net, Final(p, net, b), i)
    decreases |b|
  {
    hide Next, May, NetInv, Sane, Holding, Busy, ArrivalOf;
    HoldsItself(p, net, i);
    if b != [] {
      var next, rest := Next(p, net, b[0]), b[1..];
      OthersHold(p, net, b[0], i);
      NextKeeps(p, net, b[0]);
      StillBusy(net, next, i);
      forall j | 0 <= j < |rest| ensures !ArrivalOf(rest[j], i) {
        assert rest[j] == b[j + 1];
      }
      RunHolds(p, next, rest, i);
      HoldingOn(net, next, Final(p, next, rest), i);
    }
  }

  // ---------------------------------------------------------------- from the master to a slave

  lemma ResponseOpens(p: Plant, net: Net, j: nat, t: Clock)
    requires NetInv(p, net) && j < |net.up| && net.up[j].Carries?
    ensures var r := Next(p, net, ResponseArrives(j, t));
            |Log(0, r.m.sh.trace)| > |Log(0, net.m.sh.trace)| && r.m.groups[0].state == LinkScan ==>
              Opens(p.cfg, |Log(0, r.m.sh.trace)| / 2, M.ScopeOf(net.m, 0), [LinkScanCb(0, true)], M.ScopeOf(r.m, 0))
  {
    hide M.GoodConfig, LaidOut, Log, EncodeRequest, EncodeResponse, ParseResponse, Open, FramesFit, Matching, NoneReserved,
         TimerHolds, Known, Begun, Story, M.Step, M.Allowed, Proper, ShowsAll, ShowsData, GroupInv, AllRested;
    var k, q := |Log(0, net.m.sh.trace)| / 2, net.m.groups[0].frame;
    assert net.m.groups[0].state == LinkScan;
    assert Station(p, k, q, j, net.slaves[j], net.down[j], net.up[j]);
    var r := ParseResponse(net.up[j].bytes, p.cfg.groups[0].devices[j].slaveId).r;
    OpenState(p.cfg, k, M.ScopeOf(net.m, 0), Answered(net.down, net.up));
    ProperSendable(p, k, j, r);
    ResponseStep(p.cfg, k, net.m, Answered(net.down, net.up), t, j, r);
  }

  lemma PollOpens(p: Plant, net: Net, t: Clock)
    requires NetInv(p, net) && May(p, net, MasterPolls(t))
    ensures var r := Next(p, net, MasterPolls(t));
            if |Log(0, r.m.sh.trace)| > |Log(0, net.m.sh.trace)| then
              Opens(p.cfg, |Log(0, r.m.sh.trace)| / 2, M.ScopeOf(net.m, 0), [], M.ScopeOf(r.m, 0))
            else Log(0, r.m.sh.trace) == Log(0, net.m.sh.trace)
  {
    hide M.GoodConfig, LaidOut, Log, EncodeRequest, Open, FramesFit, Matching, NoneReserved, TimerHolds, Story,
         Known, ProperFrame, Begun, Paused, Expired, M.Step, Broadcast, Stations, ShowsAll, ShowsData, Resting, AllAnswered,
         M.MonitorGroup;
    var c, k := M.ScopeOf(net.m, 0), |Log(0, net.m.sh.trace)| / 2;
    match c.g.state
    case MasterArbitration =>
      BegunLog(p, c);
      PollInArbitration(p.cfg, net.m, t);
    case LinkScanComp =>
      PausedState(p, k, c);
      TickOfOne(p.cfg, net.m, t);
      NeverExpires(t.now);
      MonitorInPause(p.cfg, k, net.m, t);
    case LinkScan =>
      TickOfOne(p.cfg, net.m, t);
      NeverExpires(t.now);
      MonitorInScan(p.cfg, k, net.m, Answered(net.down, net.up), t);
  }

  /** A request goes out. */
  predicate Sends(net: Net, r: Net) {
    && |net.m.groups| == |r.m.groups| == 1 && r.m.groups[0].state == LinkScan
    && |Log(0, r.m.sh.trace)| > |Log(0, net.m.sh.trace)|
  }

  lemma OpensBroadcast(p: Plant, k: nat, net: Net, closing: seq<Output>, m: M.Master)
    requires GoodPlant(p) && |net.m.groups| == |m.groups| == 1 && m.groups[0].frame.WellFormed()
    requires Opens(p.cfg, k, M.ScopeOf(net.m, 0), closing, M.ScopeOf(m, 0))
    ensures Broadcast(net, m) == seq(|net.down|, i => Carries(EncodeRequest(m.groups[0].frame)))
  {
    hide Log, EncodeRequest, Open, ShowsAll, ShowsData, GoodPlant;
  }

  /** Only two things make the log grow. */
  lemma OthersSendNothing(p: Plant, net: Net, h: Happening)
    requires NetInv(p, net) && May(p, net, h) && !h.ResponseArrives? && !h.MasterPolls?
    ensures Next(p, net, h).m.sh.trace == net.m.sh.trace
  {
    hide NetInv, GoodPlant, FramesFit, LaidOut, SlaveStep, Replies, Broadcast;
    InvIsSane(p, net);
  }

  /** Every request goes out to all slaves and carries the outputs of that moment. */
  lemma StartCarries(p: Plant, net: Net, h: Happening)
    requires NetInv(p, net) && May(p, net, h) && Sends(net, Next(p, net, h))
    ensures var r := Next(p, net, h);
            && r.m.groups[0].frame.WellFormed() && |r.down| == |p.scfgs|
            && (forall i :: 0 <= i < |r.down| ==> r.down[i] == Carries(EncodeRequest(r.m.groups[0].frame)))
            && ShowsData(p.cfg, |Log(0, r.m.sh.trace)| / 2, net.m.groups[0].ry, net.m.groups[0].rww, r.m.groups[0].frame)
  {
    hide NetInv, FramesFit, LaidOut, Log, Broadcast, M.Step, M.Allowed, M.GoodConfig, NoneReserved, TimerHolds, Matching,
         EncodeRequest, Opens, ShowsData, SlaveMoves, Expired;
    InvIsSane(p, net);
    var r := Next(p, net, h);
    FrameOfGroup(p, r.m);
    var k := |Log(0, r.m.sh.trace)| / 2;
    match h
    case ResponseArrives(j, t) =>
      ResponseOpens(p, net, j, t);
      OpensBroadcast(p, k, net.(up := net.up[j := Idle]), [LinkScanCb(0, true)], r.m);
      OpensData(p.cfg, k, M.ScopeOf(net.m, 0), [LinkScanCb(0, true)], M.ScopeOf(r.m, 0));
    case MasterPolls(t) =>
      PollOpens(p, net, t);
      OpensBroadcast(p, k, net, [], r.m);
      OpensData(p.cfg, k, M.ScopeOf(net.m, 0), [], M.ScopeOf(r.m, 0));
    case _ => OthersSendNothing(p, net, h);
  }

  lemma OpensData(cfg: MasterConfig, k: nat, c: Scope, closing: seq<Output>, r: Scope)
    requires M.GoodConfig(cfg) && Opens(cfg, k, c, closing, r)
    ensures ShowsData(cfg, k, c.g.ry, c.g.rww, r.g.frame)
  {
    hide Open, ShowsAll, ShowsData, Log;
  }

  /** Every request finds its slave's outputs as they were when it was sent: RY and RWw of the slave
      then equal the master's output memory of the device at the moment of the scan start. */
  lemma OutputsReachSlave(p: Plant, net: Net, h: Happening, n1: Net, b: seq<Happening>, n2: Net, n3: Net, i: nat, now: u32)
    requires Sane(p, net) && NetInv(p, net) && i < |p.scfgs|
    requires Follows(p, net, h, n1) && Sends(net, n1) && |Log(0, n1.m.sh.trace)| >= 3
    requires Reaches(p, n1, b, n2) && forall j :: 0 <= j < |b| ==> !ArrivalOf(b[j], i)
    requires Follows(p, n2, RequestArrives(i, now), n3)
    ensures ShowsArea(p, i, TheGroup(p, net), n3.slaves[i])
  {
    hide NetInv, FramesFit, LaidOut, Log, M.GoodConfig, NoneReserved, TimerHolds, Matching, EncodeRequest, ShowsData, Expired,
         Next, Sends, InTime, Final, ArrivalOf, Holding, ShowsArea, Busy;
    NextKeeps(p, net, h);
    StartCarries(p, net, h);
    BusyNow(p, n1, i);
    RunHolds(p, n1, b, i);
    HoldingParts(n1, n2, i);
    RequestDelivers(p, n2, i, now, net.m.groups[0].ry, net.m.groups[0].rww);
    AreaShown(p, i, net.m.groups[0], n3.slaves[i]);
  }

  /** The slave's RY and RWw equal the output memory of device i in the group. */
  predicate ShowsArea(p: Plant, i: nat, g: Group, s: Slave)
    requires GoodPlant(p) && i < |p.scfgs|
  {
    var setting := p.cfg.groups[0];
    && |g.ry| == BITS && |g.rww| == WORDS && ReadsAs(setting, i, g.ry, g.rww, s)
  }

  predicate ReadsAs(setting: GroupSetting, i: nat, ry: seq<byte>, rww: seq<byte>, s: Slave)
    requires i < |setting.devices| && |ry| == BITS && |rww| == WORDS
  {
    var n := setting.devices[i].stations;
    && ValidGroupSetting(setting) && AreaFits(setting, i)
    && BIT_AREA * n <= |s.ry| && s.ry[..BIT_AREA * n] == AreaOf(setting, ry, BIT_AREA, i)
    && WORD_AREA * n <= |s.rww| && s.rww[..WORD_AREA * n] == AreaOf(setting, rww, WORD_AREA, i)
  }

  predicate AreaFits(setting: GroupSetting, i: nat)
    requires i < |setting.devices|
  {
    Offset(WORD_AREA, End(setting.devices, i)) <= WORDS && Offset(BIT_AREA, End(setting.devices, i)) <= BITS
  }

  lemma AreaShown(p: Plant, i: nat, g: Group, s: Slave)
    requires GoodPlant(p) && i < |p.scfgs| && |g.ry| == BITS && |g.rww| == WORDS
    requires ReadsAs(p.cfg.groups[0], i, g.ry, g.rww, s)
    ensures ShowsArea(p, i, g, s)
  {
    hide ReadsAs;
  }

  lemma BusyNow(p: Plant, net: Net, i: nat)
    requires Sane(p, net) && i < |net.down| && net.down[i].Carries?
    ensures Busy(net, i)
  {
  }

  lemma HoldingParts(net: Net, r: Net, i: nat)
    requires Holding(net, r, i)
    ensures |r.down| == |net.down| && |r.up| == |net.up| && i < |net.down| && i < |net.up|
    ensures r.down[i] == net.down[i] && r.up[i] == net.up[i]
    ensures |net.m.groups| == |r.m.groups| == 1 && r.m.groups[0].frame == net.m.groups[0].frame
    ensures Log(0, r.m.sh.trace) == Log(0, net.m.sh.trace)
  {
    hide Log;
  }

  lemma RequestDelivers(p: Plant, net: Net, i: nat, now: u32, ry: seq<byte>, rww: seq<byte>)
    requires NetInv(p, net) && i < |net.down| && i < |p.scfgs| && net.down[i].Carries? && |Log(0, net.m.sh.trace)| >= 3
    requires |net.m.groups| == 1 && ShowsData(p.cfg, |Log(0, net.m.sh.trace)| / 2, ry, rww, net.m.groups[0].frame)
    ensures |ry| == BITS && |rww| == WORDS && i < |net.slaves|
    ensures ReadsAs(p.cfg.groups[0], i, ry, rww, Next(p, net, RequestArrives(i, now)).slaves[i])
  {
    hide M.GoodConfig, LaidOut, Log, EncodeRequest, GoodRequest, ShowsAll, Open, FramesFit, Matching, NoneReserved, TimerHolds,
         Serves, Free, SlaveStep, Replies, ServedWell, ProperFrame, Begun, Paused, Story, AreaOf;
    var k, q := |Log(0, net.m.sh.trace)| / 2, net.m.groups[0].frame;
    assert net.m.groups[0].state == LinkScan;
    RequestUnderway(p, k, net);
    assert Station(p, k, q, i, net.slaves[i], net.down[i], net.up[i]);
    RequestServed(p.cfg, k, q, EncodeRequest(q), i, p.scfgs[i], net.slaves[i], now);
    Serving.Shown(p.cfg, k, q, i);
    assert ShowsOutputs(p.cfg.groups[0], ry, rww, q, i);
    MatchingStations(p, i);
    AreasFit(p.cfg.groups[0], i);
  }

  lemma MatchingStations(p: Plant, i: nat)
    requires GoodPlant(p) && i < |p.scfgs|
    ensures p.scfgs[i].stations == p.cfg.groups[0].devices[i].stations
  {
  }

  // ---------------------------------------------------------------- from a slave to the master

  /** The answer under way carries the inputs the slave held when it sent it. */
  predicate CarriesInputs(p: Plant, k: nat, i: nat, s: Slave, up: Wire)
    requires GoodPlant(p) && i < |p.scfgs|
  {
    var ip := p.cfg.groups[0].devices[i].slaveId;
    && up.Carries? && ProperFrame(p, k, i, up.bytes)
    && ParseResponse(up.bytes, ip).r.rx == s.normal.rx && ParseResponse(up.bytes, ip).r.rwr == s.normal.rwr
  }

  lemma ReplyCarries(p: Plant, net: Net, i: nat, now: u32)
    requires NetInv(p, net) && i < |net.down| && i < |p.scfgs| && i < |net.slaves| && net.down[i].Carries? && |Log(0, net.m.sh.trace)| >= 3
    ensures var r := Next(p, net, RequestArrives(i, now));
            && Log(0, r.m.sh.trace) == Log(0, net.m.sh.trace) && i < |r.up|
            && CarriesInputs(p, |Log(0, net.m.sh.trace)| / 2, i, net.slaves[i], r.up[i])
  {
    hide M.GoodConfig, LaidOut, Log, EncodeRequest, GoodRequest, ShowsAll, Open, FramesFit, Matching, NoneReserved, TimerHolds,
         Serves, Free, SlaveStep, Replies, Begun, Paused, Story, ViewOf, EncodeResponse, ParseResponse, Response.WellFormed;
    var k, q := |Log(0, net.m.sh.trace)| / 2, net.m.groups[0].frame;
    assert net.m.groups[0].state == LinkScan;
    RequestUnderway(p, k, net);
    assert Station(p, k, q, i, net.slaves[i], net.down[i], net.up[i]);
    RequestServed(p.cfg, k, q, EncodeRequest(q), i, p.scfgs[i], net.slaves[i], now);
    Serving.Shown(p.cfg, k, q, i);
    var s, r := net.slaves[i], SlaveStep(p.scfgs[i], net.slaves[i], Poll(now, Carrying(p.cfg, net.down[i].bytes, i)));
    LastReply(p, k, i, s, r);
    ServedFrame(p, k, i, s, r);
    EncodedResponseIsAccepted(Replies(r.trace)[|Replies(s.trace)|].response, p.cfg.groups[0].devices[i].slaveId);
  }

  /** In an open scan a proper response of a waiting device is taken for it. */
  lemma ProperIsTakenFor(cfg: MasterConfig, k: nat, m: M.Master, answered: seq<bool>, t: Clock, i: nat, r: Response)
    requires M.Ready(cfg, m) && |cfg.groups| > 0 && Open(cfg, k, M.ScopeOf(m, 0), answered)
    requires i < |answered| && !answered[i] && Proper(cfg, k, i, r)
    ensures TakenFor(cfg, m, M.Frame(t, EncodeResponse(r), cfg.groups[0].devices[i].slaveId), 0, i)
    ensures m.groups[0].devices[i].bit == (k > 0)
  {
    hide EncodeResponse, ParseResponse, LaidOut, GroupInv, Log, InScan;
    var ip := cfg.groups[0].devices[i].slaveId;
    EncodedResponseIsAccepted(r, ip);
    FindsDevice(cfg, i);
    var d := m.groups[0].devices[i];
    assert InScan(k, d, answered[i]);
    SeqInScan(cfg, k, M.ScopeOf(m, 0), answered);
    NotDuplicate(k, d, r);
    BitInScan(k, d);
  }

  lemma BitInScan(k: nat, d: D.Device)
    requires InScan(k, d, false)
    ensures d.bit == (k > 0)
  {
  }

  /** RX and RWr of device i in the master's group. */
  predicate HoldsInputs(setting: GroupSetting, i: nat, g: Group, rx: seq<byte>, rwr: seq<byte>)
    requires i < |setting.devices|
  {
    && ValidGroupSetting(setting) && AreaFits(setting, i) && |g.rx| == BITS && |g.rwr| == WORDS
    && AreaOf(setting, g.rx, BIT_AREA, i) == rx && AreaOf(setting, g.rwr, WORD_AREA, i) == rwr
  }

  lemma ResponseDelivers(p: Plant, net: Net, i: nat, t: Clock, s: Slave, r3: Net)
    requires Sane(p, net) && NetInv(p, net) && i < |net.up| && i < |p.scfgs| && |Log(0, net.m.sh.trace)| >= 3
    requires CarriesInputs(p, |Log(0, net.m.sh.trace)| / 2, i, s, net.up[i])
    requires Follows(p, net, ResponseArrives(i, t), r3)
    ensures HoldsInputs(p.cfg.groups[0], i, TheGroup(p, r3), s.normal.rx, s.normal.rwr)
  {
    hide M.GoodConfig, LaidOut, Log, EncodeRequest, EncodeResponse, ParseResponse, Open, FramesFit, Matching, NoneReserved,
         TimerHolds, Known, Begun, Paused, Story, M.Step, M.Allowed, Proper, TakenFor, AreaOf;
    var k, q := |Log(0, net.m.sh.trace)| / 2, net.m.groups[0].frame;
    assert net.m.groups[0].state == LinkScan;
    assert Station(p, k, q, i, net.slaves[i], net.down[i], net.up[i]);
    var ip := p.cfg.groups[0].devices[i].slaveId;
    var r := ParseResponse(net.up[i].bytes, ip).r;
    var input := M.Frame(t, net.up[i].bytes, ip);
    OpenState(p.cfg, k, M.ScopeOf(net.m, 0), Answered(net.down, net.up));
    ProperSendable(p, k, i, r);
    ProperIsTakenFor(p.cfg, k, net.m, Answered(net.down, net.up), t, i, r);
    ResponseStep(p.cfg, k, net.m, Answered(net.down, net.up), t, i, r);
    InputsAreFresh(p.cfg, net.m, input, 0, i);
  }

  /** Every response brings its slave's inputs as they were when it was sent: RX and RWr of the device
      in the master then equal what the slave held when the request reached it. */
  lemma InputsReachMaster(p: Plant, net: Net, n1: Net, b: seq<Happening>, n2: Net, n3: Net, i: nat, now: u32, t: Clock)
    requires Sane(p, net) && NetInv(p, net) && i < |p.scfgs| && |Log(0, net.m.sh.trace)| >= 3
    requires Follows(p, net, RequestArrives(i, now), n1) && Reaches(p, n1, b, n2)
    requires forall j :: 0 <= j < |b| ==> !ArrivalOf(b[j], i)
    requires Follows(p, n2, ResponseArrives(i, t), n3)
    ensures HoldsInputs(p.cfg.groups[0], i, TheGroup(p, n3), net.slaves[i].normal.rx, net.slaves[i].normal.rwr)
  {
    hide NetInv, FramesFit, LaidOut, Log, M.GoodConfig, NoneReserved, TimerHolds, Matching, Expired,
         Next, InTime, Final, ArrivalOf, Holding, Busy, CarriesInputs, HoldsInputs;
    NextKeeps(p, net, RequestArrives(i, now));
    ReplyCarries(p, net, i, now);
    InputsUnderWay(p, |Log(0, net.m.sh.trace)| / 2, i, net.slaves[i], n1);
    RunHolds(p, n1, b, i);
    HoldingParts(n1, n2, i);
    InputsUnderWay(p, |Log(0, net.m.sh.trace)| / 2, i, net.slaves[i], n2);
    ResponseDelivers(p, n2, i, t, net.slaves[i], n3);
  }

  lemma InputsUnderWay(p: Plant, k: nat, i: nat, s: Slave, net: Net)
    requires Sane(p, net) && i < |net.up| && CarriesInputs(p, k, i, s, net.up[i])
    ensures net.up[i].Carries? && Busy(net, i)
  {
    hide ProperFrame, ParseResponse;
  }

  // ---------------------------------------------------------------- over whole runs, as the applications see it

  /** A register and a bit the slave reads are those of its device in the master's output memory. */
  predicate OutputsAgree(p: Plant, i: nat, g: Group, s: Slave, register: nat, bit: nat)
    requires GoodPlant(p) && i < |p.scfgs|
  {
    var start := Start(p.cfg.groups[0].devices, i);
    && 2 * register + 2 <= |s.rww| && WORD_AREA * start + 2 * register + 2 <= |g.rww|
    && FlatRegister(s.rww, 0, register) == FlatRegister(g.rww, WORD_AREA * start, register)
    && bit / 8 < |s.ry| && BIT_AREA * start + bit / 8 < |g.ry|
    && FlatBit(s.ry, 0, bit) == FlatBit(g.ry, BIT_AREA * start, bit)
  }

  /** A register and a bit the master reads for the device are those the slave held. */
  predicate InputsAgree(p: Plant, i: nat, g: Group, s: Slave, register: nat, bit: nat)
    requires GoodPlant(p) && i < |p.scfgs|
  {
    var start := Start(p.cfg.groups[0].devices, i);
    && 2 * register + 2 <= |s.normal.rwr| && WORD_AREA * start + 2 * register + 2 <= |g.rwr|
    && FlatRegister(g.rwr, WORD_AREA * start, register) == FlatRegister(s.normal.rwr, 0, register)
    && bit / 8 < |s.normal.rx| && BIT_AREA * start + bit / 8 < |g.rx|
    && FlatBit(g.rx, BIT_AREA * start, bit) == FlatBit(s.normal.rx, 0, bit)
  }

  /** Over every run of the closed loop, from scan 1 on: when a request goes out in step h and reaches slave
      i after whatever else happens (b), every register and bit the slave reads is the one in the master's
      output memory of that device at step h. */
  lemma OutputsAreDelivered(p: Plant, parameterNo: u16, t0: Clock, now0: u32, a: seq<Happening>, net: Net, h: Happening, n1: Net,
                            b: seq<Happening>, n2: Net, i: nat, now: u32, n3: Net, register: nat, bit: nat)
    requires GoodPlant(p) && Reaches(p, Beginning(p, parameterNo, t0, now0), a, net) && i < |p.scfgs|
    requires Follows(p, net, h, n1) && Sends(net, n1) && |Log(0, n1.m.sh.trace)| >= 3
    requires Reaches(p, n1, b, n2) && forall j :: 0 <= j < |b| ==> !ArrivalOf(b[j], i)
    requires Follows(p, n2, RequestArrives(i, now), n3)
    requires register < 32 * p.scfgs[i].stations && bit < 64 * p.scfgs[i].stations
    ensures OutputsAgree(p, i, TheGroup(p, net), n3.slaves[i], register, bit)
  {
    hide NetInv, FramesFit, LaidOut, Log, M.GoodConfig, NoneReserved, TimerHolds, Expired, Next, InTime, Final, ArrivalOf,
         Sends, Beginning, AreaOf, FlatRegister, FlatBit, May, Follows;
    BeginningKeeps(p, parameterNo, t0, now0);
    FinalKeeps(p, Beginning(p, parameterNo, t0, now0), a);
    OutputsReachSlave(p, net, h, n1, b, n2, n3, i, now);
    MatchingStations(p, i);
    var g, s := TheGroup(p, net), n3.slaves[i];
    RegistersAgree(p.cfg.groups[0], g.rww, s.rww, i, register);
    BitsAgree(p.cfg.groups[0], g.ry, s.ry, i, bit);
  }

  /** And the other way: when a request reaches slave i and its response reaches the master after
      whatever else happens (b), every register and bit the master reads for device i is the one the
      slave held when it answered. */
  lemma InputsAreDelivered(p: Plant, parameterNo: u16, t0: Clock, now0: u32, a: seq<Happening>, net: Net, i: nat, now: u32, n1: Net,
                           b: seq<Happening>, n2: Net, t: Clock, n3: Net, register: nat, bit: nat)
    requires GoodPlant(p) && Reaches(p, Beginning(p, parameterNo, t0, now0), a, net) && i < |p.scfgs|
    requires |Log(0, net.m.sh.trace)| >= 3 && Follows(p, net, RequestArrives(i, now), n1)
    requires Reaches(p, n1, b, n2) && forall j :: 0 <= j < |b| ==> !ArrivalOf(b[j], i)
    requires Follows(p, n2, ResponseArrives(i, t), n3)
    requires register < 32 * p.scfgs[i].stations && bit < 64 * p.scfgs[i].stations
    ensures InputsAgree(p, i, TheGroup(p, n3), net.slaves[i], register, bit)
  {
    hide NetInv, LaidOut, Log, M.GoodConfig, NoneReserved, TimerHolds, Expired, Next, InTime, Final, ArrivalOf,
         Beginning, AreaOf, FlatRegister, FlatBit, Follows;
    BeginningKeeps(p, parameterNo, t0, now0);
    FinalKeeps(p, Beginning(p, parameterNo, t0, now0), a);
    InputsReachMaster(p, net, n1, b, n2, n3, i, now, t);
    MatchingStations(p, i);
    var s, g := net.slaves[i].normal, TheGroup(p, n3);
    assert s.rwr[..|s.rwr|] == s.rwr && s.rx[..|s.rx|] == s.rx;
    RegistersAgree(p.cfg.groups[0], g.rwr, s.rwr, i, register);
    BitsAgree(p.cfg.groups[0], g.rx, s.rx, i, bit);
  }
}
