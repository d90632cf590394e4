/** What clm_iefb_init leaves behind: the invariant holds, and every device is fresh. */
module Startup {
  import opened Words
  import opened Config
  import opened Layout
  import opened Timer
  import opened Frames
  import opened RequestFrame
  import opened GroupModel
  import opened MasterModel
  import opened DeviceRuns
  import opened Histories
  import opened FrameViews
  import opened Scans
  import opened ScanInvariant
  import D = DeviceModel

  /** A device as initialisation leaves it. */
  predicate Untouched(setting: DeviceSetting, d: D.Device) {
    && Fresh(d) && d.enabled == !setting.reserved && !d.forced
    && d.counters == D.CLEARED_COUNTERS && d.latest == D.NO_FRAME
  }

  /** Only reports of the master state so far. */
  predicate NoTraffic(trace: seq<Output>) {
    forall k :: 0 <= k < |trace| ==> trace[k].MasterStateCb?
  }

  predicate AwaitsConfig(setting: GroupSetting, g: Group) {
    && Sized(setting, g)
    && g.responseTimer == Stopped && g.scanTimer == Stopped
    && (forall i :: 0 <= i < |g.devices| ==> Untouched(setting.devices[i], g.devices[i]))
  }

  lemma {:induction false} LogOfNoTraffic(gi: nat, trace: seq<Output>)
    requires NoTraffic(trace)
    ensures Log(gi, trace) == []
  {
    if trace != [] {
      LogOfNoTraffic(gi, trace[..|trace| - 1]);
    }
  }

  // ---------------------------------------------------------------- startup of a group

  lemma InitialisedIsUntouched(setting: DeviceSetting, offCount: u16, e: D.DeviceEvent)
    requires e == D.GroupStandby
    ensures var d := D.After(D.After(D.ZERO_DEVICE, setting, offCount, D.GroupStartup), setting, offCount, e);
            Untouched(setting, d)
  {
  }

  lemma StartAwaits(cfg: MasterConfig, sh: Shared, gi: nat, t: Clock)
    requires ValidConfig(cfg) && gi < |cfg.groups| && NoTraffic(sh.trace)
    ensures var c := StartGroup(cfg, sh, gi, t);
            && AwaitsConfig(cfg.groups[gi], c.g) && NoTraffic(c.sh.trace)
            && c.sh == sh.(trace := c.sh.trace, masterState := Standby, arbTimer := Stopped)
  {
    hide Deliver, D.After, Untouched;
    GoodSetting(cfg, gi);
    var setting := cfg.groups[gi];
    var c0 := At(Scope(sh, ZeroGroup(setting)), MasterListen);
    var g1 := c0.g.(responseTimer := Stopped, scanTimer := Stopped, total := 0, seqNo := 0, scanStart := 0, word := 0,
                    devices := seq(|c0.g.devices|, i requires 0 <= i < |c0.g.devices| => c0.g.devices[i].(state := D.MasterDown)));
    QuietPass(setting, gi, Scope(sh, g1), 0, D.GroupStartup);
    Delivered(setting, gi, Scope(sh, g1), 0, ToAll(D.GroupStartup));
    var c1 := InitGroupData(setting, gi, c0);
    var c2 := Scope(c1.sh.(arbTimer := Stopped), c1.g);
    QuietPass(setting, gi, c2, 0, D.GroupStandby);
    Delivered(setting, gi, c2, 0, ToAll(D.GroupStandby));
    var r := EnterListen(setting, gi, c1);
    forall i | 0 <= i < |r.g.devices| ensures Untouched(setting.devices[i], r.g.devices[i]) {
      assert g1.devices[i] == D.ZERO_DEVICE;
      InitialisedIsUntouched(setting.devices[i], setting.offCount, D.GroupStandby);
    }
  }

  lemma {:induction false} AllAwait(cfg: MasterConfig, sh: Shared, k: nat, t: Clock)
    requires ValidConfig(cfg) && k <= |cfg.groups| && NoTraffic(sh.trace)
    ensures var m := StartGroups(cfg, sh, k, t);
            && NoTraffic(m.sh.trace) && m.sh.unitInfo == sh.unitInfo && m.sh.parameterNo == sh.parameterNo
            && (k > 0 ==> m.sh.arbTimer == Stopped)
            && (forall gi :: 0 <= gi < k ==> AwaitsConfig(cfg.groups[gi], m.groups[gi]))
  {
    hide AwaitsConfig, StartGroup;
    if k > 0 {
      AllAwait(cfg, sh, k - 1, t);
      StartAwaits(cfg, StartGroups(cfg, sh, k - 1, t).sh, k - 1, t);
    }
  }

  // ---------------------------------------------------------------- the configuration is taken over

  lemma LayoutIdsAreFillers(setting: GroupSetting, frame: Request, shown: seq<bool>)
    requires ValidGroupSetting(setting) && |shown| == |setting.devices|
    requires frame.ids == SlaveIds(setting.devices, shown) && |frame.ids| == Total(setting.devices)
    ensures Fillers(setting, 0, frame)
  {
    forall s: nat | s < MAX_STATIONS_PER_GROUP && !IsStart(setting.devices, s)
      ensures !Bit(0, s) && (s < |frame.ids| ==> frame.ids[s] == MULTISTATION)
    {
      BitOfZero(s);
      if s < |frame.ids| {
        var i := OwnerOf(setting.devices, |setting.devices|, s);
        assert s != Start(setting.devices, i);
        SlaveIdAt(setting.devices, shown, i, s);
      }
    }
  }

  lemma BlankView(setting: GroupSetting, frame: Request, shown: seq<bool>, i: nat)
    requires Holds(setting, frame) && |shown| == |setting.devices| && i < |setting.devices|
    requires frame.ids == SlaveIds(setting.devices, shown)
    requires forall k :: 0 <= k < |frame.rww| ==> frame.rww[k] == 0
    requires forall k :: 0 <= k < |frame.ry| ==> frame.ry[k] == 0
    ensures PlainView(setting, ViewOf(setting, 0, frame, i), i)
  {
    Fits(setting, i);
    OccupiedMonotone(setting.devices, i, i + 1);
    SlaveIdAt(setting.devices, shown, i, Start(setting.devices, i));
    BitOfZero(Start(setting.devices, i));
  }

  lemma ReflectedFits(cfg: MasterConfig, gi: nat, parameterNo: u16, g: Group)
    requires GoodConfig(cfg) && gi < |cfg.groups| && ValidGroupSetting(cfg.groups[gi]) && AwaitsConfig(cfg.groups[gi], g)
    ensures var r := Reflected(cfg, cfg.groups[gi], gi, parameterNo, g);
            && FrameFits(cfg, gi, r) && r.seqNo == 0 && r.word == 0
            && (forall i :: 0 <= i < |r.devices| ==> Untouched(cfg.groups[gi].devices[i], r.devices[i]))
            && r == g.(total := r.total, seqNo := r.seqNo, word := r.word, devices := r.devices, frame := r.frame)
  {
    hide ViewOf, Fillers, PlainView, BlankRequest;
    var setting := cfg.groups[gi];
    var all := seq(|setting.devices|, i => true);
    var r := Reflected(cfg, setting, gi, parameterNo, g);
    BlankShape(cfg, gi, parameterNo);
    LayoutIdsAreFillers(setting, r.frame, all);
    forall i | 0 <= i < |r.devices| ensures PlainView(setting, ViewOf(setting, 0, r.frame, i), i) {
      BlankView(setting, r.frame, all, i);
    }
  }

  lemma BlankShape(cfg: MasterConfig, gi: nat, parameterNo: u16)
    requires GoodConfig(cfg) && gi < |cfg.groups| && ValidGroupSetting(cfg.groups[gi])
    ensures var setting := cfg.groups[gi];
            var q := BlankRequest(cfg, setting, (gi + 1) % 0x100, parameterNo, Total(setting.devices));
            && HeaderFits(cfg, gi, q)
            && |q.rww| == WORD_AREA * Total(setting.devices) && |q.ry| == BIT_AREA * Total(setting.devices)
            && (forall k :: 0 <= k < |q.rww| ==> q.rww[k] == 0)
            && (forall k :: 0 <= k < |q.ry| ==> q.ry[k] == 0)
  {
  }

  /** The timer of the arbitration phase, started by the first group only. */
  function ArbitrationTimer(cfg: MasterConfig, t: Clock): TimerState {
    TimerState.Running(cfg.arbitrationTime * 1000, t.now)
  }

  lemma ConfigureOne(cfg: MasterConfig, gi: nat, c: Scope, t: Clock)
    requires GoodConfig(cfg) && Started(cfg, gi, c.g) && AwaitsConfig(cfg.groups[gi], c.g)
    requires NoTraffic(c.sh.trace) && UnitInfoFits(cfg.protocolVer, c.sh.unitInfo)
    ensures var r := ConfigureGroup(cfg, gi, c, t);
            && Begun(cfg, gi, r) && NoTraffic(r.sh.trace)
            && r.sh == c.sh.(trace := r.sh.trace, masterState := Arbitration,
                             arbTimer := if c.sh.arbTimer.Running? then c.sh.arbTimer else ArbitrationTimer(cfg, t))
  {
    hide Reflected, FrameFits, Log;
    GoodSetting(cfg, gi);
    var r := ConfigureGroup(cfg, gi, c, t);
    ReflectedFits(cfg, gi, c.sh.parameterNo, At(c, MasterArbitration).g);
    LogOfNoTraffic(gi, r.sh.trace);
    OffCountPositive(cfg, gi);
  }

  /** A group right after initialisation. */
  predicate Begun(cfg: MasterConfig, gi: nat, c: Scope)
    requires GoodConfig(cfg) && gi < |cfg.groups|
  {
    && GroupInv(cfg, gi, c) && c.g.state == MasterArbitration && c.g.word == 0
    && c.g.responseTimer == Stopped && c.g.scanTimer == Stopped
    && |c.g.devices| == |cfg.groups[gi].devices|
    && (forall i :: 0 <= i < |c.g.devices| ==> Untouched(cfg.groups[gi].devices[i], c.g.devices[i]))
  }

  lemma StillBegun(cfg: MasterConfig, gi: nat, c: Scope, sh: Shared)
    requires GoodConfig(cfg) && gi < |cfg.groups| && Begun(cfg, gi, c)
    requires NoTraffic(c.sh.trace) && NoTraffic(sh.trace) && sh.unitInfo == c.sh.unitInfo
    ensures Begun(cfg, gi, c.(sh := sh))
  {
    hide GroupInv;
    LogOfNoTraffic(gi, c.sh.trace);
    LogOfNoTraffic(gi, sh.trace);
    InvUnitInfo(cfg, gi, c);
    SharedKeeps(cfg, gi, c, sh);
  }

  lemma {:induction false} AllBegun(cfg: MasterConfig, m: Master, k: nat, t: Clock)
    requires GoodConfig(cfg) && |m.groups| == |cfg.groups| && AllStarted(cfg, m.groups) && k <= |m.groups|
    requires NoTraffic(m.sh.trace) && UnitInfoFits(cfg.protocolVer, m.sh.unitInfo) && m.sh.arbTimer == Stopped
    requires forall gi :: 0 <= gi < |m.groups| ==> AwaitsConfig(cfg.groups[gi], m.groups[gi])
    ensures var r := ConfigureGroups(cfg, m, k, t);
            && NoTraffic(r.sh.trace) && r.sh.unitInfo == m.sh.unitInfo
            && (k > 0 ==> r.sh.arbTimer == ArbitrationTimer(cfg, t) && r.sh.masterState == Arbitration)
            && (k == 0 ==> r.sh == m.sh)
            && (forall gi :: 0 <= gi < k ==> Begun(cfg, gi, Scope(r.sh, r.groups[gi])))
  {
    hide AwaitsConfig, Begun, ConfigureGroup, LaidOut, Started;
    if k > 0 {
      var r := ConfigureGroups(cfg, m, k - 1, t);
      AllBegun(cfg, m, k - 1, t);
      ConfigureOne(cfg, k - 1, ScopeOf(r, k - 1), t);
      var c := ConfigureGroup(cfg, k - 1, ScopeOf(r, k - 1), t);
      forall gi | 0 <= gi < k - 1 ensures Begun(cfg, gi, Scope(c.sh, r.groups[gi])) {
        StillBegun(cfg, gi, Scope(r.sh, r.groups[gi]), c.sh);
      }
    }
  }

  /** Initialisation establishes the invariant: every group is in arbitration with nothing sent,
      and the arbitration timer has just started. */
  lemma InitKeeps(cfg: MasterConfig, parameterNo: u16, t: Clock)
    requires GoodConfig(cfg)
    ensures var m := Init(cfg, parameterNo, t);
            && MasterInv(cfg, m)
            && (forall gi :: 0 <= gi < |m.groups| ==> Begun(cfg, gi, ScopeOf(m, gi)))
            && NoTraffic(m.sh.trace) && m.sh.masterState == Arbitration && m.sh.arbTimer == ArbitrationTimer(cfg, t)
  {
    hide AwaitsConfig, Begun, GroupInv, LaidOut, Started, StartGroups, ConfigureGroups;
    var sh := Shared(Down, Stopped, parameterNo, UNIT_INFO_RUNNING, IPADDR_INVALID, []);
    AllAwait(cfg, sh, |cfg.groups|, t);
    var m0 := StartGroups(cfg, sh, |cfg.groups|, t);
    var m1 := m0.(sh := m0.sh.(parameterNo := (m0.sh.parameterNo + 1) % 0x1_0000));
    AllBegun(cfg, m1, |cfg.groups|, t);
    var m := Init(cfg, parameterNo, t);
    forall gi | 0 <= gi < |m.groups| ensures GroupInv(cfg, gi, ScopeOf(m, gi)) {
      BegunInv(cfg, gi, ScopeOf(m, gi));
    }
  }

  lemma BegunInv(cfg: MasterConfig, gi: nat, c: Scope)
    requires GoodConfig(cfg) && gi < |cfg.groups| && Begun(cfg, gi, c)
    ensures GroupInv(cfg, gi, c)
  {
  }

  lemma BegunDevice(cfg: MasterConfig, gi: nat, c: Scope, i: nat)
    requires GoodConfig(cfg) && gi < |cfg.groups| && Begun(cfg, gi, c) && i < |cfg.groups[gi].devices|
    ensures i < |c.g.devices| && Untouched(cfg.groups[gi].devices[i], c.g.devices[i])
  {
    hide GroupInv;
  }
}
