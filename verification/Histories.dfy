/** The events each device is sent while its group runs. Together with the device runs this
    carries every property of a single device over to the running master. */
module Histories {
  import opened Words
  import opened Config
  import opened Timer
  import opened GroupModel
  import opened MasterModel
  import opened GroupRuns
  import opened DeviceRuns
  import D = DeviceModel

  lemma OneOnDevices(setting: GroupSetting, gi: nat, c: Scope, i: nat, e: D.DeviceEvent)
    requires Sized(setting, c.g) && ValidGroupSetting(setting) && i < |c.g.devices|
    requires D.Patches(c.g.devices[i].state, e) ==> LaidOut(setting, c.g)
    ensures DeviceEvent(setting, gi, c, i, e).g.devices
            == c.g.devices[i := D.After(c.g.devices[i], setting.devices[i], setting.offCount, e)]
  {
    hide D.After, PatchFrame, LaidOut;
  }

  /** A pass over the devices is a change of each device by itself. */
  lemma {:induction false} Delivered(setting: GroupSetting, gi: nat, c: Scope, k: nat, s: Signal)
    requires Sized(setting, c.g) && ValidGroupSetting(setting) && k <= |c.g.devices|
    requires Harmless(s) || (LaidOut(setting, c.g) && KeepsLayout(s))
    ensures var r := Deliver(setting, gi, c, k, s);
            forall j :: 0 <= j < |c.g.devices| ==>
              r.g.devices[j] == if j < k then c.g.devices[j]
                                else D.After(c.g.devices[j], setting.devices[j], setting.offCount, EventFor(s, c.g.devices[j]))
    decreases |c.g.devices| - k
  {
    hide D.After, LaidOut, DeviceEvent;
    if k < |c.g.devices| {
      OneOnDevices(setting, gi, c, k, EventFor(s, c.g.devices[k]));
      Delivered(setting, gi, DeviceEvent(setting, gi, c, k, EventFor(s, c.g.devices[k])), k + 1, s);
    }
  }

  function ScanStartFor(d: D.Device): D.DeviceEvent {
    EventFor(ScanSignal, d)
  }

  /** What a group event sends to a device, in order. */
  function SentByEvent(setting: GroupSetting, s: GroupState, e: GroupEvent, d: D.Device): seq<D.DeviceEvent> {
    match s
    case MasterArbitration =>
      if e == ArbitrationDone then [ScanStartFor(d)] else if e == RequestFromOther then [D.GroupStandby] else []
    case LinkScanComp =>
      if e == LinkScanStart then [ScanStartFor(d)] else if e == DuplicationAlarm then [D.GroupStandby] else []
    case LinkScan =>
      if e == LinkScanComplete then
        if setting.constantScan then [D.GroupAllResponded] else [D.GroupAllResponded, ScanStartFor(d)]
      else if e == LinkScanTimeout then [D.GroupTimeout, ScanStartFor(d)]
      else if e == DuplicationAlarm then [D.GroupStandby] else []
    case _ => []
  }

  function EventOf(a: Act): GroupEvent {
    match a
    case Event(e, _) => e
    case ResponseTimeout(_) => LinkScanTimeout
    case ScanTimeout(_) => LinkScanStart
    case _ => GroupEvent.NoEvent
  }

  function SentByAct(setting: GroupSetting, g: Group, a: Act, i: nat): seq<D.DeviceEvent>
    requires i < |g.devices|
  {
    if a.Fire? then if a.i == i then [a.de] else []
    else SentByEvent(setting, g.state, EventOf(a), g.devices[i])
  }

  lemma KeepsFlags(d: D.Device, setting: DeviceSetting, offCount: u16, e: D.DeviceEvent)
    requires e != D.GroupStartup
    ensures var r := D.After(d, setting, offCount, e); r.enabled == d.enabled && r.forced == d.forced && r.station == d.station
  {
  }

  lemma RunOfOne(d: D.Device, setting: DeviceSetting, offCount: u16, e: D.DeviceEvent)
    ensures DeviceRun(d, setting, offCount, [e]) == D.After(d, setting, offCount, e)
  {
    hide D.After;
    assert [e][..0] == [];
  }

  lemma RunOfTwo(d: D.Device, setting: DeviceSetting, offCount: u16, e: D.DeviceEvent, e2: D.DeviceEvent)
    ensures DeviceRun(d, setting, offCount, [e, e2]) == D.After(D.After(d, setting, offCount, e), setting, offCount, e2)
  {
    hide D.After;
    RunOfOne(d, setting, offCount, e);
    assert [e, e2][..1] == [e];
  }

  lemma FinishOnDevice(setting: GroupSetting, gi: nat, c: Scope, e: D.DeviceEvent, success: bool, i: nat)
    requires LaidOut(setting, c.g) && ValidGroupSetting(setting) && i < |c.g.devices|
    requires e == D.GroupTimeout || e == D.GroupAllResponded
    ensures FinishScan(setting, gi, c, e, success).g.devices[i]
            == D.After(c.g.devices[i], setting.devices[i], setting.offCount, e)
  {
    hide D.After;
    Delivered(setting, gi, c, 0, ToAll(e));
  }

  lemma BeginOnDevice(setting: GroupSetting, gi: nat, c: Scope, t: Clock, i: nat)
    requires LaidOut(setting, c.g) && ValidGroupSetting(setting) && i < |c.g.devices|
    ensures BeginScan(setting, gi, c, t).g.devices[i]
            == D.After(c.g.devices[i], setting.devices[i], setting.offCount, ScanStartFor(c.g.devices[i]))
  {
    hide D.After;
    Delivered(setting, gi, c, 0, ScanSignal);
  }

  lemma StandbyOnDevice(setting: GroupSetting, gi: nat, c: Scope, i: nat)
    requires LaidOut(setting, c.g) && ValidGroupSetting(setting) && i < |c.g.devices|
    ensures FallToListen(setting, gi, c).g.devices[i]
            == D.After(c.g.devices[i], setting.devices[i], setting.offCount, D.GroupStandby)
  {
    hide D.After;
    Delivered(setting, gi, Scope(c.sh.(arbTimer := Stopped), At(c, MasterListen).g), 0, ToAll(D.GroupStandby));
  }

  lemma ScanEndOnDevice(setting: GroupSetting, gi: nat, c: Scope, t: Clock, i: nat)
    requires LaidOut(setting, c.g) && ValidGroupSetting(setting) && i < |c.g.devices|
    ensures var d, ds := c.g.devices[i], setting.devices[i];
            && CompleteScan(setting, gi, c, t).g.devices[i]
               == DeviceRun(d, ds, setting.offCount, SentByEvent(setting, LinkScan, LinkScanComplete, d))
            && TimeOutScan(setting, gi, c, t).g.devices[i]
               == DeviceRun(d, ds, setting.offCount, SentByEvent(setting, LinkScan, LinkScanTimeout, d))
  {
    hide D.After, FinishScan, BeginScan, DeviceRun;
    var d, ds, off := c.g.devices[i], setting.devices[i], setting.offCount;
    var c1 := At(Scope(c.sh, c.g.(responseTimer := Stopped)), LinkScanComp);
    FinishOnDevice(setting, gi, c1, D.GroupAllResponded, true, i);
    KeepsFlags(d, ds, off, D.GroupAllResponded);
    RunOfOne(d, ds, off, D.GroupAllResponded);
    RunOfTwo(d, ds, off, D.GroupAllResponded, ScanStartFor(d));
    var c2 := FinishScan(setting, gi, c1, D.GroupAllResponded, true);
    BeginOnDevice(setting, gi, At(c2, LinkScan), t, i);
    var k1 := At(c, LinkScanComp);
    FinishOnDevice(setting, gi, k1, D.GroupTimeout, false, i);
    KeepsFlags(d, ds, off, D.GroupTimeout);
    RunOfTwo(d, ds, off, D.GroupTimeout, ScanStartFor(d));
    BeginOnDevice(setting, gi, At(FinishScan(setting, gi, k1, D.GroupTimeout, false), LinkScan), t, i);
  }

  lemma ArbitrationOnDevice(cfg: MasterConfig, setting: GroupSetting, gi: nat, c: Scope, t: Clock, e: GroupEvent, i: nat)
    requires LaidOut(setting, c.g) && ValidGroupSetting(setting) && i < |c.g.devices|
    requires e != Startup && e != NewConfig && e != ParameterChange
    requires c.g.state == MasterArbitration
    ensures GroupEventStep(cfg, setting, gi, c, t, e).g.devices[i]
            == DeviceRun(c.g.devices[i], setting.devices[i], setting.offCount, SentByEvent(setting, c.g.state, e, c.g.devices[i]))
  {
    hide D.After, EnterListen, BeginScan, CompleteScan, TimeOutScan, FallToListen;
    var d, ds, off := c.g.devices[i], setting.devices[i], setting.offCount;
    RunOfOne(d, ds, off, ScanStartFor(d));
    RunOfOne(d, ds, off, D.GroupStandby);
    StandbyOnDevice(setting, gi, Scope(Note(c.sh, ErrorReport(ArbitrationLost, c.sh.conflictIp)), c.g), i);
    BeginOnDevice(setting, gi, At(Scope(SetMasterState(c.sh, MasterState.Running), c.g), LinkScan), t, i);
  }

  lemma PauseOnDevice(cfg: MasterConfig, setting: GroupSetting, gi: nat, c: Scope, t: Clock, e: GroupEvent, i: nat)
    requires LaidOut(setting, c.g) && ValidGroupSetting(setting) && i < |c.g.devices|
    requires e != Startup && e != NewConfig && e != ParameterChange
    requires c.g.state == LinkScanComp
    ensures GroupEventStep(cfg, setting, gi, c, t, e).g.devices[i]
            == DeviceRun(c.g.devices[i], setting.devices[i], setting.offCount, SentByEvent(setting, c.g.state, e, c.g.devices[i]))
  {
    hide D.After, EnterListen, BeginScan, CompleteScan, TimeOutScan, FallToListen;
    var d, ds, off := c.g.devices[i], setting.devices[i], setting.offCount;
    RunOfOne(d, ds, off, ScanStartFor(d));
    RunOfOne(d, ds, off, D.GroupStandby);
    StandbyOnDevice(setting, gi, c, i);
    BeginOnDevice(setting, gi, At(c, LinkScan), t, i);
  }

  lemma ScanOnDevice(cfg: MasterConfig, setting: GroupSetting, gi: nat, c: Scope, t: Clock, e: GroupEvent, i: nat)
    requires LaidOut(setting, c.g) && ValidGroupSetting(setting) && i < |c.g.devices|
    requires e != Startup && e != NewConfig && e != ParameterChange
    requires c.g.state == LinkScan
    ensures GroupEventStep(cfg, setting, gi, c, t, e).g.devices[i]
            == DeviceRun(c.g.devices[i], setting.devices[i], setting.offCount, SentByEvent(setting, c.g.state, e, c.g.devices[i]))
  {
    hide D.After, EnterListen, BeginScan, CompleteScan, TimeOutScan, FallToListen;
    var d, ds, off := c.g.devices[i], setting.devices[i], setting.offCount;
    RunOfOne(d, ds, off, D.GroupStandby);
    StandbyOnDevice(setting, gi, c, i);
    ScanEndOnDevice(setting, gi, c, t, i);
  }

  /** A group event, on one device. */
  lemma EventOnDevice(cfg: MasterConfig, setting: GroupSetting, gi: nat, c: Scope, t: Clock, e: GroupEvent, i: nat)
    requires LaidOut(setting, c.g) && ValidGroupSetting(setting) && i < |c.g.devices|
    requires e != Startup && e != NewConfig && e != ParameterChange
    ensures GroupEventStep(cfg, setting, gi, c, t, e).g.devices[i]
            == DeviceRun(c.g.devices[i], setting.devices[i], setting.offCount, SentByEvent(setting, c.g.state, e, c.g.devices[i]))
  {
    hide D.After, GroupEventStep, DeviceRun;
    if c.g.state == MasterArbitration {
      ArbitrationOnDevice(cfg, setting, gi, c, t, e, i);
    } else if c.g.state == LinkScanComp {
      PauseOnDevice(cfg, setting, gi, c, t, e, i);
    } else if c.g.state == LinkScan {
      ScanOnDevice(cfg, setting, gi, c, t, e, i);
    } else {
      EmptyRun(c.g.devices[i], setting.devices[i], setting.offCount);
      DownIsStill(cfg, setting, gi, c, t, e);
    }
  }

  /** Before arbitration these events do nothing. */
  lemma DownIsStill(cfg: MasterConfig, setting: GroupSetting, gi: nat, c: Scope, t: Clock, e: GroupEvent)
    requires LaidOut(setting, c.g) && ValidGroupSetting(setting) && !Configured(c.g.state)
    requires e != Startup && e != NewConfig && e != ParameterChange
    ensures GroupEventStep(cfg, setting, gi, c, t, e) == c
  {
    hide EnterListen, BeginScan, CompleteScan, TimeOutScan, FallToListen;
  }

  lemma ActOnDevice(cfg: MasterConfig, gi: nat, input: Input, c: Scope, a: Act, i: nat)
    requires GoodConfig(cfg) && gi < |cfg.groups| && LaidOut(cfg.groups[gi], c.g) && i < |c.g.devices|
    requires Possible(cfg, gi, input, c, a)
    ensures var d := DeviceRun(c.g.devices[i], cfg.groups[gi].devices[i], cfg.groups[gi].offCount,
                               SentByAct(cfg.groups[gi], c.g, a, i));
            var r := Do(cfg, gi, input, c, a).g.devices[i];
            SameCore(d, r) && (input.ClearStatistics? || SameTallies(d, r))
  {
    hide D.After, GroupEventStep, PatchFrame, StoreData, Accepts;
    var setting := cfg.groups[gi];
    var d, ds := c.g.devices[i], setting.devices[i];
    GoodSetting(cfg, gi);
    TimersLaidOut(setting, c.g);
    match a
    case Event(e, t) => EventOnDevice(cfg, setting, gi, c, t, e, i);
    case ResponseTimeout(t) =>
      EventOnDevice(cfg, setting, gi, c.(g := c.g.(responseTimer := Stopped)), t, LinkScanTimeout, i);
    case ScanTimeout(t) =>
      EventOnDevice(cfg, setting, gi, c.(g := c.g.(scanTimer := Stopped)), t, LinkScanStart, i);
    case Fire(k, e) => RunOfOne(d, ds, setting.offCount, e);
    case _ =>
  }

  /** An event does the same to records that agree on the protocol state. */
  predicate RespectsCore(d: D.Device, r: D.Device, setting: DeviceSetting, offCount: u16, e: D.DeviceEvent) {
    && SameCore(D.After(d, setting, offCount, e), D.After(r, setting, offCount, e))
    && (SameTallies(d, r) ==> SameTallies(D.After(d, setting, offCount, e), D.After(r, setting, offCount, e)))
  }

  lemma ListenRespectsCore(d: D.Device, r: D.Device, setting: DeviceSetting, offCount: u16, e: D.DeviceEvent)
    requires SameCore(d, r) && d.state == D.Listen
    ensures RespectsCore(d, r, setting, offCount, e)
  {
    hide Inc32;
  }

  lemma WaitRespectsCore(d: D.Device, r: D.Device, setting: DeviceSetting, offCount: u16, e: D.DeviceEvent)
    requires SameCore(d, r) && (d.state == D.WaitTd || d.state == D.CyclicSuspend)
    ensures RespectsCore(d, r, setting, offCount, e)
  {
    hide Inc32;
  }

  lemma SentRespectsCore(d: D.Device, r: D.Device, setting: DeviceSetting, offCount: u16, e: D.DeviceEvent)
    requires SameCore(d, r) && d.state == D.CyclicSent
    ensures RespectsCore(d, r, setting, offCount, e)
  {
    hide Inc32;
  }

  lemma SendingRespectsCore(d: D.Device, r: D.Device, setting: DeviceSetting, offCount: u16, e: D.DeviceEvent)
    requires SameCore(d, r) && d.state == D.CyclicSending
    ensures RespectsCore(d, r, setting, offCount, e)
  {
    hide Inc32;
  }

  lemma AfterRespectsCore(d: D.Device, r: D.Device, setting: DeviceSetting, offCount: u16, e: D.DeviceEvent)
    requires SameCore(d, r) && d.state != D.MasterDown
    ensures RespectsCore(d, r, setting, offCount, e)
  {
    hide RespectsCore, SameCore;
    match d.state
    case Listen => ListenRespectsCore(d, r, setting, offCount, e);
    case WaitTd => WaitRespectsCore(d, r, setting, offCount, e);
    case CyclicSuspend => WaitRespectsCore(d, r, setting, offCount, e);
    case CyclicSent => SentRespectsCore(d, r, setting, offCount, e);
    case CyclicSending => SendingRespectsCore(d, r, setting, offCount, e);
  }

  lemma {:induction false} RunRespectsCore(d: D.Device, r: D.Device, setting: DeviceSetting, offCount: u16, events: seq<D.DeviceEvent>)
    requires SameCore(d, r) && d.state != D.MasterDown
    ensures SameCore(DeviceRun(d, setting, offCount, events), DeviceRun(r, setting, offCount, events))
    ensures SameTallies(d, r) ==> SameTallies(DeviceRun(d, setting, offCount, events), DeviceRun(r, setting, offCount, events))
    ensures DeviceRun(d, setting, offCount, events).state != D.MasterDown
  {
    hide D.After, SameCore, SameTallies;
    if events != [] {
      var rest := events[..|events| - 1];
      RunRespectsCore(d, r, setting, offCount, rest);
      var d1, r1 := DeviceRun(d, setting, offCount, rest), DeviceRun(r, setting, offCount, rest);
      AfterRespectsCore(d1, r1, setting, offCount, events[|events| - 1]);
      StaysUp(d1, setting, offCount, events[|events| - 1]);
    }
  }

  lemma StaysUp(d: D.Device, setting: DeviceSetting, offCount: u16, e: D.DeviceEvent)
    requires d.state != D.MasterDown
    ensures D.After(d, setting, offCount, e).state != D.MasterDown
  {
  }

  /** r is what the events make of d, up to what responses and the application write. */
  predicate Behaves(d: D.Device, setting: DeviceSetting, offCount: u16, events: seq<D.DeviceEvent>, r: D.Device, tallies: bool) {
    var q := DeviceRun(d, setting, offCount, events);
    SameCore(q, r) && (tallies ==> SameTallies(q, r))
  }

  lemma BehavesOn(d: D.Device, setting: DeviceSetting, offCount: u16, a: seq<D.DeviceEvent>, m: D.Device,
                  b: seq<D.DeviceEvent>, r: D.Device, tallies: bool)
    requires d.state != D.MasterDown
    requires Behaves(d, setting, offCount, a, m, tallies) && Behaves(m, setting, offCount, b, r, tallies)
    ensures Behaves(d, setting, offCount, a + b, r, tallies)
  {
    hide DeviceRun;
    RunOfConcat(d, setting, offCount, a, b);
    RunRespectsCore(d, d, setting, offCount, a);
    RunRespectsCore(DeviceRun(d, setting, offCount, a), m, setting, offCount, b);
  }

  lemma EmptyRun(d: D.Device, setting: DeviceSetting, offCount: u16)
    ensures DeviceRun(d, setting, offCount, []) == d
  {
  }
}
