/** What the master reports, and what it keeps of each device's responses: group and device events leave
    both alone, and the application's settings with them. */
module MasterReports {
  import opened Words
  import opened Config
  import opened Timer
  import opened Statistics
  import opened Frames
  import opened GroupModel
  import opened MasterModel
  import opened GroupRuns
  import opened Scans
  import D = DeviceModel

  // ---------------------------------------------------------------- records and reports

  /** What responses and the application write of a device. */
  datatype Record = Record(latest: D.FrameValues, incoming: u32, alarms: u32, invalid: u32, time: TimeStatistics,
                           enabled: bool, forced: bool)

  function RecordOf(d: D.Device): Record {
    Record(d.latest, d.counters.incoming, d.counters.alarms, d.counters.invalid, d.counters.time, d.enabled, d.forced)
  }

  /** Error reports, and callbacks about the contents of responses. */
  predicate IsReport(o: Output) {
    o.ErrorReport? || o.AlarmCb? || o.SlaveInfoCb?
  }

  const NOTHING: seq<Output> := []

  function Reports(trace: seq<Output>): seq<Output> {
    if trace == [] then []
    else Reports(trace[..|trace| - 1]) + if IsReport(trace[|trace| - 1]) then [trace[|trace| - 1]] else []
  }

  lemma ReportsOfMore(trace: seq<Output>, o: Output)
    ensures Reports(trace + [o]) == Reports(trace) + if IsReport(o) then [o] else []
  {
    assert (trace + [o])[..|trace|] == trace;
  }

  /** The state the application was told last. */
  function LastState(trace: seq<Output>): MasterState {
    if trace == [] then Down
    else if trace[|trace| - 1].MasterStateCb? then trace[|trace| - 1].state
    else LastState(trace[..|trace| - 1])
  }

  lemma LastStateOfMore(trace: seq<Output>, o: Output)
    ensures LastState(trace + [o]) == if o.MasterStateCb? then o.state else LastState(trace)
  {
    assert (trace + [o])[..|trace|] == trace;
  }

  /** The application knows the state of the master. */
  predicate Told(sh: Shared) {
    LastState(sh.trace) == sh.masterState
  }

  /** Shared fields after these reports, and nothing else that concerns the application's settings. */
  predicate Adds(sh: Shared, r: Shared, reports: seq<Output>) {
    && Reports(r.trace) == Reports(sh.trace) + reports
    && r.unitInfo == sh.unitInfo && r.parameterNo == sh.parameterNo && r.conflictIp == sh.conflictIp
    && (Told(sh) ==> Told(r))
  }

  lemma AddsNone(sh: Shared, r: Shared)
    requires r == sh.(arbTimer := r.arbTimer)
    ensures Adds(sh, r, [])
  {
    assert Reports(sh.trace) + [] == Reports(sh.trace);
  }

  lemma AddsNote(sh: Shared, o: Output)
    requires !o.MasterStateCb?
    ensures Adds(sh, Note(sh, o), if IsReport(o) then [o] else [])
  {
    ReportsOfMore(sh.trace, o);
    LastStateOfMore(sh.trace, o);
  }

  lemma AddsState(sh: Shared, s: MasterState)
    ensures Adds(sh, SetMasterState(sh, s), [])
  {
    if s == sh.masterState {
      AddsNone(sh, sh);
    } else {
      ReportsOfMore(sh.trace, MasterStateCb(s));
      LastStateOfMore(sh.trace, MasterStateCb(s));
    }
  }

  lemma AddsOn(a: Shared, b: Shared, c: Shared, x: seq<Output>, y: seq<Output>)
    requires Adds(a, b, x) && Adds(b, c, y)
    ensures Adds(a, c, x + y)
  {
    hide Reports, LastState;
    assert (Reports(a.trace) + x) + y == Reports(a.trace) + (x + y);
  }

  // ---------------------------------------------------------------- a group

  /** The records of all devices and the output memory are the same. */
  predicate SameRecords(g: Group, r: Group) {
    && |r.devices| == |g.devices| && r.ry == g.ry && r.rww == g.rww
    && (forall i :: 0 <= i < |g.devices| ==> RecordOf(r.devices[i]) == RecordOf(g.devices[i]))
  }

  /** Only these reports are new, and every record is the same. */
  predicate Spares(c: Scope, r: Scope, reports: seq<Output>) {
    SameRecords(c.g, r.g) && Adds(c.sh, r.sh, reports)
  }

  lemma SparesOn(a: Scope, b: Scope, c: Scope, x: seq<Output>, y: seq<Output>)
    requires Spares(a, b, x) && Spares(b, c, y)
    ensures Spares(a, c, x + y)
  {
    hide Adds, RecordOf;
    AddsOn(a.sh, b.sh, c.sh, x, y);
  }

  lemma KeepsRecord(d: D.Device, setting: DeviceSetting, offCount: u16, e: D.DeviceEvent)
    requires e != D.GroupStartup
    ensures RecordOf(D.After(d, setting, offCount, e)) == RecordOf(d)
  {
  }

  lemma DeviceEventSpares(setting: GroupSetting, gi: nat, c: Scope, i: nat, e: D.DeviceEvent)
    requires LaidOut(setting, c.g) && ValidGroupSetting(setting) && i < |c.g.devices| && e != D.GroupStartup
    ensures Spares(c, DeviceEvent(setting, gi, c, i, e), [])
  {
    hide D.After, LaidOut, PatchFrame, Adds, RecordOf, D.Patches;
    LaidOutShape(setting, c.g);
    KeepsRecord(c.g.devices[i], setting.devices[i], setting.offCount, e);
    AddsNone(c.sh, c.sh);
    AddsNote(c.sh, ConnectCb(gi, i));
    AddsNote(c.sh, DisconnectCb(gi, i));
  }

  lemma {:induction false} DeliverSpares(setting: GroupSetting, gi: nat, c: Scope, k: nat, s: Signal)
    requires LaidOut(setting, c.g) && ValidGroupSetting(setting) && k <= |c.g.devices| && KeepsLayout(s)
    ensures Spares(c, Deliver(setting, gi, c, k, s), [])
    decreases |c.g.devices| - k
  {
    hide DeviceEvent, LaidOut, Adds, RecordOf;
    LaidOutShape(setting, c.g);
    if k == |c.g.devices| {
      AddsNone(c.sh, c.sh);
    } else {
      var e := EventFor(s, c.g.devices[k]);
      var c1 := DeviceEvent(setting, gi, c, k, e);
      DeviceEventSpares(setting, gi, c, k, e);
      DeliverSpares(setting, gi, c1, k + 1, s);
      SparesOn(c, c1, Deliver(setting, gi, c1, k + 1, s), [], []);
      assert NOTHING + NOTHING == NOTHING;
    }
  }

  /** The same group but for timers, state, frame and numbers. */
  lemma SparesShared(c: Scope, r: Scope, reports: seq<Output>)
    requires r.g.devices == c.g.devices && r.g.ry == c.g.ry && r.g.rww == c.g.rww && Adds(c.sh, r.sh, reports)
    ensures Spares(c, r, reports)
  {
  }

  lemma BeginSpares(setting: GroupSetting, gi: nat, c: Scope, t: Clock)
    requires LaidOut(setting, c.g) && ValidGroupSetting(setting)
    ensures Spares(c, BeginScan(setting, gi, c, t), [])
  {
    hide LaidOut, Adds, Deliver, EncodeRequest, Spares;
    LaidOutShape(setting, c.g);
    var c1, r := Deliver(setting, gi, c, 0, ScanSignal), BeginScan(setting, gi, c, t);
    DeliverSpares(setting, gi, c, 0, ScanSignal);
    AddsNote(c1.sh, r.sh.trace[|r.sh.trace| - 1]);
    SparesShared(c1, r, []);
    SparesOn(c, c1, r, [], []);
    assert NOTHING + NOTHING == NOTHING;
  }

  lemma FinishSpares(setting: GroupSetting, gi: nat, c: Scope, e: D.DeviceEvent, success: bool)
    requires LaidOut(setting, c.g) && ValidGroupSetting(setting) && (e == D.GroupTimeout || e == D.GroupAllResponded)
    ensures Spares(c, FinishScan(setting, gi, c, e, success), [])
  {
    hide LaidOut, Adds, Deliver, Spares;
    LaidOutShape(setting, c.g);
    var c1, r := Deliver(setting, gi, c, 0, ToAll(e)), FinishScan(setting, gi, c, e, success);
    var sh := Note(c1.sh, LinkScanCb(gi, success));
    DeliverSpares(setting, gi, c, 0, ToAll(e));
    AddsNote(c1.sh, LinkScanCb(gi, success));
    AddsState(sh, MasterState.Running);
    AddsOn(c1.sh, sh, r.sh, [], []);
    assert NOTHING + NOTHING == NOTHING;
    SparesShared(c1, r, []);
    SparesOn(c, c1, r, [], []);
  }

  lemma ListenSpares(setting: GroupSetting, gi: nat, c: Scope)
    requires LaidOut(setting, c.g) && ValidGroupSetting(setting)
    ensures Spares(c, FallToListen(setting, gi, c), [])
  {
    hide LaidOut, Adds, Deliver, Spares;
    LaidOutShape(setting, c.g);
    var c1 := Scope(c.sh.(arbTimer := Stopped), At(c, MasterListen).g);
    LaidOutIn(setting, c, MasterListen);
    var c2, r := Deliver(setting, gi, c1, 0, ToAll(D.GroupStandby)), FallToListen(setting, gi, c);
    AddsNone(c.sh, c1.sh);
    SparesShared(c, c1, []);
    DeliverSpares(setting, gi, c1, 0, ToAll(D.GroupStandby));
    AddsState(c2.sh, Standby);
    SparesShared(c2, r, []);
    assert NOTHING + NOTHING == NOTHING;
    SparesOn(c, c1, c2, [], []);
    SparesOn(c, c2, r, [], []);
  }

  lemma LaidOutIn(setting: GroupSetting, c: Scope, s: GroupState)
    requires LaidOut(setting, c.g)
    ensures LaidOut(setting, At(c, s).g)
  {
  }

  lemma EndSpares(setting: GroupSetting, gi: nat, c: Scope, t: Clock)
    requires LaidOut(setting, c.g) && ValidGroupSetting(setting)
    ensures Spares(c, CompleteScan(setting, gi, c, t), []) && Spares(c, TimeOutScan(setting, gi, c, t), [])
  {
    hide LaidOut, Adds, FinishScan, BeginScan, Spares;
    assert NOTHING + NOTHING == NOTHING;
    AddsNone(c.sh, c.sh);
    var c1 := At(Scope(c.sh, c.g.(responseTimer := Stopped)), LinkScanComp);
    TimersLaidOut(setting, c.g);
    LaidOutIn(setting, Scope(c.sh, c.g.(responseTimer := Stopped)), LinkScanComp);
    EndThenBegin(setting, gi, c, c1, D.GroupAllResponded, true, t);
    LaidOutIn(setting, c, LinkScanComp);
    EndThenBegin(setting, gi, c, At(c, LinkScanComp), D.GroupTimeout, false, t);
  }

  lemma EndThenBegin(setting: GroupSetting, gi: nat, c: Scope, c1: Scope, e: D.DeviceEvent, success: bool, t: Clock)
    requires LaidOut(setting, c1.g) && ValidGroupSetting(setting) && (e == D.GroupTimeout || e == D.GroupAllResponded)
    requires c1.sh == c.sh && c1.g.devices == c.g.devices && c1.g.ry == c.g.ry && c1.g.rww == c.g.rww
    ensures var c2 := FinishScan(setting, gi, c1, e, success);
            && LaidOut(setting, At(c2, LinkScan).g)
            && Spares(c, c2, []) && Spares(c, BeginScan(setting, gi, At(c2, LinkScan), t), [])
  {
    hide LaidOut, Adds, FinishScan, BeginScan, Spares;
    assert NOTHING + NOTHING == NOTHING;
    var c2 := FinishScan(setting, gi, c1, e, success);
    var c3 := At(c2, LinkScan);
    AddsNone(c.sh, c1.sh);
    SparesShared(c, c1, []);
    FinishSpares(setting, gi, c1, e, success);
    SparesOn(c, c1, c2, [], []);
    LaidOutIn(setting, c2, LinkScan);
    AddsNone(c2.sh, c3.sh);
    SparesShared(c2, c3, []);
    BeginSpares(setting, gi, c3, t);
    SparesOn(c, c2, c3, [], []);
    SparesOn(c, c3, BeginScan(setting, gi, c3, t), [], []);
  }

  /** A group event reports one thing only: that arbitration was lost, and to whom. */
  function EventReports(s: GroupState, e: GroupEvent, conflictIp: u32): seq<Output> {
    if s == MasterArbitration && e == RequestFromOther then [GroupModel.ErrorReport(ArbitrationLost, conflictIp)] else []
  }

  lemma EventSpares(cfg: MasterConfig, setting: GroupSetting, gi: nat, c: Scope, t: Clock, e: GroupEvent)
    requires LaidOut(setting, c.g) && ValidGroupSetting(setting) && e != Startup && e != NewConfig && e != ParameterChange
    ensures Spares(c, GroupEventStep(cfg, setting, gi, c, t, e), EventReports(c.g.state, e, c.sh.conflictIp))
  {
    hide LaidOut, Adds, CompleteScan, TimeOutScan, BeginScan, FallToListen, Spares;
    assert NOTHING + NOTHING == NOTHING;
    AddsNone(c.sh, c.sh);
    SparesShared(c, c, []);
    EndSpares(setting, gi, c, t);
    ListenSpares(setting, gi, c);
    LaidOutIn(setting, c, LinkScan);
    if c.g.state == MasterArbitration {
      ArbitrationSpares(cfg, setting, gi, c, t, e);
    } else if c.g.state == LinkScanComp && e == LinkScanStart {
      var c1 := At(c, LinkScan);
      SparesShared(c, c1, []);
      BeginSpares(setting, gi, c1, t);
      SparesOn(c, c1, BeginScan(setting, gi, c1, t), [], []);
    }
  }

  lemma ArbitrationSpares(cfg: MasterConfig, setting: GroupSetting, gi: nat, c: Scope, t: Clock, e: GroupEvent)
    requires LaidOut(setting, c.g) && ValidGroupSetting(setting) && c.g.state == MasterArbitration && e != ParameterChange
    ensures Spares(c, GroupEventStep(cfg, setting, gi, c, t, e), EventReports(c.g.state, e, c.sh.conflictIp))
  {
    hide LaidOut, Adds, BeginScan, FallToListen, Spares;
    LaidOutShape(setting, c.g);
    assert NOTHING + NOTHING == NOTHING;
    AddsNone(c.sh, c.sh);
    SparesShared(c, c, []);
    LaidOutIn(setting, c, LinkScan);
    if e == ArbitrationDone {
      var c1 := At(Scope(SetMasterState(c.sh, MasterState.Running), c.g), LinkScan);
      AddsState(c.sh, MasterState.Running);
      SparesShared(c, c1, []);
      BeginSpares(setting, gi, c1, t);
      SparesOn(c, c1, BeginScan(setting, gi, c1, t), [], []);
    } else if e == RequestFromOther {
      var o := GroupModel.ErrorReport(ArbitrationLost, c.sh.conflictIp);
      var c1 := Scope(Note(c.sh, o), c.g);
      AddsNote(c.sh, o);
      SparesShared(c, c1, [o]);
      ListenSpares(setting, gi, c1);
      SparesOn(c, c1, FallToListen(setting, gi, c1), [o], []);
      assert [o] + [] == [o];
    }
  }

  // ---------------------------------------------------------------- the master

  predicate SameAll(m: Master, r: Master) {
    |r.groups| == |m.groups| && forall gi :: 0 <= gi < |m.groups| ==> SameRecords(m.groups[gi], r.groups[gi])
  }

  predicate Leaves(m: Master, r: Master, reports: seq<Output>) {
    SameAll(m, r) && Adds(m.sh, r.sh, reports)
  }

  lemma LeavesOn(a: Master, b: Master, c: Master, x: seq<Output>, y: seq<Output>)
    requires Leaves(a, b, x) && Leaves(b, c, y)
    ensures Leaves(a, c, x + y)
  {
    hide Adds, RecordOf;
    AddsOn(a.sh, b.sh, c.sh, x, y);
    forall gi | 0 <= gi < |a.groups| ensures SameRecords(a.groups[gi], c.groups[gi]) {
      assert SameRecords(a.groups[gi], b.groups[gi]) && SameRecords(b.groups[gi], c.groups[gi]);
    }
  }

  lemma LeavesSame(m: Master, r: Master, reports: seq<Output>)
    requires r.groups == m.groups && Adds(m.sh, r.sh, reports)
    ensures Leaves(m, r, reports)
  {
  }

  lemma OneGroupLeaves(cfg: MasterConfig, m: Master, gi: nat, t: Clock, e: GroupEvent)
    requires Ready(cfg, m) && gi < |m.groups| && e != Startup && e != NewConfig && e != ParameterChange
    ensures Leaves(m, OneGroup(cfg, m, gi, t, e), EventReports(m.groups[gi].state, e, m.sh.conflictIp))
  {
    hide LaidOut, Adds, GroupEventStep;
    GoodSetting(cfg, gi);
    EventSpares(cfg, cfg.groups[gi], gi, ScopeOf(m, gi), t, e);
  }

  /** Reports of an event that reaches the groups from k on. */
  function AllReports(m: Master, k: nat, e: GroupEvent): seq<Output>
    requires k <= |m.groups|
    decreases |m.groups| - k
  {
    if k == |m.groups| then [] else EventReports(m.groups[k].state, e, m.sh.conflictIp) + AllReports(m, k + 1, e)
  }

  lemma {:induction false} AllReportsAgree(m: Master, r: Master, k: nat, e: GroupEvent)
    requires k <= |m.groups| == |r.groups| && r.sh.conflictIp == m.sh.conflictIp
    requires forall h :: k <= h < |m.groups| ==> r.groups[h] == m.groups[h]
    ensures AllReports(r, k, e) == AllReports(m, k, e)
    decreases |m.groups| - k
  {
    hide EventReports;
    if k < |m.groups| {
      AllReportsAgree(m, r, k + 1, e);
    }
  }

  lemma {:induction false} NoReports(m: Master, k: nat, e: GroupEvent)
    requires k <= |m.groups| && e != RequestFromOther
    ensures AllReports(m, k, e) == []
    decreases |m.groups| - k
  {
    if k < |m.groups| {
      NoReports(m, k + 1, e);
    }
  }

  lemma SameConflict(cfg: MasterConfig, m: Master, gi: nat, t: Clock, e: GroupEvent)
    requires Ready(cfg, m) && gi < |m.groups| && e != Startup && e != NewConfig && e != ParameterChange
    ensures var r := OneGroup(cfg, m, gi, t, e);
            r.sh.conflictIp == m.sh.conflictIp && |r.groups| == |m.groups| && forall h :: 0 <= h < |m.groups| && h != gi ==> r.groups[h] == m.groups[h]
  {
    hide LaidOut, GroupEventStep;
    OneGroupLeaves(cfg, m, gi, t, e);
  }

  lemma {:induction false} AllGroupsLeave(cfg: MasterConfig, m: Master, k: nat, t: Clock, e: GroupEvent)
    requires Ready(cfg, m) && k <= |m.groups| && e != Startup && e != NewConfig && e != ParameterChange
    ensures Leaves(m, AllGroups(cfg, m, k, t, e), AllReports(m, k, e))
    decreases |m.groups| - k
  {
    hide LaidOut, Adds, OneGroup, EventReports, Leaves;
    if k == |m.groups| {
      AddsNone(m.sh, m.sh);
      LeavesSame(m, m, []);
    } else {
      var m1 := OneGroup(cfg, m, k, t, e);
      OneGroupLeaves(cfg, m, k, t, e);
      SameConflict(cfg, m, k, t, e);
      AllGroupsLeave(cfg, m1, k + 1, t, e);
      AllReportsAgree(m, m1, k + 1, e);
      LeavesOn(m, m1, AllGroups(cfg, m1, k + 1, t, e), EventReports(m.groups[k].state, e, m.sh.conflictIp), AllReports(m, k + 1, e));
    }
  }

  lemma OneDeviceLeaves(cfg: MasterConfig, m: Master, gi: nat, i: nat, e: D.DeviceEvent)
    requires Ready(cfg, m) && gi < |m.groups| && i < |m.groups[gi].devices| && e != D.GroupStartup
    ensures Leaves(m, OneDevice(cfg, m, gi, i, e), [])
  {
    hide LaidOut, Adds, DeviceEvent;
    GoodSetting(cfg, gi);
    DeviceEventSpares(cfg.groups[gi], gi, ScopeOf(m, gi), i, e);
  }

  lemma AnsweredLeaves(cfg: MasterConfig, m: Master, t: Clock, gi: nat, i: nat, e: D.DeviceEvent)
    requires Ready(cfg, m) && gi < |m.groups| && i < |m.groups[gi].devices| && e != D.GroupStartup
    ensures Leaves(m, Answered(cfg, m, t, gi, i, e), [])
  {
    hide LaidOut, Adds, OneDevice, OneGroup, Leaves, HaveReceivedFromAll;
    var m1 := OneDevice(cfg, m, gi, i, e);
    OneDeviceLeaves(cfg, m, gi, i, e);
    if HaveReceivedFromAll(m1.groups[gi]) {
      OneGroupLeaves(cfg, m1, gi, t, LinkScanComplete);
      LeavesOn(m, m1, OneGroup(cfg, m1, gi, t, LinkScanComplete), [], []);
      assert NOTHING + NOTHING == NOTHING;
    }
  }

  lemma TimerLeaves(cfg: MasterConfig, m: Master, m0: Master, h: nat, t: Clock, e: GroupEvent)
    requires Ready(cfg, m) && Ready(cfg, m0) && h < |m.groups| && (e == LinkScanTimeout || e == LinkScanStart)
    requires m0.sh == m.sh && |m0.groups| == |m.groups| && forall gi :: 0 <= gi < |m.groups| ==> SameRecords(m.groups[gi], m0.groups[gi])
    ensures Leaves(m, OneGroup(cfg, m0, h, t, e), [])
  {
    hide LaidOut, Adds, OneGroup, SameRecords;
    assert NOTHING + NOTHING == NOTHING;
    AddsNone(m.sh, m0.sh);
    OneGroupLeaves(cfg, m0, h, t, e);
    LeavesOn(m, m0, OneGroup(cfg, m0, h, t, e), [], []);
  }

  lemma MonitorLeaves(cfg: MasterConfig, m: Master, h: nat, t: Clock)
    requires Ready(cfg, m) && h < |m.groups|
    ensures Leaves(m, MonitorGroup(cfg, m, h, t), [])
  {
    hide LaidOut, Adds, OneGroup, Expired;
    assert NOTHING + NOTHING == NOTHING;
    AddsNone(m.sh, m.sh);
    LaidOutApart(cfg, m, h);
    TimerLeaves(cfg, m, m.(groups := m.groups[h := m.groups[h].(responseTimer := Stopped)]), h, t, LinkScanTimeout);
    var m1 := AfterResponseTimer(cfg, m, h, t);
    AddsNone(m1.sh, m1.sh);
    LaidOutApart(cfg, m1, h);
    TimerLeaves(cfg, m1, m1.(groups := m1.groups[h := m1.groups[h].(scanTimer := Stopped)]), h, t, LinkScanStart);
    LeavesOn(m, m1, MonitorGroup(cfg, m, h, t), [], []);
  }

  lemma {:induction false} MonitorAllLeave(cfg: MasterConfig, m: Master, k: nat, t: Clock)
    requires Ready(cfg, m) && k <= |m.groups|
    ensures Leaves(m, MonitorGroups(cfg, m, k, t), [])
    decreases |m.groups| - k
  {
    hide LaidOut, Adds, MonitorGroup, Leaves;
    assert NOTHING + NOTHING == NOTHING;
    if k == |m.groups| {
      AddsNone(m.sh, m.sh);
      LeavesSame(m, m, []);
    } else {
      var m1 := MonitorGroup(cfg, m, k, t);
      MonitorLeaves(cfg, m, k, t);
      MonitorAllLeave(cfg, m1, k + 1, t);
      LeavesOn(m, m1, MonitorGroups(cfg, m1, k + 1, t), [], []);
    }
  }

  /** A poll reports nothing and leaves every record alone. */
  lemma TickLeaves(cfg: MasterConfig, m: Master, t: Clock)
    requires Ready(cfg, m)
    ensures Leaves(m, Tick(cfg, m, t), [])
  {
    hide LaidOut, Adds, MonitorGroups, AllGroups, Leaves, Expired;
    assert NOTHING + NOTHING == NOTHING;
    var m0, m1 := m.(sh := m.sh.(arbTimer := Stopped)), MonitorArbitration(cfg, m, t);
    AddsNone(m.sh, m.sh);
    LeavesSame(m, m, []);
    if Expired(m.sh.arbTimer, t.now) {
      AddsNone(m.sh, m0.sh);
      LeavesSame(m, m0, []);
      AllGroupsLeave(cfg, m0, 0, t, ArbitrationDone);
      NoReports(m0, 0, ArbitrationDone);
      LeavesOn(m, m0, m1, [], []);
    }
    MonitorAllLeave(cfg, m1, 0, t);
    LeavesOn(m, m1, Tick(cfg, m, t), [], []);
  }
}
