/** Every group event is a change of device states, followed by at most one scan start. */
module ScanStarts {
  import opened Words
  import opened Config
  import opened Timer
  import Responses
  import opened GroupModel
  import opened MasterModel
  import opened GroupRuns
  import opened DeviceRuns
  import opened Histories
  import opened Scans
  import opened ScanInvariant
  import D = DeviceModel

  /** What the frame and the application see of a device is the same. */
  predicate SameFace(d: D.Device, r: D.Device) {
    r.bit == d.bit && r.enabled == d.enabled && r.forced == d.forced && r.station == d.station
  }

  /** Nothing is written: not the frame, not the transmission word, not the data areas. */
  predicate Unwritten(g: Group, r: Group) {
    && r.frame == g.frame && r.word == g.word
    && r.rx == g.rx && r.ry == g.ry && r.rwr == g.rwr && r.rww == g.rww
    && |r.devices| == |g.devices|
    && (forall i :: 0 <= i < |g.devices| ==> SameFace(g.devices[i], r.devices[i]))
  }

  lemma KeepsFace(d: D.Device, setting: DeviceSetting, offCount: u16, e: D.DeviceEvent)
    requires e != D.GroupStartup && !StartsOrStops(e)
    ensures SameFace(d, D.After(d, setting, offCount, e))
  {
  }

  lemma FinishUnwritten(setting: GroupSetting, gi: nat, c: Scope, e: D.DeviceEvent, success: bool)
    requires LaidOut(setting, c.g) && ValidGroupSetting(setting)
    requires e == D.GroupTimeout || e == D.GroupAllResponded
    ensures Unwritten(c.g, FinishScan(setting, gi, c, e, success).g)
  {
    hide D.After, FinishScan, LaidOut;
    LaidOutShape(setting, c.g);
    LaidOutShape(setting, FinishScan(setting, gi, c, e, success).g);
    FinishFacts(setting, gi, c, e, success);
    forall i | 0 <= i < |c.g.devices| ensures SameFace(c.g.devices[i], FinishScan(setting, gi, c, e, success).g.devices[i]) {
      FinishOnDevice(setting, gi, c, e, success, i);
      KeepsFace(c.g.devices[i], setting.devices[i], setting.offCount, e);
    }
  }

  lemma FallUnwritten(setting: GroupSetting, gi: nat, c: Scope)
    requires LaidOut(setting, c.g) && ValidGroupSetting(setting)
    ensures Unwritten(c.g, FallToListen(setting, gi, c).g)
  {
    hide D.After, EnterListen, LaidOut;
    LaidOutShape(setting, c.g);
    LaidOutAt(setting, c, MasterListen);
    LaidOutShape(setting, FallToListen(setting, gi, c).g);
    ListenFacts(setting, gi, At(c, MasterListen));
    forall i | 0 <= i < |c.g.devices| ensures SameFace(c.g.devices[i], FallToListen(setting, gi, c).g.devices[i]) {
      StandbyOnDevice(setting, gi, c, i);
      KeepsFace(c.g.devices[i], setting.devices[i], setting.offCount, D.GroupStandby);
    }
  }

  /** The scope from which the next scan starts, when a scan ends. */
  function AfterEnd(setting: GroupSetting, gi: nat, c: Scope, e: GroupEvent): (r: Scope)
    requires LaidOut(setting, c.g) && ValidGroupSetting(setting)
    ensures LaidOut(setting, r.g)
  {
    if e == LinkScanComplete then
      At(FinishScan(setting, gi, At(Scope(c.sh, c.g.(responseTimer := Stopped)), LinkScanComp), D.GroupAllResponded, true), LinkScan)
    else
      At(FinishScan(setting, gi, At(c, LinkScanComp), D.GroupTimeout, false), LinkScan)
  }

  /** Whether an event starts a scan. */
  predicate Starts(setting: GroupSetting, s: GroupState, e: GroupEvent) {
    || (s == MasterArbitration && e == ArbitrationDone)
    || (s == LinkScanComp && e == LinkScanStart)
    || (s == LinkScan && (e == LinkScanTimeout || (e == LinkScanComplete && !setting.constantScan)))
  }

  /** The scope from which an event starts a scan. */
  function StartScope(setting: GroupSetting, gi: nat, c: Scope, e: GroupEvent): (r: Scope)
    requires LaidOut(setting, c.g) && ValidGroupSetting(setting)
    ensures LaidOut(setting, r.g)
  {
    if c.g.state == MasterArbitration then At(Scope(SetMasterState(c.sh, MasterState.Running), c.g), LinkScan)
    else if c.g.state == LinkScan then AfterEnd(setting, gi, c, e)
    else At(c, LinkScan)
  }

  lemma StartScopeFacts(setting: GroupSetting, gi: nat, c: Scope, e: GroupEvent)
    requires LaidOut(setting, c.g) && ValidGroupSetting(setting) && Starts(setting, c.g.state, e)
    ensures var r := StartScope(setting, gi, c, e);
            && Unwritten(c.g, r.g)
            && Log(gi, r.sh.trace) == Log(gi, c.sh.trace) + if c.g.state == LinkScan then [LinkScanCb(gi, e == LinkScanComplete)] else []
  {
    hide FinishScan, LaidOut, Log;
    LogOfMore(gi, c.sh.trace, MasterStateCb(MasterState.Running));
    if c.g.state == LinkScan {
      var c0 := Scope(c.sh, c.g.(responseTimer := Stopped));
      TimersLaidOut(setting, c.g);
      LaidOutAt(setting, c0, LinkScanComp);
      LaidOutAt(setting, c, LinkScanComp);
      FinishFacts(setting, gi, At(c0, LinkScanComp), D.GroupAllResponded, true);
      FinishUnwritten(setting, gi, At(c0, LinkScanComp), D.GroupAllResponded, true);
      FinishFacts(setting, gi, At(c, LinkScanComp), D.GroupTimeout, false);
      FinishUnwritten(setting, gi, At(c, LinkScanComp), D.GroupTimeout, false);
    }
  }

  /** An event that starts a scan ends in exactly that. */
  lemma StartingEvent(cfg: MasterConfig, setting: GroupSetting, gi: nat, c: Scope, t: Clock, e: GroupEvent)
    requires LaidOut(setting, c.g) && ValidGroupSetting(setting) && Starts(setting, c.g.state, e)
    ensures GroupEventStep(cfg, setting, gi, c, t, e) == BeginScan(setting, gi, StartScope(setting, gi, c, e), t)
  {
    hide FinishScan, BeginScan, LaidOut;
  }

  /** Any other event of a running master writes nothing and logs no request. */
  lemma OtherEvent(cfg: MasterConfig, setting: GroupSetting, gi: nat, c: Scope, t: Clock, e: GroupEvent)
    requires LaidOut(setting, c.g) && ValidGroupSetting(setting) && !Starts(setting, c.g.state, e)
    requires e != Startup && e != NewConfig && e != ParameterChange
    ensures var r := GroupEventStep(cfg, setting, gi, c, t, e);
            && Unwritten(c.g, r.g)
            && Log(gi, r.sh.trace) == Log(gi, c.sh.trace)
               + if c.g.state == LinkScan && e == LinkScanComplete then [LinkScanCb(gi, true)] else []
  {
    hide FinishScan, BeginScan, LaidOut, Log, EnterListen;
    LaidOutShape(setting, c.g);
    var c0 := Scope(c.sh, c.g.(responseTimer := Stopped));
    TimersLaidOut(setting, c.g);
    LaidOutAt(setting, c0, LinkScanComp);
    FinishFacts(setting, gi, At(c0, LinkScanComp), D.GroupAllResponded, true);
    FinishUnwritten(setting, gi, At(c0, LinkScanComp), D.GroupAllResponded, true);
    FallUnwritten(setting, gi, c);
    LaidOutAt(setting, c, MasterListen);
    ListenFacts(setting, gi, At(c, MasterListen));
    var lost := Scope(Note(c.sh, ErrorReport(ArbitrationLost, c.sh.conflictIp)), c.g);
    LogOfMore(gi, c.sh.trace, ErrorReport(ArbitrationLost, c.sh.conflictIp));
    FallUnwritten(setting, gi, lost);
    ListenFacts(setting, gi, At(lost, MasterListen));
  }

  /** Scans start at scan boundaries only. */
  lemma StartsAtBoundary(cfg: MasterConfig, gi: nat, c: Scope, e: GroupEvent)
    requires GoodConfig(cfg) && gi < |cfg.groups| && LaidOut(cfg.groups[gi], c.g) && ValidGroupSetting(cfg.groups[gi])
    requires InvBut(cfg, gi, c, e) && MayOccur(c, e) && Starts(cfg.groups[gi], c.g.state, e)
    ensures AtBoundary(cfg, gi, StartScope(cfg.groups[gi], gi, c, e))
  {
    hide FinishScan, LaidOut, Log, FrameFits, LogFits, DevicesSound, AllListen, AllListenOrSent;
    var setting := cfg.groups[gi];
    if c.g.state == LinkScan {
      var c0 := Scope(c.sh, c.g.(responseTimer := if e == LinkScanComplete then Stopped else c.g.responseTimer));
      TimersApart(cfg, gi, c, c0.g.responseTimer, c.g.scanTimer);
      StateApart(cfg, gi, c0, LinkScanComp, c.sh);
      var de := if e == LinkScanComplete then D.GroupAllResponded else D.GroupTimeout;
      FinishKeeps(cfg, gi, At(c0, LinkScanComp), de, e == LinkScanComplete);
      var c2 := FinishScan(setting, gi, At(c0, LinkScanComp), de, e == LinkScanComplete);
      StateApart(cfg, gi, c2, LinkScan, c2.sh);
    } else {
      LogOfMore(gi, c.sh.trace, MasterStateCb(MasterState.Running));
      StateApart(cfg, gi, c, LinkScan, StartScope(setting, gi, c, e).sh);
    }
  }

  // ---------------------------------------------------------------- acts that start a scan

  function TimeOf(a: Act): Clock
    requires a.Event? || a.ResponseTimeout? || a.ScanTimeout?
  {
    a.t
  }

  /** The scope in which the event of an act is handled. */
  function Met(c: Scope, a: Act): Scope {
    match a
    case ResponseTimeout(_) => Scope(c.sh, c.g.(responseTimer := Stopped))
    case ScanTimeout(_) => Scope(c.sh, c.g.(scanTimer := Stopped))
    case _ => c
  }

  predicate IsGroupEvent(a: Act) {
    a.Event? || a.ResponseTimeout? || a.ScanTimeout?
  }

  predicate StartsScan(setting: GroupSetting, c: Scope, a: Act) {
    IsGroupEvent(a) && Starts(setting, c.g.state, EventOf(a))
  }

  lemma MetFacts(cfg: MasterConfig, gi: nat, input: Input, c: Scope, a: Act)
    requires GoodConfig(cfg) && gi < |cfg.groups| && LaidOut(cfg.groups[gi], c.g)
    requires Possible(cfg, gi, input, c, a) && IsGroupEvent(a)
    ensures LaidOut(cfg.groups[gi], Met(c, a).g) && ValidGroupSetting(cfg.groups[gi])
    ensures Do(cfg, gi, input, c, a) == GroupEventStep(cfg, cfg.groups[gi], gi, Met(c, a), TimeOf(a), EventOf(a))
    ensures EventOf(a) != Startup && EventOf(a) != NewConfig && EventOf(a) != ParameterChange
  {
    hide GroupEventStep, LaidOut, HaveReceivedFromAll;
    TimersLaidOut(cfg.groups[gi], c.g);
    GoodSetting(cfg, gi);
  }

  lemma MetInv(cfg: MasterConfig, gi: nat, input: Input, c: Scope, a: Act)
    requires GoodConfig(cfg) && gi < |cfg.groups| && LaidOut(cfg.groups[gi], c.g)
    requires Possible(cfg, gi, input, c, a) && StartsScan(cfg.groups[gi], c, a) && GroupInv(cfg, gi, c)
    ensures InvBut(cfg, gi, Met(c, a), EventOf(a)) && MayOccur(Met(c, a), EventOf(a))
  {
    hide FrameFits, LaidOut, LogFits, Log, Sound, HaveReceivedFromAll, NoneSending;
    if a.Event? && a.e == LinkScanComplete {
      CompleteMeansNoneSending(cfg, gi, c);
    }
    TimersApart(cfg, gi, c, Met(c, a).g.responseTimer, Met(c, a).g.scanTimer);
  }

  /** The scope an act starts a scan from: at a scan boundary, with nothing written since. */
  function StartFor(cfg: MasterConfig, gi: nat, input: Input, c: Scope, a: Act): (r: Scope)
    requires GoodConfig(cfg) && gi < |cfg.groups| && LaidOut(cfg.groups[gi], c.g)
    requires Possible(cfg, gi, input, c, a) && IsGroupEvent(a)
    ensures LaidOut(cfg.groups[gi], r.g)
  {
    MetFacts(cfg, gi, input, c, a);
    StartScope(cfg.groups[gi], gi, Met(c, a), EventOf(a))
  }

  lemma StartingAct(cfg: MasterConfig, gi: nat, input: Input, c: Scope, a: Act)
    requires GoodConfig(cfg) && gi < |cfg.groups| && LaidOut(cfg.groups[gi], c.g) && ValidGroupSetting(cfg.groups[gi])
    requires Possible(cfg, gi, input, c, a) && StartsScan(cfg.groups[gi], c, a) && GroupInv(cfg, gi, c)
    ensures var s := StartFor(cfg, gi, input, c, a);
            && Do(cfg, gi, input, c, a) == BeginScan(cfg.groups[gi], gi, s, TimeOf(a))
            && AtBoundary(cfg, gi, s)
            && Unwritten(c.g, s.g)
            && Log(gi, s.sh.trace) == Log(gi, c.sh.trace)
               + if c.g.state == LinkScan then [LinkScanCb(gi, EventOf(a) == LinkScanComplete)] else []
  {
    hide GroupEventStep, LaidOut, BeginScan, StartScope, AtBoundary, InvBut, MayOccur, GroupInv, Possible, Do, Log;
    var e := EventOf(a);
    MetFacts(cfg, gi, input, c, a);
    MetInv(cfg, gi, input, c, a);
    StartsAtBoundary(cfg, gi, Met(c, a), e);
    StartScopeFacts(cfg.groups[gi], gi, Met(c, a), e);
    StartingEvent(cfg, cfg.groups[gi], gi, Met(c, a), TimeOf(a), e);
  }

  /** Any other act writes at most one kind of thing, and logs no request. */
  predicate Calm(c: Scope, a: Act, r: Scope) {
    match a
    case Touch(i, d) => i < |c.g.devices| && SameCore(c.g.devices[i], d) && r.g == PutDevice(c.g, i, d) && r.sh == c.sh
    case Store(i) => r == Scope(c.sh, c.g.(rx := r.g.rx, rwr := r.g.rwr))
    case Outputs(ry, rww) => r == Scope(c.sh, c.g.(ry := ry, rww := rww))
    case _ => Unwritten(c.g, r.g)
  }

  lemma CalmAct(cfg: MasterConfig, gi: nat, input: Input, c: Scope, a: Act)
    requires GoodConfig(cfg) && gi < |cfg.groups| && LaidOut(cfg.groups[gi], c.g)
    requires Possible(cfg, gi, input, c, a) && !StartsScan(cfg.groups[gi], c, a)
    ensures var r := Do(cfg, gi, input, c, a);
            && Calm(c, a, r)
            && Log(gi, r.sh.trace) == Log(gi, c.sh.trace)
               + if a.Event? && a.e == LinkScanComplete && c.g.state == LinkScan then [LinkScanCb(gi, true)] else []
  {
    hide GroupEventStep, LaidOut, D.After, HaveReceivedFromAll, Responses.ParseResponse, Log;
    GoodSetting(cfg, gi);
    LaidOutShape(cfg.groups[gi], c.g);
    if IsGroupEvent(a) {
      MetFacts(cfg, gi, input, c, a);
      OtherEvent(cfg, cfg.groups[gi], gi, Met(c, a), TimeOf(a), EventOf(a));
    } else if a.Fire? {
      FireKeepsStates(c.g.devices[a.i], cfg.groups[gi].devices[a.i], cfg.groups[gi].offCount, a.de);
      KeepsFace(c.g.devices[a.i], cfg.groups[gi].devices[a.i], cfg.groups[gi].offCount, a.de);
    } else if a.Others? {
      LogIgnoresOthers(gi, c.sh.trace, a.sh.trace);
    }
  }
}
