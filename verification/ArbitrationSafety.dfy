/** The phases of the master: all groups go through arbitration together, and a master that
    lost it never sends again. */
module ArbitrationSafety {
  import opened Words
  import opened Config
  import opened Layout
  import opened Timer
  import opened Frames
  import Responses
  import opened GroupModel
  import opened MasterModel
  import opened GroupRuns
  import opened Histories
  import opened Scans
  import opened ScanInvariant
  import opened Startup
  import D = DeviceModel

  /** The master state the application is shown for a group state. */
  function PhaseOf(s: GroupState): MasterState {
    match s
    case MasterDown => Down
    case MasterListen => Standby
    case MasterArbitration => Arbitration
    case LinkScanComp => MasterState.Running
    case LinkScan => MasterState.Running
  }

  /** All groups share one phase, the master state is its abstraction, and the arbitration
      timer runs in arbitration only. */
  predicate InPhase(m: Master, p: MasterState) {
    && (forall gi :: 0 <= gi < |m.groups| ==> PhaseOf(m.groups[gi].state) == p)
    && m.sh.masterState == p
    && (m.sh.arbTimer.Running? <==> p == Arbitration)
  }

  function NextPhase(p: MasterState, e: GroupEvent): MasterState {
    if p == Arbitration && e == ArbitrationDone then MasterState.Running
    else if p == Arbitration && e == RequestFromOther then Standby
    else if p == MasterState.Running && e == DuplicationAlarm then Standby
    else p
  }

  /** The phase diagram, for one group and one event. */
  predicate FollowsDiagram(c: Scope, e: GroupEvent, r: Scope) {
    var p := PhaseOf(c.g.state);
    && PhaseOf(r.g.state) == NextPhase(p, e)
    && (NextPhase(p, e) != p || c.sh.masterState == p ==> r.sh.masterState == NextPhase(p, e))
    && r.sh.arbTimer == if NextPhase(p, e) == Standby != p then Stopped else c.sh.arbTimer
  }

  lemma ArbitrationDiagram(cfg: MasterConfig, setting: GroupSetting, gi: nat, c: Scope, t: Clock, e: GroupEvent)
    requires LaidOut(setting, c.g) && ValidGroupSetting(setting)
    requires e != Startup && e != NewConfig && e != ParameterChange
    requires c.g.state == MasterArbitration
    ensures FollowsDiagram(c, e, GroupEventStep(cfg, setting, gi, c, t, e))
  {
    hide FinishScan, BeginScan, EnterListen, LaidOut, Log;
    LaidOutShape(setting, c.g);
    LaidOutAt(setting, c, MasterListen);
    LaidOutAt(setting, c, LinkScan);
    ListenFacts(setting, gi, At(Scope(Note(c.sh, ErrorReport(ArbitrationLost, c.sh.conflictIp)), c.g), MasterListen));
    BeginFacts(setting, gi, At(Scope(SetMasterState(c.sh, MasterState.Running), c.g), LinkScan), t);
  }

  lemma RunningDiagram(cfg: MasterConfig, setting: GroupSetting, gi: nat, c: Scope, t: Clock, e: GroupEvent)
    requires LaidOut(setting, c.g) && ValidGroupSetting(setting)
    requires e != Startup && e != NewConfig && e != ParameterChange
    requires c.g.state == LinkScanComp || c.g.state == LinkScan
    ensures FollowsDiagram(c, e, GroupEventStep(cfg, setting, gi, c, t, e))
  {
    hide FinishScan, BeginScan, EnterListen, LaidOut, Log;
    LaidOutShape(setting, c.g);
    LaidOutAt(setting, c, MasterListen);
    ListenFacts(setting, gi, At(c, MasterListen));
    if c.g.state == LinkScan {
      hide CompleteScan, TimeOutScan;
      ScanEndPhase(setting, gi, c, t);
    } else {
      LaidOutAt(setting, c, LinkScan);
      BeginFacts(setting, gi, At(c, LinkScan), t);
    }
  }

  lemma EventPhase(cfg: MasterConfig, setting: GroupSetting, gi: nat, c: Scope, t: Clock, e: GroupEvent)
    requires LaidOut(setting, c.g) && ValidGroupSetting(setting)
    requires e != Startup && e != NewConfig && e != ParameterChange
    requires c.g.state != MasterDown
    ensures FollowsDiagram(c, e, GroupEventStep(cfg, setting, gi, c, t, e))
  {
    hide GroupEventStep, LaidOut;
    if c.g.state == MasterArbitration {
      ArbitrationDiagram(cfg, setting, gi, c, t, e);
    } else if c.g.state == MasterListen {
      DownIsStill(cfg, setting, gi, c, t, e);
    } else {
      RunningDiagram(cfg, setting, gi, c, t, e);
    }
  }

  lemma ScanEndPhase(setting: GroupSetting, gi: nat, c: Scope, t: Clock)
    requires LaidOut(setting, c.g) && ValidGroupSetting(setting)
    ensures var r := CompleteScan(setting, gi, c, t); r.sh.masterState == MasterState.Running && r.sh.arbTimer == c.sh.arbTimer
    ensures var r := TimeOutScan(setting, gi, c, t); r.sh.masterState == MasterState.Running && r.sh.arbTimer == c.sh.arbTimer
  {
    hide FinishScan, BeginScan, Log, LaidOut;
    var c0 := Scope(c.sh, c.g.(responseTimer := Stopped));
    TimersLaidOut(setting, c.g);
    LaidOutAt(setting, c0, LinkScanComp);
    LaidOutAt(setting, c, LinkScanComp);
    FinishFacts(setting, gi, At(c0, LinkScanComp), D.GroupAllResponded, true);
    var c1 := FinishScan(setting, gi, At(c0, LinkScanComp), D.GroupAllResponded, true);
    LaidOutAt(setting, c1, LinkScan);
    BeginFacts(setting, gi, At(c1, LinkScan), t);
    FinishFacts(setting, gi, At(c, LinkScanComp), D.GroupTimeout, false);
    var c2 := FinishScan(setting, gi, At(c, LinkScanComp), D.GroupTimeout, false);
    LaidOutAt(setting, c2, LinkScan);
    BeginFacts(setting, gi, At(c2, LinkScan), t);
  }

  /** Halfway through an event for all groups: the first k have had it. */
  predicate Halfway(m: Master, k: nat, p: MasterState, e: GroupEvent) {
    && (forall gi :: 0 <= gi < |m.groups| ==> PhaseOf(m.groups[gi].state) == if gi < k then NextPhase(p, e) else p)
    && m.sh.masterState == if k == 0 then p else NextPhase(p, e)
  }

  lemma OneMorePhase(cfg: MasterConfig, m: Master, k: nat, t: Clock, e: GroupEvent, p: MasterState)
    requires Ready(cfg, m) && k < |m.groups| && Halfway(m, k, p, e) && p != Down
    requires e == ArbitrationDone || e == RequestFromOther || e == DuplicationAlarm
    ensures var r := OneGroup(cfg, m, k, t, e);
            && |r.groups| == |m.groups| && Halfway(r, k + 1, p, e)
            && r.sh.arbTimer == if NextPhase(p, e) == Standby != p then Stopped else m.sh.arbTimer
  {
    hide GroupEventStep, LaidOut;
    GoodSetting(cfg, k);
    EventPhase(cfg, cfg.groups[k], k, ScopeOf(m, k), t, e);
  }

  lemma {:induction false} AllGroupsPhase(cfg: MasterConfig, m: Master, k: nat, t: Clock, e: GroupEvent, p: MasterState)
    requires Ready(cfg, m) && k <= |m.groups| && Halfway(m, k, p, e) && p != Down
    requires e == ArbitrationDone || e == RequestFromOther || e == DuplicationAlarm
    ensures var r := AllGroups(cfg, m, k, t, e);
            && |r.groups| == |m.groups| && Halfway(r, |m.groups|, p, e)
            && r.sh.arbTimer == if k < |m.groups| && NextPhase(p, e) == Standby != p then Stopped else m.sh.arbTimer
    decreases |m.groups| - k
  {
    hide OneGroup, LaidOut, Halfway;
    if k < |m.groups| {
      OneMorePhase(cfg, m, k, t, e, p);
      AllGroupsPhase(cfg, OneGroup(cfg, m, k, t, e), k + 1, t, e, p);
    }
  }

  lemma AllPhase(cfg: MasterConfig, m: Master, t: Clock, e: GroupEvent, p: MasterState)
    requires Ready(cfg, m) && Halfway(m, 0, p, e) && p != Down && e != ArbitrationDone
    requires m.sh.arbTimer.Running? <==> p == Arbitration
    requires e == RequestFromOther || e == DuplicationAlarm
    ensures InPhase(AllGroups(cfg, m, 0, t, e), NextPhase(p, e))
    ensures NextPhase(p, e) == p ==> AllGroups(cfg, m, 0, t, e).sh.arbTimer == m.sh.arbTimer
  {
    hide LaidOut, AllGroups;
    AllGroupsPhase(cfg, m, 0, t, e, p);
  }

  // ---------------------------------------------------------------- steps that keep the phase

  predicate SamePhase(m: Master, r: Master) {
    && |r.groups| == |m.groups|
    && (forall gi :: 0 <= gi < |m.groups| ==> PhaseOf(r.groups[gi].state) == PhaseOf(m.groups[gi].state))
    && r.sh.masterState == m.sh.masterState && r.sh.arbTimer == m.sh.arbTimer
  }

  lemma OneGroupPhase(cfg: MasterConfig, m: Master, gi: nat, t: Clock, e: GroupEvent, p: MasterState)
    requires Ready(cfg, m) && gi < |m.groups| && InPhase(m, p) && p != Down
    requires e == LinkScanStart || e == LinkScanTimeout || e == LinkScanComplete
    ensures SamePhase(m, OneGroup(cfg, m, gi, t, e))
  {
    hide GroupEventStep, LaidOut;
    GoodSetting(cfg, gi);
    EventPhase(cfg, cfg.groups[gi], gi, ScopeOf(m, gi), t, e);
  }

  lemma OneDevicePhase(cfg: MasterConfig, m: Master, gi: nat, i: nat, e: D.DeviceEvent)
    requires Ready(cfg, m) && gi < |m.groups| && i < |m.groups[gi].devices| && e != D.GroupStartup
    ensures SamePhase(m, OneDevice(cfg, m, gi, i, e))
  {
    hide D.After, PatchFrame, LaidOut;
    GoodSetting(cfg, gi);
  }

  lemma MonitorOnePhase(cfg: MasterConfig, m: Master, h: nat, t: Clock, p: MasterState)
    requires Ready(cfg, m) && h < |m.groups| && InPhase(m, p) && p != Down
    ensures SamePhase(m, MonitorGroup(cfg, m, h, t))
  {
    hide OneGroup, LaidOut, Expired;
    LaidOutApart(cfg, m, h);
    OneGroupPhase(cfg, m.(groups := m.groups[h := m.groups[h].(responseTimer := Stopped)]), h, t, LinkScanTimeout, p);
    var m1 := AfterResponseTimer(cfg, m, h, t);
    LaidOutApart(cfg, m1, h);
    OneGroupPhase(cfg, m1.(groups := m1.groups[h := m1.groups[h].(scanTimer := Stopped)]), h, t, LinkScanStart, p);
  }

  lemma {:induction false} MonitorPhase(cfg: MasterConfig, m: Master, k: nat, t: Clock, p: MasterState)
    requires Ready(cfg, m) && k <= |m.groups| && InPhase(m, p) && p != Down
    ensures SamePhase(m, MonitorGroups(cfg, m, k, t))
    decreases |m.groups| - k
  {
    hide MonitorGroup, LaidOut;
    if k < |m.groups| {
      MonitorOnePhase(cfg, m, k, t, p);
      MonitorPhase(cfg, MonitorGroup(cfg, m, k, t), k + 1, t, p);
    }
  }

  lemma TickPhase(cfg: MasterConfig, m: Master, t: Clock, p: MasterState)
    requires Ready(cfg, m) && InPhase(m, p) && p != Down
    ensures var q := if Expired(m.sh.arbTimer, t.now) then MasterState.Running else p;
            InPhase(Tick(cfg, m, t), q) && (q == p ==> Tick(cfg, m, t).sh.arbTimer == m.sh.arbTimer)
  {
    hide MonitorGroups, AllGroups, LaidOut;
    if Expired(m.sh.arbTimer, t.now) {
      AllGroupsPhase(cfg, m.(sh := m.sh.(arbTimer := Stopped)), 0, t, ArbitrationDone, p);
    }
    var q := if Expired(m.sh.arbTimer, t.now) then MasterState.Running else p;
    MonitorPhase(cfg, MonitorArbitration(cfg, m, t), 0, t, q);
  }

  // ---------------------------------------------------------------- frames

  /** A response of device i that is taken at its word and reports a second master. */
  predicate IsAlarm(m: Master, gi: nat, i: nat, setting: DeviceSetting, r: Responses.Response)
    requires gi < |m.groups| && i < |m.groups[gi].devices|
  {
    && IsUsable(m.groups[gi].devices[i], m.groups[gi].seqNo, r)
    && r.Stations() == setting.stations
    && r.endCode == ENDCODE_MASTER_DUPLICATION
  }

  predicate RaisesAlarm(cfg: MasterConfig, m: Master, input: Input)
    requires Ready(cfg, m)
  {
    && IsReply(input) && input.ip != cfg.masterId
    && 1 <= Reply(input).groupNo <= |cfg.groups|
    && var gi := Reply(input).groupNo - 1;
    && var i := DeviceIndex(cfg.groups[gi].devices, input.ip);
    && i < |cfg.groups[gi].devices|
    && IsAlarm(m, gi, i, cfg.groups[gi].devices[i], Reply(input))
  }

  function After(p: MasterState, alarm: bool): MasterState {
    if alarm then NextPhase(p, DuplicationAlarm) else p
  }

  predicate Leads(m: Master, p: MasterState, r: Master, q: MasterState) {
    InPhase(r, q) && (q == p ==> r.sh.arbTimer == m.sh.arbTimer)
  }

  lemma AcceptPhase(cfg: MasterConfig, m: Master, t: Clock, gi: nat, i: nat, r: Responses.Response, p: MasterState)
    requires Ready(cfg, m) && gi < |m.groups| && i < |m.groups[gi].devices| && InPhase(m, p) && p != Down
    requires r.WellFormed() && r.Stations() == cfg.groups[gi].devices[i].stations
    ensures Leads(m, p, AcceptResponse(cfg, m, t, gi, i, r), After(p, r.endCode == ENDCODE_MASTER_DUPLICATION))
  {
    hide LaidOut, OneDevice, OneGroup, AllGroups, HaveReceivedFromAll, KeepResponse;
    KeepPhase(cfg, m, t, gi, i, r);
    var m1 := KeepResponse(cfg, m, t, gi, i, r);
    Shape(cfg, m, gi);
    Shape(cfg, m1, gi);
    if r.endCode == ENDCODE_MASTER_DUPLICATION {
      AllPhase(cfg, m1, t, DuplicationAlarm, p);
    } else {
      var e := if r.endCode == ENDCODE_SUCCESS then D.ReceiveOk else D.ReceiveError;
      OneDevicePhase(cfg, m1, gi, i, e);
      OneGroupPhase(cfg, OneDevice(cfg, m1, gi, i, e), gi, t, LinkScanComplete, p);
    }
  }

  lemma KeepPhase(cfg: MasterConfig, m: Master, t: Clock, gi: nat, i: nat, r: Responses.Response)
    requires Ready(cfg, m) && gi < |m.groups| && i < |m.groups[gi].devices|
    requires r.WellFormed() && r.Stations() == cfg.groups[gi].devices[i].stations
    ensures SamePhase(m, KeepResponse(cfg, m, t, gi, i, r))
  {
    hide LaidOut;
  }

  lemma InSequencePhase(cfg: MasterConfig, m: Master, t: Clock, gi: nat, i: nat, r: Responses.Response, ip: u32, p: MasterState)
    requires Ready(cfg, m) && gi < |m.groups| && i < |m.groups[gi].devices| && i < |cfg.groups[gi].devices|
    requires InPhase(m, p) && p != Down && r.WellFormed()
    ensures var alarm := r.Stations() == cfg.groups[gi].devices[i].stations && r.endCode == ENDCODE_MASTER_DUPLICATION;
            Leads(m, p, HandleInSequence(cfg, m, t, gi, i, r, ip), After(p, alarm))
  {
    hide LaidOut, AcceptResponse;
    var g := m.groups[gi];
    var d := if IsComplaint(r.endCode) then CountAlarm(g.devices[i]) else g.devices[i];
    var m1 := WithDevice(cfg, m.(sh := ReportComplaint(m.sh, r.endCode, ip)), gi, i, d);
    if r.Stations() == cfg.groups[gi].devices[i].stations {
      AcceptPhase(cfg, m1, t, gi, i, r, p);
    }
  }

  lemma FromDevicePhase(cfg: MasterConfig, m: Master, t: Clock, gi: nat, i: nat, r: Responses.Response, ip: u32, p: MasterState)
    requires Ready(cfg, m) && gi < |m.groups| && i < |m.groups[gi].devices| && i < |cfg.groups[gi].devices|
    requires InPhase(m, p) && p != Down && r.WellFormed()
    ensures Leads(m, p, HandleFromDevice(cfg, m, t, gi, i, r, ip),
                  After(p, IsAlarm(m, gi, i, cfg.groups[gi].devices[i], r)))
  {
    hide LaidOut, HandleInSequence, OneDevice;
    var d := CountIncoming(m.groups[gi].devices[i]);
    match Judge(d, m.groups[gi].seqNo, r)
    case Unusable =>
    case Duplicate =>
      OneDevicePhase(cfg, WithDevice(cfg, m.(sh := Note(m.sh, ErrorReport(SlaveDuplicated, ip))), gi, i, CountInvalid(d)),
                     gi, i, D.SlaveDuplication);
    case InSequence => InSequencePhase(cfg, WithDevice(cfg, m, gi, i, d), t, gi, i, r, ip, p);
  }

  /** The phase after a step, from the phase before and what the input is. */
  function PhaseAfter(cfg: MasterConfig, m: Master, p: MasterState, input: Input): MasterState
    requires Ready(cfg, m)
  {
    if p == Arbitration && input.Timers? && Expired(m.sh.arbTimer, input.t.now) then MasterState.Running
    else if p == Arbitration && IsForeignRequest(cfg, input) then Standby
    else if p == MasterState.Running && RaisesAlarm(cfg, m, input) then Standby
    else p
  }

  lemma ReceivePhase(cfg: MasterConfig, m: Master, input: Input, p: MasterState)
    requires Ready(cfg, m) && InPhase(m, p) && p != Down && input.Frame? && Allowed(input)
    ensures Leads(m, p, Receive(cfg, m, input.t, input.bytes, input.ip), PhaseAfter(cfg, m, p, input))
  {
    hide LaidOut, HandleFromDevice, AllGroups, Responses.ParseResponse, IsRequest, Responses.IsResponse, IsAlarm, InPhase, Leads;
    var t, b, ip := input.t, input.bytes, input.ip;
    Responses.ReplyIsResponse(b, ip);
    StayingLeads(m, p);
    if ip != cfg.masterId {
      if Responses.IsResponse(b) {
        if Responses.ParseResponse(b, ip).Parsed? {
          var r := Responses.ParseResponse(b, ip).r;
          Responses.AcceptedResponseIsEncoded(b, ip);
          if r.groupNo <= |cfg.groups| {
            var gi := r.groupNo - 1;
            var i := DeviceIndex(cfg.groups[gi].devices, ip);
            Shape(cfg, m, gi);
            if i < |cfg.groups[gi].devices| {
              FromDevicePhase(cfg, m, t, gi, i, r, ip, p);
            }
          }
        }
      } else if IsRequest(b) {
        ForeignPhase(cfg, m, t, ip, p);
      }
    }
  }

  lemma StayingLeads(m: Master, p: MasterState)
    requires InPhase(m, p)
    ensures Leads(m, p, m, p)
  {
  }

  lemma ForeignPhase(cfg: MasterConfig, m: Master, t: Clock, ip: u32, p: MasterState)
    requires Ready(cfg, m) && InPhase(m, p) && p != Down
    ensures Leads(m, p, AllGroups(cfg, m.(sh := m.sh.(conflictIp := ip)), 0, t, RequestFromOther), NextPhase(p, RequestFromOther))
  {
    hide LaidOut, AllGroups;
    AllPhase(cfg, m.(sh := m.sh.(conflictIp := ip)), t, RequestFromOther, p);
  }

  /** One step moves all groups together, exactly as the phase diagram says. */
  lemma StepPhase(cfg: MasterConfig, m: Master, input: Input, p: MasterState)
    requires Ready(cfg, m) && InPhase(m, p) && p != Down && Allowed(input)
    ensures Leads(m, p, Step(cfg, m, input), PhaseAfter(cfg, m, p, input))
  {
    hide LaidOut, Receive, Tick, RaisesAlarm, IsRequest, Responses.IsResponse;
    NotAFrame(cfg, m, input);
    if input.Timers? {
      TickPhase(cfg, m, input.t, p);
    } else if input.Frame? {
      ReceivePhase(cfg, m, input, p);
    }
  }

  lemma NotAFrame(cfg: MasterConfig, m: Master, input: Input)
    requires Ready(cfg, m)
    ensures !input.Frame? ==> !RaisesAlarm(cfg, m, input)
  {
  }

  // ---------------------------------------------------------------- silence after losing

  /** Groups that send nothing while this input is handled. */
  predicate Silent(s: GroupState, input: Input) {
    s == MasterListen || (s == MasterArbitration && input.Frame?)
  }

  lemma SilentAct(cfg: MasterConfig, gi: nat, input: Input, c: Scope, a: Act)
    requires GoodConfig(cfg) && gi < |cfg.groups| && LaidOut(cfg.groups[gi], c.g) && Possible(cfg, gi, input, c, a)
    requires Silent(c.g.state, input)
    ensures var r := Do(cfg, gi, input, c, a);
            && Log(gi, r.sh.trace) == Log(gi, c.sh.trace)
            && Silent(r.g.state, input) && (c.g.state == MasterListen ==> r.g.state == MasterListen)
  {
    hide LaidOut, D.After, PatchFrame, StoreData, Responses.ParseResponse, HaveReceivedFromAll, Log, EnterListen;
    match a
    case Others(sh) => LogIgnoresOthers(gi, c.sh.trace, sh.trace);
    case Fire(i, e) =>
      LogOfMore(gi, c.sh.trace, ConnectCb(gi, i));
      LogOfMore(gi, c.sh.trace, DisconnectCb(gi, i));
    case Event(e, t) =>
      var lost := ErrorReport(ArbitrationLost, c.sh.conflictIp);
      GoodSetting(cfg, gi);
      LaidOutShape(cfg.groups[gi], c.g);
      LogOfMore(gi, c.sh.trace, lost);
      LaidOutAt(cfg.groups[gi], c, MasterListen);
      ListenFacts(cfg.groups[gi], gi, At(Scope(Note(c.sh, lost), c.g), MasterListen));
    case _ =>
  }

  lemma {:induction false} SilentChain(cfg: MasterConfig, gi: nat, input: Input, c: Scope, acts: seq<Act>, c2: Scope)
    requires GoodConfig(cfg) && gi < |cfg.groups| && LaidOut(cfg.groups[gi], c.g) && Chain(cfg, gi, input, c, acts, c2)
    requires Silent(c.g.state, input)
    ensures Log(gi, c2.sh.trace) == Log(gi, c.sh.trace) && (c.g.state == MasterListen ==> c2.g.state == MasterListen)
    decreases |acts|
  {
    hide Do, Possible, LaidOut, Log;
    if acts != [] {
      SilentAct(cfg, gi, input, c, acts[0]);
      SilentChain(cfg, gi, input, Do(cfg, gi, input, c, acts[0]), acts[1..], c2);
    }
  }

  lemma SilentStep(cfg: MasterConfig, m: Master, input: Input, gi: nat)
    requires Ready(cfg, m) && gi < |m.groups| && Allowed(input) && Silent(m.groups[gi].state, input)
    ensures var r := Step(cfg, m, input);
            && Log(gi, r.sh.trace) == Log(gi, m.sh.trace)
            && (m.groups[gi].state == MasterListen ==> r.groups[gi].state == MasterListen)
  {
    hide LaidOut, Step, Log;
    var acts := StepIsActs(cfg, m, input, gi);
    SilentChain(cfg, gi, input, ScopeOf(m, gi), acts, ScopeOf(Step(cfg, m, input), gi));
  }

  /** A group in MASTER_LISTEN stays there and never sends again, whatever happens. */
  lemma {:induction false} NeverSendsAgain(cfg: MasterConfig, m: Master, inputs: seq<Input>, gi: nat)
    requires Ready(cfg, m) && (forall k :: 0 <= k < |inputs| ==> Allowed(inputs[k]))
    requires gi < |m.groups| && m.groups[gi].state == MasterListen
    ensures var r := Run(cfg, m, inputs);
            gi < |r.groups| && r.groups[gi].state == MasterListen && Log(gi, r.sh.trace) == Log(gi, m.sh.trace)
  {
    hide LaidOut, Step, Log;
    if inputs != [] {
      NeverSendsAgain(cfg, m, inputs[..|inputs| - 1], gi);
      SilentStep(cfg, Run(cfg, m, inputs[..|inputs| - 1]), inputs[|inputs| - 1], gi);
    }
  }

  // ---------------------------------------------------------------- winning before sending

  /** Input k is a poll at least the arbitration time after t0, on a clock of 32 bits, and no request
      of another master was handled before it. */
  predicate WonAt(cfg: MasterConfig, t0: Clock, inputs: seq<Input>, k: nat) {
    && k < |inputs| && inputs[k].Timers?
    && cfg.arbitrationTime * 1000 <= (inputs[k].t.now - t0.now) % 0x1_0000_0000 <= 0x7FFF_FFFF
    && (forall j :: 0 <= j < k ==> !IsForeignRequest(cfg, inputs[j]))
  }

  /** A master from initialisation on. */
  function RunFromInit(cfg: MasterConfig, parameterNo: u16, t0: Clock, inputs: seq<Input>): (r: Master)
    requires GoodConfig(cfg) && (forall k :: 0 <= k < |inputs| ==> Allowed(inputs[k]))
    ensures Ready(cfg, r)
  {
    Run(cfg, Init(cfg, parameterNo, t0), inputs)
  }

  /** Over every run the groups share one phase. In arbitration the timer is still the original one
      and no foreign request was handled. A master that ever sent a request had won before. */
  ghost predicate Phased(cfg: MasterConfig, t0: Clock, inputs: seq<Input>, m: Master, p: MasterState) {
    && InPhase(m, p) && p != Down
    && (p == Arbitration ==> m.sh.arbTimer == ArbitrationTimer(cfg, t0)
                             && forall j :: 0 <= j < |inputs| ==> !IsForeignRequest(cfg, inputs[j]))
    && ((exists k :: WonAt(cfg, t0, inputs, k))
        || (p != MasterState.Running && forall gi :: 0 <= gi < |m.groups| ==> Log(gi, m.sh.trace) == []))
  }

  lemma ArbitrationTimeIsOver(cfg: MasterConfig, t0: Clock, now: u32)
    ensures Expired(ArbitrationTimer(cfg, t0), now)
            <==> cfg.arbitrationTime * 1000 <= (now - t0.now) % 0x1_0000_0000 <= 0x7FFF_FFFF
  {
  }

  lemma WonStays(cfg: MasterConfig, t0: Clock, inputs: seq<Input>, k: nat)
    requires inputs != [] && WonAt(cfg, t0, inputs[..|inputs| - 1], k)
    ensures WonAt(cfg, t0, inputs, k)
  {
    hide IsForeignRequest, Expired;
  }

  lemma ArbitrationIsQuiet(cfg: MasterConfig, m: Master)
    requires MasterInv(cfg, m) && InPhase(m, Arbitration)
    ensures forall gi :: 0 <= gi < |m.groups| ==> Log(gi, m.sh.trace) == []
  {
    hide AtBoundary, LaidOut, Log;
    forall gi | 0 <= gi < |m.groups| ensures Log(gi, m.sh.trace) == [] {
      assert GroupInv(cfg, gi, ScopeOf(m, gi));
    }
  }

  lemma {:induction false} ArbitrationSafety(cfg: MasterConfig, parameterNo: u16, t0: Clock, inputs: seq<Input>)
    requires GoodConfig(cfg) && (forall k :: 0 <= k < |inputs| ==> Allowed(inputs[k]))
    ensures var m := RunFromInit(cfg, parameterNo, t0, inputs); Phased(cfg, t0, inputs, m, m.sh.masterState)
  {
    hide Init, Step, Log, MasterInv, Ready, IsForeignRequest, Expired;
    InitKeeps(cfg, parameterNo, t0);
    var m0 := Init(cfg, parameterNo, t0);
    if inputs == [] {
      BegunPhase(cfg, m0);
      ArbitrationIsQuiet(cfg, m0);
      assert RunFromInit(cfg, parameterNo, t0, inputs) == m0;
    } else {
      var rest := inputs[..|inputs| - 1];
      ArbitrationSafety(cfg, parameterNo, t0, rest);
      RunKeeps(cfg, m0, rest);
      PhasedStep(cfg, t0, rest, Run(cfg, m0, rest), Run(cfg, m0, rest).sh.masterState, inputs);
    }
  }

  lemma BegunPhase(cfg: MasterConfig, m: Master)
    requires Ready(cfg, m) && m.sh.masterState == Arbitration && m.sh.arbTimer.Running?
    requires forall gi :: 0 <= gi < |m.groups| ==> Begun(cfg, gi, ScopeOf(m, gi))
    ensures InPhase(m, Arbitration)
  {
    hide GroupInv, LaidOut;
    forall gi | 0 <= gi < |m.groups| ensures PhaseOf(m.groups[gi].state) == Arbitration {
      assert Begun(cfg, gi, ScopeOf(m, gi));
    }
  }

  lemma ForeignIsFrame(cfg: MasterConfig, input: Input)
    ensures IsForeignRequest(cfg, input) ==> input.Frame?
  {
  }

  lemma PhaseIsSilent(m: Master, p: MasterState, gi: nat, input: Input)
    requires InPhase(m, p) && gi < |m.groups| && (p == Standby || (p == Arbitration && input.Frame?))
    ensures Silent(m.groups[gi].state, input)
  {
  }

  lemma PhasedStep(cfg: MasterConfig, t0: Clock, rest: seq<Input>, m: Master, p: MasterState, inputs: seq<Input>)
    requires inputs != [] && rest == inputs[..|inputs| - 1] && Allowed(inputs[|inputs| - 1])
    requires MasterInv(cfg, m) && Phased(cfg, t0, rest, m, p)
    ensures Ready(cfg, m) && Phased(cfg, t0, inputs, Step(cfg, m, inputs[|inputs| - 1]),
                                    PhaseAfter(cfg, m, p, inputs[|inputs| - 1]))
  {
    hide Step, Log, RaisesAlarm, GroupInv, LaidOut, IsForeignRequest, Expired;
    var input := inputs[|inputs| - 1];
    var q, m2 := PhaseAfter(cfg, m, p, input), Step(cfg, m, input);
    StepPhase(cfg, m, input, p);
    StepKeeps(cfg, m, input);
    forall k | WonAt(cfg, t0, rest, k) ensures WonAt(cfg, t0, inputs, k) {
      WonStays(cfg, t0, inputs, k);
    }
    if q == Arbitration {
      ArbitrationIsQuiet(cfg, m2);
    } else if p == Arbitration && q == MasterState.Running {
      ArbitrationTimeIsOver(cfg, t0, input.t.now);
      assert WonAt(cfg, t0, inputs, |rest|);
    } else {
      if p == Arbitration {
        ArbitrationIsQuiet(cfg, m);
        ForeignIsFrame(cfg, input);
      }
      if p != MasterState.Running {
        forall gi | 0 <= gi < |m.groups| ensures Log(gi, m2.sh.trace) == Log(gi, m.sh.trace) {
          PhaseIsSilent(m, p, gi, input);
          SilentStep(cfg, m, input, gi);
        }
      }
    }
  }

  // ---------------------------------------------------------------- losing for good

  lemma {:induction false} RunOfMore(cfg: MasterConfig, m: Master, a: seq<Input>, b: seq<Input>)
    requires Ready(cfg, m) && (forall k :: 0 <= k < |a| ==> Allowed(a[k])) && (forall k :: 0 <= k < |b| ==> Allowed(b[k]))
    ensures forall k :: 0 <= k < |a + b| ==> Allowed((a + b)[k])
    ensures Run(cfg, m, a + b) == Run(cfg, Run(cfg, m, a), b)
    decreases |b|
  {
    hide Step, Ready, Allowed;
    if b == [] {
      assert a + b == a;
    } else {
      RunOfMore(cfg, m, a, b[..|b| - 1]);
      assert (a + b)[..|a + b| - 1] == a + b[..|b| - 1];
    }
  }

  /** A request of another master in arbitration, or a response that reports one while running. */
  predicate Loses(cfg: MasterConfig, m: Master, input: Input)
    requires Ready(cfg, m)
  {
    || (m.sh.masterState == Arbitration && IsForeignRequest(cfg, input))
    || (m.sh.masterState == MasterState.Running && RaisesAlarm(cfg, m, input))
  }

  /** Over every run: once the master has lost, it never sends a request again in any group,
      whatever happens, and stays on standby. */
  lemma LoserIsSilent(cfg: MasterConfig, parameterNo: u16, t0: Clock, before: seq<Input>, input: Input, after: seq<Input>, gi: nat)
    requires GoodConfig(cfg) && gi < |cfg.groups| && Allowed(input)
    requires (forall k :: 0 <= k < |before| ==> Allowed(before[k])) && (forall k :: 0 <= k < |after| ==> Allowed(after[k]))
    requires Loses(cfg, RunFromInit(cfg, parameterNo, t0, before), input)
    ensures forall k :: 0 <= k < |before + [input] + after| ==> Allowed((before + [input] + after)[k])
    ensures var lost := Step(cfg, RunFromInit(cfg, parameterNo, t0, before), input);
            var r := RunFromInit(cfg, parameterNo, t0, before + [input] + after);
            && r.groups[gi].state == MasterListen && r.sh.masterState == Standby
            && Log(gi, r.sh.trace) == Log(gi, lost.sh.trace)
  {
    hide Init, Step, Log, Allowed, RaisesAlarm, IsForeignRequest, Expired, Phased, LaidOut;
    var m := RunFromInit(cfg, parameterNo, t0, before);
    ArbitrationSafety(cfg, parameterNo, t0, before);
    PhaseOfRun(cfg, t0, before, m);
    StepPhase(cfg, m, input, m.sh.masterState);
    ForeignIsFrame(cfg, input);
    var lost := Step(cfg, m, input);
    InStandby(lost, gi);
    NeverSendsAgain(cfg, lost, after, gi);
    StandbyStays(cfg, lost, after);
    assert (before + [input])[..|before + [input]| - 1] == before;
    RunOfMore(cfg, Init(cfg, parameterNo, t0), before + [input], after);
  }

  lemma PhaseOfRun(cfg: MasterConfig, t0: Clock, inputs: seq<Input>, m: Master)
    requires Phased(cfg, t0, inputs, m, m.sh.masterState)
    ensures InPhase(m, m.sh.masterState) && m.sh.masterState != Down
  {
  }

  lemma InStandby(m: Master, gi: nat)
    requires InPhase(m, Standby) && gi < |m.groups|
    ensures m.groups[gi].state == MasterListen
  {
  }

  lemma {:induction false} StandbyStays(cfg: MasterConfig, m: Master, inputs: seq<Input>)
    requires Ready(cfg, m) && (forall k :: 0 <= k < |inputs| ==> Allowed(inputs[k])) && InPhase(m, Standby)
    ensures InPhase(Run(cfg, m, inputs), Standby)
  {
    hide Step, Ready, Allowed, RaisesAlarm, IsForeignRequest, Expired, LaidOut;
    if inputs != [] {
      StandbyStays(cfg, m, inputs[..|inputs| - 1]);
      StepPhase(cfg, Run(cfg, m, inputs[..|inputs| - 1]), inputs[|inputs| - 1], Standby);
    }
  }
}
