/** A step of the master as one group sees it: a short list of acts, each with the condition
    under which the source performs it. What is proved of every act then holds of every run. */
module GroupRuns {
  import opened Words
  import opened Config
  import opened Layout
  import opened Timer
  import opened Statistics
  import opened Frames
  import opened Responses
  import opened GroupModel
  import opened MasterModel
  import D = DeviceModel

  datatype Act =
    | Event(e: GroupEvent, t: Clock)
    | ResponseTimeout(t: Clock)
    | ScanTimeout(t: Clock)
    | Fire(i: nat, de: D.DeviceEvent)
    | Touch(i: nat, d: D.Device)
    | Store(i: nat)
    | Outputs(ry: seq<byte>, rww: seq<byte>)
    | Status(unitInfo: u16)
    | Others(sh: Shared)

  // ---------------------------------------------------------------- shared fields

  /** An output that belongs to the cyclic traffic of a group. */
  predicate Mine(gi: nat, o: Output) {
    match o
    case Sent(g, _, _) => g == gi
    case LinkScanCb(g, _) => g == gi
    case ConnectCb(g, _) => g == gi
    case DisconnectCb(g, _) => g == gi
    case _ => false
  }

  /** Shared fields as another group, or a report, may leave them. */
  predicate ChangedByOthers(gi: nat, sh: Shared, sh': Shared) {
    && sh.parameterNo == sh'.parameterNo
    && sh.unitInfo == sh'.unitInfo
    && |sh.trace| <= |sh'.trace|
    && sh'.trace[..|sh.trace|] == sh.trace
    && (forall k :: |sh.trace| <= k < |sh'.trace| ==> !Mine(gi, sh'.trace[k]))
  }

  lemma OthersTransitive(gi: nat, a: Shared, b: Shared, c: Shared)
    requires ChangedByOthers(gi, a, b) && ChangedByOthers(gi, b, c)
    ensures ChangedByOthers(gi, a, c)
  {
    assert c.trace[..|a.trace|] == c.trace[..|b.trace|][..|a.trace|];
    forall k | |a.trace| <= k < |c.trace| ensures !Mine(gi, c.trace[k]) {
      if k < |b.trace| {
        assert c.trace[k] == c.trace[..|b.trace|][k] == b.trace[k];
      }
    }
  }

  lemma NoteIsOthers(gi: nat, sh: Shared, o: Output)
    requires !Mine(gi, o)
    ensures ChangedByOthers(gi, sh, Note(sh, o))
  {
  }

  lemma OthersReflexive(gi: nat, sh: Shared)
    ensures ChangedByOthers(gi, sh, sh)
  {
  }

  lemma DeviceEventIsOthers(gi: nat, setting: GroupSetting, h: nat, c: Scope, i: nat, e: D.DeviceEvent)
    requires Sized(setting, c.g) && ValidGroupSetting(setting) && i < |c.g.devices| && h != gi
    requires D.Patches(c.g.devices[i].state, e) ==> LaidOut(setting, c.g)
    ensures ChangedByOthers(gi, c.sh, DeviceEvent(setting, h, c, i, e).sh)
    ensures DeviceEvent(setting, h, c, i, e).sh == c.sh.(trace := DeviceEvent(setting, h, c, i, e).sh.trace)
  {
    hide D.After, PatchFrame, LaidOut;
  }

  lemma DeliverIsOthers(gi: nat, setting: GroupSetting, h: nat, c: Scope, k: nat, s: Signal)
    requires Sized(setting, c.g) && ValidGroupSetting(setting) && k <= |c.g.devices|
    requires Harmless(s) || (LaidOut(setting, c.g) && KeepsLayout(s))
    requires h != gi
    ensures ChangedByOthers(gi, c.sh, Deliver(setting, h, c, k, s).sh)
    ensures Deliver(setting, h, c, k, s).sh == c.sh.(trace := Deliver(setting, h, c, k, s).sh.trace)
    decreases |c.g.devices| - k
  {
    hide DeviceEvent, LaidOut, ChangedByOthers;
    if k == |c.g.devices| {
      OthersReflexive(gi, c.sh);
    } else {
      var e := EventFor(s, c.g.devices[k]);
      var c1 := DeviceEvent(setting, h, c, k, e);
      DeviceEventIsOthers(gi, setting, h, c, k, e);
      DeliverIsOthers(gi, setting, h, c1, k + 1, s);
      OthersTransitive(gi, c.sh, c1.sh, Deliver(setting, h, c1, k + 1, s).sh);
    }
  }

  lemma BeginScanIsOthers(gi: nat, setting: GroupSetting, h: nat, c: Scope, t: Clock)
    requires LaidOut(setting, c.g) && ValidGroupSetting(setting) && h != gi
    ensures ChangedByOthers(gi, c.sh, BeginScan(setting, h, c, t).sh)
  {
    var c1 := Deliver(setting, h, c, 0, ScanSignal);
    DeliverIsOthers(gi, setting, h, c, 0, ScanSignal);
    OthersTransitive(gi, c.sh, c1.sh, BeginScan(setting, h, c, t).sh);
  }

  lemma FinishScanIsOthers(gi: nat, setting: GroupSetting, h: nat, c: Scope, e: D.DeviceEvent, success: bool)
    requires LaidOut(setting, c.g) && ValidGroupSetting(setting) && h != gi
    requires e == D.GroupTimeout || e == D.GroupAllResponded
    ensures ChangedByOthers(gi, c.sh, FinishScan(setting, h, c, e, success).sh)
  {
    var c1 := Deliver(setting, h, c, 0, ToAll(e));
    var sh2 := Note(c1.sh, LinkScanCb(h, success));
    DeliverIsOthers(gi, setting, h, c, 0, ToAll(e));
    OthersTransitive(gi, c.sh, c1.sh, sh2);
    OthersTransitive(gi, c.sh, sh2, SetMasterState(sh2, MasterState.Running));
  }

  lemma EnterListenIsOthers(gi: nat, setting: GroupSetting, h: nat, c: Scope)
    requires Sized(setting, c.g) && ValidGroupSetting(setting) && h != gi
    ensures ChangedByOthers(gi, c.sh, EnterListen(setting, h, c).sh)
  {
    var c1 := Scope(c.sh.(arbTimer := Stopped), c.g);
    DeliverIsOthers(gi, setting, h, c1, 0, ToAll(D.GroupStandby));
    var c2 := Deliver(setting, h, c1, 0, ToAll(D.GroupStandby));
    OthersTransitive(gi, c.sh, c1.sh, c2.sh);
    OthersTransitive(gi, c.sh, c2.sh, SetMasterState(c2.sh, Standby));
  }

  lemma ScanEndIsOthers(gi: nat, setting: GroupSetting, h: nat, c: Scope, t: Clock)
    requires LaidOut(setting, c.g) && ValidGroupSetting(setting) && h != gi
    ensures ChangedByOthers(gi, c.sh, CompleteScan(setting, h, c, t).sh)
    ensures ChangedByOthers(gi, c.sh, TimeOutScan(setting, h, c, t).sh)
  {
    hide FinishScan, BeginScan;
    var c1 := At(Scope(c.sh, c.g.(responseTimer := Stopped)), LinkScanComp);
    FinishScanIsOthers(gi, setting, h, c1, D.GroupAllResponded, true);
    var c2 := FinishScan(setting, h, c1, D.GroupAllResponded, true);
    BeginScanIsOthers(gi, setting, h, At(c2, LinkScan), t);
    OthersTransitive(gi, c.sh, c2.sh, BeginScan(setting, h, At(c2, LinkScan), t).sh);
    var d1 := At(c, LinkScanComp);
    FinishScanIsOthers(gi, setting, h, d1, D.GroupTimeout, false);
    var d2 := FinishScan(setting, h, d1, D.GroupTimeout, false);
    BeginScanIsOthers(gi, setting, h, At(d2, LinkScan), t);
    OthersTransitive(gi, c.sh, d2.sh, BeginScan(setting, h, At(d2, LinkScan), t).sh);
  }

  /** Whatever happens to another group is, for this one, a change of shared fields only. */
  lemma EventIsOthers(gi: nat, cfg: MasterConfig, setting: GroupSetting, h: nat, c: Scope, t: Clock, e: GroupEvent)
    requires LaidOut(setting, c.g) && ValidGroupSetting(setting) && h != gi
    requires e != Startup && e != NewConfig
    ensures ChangedByOthers(gi, c.sh, GroupEventStep(cfg, setting, h, c, t, e).sh)
  {
    hide EnterListen, BeginScan, CompleteScan, TimeOutScan;
    ScanEndIsOthers(gi, setting, h, c, t);
    EnterListenIsOthers(gi, setting, h, At(c, MasterListen));
    var lost := Note(c.sh, ErrorReport(ArbitrationLost, c.sh.conflictIp));
    EnterListenIsOthers(gi, setting, h, At(Scope(lost, c.g), MasterListen));
    NoteIsOthers(gi, c.sh, ErrorReport(ArbitrationLost, c.sh.conflictIp));
    OthersTransitive(gi, c.sh, lost, EnterListen(setting, h, At(Scope(lost, c.g), MasterListen)).sh);
    BeginScanIsOthers(gi, setting, h, At(c, LinkScan), t);
    var running := SetMasterState(c.sh, MasterState.Running);
    BeginScanIsOthers(gi, setting, h, At(Scope(running, c.g), LinkScan), t);
    OthersTransitive(gi, c.sh, running, BeginScan(setting, h, At(Scope(running, c.g), LinkScan), t).sh);
  }

  // ---------------------------------------------------------------- acts

  /** The response in an input frame. */
  predicate IsReply(input: Input) {
    input.Frame? && ParseResponse(input.bytes, input.ip).Parsed?
  }

  function Reply(input: Input): Response
    requires IsReply(input)
  {
    ParseResponse(input.bytes, input.ip).r
  }

  /** A response of device i that the master takes at its word: from the configured address, of
      the configured size, and in step with the group when the device is connected. */
  predicate Accepts(setting: GroupSetting, gi: nat, g: Group, input: Input, i: nat) {
    && IsReply(input)
    && i < |setting.devices| == |g.devices|
    && Reply(input).groupNo == gi + 1
    && setting.devices[i].slaveId == input.ip
    && g.devices[i].enabled
    && (g.devices[i].bit ==> Reply(input).seqNo == g.seqNo)
    && Reply(input).WellFormed()
    && Reply(input).Stations() == setting.devices[i].stations
  }

  /** A second answer: its number is that of the last response kept, and the device has left LISTEN. */
  predicate Repeats(d: D.Device, r: Response) {
    d.latest.received && r.seqNo == d.latest.seqNo && d.state != D.Listen
  }

  /** An answer of an enabled device, no second one, and in step with the group when it is connected. */
  predicate IsUsable(d: D.Device, seqNo: u16, r: Response) {
    d.enabled && !Repeats(d, r) && (d.bit ==> r.seqNo == seqNo)
  }

  /** A second answer of device i, from its configured address. */
  predicate Duplicates(setting: GroupSetting, gi: nat, g: Group, input: Input, i: nat) {
    && IsReply(input)
    && i < |setting.devices| == |g.devices|
    && Reply(input).groupNo == gi + 1
    && setting.devices[i].slaveId == input.ip
    && g.devices[i].enabled && Repeats(g.devices[i], Reply(input))
  }

  /** A device record changed without an event: its protocol state stays. */
  predicate SameCore(d: D.Device, d': D.Device) {
    && d'.state == d.state && d'.bit == d.bit && d'.timeoutCount == d.timeoutCount && d'.station == d.station
  }

  predicate SameTallies(d: D.Device, d': D.Device) {
    && d'.counters.connects == d.counters.connects
    && d'.counters.disconnects == d.counters.disconnects
    && d'.counters.timeouts == d.counters.timeouts
  }

  predicate IsForeignRequest(cfg: MasterConfig, input: Input) {
    input.Frame? && input.ip != cfg.masterId && !IsResponse(input.bytes) && IsRequest(input.bytes)
  }

  predicate HasTime(input: Input, t: Clock) {
    (input.Timers? || input.Frame?) && input.t == t
  }

  /** When the source performs an act while it handles an input. */
  predicate Possible(cfg: MasterConfig, gi: nat, input: Input, c: Scope, a: Act)
    requires gi < |cfg.groups|
  {
    match a
    case Event(e, t) =>
      && HasTime(input, t)
      && (|| (e == ArbitrationDone && input.Timers?)
          || (e == RequestFromOther && IsForeignRequest(cfg, input))
          || (e == DuplicationAlarm && input.Frame?)
          || (e == LinkScanComplete && input.Frame? && HaveReceivedFromAll(c.g)))
    case ResponseTimeout(t) => input.Timers? && input.t == t && Expired(c.g.responseTimer, t.now)
    case ScanTimeout(t) =>
      input.Timers? && input.t == t && Expired(c.g.scanTimer, t.now) && !Expired(c.g.responseTimer, t.now)
    case Fire(i, e) =>
      && input.Frame? && i < |c.g.devices|
      && (|| (e == D.SlaveDuplication && Duplicates(cfg.groups[gi], gi, c.g, input, i))
          || (e == D.ReceiveOk && Accepts(cfg.groups[gi], gi, c.g, input, i) && Reply(input).endCode == ENDCODE_SUCCESS)
          || (e == D.ReceiveError && Accepts(cfg.groups[gi], gi, c.g, input, i) && Reply(input).endCode != ENDCODE_SUCCESS))
    case Touch(i, d) =>
      && i < |c.g.devices|
      && SameCore(c.g.devices[i], d)
      && ((SameTallies(c.g.devices[i], d) && d.counters.sent == c.g.devices[i].counters.sent) || input.ClearStatistics?)
      && (d.enabled == c.g.devices[i].enabled || input == SetEnabled(gi, i, d.enabled))
      && (d.forced == c.g.devices[i].forced || input == Force(gi, i, d.forced))
    case Store(i) => Accepts(cfg.groups[gi], gi, c.g, input, i)
    case Outputs(ry, rww) => |ry| == BITS && |rww| == WORDS && input == WriteOutputs(gi, ry, rww)
    case Status(u) => input.SetStatus? && u == UnitInfo(cfg.protocolVer, input.running, input.stoppedByUser)
    case Others(sh) => ChangedByOthers(gi, c.sh, sh)
  }

  /** What an act does to the group and the shared fields. */
  function Do(cfg: MasterConfig, gi: nat, input: Input, c: Scope, a: Act): (r: Scope)
    requires GoodConfig(cfg) && gi < |cfg.groups| && LaidOut(cfg.groups[gi], c.g)
    requires Possible(cfg, gi, input, c, a)
    ensures LaidOut(cfg.groups[gi], r.g)
  {
    hide GroupEventStep, DeviceEvent, StoreData, HaveReceivedFromAll, ParseResponse;
    GoodSetting(cfg, gi);
    var setting := cfg.groups[gi];
    match a
    case Event(e, t) => GroupEventStep(cfg, setting, gi, c, t, e)
    case ResponseTimeout(t) =>
      GroupEventStep(cfg, setting, gi, c.(g := c.g.(responseTimer := Stopped)), t, LinkScanTimeout)
    case ScanTimeout(t) =>
      GroupEventStep(cfg, setting, gi, c.(g := c.g.(scanTimer := Stopped)), t, LinkScanStart)
    case Fire(i, e) => DeviceEvent(setting, gi, c, i, e)
    case Touch(i, d) => c.(g := PutDevice(c.g, i, d))
    case Store(i) => c.(g := StoreData(setting, c.g, i, Reply(input), c.g.devices[i].bit))
    case Outputs(ry, rww) => c.(g := c.g.(ry := ry, rww := rww))
    case Status(u) => c.(sh := c.sh.(unitInfo := u))
    case Others(sh) => c.(sh := sh)
  }

  /** Acts performed one after the other lead from c to c2. */
  ghost predicate Chain(cfg: MasterConfig, gi: nat, input: Input, c: Scope, acts: seq<Act>, c2: Scope)
    requires GoodConfig(cfg) && gi < |cfg.groups| && LaidOut(cfg.groups[gi], c.g)
    decreases |acts|
  {
    if acts == [] then c == c2
    else Possible(cfg, gi, input, c, acts[0])
         && Chain(cfg, gi, input, Do(cfg, gi, input, c, acts[0]), acts[1..], c2)
  }

  lemma One(cfg: MasterConfig, gi: nat, input: Input, c: Scope, a: Act)
    requires GoodConfig(cfg) && gi < |cfg.groups| && LaidOut(cfg.groups[gi], c.g)
    requires Possible(cfg, gi, input, c, a)
    ensures Chain(cfg, gi, input, c, [a], Do(cfg, gi, input, c, a))
  {
    hide Do, Possible;
    assert [a][1..] == [];
  }

  lemma {:induction false} Join(cfg: MasterConfig, gi: nat, input: Input, c: Scope, a: seq<Act>, c1: Scope, b: seq<Act>, c2: Scope)
    requires GoodConfig(cfg) && gi < |cfg.groups| && LaidOut(cfg.groups[gi], c.g) && LaidOut(cfg.groups[gi], c1.g)
    requires Chain(cfg, gi, input, c, a, c1) && Chain(cfg, gi, input, c1, b, c2)
    ensures Chain(cfg, gi, input, c, a + b, c2)
    decreases |a|
  {
    hide Do, Possible;
    if a == [] {
      assert a + b == b;
    } else {
      Join(cfg, gi, input, Do(cfg, gi, input, c, a[0]), a[1..], c1, b, c2);
      assert (a + b)[1..] == a[1..] + b;
    }
  }

  // ---------------------------------------------------------------- every step is a chain of acts

  /** What group gi sees of the step from m to m2. */
  ghost predicate Sees(cfg: MasterConfig, gi: nat, input: Input, m: Master, acts: seq<Act>, m2: Master)
    requires Ready(cfg, m) && Ready(cfg, m2) && gi < |m.groups|
  {
    Chain(cfg, gi, input, ScopeOf(m, gi), acts, ScopeOf(m2, gi))
  }

  lemma Then(cfg: MasterConfig, gi: nat, input: Input, m: Master, a: seq<Act>, m1: Master, b: seq<Act>, m2: Master)
    requires Ready(cfg, m) && Ready(cfg, m1) && Ready(cfg, m2) && gi < |m.groups|
    requires Sees(cfg, gi, input, m, a, m1) && Sees(cfg, gi, input, m1, b, m2)
    ensures Sees(cfg, gi, input, m, a + b, m2)
  {
    Join(cfg, gi, input, ScopeOf(m, gi), a, ScopeOf(m1, gi), b, ScopeOf(m2, gi));
  }

  lemma SharedOnly(cfg: MasterConfig, gi: nat, input: Input, m: Master, m2: Master)
    requires Ready(cfg, m) && Ready(cfg, m2) && gi < |m.groups|
    requires m2.groups[gi] == m.groups[gi] && ChangedByOthers(gi, m.sh, m2.sh)
    ensures Sees(cfg, gi, input, m, [Others(m2.sh)], m2)
  {
    One(cfg, gi, input, ScopeOf(m, gi), Others(m2.sh));
  }

  lemma OneGroupActs(cfg: MasterConfig, m: Master, h: nat, t: Clock, e: GroupEvent, gi: nat, input: Input) returns (acts: seq<Act>)
    requires Ready(cfg, m) && h < |m.groups| && gi < |m.groups| && e != Startup && e != NewConfig
    requires h == gi ==> Possible(cfg, gi, input, ScopeOf(m, gi), Event(e, t))
    ensures Sees(cfg, gi, input, m, acts, OneGroup(cfg, m, h, t, e))
  {
    hide GroupEventStep, LaidOut;
    GoodSetting(cfg, h);
    if h == gi {
      acts := [Event(e, t)];
      One(cfg, gi, input, ScopeOf(m, gi), Event(e, t));
    } else {
      var m2 := OneGroup(cfg, m, h, t, e);
      EventIsOthers(gi, cfg, cfg.groups[h], h, ScopeOf(m, h), t, e);
      acts := [Others(m2.sh)];
      SharedOnly(cfg, gi, input, m, m2);
    }
  }

  lemma {:induction false} AllGroupsActs(cfg: MasterConfig, m: Master, k: nat, t: Clock, e: GroupEvent, gi: nat, input: Input)
    returns (acts: seq<Act>)
    requires Ready(cfg, m) && k <= |m.groups| && gi < |m.groups| && e != Startup && e != NewConfig && e != LinkScanComplete
    requires forall c :: Possible(cfg, gi, input, c, Event(e, t))
    ensures Sees(cfg, gi, input, m, acts, AllGroups(cfg, m, k, t, e))
    decreases |m.groups| - k
  {
    hide OneGroup, LaidOut, Possible;
    if k == |m.groups| {
      acts := [];
    } else {
      var m1 := OneGroup(cfg, m, k, t, e);
      var a := OneGroupActs(cfg, m, k, t, e, gi, input);
      var b := AllGroupsActs(cfg, m1, k + 1, t, e, gi, input);
      Then(cfg, gi, input, m, a, m1, b, AllGroups(cfg, m1, k + 1, t, e));
      acts := a + b;
    }
  }

  lemma ResponseTimerActs(cfg: MasterConfig, m: Master, h: nat, t: Clock, gi: nat, input: Input) returns (acts: seq<Act>)
    requires Ready(cfg, m) && h < |m.groups| && gi < |m.groups| && input == Timers(t)
    ensures Sees(cfg, gi, input, m, acts, AfterResponseTimer(cfg, m, h, t))
  {
    hide GroupEventStep;
    var m2 := AfterResponseTimer(cfg, m, h, t);
    acts := [];
    if Expired(m.groups[h].responseTimer, t.now) {
      GoodSetting(cfg, h);
      if h == gi {
        acts := [ResponseTimeout(t)];
        One(cfg, gi, input, ScopeOf(m, gi), ResponseTimeout(t));
      } else {
        EventIsOthers(gi, cfg, cfg.groups[h], h, Scope(m.sh, m.groups[h].(responseTimer := Stopped)), t, LinkScanTimeout);
        acts := [Others(m2.sh)];
        SharedOnly(cfg, gi, input, m, m2);
      }
    }
  }

  /** Once a poll has dealt with the response timer, that timer has not expired: either it did not
      before, or it was stopped or started afresh. */
  lemma ResponseTimerSettled(cfg: MasterConfig, m: Master, h: nat, t: Clock)
    requires Ready(cfg, m) && h < |m.groups|
    ensures !Expired(AfterResponseTimer(cfg, m, h, t).groups[h].responseTimer, t.now)
  {
    hide Deliver, FinishScan, LaidOut, EnterListen, FallToListen, EncodeRequest;
    assert ValidGroup(cfg.groups[h], cfg.masterId);
    GoodSetting(cfg, h);
    LaidOutApart(cfg, m, h);
  }

  lemma LaidOutApart(cfg: MasterConfig, m: Master, h: nat)
    requires Ready(cfg, m) && h < |m.groups|
    ensures LaidOut(cfg.groups[h], m.groups[h].(responseTimer := Stopped)) && LaidOut(cfg.groups[h], m.groups[h].(scanTimer := Stopped))
  {
  }

  lemma ScanTimerActs(cfg: MasterConfig, m: Master, h: nat, t: Clock, gi: nat, input: Input) returns (acts: seq<Act>)
    requires Ready(cfg, m) && h < |m.groups| && gi < |m.groups| && input == Timers(t)
    requires !Expired(m.groups[h].responseTimer, t.now)
    ensures Sees(cfg, gi, input, m, acts, AfterScanTimer(cfg, m, h, t))
  {
    hide GroupEventStep;
    var m2 := AfterScanTimer(cfg, m, h, t);
    acts := [];
    if Expired(m.groups[h].scanTimer, t.now) {
      GoodSetting(cfg, h);
      if h == gi {
        acts := [ScanTimeout(t)];
        One(cfg, gi, input, ScopeOf(m, gi), ScanTimeout(t));
      } else {
        EventIsOthers(gi, cfg, cfg.groups[h], h, Scope(m.sh, m.groups[h].(scanTimer := Stopped)), t, LinkScanStart);
        acts := [Others(m2.sh)];
        SharedOnly(cfg, gi, input, m, m2);
      }
    }
  }

  lemma {:induction false} MonitorGroupsActs(cfg: MasterConfig, m: Master, k: nat, t: Clock, gi: nat, input: Input)
    returns (acts: seq<Act>)
    requires Ready(cfg, m) && k <= |m.groups| && gi < |m.groups| && input == Timers(t)
    ensures Sees(cfg, gi, input, m, acts, MonitorGroups(cfg, m, k, t))
    decreases |m.groups| - k
  {
    hide AfterResponseTimer, AfterScanTimer, OneGroup, LaidOut, Expired;
    if k == |m.groups| {
      acts := [];
    } else {
      var m1 := AfterResponseTimer(cfg, m, k, t);
      var m2 := AfterScanTimer(cfg, m1, k, t);
      var m3 := MonitorGroups(cfg, m2, k + 1, t);
      var a := ResponseTimerActs(cfg, m, k, t, gi, input);
      ResponseTimerSettled(cfg, m, k, t);
      var b := ScanTimerActs(cfg, m1, k, t, gi, input);
      var d := MonitorGroupsActs(cfg, m2, k + 1, t, gi, input);
      Then(cfg, gi, input, m, a, m1, b, m2);
      Then(cfg, gi, input, m, a + b, m2, d, m3);
      acts := a + b + d;
    }
  }

  lemma TickActs(cfg: MasterConfig, m: Master, t: Clock, gi: nat, input: Input) returns (acts: seq<Act>)
    requires Ready(cfg, m) && gi < |m.groups| && input == Timers(t)
    ensures Sees(cfg, gi, input, m, acts, Tick(cfg, m, t))
  {
    hide LaidOut, AllGroups, MonitorGroups;
    var m1 := MonitorArbitration(cfg, m, t);
    var a: seq<Act> := [];
    if Expired(m.sh.arbTimer, t.now) {
      var m0 := m.(sh := m.sh.(arbTimer := Stopped));
      SharedOnly(cfg, gi, input, m, m0);
      var b := AllGroupsActs(cfg, m0, 0, t, ArbitrationDone, gi, input);
      Then(cfg, gi, input, m, [Others(m0.sh)], m0, b, m1);
      a := [Others(m0.sh)] + b;
    }
    var d := MonitorGroupsActs(cfg, m1, 0, t, gi, input);
    Then(cfg, gi, input, m, a, m1, d, Tick(cfg, m, t));
    acts := a + d;
  }

  lemma WithDeviceActs(cfg: MasterConfig, m: Master, h: nat, i: nat, d: D.Device, gi: nat, input: Input) returns (acts: seq<Act>)
    requires Ready(cfg, m) && h < |m.groups| && i < |m.groups[h].devices| && gi < |m.groups|
    requires d.station == m.groups[h].devices[i].station
    requires h == gi ==> Possible(cfg, gi, input, ScopeOf(m, gi), Touch(i, d))
    ensures Sees(cfg, gi, input, m, acts, WithDevice(cfg, m, h, i, d))
  {
    hide LaidOut;
    acts := [];
    if h == gi {
      acts := [Touch(i, d)];
      One(cfg, gi, input, ScopeOf(m, gi), Touch(i, d));
    }
  }

  lemma OneDeviceActs(cfg: MasterConfig, m: Master, h: nat, i: nat, e: D.DeviceEvent, gi: nat, input: Input) returns (acts: seq<Act>)
    requires Ready(cfg, m) && h < |m.groups| && i < |m.groups[h].devices| && gi < |m.groups| && e != D.GroupStartup
    requires h == gi ==> Possible(cfg, gi, input, ScopeOf(m, gi), Fire(i, e))
    ensures Sees(cfg, gi, input, m, acts, OneDevice(cfg, m, h, i, e))
  {
    hide LaidOut, D.After, PatchFrame;
    if h == gi {
      acts := [Fire(i, e)];
      One(cfg, gi, input, ScopeOf(m, gi), Fire(i, e));
    } else {
      var m2 := OneDevice(cfg, m, h, i, e);
      acts := [Others(m2.sh)];
      SharedOnly(cfg, gi, input, m, m2);
    }
  }

  /** Reports to the application are nobody's cyclic traffic. */
  lemma ReportsAreOthers(gi: nat, sh: Shared, h: nat, i: nat, latest: D.FrameValues, r: Response, ip: u32)
    ensures ChangedByOthers(gi, sh, ReportComplaint(sh, r.endCode, ip))
    ensures ChangedByOthers(gi, sh, ReportChanges(sh, h, i, latest, r))
  {
  }

  /** Device i with what is kept of the response, the data not yet stored. */
  function Recorded(cfg: MasterConfig, m: Master, t: Clock, h: nat, i: nat, r: Response): D.Device
    requires h < |m.groups| && i < |m.groups[h].devices|
  {
    var d := m.groups[h].devices[i];
    Stored(if IsSlaveAlarm(r.endCode) then CountAlarm(d) else d, cfg.maxSamples, r, Delta(t.now, m.groups[h].scanStart))
  }

  lemma KeepResponseParts(cfg: MasterConfig, m: Master, t: Clock, h: nat, i: nat, r: Response)
    requires Ready(cfg, m) && h < |m.groups| && ValidGroupSetting(cfg.groups[h])
    requires i < |m.groups[h].devices| && i < |cfg.groups[h].devices|
    requires r.WellFormed() && r.Stations() == cfg.groups[h].devices[i].stations
    ensures var m1 := WithDevice(cfg, m, h, i, Recorded(cfg, m, t, h, i, r));
            KeepResponse(cfg, m, t, h, i, r)
            == m1.(sh := ReportChanges(m.sh, h, i, m.groups[h].devices[i].latest, r),
                   groups := m1.groups[h := StoreData(cfg.groups[h], m1.groups[h], i, r, m.groups[h].devices[i].bit)])
  {
    hide StoreData, ReportChanges, LaidOut;
  }

  lemma KeepResponseActs(cfg: MasterConfig, m: Master, t: Clock, h: nat, i: nat, r: Response, gi: nat, input: Input)
    returns (acts: seq<Act>)
    requires Ready(cfg, m) && h < |m.groups| && i < |m.groups[h].devices| && gi < |m.groups|
    requires r.WellFormed() && r.Stations() == cfg.groups[h].devices[i].stations
    requires IsReply(input) && Reply(input) == r
    requires h == gi ==> Accepts(cfg.groups[h], h, m.groups[h], input, i)
    ensures Sees(cfg, gi, input, m, acts, KeepResponse(cfg, m, t, h, i, r))
    ensures h == gi ==> Accepts(cfg.groups[h], h, KeepResponse(cfg, m, t, h, i, r).groups[h], input, i)
  {
    hide LaidOut, ReportChanges, KeepResponse, Sees, ChangedByOthers, ParseResponse, StoreData, Update;
    var q := KeepResponse(cfg, m, t, h, i, r);
    var d := Recorded(cfg, m, t, h, i, r);
    var m1 := WithDevice(cfg, m, h, i, d);
    GoodSetting(cfg, h);
    Shape(cfg, m, h);
    KeepResponseParts(cfg, m, t, h, i, r);
    acts := WithDeviceActs(cfg, m, h, i, d, gi, input);
    ReportsAreOthers(gi, m.sh, h, i, m.groups[h].devices[i].latest, r, 0);
    if h == gi {
      var m2 := q.(sh := m.sh);
      StoreActs(cfg, m1, m2, gi, i, input);
      Then(cfg, gi, input, m, acts, m1, [Store(i)], m2);
      acts := acts + [Store(i)];
      SharedOnly(cfg, gi, input, m2, q);
      Then(cfg, gi, input, m, acts, m2, [Others(q.sh)], q);
    } else {
      SharedOnly(cfg, gi, input, m1, q);
      Then(cfg, gi, input, m, acts, m1, [Others(q.sh)], q);
    }
    acts := acts + [Others(q.sh)];
  }

  lemma StoreActs(cfg: MasterConfig, m: Master, m2: Master, gi: nat, i: nat, input: Input)
    requires Ready(cfg, m) && Ready(cfg, m2) && gi < |m.groups|
    requires Accepts(cfg.groups[gi], gi, m.groups[gi], input, i)
    requires m2.sh == m.sh && ValidGroupSetting(cfg.groups[gi])
    requires m2.groups[gi] == StoreData(cfg.groups[gi], m.groups[gi], i, Reply(input), m.groups[gi].devices[i].bit)
    ensures Sees(cfg, gi, input, m, [Store(i)], m2)
    ensures Accepts(cfg.groups[gi], gi, m2.groups[gi], input, i)
  {
    hide LaidOut, StoreData;
    One(cfg, gi, input, ScopeOf(m, gi), Store(i));
  }

  lemma Shape(cfg: MasterConfig, m: Master, h: nat)
    requires Ready(cfg, m) && h < |m.groups|
    ensures |m.groups[h].devices| == |cfg.groups[h].devices|
  {
  }

  lemma AnsweredActs(cfg: MasterConfig, m: Master, t: Clock, h: nat, i: nat, e: D.DeviceEvent, gi: nat, input: Input)
    returns (acts: seq<Act>)
    requires Ready(cfg, m) && h < |m.groups| && i < |m.groups[h].devices| && gi < |m.groups| && e != D.GroupStartup
    requires input.Frame? && input.t == t
    requires h == gi ==> Possible(cfg, gi, input, ScopeOf(m, gi), Fire(i, e))
    ensures Sees(cfg, gi, input, m, acts, Answered(cfg, m, t, h, i, e))
  {
    hide LaidOut, OneDevice, OneGroup, HaveReceivedFromAll, Sees;
    var m1 := OneDevice(cfg, m, h, i, e);
    acts := OneDeviceActs(cfg, m, h, i, e, gi, input);
    if HaveReceivedFromAll(m1.groups[h]) {
      var b := OneGroupActs(cfg, m1, h, t, LinkScanComplete, gi, input);
      Then(cfg, gi, input, m, acts, m1, b, OneGroup(cfg, m1, h, t, LinkScanComplete));
      acts := acts + b;
    }
  }

  lemma AcceptResponseActs(cfg: MasterConfig, m: Master, t: Clock, h: nat, i: nat, r: Response, gi: nat, input: Input)
    returns (acts: seq<Act>)
    requires Ready(cfg, m) && h < |m.groups| && i < |m.groups[h].devices| && gi < |m.groups|
    requires r.WellFormed() && r.Stations() == cfg.groups[h].devices[i].stations
    requires IsReply(input) && Reply(input) == r && input.t == t
    requires h == gi ==> Accepts(cfg.groups[h], h, m.groups[h], input, i)
    ensures Sees(cfg, gi, input, m, acts, AcceptResponse(cfg, m, t, h, i, r))
  {
    hide LaidOut, KeepResponse, AllGroups, Answered, Accepts, Sees;
    var m1 := KeepResponse(cfg, m, t, h, i, r);
    var a := KeepResponseActs(cfg, m, t, h, i, r, gi, input);
    var b: seq<Act>;
    Shape(cfg, m, h);
    Shape(cfg, m1, h);
    if r.endCode == ENDCODE_MASTER_DUPLICATION {
      b := AllGroupsActs(cfg, m1, 0, t, DuplicationAlarm, gi, input);
    } else {
      b := AnsweredActs(cfg, m1, t, h, i, if r.endCode == ENDCODE_SUCCESS then D.ReceiveOk else D.ReceiveError, gi, input);
    }
    Then(cfg, gi, input, m, a, m1, b, AcceptResponse(cfg, m, t, h, i, r));
    acts := a + b;
  }

  lemma HandleInSequenceActs(cfg: MasterConfig, m: Master, t: Clock, h: nat, i: nat, r: Response, ip: u32, gi: nat, input: Input)
    returns (acts: seq<Act>)
    requires Ready(cfg, m) && h < |m.groups| && i < |m.groups[h].devices| && gi < |m.groups| && r.WellFormed()
    requires IsReply(input) && Reply(input) == r && input.t == t && input.ip == ip
    requires r.groupNo == h + 1 && cfg.groups[h].devices[i].slaveId == ip && m.groups[h].devices[i].enabled
    requires m.groups[h].devices[i].bit ==> r.seqNo == m.groups[h].seqNo
    ensures Sees(cfg, gi, input, m, acts, HandleInSequence(cfg, m, t, h, i, r, ip))
  {
    hide LaidOut, AcceptResponse, ReportComplaint, Sees, ChangedByOthers, ParseResponse;
    var sh := ReportComplaint(m.sh, r.endCode, ip);
    var g := m.groups[h];
    var d := if IsComplaint(r.endCode) then CountAlarm(g.devices[i]) else g.devices[i];
    var m1 := m.(sh := sh);
    ReportsAreOthers(gi, m.sh, h, i, d.latest, r, ip);
    SharedOnly(cfg, gi, input, m, m1);
    acts := [Others(sh)];
    Shape(cfg, m, h);
    if r.Stations() != cfg.groups[h].devices[i].stations {
      var a := WithDeviceActs(cfg, m1, h, i, CountInvalid(d), gi, input);
      Then(cfg, gi, input, m, acts, m1, a, WithDevice(cfg, m1, h, i, CountInvalid(d)));
      acts := acts + a;
    } else {
      var a := WithDeviceActs(cfg, m1, h, i, d, gi, input);
      var m2 := WithDevice(cfg, m1, h, i, d);
      Then(cfg, gi, input, m, acts, m1, a, m2);
      var b := AcceptResponseActs(cfg, m2, t, h, i, r, gi, input);
      Then(cfg, gi, input, m, acts + a, m2, b, AcceptResponse(cfg, m2, t, h, i, r));
      acts := acts + a + b;
    }
  }

  lemma DuplicateActs(cfg: MasterConfig, m: Master, h: nat, i: nat, ip: u32, gi: nat, input: Input) returns (acts: seq<Act>)
    requires Ready(cfg, m) && h < |m.groups| && i < |m.groups[h].devices| && gi < |m.groups| && input.Frame?
    requires h == gi ==> Duplicates(cfg.groups[h], h, m.groups[h], input, i)
    ensures var d := CountInvalid(CountIncoming(m.groups[h].devices[i]));
            var m1 := WithDevice(cfg, m.(sh := Note(m.sh, ErrorReport(SlaveDuplicated, ip))), h, i, d);
            Sees(cfg, gi, input, m, acts, OneDevice(cfg, m1, h, i, D.SlaveDuplication))
  {
    hide LaidOut, OneDevice, Sees, ParseResponse;
    var d := CountInvalid(CountIncoming(m.groups[h].devices[i]));
    var m0 := m.(sh := Note(m.sh, ErrorReport(SlaveDuplicated, ip)));
    var m1 := WithDevice(cfg, m0, h, i, d);
    SharedOnly(cfg, gi, input, m, m0);
    var a := WithDeviceActs(cfg, m0, h, i, d, gi, input);
    Then(cfg, gi, input, m, [Others(m0.sh)], m0, a, m1);
    var b := OneDeviceActs(cfg, m1, h, i, D.SlaveDuplication, gi, input);
    Then(cfg, gi, input, m, [Others(m0.sh)] + a, m1, b, OneDevice(cfg, m1, h, i, D.SlaveDuplication));
    acts := [Others(m0.sh)] + a + b;
  }

  lemma HandleFromDeviceActs(cfg: MasterConfig, m: Master, t: Clock, h: nat, i: nat, r: Response, ip: u32, gi: nat, input: Input)
    returns (acts: seq<Act>)
    requires Ready(cfg, m) && h < |m.groups| && i < |m.groups[h].devices| && gi < |m.groups| && r.WellFormed()
    requires IsReply(input) && Reply(input) == r && input.t == t && input.ip == ip
    requires r.groupNo == h + 1 && i < |cfg.groups[h].devices| && cfg.groups[h].devices[i].slaveId == ip
    ensures Sees(cfg, gi, input, m, acts, HandleFromDevice(cfg, m, t, h, i, r, ip))
  {
    hide LaidOut, HandleInSequence, OneDevice, Sees, ParseResponse;
    var d := CountIncoming(m.groups[h].devices[i]);
    Shape(cfg, m, h);
    match Judge(d, m.groups[h].seqNo, r)
    case Unusable => acts := WithDeviceActs(cfg, m, h, i, CountInvalid(d), gi, input);
    case Duplicate => acts := DuplicateActs(cfg, m, h, i, ip, gi, input);
    case InSequence =>
      var a := WithDeviceActs(cfg, m, h, i, d, gi, input);
      var m1 := WithDevice(cfg, m, h, i, d);
      var b := HandleInSequenceActs(cfg, m1, t, h, i, r, ip, gi, input);
      Then(cfg, gi, input, m, a, m1, b, HandleInSequence(cfg, m1, t, h, i, r, ip));
      acts := a + b;
  }

  lemma ReceiveActs(cfg: MasterConfig, m: Master, input: Input, gi: nat) returns (acts: seq<Act>)
    requires Ready(cfg, m) && gi < |m.groups| && input.Frame? && Allowed(input)
    ensures Sees(cfg, gi, input, m, acts, Receive(cfg, m, input.t, input.bytes, input.ip))
  {
    hide LaidOut, HandleFromDevice, AllGroups, Sees, ParseResponse, IsRequest, IsResponse;
    var t, b, ip := input.t, input.bytes, input.ip;
    acts := [];
    if ip == cfg.masterId {
      Nothing(cfg, gi, input, m);
    } else if IsResponse(b) {
      Nothing(cfg, gi, input, m);
      if ParseResponse(b, ip).Parsed? {
        var r := ParseResponse(b, ip).r;
        AcceptedResponseIsEncoded(b, ip);
        if r.groupNo <= |cfg.groups| {
          var h := r.groupNo - 1;
          var i := DeviceIndex(cfg.groups[h].devices, ip);
          Shape(cfg, m, h);
          if i < |cfg.groups[h].devices| {
            acts := HandleFromDeviceActs(cfg, m, t, h, i, r, ip, gi, input);
          }
        }
      }
    } else if IsRequest(b) {
      var m1 := m.(sh := m.sh.(conflictIp := ip));
      SharedOnly(cfg, gi, input, m, m1);
      var a := AllGroupsActs(cfg, m1, 0, t, RequestFromOther, gi, input);
      Then(cfg, gi, input, m, [Others(m1.sh)], m1, a, AllGroups(cfg, m1, 0, t, RequestFromOther));
      acts := [Others(m1.sh)] + a;
    } else {
      Nothing(cfg, gi, input, m);
    }
  }

  lemma Nothing(cfg: MasterConfig, gi: nat, input: Input, m: Master)
    requires Ready(cfg, m) && gi < |m.groups|
    ensures Sees(cfg, gi, input, m, [], m)
  {
  }

  lemma {:induction false} ClearActs(cfg: MasterConfig, m: Master, c: Scope, k: nat, gi: nat) returns (acts: seq<Act>)
    requires Ready(cfg, m) && gi < |m.groups| && k <= |m.groups[gi].devices|
    requires LaidOut(cfg.groups[gi], c.g)
    requires var n := |m.groups[gi].devices|;
             c == Scope(m.sh, m.groups[gi].(devices := StatisticsCleared(m.groups[gi]).devices[..k] + m.groups[gi].devices[k..]))
    ensures Chain(cfg, gi, ClearStatistics, c, acts, Scope(m.sh, StatisticsCleared(m.groups[gi])))
    decreases |m.groups[gi].devices| - k
  {
    var g, q := m.groups[gi], StatisticsCleared(m.groups[gi]);
    if k == |g.devices| {
      assert q.devices[..k] + g.devices[k..] == q.devices;
      acts := [];
    } else {
      var a := Touch(k, q.devices[k]);
      var c1 := Scope(m.sh, g.(devices := q.devices[..k + 1] + g.devices[k + 1..]));
      assert c.g.devices[k := q.devices[k]] == c1.g.devices;
      One(cfg, gi, ClearStatistics, c, a);
      assert Do(cfg, gi, ClearStatistics, c, a) == c1;
      var b := ClearActs(cfg, m, c1, k + 1, gi);
      Join(cfg, gi, ClearStatistics, c, [a], c1, b, Scope(m.sh, q));
      acts := [a] + b;
    }
  }

  lemma SettingTouches(cfg: MasterConfig, gi: nat, c: Scope, i: nat, on: bool)
    requires gi < |cfg.groups| && i < |c.g.devices|
    ensures Possible(cfg, gi, SetEnabled(gi, i, on), c, Touch(i, c.g.devices[i].(enabled := on)))
    ensures Possible(cfg, gi, Force(gi, i, on), c, Touch(i, c.g.devices[i].(forced := on)))
  {
  }

  lemma StatusAct(cfg: MasterConfig, m: Master, input: Input, gi: nat)
    requires Ready(cfg, m) && gi < |m.groups| && Allowed(input) && input.SetStatus?
    ensures Sees(cfg, gi, input, m, [Status(Step(cfg, m, input).sh.unitInfo)], Step(cfg, m, input))
  {
    hide LaidOut, UnitInfo;
    One(cfg, gi, input, ScopeOf(m, gi), Status(Step(cfg, m, input).sh.unitInfo));
  }

  lemma OutputsAct(cfg: MasterConfig, m: Master, input: Input, gi: nat)
    requires Ready(cfg, m) && gi < |m.groups| && Allowed(input) && input.WriteOutputs? && input.gi == gi
    ensures Sees(cfg, gi, input, m, [Outputs(input.ry, input.rww)], Step(cfg, m, input))
  {
    hide LaidOut;
    One(cfg, gi, input, ScopeOf(m, gi), Outputs(input.ry, input.rww));
  }

  lemma SmallStepActs(cfg: MasterConfig, m: Master, input: Input, gi: nat) returns (acts: seq<Act>)
    requires Ready(cfg, m) && gi < |m.groups| && Allowed(input) && !input.Timers? && !input.Frame?
    ensures Sees(cfg, gi, input, m, acts, Step(cfg, m, input))
  {
    hide LaidOut, UnitInfo, Possible, Do;
    var m2 := Step(cfg, m, input);
    acts := [];
    match input
    case SetEnabled(h, i, on) =>
      if h < |m.groups| && i < |m.groups[h].devices| {
        SettingTouches(cfg, h, ScopeOf(m, h), i, on);
        acts := WithDeviceActs(cfg, m, h, i, m.groups[h].devices[i].(enabled := on), gi, input);
      }
    case Force(h, i, on) =>
      if h < |m.groups| && i < |m.groups[h].devices| {
        SettingTouches(cfg, h, ScopeOf(m, h), i, on);
        acts := WithDeviceActs(cfg, m, h, i, m.groups[h].devices[i].(forced := on), gi, input);
      }
    case SetStatus(running, byUser) =>
      StatusAct(cfg, m, input, gi);
      acts := [Status(m2.sh.unitInfo)];
    case ClearStatistics =>
      var g := m.groups[gi];
      assert StatisticsCleared(g).devices[..0] + g.devices[0..] == g.devices;
      acts := ClearActs(cfg, m, ScopeOf(m, gi), 0, gi);
    case WriteOutputs(h, ry, rww) =>
      if h == gi {
        OutputsAct(cfg, m, input, gi);
        acts := [Outputs(ry, rww)];
      }
  }

  /** Every step of the master is, for every group, a chain of possible acts. */
  lemma StepIsActs(cfg: MasterConfig, m: Master, input: Input, gi: nat) returns (acts: seq<Act>)
    requires Ready(cfg, m) && gi < |m.groups| && Allowed(input)
    ensures Sees(cfg, gi, input, m, acts, Step(cfg, m, input))
  {
    hide LaidOut, Sees, Receive, Tick;
    if input.Timers? {
      acts := TickActs(cfg, m, input.t, gi, input);
    } else if input.Frame? {
      acts := ReceiveActs(cfg, m, input, gi);
    } else {
      acts := SmallStepActs(cfg, m, input, gi);
    }
  }
}
