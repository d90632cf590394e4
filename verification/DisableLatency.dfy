/** How fast a disabled slave disappears from the requests: from the second scan start at the
    latest its station is blank. */
module DisableLatency {
  import opened Words
  import opened Config
  import opened Timer
  import opened Frames
  import opened GroupModel
  import opened MasterModel
  import opened GroupRuns
  import opened DeviceRuns
  import opened Histories
  import opened FrameViews
  import opened Scans
  import opened ScanInvariant
  import opened ScanStarts
  import opened ArbitrationSafety
  import D = DeviceModel

  /** 0.0.0.0 at the device's station, its bit clear, its RY and RWw zero. */
  predicate BlankIn(setting: GroupSetting, q: Request, i: nat) {
    && Holds(setting, q) && i < |setting.devices|
    && var v := ViewOf(setting, q.word, q, i);
    && v.id == IPADDR_INVALID && !v.bit
    && (forall k :: 0 <= k < |v.rww| ==> v.rww[k] == 0) && (forall k :: 0 <= k < |v.ry| ==> v.ry[k] == 0)
  }

  predicate Out(s: D.DeviceState) {
    s == D.Listen || s == D.CyclicSuspend
  }

  predicate Off(d: D.Device) {
    !d.enabled && !d.forced
  }

  // ---------------------------------------------------------------- the device alone

  /** Without a scan start of its own, a device that is out of the cycle stays out. */
  lemma OutStays(d: D.Device, setting: DeviceSetting, offCount: u16, e: D.DeviceEvent)
    requires Out(d.state) && e != D.ScanStartDeviceStart
    ensures Out(D.After(d, setting, offCount, e).state)
    ensures !d.bit ==> !D.After(d, setting, offCount, e).bit
  {
  }

  lemma {:induction false} RunStaysOut(d: D.Device, setting: DeviceSetting, offCount: u16, events: seq<D.DeviceEvent>)
    requires Out(d.state) && forall k :: 0 <= k < |events| ==> events[k] != D.ScanStartDeviceStart
    ensures Out(DeviceRun(d, setting, offCount, events).state)
    ensures !d.bit ==> !DeviceRun(d, setting, offCount, events).bit
  {
    hide D.After;
    if events != [] {
      var rest := events[..|events| - 1];
      assert forall k :: 0 <= k < |rest| ==> rest[k] == events[k];
      RunStaysOut(d, setting, offCount, rest);
      OutStays(DeviceRun(d, setting, offCount, rest), setting, offCount, events[|events| - 1]);
    }
  }

  lemma StopLeaves(d: D.Device, setting: DeviceSetting, offCount: u16)
    requires d.state == D.Listen || d.state == D.CyclicSent
    ensures var r := D.After(d, setting, offCount, D.ScanStartDeviceStop);
            r.state == D.CyclicSuspend && (d.state == D.Listen ==> !r.bit)
  {
  }

  // ---------------------------------------------------------------- acts

  /** The device is not enabled or forced while this input is handled. */
  predicate LeftOff(input: Input, gi: nat, i: nat) {
    input != SetEnabled(gi, i, true) && input != Force(gi, i, true)
  }

  lemma ActStaysOff(cfg: MasterConfig, gi: nat, input: Input, c: Scope, a: Act, i: nat)
    requires GoodConfig(cfg) && gi < |cfg.groups| && LaidOut(cfg.groups[gi], c.g) && ValidGroupSetting(cfg.groups[gi])
    requires Possible(cfg, gi, input, c, a) && GroupInv(cfg, gi, c) && LeftOff(input, gi, i)
    requires i < |c.g.devices| && Off(c.g.devices[i])
    ensures var r := Do(cfg, gi, input, c, a); i < |r.g.devices| && Off(r.g.devices[i])
  {
    hide Do, LaidOut, GroupInv, BeginScan, StartFor, AtBoundary, Starts, Log, D.After;
    if StartsScan(cfg.groups[gi], c, a) {
      StartingAct(cfg, gi, input, c, a);
      var s := StartFor(cfg, gi, input, c, a);
      LaidOutShape(cfg.groups[gi], s.g);
      LaidOutShape(cfg.groups[gi], Do(cfg, gi, input, c, a).g);
      BeginOnDevice(cfg.groups[gi], gi, s, TimeOf(a), i);
      KeepsFlags(s.g.devices[i], cfg.groups[gi].devices[i], cfg.groups[gi].offCount, ScanStartFor(s.g.devices[i]));
    } else {
      CalmAct(cfg, gi, input, c, a);
    }
  }

  lemma ActStaysOut(cfg: MasterConfig, gi: nat, input: Input, c: Scope, a: Act, i: nat)
    requires GoodConfig(cfg) && gi < |cfg.groups| && LaidOut(cfg.groups[gi], c.g)
    requires Possible(cfg, gi, input, c, a)
    requires i < |c.g.devices| && Off(c.g.devices[i]) && Out(c.g.devices[i].state)
    ensures var r := Do(cfg, gi, input, c, a);
            && i < |r.g.devices| && Out(r.g.devices[i].state)
            && (!c.g.devices[i].bit ==> !r.g.devices[i].bit)
  {
    hide Do, LaidOut, DeviceRun;
    ActOnDevice(cfg, gi, input, c, a, i);
    LaidOutShape(cfg.groups[gi], c.g);
    LaidOutShape(cfg.groups[gi], Do(cfg, gi, input, c, a).g);
    NoStartSent(cfg, gi, input, c, a, i);
    RunStaysOut(c.g.devices[i], cfg.groups[gi].devices[i], cfg.groups[gi].offCount, SentByAct(cfg.groups[gi], c.g, a, i));
  }

  lemma NoStartSent(cfg: MasterConfig, gi: nat, input: Input, c: Scope, a: Act, i: nat)
    requires gi < |cfg.groups| && Possible(cfg, gi, input, c, a) && i < |c.g.devices| && !c.g.devices[i].enabled
    ensures var sent := SentByAct(cfg.groups[gi], c.g, a, i);
            forall k :: 0 <= k < |sent| ==> sent[k] != D.ScanStartDeviceStart
  {
    hide HaveReceivedFromAll, Accepts, ChangedByOthers;
  }

  /** A scan start shows a disabled device that was out of the cycle as blank. */
  lemma StartBlanks(setting: GroupSetting, gi: nat, c: Scope, t: Clock, i: nat)
    requires LaidOut(setting, c.g) && ValidGroupSetting(setting) && i < |c.g.devices|
    requires c.g.devices[i].state == D.Listen && Off(c.g.devices[i])
    ensures var r := BeginScan(setting, gi, c, t);
            && BlankIn(setting, RequestOf(setting, gi, c, t), i)
            && i < |r.g.devices| && !r.g.devices[i].bit && Out(r.g.devices[i].state)
  {
    hide BeginScan, RequestOf, D.After, ViewOf;
    var r := BeginScan(setting, gi, c, t);
    LaidOutShape(setting, c.g);
    LaidOutShape(setting, r.g);
    BeginViews(setting, gi, c, t, i);
    BeginOnDevice(setting, gi, c, t, i);
    StopLeaves(c.g.devices[i], setting.devices[i], setting.offCount);
    KeepsFlags(c.g.devices[i], setting.devices[i], setting.offCount, D.ScanStartDeviceStop);
    WrittenIsPlain(setting, c.g.rww, c.g.ry, r.g.devices[i], i);
  }

  // ---------------------------------------------------------------- the countdown

  /** Requests among log entries first, first + 1, ..., n - 1. */
  function SentSince(first: nat, n: nat): int {
    (n + 1) / 2 - (first + 1) / 2
  }

  predicate EntryBlank(setting: GroupSetting, o: Output, i: nat) {
    o.Sent? && BlankIn(setting, o.request, i)
  }

  /** The device was disabled when the log had `first` entries. One scan start later it is out of
      the cycle; every request from the second one on shows it as blank. */
  predicate Fading(setting: GroupSetting, gi: nat, c: Scope, i: nat, first: nat) {
    var log := Log(gi, c.sh.trace);
    && LaidOut(setting, c.g) && i < |c.g.devices| && Off(c.g.devices[i]) && first <= |log|
    && (SentSince(first, |log|) >= 1 ==> Out(c.g.devices[i].state))
    && (forall k :: first + 2 <= k < |log| && k % 2 == 0 ==> EntryBlank(setting, log[k], i))
  }

  lemma StartScopeOut(setting: GroupSetting, gi: nat, c: Scope, e: GroupEvent, i: nat)
    requires LaidOut(setting, c.g) && ValidGroupSetting(setting) && i < |c.g.devices| && Out(c.g.devices[i].state)
    requires Starts(setting, c.g.state, e)
    ensures var s := StartScope(setting, gi, c, e); i < |s.g.devices| && Out(s.g.devices[i].state)
  {
    hide FinishScan, LaidOut, D.After;
    LaidOutShape(setting, c.g);
    LaidOutShape(setting, StartScope(setting, gi, c, e).g);
    if c.g.state == LinkScan {
      var c0 := Scope(c.sh, c.g.(responseTimer := Stopped));
      TimersLaidOut(setting, c.g);
      LaidOutAt(setting, c0, LinkScanComp);
      LaidOutAt(setting, c, LinkScanComp);
      FinishOnDevice(setting, gi, At(c0, LinkScanComp), D.GroupAllResponded, true, i);
      FinishOnDevice(setting, gi, At(c, LinkScanComp), D.GroupTimeout, false, i);
      OutStays(c.g.devices[i], setting.devices[i], setting.offCount, D.GroupAllResponded);
      OutStays(c.g.devices[i], setting.devices[i], setting.offCount, D.GroupTimeout);
    }
  }

  /** A scan start takes a disabled device out of the cycle; if it was out before, it is blanked. */
  lemma StartTakesOut(cfg: MasterConfig, gi: nat, input: Input, c: Scope, a: Act, i: nat)
    requires GoodConfig(cfg) && gi < |cfg.groups| && LaidOut(cfg.groups[gi], c.g) && ValidGroupSetting(cfg.groups[gi])
    requires Possible(cfg, gi, input, c, a) && GroupInv(cfg, gi, c) && StartsScan(cfg.groups[gi], c, a)
    requires i < |c.g.devices| && Off(c.g.devices[i])
    ensures var s, r := StartFor(cfg, gi, input, c, a), Do(cfg, gi, input, c, a);
            && r == BeginScan(cfg.groups[gi], gi, s, TimeOf(a))
            && i < |r.g.devices| && Out(r.g.devices[i].state)
            && (Out(c.g.devices[i].state) ==> BlankIn(cfg.groups[gi], RequestOf(cfg.groups[gi], gi, s, TimeOf(a)), i))
  {
    hide Do, LaidOut, GroupInv, BeginScan, Starts, Log, D.After, BlankIn, RequestOf, StartScope, Base;
    var setting := cfg.groups[gi];
    StartingAct(cfg, gi, input, c, a);
    MetFacts(cfg, gi, input, c, a);
    var s, t := StartFor(cfg, gi, input, c, a), TimeOf(a);
    BoundaryShape(cfg, gi, s);
    LaidOutShape(setting, Do(cfg, gi, input, c, a).g);
    LaidOutShape(setting, s.g);
    if Out(c.g.devices[i].state) {
      StartScopeOut(setting, gi, Met(c, a), EventOf(a), i);
      StartBlanks(setting, gi, s, t, i);
    } else {
      BeginOnDevice(setting, gi, s, t, i);
      StopLeaves(s.g.devices[i], setting.devices[i], setting.offCount);
    }
  }

  lemma StartFades(cfg: MasterConfig, gi: nat, input: Input, c: Scope, a: Act, i: nat, first: nat)
    requires GoodConfig(cfg) && gi < |cfg.groups| && LaidOut(cfg.groups[gi], c.g) && ValidGroupSetting(cfg.groups[gi])
    requires Possible(cfg, gi, input, c, a) && GroupInv(cfg, gi, c) && StartsScan(cfg.groups[gi], c, a)
    requires Fading(cfg.groups[gi], gi, c, i, first) && LeftOff(input, gi, i)
    ensures Fading(cfg.groups[gi], gi, Do(cfg, gi, input, c, a), i, first)
  {
    hide Do, Possible, LaidOut, GroupInv, BeginScan, Log, BlankIn, RequestOf, StartFor, EncodeRequest, Base, AllListen, AllListenOrSent;
    var s := StartFor(cfg, gi, input, c, a);
    ActStaysOff(cfg, gi, input, c, a, i);
    StartingAct(cfg, gi, input, c, a);
    StartTakesOut(cfg, gi, input, c, a, i);
    BeginFacts(cfg.groups[gi], gi, s, TimeOf(a));
  }

  lemma BoundaryShape(cfg: MasterConfig, gi: nat, c: Scope)
    requires GoodConfig(cfg) && gi < |cfg.groups| && AtBoundary(cfg, gi, c)
    ensures LaidOut(cfg.groups[gi], c.g)
  {
  }

  lemma ActFades(cfg: MasterConfig, gi: nat, input: Input, c: Scope, a: Act, i: nat, first: nat)
    requires GoodConfig(cfg) && gi < |cfg.groups| && LaidOut(cfg.groups[gi], c.g) && ValidGroupSetting(cfg.groups[gi])
    requires Possible(cfg, gi, input, c, a) && GroupInv(cfg, gi, c)
    requires Fading(cfg.groups[gi], gi, c, i, first) && LeftOff(input, gi, i)
    ensures Fading(cfg.groups[gi], gi, Do(cfg, gi, input, c, a), i, first)
  {
    hide Do, LaidOut, Base, Starts, Log, BlankIn, Possible, HaveReceivedFromAll;
    if StartsScan(cfg.groups[gi], c, a) {
      StartFades(cfg, gi, input, c, a, i, first);
    } else {
      ActStaysOff(cfg, gi, input, c, a, i);
      CalmAct(cfg, gi, input, c, a);
      if Out(c.g.devices[i].state) {
        ActStaysOut(cfg, gi, input, c, a, i);
      }
    }
  }

  /** Once device i of group gi is disabled and not forced, and as long as it is neither enabled nor
      forced again, every request from the second scan start on has 0.0.0.0 at its station, its
      bit clear and its RY and RWw zero. */
  lemma DisabledIsBlankFromSecondScan(cfg: MasterConfig, m: Master, inputs: seq<Input>, gi: nat, i: nat, k: nat)
    requires MasterInv(cfg, m) && gi < |m.groups| && i < |m.groups[gi].devices|
    requires !m.groups[gi].devices[i].enabled && !m.groups[gi].devices[i].forced
    requires forall j :: 0 <= j < |inputs| ==> Allowed(inputs[j]) && LeftOff(inputs[j], gi, i)
    requires |Log(gi, m.sh.trace)| + 2 <= k < |Log(gi, Run(cfg, m, inputs).sh.trace)|
    ensures var o := Log(gi, Run(cfg, m, inputs).sh.trace)[k];
            o.Sent? ==> BlankIn(cfg.groups[gi], o.request, i)
  {
    hide Run, LaidOut, GroupInv, Possible, Do, Log, BlankIn;
    var setting, first := cfg.groups[gi], |Log(gi, m.sh.trace)|;
    GoodSetting(cfg, gi);
    var p := (c: Scope) => Fading(setting, gi, c, i, first);
    forall n | 0 <= n < |inputs| ensures Inductive(cfg, gi, inputs[n], p) {
      forall c: Scope, a | LaidOut(setting, c.g) && Possible(cfg, gi, inputs[n], c, a) && GroupInv(cfg, gi, c) && p(c)
        ensures p(Do(cfg, gi, inputs[n], c, a))
      {
        ActFades(cfg, gi, inputs[n], c, a, i, first);
      }
    }
    RunInvariant(cfg, m, inputs, gi, p);
    RunKeeps(cfg, m, inputs);
    InvLog(cfg, gi, ScopeOf(Run(cfg, m, inputs), gi), k);
  }

  lemma InvLog(cfg: MasterConfig, gi: nat, c: Scope, k: nat)
    requires GoodConfig(cfg) && gi < |cfg.groups| && GroupInv(cfg, gi, c) && k < |Log(gi, c.sh.trace)|
    ensures LogEntry(cfg, gi, k, Log(gi, c.sh.trace)[k])
  {
    hide LaidOut, FrameFits, Log, LogEntry, Sound;
  }

  // ---------------------------------------------------------------- the first request after disabling

  /** In the cycle, or about to enter it. */
  predicate In(s: D.DeviceState) {
    s == D.WaitTd || s == D.CyclicSent || s == D.CyclicSending
  }

  /** A device that is in the cycle has its address in the frame. */
  predicate Addressed(setting: GroupSetting, g: Group, i: nat)
    requires LaidOut(setting, g) && ValidGroupSetting(setting)
  {
    i < |g.devices| && (In(g.devices[i].state) ==> ViewOf(setting, g.word, g.frame, i).id == setting.devices[i].slaveId)
  }

  /** Only a scan start of its own brings a device into the cycle. */
  lemma InComesFromIn(d: D.Device, setting: DeviceSetting, offCount: u16, e: D.DeviceEvent)
    requires !StartsOrStops(e) && In(D.After(d, setting, offCount, e).state)
    ensures In(d.state)
  {
  }

  lemma {:induction false} RunComesFromIn(d: D.Device, setting: DeviceSetting, offCount: u16, events: seq<D.DeviceEvent>)
    requires forall k :: 0 <= k < |events| ==> !StartsOrStops(events[k])
    requires In(DeviceRun(d, setting, offCount, events).state)
    ensures In(d.state)
  {
    hide D.After, In;
    if events != [] {
      var rest := events[..|events| - 1];
      assert forall k :: 0 <= k < |rest| ==> rest[k] == events[k];
      InComesFromIn(DeviceRun(d, setting, offCount, rest), setting, offCount, events[|events| - 1]);
      RunComesFromIn(d, setting, offCount, rest);
    }
  }

  lemma CalmSendsNoStart(cfg: MasterConfig, gi: nat, input: Input, c: Scope, a: Act, i: nat)
    requires gi < |cfg.groups| && Possible(cfg, gi, input, c, a) && i < |c.g.devices| && !StartsScan(cfg.groups[gi], c, a)
    ensures var sent := SentByAct(cfg.groups[gi], c.g, a, i);
            forall k :: 0 <= k < |sent| ==> !StartsOrStops(sent[k])
  {
    hide HaveReceivedFromAll, Accepts, ChangedByOthers;
  }

  lemma CalmKeepsAddress(cfg: MasterConfig, gi: nat, input: Input, c: Scope, a: Act, i: nat)
    requires GoodConfig(cfg) && gi < |cfg.groups| && LaidOut(cfg.groups[gi], c.g) && ValidGroupSetting(cfg.groups[gi])
    requires Possible(cfg, gi, input, c, a) && !StartsScan(cfg.groups[gi], c, a) && Addressed(cfg.groups[gi], c.g, i)
    ensures Addressed(cfg.groups[gi], Do(cfg, gi, input, c, a).g, i)
  {
    hide Do, LaidOut, DeviceRun, ViewOf, Starts, Log, In;
    var r := Do(cfg, gi, input, c, a);
    LaidOutShape(cfg.groups[gi], c.g);
    LaidOutShape(cfg.groups[gi], r.g);
    CalmAct(cfg, gi, input, c, a);
    ActOnDevice(cfg, gi, input, c, a, i);
    CalmSendsNoStart(cfg, gi, input, c, a, i);
    if In(r.g.devices[i].state) {
      RunComesFromIn(c.g.devices[i], cfg.groups[gi].devices[i], cfg.groups[gi].offCount, SentByAct(cfg.groups[gi], c.g, a, i));
    }
    CalmFrame(c, a, r);
  }

  lemma CalmFrame(c: Scope, a: Act, r: Scope)
    requires Calm(c, a, r)
    ensures r.g.frame == c.g.frame && r.g.word == c.g.word
  {
  }

  /** The device as a scan start finds it: the scan that was open has just ended. */
  function AtStart(setting: GroupSetting, c: Scope, e: GroupEvent, i: nat): D.Device
    requires i < |c.g.devices| && i < |setting.devices|
  {
    var d := c.g.devices[i];
    if c.g.state != LinkScan then d
    else D.After(d, setting.devices[i], setting.offCount, if e == LinkScanComplete then D.GroupAllResponded else D.GroupTimeout)
  }

  lemma StartScopeDevice(setting: GroupSetting, gi: nat, c: Scope, e: GroupEvent, i: nat)
    requires LaidOut(setting, c.g) && ValidGroupSetting(setting) && i < |c.g.devices| && Starts(setting, c.g.state, e)
    ensures i < |setting.devices|
    ensures var s := StartScope(setting, gi, c, e); i < |s.g.devices| && s.g.devices[i] == AtStart(setting, c, e, i)
  {
    hide FinishScan, LaidOut, D.After;
    LaidOutShape(setting, c.g);
    LaidOutShape(setting, StartScope(setting, gi, c, e).g);
    if c.g.state == LinkScan {
      var c0 := Scope(c.sh, c.g.(responseTimer := Stopped));
      TimersLaidOut(setting, c.g);
      LaidOutAt(setting, c0, LinkScanComp);
      LaidOutAt(setting, c, LinkScanComp);
      FinishOnDevice(setting, gi, At(c0, LinkScanComp), D.GroupAllResponded, true, i);
      FinishOnDevice(setting, gi, At(c, LinkScanComp), D.GroupTimeout, false, i);
    }
  }

  lemma EndComesFromIn(setting: GroupSetting, c: Scope, e: GroupEvent, i: nat)
    requires i < |c.g.devices| && i < |setting.devices| && In(AtStart(setting, c, e, i).state)
    ensures In(c.g.devices[i].state)
  {
    hide D.After, In;
    var d := c.g.devices[i];
    if c.g.state == LinkScan {
      InComesFromIn(d, setting.devices[i], setting.offCount, if e == LinkScanComplete then D.GroupAllResponded else D.GroupTimeout);
    }
  }

  /** What the scope of a scan start has in common with the act that leads to it. */
  lemma StartForDevice(cfg: MasterConfig, gi: nat, input: Input, c: Scope, a: Act, i: nat)
    requires GoodConfig(cfg) && gi < |cfg.groups| && LaidOut(cfg.groups[gi], c.g) && ValidGroupSetting(cfg.groups[gi])
    requires Possible(cfg, gi, input, c, a) && GroupInv(cfg, gi, c) && StartsScan(cfg.groups[gi], c, a)
    requires Addressed(cfg.groups[gi], c.g, i)
    ensures var s := StartFor(cfg, gi, input, c, a);
            && i < |cfg.groups[gi].devices| && i < |s.g.devices|
            && s.g.devices[i] == AtStart(cfg.groups[gi], c, EventOf(a), i)
            && (s.g.devices[i].state == D.Listen || s.g.devices[i].state == D.CyclicSent)
            && Addressed(cfg.groups[gi], s.g, i)
  {
    hide Do, LaidOut, GroupInv, BeginScan, Starts, Log, D.After, ViewOf, In, StartScope, Possible, AtStart, Base;
    var setting, s := cfg.groups[gi], StartFor(cfg, gi, input, c, a);
    StartingAct(cfg, gi, input, c, a);
    MetFacts(cfg, gi, input, c, a);
    LaidOutShape(setting, c.g);
    LaidOutShape(setting, s.g);
    StartScopeDevice(setting, gi, Met(c, a), EventOf(a), i);
    MetDevice(setting, c, a, i);
    if In(s.g.devices[i].state) {
      EndComesFromIn(setting, c, EventOf(a), i);
    }
  }

  lemma MetDevice(setting: GroupSetting, c: Scope, a: Act, i: nat)
    requires i < |c.g.devices| && i < |setting.devices|
    ensures |Met(c, a).g.devices| == |c.g.devices| && AtStart(setting, Met(c, a), EventOf(a), i) == AtStart(setting, c, EventOf(a), i)
  {
    hide D.After;
  }

  /** A scan start leaves every device of the cycle addressed. */
  lemma BeginAddresses(setting: GroupSetting, gi: nat, c: Scope, t: Clock, i: nat)
    requires LaidOut(setting, c.g) && ValidGroupSetting(setting) && Addressed(setting, c.g, i)
    requires c.g.devices[i].state == D.Listen || c.g.devices[i].state == D.CyclicSent
    ensures Addressed(setting, BeginScan(setting, gi, c, t).g, i)
  {
    hide BeginScan, RequestOf, AreaOf, EncodeRequest;
    var r := BeginScan(setting, gi, c, t);
    LaidOutShape(setting, c.g);
    LaidOutShape(setting, r.g);
    BeginFacts(setting, gi, c, t);
    BeginViews(setting, gi, c, t, i);
    BeginOnDevice(setting, gi, c, t, i);
  }

  lemma ActAddresses(cfg: MasterConfig, gi: nat, input: Input, c: Scope, a: Act, i: nat)
    requires GoodConfig(cfg) && gi < |cfg.groups| && LaidOut(cfg.groups[gi], c.g) && ValidGroupSetting(cfg.groups[gi])
    requires Possible(cfg, gi, input, c, a) && GroupInv(cfg, gi, c) && Addressed(cfg.groups[gi], c.g, i)
    ensures Addressed(cfg.groups[gi], Do(cfg, gi, input, c, a).g, i)
  {
    hide Do, LaidOut, GroupInv, BeginScan, Possible, Addressed, StartFor, AtBoundary, Log, Starts;
    if StartsScan(cfg.groups[gi], c, a) {
      StartingAct(cfg, gi, input, c, a);
      StartForDevice(cfg, gi, input, c, a, i);
      BeginAddresses(cfg.groups[gi], gi, StartFor(cfg, gi, input, c, a), TimeOf(a), i);
    } else {
      CalmKeepsAddress(cfg, gi, input, c, a, i);
    }
  }

  // ---------------------------------------------------------------- exactly when a request still shows a disabled device

  lemma UsableAddress(cfg: MasterConfig, gi: nat, i: nat)
    requires GoodConfig(cfg) && gi < |cfg.groups| && i < |cfg.groups[gi].devices|
    ensures cfg.groups[gi].devices[i].slaveId != IPADDR_INVALID
  {
    assert ValidGroup(cfg.groups[gi], cfg.masterId);
    assert ValidDevice(cfg.groups[gi].devices[i], cfg.masterId);
  }

  /** A disabled device that a scan start finds in CYCLIC_SENT keeps its part of the frame: the request
      still carries its address, its bit and its data as they were. */
  lemma DisabledIsStillShown(cfg: MasterConfig, gi: nat, s: Scope, t: Clock, i: nat)
    requires GoodConfig(cfg) && gi < |cfg.groups| && LaidOut(cfg.groups[gi], s.g) && ValidGroupSetting(cfg.groups[gi])
    requires Addressed(cfg.groups[gi], s.g, i) && Off(s.g.devices[i]) && s.g.devices[i].state == D.CyclicSent
    ensures i < |cfg.groups[gi].devices|
    ensures var setting, q := cfg.groups[gi], RequestOf(cfg.groups[gi], gi, s, t);
            && Holds(setting, q)
            && ViewOf(setting, q.word, q, i) == ViewOf(setting, s.g.word, s.g.frame, i)
            && ViewOf(setting, q.word, q, i).id == setting.devices[i].slaveId != IPADDR_INVALID
  {
    hide RequestOf, AreaOf;
    LaidOutShape(cfg.groups[gi], s.g);
    BeginViews(cfg.groups[gi], gi, s, t, i);
    UsableAddress(cfg, gi, i);
  }

  /** A request shows a device that is off as blank if and only if the scan start found it in LISTEN. */
  lemma BlankIffListen(cfg: MasterConfig, gi: nat, s: Scope, t: Clock, i: nat)
    requires GoodConfig(cfg) && gi < |cfg.groups| && LaidOut(cfg.groups[gi], s.g) && ValidGroupSetting(cfg.groups[gi])
    requires Addressed(cfg.groups[gi], s.g, i) && Off(s.g.devices[i])
    requires s.g.devices[i].state == D.Listen || s.g.devices[i].state == D.CyclicSent
    ensures BlankIn(cfg.groups[gi], RequestOf(cfg.groups[gi], gi, s, t), i) <==> s.g.devices[i].state == D.Listen
  {
    hide RequestOf, ViewOf, BeginScan, In;
    if s.g.devices[i].state == D.Listen {
      StartBlanks(cfg.groups[gi], gi, s, t, i);
    } else {
      DisabledIsStillShown(cfg, gi, s, t, i);
    }
  }

  /** What an act that starts a scan sends, and what it shows of a device that is off: blank if and only
      if the device is not connected any more when the scan starts. */
  predicate BlanksExactly(cfg: MasterConfig, gi: nat, input: Input, c: Scope, a: Act, i: nat)
    requires GoodConfig(cfg) && gi < |cfg.groups| && LaidOut(cfg.groups[gi], c.g) && ValidGroupSetting(cfg.groups[gi])
    requires Possible(cfg, gi, input, c, a)
  {
    StartsScan(cfg.groups[gi], c, a) && i < |c.g.devices| && i < |cfg.groups[gi].devices| && Off(c.g.devices[i]) ==>
      var log := Log(gi, Do(cfg, gi, input, c, a).sh.trace);
      && log != [] && log[|log| - 1].Sent?
      && (BlankIn(cfg.groups[gi], log[|log| - 1].request, i)
          <==> AtStart(cfg.groups[gi], c, EventOf(a), i).state == D.Listen)
  }

  lemma StartBlanksExactly(cfg: MasterConfig, gi: nat, input: Input, c: Scope, a: Act, i: nat)
    requires GoodConfig(cfg) && gi < |cfg.groups| && LaidOut(cfg.groups[gi], c.g) && ValidGroupSetting(cfg.groups[gi])
    requires Possible(cfg, gi, input, c, a) && GroupInv(cfg, gi, c) && Addressed(cfg.groups[gi], c.g, i)
    ensures BlanksExactly(cfg, gi, input, c, a, i)
  {
    hide Do, LaidOut, GroupInv, BeginScan, Starts, StartFor, AtBoundary, Log, D.After, ViewOf, In, RequestOf, BlankIn, EncodeRequest;
    if StartsScan(cfg.groups[gi], c, a) && Off(c.g.devices[i]) {
      var s := StartFor(cfg, gi, input, c, a);
      StartingAct(cfg, gi, input, c, a);
      StartForDevice(cfg, gi, input, c, a, i);
      BeginFacts(cfg.groups[gi], gi, s, TimeOf(a));
      BlankIffListen(cfg, gi, s, TimeOf(a), i);
    }
  }
}
