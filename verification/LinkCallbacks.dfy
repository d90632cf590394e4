/** The application is told of every connect and disconnect of a device, in turn, and the last callback is
    the device's transmission bit. */
module LinkCallbacks {
  import opened Words
  import opened Config
  import opened Timer
  import opened Frames
  import opened GroupModel
  import opened MasterModel
  import opened GroupRuns
  import opened Histories
  import opened Scans
  import opened ScanInvariant
  import opened ScanStarts
  import opened Startup
  import opened ArbitrationSafety
  import opened MasterReports
  import D = DeviceModel

  /** The callbacks about device i of group gi: true for a connect, false for a disconnect. */
  function Links(gi: nat, i: nat, trace: seq<Output>): seq<bool> {
    if trace == [] then []
    else
      var o := trace[|trace| - 1];
      Links(gi, i, trace[..|trace| - 1])
      + (if o == ConnectCb(gi, i) then [true] else if o == DisconnectCb(gi, i) then [false] else [])
  }

  lemma LinksOfMore(gi: nat, i: nat, trace: seq<Output>, o: Output)
    ensures Links(gi, i, trace + [o])
            == Links(gi, i, trace) + (if o == ConnectCb(gi, i) then [true] else if o == DisconnectCb(gi, i) then [false] else [])
  {
    assert (trace + [o])[..|trace|] == trace;
  }

  /** Connects and disconnects take turns, and the last one is the transmission bit. */
  predicate Linked(gi: nat, i: nat, c: Scope) {
    var links := Links(gi, i, c.sh.trace);
    && i < |c.g.devices|
    && (forall k :: 0 <= k < |links| ==> links[k] == (k % 2 == 0))
    && (c.g.devices[i].bit <==> |links| % 2 == 1)
  }

  // ---------------------------------------------------------------- a group

  lemma BitOnlyPatched(d: D.Device, setting: DeviceSetting, offCount: u16, e: D.DeviceEvent)
    requires e != D.GroupStartup && !D.Patches(d.state, e)
    ensures D.After(d, setting, offCount, e).bit == d.bit
  {
  }

  lemma DeviceEventLinked(setting: GroupSetting, gi: nat, c: Scope, j: nat, e: D.DeviceEvent, i: nat)
    requires LaidOut(setting, c.g) && ValidGroupSetting(setting) && j < |c.g.devices| && e != D.GroupStartup
    requires Linked(gi, i, c)
    ensures Linked(gi, i, DeviceEvent(setting, gi, c, j, e))
  {
    hide D.After, LaidOut, PatchFrame, Links, D.Patches;
    LaidOutShape(setting, c.g);
    LinksOfMore(gi, i, c.sh.trace, ConnectCb(gi, j));
    LinksOfMore(gi, i, c.sh.trace, DisconnectCb(gi, j));
    if !D.Patches(c.g.devices[j].state, e) {
      BitOnlyPatched(c.g.devices[j], setting.devices[j], setting.offCount, e);
    }
  }

  lemma {:induction false} DeliverLinked(setting: GroupSetting, gi: nat, c: Scope, k: nat, s: Signal, i: nat)
    requires LaidOut(setting, c.g) && ValidGroupSetting(setting) && k <= |c.g.devices| && KeepsLayout(s) && Linked(gi, i, c)
    ensures Linked(gi, i, Deliver(setting, gi, c, k, s))
    decreases |c.g.devices| - k
  {
    hide DeviceEvent, LaidOut, Linked;
    LaidOutShape(setting, c.g);
    if k < |c.g.devices| {
      var e := EventFor(s, c.g.devices[k]);
      DeviceEventLinked(setting, gi, c, k, e, i);
      DeliverLinked(setting, gi, DeviceEvent(setting, gi, c, k, e), k + 1, s, i);
    }
  }

  lemma NoteLinked(gi: nat, i: nat, c: Scope, r: Scope, o: Output)
    requires Linked(gi, i, c) && r.g.devices == c.g.devices && !o.ConnectCb? && !o.DisconnectCb?
    requires r.sh.trace == c.sh.trace || r.sh.trace == c.sh.trace + [o]
    ensures Linked(gi, i, r)
  {
    hide Links;
    LinksOfMore(gi, i, c.sh.trace, o);
  }

  lemma BeginLinked(setting: GroupSetting, gi: nat, c: Scope, t: Clock, i: nat)
    requires LaidOut(setting, c.g) && ValidGroupSetting(setting) && Linked(gi, i, c)
    ensures Linked(gi, i, BeginScan(setting, gi, c, t))
  {
    hide LaidOut, Deliver, EncodeRequest, Linked;
    LaidOutShape(setting, c.g);
    var c1, r := Deliver(setting, gi, c, 0, ScanSignal), BeginScan(setting, gi, c, t);
    DeliverLinked(setting, gi, c, 0, ScanSignal, i);
    NoteLinked(gi, i, c1, r, r.sh.trace[|r.sh.trace| - 1]);
  }

  lemma FinishLinked(setting: GroupSetting, gi: nat, c: Scope, e: D.DeviceEvent, success: bool, i: nat)
    requires LaidOut(setting, c.g) && ValidGroupSetting(setting) && (e == D.GroupTimeout || e == D.GroupAllResponded) && Linked(gi, i, c)
    ensures Linked(gi, i, FinishScan(setting, gi, c, e, success))
  {
    hide LaidOut, Deliver, Linked;
    LaidOutShape(setting, c.g);
    var c1, r := Deliver(setting, gi, c, 0, ToAll(e)), FinishScan(setting, gi, c, e, success);
    var c2 := Scope(Note(c1.sh, LinkScanCb(gi, success)), c1.g);
    DeliverLinked(setting, gi, c, 0, ToAll(e), i);
    NoteLinked(gi, i, c1, c2, LinkScanCb(gi, success));
    NoteLinked(gi, i, c2, r, MasterStateCb(MasterState.Running));
  }

  lemma ListenLinked(setting: GroupSetting, gi: nat, c: Scope, i: nat)
    requires LaidOut(setting, c.g) && ValidGroupSetting(setting) && Linked(gi, i, c)
    ensures Linked(gi, i, FallToListen(setting, gi, c))
  {
    hide LaidOut, Deliver, Linked;
    LaidOutShape(setting, c.g);
    LaidOutIn(setting, c, MasterListen);
    var c1 := Scope(c.sh.(arbTimer := Stopped), At(c, MasterListen).g);
    var c2 := Deliver(setting, gi, c1, 0, ToAll(D.GroupStandby));
    NoteLinked(gi, i, c, c1, MasterStateCb(Standby));
    DeliverLinked(setting, gi, c1, 0, ToAll(D.GroupStandby), i);
    NoteLinked(gi, i, c2, FallToListen(setting, gi, c), MasterStateCb(Standby));
  }

  lemma EndLinked(setting: GroupSetting, gi: nat, c: Scope, c1: Scope, e: D.DeviceEvent, success: bool, t: Clock, i: nat)
    requires LaidOut(setting, c1.g) && ValidGroupSetting(setting) && (e == D.GroupTimeout || e == D.GroupAllResponded)
    requires Linked(gi, i, c) && c1.sh == c.sh && c1.g.devices == c.g.devices
    ensures var c2 := FinishScan(setting, gi, c1, e, success);
            LaidOut(setting, At(c2, LinkScan).g) && Linked(gi, i, c2) && Linked(gi, i, BeginScan(setting, gi, At(c2, LinkScan), t))
  {
    hide LaidOut, FinishScan, BeginScan, Linked;
    var c2 := FinishScan(setting, gi, c1, e, success);
    var c3 := At(c2, LinkScan);
    NoteLinked(gi, i, c, c1, MasterStateCb(Standby));
    FinishLinked(setting, gi, c1, e, success, i);
    LaidOutIn(setting, c2, LinkScan);
    NoteLinked(gi, i, c2, c3, MasterStateCb(Standby));
    BeginLinked(setting, gi, c3, t, i);
  }

  lemma EventLinked(cfg: MasterConfig, setting: GroupSetting, gi: nat, c: Scope, t: Clock, e: GroupEvent, i: nat)
    requires LaidOut(setting, c.g) && ValidGroupSetting(setting) && e != Startup && e != NewConfig && e != ParameterChange
    requires Linked(gi, i, c)
    ensures Linked(gi, i, GroupEventStep(cfg, setting, gi, c, t, e))
  {
    hide LaidOut, FinishScan, BeginScan, FallToListen, Linked;
    TimersLaidOut(setting, c.g);
    LaidOutIn(setting, c, LinkScan);
    LaidOutIn(setting, c, LinkScanComp);
    var c0 := At(Scope(c.sh, c.g.(responseTimer := Stopped)), LinkScanComp);
    LaidOutIn(setting, Scope(c.sh, c.g.(responseTimer := Stopped)), LinkScanComp);
    match c.g.state
    case LinkScan =>
      EndLinked(setting, gi, c, c0, D.GroupAllResponded, true, t, i);
      EndLinked(setting, gi, c, At(c, LinkScanComp), D.GroupTimeout, false, t, i);
      ListenLinked(setting, gi, c, i);
    case LinkScanComp =>
      NoteLinked(gi, i, c, At(c, LinkScan), MasterStateCb(Standby));
      BeginLinked(setting, gi, At(c, LinkScan), t, i);
      ListenLinked(setting, gi, c, i);
    case MasterArbitration =>
      var c1 := At(Scope(SetMasterState(c.sh, MasterState.Running), c.g), LinkScan);
      var o := GroupModel.ErrorReport(ArbitrationLost, c.sh.conflictIp);
      NoteLinked(gi, i, c, c1, MasterStateCb(MasterState.Running));
      BeginLinked(setting, gi, c1, t, i);
      NoteLinked(gi, i, c, Scope(Note(c.sh, o), c.g), o);
      ListenLinked(setting, gi, Scope(Note(c.sh, o), c.g), i);
    case _ =>
  }

  // ---------------------------------------------------------------- acts and runs

  lemma {:induction false} LinksIgnoreOthers(gi: nat, i: nat, before: seq<Output>, after: seq<Output>)
    requires |before| <= |after| && after[..|before|] == before
    requires forall k :: |before| <= k < |after| ==> !Mine(gi, after[k])
    ensures Links(gi, i, after) == Links(gi, i, before)
    decreases |after|
  {
    if |after| == |before| {
      assert after == before;
    } else {
      var rest := after[..|after| - 1];
      assert rest[..|before|] == before;
      LinksIgnoreOthers(gi, i, before, rest);
      assert !Mine(gi, after[|after| - 1]);
    }
  }

  lemma ActLinked(cfg: MasterConfig, gi: nat, input: Input, c: Scope, a: Act, i: nat)
    requires GoodConfig(cfg) && gi < |cfg.groups| && LaidOut(cfg.groups[gi], c.g) && ValidGroupSetting(cfg.groups[gi])
    requires Possible(cfg, gi, input, c, a) && Linked(gi, i, c)
    ensures Linked(gi, i, Do(cfg, gi, input, c, a))
  {
    hide LaidOut, GroupEventStep, DeviceEvent, StoreData, HaveReceivedFromAll, Links;
    if IsGroupEvent(a) {
      MetFacts(cfg, gi, input, c, a);
      NoteLinked(gi, i, c, Met(c, a), MasterStateCb(Standby));
      EventLinked(cfg, cfg.groups[gi], gi, Met(c, a), TimeOf(a), EventOf(a), i);
    } else if a.Fire? {
      DeviceEventLinked(cfg.groups[gi], gi, c, a.i, a.de, i);
    } else if a.Others? {
      LinksIgnoreOthers(gi, i, c.sh.trace, a.sh.trace);
    }
  }

  lemma {:induction false} NoLinks(gi: nat, i: nat, trace: seq<Output>)
    requires NoTraffic(trace)
    ensures Links(gi, i, trace) == []
  {
    if trace != [] {
      NoLinks(gi, i, trace[..|trace| - 1]);
    }
  }

  /** Over every run from initialisation the connect and disconnect callbacks of a device take turns, the
      first one is a connect, and the last one is a connect exactly when its transmission bit is on. */
  lemma CallbacksFollowBit(cfg: MasterConfig, parameterNo: u16, t0: Clock, inputs: seq<Input>, gi: nat, i: nat)
    requires GoodConfig(cfg) && (forall k :: 0 <= k < |inputs| ==> Allowed(inputs[k]))
    requires gi < |cfg.groups| && i < |cfg.groups[gi].devices|
    ensures Linked(gi, i, ScopeOf(RunFromInit(cfg, parameterNo, t0, inputs), gi))
  {
    hide LaidOut, GroupInv, Init, Run, Possible, Do, Begun, Links, Linked;
    var m0 := Init(cfg, parameterNo, t0);
    GoodSetting(cfg, gi);
    LinkedAtInit(cfg, parameterNo, t0, gi, i);
    InitKeeps(cfg, parameterNo, t0);
    var p := (c: Scope) => Linked(gi, i, c);
    forall n | 0 <= n < |inputs| ensures Inductive(cfg, gi, inputs[n], p) {
      forall c: Scope, a | LaidOut(cfg.groups[gi], c.g) && Possible(cfg, gi, inputs[n], c, a) && GroupInv(cfg, gi, c) && p(c)
        ensures p(Do(cfg, gi, inputs[n], c, a))
      {
        ActLinked(cfg, gi, inputs[n], c, a, i);
      }
    }
    RunInvariant(cfg, m0, inputs, gi, p);
  }

  lemma LinkedAtInit(cfg: MasterConfig, parameterNo: u16, t0: Clock, gi: nat, i: nat)
    requires GoodConfig(cfg) && gi < |cfg.groups| && i < |cfg.groups[gi].devices|
    ensures Linked(gi, i, ScopeOf(Init(cfg, parameterNo, t0), gi))
  {
    hide LaidOut, GroupInv, Init, Begun, Links;
    var m0 := Init(cfg, parameterNo, t0);
    InitKeeps(cfg, parameterNo, t0);
    BegunDevice(cfg, gi, ScopeOf(m0, gi), i);
    NoLinks(gi, i, m0.sh.trace);
  }
}
