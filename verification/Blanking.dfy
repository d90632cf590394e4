/** Exactly when a request still shows a device that was disabled: over every run, step by step. */
module Blanking {
  import opened Words
  import opened Config
  import opened Layout
  import opened Timer
  import opened Frames
  import opened Responses
  import opened GroupModel
  import opened MasterModel
  import opened GroupRuns
  import opened DeviceRuns
  import opened Histories
  import opened FrameViews
  import opened Scans
  import opened ScanInvariant
  import opened ScanStarts
  import opened Startup
  import opened ArbitrationSafety
  import opened DisableLatency
  import opened Disconnections
  import opened DeviceSteps
  import D = DeviceModel

  // ---------------------------------------------------------------- what every step keeps

  /** The group keeps its invariant, and device i its address in the frame. */
  predicate Fine(cfg: MasterConfig, m: Master, gi: nat, i: nat) {
    && Ready(cfg, m) && gi < |m.groups| && ValidGroupSetting(cfg.groups[gi])
    && GroupInv(cfg, gi, ScopeOf(m, gi)) && Addressed(cfg.groups[gi], m.groups[gi], i)
  }

  lemma FineOn(cfg: MasterConfig, gi: nat, i: nat, input: Input, m: Master, acts: seq<Act>, r: Master)
    requires Fine(cfg, m, gi, i) && Ready(cfg, r) && Sees(cfg, gi, input, m, acts, r)
    ensures Fine(cfg, r, gi, i)
  {
    hide LaidOut, GroupInv, Possible, Do, Addressed;
    var setting := cfg.groups[gi];
    ChainKeeps(cfg, gi, input, ScopeOf(m, gi), acts, ScopeOf(r, gi));
    var p := (c: Scope) => LaidOut(setting, c.g) && Addressed(setting, c.g, i);
    forall c: Scope, a | LaidOut(setting, c.g) && Possible(cfg, gi, input, c, a) && GroupInv(cfg, gi, c) && p(c)
      ensures p(Do(cfg, gi, input, c, a))
    {
      ActAddresses(cfg, gi, input, c, a, i);
    }
    ChainInvariant(cfg, gi, input, ScopeOf(m, gi), acts, ScopeOf(r, gi), p);
  }

  lemma FineParts(cfg: MasterConfig, m: Master, gi: nat, i: nat)
    requires Fine(cfg, m, gi, i)
    ensures Ready(cfg, m) && gi < |m.groups| && ValidGroupSetting(cfg.groups[gi]) && LaidOut(cfg.groups[gi], m.groups[gi])
    ensures i < |m.groups[gi].devices| == |cfg.groups[gi].devices|
  {
    hide GroupInv;
  }

  // ---------------------------------------------------------------- requests of a step

  /** A request of the group was sent last. */
  predicate Requested(gi: nat, before: seq<Output>, after: seq<Output>) {
    |Log(gi, after)| > |Log(gi, before)| && Log(gi, after)[|Log(gi, after)| - 1].Sent?
  }

  /** The request of the step shows device i as blank exactly when the events that came before the
      scan start left it in LISTEN. */
  predicate ShownAs(cfg: MasterConfig, gi: nat, i: nat, d: D.Device, es: seq<D.DeviceEvent>, after: seq<Output>)
    requires gi < |cfg.groups| && i < |cfg.groups[gi].devices|
  {
    && es != [] && Log(gi, after) != [] && Log(gi, after)[|Log(gi, after)| - 1].Sent?
    && (BlankIn(cfg.groups[gi], Log(gi, after)[|Log(gi, after)| - 1].request, i)
        <==> DeviceRun(d, cfg.groups[gi].devices[i], cfg.groups[gi].offCount, es[..|es| - 1]).state == D.Listen)
  }

  lemma AtStartIsRun(setting: GroupSetting, c: Scope, e: GroupEvent, i: nat)
    requires i < |c.g.devices| && i < |setting.devices| && Starts(setting, c.g.state, e)
    ensures var d := c.g.devices[i];
            var es := SentByEvent(setting, c.g.state, e, d);
            && es != [] && AtStart(setting, c, e, i) == DeviceRun(d, setting.devices[i], setting.offCount, es[..|es| - 1])
  {
    hide D.After, DeviceRun;
    var d := c.g.devices[i];
    var es := SentByEvent(setting, c.g.state, e, d);
    EmptyRun(d, setting.devices[i], setting.offCount);
    RunOfOne(d, setting.devices[i], setting.offCount, D.GroupTimeout);
    RunOfOne(d, setting.devices[i], setting.offCount, D.GroupAllResponded);
    assert c.g.state == LinkScan ==> es[..|es| - 1] == [es[0]];
    assert c.g.state != LinkScan ==> es[..|es| - 1] == [];
  }

  /** An act of a group event, from a master that is fine. */
  lemma ActShows(cfg: MasterConfig, gi: nat, i: nat, input: Input, m: Master, a: Act, r: Scope)
    requires Fine(cfg, m, gi, i) && Possible(cfg, gi, input, ScopeOf(m, gi), a) && IsGroupEvent(a)
    requires LaidOut(cfg.groups[gi], m.groups[gi]) && r == Do(cfg, gi, input, ScopeOf(m, gi), a)
    ensures i < |m.groups[gi].devices| && i < |cfg.groups[gi].devices|
    ensures StartsScan(cfg.groups[gi], ScopeOf(m, gi), a) && Off(m.groups[gi].devices[i]) ==>
              ShownAs(cfg, gi, i, m.groups[gi].devices[i],
                      SentByEvent(cfg.groups[gi], m.groups[gi].state, EventOf(a), m.groups[gi].devices[i]), r.sh.trace)
    ensures !StartsScan(cfg.groups[gi], ScopeOf(m, gi), a) ==> !Requested(gi, m.sh.trace, r.sh.trace)
    ensures !StartsScan(cfg.groups[gi], ScopeOf(m, gi), a) && !a.Event? ==> Log(gi, r.sh.trace) == Log(gi, m.sh.trace)
  {
    hide LaidOut, GroupInv, Possible, Do, DeviceRun, Log, Starts, BlankIn, SentByEvent, AtStart, D.After;
    var c := ScopeOf(m, gi);
    FineParts(cfg, m, gi, i);
    if StartsScan(cfg.groups[gi], c, a) {
      StartBlanksExactly(cfg, gi, input, c, a, i);
      AtStartIsRun(cfg.groups[gi], c, EventOf(a), i);
    } else {
      CalmAct(cfg, gi, input, c, a);
    }
  }

  // ---------------------------------------------------------------- polls

  /** What a stage of a step logs: nothing without events, and a request shows device i as its events say. */
  predicate StageFits(cfg: MasterConfig, gi: nat, i: nat, d: D.Device, es: seq<D.DeviceEvent>, before: seq<Output>, after: seq<Output>)
    requires gi < |cfg.groups| && i < |cfg.groups[gi].devices|
  {
    && (es == [] ==> Log(gi, after) == Log(gi, before))
    && (Off(d) && Requested(gi, before, after) ==> ShownAs(cfg, gi, i, d, es, after))
  }

  lemma OtherGroupLogs(cfg: MasterConfig, m: Master, h: nat, t: Clock, e: GroupEvent, gi: nat)
    requires Ready(cfg, m) && h < |m.groups| && gi < |m.groups| && h != gi && e != Startup && e != NewConfig
    ensures var r := OneGroup(cfg, m, h, t, e);
            r.groups[gi] == m.groups[gi] && Log(gi, r.sh.trace) == Log(gi, m.sh.trace)
  {
    hide LaidOut, GroupEventStep, Log;
    GoodSetting(cfg, h);
    EventIsOthers(gi, cfg, cfg.groups[h], h, ScopeOf(m, h), t, e);
    LogIgnoresOthers(gi, m.sh.trace, OneGroup(cfg, m, h, t, e).sh.trace);
  }

  lemma OtherMonitorLogs(cfg: MasterConfig, m: Master, h: nat, t: Clock, gi: nat)
    requires Ready(cfg, m) && h < |m.groups| && gi < |m.groups| && h != gi
    ensures var r := MonitorGroup(cfg, m, h, t);
            r.groups[gi] == m.groups[gi] && Log(gi, r.sh.trace) == Log(gi, m.sh.trace)
  {
    hide LaidOut, OneGroup, Log, Expired;
    LaidOutApart(cfg, m, h);
    OtherGroupLogs(cfg, m.(groups := m.groups[h := m.groups[h].(responseTimer := Stopped)]), h, t, LinkScanTimeout, gi);
    var m1 := AfterResponseTimer(cfg, m, h, t);
    LaidOutApart(cfg, m1, h);
    OtherGroupLogs(cfg, m1.(groups := m1.groups[h := m1.groups[h].(scanTimer := Stopped)]), h, t, LinkScanStart, gi);
  }

  lemma MonitorFine(cfg: MasterConfig, m: Master, h: nat, t: Clock, gi: nat, i: nat)
    requires Fine(cfg, m, gi, i) && h < |m.groups|
    ensures Fine(cfg, AfterResponseTimer(cfg, m, h, t), gi, i)
    ensures Fine(cfg, MonitorGroup(cfg, m, h, t), gi, i)
  {
    hide LaidOut, GroupInv, OneGroup, Addressed, Sees, Fine, AfterResponseTimer, AfterScanTimer, Expired;
    FineParts(cfg, m, gi, i);
    var m1 := AfterResponseTimer(cfg, m, h, t);
    var a := ResponseTimerActs(cfg, m, h, t, gi, Timers(t));
    ResponseTimerSettled(cfg, m, h, t);
    FineOn(cfg, gi, i, Timers(t), m, a, m1);
    FineParts(cfg, m1, gi, i);
    var b := ScanTimerActs(cfg, m1, h, t, gi, Timers(t));
    FineOn(cfg, gi, i, Timers(t), m1, b, AfterScanTimer(cfg, m1, h, t));
  }

  lemma ResponseStage(cfg: MasterConfig, m: Master, t: Clock, gi: nat, i: nat)
    requires Fine(cfg, m, gi, i) && i < |m.groups[gi].devices| && i < |cfg.groups[gi].devices|
    ensures var g, r := m.groups[gi], AfterResponseTimer(cfg, m, gi, t);
            StageFits(cfg, gi, i, g.devices[i],
                      if g.state == LinkScan && Expired(g.responseTimer, t.now)
                      then SentByEvent(cfg.groups[gi], LinkScan, LinkScanTimeout, g.devices[i]) else [],
                      m.sh.trace, r.sh.trace)
  {
    hide LaidOut, GroupInv, Addressed, Log, DeviceRun, BlankIn, Expired, GroupEventStep, ShownAs, Fine;
    FineParts(cfg, m, gi, i);
    if Expired(m.groups[gi].responseTimer, t.now) {
      var a := ResponseTimeout(t);
      ActShows(cfg, gi, i, Timers(t), m, a, Do(cfg, gi, Timers(t), ScopeOf(m, gi), a));
    }
  }

  lemma ScanStage(cfg: MasterConfig, m: Master, t: Clock, gi: nat, i: nat)
    requires Fine(cfg, m, gi, i) && i < |m.groups[gi].devices| && i < |cfg.groups[gi].devices|
    requires !Expired(m.groups[gi].responseTimer, t.now)
    ensures var g, r := m.groups[gi], AfterScanTimer(cfg, m, gi, t);
            StageFits(cfg, gi, i, g.devices[i],
                      if g.state == LinkScanComp && Expired(g.scanTimer, t.now)
                      then SentByEvent(cfg.groups[gi], LinkScanComp, LinkScanStart, g.devices[i]) else [],
                      m.sh.trace, r.sh.trace)
  {
    hide LaidOut, GroupInv, Addressed, Log, DeviceRun, BlankIn, Expired, GroupEventStep, ShownAs, Fine;
    FineParts(cfg, m, gi, i);
    if Expired(m.groups[gi].scanTimer, t.now) {
      var a := ScanTimeout(t);
      ActShows(cfg, gi, i, Timers(t), m, a, Do(cfg, gi, Timers(t), ScopeOf(m, gi), a));
    }
  }

  /** Group gi at its turn in a poll. */
  lemma MonitorStage(cfg: MasterConfig, m: Master, t: Clock, gi: nat, i: nat)
    requires Fine(cfg, m, gi, i) && i < |m.groups[gi].devices| && i < |cfg.groups[gi].devices|
    ensures StageFits(cfg, gi, i, m.groups[gi].devices[i], PollEvents(cfg.groups[gi], Stopped, m.groups[gi], i, t),
                      m.sh.trace, MonitorGroup(cfg, m, gi, t).sh.trace)
  {
    hide LaidOut, GroupInv, Addressed, Log, DeviceRun, BlankIn, Expired, SentByEvent, AfterResponseTimer, AfterScanTimer, ShownAs, Fine;
    FineParts(cfg, m, gi, i);
    var m1 := AfterResponseTimer(cfg, m, gi, t);
    NeverExpired(t.now);
    ResponseTimerSettled(cfg, m, gi, t);
    ResponseTimerOnDevice(cfg, m, gi, t, i);
    MonitorFine(cfg, m, gi, t, gi, i);
    FineParts(cfg, m1, gi, i);
    ResponseStage(cfg, m, t, gi, i);
    ScanStage(cfg, m1, t, gi, i);
    StageSameLog(cfg, gi, i, m.groups[gi].devices[i], PollEvents(cfg.groups[gi], Stopped, m.groups[gi], i, t),
                 m.sh.trace, m1.sh.trace, MonitorGroup(cfg, m, gi, t).sh.trace);
  }

  /** Traces with the same log are the same to a group. */
  lemma StageSameLog(cfg: MasterConfig, gi: nat, i: nat, d: D.Device, es: seq<D.DeviceEvent>, before: seq<Output>,
                     mid: seq<Output>, after: seq<Output>)
    requires gi < |cfg.groups| && i < |cfg.groups[gi].devices|
    ensures Log(gi, after) == Log(gi, mid) && StageFits(cfg, gi, i, d, es, before, mid) ==> StageFits(cfg, gi, i, d, es, before, after)
    ensures Log(gi, mid) == Log(gi, before) && StageFits(cfg, gi, i, d, es, mid, after) ==> StageFits(cfg, gi, i, d, es, before, after)
  {
    hide Log, BlankIn, DeviceRun;
  }

  lemma {:induction false} MonitorAllStage(cfg: MasterConfig, m: Master, k: nat, t: Clock, gi: nat, i: nat)
    requires Fine(cfg, m, gi, i) && k <= |m.groups| && i < |m.groups[gi].devices| && i < |cfg.groups[gi].devices|
    ensures var r := MonitorGroups(cfg, m, k, t);
            && Fine(cfg, r, gi, i)
            && StageFits(cfg, gi, i, m.groups[gi].devices[i],
                         if k <= gi then PollEvents(cfg.groups[gi], Stopped, m.groups[gi], i, t) else [], m.sh.trace, r.sh.trace)
    decreases |m.groups| - k
  {
    hide LaidOut, GroupInv, Addressed, Log, DeviceRun, BlankIn, MonitorGroup, StageFits, PollEvents, Fine;
    FineParts(cfg, m, gi, i);
    var d, es := m.groups[gi].devices[i], PollEvents(cfg.groups[gi], Stopped, m.groups[gi], i, t);
    if k == |m.groups| {
      NothingFits(cfg, gi, i, d, m.sh.trace, m.sh.trace);
    } else {
      var m1, r := MonitorGroup(cfg, m, k, t), MonitorGroups(cfg, m, k, t);
      MonitorFine(cfg, m, k, t, gi, i);
      FineParts(cfg, m1, gi, i);
      MonitorAllStage(cfg, m1, k + 1, t, gi, i);
      if k == gi {
        MonitorStage(cfg, m, t, gi, i);
        QuietStage(cfg, gi, i, m1.groups[gi].devices[i], m1.sh.trace, r.sh.trace);
        StageSameLog(cfg, gi, i, d, es, m.sh.trace, m1.sh.trace, r.sh.trace);
      } else {
        OtherMonitorLogs(cfg, m, k, t, gi);
        StageSameLog(cfg, gi, i, d, if k + 1 <= gi then es else [], m.sh.trace, m1.sh.trace, r.sh.trace);
      }
    }
  }

  lemma NothingFits(cfg: MasterConfig, gi: nat, i: nat, d: D.Device, before: seq<Output>, after: seq<Output>)
    requires gi < |cfg.groups| && i < |cfg.groups[gi].devices| && Log(gi, after) == Log(gi, before)
    ensures StageFits(cfg, gi, i, d, [], before, after)
  {
    hide Log, BlankIn, DeviceRun;
  }

  lemma QuietStage(cfg: MasterConfig, gi: nat, i: nat, d: D.Device, before: seq<Output>, after: seq<Output>)
    requires gi < |cfg.groups| && i < |cfg.groups[gi].devices| && StageFits(cfg, gi, i, d, [], before, after)
    ensures Log(gi, after) == Log(gi, before)
  {
    hide Log, BlankIn, DeviceRun;
  }

  /** The end of arbitration, in group k and the later ones. */
  lemma {:induction false} ArbitrationStage(cfg: MasterConfig, m: Master, k: nat, t: Clock, gi: nat, i: nat)
    requires Fine(cfg, m, gi, i) && k <= |m.groups| && i < |m.groups[gi].devices| && i < |cfg.groups[gi].devices|
    ensures var g, r := m.groups[gi], AllGroups(cfg, m, k, t, ArbitrationDone);
            && Fine(cfg, r, gi, i)
            && StageFits(cfg, gi, i, g.devices[i],
                         if k <= gi && g.state == MasterArbitration
                         then SentByEvent(cfg.groups[gi], MasterArbitration, ArbitrationDone, g.devices[i]) else [],
                         m.sh.trace, r.sh.trace)
    decreases |m.groups| - k
  {
    hide LaidOut, GroupInv, Addressed, Log, DeviceRun, BlankIn, OneGroup, StageFits, SentByEvent, Fine, Sees, Possible;
    FineParts(cfg, m, gi, i);
    var d := m.groups[gi].devices[i];
    if k == |m.groups| {
      NothingFits(cfg, gi, i, d, m.sh.trace, m.sh.trace);
    } else {
      var m1, r := OneGroup(cfg, m, k, t, ArbitrationDone), AllGroups(cfg, m, k, t, ArbitrationDone);
      DoneIsPossible(cfg, gi, ScopeOf(m, gi), t);
      var acts := OneGroupActs(cfg, m, k, t, ArbitrationDone, gi, Timers(t));
      FineOn(cfg, gi, i, Timers(t), m, acts, m1);
      FineParts(cfg, m1, gi, i);
      ArbitrationStage(cfg, m1, k + 1, t, gi, i);
      var es := if m.groups[gi].state == MasterArbitration then SentByEvent(cfg.groups[gi], MasterArbitration, ArbitrationDone, d) else [];
      if k == gi {
        DoneStage(cfg, m, t, gi, i);
        QuietStage(cfg, gi, i, m1.groups[gi].devices[i], m1.sh.trace, r.sh.trace);
        StageSameLog(cfg, gi, i, d, es, m.sh.trace, m1.sh.trace, r.sh.trace);
      } else {
        OtherGroupLogs(cfg, m, k, t, ArbitrationDone, gi);
        StageSameLog(cfg, gi, i, d, if k + 1 <= gi then es else [], m.sh.trace, m1.sh.trace, r.sh.trace);
      }
    }
  }

  lemma DoneIsPossible(cfg: MasterConfig, gi: nat, c: Scope, t: Clock)
    requires gi < |cfg.groups|
    ensures Possible(cfg, gi, Timers(t), c, Event(ArbitrationDone, t))
  {
  }

  lemma DoneStage(cfg: MasterConfig, m: Master, t: Clock, gi: nat, i: nat)
    requires Fine(cfg, m, gi, i) && i < |m.groups[gi].devices| && i < |cfg.groups[gi].devices|
    ensures var g := m.groups[gi];
            StageFits(cfg, gi, i, g.devices[i],
                      if g.state == MasterArbitration
                      then SentByEvent(cfg.groups[gi], MasterArbitration, ArbitrationDone, g.devices[i]) else [],
                      m.sh.trace, OneGroup(cfg, m, gi, t, ArbitrationDone).sh.trace)
  {
    hide LaidOut, GroupInv, Addressed, Log, DeviceRun, BlankIn, GroupEventStep, ShownAs, Fine;
    FineParts(cfg, m, gi, i);
    DoneIsPossible(cfg, gi, ScopeOf(m, gi), t);
    var a := Event(ArbitrationDone, t);
    ActShows(cfg, gi, i, Timers(t), m, a, Do(cfg, gi, Timers(t), ScopeOf(m, gi), a));
    if m.groups[gi].state != MasterArbitration {
      StillWithoutArbitration(cfg, cfg.groups[gi], gi, ScopeOf(m, gi), t);
    }
  }

  lemma StillWithoutArbitration(cfg: MasterConfig, setting: GroupSetting, gi: nat, c: Scope, t: Clock)
    requires LaidOut(setting, c.g) && ValidGroupSetting(setting) && c.g.state != MasterArbitration
    ensures GroupEventStep(cfg, setting, gi, c, t, ArbitrationDone) == c
  {
    hide LaidOut, BeginScan, EnterListen, FallToListen, CompleteScan, TimeOutScan;
  }

  /** A whole poll. */
  lemma TickStage(cfg: MasterConfig, m: Master, t: Clock, gi: nat, i: nat)
    requires Fine(cfg, m, gi, i) && i < |m.groups[gi].devices| && i < |cfg.groups[gi].devices|
    ensures StageFits(cfg, gi, i, m.groups[gi].devices[i], PollEvents(cfg.groups[gi], m.sh.arbTimer, m.groups[gi], i, t),
                      m.sh.trace, Tick(cfg, m, t).sh.trace)
  {
    hide LaidOut, GroupInv, Addressed, Log, DeviceRun, BlankIn, AllGroups, MonitorGroups, StageFits, SentByEvent, Fine, Sees;
    FineParts(cfg, m, gi, i);
    NeverExpired(t.now);
    var m1 := MonitorArbitration(cfg, m, t);
    if Expired(m.sh.arbTimer, t.now) {
      var m0 := m.(sh := m.sh.(arbTimer := Stopped));
      SharedOnly(cfg, gi, Timers(t), m, m0);
      FineOn(cfg, gi, i, Timers(t), m, [Others(m0.sh)], m0);
      ArbitrationStage(cfg, m0, 0, t, gi, i);
      ArbitrationDoneOn(cfg, m0, 0, t, gi);
      OffCountPositive(cfg, gi);
    }
    FineParts(cfg, m1, gi, i);
    MonitorAllStage(cfg, m1, 0, t, gi, i);
    var d, es, r := m.groups[gi].devices[i], PollEvents(cfg.groups[gi], m.sh.arbTimer, m.groups[gi], i, t), Tick(cfg, m, t);
    if Expired(m.sh.arbTimer, t.now) {
      if m.groups[gi].state == MasterArbitration {
        QuietStage(cfg, gi, i, m1.groups[gi].devices[i], m1.sh.trace, r.sh.trace);
      } else {
        QuietStage(cfg, gi, i, d, m.sh.trace, m1.sh.trace);
      }
      StageSameLog(cfg, gi, i, d, es, m.sh.trace, m1.sh.trace, r.sh.trace);
    }
  }

  // ---------------------------------------------------------------- frames

  /** A request that goes out while a frame is handled shows device i as the events of the step say. */
  predicate FrameFits(cfg: MasterConfig, gi: nat, i: nat, d: D.Device, es: seq<D.DeviceEvent>, before: seq<Output>, after: seq<Output>)
    requires gi < |cfg.groups| && i < |cfg.groups[gi].devices|
  {
    Off(d) && Requested(gi, before, after) ==> ShownAs(cfg, gi, i, d, es, after)
  }

  lemma SilentFits(cfg: MasterConfig, gi: nat, i: nat, d: D.Device, es: seq<D.DeviceEvent>, before: seq<Output>, after: seq<Output>)
    requires gi < |cfg.groups| && i < |cfg.groups[gi].devices| && Log(gi, after) == Log(gi, before)
    ensures FrameFits(cfg, gi, i, d, es, before, after)
  {
    hide Log, ShownAs;
  }

  lemma SameLogFits(cfg: MasterConfig, gi: nat, i: nat, d: D.Device, es: seq<D.DeviceEvent>, before: seq<Output>,
                    mid: seq<Output>, after: seq<Output>)
    requires gi < |cfg.groups| && i < |cfg.groups[gi].devices| && Log(gi, mid) == Log(gi, before)
    requires FrameFits(cfg, gi, i, d, es, mid, after)
    ensures FrameFits(cfg, gi, i, d, es, before, after)
  {
    hide Log, ShownAs;
  }

  /** Losing makes no group send. */
  lemma {:induction false} LosingIsQuiet(cfg: MasterConfig, m: Master, k: nat, t: Clock, e: GroupEvent, gi: nat)
    requires Ready(cfg, m) && k <= |m.groups| && gi < |m.groups| && (e == RequestFromOther || e == DuplicationAlarm)
    ensures Log(gi, AllGroups(cfg, m, k, t, e).sh.trace) == Log(gi, m.sh.trace)
    decreases |m.groups| - k
  {
    hide LaidOut, OneGroup, Log;
    if k < |m.groups| {
      if k == gi {
        OwnLossIsQuiet(cfg, m, t, e, gi);
      } else {
        OtherGroupLogs(cfg, m, k, t, e, gi);
      }
      LosingIsQuiet(cfg, OneGroup(cfg, m, k, t, e), k + 1, t, e, gi);
    }
  }

  lemma OwnLossIsQuiet(cfg: MasterConfig, m: Master, t: Clock, e: GroupEvent, gi: nat)
    requires Ready(cfg, m) && gi < |m.groups| && (e == RequestFromOther || e == DuplicationAlarm)
    ensures Log(gi, OneGroup(cfg, m, gi, t, e).sh.trace) == Log(gi, m.sh.trace)
  {
    hide LaidOut, GroupEventStep, Log;
    GoodSetting(cfg, gi);
    OtherEvent(cfg, cfg.groups[gi], gi, ScopeOf(m, gi), t, e);
  }

  /** A device event that patches nothing logs nothing. */
  lemma OneDeviceLogs(cfg: MasterConfig, m: Master, h: nat, j: nat, e: D.DeviceEvent, gi: nat)
    requires Ready(cfg, m) && h < |m.groups| && j < |m.groups[h].devices| && gi < |m.groups|
    requires e == D.ReceiveOk || e == D.ReceiveError || e == D.SlaveDuplication
    ensures OneDevice(cfg, m, h, j, e).sh == m.sh
  {
    hide LaidOut, D.After;
    GoodSetting(cfg, h);
  }

  /** Records changed without an event, and reports, keep a group fine. */
  lemma FineTouch(cfg: MasterConfig, m: Master, h: nat, j: nat, d: D.Device, sh: Shared, input: Input, gi: nat, i: nat)
    requires Fine(cfg, m, gi, i) && input.Frame? && ChangedByOthers(gi, m.sh, sh)
    requires h < |m.groups| && j < |m.groups[h].devices| && Alike(m.groups[h].devices[j], d)
    ensures Fine(cfg, WithDevice(cfg, m.(sh := sh), h, j, d), gi, i)
    ensures Log(gi, sh.trace) == Log(gi, m.sh.trace)
  {
    hide LaidOut, GroupInv, Addressed, Sees, Log, ChangedByOthers, Fine, Possible;
    FineParts(cfg, m, gi, i);
    var m0 := m.(sh := sh);
    SharedOnly(cfg, gi, input, m, m0);
    FineOn(cfg, gi, i, input, m, [Others(sh)], m0);
    FineParts(cfg, m0, gi, i);
    TouchIsPossible(cfg, gi, input, ScopeOf(m0, gi), j, d);
    var acts := WithDeviceActs(cfg, m0, h, j, d, gi, input);
    FineOn(cfg, gi, i, input, m0, acts, WithDevice(cfg, m0, h, j, d));
    OthersLog(gi, m.sh, sh);
  }

  lemma TouchIsPossible(cfg: MasterConfig, gi: nat, input: Input, c: Scope, j: nat, d: D.Device)
    requires gi < |cfg.groups|
    ensures j < |c.g.devices| && Alike(c.g.devices[j], d) ==> Possible(cfg, gi, input, c, Touch(j, d))
  {
  }

  lemma OthersLog(gi: nat, sh: Shared, r: Shared)
    requires ChangedByOthers(gi, sh, r)
    ensures Log(gi, r.trace) == Log(gi, sh.trace)
  {
    hide Log;
    LogIgnoresOthers(gi, sh.trace, r.trace);
  }

  /** An answer, and the end of the scan it may bring. */
  lemma AnsweredStage(cfg: MasterConfig, m: Master, t: Clock, h: nat, j: nat, e: D.DeviceEvent, input: Input, gi: nat, i: nat)
    requires Fine(cfg, m, gi, i) && i < |m.groups[gi].devices| && i < |cfg.groups[gi].devices|
    requires h < |m.groups| && j < |m.groups[h].devices| && j < |cfg.groups[h].devices|
    requires (e == D.ReceiveOk || e == D.ReceiveError) && input.Frame? && input.t == t
    requires h == gi ==> Possible(cfg, gi, input, ScopeOf(m, gi), Fire(j, e))
    ensures FrameFits(cfg, gi, i, m.groups[gi].devices[i], AnswerEvents(cfg, m, h, j, e, gi, i), m.sh.trace, Answered(cfg, m, t, h, j, e).sh.trace)
  {
    hide LaidOut, GroupInv, Addressed, Sees, Log, Fine, OneDevice, OneGroup, HaveReceivedFromAll, ShownAs, Possible, AnswerEvents, D.After;
    FineParts(cfg, m, gi, i);
    var d, r := m.groups[gi].devices[i], Answered(cfg, m, t, h, j, e);
    var q := OneDevice(cfg, m, h, j, e);
    OneDeviceLogs(cfg, m, h, j, e, gi);
    OneDeviceOnDevice(cfg, m, h, j, e, gi, i);
    var acts := OneDeviceActs(cfg, m, h, j, e, gi, input);
    FineOn(cfg, gi, i, input, m, acts, q);
    FineParts(cfg, q, gi, i);
    if HaveReceivedFromAll(q.groups[h]) {
      if h == gi {
        CompleteStage(cfg, m, q, t, j, e, input, gi, i);
      } else {
        OtherGroupLogs(cfg, q, h, t, LinkScanComplete, gi);
        SilentFits(cfg, gi, i, d, AnswerEvents(cfg, m, h, j, e, gi, i), m.sh.trace, r.sh.trace);
      }
    } else {
      SilentFits(cfg, gi, i, d, AnswerEvents(cfg, m, h, j, e, gi, i), m.sh.trace, r.sh.trace);
    }
  }

  lemma CompleteStage(cfg: MasterConfig, m: Master, q: Master, t: Clock, j: nat, e: D.DeviceEvent, input: Input, gi: nat, i: nat)
    requires Ready(cfg, m) && gi < |m.groups| && i < |m.groups[gi].devices| && i < |cfg.groups[gi].devices|
    requires j < |m.groups[gi].devices| && j < |cfg.groups[gi].devices| && (e == D.ReceiveOk || e == D.ReceiveError)
    requires q == OneDevice(cfg, m, gi, j, e) && Fine(cfg, q, gi, i) && HaveReceivedFromAll(q.groups[gi])
    requires input.Frame? && input.t == t
    ensures FrameFits(cfg, gi, i, m.groups[gi].devices[i], AnswerEvents(cfg, m, gi, j, e, gi, i), m.sh.trace,
                      OneGroup(cfg, q, gi, t, LinkScanComplete).sh.trace)
  {
    hide LaidOut, GroupInv, Addressed, Log, Fine, OneDevice, HaveReceivedFromAll, DeviceRun, D.After, BlankIn, GroupEventStep, Starts;
    FineParts(cfg, q, gi, i);
    var d, setting := m.groups[gi].devices[i], cfg.groups[gi];
    var r := OneGroup(cfg, q, gi, t, LinkScanComplete);
    OneDeviceLogs(cfg, m, gi, j, e, gi);
    OneDeviceOnDevice(cfg, m, gi, j, e, gi, i);
    var a := Event(LinkScanComplete, t);
    assert Possible(cfg, gi, input, ScopeOf(q, gi), a);
    ActShows(cfg, gi, i, input, q, a, Do(cfg, gi, input, ScopeOf(q, gi), a));
    if StartsScan(setting, ScopeOf(q, gi), a) && Off(d) {
      KeepsFlags(d, setting.devices[i], setting.offCount, e);
      SameAnswers(q.groups[gi], PutDevice(m.groups[gi], j, D.After(m.groups[gi].devices[j], setting.devices[j], setting.offCount, e)));
      OwnThenEnd(cfg, m, q, j, e, gi, i, r.sh.trace);
    }
  }

  /** The device's own event first, then the events of the scan end. */
  lemma OwnThenEnd(cfg: MasterConfig, m: Master, q: Master, j: nat, e: D.DeviceEvent, gi: nat, i: nat, after: seq<Output>)
    requires |m.groups| == |cfg.groups| && gi < |m.groups| && gi < |q.groups| && i < |m.groups[gi].devices| && i < |cfg.groups[gi].devices|
    requires j < |m.groups[gi].devices| && j < |cfg.groups[gi].devices| && i < |q.groups[gi].devices|
    requires e == D.ReceiveOk || e == D.ReceiveError
    requires q.groups[gi].state == m.groups[gi].state && Completes(cfg.groups[gi], m.groups[gi], j, e)
    requires var d, ds, off := m.groups[gi].devices[i], cfg.groups[gi].devices[i], cfg.groups[gi].offCount;
             q.groups[gi].devices[i] == if i == j then D.After(d, ds, off, e) else d
    requires ShownAs(cfg, gi, i, q.groups[gi].devices[i],
                     SentByEvent(cfg.groups[gi], q.groups[gi].state, LinkScanComplete, q.groups[gi].devices[i]), after)
    ensures ShownAs(cfg, gi, i, m.groups[gi].devices[i], AnswerEvents(cfg, m, gi, j, e, gi, i), after)
  {
    hide Log, DeviceRun, D.After, BlankIn, Completes, SentByEvent;
    var d, ds, off := m.groups[gi].devices[i], cfg.groups[gi].devices[i], cfg.groups[gi].offCount;
    var d2 := q.groups[gi].devices[i];
    var own, tail := if i == j then [e] else [], SentByEvent(cfg.groups[gi], m.groups[gi].state, LinkScanComplete, d);
    KeepsFlags(d, ds, off, e);
    SentAfter(cfg.groups[gi], m.groups[gi].state, LinkScanComplete, d, d2);
    EmptyRun(d, ds, off);
    RunOfOne(d, ds, off, e);
    RunOfConcat(d, ds, off, own, tail[..|tail| - 1]);
    assert AnswerEvents(cfg, m, gi, j, e, gi, i) == own + tail;
    assert (own + tail)[..|own + tail| - 1] == own + tail[..|tail| - 1];
  }

  // ---------------------------------------------------------------- responses

  /** A record changed without an event, and reports, do not change what a request shows. */
  lemma FitsAfterAlike(cfg: MasterConfig, m: Master, q: Master, gi: nat, i: nat, es: seq<D.DeviceEvent>, after: seq<Output>)
    requires AlikeMaster(m, q) && gi < |m.groups| && gi < |cfg.groups| && i < |m.groups[gi].devices| && i < |cfg.groups[gi].devices|
    requires m.groups[gi].devices[i].state != D.MasterDown && |q.groups[gi].devices| == |m.groups[gi].devices|
    requires Log(gi, q.sh.trace) == Log(gi, m.sh.trace)
    requires FrameFits(cfg, gi, i, q.groups[gi].devices[i], es, q.sh.trace, after)
    ensures FrameFits(cfg, gi, i, m.groups[gi].devices[i], es, m.sh.trace, after)
  {
    hide DeviceRun, Log, BlankIn;
    assert AlikeGroup(m.groups[gi], q.groups[gi]);
    if es != [] {
      RunRespectsCore(m.groups[gi].devices[i], q.groups[gi].devices[i], cfg.groups[gi].devices[i], cfg.groups[gi].offCount, es[..|es| - 1]);
    }
  }

  lemma KeepStage(cfg: MasterConfig, m: Master, t: Clock, h: nat, j: nat, r: Response, input: Input, gi: nat, i: nat)
    requires Fine(cfg, m, gi, i) && h < |m.groups| && j < |m.groups[h].devices| && j < |cfg.groups[h].devices|
    requires r.WellFormed() && r.Stations() == cfg.groups[h].devices[j].stations && IsReply(input) && Reply(input) == r
    requires h == gi ==> Accepts(cfg.groups[h], h, m.groups[h], input, j)
    ensures var q := KeepResponse(cfg, m, t, h, j, r);
            && Fine(cfg, q, gi, i) && AlikeMaster(m, q) && Log(gi, q.sh.trace) == Log(gi, m.sh.trace)
            && (h == gi ==> Accepts(cfg.groups[h], h, q.groups[h], input, j))
  {
    hide LaidOut, GroupInv, Addressed, Sees, Log, ChangedByOthers, Fine, KeepResponse, StoreData, ReportChanges, Accepts, IsReply, Reply;
    FineParts(cfg, m, gi, i);
    var q := KeepResponse(cfg, m, t, h, j, r);
    var acts := KeepResponseActs(cfg, m, t, h, j, r, gi, input);
    FineOn(cfg, gi, i, input, m, acts, q);
    KeepResponseAlike(cfg, m, t, h, j, r);
    GoodSetting(cfg, h);
    KeepResponseParts(cfg, m, t, h, j, r);
    ReportsAreOthers(gi, m.sh, h, j, m.groups[h].devices[j].latest, r, 0);
    OthersLog(gi, m.sh, q.sh);
  }

  /** What an accepted response sends to device i. */
  function AcceptEvents(cfg: MasterConfig, m: Master, h: nat, j: nat, r: Response, gi: nat, i: nat): seq<D.DeviceEvent>
    requires |m.groups| == |cfg.groups| && h < |m.groups| && j < |m.groups[h].devices| && j < |cfg.groups[h].devices|
    requires gi < |m.groups| && i < |m.groups[gi].devices|
  {
    if r.endCode == ENDCODE_MASTER_DUPLICATION then
      SentByEvent(cfg.groups[gi], m.groups[gi].state, DuplicationAlarm, m.groups[gi].devices[i])
    else AnswerEvents(cfg, m, h, j, OwnEvent(r), gi, i)
  }

  lemma OwnEventIsPossible(cfg: MasterConfig, gi: nat, input: Input, c: Scope, j: nat)
    requires gi < |cfg.groups| && j < |c.g.devices| && Accepts(cfg.groups[gi], gi, c.g, input, j)
    ensures Possible(cfg, gi, input, c, Fire(j, OwnEvent(Reply(input))))
  {
    hide ParseResponse;
  }

  lemma AcceptStage(cfg: MasterConfig, m: Master, t: Clock, h: nat, j: nat, r: Response, input: Input, gi: nat, i: nat)
    requires Fine(cfg, m, gi, i) && AllUp(m) && i < |m.groups[gi].devices| && i < |cfg.groups[gi].devices|
    requires h < |m.groups| && j < |m.groups[h].devices| && j < |cfg.groups[h].devices|
    requires r.WellFormed() && r.Stations() == cfg.groups[h].devices[j].stations
    requires IsReply(input) && Reply(input) == r && input.t == t
    requires h == gi ==> Accepts(cfg.groups[h], h, m.groups[h], input, j)
    ensures FrameFits(cfg, gi, i, m.groups[gi].devices[i], AcceptEvents(cfg, m, h, j, r, gi, i), m.sh.trace,
                      AcceptResponse(cfg, m, t, h, j, r).sh.trace)
  {
    hide LaidOut, GroupInv, Addressed, Log, Fine, KeepResponse, AllGroups, Answered, Accepts, ParseResponse, FrameFits, AllUp,
         SentByEvent, AnswerEvents, Possible;
    FineParts(cfg, m, gi, i);
    var q, es, d := KeepResponse(cfg, m, t, h, j, r), AcceptEvents(cfg, m, h, j, r, gi, i), m.groups[gi].devices[i];
    KeepStage(cfg, m, t, h, j, r, input, gi, i);
    FineParts(cfg, q, gi, i);
    IsUp(m, h, j);
    IsUp(m, gi, i);
    AlikeAnswers(cfg, m, q, h, j, OwnEvent(r), gi, i);
    if r.endCode == ENDCODE_MASTER_DUPLICATION {
      LosingIsQuiet(cfg, q, 0, t, DuplicationAlarm, gi);
      SilentFits(cfg, gi, i, d, es, m.sh.trace, AllGroups(cfg, q, 0, t, DuplicationAlarm).sh.trace);
    } else {
      if h == gi {
        OwnEventIsPossible(cfg, gi, input, ScopeOf(q, gi), j);
      }
      AnsweredStage(cfg, q, t, h, j, OwnEvent(r), input, gi, i);
      FitsAfterAlike(cfg, m, q, gi, i, es, Answered(cfg, q, t, h, j, OwnEvent(r)).sh.trace);
    }
  }

  lemma InSequenceStage(cfg: MasterConfig, m: Master, t: Clock, h: nat, j: nat, r: Response, input: Input, gi: nat, i: nat)
    requires Fine(cfg, m, gi, i) && AllUp(m) && i < |m.groups[gi].devices| && i < |cfg.groups[gi].devices|
    requires h < |m.groups| && j < |m.groups[h].devices| && j < |cfg.groups[h].devices| && r.WellFormed()
    requires IsReply(input) && Reply(input) == r && input.t == t
    requires r.groupNo == h + 1 && cfg.groups[h].devices[j].slaveId == input.ip && m.groups[h].devices[j].enabled
    requires m.groups[h].devices[j].bit ==> r.seqNo == m.groups[h].seqNo
    ensures FrameFits(cfg, gi, i, m.groups[gi].devices[i],
                      if r.Stations() != cfg.groups[h].devices[j].stations then [] else AcceptEvents(cfg, m, h, j, r, gi, i),
                      m.sh.trace, HandleInSequence(cfg, m, t, h, j, r, input.ip).sh.trace)
  {
    hide LaidOut, GroupInv, Addressed, Log, Fine, AcceptResponse, ReportComplaint, ParseResponse, FrameFits, AllUp, SentByEvent,
         AnswerEvents, ChangedByOthers;
    FineParts(cfg, m, gi, i);
    Shape(cfg, m, h);
    var sh := ReportComplaint(m.sh, r.endCode, input.ip);
    var d := if IsComplaint(r.endCode) then CountAlarm(m.groups[h].devices[j]) else m.groups[h].devices[j];
    ReportsAreOthers(gi, m.sh, h, j, d.latest, r, input.ip);
    if r.Stations() != cfg.groups[h].devices[j].stations {
      FineTouch(cfg, m, h, j, CountInvalid(d), sh, input, gi, i);
      SilentFits(cfg, gi, i, m.groups[gi].devices[i], [], m.sh.trace, sh.trace);
    } else {
      var q := WithDevice(cfg, m.(sh := sh), h, j, d);
      FineTouch(cfg, m, h, j, d, sh, input, gi, i);
      WithDeviceAlike(cfg, m, h, j, d, sh);
      AlikeUp(m, q);
      IsUp(m, h, j);
      IsUp(m, gi, i);
      FineParts(cfg, q, gi, i);
      AlikeAnswers(cfg, m, q, h, j, OwnEvent(r), gi, i);
      AcceptStage(cfg, q, t, h, j, r, input, gi, i);
      FitsAfterAlike(cfg, m, q, gi, i, AcceptEvents(cfg, m, h, j, r, gi, i), AcceptResponse(cfg, q, t, h, j, r).sh.trace);
    }
  }

  lemma ReplyStage(cfg: MasterConfig, m: Master, t: Clock, h: nat, j: nat, r: Response, input: Input, gi: nat, i: nat)
    requires Fine(cfg, m, gi, i) && AllUp(m) && i < |m.groups[gi].devices| && i < |cfg.groups[gi].devices|
    requires h < |m.groups| && j < |m.groups[h].devices| && j < |cfg.groups[h].devices| && r.WellFormed()
    requires IsReply(input) && Reply(input) == r && input.t == t
    requires r.groupNo == h + 1 && cfg.groups[h].devices[j].slaveId == input.ip
    ensures FrameFits(cfg, gi, i, m.groups[gi].devices[i], ReplyEvents(cfg, m, h, j, r, gi, i), m.sh.trace,
                      HandleFromDevice(cfg, m, t, h, j, r, input.ip).sh.trace)
  {
    hide LaidOut, GroupInv, Addressed, Log, Fine, HandleInSequence, ParseResponse, FrameFits, AllUp, SentByEvent, AnswerEvents,
         ChangedByOthers, OneDevice;
    FineParts(cfg, m, gi, i);
    Shape(cfg, m, h);
    var d, es := CountIncoming(m.groups[h].devices[j]), ReplyEvents(cfg, m, h, j, r, gi, i);
    assert m.(sh := m.sh) == m;
    match Judge(d, m.groups[h].seqNo, r)
    case Unusable =>
      SilentFits(cfg, gi, i, m.groups[gi].devices[i], es, m.sh.trace, m.sh.trace);
    case Duplicate =>
      var sh := Note(m.sh, GroupModel.ErrorReport(SlaveDuplicated, input.ip));
      NoteIsOthers(gi, m.sh, GroupModel.ErrorReport(SlaveDuplicated, input.ip));
      OthersLog(gi, m.sh, sh);
      var q := WithDevice(cfg, m.(sh := sh), h, j, CountInvalid(d));
      OneDeviceLogs(cfg, q, h, j, D.SlaveDuplication, gi);
      SilentFits(cfg, gi, i, m.groups[gi].devices[i], es, m.sh.trace, sh.trace);
    case InSequence =>
      OthersReflexive(gi, m.sh);
      FineTouch(cfg, m, h, j, d, m.sh, input, gi, i);
      WithDeviceAlike(cfg, m, h, j, d, m.sh);
      var q := WithDevice(cfg, m, h, j, d);
      AlikeUp(m, q);
      IsUp(m, h, j);
      IsUp(m, gi, i);
      FineParts(cfg, q, gi, i);
      AlikeAnswers(cfg, m, q, h, j, OwnEvent(r), gi, i);
      InSequenceStage(cfg, q, t, h, j, r, input, gi, i);
      FitsAfterAlike(cfg, m, q, gi, i, es, HandleInSequence(cfg, q, t, h, j, r, input.ip).sh.trace);
  }

  // ---------------------------------------------------------------- steps and runs

  lemma FrameStage(cfg: MasterConfig, m: Master, input: Input, gi: nat, i: nat)
    requires Fine(cfg, m, gi, i) && AllUp(m) && input.Frame? && Allowed(input)
    requires i < |m.groups[gi].devices| && i < |cfg.groups[gi].devices|
    ensures FrameFits(cfg, gi, i, m.groups[gi].devices[i], FrameEvents(cfg, m, input, gi, i), m.sh.trace,
                      Receive(cfg, m, input.t, input.bytes, input.ip).sh.trace)
  {
    hide LaidOut, GroupInv, Addressed, Log, Fine, HandleFromDevice, AllGroups, ReplyEvents, SentByEvent, ParseResponse, IsRequest,
         IsResponse, AllUp, FrameFits;
    FineParts(cfg, m, gi, i);
    var t, b, ip, es := input.t, input.bytes, input.ip, FrameEvents(cfg, m, input, gi, i);
    SilentFits(cfg, gi, i, m.groups[gi].devices[i], es, m.sh.trace, m.sh.trace);
    if ip != cfg.masterId {
      ReplyIsResponse(b, ip);
      if IsResponse(b) {
        if ParseResponse(b, ip).Parsed? {
          var r := ParseResponse(b, ip).r;
          AcceptedResponseIsEncoded(b, ip);
          if r.groupNo <= |cfg.groups| {
            var h := r.groupNo - 1;
            var j := DeviceIndex(cfg.groups[h].devices, ip);
            Shape(cfg, m, h);
            if j < |cfg.groups[h].devices| {
              ReplyStage(cfg, m, t, h, j, r, input, gi, i);
            }
          }
        }
      } else if IsRequest(b) {
        var m0 := m.(sh := m.sh.(conflictIp := ip));
        LosingIsQuiet(cfg, m0, 0, t, RequestFromOther, gi);
        SilentFits(cfg, gi, i, m.groups[gi].devices[i], es, m.sh.trace, AllGroups(cfg, m0, 0, t, RequestFromOther).sh.trace);
      }
    }
  }

  /** A request that a step sends shows a device that is off as the events of the step say. */
  lemma StepFits(cfg: MasterConfig, m: Master, input: Input, gi: nat, i: nat)
    requires Fine(cfg, m, gi, i) && AllUp(m) && Allowed(input)
    requires i < |m.groups[gi].devices| && i < |cfg.groups[gi].devices|
    ensures FrameFits(cfg, gi, i, m.groups[gi].devices[i], StepEvents(cfg, m, input, gi, i), m.sh.trace, Step(cfg, m, input).sh.trace)
  {
    hide LaidOut, GroupInv, Addressed, Log, Fine, Tick, Receive, FrameEvents, PollEvents, ShownAs, AllUp;
    FineParts(cfg, m, gi, i);
    match input
    case Timers(t) => TickStage(cfg, m, t, gi, i);
    case Frame(_, _, _) => FrameStage(cfg, m, input, gi, i);
    case _ =>
  }

  lemma FineAtInit(cfg: MasterConfig, parameterNo: u16, t0: Clock, gi: nat, i: nat)
    requires GoodConfig(cfg) && gi < |cfg.groups| && i < |cfg.groups[gi].devices|
    ensures var m := Init(cfg, parameterNo, t0); MasterInv(cfg, m) && AllUp(m) && Fine(cfg, m, gi, i)
  {
    hide LaidOut, GroupInv, Init, Begun, ViewOf;
    var m := Init(cfg, parameterNo, t0);
    InitKeeps(cfg, parameterNo, t0);
    BegunIsUp(cfg, m);
    GoodSetting(cfg, gi);
    BegunDevice(cfg, gi, ScopeOf(m, gi), i);
  }

  lemma FineFromInit(cfg: MasterConfig, parameterNo: u16, t0: Clock, inputs: seq<Input>, gi: nat, i: nat)
    requires GoodConfig(cfg) && gi < |cfg.groups| && i < |cfg.groups[gi].devices|
    requires forall k :: 0 <= k < |inputs| ==> Allowed(inputs[k])
    ensures var m := RunFromInit(cfg, parameterNo, t0, inputs); Fine(cfg, m, gi, i) && AllUp(m)
  {
    hide LaidOut, GroupInv, Init, Run, Addressed, Possible, Do, AllUp;
    var setting, m0 := cfg.groups[gi], Init(cfg, parameterNo, t0);
    GoodSetting(cfg, gi);
    FineAtInit(cfg, parameterNo, t0, gi, i);
    var p := (c: Scope) => LaidOut(setting, c.g) && Addressed(setting, c.g, i);
    forall n | 0 <= n < |inputs| ensures Inductive(cfg, gi, inputs[n], p) {
      forall c: Scope, a | LaidOut(setting, c.g) && Possible(cfg, gi, inputs[n], c, a) && GroupInv(cfg, gi, c) && p(c)
        ensures p(Do(cfg, gi, inputs[n], c, a))
      {
        ActAddresses(cfg, gi, inputs[n], c, a, i);
      }
    }
    RunInvariant(cfg, m0, inputs, gi, p);
    RunKeeps(cfg, m0, inputs);
    RunIsUp(cfg, m0, inputs);
  }

  /** If device i is off when this step sends a request of its group, the request shows it as blank
      exactly when the events that the step sends before the scan start leave it in LISTEN. */
  predicate BlanksExactlyAt(cfg: MasterConfig, m: Master, input: Input, gi: nat, i: nat)
    requires Ready(cfg, m) && Allowed(input)
    requires gi < |m.groups| && i < |m.groups[gi].devices| && i < |cfg.groups[gi].devices|
  {
    var after := Step(cfg, m, input).sh.trace;
    Off(m.groups[gi].devices[i]) && Requested(gi, m.sh.trace, after) ==>
      ShownAs(cfg, gi, i, m.groups[gi].devices[i], StepEvents(cfg, m, input, gi, i), after)
  }

  /** After every run from initialisation, whatever comes next: a request that goes out while a device is
      disabled and not forced has 0.0.0.0 at its station, its bit clear and its RY and RWw zero if and
      only if the scan start finds the device in LISTEN. A device that is still connected then keeps its
      address, bit and data in this request. */
  lemma DisabledIsBlankIff(cfg: MasterConfig, parameterNo: u16, t0: Clock, inputs: seq<Input>, input: Input, gi: nat, i: nat)
    requires GoodConfig(cfg) && gi < |cfg.groups| && i < |cfg.groups[gi].devices|
    requires (forall k :: 0 <= k < |inputs| ==> Allowed(inputs[k])) && Allowed(input)
    ensures var m := RunFromInit(cfg, parameterNo, t0, inputs);
            i < |m.groups[gi].devices| && BlanksExactlyAt(cfg, m, input, gi, i)
  {
    hide LaidOut, GroupInv, Addressed, Log, Fine, Step, StepEvents, ShownAs, AllUp, RunFromInit;
    var m := RunFromInit(cfg, parameterNo, t0, inputs);
    FineFromInit(cfg, parameterNo, t0, inputs, gi, i);
    FineParts(cfg, m, gi, i);
    StepFits(cfg, m, input, gi, i);
  }
}
