/** Exact disconnection over whole runs: the timeout count of a device is the number of scans it
    missed in a row, counted from what the run itself shows, and a timeout drops it exactly when that
    number reaches the configured limit. */
module Disconnections {
  import opened Words
  import opened Config
  import opened Layout
  import opened Timer
  import opened Frames
  import opened Responses
  import opened GroupModel
  import opened MasterModel
  import opened GroupRuns
  import opened DeviceRuns
  import opened Histories
  import opened Progress
  import opened Scans
  import opened ScanInvariant
  import opened ScanStarts
  import opened Startup
  import opened ArbitrationSafety
  import opened Freshness
  import opened DeviceSteps
  import D = DeviceModel

  // ---------------------------------------------------------------- what a run shows

  /** During this step a scan of group gi ended without success, as the application is told. */
  predicate ScanLost(cfg: MasterConfig, m: Master, input: Input, gi: nat)
    requires Ready(cfg, m) && Allowed(input)
  {
    var before, after := Log(gi, m.sh.trace), Log(gi, Step(cfg, m, input).sh.trace);
    |before| <= |after| && LinkScanCb(gi, false) in after[|before|..]
  }

  /** A poll in a scan whose response timer has run out. */
  predicate TimedOut(m: Master, input: Input, gi: nat)
    requires gi < |m.groups|
  {
    input.Timers? && m.groups[gi].state == LinkScan && Expired(m.groups[gi].responseTimer, input.t.now)
  }

  // ---------------------------------------------------------------- lost scans are timeouts

  lemma StartLogs(setting: GroupSetting, gi: nat, c: Scope, t: Clock)
    requires LaidOut(setting, c.g) && ValidGroupSetting(setting)
    ensures var r := BeginScan(setting, gi, c, t);
            && |Log(gi, r.sh.trace)| == |Log(gi, c.sh.trace)| + 1
            && Log(gi, r.sh.trace)[..|Log(gi, c.sh.trace)|] == Log(gi, c.sh.trace)
            && Log(gi, r.sh.trace)[|Log(gi, c.sh.trace)|].Sent?
            && r.g.responseTimer == TimerState.Running(setting.timeout * 1000, t.now)
  {
    hide BeginScan, EncodeRequest, RequestOf, LaidOut, Log;
    BeginFacts(setting, gi, c, t);
  }

  /** Nothing lost so far, and nothing about to be: the log extends `log` by other entries. */
  predicate Unlost(gi: nat, log: seq<Output>, input: Input, c: Scope) {
    var now := Log(gi, c.sh.trace);
    && |log| <= |now| && now[..|log|] == log && LinkScanCb(gi, false) !in now[|log|..]
    && (input.Timers? && c.g.state == LinkScan ==> !Expired(c.g.responseTimer, input.t.now))
  }

  lemma UnlostStart(cfg: MasterConfig, gi: nat, log: seq<Output>, input: Input, c: Scope, a: Act)
    requires GoodConfig(cfg) && gi < |cfg.groups| && LaidOut(cfg.groups[gi], c.g) && ValidGroupSetting(cfg.groups[gi])
    requires Possible(cfg, gi, input, c, a) && GroupInv(cfg, gi, c) && Unlost(gi, log, input, c)
    requires StartsScan(cfg.groups[gi], c, a)
    ensures Unlost(gi, log, input, Do(cfg, gi, input, c, a))
  {
    hide LaidOut, BeginScan, StartFor, AtBoundary, Log, GroupEventStep, HaveReceivedFromAll, GroupInv, Do, Unwritten;
    StartingAct(cfg, gi, input, c, a);
    var s, r := StartFor(cfg, gi, input, c, a), Do(cfg, gi, input, c, a);
    StartLogs(cfg.groups[gi], gi, s, TimeOf(a));
    OffCountPositive(cfg, gi);
    var l0, l1, l2 := Log(gi, c.sh.trace), Log(gi, s.sh.trace), Log(gi, r.sh.trace);
    assert l2[..|log|] == l2[..|l1|][..|log|] == l1[..|log|] == log;
    forall k | |log| <= k < |l2| ensures l2[k] != LinkScanCb(gi, false) {
      if k < |l0| {
        assert l2[k] == l2[..|l1|][k] == l1[k] == l0[k] == l0[|log|..][k - |log|];
      } else if k < |l1| {
        assert l2[k] == l2[..|l1|][k] == l1[k];
      }
    }
  }

  lemma UnlostCalm(cfg: MasterConfig, gi: nat, log: seq<Output>, input: Input, c: Scope, a: Act)
    requires GoodConfig(cfg) && gi < |cfg.groups| && LaidOut(cfg.groups[gi], c.g) && ValidGroupSetting(cfg.groups[gi])
    requires Possible(cfg, gi, input, c, a) && GroupInv(cfg, gi, c) && Unlost(gi, log, input, c)
    requires !StartsScan(cfg.groups[gi], c, a)
    ensures Unlost(gi, log, input, Do(cfg, gi, input, c, a))
  {
    hide LaidOut, Log, GroupInv, HaveReceivedFromAll, Do, Calm, Possible;
    CalmAct(cfg, gi, input, c, a);
    var r := Do(cfg, gi, input, c, a);
    if input.Timers? {
      CalmScan(cfg, gi, input, c, a);
    }
    var l0, l2 := Log(gi, c.sh.trace), Log(gi, r.sh.trace);
    assert l2[..|log|] == l0[..|log|];
    forall k | |log| <= k < |l2| ensures l2[k] != LinkScanCb(gi, false) {
      if k < |l0| {
        assert l2[k] == l0[k] == l0[|log|..][k - |log|];
      }
    }
  }

  /** A poll that starts no scan neither enters LINK_SCAN nor restarts its timer. */
  lemma CalmScan(cfg: MasterConfig, gi: nat, input: Input, c: Scope, a: Act)
    requires GoodConfig(cfg) && gi < |cfg.groups| && LaidOut(cfg.groups[gi], c.g)
    requires Possible(cfg, gi, input, c, a) && GroupInv(cfg, gi, c) && input.Timers? && !StartsScan(cfg.groups[gi], c, a)
    ensures var r := Do(cfg, gi, input, c, a);
            r.g.state == LinkScan ==> c.g.state == LinkScan && r.g.responseTimer == c.g.responseTimer
  {
    hide LaidOut, Base, Log, AllListen, AllListenOrSent, NoneSending, HaveReceivedFromAll, StoreData, D.After;
    if c.g.state == LinkScan || c.g.state == LinkScanComp {
      hide Do;
      CalmTimer(cfg, gi, input, c, a);
    }
  }

  /** The scan still open with its timer, or lost and logged. */
  predicate Losing(gi: nat, log: seq<Output>, timer: TimerState, c: Scope) {
    var now := Log(gi, c.sh.trace);
    || (now == log && c.g.state == LinkScan && c.g.responseTimer == timer)
    || (|log| < |now| && now[|log|] == LinkScanCb(gi, false))
  }

  lemma LosingAct(cfg: MasterConfig, gi: nat, log: seq<Output>, timer: TimerState, input: Input, c: Scope, a: Act)
    requires GoodConfig(cfg) && gi < |cfg.groups| && LaidOut(cfg.groups[gi], c.g) && ValidGroupSetting(cfg.groups[gi])
    requires Possible(cfg, gi, input, c, a) && GroupInv(cfg, gi, c) && Losing(gi, log, timer, c) && input.Timers?
    ensures Losing(gi, log, timer, Do(cfg, gi, input, c, a))
  {
    hide LaidOut, BeginScan, StartFor, AtBoundary, Log, GroupEventStep, HaveReceivedFromAll, GroupInv, Do, Unwritten, Calm;
    var l0, r := Log(gi, c.sh.trace), Do(cfg, gi, input, c, a);
    if StartsScan(cfg.groups[gi], c, a) {
      StartingAct(cfg, gi, input, c, a);
      StartLogs(cfg.groups[gi], gi, StartFor(cfg, gi, input, c, a), TimeOf(a));
      var l1, l2 := Log(gi, StartFor(cfg, gi, input, c, a).sh.trace), Log(gi, r.sh.trace);
      assert |log| < |l0| ==> l2[|log|] == l2[..|l1|][|log|];
      assert |l0| < |l1| ==> l2[|l0|] == l2[..|l1|][|l0|];
    } else {
      CalmAct(cfg, gi, input, c, a);
      if l0 == log && c.g.state == LinkScan {
        hide Possible;
        CalmTimer(cfg, gi, input, c, a);
      }
    }
  }

  /** A scan is reported lost exactly when a poll finds the response timer of an open scan run out. */
  lemma ScanLostIff(cfg: MasterConfig, m: Master, input: Input, gi: nat)
    requires MasterInv(cfg, m) && gi < |m.groups| && Allowed(input)
    ensures ScanLost(cfg, m, input, gi) <==> TimedOut(m, input, gi)
  {
    hide LaidOut, GroupInv, Log, Possible, Do, Step, Expired;
    var c, log := ScopeOf(m, gi), Log(gi, m.sh.trace);
    var m2 := Step(cfg, m, input);
    GoodSetting(cfg, gi);
    var acts := StepIsActs(cfg, m, input, gi);
    assert GroupInv(cfg, gi, c);
    if TimedOut(m, input, gi) {
      var timer := c.g.responseTimer;
      LosingIsInductive(cfg, gi, log, timer, input);
      ChainInvariant(cfg, gi, input, c, acts, ScopeOf(m2, gi), (c: Scope) => Losing(gi, log, timer, c));
      PollSettles(cfg, MonitorArbitration(cfg, m, input.t), 0, input.t, gi);
      SettledTick(cfg, m, input.t, gi);
      var after := Log(gi, m2.sh.trace);
      assert after[|log|..][0] == after[|log|];
    } else {
      UnlostIsInductive(cfg, gi, log, input);
      ChainInvariant(cfg, gi, input, c, acts, ScopeOf(m2, gi), (c: Scope) => Unlost(gi, log, input, c));
    }
  }

  lemma LosingIsInductive(cfg: MasterConfig, gi: nat, log: seq<Output>, timer: TimerState, input: Input)
    requires GoodConfig(cfg) && gi < |cfg.groups| && input.Timers?
    ensures Inductive(cfg, gi, input, (c: Scope) => Losing(gi, log, timer, c))
  {
    hide LaidOut, GroupInv, Possible, Do, Losing;
    GoodSetting(cfg, gi);
    forall c: Scope, a | LaidOut(cfg.groups[gi], c.g) && Possible(cfg, gi, input, c, a) && GroupInv(cfg, gi, c) && Losing(gi, log, timer, c)
      ensures Losing(gi, log, timer, Do(cfg, gi, input, c, a))
    {
      LosingAct(cfg, gi, log, timer, input, c, a);
    }
  }

  lemma UnlostIsInductive(cfg: MasterConfig, gi: nat, log: seq<Output>, input: Input)
    requires GoodConfig(cfg) && gi < |cfg.groups|
    ensures Inductive(cfg, gi, input, (c: Scope) => Unlost(gi, log, input, c))
  {
    hide LaidOut, GroupInv, Possible, Do, Unlost, StartsScan;
    GoodSetting(cfg, gi);
    forall c: Scope, a | LaidOut(cfg.groups[gi], c.g) && Possible(cfg, gi, input, c, a) && GroupInv(cfg, gi, c) && Unlost(gi, log, input, c)
      ensures Unlost(gi, log, input, Do(cfg, gi, input, c, a))
    {
      if StartsScan(cfg.groups[gi], c, a) {
        UnlostStart(cfg, gi, log, input, c, a);
      } else {
        UnlostCalm(cfg, gi, log, input, c, a);
      }
    }
  }

  lemma SettledTick(cfg: MasterConfig, m: Master, t: Clock, gi: nat)
    requires Ready(cfg, m) && gi < |m.groups|
    requires Settled(MonitorGroups(cfg, MonitorArbitration(cfg, m, t), 0, t).groups[gi], t.now)
    ensures gi < |Step(cfg, m, Timers(t)).groups| && Settled(Step(cfg, m, Timers(t)).groups[gi], t.now)
  {
    hide MonitorGroups, MonitorArbitration, LaidOut, Settled;
  }

  // ---------------------------------------------------------------- one device, one step

  /** Data is exchanged with the device. */
  predicate InTheCycle(d: D.Device) {
    d.bit && d.state != D.Listen
  }

  /** The scan was lost while this device's data was under way. */
  predicate Missed(cfg: MasterConfig, m: Master, input: Input, gi: nat, i: nat)
    requires Ready(cfg, m) && Allowed(input) && gi < |m.groups| && i < |m.groups[gi].devices|
  {
    m.groups[gi].devices[i].state == D.CyclicSending && ScanLost(cfg, m, input, gi)
  }

  /** The device answered the open scan with success. */
  predicate AnsweredWell(cfg: MasterConfig, m: Master, input: Input, gi: nat, i: nat)
    requires Ready(cfg, m) && gi < |m.groups| && i < |m.groups[gi].devices|
  {
    && m.groups[gi].devices[i].state == D.CyclicSending
    && TakenFor(cfg, m, input, gi, i) && GroupRuns.Reply(input).endCode == ENDCODE_SUCCESS
  }

  /** The count of a device that starts in `d` and misses, or answers, or neither. */
  predicate Counted(d: D.Device, r: D.Device, missed: bool, answered: bool, offCount: u16) {
    && r.timeoutCount == (if !InTheCycle(r) then 0 else if missed then d.timeoutCount + 1
                          else if answered then 0 else d.timeoutCount)
    && (missed ==> (r.bit <==> d.timeoutCount + 1 < offCount))
    && (!r.bit ==> r.timeoutCount == 0)
  }

  predicate Tallied(d: D.Device, r: D.Device, dropped: bool) {
    r.counters.timeouts == (d.counters.timeouts + if dropped then 1 else 0) % U32_MODULUS
  }

  /** Count and tally after events, in terms of what happened. */
  predicate Accounts(d: D.Device, r: D.Device, missed: bool, answered: bool, offCount: u16) {
    Counted(d, r, missed, answered, offCount) && Tallied(d, r, missed && d.timeoutCount + 1 == offCount)
  }

  /** A device as every run leaves it: sound, and without a count while it is not connected. */
  predicate Orderly(d: D.Device, offCount: u16) {
    Sound(d, offCount) && d.state != D.MasterDown && (!d.bit ==> d.timeoutCount == 0)
  }

  lemma NoEventCounts(d: D.Device, ds: DeviceSetting, off: u16)
    requires Orderly(d, off)
    ensures Accounts(d, DeviceRun(d, ds, off, []), false, false, off)
  {
    EmptyRun(d, ds, off);
  }

  lemma OneEventCounts(d: D.Device, ds: DeviceSetting, off: u16, e: D.DeviceEvent)
    requires Orderly(d, off) && e != D.GroupTimeout
    ensures Accounts(d, DeviceRun(d, ds, off, [e]), false, d.state == D.CyclicSending && e == D.ReceiveOk, off)
  {
    hide DeviceRun, Inc32;
    RunOfOne(d, ds, off, e);
  }

  lemma LostScanCounts(d: D.Device, ds: DeviceSetting, off: u16)
    requires Orderly(d, off)
    ensures Accounts(d, DeviceRun(d, ds, off, [D.GroupTimeout, ScanStartFor(d)]), d.state == D.CyclicSending, false, off)
  {
    hide DeviceRun;
    RunOfTwo(d, ds, off, D.GroupTimeout, ScanStartFor(d));
  }

  /** What the end of a successful scan sends to a device. */
  predicate ScanEnd(d: D.Device, tail: seq<D.DeviceEvent>) {
    tail == [] || tail == [D.GroupAllResponded] || tail == [D.GroupAllResponded, ScanStartFor(d)]
  }

  lemma ScanEndCounts(d: D.Device, ds: DeviceSetting, off: u16, tail: seq<D.DeviceEvent>)
    requires Orderly(d, off) && ScanEnd(d, tail)
    ensures Accounts(d, DeviceRun(d, ds, off, tail), false, false, off)
  {
    hide DeviceRun, Inc32;
    EmptyRun(d, ds, off);
    RunOfOne(d, ds, off, D.GroupAllResponded);
    RunOfTwo(d, ds, off, D.GroupAllResponded, ScanStartFor(d));
  }

  lemma OwnEventKeeps(d: D.Device, ds: DeviceSetting, off: u16, e: D.DeviceEvent)
    requires Orderly(d, off) && (e == D.ReceiveOk || e == D.ReceiveError)
    ensures var r := D.After(d, ds, off, e);
            && Orderly(r, off) && r.bit == d.bit && r.enabled == d.enabled && Tallied(d, r, false)
            && r.timeoutCount == (if !InTheCycle(r) || (d.state == D.CyclicSending && e == D.ReceiveOk) then 0 else d.timeoutCount)
            && (r.bit && r.state == D.Listen ==> forall tail :: ScanEnd(r, tail) ==> !InTheCycle(DeviceRun(r, ds, off, tail)))
  {
    hide Inc32, DeviceRun;
    var r := D.After(d, ds, off, e);
    EmptyRun(r, ds, off);
    RunOfOne(r, ds, off, D.GroupAllResponded);
    RunOfTwo(r, ds, off, D.GroupAllResponded, ScanStartFor(r));
  }

  /** The device's own answer, and the end of the scan it may bring. */
  lemma AnswerCounts(d: D.Device, ds: DeviceSetting, off: u16, e: D.DeviceEvent, tail: seq<D.DeviceEvent>)
    requires Orderly(d, off) && ScanEnd(d, tail) && (e == D.ReceiveOk || e == D.ReceiveError)
    ensures Accounts(d, DeviceRun(d, ds, off, [e] + tail), false, d.state == D.CyclicSending && e == D.ReceiveOk, off)
  {
    hide DeviceRun, D.After;
    RunOfConcat(d, ds, off, [e], tail);
    RunOfOne(d, ds, off, e);
    var r := D.After(d, ds, off, e);
    OwnEventKeeps(d, ds, off, e);
    ScanEndCounts(r, ds, off, tail);
  }

  /** The group events of frames, as a device gets them. */
  lemma SentShapes(setting: GroupSetting, s: GroupState, d: D.Device)
    ensures ScanEnd(d, SentByEvent(setting, s, LinkScanComplete, d))
    ensures var a := SentByEvent(setting, s, DuplicationAlarm, d); a == [] || a == [D.GroupStandby]
    ensures var a := SentByEvent(setting, s, RequestFromOther, d); a == [] || a == [D.GroupStandby]
  {
  }

  lemma AtMostOneCounts(d: D.Device, ds: DeviceSetting, off: u16, es: seq<D.DeviceEvent>, e: D.DeviceEvent)
    requires Orderly(d, off) && (es == [] || es == [e]) && e != D.GroupTimeout && e != D.ReceiveOk
    ensures Accounts(d, DeviceRun(d, ds, off, es), false, false, off)
  {
    hide DeviceRun, Accounts;
    NoEventCounts(d, ds, off);
    OneEventCounts(d, ds, off, e);
  }

  lemma AnswerEventsCount(cfg: MasterConfig, m: Master, h: nat, j: nat, e: D.DeviceEvent, gi: nat, i: nat)
    requires |m.groups| == |cfg.groups| && h < |m.groups| && j < |m.groups[h].devices| && j < |cfg.groups[h].devices|
    requires gi < |m.groups| && i < |m.groups[gi].devices| && i < |cfg.groups[gi].devices|
    requires Orderly(m.groups[gi].devices[i], cfg.groups[gi].offCount) && (e == D.ReceiveOk || e == D.ReceiveError)
    ensures var d, off := m.groups[gi].devices[i], cfg.groups[gi].offCount;
            Accounts(d, DeviceRun(d, cfg.groups[gi].devices[i], off, AnswerEvents(cfg, m, h, j, e, gi, i)), false,
                     h == gi && j == i && d.state == D.CyclicSending && e == D.ReceiveOk, off)
  {
    hide DeviceRun, Accounts, Completes, SentByEvent, Orderly, ScanEnd;
    var d, ds, off := m.groups[gi].devices[i], cfg.groups[gi].devices[i], cfg.groups[gi].offCount;
    var tail := if h == gi && Completes(cfg.groups[h], m.groups[h], j, e)
                then SentByEvent(cfg.groups[gi], m.groups[gi].state, LinkScanComplete, d) else [];
    SentShapes(cfg.groups[gi], m.groups[gi].state, d);
    NothingEnds(d);
    if h == gi && j == i {
      AnswerCounts(d, ds, off, e, tail);
    } else {
      ScanEndCounts(d, ds, off, tail);
      assert AnswerEvents(cfg, m, h, j, e, gi, i) == tail;
    }
  }

  lemma NothingEnds(d: D.Device)
    ensures ScanEnd(d, [])
  {
  }

  /** A response of device j of group h is taken for device i of group gi only if they are the same. */
  predicate TakenAs(cfg: MasterConfig, m: Master, h: nat, j: nat, r: Response, gi: nat, i: nat)
    requires h < |m.groups| && j < |m.groups[h].devices| && h < |cfg.groups| && j < |cfg.groups[h].devices|
  {
    h == gi && j == i && IsTaken(m, h, j, cfg.groups[h].devices[j], r)
  }

  lemma ReplyCounts(cfg: MasterConfig, m: Master, h: nat, j: nat, r: Response, gi: nat, i: nat)
    requires |m.groups| == |cfg.groups| && h < |m.groups| && j < |m.groups[h].devices| && j < |cfg.groups[h].devices|
    requires gi < |m.groups| && i < |m.groups[gi].devices| && i < |cfg.groups[gi].devices|
    requires Orderly(m.groups[gi].devices[i], cfg.groups[gi].offCount)
    ensures var d, off := m.groups[gi].devices[i], cfg.groups[gi].offCount;
            Accounts(d, DeviceRun(d, cfg.groups[gi].devices[i], off, ReplyEvents(cfg, m, h, j, r, gi, i)), false,
                     TakenAs(cfg, m, h, j, r, gi, i) && d.state == D.CyclicSending && r.endCode == ENDCODE_SUCCESS, off)
  {
    hide DeviceRun, Accounts, SentByEvent, Orderly, AnswerEvents;
    var d, ds, off := m.groups[gi].devices[i], cfg.groups[gi].devices[i], cfg.groups[gi].offCount;
    SentShapes(cfg.groups[gi], m.groups[gi].state, d);
    NoEventCounts(d, ds, off);
    AtMostOneCounts(d, ds, off, if h == gi && j == i then [D.SlaveDuplication] else [], D.SlaveDuplication);
    AtMostOneCounts(d, ds, off, SentByEvent(cfg.groups[gi], m.groups[gi].state, DuplicationAlarm, d), D.GroupStandby);
    AnswerEventsCount(cfg, m, h, j, OwnEvent(r), gi, i);
  }

  lemma FrameCounts(cfg: MasterConfig, m: Master, input: Input, gi: nat, i: nat)
    requires Ready(cfg, m) && input.Frame? && gi < |m.groups| && i < |m.groups[gi].devices| && i < |cfg.groups[gi].devices|
    requires Orderly(m.groups[gi].devices[i], cfg.groups[gi].offCount)
    ensures var d, off := m.groups[gi].devices[i], cfg.groups[gi].offCount;
            Accounts(d, DeviceRun(d, cfg.groups[gi].devices[i], off, FrameEvents(cfg, m, input, gi, i)), false,
                     AnsweredWell(cfg, m, input, gi, i), off)
  {
    hide DeviceRun, Accounts, SentByEvent, Orderly, ReplyEvents, LaidOut, ParseResponse, IsRequest, IsResponse, IsTaken;
    var d, ds, off := m.groups[gi].devices[i], cfg.groups[gi].devices[i], cfg.groups[gi].offCount;
    SentShapes(cfg.groups[gi], m.groups[gi].state, d);
    NoEventCounts(d, ds, off);
    AtMostOneCounts(d, ds, off, SentByEvent(cfg.groups[gi], m.groups[gi].state, RequestFromOther, d), D.GroupStandby);
    if input.ip != cfg.masterId && IsReply(input) && 1 <= GroupRuns.Reply(input).groupNo <= |cfg.groups| {
      var r := GroupRuns.Reply(input);
      var h := r.groupNo - 1;
      var j := DeviceIndex(cfg.groups[h].devices, input.ip);
      Shape(cfg, m, h);
      if j < |cfg.groups[h].devices| {
        ReplyCounts(cfg, m, h, j, r, gi, i);
      }
    }
  }

  lemma PollCounts(cfg: MasterConfig, m: Master, input: Input, gi: nat, i: nat)
    requires Ready(cfg, m) && input.Timers? && gi < |m.groups| && i < |m.groups[gi].devices| && i < |cfg.groups[gi].devices|
    requires Orderly(m.groups[gi].devices[i], cfg.groups[gi].offCount)
    ensures var d, off := m.groups[gi].devices[i], cfg.groups[gi].offCount;
            Accounts(d, DeviceRun(d, cfg.groups[gi].devices[i], off, PollEvents(cfg.groups[gi], m.sh.arbTimer, m.groups[gi], i, input.t)),
                     TimedOut(m, input, gi) && d.state == D.CyclicSending, false, off)
  {
    hide DeviceRun, Accounts, Orderly, LaidOut, Expired;
    var d, ds, off := m.groups[gi].devices[i], cfg.groups[gi].devices[i], cfg.groups[gi].offCount;
    AtMostOneCounts(d, ds, off, [], D.GroupStandby);
    OneEventCounts(d, ds, off, ScanStartFor(d));
    LostScanCounts(d, ds, off);
  }

  lemma AccountsCarry(d: D.Device, q: D.Device, r: D.Device, missed: bool, answered: bool, off: u16, tallies: bool)
    requires Accounts(d, q, missed, answered, off) && SameCore(q, r) && (tallies ==> SameTallies(q, r))
    ensures Counted(d, r, missed, answered, off)
    ensures tallies ==> Tallied(d, r, missed && d.timeoutCount + 1 == off)
  {
  }

  /** One step of the master, on one device: its timeout count goes up by one exactly when it missed a
      scan, the miss that makes the count reach the limit drops it and is tallied, and a good answer
      or leaving the cycle sets the count to zero. */
  lemma StepDisconnects(cfg: MasterConfig, m: Master, input: Input, gi: nat, i: nat)
    requires MasterInv(cfg, m) && AllUp(m) && Allowed(input)
    requires gi < |m.groups| && i < |m.groups[gi].devices| && i < |cfg.groups[gi].devices|
    requires Orderly(m.groups[gi].devices[i], cfg.groups[gi].offCount)
    ensures var r := Step(cfg, m, input);
            && |r.groups| == |m.groups| && |r.groups[gi].devices| == |m.groups[gi].devices|
            && var d, q, off := m.groups[gi].devices[i], r.groups[gi].devices[i], cfg.groups[gi].offCount;
            && Counted(d, q, Missed(cfg, m, input, gi, i), AnsweredWell(cfg, m, input, gi, i), off)
            && (!input.ClearStatistics? ==> Tallied(d, q, Missed(cfg, m, input, gi, i) && d.timeoutCount + 1 == off))
  {
    hide DeviceRun, Accounts, Orderly, LaidOut, Step, FrameEvents, PollEvents, Counted, Tallied, ScanLost, GroupInv, AllUp;
    var d, ds, off := m.groups[gi].devices[i], cfg.groups[gi].devices[i], cfg.groups[gi].offCount;
    StepOnDevice(cfg, m, input, gi, i);
    ScanLostIff(cfg, m, input, gi);
    NoEventCounts(d, ds, off);
    if input.Timers? {
      PollCounts(cfg, m, input, gi, i);
    } else if input.Frame? {
      FrameCounts(cfg, m, input, gi, i);
    }
    AccountsCarry(d, DeviceRun(d, ds, off, StepEvents(cfg, m, input, gi, i)), Step(cfg, m, input).groups[gi].devices[i],
                  Missed(cfg, m, input, gi, i), AnsweredWell(cfg, m, input, gi, i), off, !input.ClearStatistics?);
  }

  // ---------------------------------------------------------------- whole runs

  /** The scans a connected device missed in a row since its last good answer, counted from the link
      scan callbacks of the run. */
  function MissedInARow(cfg: MasterConfig, m: Master, inputs: seq<Input>, gi: nat, i: nat): nat
    requires Ready(cfg, m) && (forall k :: 0 <= k < |inputs| ==> Allowed(inputs[k]))
    requires gi < |cfg.groups| && i < |cfg.groups[gi].devices|
  {
    hide LaidOut, Step, Missed, AnsweredWell;
    if inputs == [] then 0
    else
      var rest, last := inputs[..|inputs| - 1], inputs[|inputs| - 1];
      var m1, m2 := Run(cfg, m, rest), Run(cfg, m, inputs);
      Shape(cfg, m1, gi);
      Shape(cfg, m2, gi);
      if !InTheCycle(m2.groups[gi].devices[i]) then 0
      else if Missed(cfg, m1, last, gi, i) then MissedInARow(cfg, m, rest, gi, i) + 1
      else if AnsweredWell(cfg, m1, last, gi, i) then 0
      else MissedInARow(cfg, m, rest, gi, i)
  }

  /** Whether the last step of a run was a miss that made the row as long as the limit. */
  predicate DroppedLast(cfg: MasterConfig, m: Master, inputs: seq<Input>, gi: nat, i: nat)
    requires Ready(cfg, m) && (forall k :: 0 <= k < |inputs| ==> Allowed(inputs[k]))
    requires gi < |cfg.groups| && i < |cfg.groups[gi].devices| && inputs != []
  {
    hide LaidOut, Step, Missed, MissedInARow;
    var rest := inputs[..|inputs| - 1];
    Shape(cfg, Run(cfg, m, rest), gi);
    && Missed(cfg, Run(cfg, m, rest), inputs[|inputs| - 1], gi, i)
    && MissedInARow(cfg, m, rest, gi, i) + 1 == cfg.groups[gi].offCount
  }

  /** How often that happened. */
  function DropsInRun(cfg: MasterConfig, m: Master, inputs: seq<Input>, gi: nat, i: nat): nat
    requires Ready(cfg, m) && (forall k :: 0 <= k < |inputs| ==> Allowed(inputs[k]))
    requires gi < |cfg.groups| && i < |cfg.groups[gi].devices|
  {
    if inputs == [] then 0
    else DropsInRun(cfg, m, inputs[..|inputs| - 1], gi, i) + if DroppedLast(cfg, m, inputs, gi, i) then 1 else 0
  }

  lemma {:induction false} RunIsUp(cfg: MasterConfig, m: Master, inputs: seq<Input>)
    requires Ready(cfg, m) && AllUp(m) && (forall k :: 0 <= k < |inputs| ==> Allowed(inputs[k]))
    ensures AllUp(Run(cfg, m, inputs))
  {
    hide LaidOut, Step, AllUp;
    if inputs != [] {
      RunIsUp(cfg, m, inputs[..|inputs| - 1]);
      StepStaysUp(cfg, Run(cfg, m, inputs[..|inputs| - 1]), inputs[|inputs| - 1]);
    }
  }

  lemma InvIsSound(cfg: MasterConfig, m: Master, gi: nat, i: nat)
    requires MasterInv(cfg, m) && gi < |m.groups| && i < |m.groups[gi].devices|
    ensures Sound(m.groups[gi].devices[i], cfg.groups[gi].offCount)
  {
    hide LaidOut, Log, LogFits, FrameFits, Sound;
    assert GroupInv(cfg, gi, ScopeOf(m, gi));
  }

  /** What the record of a device says about a run: the row of misses, and without a statistics clear
      the number of drops. */
  predicate RecordFits(cfg: MasterConfig, m: Master, inputs: seq<Input>, gi: nat, i: nat)
    requires Ready(cfg, m) && (forall k :: 0 <= k < |inputs| ==> Allowed(inputs[k]))
    requires gi < |cfg.groups| && i < |cfg.groups[gi].devices|
  {
    hide LaidOut, Step, MissedInARow, DropsInRun;
    var r := Run(cfg, m, inputs);
    Shape(cfg, r, gi);
    var d := r.groups[gi].devices[i];
    && d.timeoutCount == MissedInARow(cfg, m, inputs, gi, i)
    && (!d.bit ==> d.timeoutCount == 0)
    && ((forall k :: 0 <= k < |inputs| ==> !inputs[k].ClearStatistics?) ==>
          d.counters.timeouts == DropsInRun(cfg, m, inputs, gi, i) % U32_MODULUS)
  }

  lemma {:induction false} RunRecords(cfg: MasterConfig, m: Master, inputs: seq<Input>, gi: nat, i: nat)
    requires MasterInv(cfg, m) && AllUp(m) && (forall k :: 0 <= k < |inputs| ==> Allowed(inputs[k]))
    requires gi < |m.groups| && i < |m.groups[gi].devices| && i < |cfg.groups[gi].devices|
    requires m.groups[gi].devices[i].timeoutCount == 0 && m.groups[gi].devices[i].counters.timeouts == 0
    ensures RecordFits(cfg, m, inputs, gi, i)
  {
    hide LaidOut, Step, GroupInv, AllUp, Missed, AnsweredWell, InTheCycle, Allowed;
    if inputs != [] {
      var rest, last := inputs[..|inputs| - 1], inputs[|inputs| - 1];
      var m1 := Run(cfg, m, rest);
      RunRecords(cfg, m, rest, gi, i);
      RunKeeps(cfg, m, rest);
      RunIsUp(cfg, m, rest);
      Shape(cfg, m1, gi);
      IsUp(m1, gi, i);
      InvIsSound(cfg, m1, gi, i);
      StepDisconnects(cfg, m1, last, gi, i);
      assert last == inputs[|rest|];
    }
  }

  /** Over this run the timeout count is the number of scans missed in a row, below the limit, and
      without a statistics clear the timeout tally is the number of drops. */
  predicate CountIsRow(cfg: MasterConfig, m: Master, inputs: seq<Input>, gi: nat, i: nat)
    requires Ready(cfg, m) && (forall k :: 0 <= k < |inputs| ==> Allowed(inputs[k]))
    requires gi < |cfg.groups| && i < |cfg.groups[gi].devices|
  {
    hide LaidOut, Step, MissedInARow, DropsInRun;
    var r := Run(cfg, m, inputs);
    Shape(cfg, r, gi);
    var d := r.groups[gi].devices[i];
    && d.timeoutCount == MissedInARow(cfg, m, inputs, gi, i) < cfg.groups[gi].offCount
    && ((forall k :: 0 <= k < |inputs| ==> !inputs[k].ClearStatistics?) ==>
          d.counters.timeouts == DropsInRun(cfg, m, inputs, gi, i) % U32_MODULUS)
  }

  /** If the last step is a miss of a connected device, it drops the device exactly when it makes the
      row as long as the limit. */
  predicate LastMissDrops(cfg: MasterConfig, m: Master, inputs: seq<Input>, gi: nat, i: nat)
    requires Ready(cfg, m) && (forall k :: 0 <= k < |inputs| ==> Allowed(inputs[k])) && inputs != []
    requires gi < |cfg.groups| && i < |cfg.groups[gi].devices|
  {
    hide LaidOut, Step, Missed, DroppedLast;
    var m1, r := Run(cfg, m, inputs[..|inputs| - 1]), Run(cfg, m, inputs);
    Shape(cfg, m1, gi);
    Shape(cfg, r, gi);
    Missed(cfg, m1, inputs[|inputs| - 1], gi, i) ==>
      && m1.groups[gi].devices[i].bit
      && (!r.groups[gi].devices[i].bit <==> DroppedLast(cfg, m, inputs, gi, i))
  }

  /** Exact disconnection. Over every run from initialisation the timeout count of a device is the number
      of scans it missed in a row since its last good answer, and below the limit. A missed scan drops
      the device exactly when it makes the row as long as the limit; without a statistics clear the
      timeout tally is the number of those drops. */
  lemma ExactDisconnections(cfg: MasterConfig, parameterNo: u16, t0: Clock, inputs: seq<Input>, gi: nat, i: nat)
    requires GoodConfig(cfg) && gi < |cfg.groups| && i < |cfg.groups[gi].devices|
    requires forall j :: 0 <= j < |inputs| ==> Allowed(inputs[j])
    ensures CountIsRow(cfg, Init(cfg, parameterNo, t0), inputs, gi, i)
    ensures inputs != [] ==> LastMissDrops(cfg, Init(cfg, parameterNo, t0), inputs, gi, i)
  {
    hide LaidOut, Step, GroupInv, AllUp, Missed, AnsweredWell, Allowed, Init, Run, Begun, MissedInARow, DropsInRun, LastMissDrops;
    var m0 := Init(cfg, parameterNo, t0);
    InitKeeps(cfg, parameterNo, t0);
    BegunIsUp(cfg, m0);
    Shape(cfg, m0, gi);
    BegunDevice(cfg, gi, ScopeOf(m0, gi), i);
    RunRecords(cfg, m0, inputs, gi, i);
    RunKeeps(cfg, m0, inputs);
    var m := Run(cfg, m0, inputs);
    Shape(cfg, m, gi);
    InvIsSound(cfg, m, gi, i);
    if inputs != [] {
      LastStepDrops(cfg, m0, inputs, gi, i);
    }
  }

  lemma BegunIsUp(cfg: MasterConfig, m: Master)
    requires Ready(cfg, m) && forall gi :: 0 <= gi < |m.groups| ==> Begun(cfg, gi, ScopeOf(m, gi))
    ensures AllUp(m)
  {
    hide LaidOut, GroupInv, Begun;
    forall gi | 0 <= gi < |m.groups| ensures GroupUp(m.groups[gi]) {
      Shape(cfg, m, gi);
      forall i | 0 <= i < |m.groups[gi].devices| ensures m.groups[gi].devices[i].state != D.MasterDown {
        BegunDevice(cfg, gi, ScopeOf(m, gi), i);
      }
    }
  }

  lemma LastStepDrops(cfg: MasterConfig, m0: Master, inputs: seq<Input>, gi: nat, i: nat)
    requires MasterInv(cfg, m0) && AllUp(m0) && (forall k :: 0 <= k < |inputs| ==> Allowed(inputs[k])) && inputs != []
    requires gi < |m0.groups| && i < |m0.groups[gi].devices| && i < |cfg.groups[gi].devices|
    requires m0.groups[gi].devices[i].timeoutCount == 0 && m0.groups[gi].devices[i].counters.timeouts == 0
    ensures LastMissDrops(cfg, m0, inputs, gi, i)
  {
    hide LaidOut, Step, GroupInv, AllUp, ScanLost, AnsweredWell, Allowed, MissedInARow, DropsInRun;
    var rest, last := inputs[..|inputs| - 1], inputs[|inputs| - 1];
    var m1 := Run(cfg, m0, rest);
    RunRecords(cfg, m0, rest, gi, i);
    RunKeeps(cfg, m0, rest);
    RunIsUp(cfg, m0, rest);
    Shape(cfg, m1, gi);
    IsUp(m1, gi, i);
    InvIsSound(cfg, m1, gi, i);
    StepDisconnects(cfg, m1, last, gi, i);
    assert last == inputs[|rest|];
  }

  /** The scans missed in a row as the application can count them are the misses that the device's own
      events show, and so are the drops, up to the width of the tally. */
  lemma RowsAgree(cfg: MasterConfig, parameterNo: u16, t0: Clock, inputs: seq<Input>, gi: nat, i: nat)
    requires GoodConfig(cfg) && gi < |cfg.groups| && i < |cfg.groups[gi].devices|
    requires forall j :: 0 <= j < |inputs| ==> Allowed(inputs[j])
    ensures var m0 := Init(cfg, parameterNo, t0);
            && i < |m0.groups[gi].devices|
            && var d0, ds, off := m0.groups[gi].devices[i], cfg.groups[gi].devices[i], cfg.groups[gi].offCount;
            var es := RunEvents(cfg, m0, inputs, gi, i);
            && (DeviceRun(d0, ds, off, es).state != D.Listen ==> Misses(d0, ds, off, es) == MissedInARow(cfg, m0, inputs, gi, i))
            && ((forall k :: 0 <= k < |inputs| ==> !inputs[k].ClearStatistics?) ==>
                  (Drops(d0, ds, off, es) - DropsInRun(cfg, m0, inputs, gi, i)) % U32_MODULUS == 0)
  {
    hide LaidOut, GroupInv, AllUp, Allowed, Init, Run, Begun, MissedInARow, DropsInRun, Misses, Drops, DeviceRun, RunEvents, LastIsMiss;
    var m0, ds, off := Init(cfg, parameterNo, t0), cfg.groups[gi].devices[i], cfg.groups[gi].offCount;
    InitKeeps(cfg, parameterNo, t0);
    BegunIsUp(cfg, m0);
    Shape(cfg, m0, gi);
    BegunDevice(cfg, gi, ScopeOf(m0, gi), i);
    OffCountPositive(cfg, gi);
    RunOnDevice(cfg, m0, inputs, gi, i);
    DeviceRuns.ExactDisconnection(m0.groups[gi].devices[i], ds, off, RunEvents(cfg, m0, inputs, gi, i));
    ExactDisconnections(cfg, parameterNo, t0, inputs, gi, i);
    Shape(cfg, Run(cfg, m0, inputs), gi);
  }
}
