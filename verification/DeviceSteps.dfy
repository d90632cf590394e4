/** What one step of the master sends to each device, as a function of the master and the input. */
module DeviceSteps {
  import opened Words
  import opened Config
  import opened Layout
  import opened Timer
  import opened Frames
  import opened Responses
  import opened GroupModel
  import opened MasterModel
  import opened GroupRuns
  import opened DeviceRuns
  import opened Histories
  import opened Progress
  import opened ScanInvariant
  import D = DeviceModel

  // ---------------------------------------------------------------- the events of a step

  /** A poll: arbitration is over, the scan has timed out, or the next scan is due. */
  function PollEvents(setting: GroupSetting, arbTimer: TimerState, g: Group, i: nat, t: Clock): seq<D.DeviceEvent>
    requires i < |g.devices|
  {
    if g.state == MasterArbitration && Expired(arbTimer, t.now) then SentByEvent(setting, g.state, ArbitrationDone, g.devices[i])
    else if g.state == LinkScan && Expired(g.responseTimer, t.now) then SentByEvent(setting, g.state, LinkScanTimeout, g.devices[i])
    else if g.state == LinkScanComp && Expired(g.scanTimer, t.now) then SentByEvent(setting, g.state, LinkScanStart, g.devices[i])
    else []
  }

  /** The event a usable response is turned into. */
  function OwnEvent(r: Response): D.DeviceEvent {
    if r.endCode == ENDCODE_SUCCESS then D.ReceiveOk else D.ReceiveError
  }

  /** Whether the response of device j was the last one missing. */
  predicate Completes(setting: GroupSetting, g: Group, j: nat, e: D.DeviceEvent)
    requires j < |g.devices| && j < |setting.devices|
  {
    HaveReceivedFromAll(PutDevice(g, j, D.After(g.devices[j], setting.devices[j], setting.offCount, e)))
  }

  /** An answer and, if it was the last one missing, the end of the scan. */
  function AnswerEvents(cfg: MasterConfig, m: Master, h: nat, j: nat, e: D.DeviceEvent, gi: nat, i: nat): seq<D.DeviceEvent>
    requires |m.groups| == |cfg.groups| && h < |m.groups| && j < |m.groups[h].devices| && j < |cfg.groups[h].devices|
    requires gi < |m.groups| && i < |m.groups[gi].devices|
  {
    (if h == gi && j == i then [e] else [])
    + (if h == gi && Completes(cfg.groups[h], m.groups[h], j, e)
       then SentByEvent(cfg.groups[gi], m.groups[gi].state, LinkScanComplete, m.groups[gi].devices[i]) else [])
  }

  /** A response of device j of group h, seen from device i of group gi. */
  function ReplyEvents(cfg: MasterConfig, m: Master, h: nat, j: nat, r: Response, gi: nat, i: nat): seq<D.DeviceEvent>
    requires |m.groups| == |cfg.groups| && h < |m.groups| && j < |m.groups[h].devices| && j < |cfg.groups[h].devices|
    requires gi < |m.groups| && i < |m.groups[gi].devices|
  {
    var g, q := m.groups[h], m.groups[gi];
    if g.devices[j].enabled && Repeats(g.devices[j], r) then (if h == gi && j == i then [D.SlaveDuplication] else [])
    else if !IsUsable(g.devices[j], g.seqNo, r) then []
    else
      if r.Stations() != cfg.groups[h].devices[j].stations then []
      else if r.endCode == ENDCODE_MASTER_DUPLICATION then SentByEvent(cfg.groups[gi], q.state, DuplicationAlarm, q.devices[i])
      else AnswerEvents(cfg, m, h, j, OwnEvent(r), gi, i)
  }

  function FrameEvents(cfg: MasterConfig, m: Master, input: Input, gi: nat, i: nat): seq<D.DeviceEvent>
    requires Ready(cfg, m) && input.Frame? && gi < |m.groups| && i < |m.groups[gi].devices|
  {
    if input.ip == cfg.masterId then []
    else if IsReply(input) then
      var r := Reply(input);
      if !(1 <= r.groupNo <= |cfg.groups|) then []
      else
        var h := r.groupNo - 1;
        var j := DeviceIndex(cfg.groups[h].devices, input.ip);
        Shape(cfg, m, h);
        if j == |cfg.groups[h].devices| then [] else ReplyEvents(cfg, m, h, j, r, gi, i)
    else if IsForeignRequest(cfg, input) then
      SentByEvent(cfg.groups[gi], m.groups[gi].state, RequestFromOther, m.groups[gi].devices[i])
    else []
  }

  /** Everything one step sends to device i of group gi, in order. */
  function StepEvents(cfg: MasterConfig, m: Master, input: Input, gi: nat, i: nat): seq<D.DeviceEvent>
    requires Ready(cfg, m) && gi < |m.groups| && i < |m.groups[gi].devices|
  {
    match input
    case Timers(t) => PollEvents(cfg.groups[gi], m.sh.arbTimer, m.groups[gi], i, t)
    case Frame(_, _, _) => FrameEvents(cfg, m, input, gi, i)
    case _ => []
  }

  // ---------------------------------------------------------------- group events

  lemma OneGroupOnDevice(cfg: MasterConfig, m: Master, h: nat, t: Clock, e: GroupEvent, gi: nat, i: nat)
    requires Ready(cfg, m) && h < |m.groups| && gi < |m.groups| && i < |m.groups[gi].devices| && i < |cfg.groups[gi].devices|
    requires e != Startup && e != NewConfig && e != ParameterChange
    ensures var r := OneGroup(cfg, m, h, t, e);
            && |r.groups| == |m.groups| && |r.groups[gi].devices| == |m.groups[gi].devices|
            && (h != gi ==> r.groups[gi] == m.groups[gi])
            && (h == gi ==> r.groups[gi].devices[i]
                            == DeviceRun(m.groups[gi].devices[i], cfg.groups[gi].devices[i], cfg.groups[gi].offCount,
                                         SentByEvent(cfg.groups[gi], m.groups[gi].state, e, m.groups[gi].devices[i])))
  {
    hide GroupEventStep, LaidOut, DeviceRun;
    GoodSetting(cfg, h);
    if h == gi {
      EventOnDevice(cfg, cfg.groups[gi], gi, ScopeOf(m, gi), t, e, i);
      Shape(cfg, m, gi);
      Shape(cfg, OneGroup(cfg, m, h, t, e), gi);
    }
  }

  lemma {:induction false} AllGroupsOnDevice(cfg: MasterConfig, m: Master, k: nat, t: Clock, e: GroupEvent, gi: nat, i: nat)
    requires Ready(cfg, m) && k <= |m.groups| && gi < |m.groups| && i < |m.groups[gi].devices| && i < |cfg.groups[gi].devices|
    requires e != Startup && e != NewConfig && e != ParameterChange
    ensures var r := AllGroups(cfg, m, k, t, e);
            && |r.groups| == |m.groups| && |r.groups[gi].devices| == |m.groups[gi].devices|
            && (k > gi ==> r.groups[gi] == m.groups[gi])
            && (k <= gi ==> r.groups[gi].devices[i]
                            == DeviceRun(m.groups[gi].devices[i], cfg.groups[gi].devices[i], cfg.groups[gi].offCount,
                                         SentByEvent(cfg.groups[gi], m.groups[gi].state, e, m.groups[gi].devices[i])))
    decreases |m.groups| - k
  {
    hide OneGroup, LaidOut, DeviceRun, SentByEvent;
    if k < |m.groups| {
      OneGroupOnDevice(cfg, m, k, t, e, gi, i);
      AllGroupsOnDevice(cfg, OneGroup(cfg, m, k, t, e), k + 1, t, e, gi, i);
    }
  }

  // ---------------------------------------------------------------- polls

  /** The response timer of group gi, at its turn in a poll. */
  lemma ResponseTimerOnDevice(cfg: MasterConfig, m: Master, gi: nat, t: Clock, i: nat)
    requires Ready(cfg, m) && gi < |m.groups| && i < |m.groups[gi].devices| && i < |cfg.groups[gi].devices|
    ensures var g, r := m.groups[gi], AfterResponseTimer(cfg, m, gi, t);
            && |r.groups| == |m.groups| && |r.groups[gi].devices| == |g.devices| && r.groups[gi].state == g.state
            && (g.state == LinkScan && Expired(g.responseTimer, t.now) ==>
                  r.groups[gi].devices[i] == DeviceRun(g.devices[i], cfg.groups[gi].devices[i], cfg.groups[gi].offCount,
                                                       SentByEvent(cfg.groups[gi], LinkScan, LinkScanTimeout, g.devices[i])))
            && (!(g.state == LinkScan && Expired(g.responseTimer, t.now)) ==>
                  r.groups[gi] == g.(responseTimer := r.groups[gi].responseTimer))
  {
    hide OneGroup, LaidOut, Expired, DeviceRun, SentByEvent;
    LaidOutApart(cfg, m, gi);
    var m0 := m.(groups := m.groups[gi := m.groups[gi].(responseTimer := Stopped)]);
    OneGroupOnDevice(cfg, m0, gi, t, LinkScanTimeout, gi, i);
    TimeoutState(cfg, m0, gi, t);
  }

  /** Then its constant link scan timer. */
  lemma ScanTimerOnDevice(cfg: MasterConfig, m: Master, gi: nat, t: Clock, i: nat)
    requires Ready(cfg, m) && gi < |m.groups| && i < |m.groups[gi].devices| && i < |cfg.groups[gi].devices|
    ensures var g, r := m.groups[gi], AfterScanTimer(cfg, m, gi, t);
            && |r.groups| == |m.groups| && |r.groups[gi].devices| == |g.devices|
            && r.groups[gi].devices[i]
               == if Expired(g.scanTimer, t.now) then
                    DeviceRun(g.devices[i], cfg.groups[gi].devices[i], cfg.groups[gi].offCount,
                              SentByEvent(cfg.groups[gi], g.state, LinkScanStart, g.devices[i]))
                  else g.devices[i]
  {
    hide OneGroup, LaidOut, Expired, DeviceRun, SentByEvent;
    LaidOutApart(cfg, m, gi);
    OneGroupOnDevice(cfg, m.(groups := m.groups[gi := m.groups[gi].(scanTimer := Stopped)]), gi, t, LinkScanStart, gi, i);
  }

  /** Group gi at its turn in a poll. */
  lemma MonitorOnDevice(cfg: MasterConfig, m: Master, gi: nat, t: Clock, i: nat)
    requires Ready(cfg, m) && gi < |m.groups| && i < |m.groups[gi].devices| && i < |cfg.groups[gi].devices|
    ensures var r := MonitorGroup(cfg, m, gi, t);
            && |r.groups| == |m.groups| && |r.groups[gi].devices| == |m.groups[gi].devices|
            && r.groups[gi].devices[i]
               == DeviceRun(m.groups[gi].devices[i], cfg.groups[gi].devices[i], cfg.groups[gi].offCount,
                            PollEvents(cfg.groups[gi], Stopped, m.groups[gi], i, t))
  {
    hide AfterResponseTimer, AfterScanTimer, LaidOut, Expired, DeviceRun;
    var ds, off := cfg.groups[gi].devices[i], cfg.groups[gi].offCount;
    var m1 := AfterResponseTimer(cfg, m, gi, t);
    NeverExpired(t.now);
    ResponseTimerOnDevice(cfg, m, gi, t, i);
    ScanTimerOnDevice(cfg, m1, gi, t, i);
    EmptyRun(m1.groups[gi].devices[i], ds, off);
  }

  lemma NeverExpired(now: u32)
    ensures !Expired(Stopped, now)
  {
  }

  /** A timeout concerns a scanning group only, and leaves it scanning. */
  lemma TimeoutState(cfg: MasterConfig, m: Master, gi: nat, t: Clock)
    requires Ready(cfg, m) && gi < |m.groups|
    ensures var g, q := m.groups[gi], OneGroup(cfg, m, gi, t, LinkScanTimeout).groups[gi];
            && q.state == g.state && (g.state != LinkScan ==> q == g)
  {
    hide LaidOut, TimeOutScan;
    GoodSetting(cfg, gi);
  }

  lemma {:induction false} MonitorAllOnDevice(cfg: MasterConfig, m: Master, k: nat, t: Clock, gi: nat, i: nat)
    requires Ready(cfg, m) && k <= |m.groups| && gi < |m.groups| && i < |m.groups[gi].devices| && i < |cfg.groups[gi].devices|
    ensures var r := MonitorGroups(cfg, m, k, t);
            && |r.groups| == |m.groups| && |r.groups[gi].devices| == |m.groups[gi].devices|
            && r.groups[gi].devices[i]
               == if k > gi then m.groups[gi].devices[i]
                  else DeviceRun(m.groups[gi].devices[i], cfg.groups[gi].devices[i], cfg.groups[gi].offCount,
                                 PollEvents(cfg.groups[gi], Stopped, m.groups[gi], i, t))
    decreases |m.groups| - k
  {
    hide MonitorGroup, LaidOut, DeviceRun, PollEvents;
    if k < |m.groups| {
      MonitorOther(cfg, m, k, t, gi);
      if k == gi {
        MonitorOnDevice(cfg, m, gi, t, i);
      }
      MonitorAllOnDevice(cfg, MonitorGroup(cfg, m, k, t), k + 1, t, gi, i);
    }
  }

  /** The end of arbitration starts the first scan of a group that waits for it, and nothing else. */
  lemma {:induction false} ArbitrationDoneOn(cfg: MasterConfig, m: Master, k: nat, t: Clock, gi: nat)
    requires Ready(cfg, m) && k <= |m.groups| && gi < |m.groups|
    ensures var g, q := m.groups[gi], AllGroups(cfg, m, k, t, ArbitrationDone).groups[gi];
            if k <= gi && g.state == MasterArbitration then
              q.state == LinkScan && q.responseTimer == TimerState.Running(cfg.groups[gi].timeout * 1000, t.now)
            else q == g
    decreases |m.groups| - k
  {
    hide OneGroup, LaidOut;
    if k < |m.groups| {
      OneArbitrationDone(cfg, m, k, t, gi);
      ArbitrationDoneOn(cfg, OneGroup(cfg, m, k, t, ArbitrationDone), k + 1, t, gi);
    }
  }

  lemma OneArbitrationDone(cfg: MasterConfig, m: Master, h: nat, t: Clock, gi: nat)
    requires Ready(cfg, m) && h < |m.groups| && gi < |m.groups|
    ensures var g, q := m.groups[gi], OneGroup(cfg, m, h, t, ArbitrationDone).groups[gi];
            if h == gi && g.state == MasterArbitration then
              q.state == LinkScan && q.responseTimer == TimerState.Running(cfg.groups[gi].timeout * 1000, t.now)
            else q == g
  {
    hide LaidOut, Deliver, EnterListen, FallToListen, CompleteScan, TimeOutScan, EncodeRequest;
    GoodSetting(cfg, h);
  }

  lemma TickOnDevice(cfg: MasterConfig, m: Master, t: Clock, gi: nat, i: nat)
    requires Ready(cfg, m) && gi < |m.groups| && i < |m.groups[gi].devices| && i < |cfg.groups[gi].devices|
    ensures var r := Tick(cfg, m, t);
            && |r.groups| == |m.groups| && |r.groups[gi].devices| == |m.groups[gi].devices|
            && r.groups[gi].devices[i]
               == DeviceRun(m.groups[gi].devices[i], cfg.groups[gi].devices[i], cfg.groups[gi].offCount,
                            PollEvents(cfg.groups[gi], m.sh.arbTimer, m.groups[gi], i, t))
  {
    hide MonitorGroups, AllGroups, LaidOut, DeviceRun;
    var d, ds, off := m.groups[gi].devices[i], cfg.groups[gi].devices[i], cfg.groups[gi].offCount;
    var m0 := m.(sh := m.sh.(arbTimer := Stopped));
    EmptyRun(d, ds, off);
    if Expired(m.sh.arbTimer, t.now) {
      AllGroupsOnDevice(cfg, m0, 0, t, ArbitrationDone, gi, i);
      ArbitrationDoneOn(cfg, m0, 0, t, gi);
      OffCountPositive(cfg, gi);
    }
    var m1 := MonitorArbitration(cfg, m, t);
    EmptyRun(m1.groups[gi].devices[i], ds, off);
    MonitorAllOnDevice(cfg, m1, 0, t, gi, i);
  }

  // ---------------------------------------------------------------- responses

  /** A device record changed without an event. */
  predicate Alike(d: D.Device, r: D.Device) {
    SameCore(d, r) && SameTallies(d, r) && r.enabled == d.enabled && r.forced == d.forced && r.counters.sent == d.counters.sent
  }

  predicate AlikeGroup(g: Group, q: Group) {
    && q.state == g.state && q.seqNo == g.seqNo && |q.devices| == |g.devices|
    && (forall i :: 0 <= i < |g.devices| ==> Alike(g.devices[i], q.devices[i]))
  }

  predicate AlikeMaster(m: Master, r: Master) {
    |r.groups| == |m.groups| && forall gi :: 0 <= gi < |m.groups| ==> AlikeGroup(m.groups[gi], r.groups[gi])
  }

  lemma AlikeSelf(m: Master)
    ensures AlikeMaster(m, m)
  {
  }

  lemma WithDeviceAlike(cfg: MasterConfig, m: Master, h: nat, j: nat, d: D.Device, sh: Shared)
    requires Ready(cfg, m) && h < |m.groups| && j < |m.groups[h].devices| && Alike(m.groups[h].devices[j], d)
    ensures AlikeMaster(m, WithDevice(cfg, m.(sh := sh), h, j, d))
  {
    hide LaidOut;
  }

  lemma KeepResponseAlike(cfg: MasterConfig, m: Master, t: Clock, h: nat, j: nat, r: Response)
    requires Ready(cfg, m) && h < |m.groups| && j < |m.groups[h].devices| && j < |cfg.groups[h].devices|
    requires r.WellFormed() && r.Stations() == cfg.groups[h].devices[j].stations
    ensures AlikeMaster(m, KeepResponse(cfg, m, t, h, j, r))
  {
    hide LaidOut, StoreData, ReportChanges, KeepResponse;
    GoodSetting(cfg, h);
    KeepResponseParts(cfg, m, t, h, j, r);
    var m1 := WithDevice(cfg, m, h, j, Recorded(cfg, m, t, h, j, r));
    WithDeviceAlike(cfg, m, h, j, Recorded(cfg, m, t, h, j, r), m.sh);
    assert m.(sh := m.sh) == m;
    StoredAlike(cfg.groups[h], m1.groups[h], j, r, m.groups[h].devices[j].bit);
  }

  lemma StoredAlike(setting: GroupSetting, g: Group, j: nat, r: Response, valid: bool)
    requires LaidOut(setting, g) && ValidGroupSetting(setting) && j < |g.devices| && j < |setting.devices|
    requires r.WellFormed() && r.Stations() == setting.devices[j].stations
    ensures var q := StoreData(setting, g, j, r, valid); q.state == g.state && q.seqNo == g.seqNo && q.devices == g.devices
  {
  }

  lemma AlikeReceived(g: Group, q: Group)
    requires AlikeGroup(g, q)
    ensures HaveReceivedFromAll(g) <==> HaveReceivedFromAll(q)
  {
    forall i | 0 <= i < |g.devices| ensures Alike(g.devices[i], q.devices[i]) {
    }
  }

  lemma AlikeSent(setting: GroupSetting, s: GroupState, e: GroupEvent, d: D.Device, q: D.Device)
    requires Alike(d, q)
    ensures SentByEvent(setting, s, e, q) == SentByEvent(setting, s, e, d)
  {
  }

  /** The event of one device, seen from device i of group gi. */
  lemma OneDeviceOnDevice(cfg: MasterConfig, m: Master, h: nat, j: nat, e: D.DeviceEvent, gi: nat, i: nat)
    requires Ready(cfg, m) && h < |m.groups| && j < |m.groups[h].devices| && j < |cfg.groups[h].devices| && e != D.GroupStartup
    requires gi < |m.groups| && i < |m.groups[gi].devices|
    ensures var r := OneDevice(cfg, m, h, j, e);
            && |r.groups| == |m.groups| && |r.groups[gi].devices| == |m.groups[gi].devices|
            && (h != gi ==> r.groups[gi] == m.groups[gi])
            && (h == gi ==> r.groups[gi].state == m.groups[gi].state && r.groups[gi].seqNo == m.groups[gi].seqNo
                            && r.groups[gi].devices == m.groups[gi].devices[j := D.After(m.groups[gi].devices[j],
                                                         cfg.groups[gi].devices[j], cfg.groups[gi].offCount, e)])
  {
    hide LaidOut, D.After, PatchFrame;
    GoodSetting(cfg, h);
  }

  lemma AnsweredOnDevice(cfg: MasterConfig, m: Master, t: Clock, h: nat, j: nat, e: D.DeviceEvent, gi: nat, i: nat)
    requires Ready(cfg, m) && h < |m.groups| && j < |m.groups[h].devices| && j < |cfg.groups[h].devices|
    requires gi < |m.groups| && i < |m.groups[gi].devices| && i < |cfg.groups[gi].devices|
    requires e == D.ReceiveOk || e == D.ReceiveError
    ensures var r := Answered(cfg, m, t, h, j, e);
            && |r.groups| == |m.groups| && |r.groups[gi].devices| == |m.groups[gi].devices|
            && r.groups[gi].devices[i]
               == DeviceRun(m.groups[gi].devices[i], cfg.groups[gi].devices[i], cfg.groups[gi].offCount,
                            AnswerEvents(cfg, m, h, j, e, gi, i))
  {
    hide LaidOut, D.After, OneDevice, OneGroup, HaveReceivedFromAll, SentByEvent, DeviceRun;
    var d, ds, off := m.groups[gi].devices[i], cfg.groups[gi].devices[i], cfg.groups[gi].offCount;
    var m1 := OneDevice(cfg, m, h, j, e);
    OneDeviceOnDevice(cfg, m, h, j, e, gi, i);
    OneDeviceOnDevice(cfg, m, h, j, e, h, j);
    EmptyRun(d, ds, off);
    RunOfOne(d, ds, off, e);
    SameAnswers(m1.groups[h], PutDevice(m.groups[h], j, D.After(m.groups[h].devices[j], cfg.groups[h].devices[j], cfg.groups[h].offCount, e)));
    if HaveReceivedFromAll(m1.groups[h]) {
      OneGroupOnDevice(cfg, m1, h, t, LinkScanComplete, gi, i);
      if h == gi {
        KeepsFlags(d, ds, off, e);
        SentAfter(cfg.groups[gi], m.groups[gi].state, LinkScanComplete, d, m1.groups[gi].devices[i]);
        RunOfConcat(d, ds, off, if j == i then [e] else [], SentByEvent(cfg.groups[gi], m.groups[gi].state, LinkScanComplete, d));
      }
    } else {
      assert AnswerEvents(cfg, m, h, j, e, gi, i) == if h == gi && j == i then [e] else [];
    }
  }

  lemma SameAnswers(g: Group, q: Group)
    requires g.devices == q.devices && g.seqNo == q.seqNo
    ensures HaveReceivedFromAll(g) <==> HaveReceivedFromAll(q)
  {
  }

  lemma SentAfter(setting: GroupSetting, s: GroupState, e: GroupEvent, d: D.Device, q: D.Device)
    requires q.enabled == d.enabled
    ensures SentByEvent(setting, s, e, q) == SentByEvent(setting, s, e, d)
  {
  }

  /** Device i of group gi after the events, and every other group in place. */
  predicate Leaves(cfg: MasterConfig, m: Master, gi: nat, i: nat, es: seq<D.DeviceEvent>, r: Master)
    requires gi < |m.groups| && gi < |cfg.groups| && i < |m.groups[gi].devices| && i < |cfg.groups[gi].devices|
  {
    && |r.groups| == |m.groups| && |r.groups[gi].devices| == |m.groups[gi].devices|
    && Behaves(m.groups[gi].devices[i], cfg.groups[gi].devices[i], cfg.groups[gi].offCount, es, r.groups[gi].devices[i], true)
  }

  lemma LeavesAfterAlike(cfg: MasterConfig, m: Master, q: Master, gi: nat, i: nat, es: seq<D.DeviceEvent>, r: Master)
    requires AlikeMaster(m, q) && gi < |m.groups| && gi < |cfg.groups| && i < |m.groups[gi].devices| && i < |cfg.groups[gi].devices|
    requires m.groups[gi].devices[i].state != D.MasterDown
    requires |q.groups[gi].devices| == |m.groups[gi].devices|
    requires Leaves(cfg, q, gi, i, es, r)
    ensures Leaves(cfg, m, gi, i, es, r)
  {
    hide DeviceRun;
    assert AlikeGroup(m.groups[gi], q.groups[gi]);
    RunRespectsCore(m.groups[gi].devices[i], q.groups[gi].devices[i], cfg.groups[gi].devices[i], cfg.groups[gi].offCount, es);
  }

  lemma LeavesExactly(cfg: MasterConfig, m: Master, gi: nat, i: nat, es: seq<D.DeviceEvent>, r: Master)
    requires gi < |m.groups| && gi < |cfg.groups| && i < |m.groups[gi].devices| && i < |cfg.groups[gi].devices|
    requires |r.groups| == |m.groups| && |r.groups[gi].devices| == |m.groups[gi].devices|
    requires r.groups[gi].devices[i] == DeviceRun(m.groups[gi].devices[i], cfg.groups[gi].devices[i], cfg.groups[gi].offCount, es)
    ensures Leaves(cfg, m, gi, i, es, r)
  {
    hide DeviceRun;
  }

  lemma AnswerKeepsSent(d: D.Device, setting: DeviceSetting, offCount: u16, e: D.DeviceEvent)
    requires e == D.ReceiveOk || e == D.ReceiveError
    ensures D.After(d, setting, offCount, e).counters.sent == d.counters.sent
  {
  }

  lemma AlikeCompletes(setting: GroupSetting, g: Group, q: Group, j: nat, e: D.DeviceEvent)
    requires AlikeGroup(g, q) && j < |g.devices| && j < |setting.devices| && g.devices[j].state != D.MasterDown
    requires e == D.ReceiveOk || e == D.ReceiveError
    ensures Completes(setting, g, j, e) <==> Completes(setting, q, j, e)
  {
    hide D.After, HaveReceivedFromAll;
    AfterRespectsCore(g.devices[j], q.devices[j], setting.devices[j], setting.offCount, e);
    KeepsFlags(g.devices[j], setting.devices[j], setting.offCount, e);
    KeepsFlags(q.devices[j], setting.devices[j], setting.offCount, e);
    AnswerKeepsSent(g.devices[j], setting.devices[j], setting.offCount, e);
    AnswerKeepsSent(q.devices[j], setting.devices[j], setting.offCount, e);
    AlikeReceived(PutDevice(g, j, D.After(g.devices[j], setting.devices[j], setting.offCount, e)),
                  PutDevice(q, j, D.After(q.devices[j], setting.devices[j], setting.offCount, e)));
  }

  lemma AlikeAnswers(cfg: MasterConfig, m: Master, q: Master, h: nat, j: nat, e: D.DeviceEvent, gi: nat, i: nat)
    requires AlikeMaster(m, q) && |m.groups| == |cfg.groups| && h < |m.groups| && j < |m.groups[h].devices| && j < |cfg.groups[h].devices|
    requires gi < |m.groups| && i < |m.groups[gi].devices| && (h == gi ==> m.groups[h].devices[j].state != D.MasterDown)
    requires e == D.ReceiveOk || e == D.ReceiveError
    ensures AlikeGroup(m.groups[h], q.groups[h]) && AlikeGroup(m.groups[gi], q.groups[gi])
    ensures AnswerEvents(cfg, q, h, j, e, gi, i) == AnswerEvents(cfg, m, h, j, e, gi, i)
    ensures SentByEvent(cfg.groups[gi], q.groups[gi].state, DuplicationAlarm, q.groups[gi].devices[i])
            == SentByEvent(cfg.groups[gi], m.groups[gi].state, DuplicationAlarm, m.groups[gi].devices[i])
  {
    hide Completes, SentByEvent;
    assert AlikeGroup(m.groups[h], q.groups[h]) && AlikeGroup(m.groups[gi], q.groups[gi]);
    var d, d2 := m.groups[gi].devices[i], q.groups[gi].devices[i];
    AlikeSent(cfg.groups[gi], m.groups[gi].state, DuplicationAlarm, d, d2);
    AlikeSent(cfg.groups[gi], m.groups[gi].state, LinkScanComplete, d, d2);
    if h == gi {
      AlikeCompletes(cfg.groups[h], m.groups[h], q.groups[h], j, e);
    }
  }

  /** No device is down: true from initialisation on. */
  predicate AllUp(m: Master) {
    forall gi :: 0 <= gi < |m.groups| ==> GroupUp(m.groups[gi])
  }

  predicate GroupUp(g: Group) {
    forall i :: 0 <= i < |g.devices| ==> g.devices[i].state != D.MasterDown
  }

  lemma IsUp(m: Master, gi: nat, i: nat)
    requires AllUp(m) && gi < |m.groups| && i < |m.groups[gi].devices|
    ensures m.groups[gi].devices[i].state != D.MasterDown
  {
    assert GroupUp(m.groups[gi]);
  }

  lemma AcceptOnDevice(cfg: MasterConfig, m: Master, t: Clock, h: nat, j: nat, r: Response, gi: nat, i: nat)
    requires Ready(cfg, m) && AllUp(m) && h < |m.groups| && j < |m.groups[h].devices| && j < |cfg.groups[h].devices|
    requires gi < |m.groups| && i < |m.groups[gi].devices| && i < |cfg.groups[gi].devices|
    requires r.WellFormed() && r.Stations() == cfg.groups[h].devices[j].stations
    ensures Leaves(cfg, m, gi, i,
                   if r.endCode == ENDCODE_MASTER_DUPLICATION then
                     SentByEvent(cfg.groups[gi], m.groups[gi].state, DuplicationAlarm, m.groups[gi].devices[i])
                   else AnswerEvents(cfg, m, h, j, OwnEvent(r), gi, i),
                   AcceptResponse(cfg, m, t, h, j, r))
  {
    hide LaidOut, KeepResponse, AllGroups, Answered, SentByEvent, DeviceRun, Leaves, AnswerEvents;
    var q := KeepResponse(cfg, m, t, h, j, r);
    KeepResponseAlike(cfg, m, t, h, j, r);
    IsUp(m, h, j);
    IsUp(m, gi, i);
    AlikeAnswers(cfg, m, q, h, j, OwnEvent(r), gi, i);
    var after := AcceptResponse(cfg, m, t, h, j, r);
    if r.endCode == ENDCODE_MASTER_DUPLICATION {
      AllGroupsOnDevice(cfg, q, 0, t, DuplicationAlarm, gi, i);
      LeavesExactly(cfg, q, gi, i, SentByEvent(cfg.groups[gi], q.groups[gi].state, DuplicationAlarm, q.groups[gi].devices[i]), after);
      LeavesAfterAlike(cfg, m, q, gi, i,
                       SentByEvent(cfg.groups[gi], m.groups[gi].state, DuplicationAlarm, m.groups[gi].devices[i]), after);
    } else {
      AnsweredOnDevice(cfg, q, t, h, j, OwnEvent(r), gi, i);
      LeavesExactly(cfg, q, gi, i, AnswerEvents(cfg, q, h, j, OwnEvent(r), gi, i), after);
      LeavesAfterAlike(cfg, m, q, gi, i, AnswerEvents(cfg, m, h, j, OwnEvent(r), gi, i), after);
    }
  }

  lemma AlikeLeaves(cfg: MasterConfig, m: Master, q: Master, gi: nat, i: nat)
    requires AlikeMaster(m, q) && gi < |m.groups| && gi < |cfg.groups| && i < |m.groups[gi].devices| && i < |cfg.groups[gi].devices|
    ensures Leaves(cfg, m, gi, i, [], q)
  {
    hide DeviceRun;
    assert AlikeGroup(m.groups[gi], q.groups[gi]);
    EmptyRun(m.groups[gi].devices[i], cfg.groups[gi].devices[i], cfg.groups[gi].offCount);
  }

  lemma AlikeUp(m: Master, q: Master)
    requires AlikeMaster(m, q) && AllUp(m)
    ensures AllUp(q)
  {
    forall gi | 0 <= gi < |q.groups| ensures GroupUp(q.groups[gi]) {
      assert GroupUp(m.groups[gi]) && AlikeGroup(m.groups[gi], q.groups[gi]);
      forall i | 0 <= i < |q.groups[gi].devices| ensures q.groups[gi].devices[i].state != D.MasterDown {
        assert Alike(m.groups[gi].devices[i], q.groups[gi].devices[i]);
      }
    }
  }

  lemma InSequenceOnDevice(cfg: MasterConfig, m: Master, t: Clock, h: nat, j: nat, r: Response, ip: u32, gi: nat, i: nat)
    requires Ready(cfg, m) && AllUp(m) && h < |m.groups| && j < |m.groups[h].devices| && j < |cfg.groups[h].devices|
    requires gi < |m.groups| && i < |m.groups[gi].devices| && i < |cfg.groups[gi].devices| && r.WellFormed()
    ensures Leaves(cfg, m, gi, i,
                   if r.Stations() != cfg.groups[h].devices[j].stations then []
                   else if r.endCode == ENDCODE_MASTER_DUPLICATION then
                     SentByEvent(cfg.groups[gi], m.groups[gi].state, DuplicationAlarm, m.groups[gi].devices[i])
                   else AnswerEvents(cfg, m, h, j, OwnEvent(r), gi, i),
                   HandleInSequence(cfg, m, t, h, j, r, ip))
  {
    hide LaidOut, AcceptResponse, ReportComplaint, Leaves, AnswerEvents, SentByEvent, AllUp, Response.WellFormed;
    var sh := ReportComplaint(m.sh, r.endCode, ip);
    var d := if IsComplaint(r.endCode) then CountAlarm(m.groups[h].devices[j]) else m.groups[h].devices[j];
    if r.Stations() != cfg.groups[h].devices[j].stations {
      WithDeviceAlike(cfg, m, h, j, CountInvalid(d), sh);
      AlikeLeaves(cfg, m, WithDevice(cfg, m.(sh := sh), h, j, CountInvalid(d)), gi, i);
    } else {
      WithDeviceAlike(cfg, m, h, j, d, sh);
      var q := WithDevice(cfg, m.(sh := sh), h, j, d);
      AlikeUp(m, q);
      IsUp(m, h, j);
      IsUp(m, gi, i);
      AlikeAnswers(cfg, m, q, h, j, OwnEvent(r), gi, i);
      AcceptOnDevice(cfg, q, t, h, j, r, gi, i);
      LeavesAfterAlike(cfg, m, q, gi, i,
                       if r.endCode == ENDCODE_MASTER_DUPLICATION then
                         SentByEvent(cfg.groups[gi], m.groups[gi].state, DuplicationAlarm, m.groups[gi].devices[i])
                       else AnswerEvents(cfg, m, h, j, OwnEvent(r), gi, i),
                       AcceptResponse(cfg, q, t, h, j, r));
    }
  }

  lemma DuplicateOnDevice(cfg: MasterConfig, m: Master, h: nat, j: nat, gi: nat, i: nat)
    requires Ready(cfg, m) && h < |m.groups| && j < |m.groups[h].devices| && j < |cfg.groups[h].devices|
    requires gi < |m.groups| && i < |m.groups[gi].devices| && i < |cfg.groups[gi].devices|
    ensures Leaves(cfg, m, gi, i, if h == gi && j == i then [D.SlaveDuplication] else [],
                   OneDevice(cfg, m, h, j, D.SlaveDuplication))
  {
    hide LaidOut, D.After, OneDevice, DeviceRun;
    var d, ds, off := m.groups[gi].devices[i], cfg.groups[gi].devices[i], cfg.groups[gi].offCount;
    OneDeviceOnDevice(cfg, m, h, j, D.SlaveDuplication, gi, i);
    EmptyRun(d, ds, off);
    RunOfOne(d, ds, off, D.SlaveDuplication);
  }

  lemma ReplyOnDevice(cfg: MasterConfig, m: Master, t: Clock, h: nat, j: nat, r: Response, ip: u32, gi: nat, i: nat)
    requires Ready(cfg, m) && AllUp(m) && h < |m.groups| && j < |m.groups[h].devices| && j < |cfg.groups[h].devices|
    requires gi < |m.groups| && i < |m.groups[gi].devices| && i < |cfg.groups[gi].devices| && r.WellFormed()
    ensures Leaves(cfg, m, gi, i, ReplyEvents(cfg, m, h, j, r, gi, i), HandleFromDevice(cfg, m, t, h, j, r, ip))
  {
    hide LaidOut, HandleInSequence, OneDevice, Leaves, AnswerEvents, SentByEvent, AllUp, Response.WellFormed;
    var d := CountIncoming(m.groups[h].devices[j]);
    IsUp(m, gi, i);
    IsUp(m, h, j);
    match Judge(d, m.groups[h].seqNo, r)
    case Unusable =>
      WithDeviceAlike(cfg, m, h, j, CountInvalid(d), m.sh);
      assert m.(sh := m.sh) == m;
      AlikeLeaves(cfg, m, WithDevice(cfg, m, h, j, CountInvalid(d)), gi, i);
    case Duplicate =>
      var sh := Note(m.sh, GroupModel.ErrorReport(SlaveDuplicated, ip));
      WithDeviceAlike(cfg, m, h, j, CountInvalid(d), sh);
      var q := WithDevice(cfg, m.(sh := sh), h, j, CountInvalid(d));
      DuplicateOnDevice(cfg, q, h, j, gi, i);
      LeavesAfterAlike(cfg, m, q, gi, i, if h == gi && j == i then [D.SlaveDuplication] else [], OneDevice(cfg, q, h, j, D.SlaveDuplication));
    case InSequence =>
      WithDeviceAlike(cfg, m, h, j, d, m.sh);
      assert m.(sh := m.sh) == m;
      var q := WithDevice(cfg, m, h, j, d);
      AlikeUp(m, q);
      AlikeAnswers(cfg, m, q, h, j, OwnEvent(r), gi, i);
      InSequenceOnDevice(cfg, q, t, h, j, r, ip, gi, i);
      LeavesAfterAlike(cfg, m, q, gi, i, ReplyEvents(cfg, m, h, j, r, gi, i), HandleInSequence(cfg, q, t, h, j, r, ip));
  }

  // ---------------------------------------------------------------- steps and runs

  lemma FrameOnDevice(cfg: MasterConfig, m: Master, input: Input, gi: nat, i: nat)
    requires Ready(cfg, m) && AllUp(m) && input.Frame? && Allowed(input)
    requires gi < |m.groups| && i < |m.groups[gi].devices| && i < |cfg.groups[gi].devices|
    ensures Leaves(cfg, m, gi, i, FrameEvents(cfg, m, input, gi, i), Receive(cfg, m, input.t, input.bytes, input.ip))
  {
    hide LaidOut, HandleFromDevice, AllGroups, Leaves, ReplyEvents, SentByEvent, ParseResponse, IsRequest, IsResponse, AllUp;
    var t, b, ip := input.t, input.bytes, input.ip;
    AlikeSelf(m);
    AlikeLeaves(cfg, m, m, gi, i);
    if ip != cfg.masterId {
      ReplyIsResponse(b, ip);
      if IsResponse(b) {
        if ParseResponse(b, ip).Parsed? {
          var r := ParseResponse(b, ip).r;
          AcceptedResponseIsEncoded(b, ip);
          if r.groupNo <= |cfg.groups| {
            var h := r.groupNo - 1;
            var j := DeviceIndex(cfg.groups[h].devices, ip);
            Shape(cfg, m, h);
            if j < |cfg.groups[h].devices| {
              ReplyOnDevice(cfg, m, t, h, j, r, ip, gi, i);
            }
          }
        }
      } else if IsRequest(b) {
        var m0 := m.(sh := m.sh.(conflictIp := ip));
        AllGroupsOnDevice(cfg, m0, 0, t, RequestFromOther, gi, i);
        LeavesExactly(cfg, m, gi, i, FrameEvents(cfg, m, input, gi, i), AllGroups(cfg, m0, 0, t, RequestFromOther));
      }
    }
  }

  /** One step of the master does to each device exactly what the events of the step say; without a
      statistics clear also to its tallies. */
  lemma StepOnDevice(cfg: MasterConfig, m: Master, input: Input, gi: nat, i: nat)
    requires Ready(cfg, m) && AllUp(m) && Allowed(input)
    requires gi < |m.groups| && i < |m.groups[gi].devices| && i < |cfg.groups[gi].devices|
    ensures var r := Step(cfg, m, input);
            && |r.groups| == |m.groups| && |r.groups[gi].devices| == |m.groups[gi].devices|
            && Behaves(m.groups[gi].devices[i], cfg.groups[gi].devices[i], cfg.groups[gi].offCount,
                       StepEvents(cfg, m, input, gi, i), r.groups[gi].devices[i], !input.ClearStatistics?)
  {
    hide LaidOut, Tick, Receive, FrameEvents, PollEvents, DeviceRun, AllUp;
    EmptyRun(m.groups[gi].devices[i], cfg.groups[gi].devices[i], cfg.groups[gi].offCount);
    match input
    case Timers(t) =>
      TickOnDevice(cfg, m, t, gi, i);
      LeavesExactly(cfg, m, gi, i, StepEvents(cfg, m, input, gi, i), Tick(cfg, m, t));
    case Frame(_, _, _) => FrameOnDevice(cfg, m, input, gi, i);
    case _ =>
  }

  lemma StepStaysUp(cfg: MasterConfig, m: Master, input: Input)
    requires Ready(cfg, m) && AllUp(m) && Allowed(input)
    ensures AllUp(Step(cfg, m, input))
  {
    hide LaidOut, Step, StepEvents, DeviceRun;
    var r := Step(cfg, m, input);
    forall gi | 0 <= gi < |r.groups| ensures GroupUp(r.groups[gi]) {
      assert GroupUp(m.groups[gi]);
      Shape(cfg, m, gi);
      Shape(cfg, r, gi);
      forall i | 0 <= i < |r.groups[gi].devices| ensures r.groups[gi].devices[i].state != D.MasterDown {
        StepOnDevice(cfg, m, input, gi, i);
        RunRespectsCore(m.groups[gi].devices[i], m.groups[gi].devices[i], cfg.groups[gi].devices[i], cfg.groups[gi].offCount,
                        StepEvents(cfg, m, input, gi, i));
      }
    }
  }

  /** Everything a run sends to device i of group gi, in order. */
  function RunEvents(cfg: MasterConfig, m: Master, inputs: seq<Input>, gi: nat, i: nat): seq<D.DeviceEvent>
    requires Ready(cfg, m) && (forall k :: 0 <= k < |inputs| ==> Allowed(inputs[k]))
    requires gi < |cfg.groups| && i < |cfg.groups[gi].devices|
  {
    hide LaidOut, Step, StepEvents;
    if inputs == [] then []
    else
      var rest := inputs[..|inputs| - 1];
      var m1 := Run(cfg, m, rest);
      Shape(cfg, m1, gi);
      RunEvents(cfg, m, rest, gi, i) + StepEvents(cfg, m1, inputs[|inputs| - 1], gi, i)
  }

  /** Over any run every device behaves exactly as the events of the run make it. */
  lemma {:induction false} RunOnDevice(cfg: MasterConfig, m: Master, inputs: seq<Input>, gi: nat, i: nat)
    requires Ready(cfg, m) && AllUp(m) && (forall k :: 0 <= k < |inputs| ==> Allowed(inputs[k]))
    requires gi < |m.groups| && i < |m.groups[gi].devices| && i < |cfg.groups[gi].devices|
    ensures var r := Run(cfg, m, inputs);
            && AllUp(r) && i < |r.groups[gi].devices|
            && Behaves(m.groups[gi].devices[i], cfg.groups[gi].devices[i], cfg.groups[gi].offCount,
                       RunEvents(cfg, m, inputs, gi, i), r.groups[gi].devices[i],
                       forall k :: 0 <= k < |inputs| ==> !inputs[k].ClearStatistics?)
  {
    hide LaidOut, Step, StepEvents, DeviceRun, AllUp, Behaves;
    var d, ds, off := m.groups[gi].devices[i], cfg.groups[gi].devices[i], cfg.groups[gi].offCount;
    IsUp(m, gi, i);
    if inputs == [] {
      AlikeSelf(m);
      AlikeLeaves(cfg, m, m, gi, i);
    } else {
      var rest, last := inputs[..|inputs| - 1], inputs[|inputs| - 1];
      var m1 := Run(cfg, m, rest);
      RunOnDevice(cfg, m, rest, gi, i);
      Shape(cfg, m1, gi);
      StepOnDevice(cfg, m1, last, gi, i);
      StepStaysUp(cfg, m1, last);
      var clean := forall k :: 0 <= k < |inputs| ==> !inputs[k].ClearStatistics?;
      if clean {
        assert last == inputs[|rest|];
        assert forall k :: 0 <= k < |rest| ==> rest[k] == inputs[k];
      }
      BehavesWeaker(d, ds, off, RunEvents(cfg, m, rest, gi, i), m1.groups[gi].devices[i],
                    forall k :: 0 <= k < |rest| ==> !rest[k].ClearStatistics?, clean);
      BehavesWeaker(m1.groups[gi].devices[i], ds, off, StepEvents(cfg, m1, last, gi, i), Step(cfg, m1, last).groups[gi].devices[i],
                    !last.ClearStatistics?, clean);
      BehavesOn(d, ds, off, RunEvents(cfg, m, rest, gi, i), m1.groups[gi].devices[i],
                StepEvents(cfg, m1, last, gi, i), Step(cfg, m1, last).groups[gi].devices[i], clean);
    }
  }

  lemma BehavesWeaker(d: D.Device, ds: DeviceSetting, off: u16, es: seq<D.DeviceEvent>, r: D.Device, all: bool, some: bool)
    requires Behaves(d, ds, off, es, r, all) && (some ==> all)
    ensures Behaves(d, ds, off, es, r, some)
  {
  }
}
