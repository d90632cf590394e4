/** The header fields of requests, and the stamp of the scan start, traced back to the inputs. */
module RequestContents {
  import opened Words
  import opened Config
  import opened Timer
  import opened Frames
  import opened GroupModel
  import opened MasterModel
  import opened GroupRuns
  import opened Histories
  import opened FrameViews
  import opened Scans
  import opened ScanInvariant
  import opened ScanStarts
  import opened Startup
  import opened ArbitrationSafety
  import opened MasterTheorems
  import opened MasterReports
  import opened ResponseRules
  import D = DeviceModel

  // ---------------------------------------------------------------- one input

  /** What the acts of an input of time t have done so far, when the log had n entries before: the scan
      start is stamped by the last request, and every request carries the time, the status and the
      parameter number of the moment. */
  predicate Stamped(gi: nat, n: nat, start: u32, t: Clock, unitInfo: u16, parameterNo: u16, c: Scope) {
    var log := Log(gi, c.sh.trace);
    && |log| >= n && c.sh.unitInfo == unitInfo && c.g.frame.parameterNo == parameterNo
    && c.g.scanStart == (if (|log| + 1) / 2 > (n + 1) / 2 then t.now else start)
    && (forall k :: n <= k < |log| && log[k].Sent? ==>
          log[k].request.clock == t.unixMs && log[k].request.unitInfo == unitInfo && log[k].request.parameterNo == parameterNo)
  }

  lemma ActSettings(cfg: MasterConfig, gi: nat, input: Input, c: Scope, a: Act)
    requires GoodConfig(cfg) && gi < |cfg.groups| && LaidOut(cfg.groups[gi], c.g) && ValidGroupSetting(cfg.groups[gi])
    requires Possible(cfg, gi, input, c, a) && (input.Timers? || input.Frame?)
    ensures Do(cfg, gi, input, c, a).sh.unitInfo == c.sh.unitInfo
  {
    hide LaidOut, GroupEventStep, DeviceEvent, StoreData, HaveReceivedFromAll, Reports, LastState, RecordOf;
    if IsGroupEvent(a) {
      MetFacts(cfg, gi, input, c, a);
      EventSpares(cfg, cfg.groups[gi], gi, Met(c, a), TimeOf(a), EventOf(a));
    } else if a.Fire? {
      DeviceEventSpares(cfg.groups[gi], gi, c, a.i, a.de);
    }
  }

  lemma CalmStart(cfg: MasterConfig, gi: nat, input: Input, c: Scope, a: Act)
    requires GoodConfig(cfg) && gi < |cfg.groups| && LaidOut(cfg.groups[gi], c.g) && ValidGroupSetting(cfg.groups[gi])
    requires Possible(cfg, gi, input, c, a) && !StartsScan(cfg.groups[gi], c, a)
    ensures Do(cfg, gi, input, c, a).g.scanStart == c.g.scanStart
  {
    hide LaidOut, GroupEventStep, DeviceEvent, HaveReceivedFromAll;
    if IsGroupEvent(a) {
      MetFacts(cfg, gi, input, c, a);
      CalmEventStart(cfg, cfg.groups[gi], gi, Met(c, a), TimeOf(a), EventOf(a));
    }
  }

  lemma CalmEventStart(cfg: MasterConfig, setting: GroupSetting, gi: nat, c: Scope, t: Clock, e: GroupEvent)
    requires LaidOut(setting, c.g) && ValidGroupSetting(setting) && !Starts(setting, c.g.state, e)
    requires e != Startup && e != NewConfig && e != ParameterChange
    ensures GroupEventStep(cfg, setting, gi, c, t, e).g.scanStart == c.g.scanStart
  {
    hide LaidOut, Deliver, BeginScan, TimeOutScan;
  }

  lemma OddWhileScanning(cfg: MasterConfig, gi: nat, c: Scope)
    requires GoodConfig(cfg) && gi < |cfg.groups| && GroupInv(cfg, gi, c)
    ensures c.g.state == LinkScan ==> |Log(gi, c.sh.trace)| % 2 == 1
  {
    hide Base, Log;
  }

  lemma EvenAtBoundary(cfg: MasterConfig, gi: nat, c: Scope)
    requires GoodConfig(cfg) && gi < |cfg.groups| && AtBoundary(cfg, gi, c)
    ensures |Log(gi, c.sh.trace)| % 2 == 0 && LaidOut(cfg.groups[gi], c.g)
  {
    hide Log;
  }

  lemma ActStamps(cfg: MasterConfig, gi: nat, input: Input, c: Scope, a: Act, n: nat, start: u32, unitInfo: u16, parameterNo: u16)
    requires GoodConfig(cfg) && gi < |cfg.groups| && LaidOut(cfg.groups[gi], c.g) && ValidGroupSetting(cfg.groups[gi])
    requires Possible(cfg, gi, input, c, a) && GroupInv(cfg, gi, c) && (input.Timers? || input.Frame?)
    requires Stamped(gi, n, start, input.t, unitInfo, parameterNo, c)
    ensures Stamped(gi, n, start, input.t, unitInfo, parameterNo, Do(cfg, gi, input, c, a))
  {
    hide LaidOut, GroupInv, Do, Log, Possible, StartsScan, Stamped;
    if StartsScan(cfg.groups[gi], c, a) {
      StartStamps(cfg, gi, input, c, a, n, start, unitInfo, parameterNo);
    } else {
      ActSettings(cfg, gi, input, c, a);
      CalmAct(cfg, gi, input, c, a);
      CalmStart(cfg, gi, input, c, a);
      OddWhileScanning(cfg, gi, c);
      CalmStamps(gi, c, a, Do(cfg, gi, input, c, a), n, start, input.t, unitInfo, parameterNo);
    }
  }

  lemma CalmStamps(gi: nat, c: Scope, a: Act, r: Scope, n: nat, start: u32, t: Clock, unitInfo: u16, parameterNo: u16)
    requires Stamped(gi, n, start, t, unitInfo, parameterNo, c) && Calm(c, a, r)
    requires r.sh.unitInfo == c.sh.unitInfo && r.g.scanStart == c.g.scanStart
    requires c.g.state == LinkScan ==> |Log(gi, c.sh.trace)| % 2 == 1
    requires Log(gi, r.sh.trace) == Log(gi, c.sh.trace)
             + if a.Event? && a.e == LinkScanComplete && c.g.state == LinkScan then [LinkScanCb(gi, true)] else []
    ensures Stamped(gi, n, start, t, unitInfo, parameterNo, r)
  {
    hide Log;
  }

  lemma StartStamps(cfg: MasterConfig, gi: nat, input: Input, c: Scope, a: Act, n: nat, start: u32, unitInfo: u16, parameterNo: u16)
    requires GoodConfig(cfg) && gi < |cfg.groups| && LaidOut(cfg.groups[gi], c.g) && ValidGroupSetting(cfg.groups[gi])
    requires Possible(cfg, gi, input, c, a) && GroupInv(cfg, gi, c) && (input.Timers? || input.Frame?)
    requires Stamped(gi, n, start, input.t, unitInfo, parameterNo, c) && StartsScan(cfg.groups[gi], c, a)
    ensures Stamped(gi, n, start, input.t, unitInfo, parameterNo, Do(cfg, gi, input, c, a))
  {
    hide LaidOut, GroupInv, Do, Log, Possible, BeginScan, Starts, StartFor, AtBoundary, EncodeRequest, RequestOf;
    var s, t := StartFor(cfg, gi, input, c, a), TimeOf(a);
    TimeOfInput(cfg, gi, input, c, a);
    ActSettings(cfg, gi, input, c, a);
    StartingAct(cfg, gi, input, c, a);
    EvenAtBoundary(cfg, gi, s);
    BeginFacts(cfg.groups[gi], gi, s, t);
    RequestStamp(cfg.groups[gi], gi, s, t);
  }

  lemma TimeOfInput(cfg: MasterConfig, gi: nat, input: Input, c: Scope, a: Act)
    requires gi < |cfg.groups| && Possible(cfg, gi, input, c, a) && IsGroupEvent(a)
    ensures HasTime(input, TimeOf(a))
  {
    hide HaveReceivedFromAll;
  }

  lemma RequestStamp(setting: GroupSetting, gi: nat, c: Scope, t: Clock)
    requires LaidOut(setting, c.g) && ValidGroupSetting(setting)
    ensures RequestOf(setting, gi, c, t).clock == t.unixMs
  {
    hide LaidOut, Deliver;
  }

  /** One step of the master, seen from a group: the stamp of its scan start, and the requests it sends. */
  predicate StepStamped(cfg: MasterConfig, m: Master, input: Input, gi: nat)
    requires Ready(cfg, m) && Allowed(input) && gi < |m.groups|
  {
    var r, n := Step(cfg, m, input), |Log(gi, m.sh.trace)|;
    gi < |r.groups|
    && if input.Timers? || input.Frame? then
         Stamped(gi, n, m.groups[gi].scanStart, input.t, m.sh.unitInfo, m.groups[gi].frame.parameterNo, ScopeOf(r, gi))
       else
         r.sh.trace == m.sh.trace && r.groups[gi].scanStart == m.groups[gi].scanStart
         && r.groups[gi].frame.parameterNo == m.groups[gi].frame.parameterNo
  }

  lemma StepIsStamped(cfg: MasterConfig, m: Master, input: Input, gi: nat)
    requires MasterInv(cfg, m) && Allowed(input) && gi < |m.groups|
    ensures StepStamped(cfg, m, input, gi)
  {
    hide LaidOut, GroupInv, Step, Log, Possible, Do;
    var setting := cfg.groups[gi];
    GoodSetting(cfg, gi);
    if input.Timers? || input.Frame? {
      var n, start, u, pn := |Log(gi, m.sh.trace)|, m.groups[gi].scanStart, m.sh.unitInfo, m.groups[gi].frame.parameterNo;
      var p := (c: Scope) => Stamped(gi, n, start, input.t, u, pn, c);
      forall c: Scope, a | LaidOut(setting, c.g) && Possible(cfg, gi, input, c, a) && GroupInv(cfg, gi, c) && p(c)
        ensures p(Do(cfg, gi, input, c, a))
      {
        ActStamps(cfg, gi, input, c, a, n, start, u, pn);
      }
      var acts := StepIsActs(cfg, m, input, gi);
      ChainInvariant(cfg, gi, input, ScopeOf(m, gi), acts, ScopeOf(Step(cfg, m, input), gi), p);
    } else {
      ApplicationStamp(cfg, m, input, gi);
    }
  }

  lemma ApplicationStamp(cfg: MasterConfig, m: Master, input: Input, gi: nat)
    requires Ready(cfg, m) && Allowed(input) && gi < |m.groups| && !input.Timers? && !input.Frame?
    ensures var r := Step(cfg, m, input);
            && gi < |r.groups| && r.sh.trace == m.sh.trace && r.groups[gi].scanStart == m.groups[gi].scanStart
            && r.groups[gi].frame.parameterNo == m.groups[gi].frame.parameterNo
  {
    hide LaidOut;
  }

  // ---------------------------------------------------------------- runs

  /** The status the application set last; a master starts running. */
  function StatusOf(cfg: MasterConfig, inputs: seq<Input>): u16 {
    if inputs == [] then 1
    else
      var last := inputs[|inputs| - 1];
      if last.SetStatus? then StatusWord(cfg.protocolVer, last.running, last.stoppedByUser) else StatusOf(cfg, inputs[..|inputs| - 1])
  }

  /** The outputs the application wrote last for group gi, or zeros. */
  function OutputsOf(inputs: seq<Input>, gi: nat): (seq<byte>, seq<byte>) {
    if inputs == [] then (seq(BITS, i => 0), seq(WORDS, i => 0))
    else
      var last := inputs[|inputs| - 1];
      if last.WriteOutputs? && last.gi == gi then (last.ry, last.rww) else OutputsOf(inputs[..|inputs| - 1], gi)
  }

  /** The time of the input that sent the last request of group gi, and 0 before the first. */
  function StartStamp(cfg: MasterConfig, m: Master, inputs: seq<Input>, gi: nat): u32
    requires Ready(cfg, m) && (forall k :: 0 <= k < |inputs| ==> Allowed(inputs[k]))
  {
    hide Ready, Step;
    if inputs == [] then 0
    else
      var rest, last := inputs[..|inputs| - 1], inputs[|inputs| - 1];
      var before, after := |Log(gi, Run(cfg, m, rest).sh.trace)|, |Log(gi, Run(cfg, m, inputs).sh.trace)|;
      if (last.Timers? || last.Frame?) && (after + 1) / 2 > (before + 1) / 2 then last.t.now else StartStamp(cfg, m, rest, gi)
  }

  /** What a run makes of the settings and of the scan start of group gi. */
  predicate Traced(cfg: MasterConfig, m0: Master, parameterNo: u16, inputs: seq<Input>, gi: nat, r: Master)
    requires Ready(cfg, m0) && (forall k :: 0 <= k < |inputs| ==> Allowed(inputs[k]))
  {
    && gi < |r.groups| && Told(r.sh)
    && r.sh.unitInfo == StatusOf(cfg, inputs) && r.groups[gi].frame.parameterNo == parameterNo
    && (r.groups[gi].ry, r.groups[gi].rww) == OutputsOf(inputs, gi)
    && r.groups[gi].scanStart == StartStamp(cfg, m0, inputs, gi)
  }

  lemma {:induction false} ConfigureParameter(cfg: MasterConfig, m: Master, k: nat, t: Clock)
    requires ValidConfig(cfg) && |m.groups| == |cfg.groups| && AllStarted(cfg, m.groups) && k <= |m.groups|
    requires Told(m.sh)
    ensures var r := ConfigureGroups(cfg, m, k, t);
            && r.sh.parameterNo == m.sh.parameterNo && r.sh.unitInfo == m.sh.unitInfo && Told(r.sh)
            && (forall gi :: 0 <= gi < k ==>
                  && r.groups[gi].frame.parameterNo == m.sh.parameterNo
                  && r.groups[gi].ry == m.groups[gi].ry && r.groups[gi].rww == m.groups[gi].rww
                  && r.groups[gi].scanStart == m.groups[gi].scanStart)
  {
    hide LaidOut, ConfigureGroup, LastState;
    if k > 0 {
      var m1 := ConfigureGroups(cfg, m, k - 1, t);
      ConfigureParameter(cfg, m, k - 1, t);
      OneParameter(cfg, k - 1, ScopeOf(m1, k - 1), t);
    }
  }

  lemma OneParameter(cfg: MasterConfig, gi: nat, c: Scope, t: Clock)
    requires ValidConfig(cfg) && Started(cfg, gi, c.g) && Told(c.sh)
    ensures var r := ConfigureGroup(cfg, gi, c, t);
            && r.sh.parameterNo == c.sh.parameterNo && r.sh.unitInfo == c.sh.unitInfo && Told(r.sh)
            && r.g.frame.parameterNo == c.sh.parameterNo
            && r.g.ry == c.g.ry && r.g.rww == c.g.rww && r.g.scanStart == c.g.scanStart
  {
    hide LaidOut, LastState;
    GoodSetting(cfg, gi);
    LastStateOfMore(c.sh.trace, MasterStateCb(Arbitration));
  }

  lemma {:induction false} StartOutputs(cfg: MasterConfig, sh: Shared, k: nat, t: Clock)
    requires ValidConfig(cfg) && k <= |cfg.groups| && Told(sh)
    ensures var m := StartGroups(cfg, sh, k, t);
            && m.sh.parameterNo == sh.parameterNo && m.sh.unitInfo == sh.unitInfo && Told(m.sh)
            && (forall gi :: 0 <= gi < k ==>
                  m.groups[gi].ry == seq(BITS, i => 0) && m.groups[gi].rww == seq(WORDS, i => 0) && m.groups[gi].scanStart == 0)
  {
    hide LaidOut, StartGroup, LastState;
    if k > 0 {
      var m := StartGroups(cfg, sh, k - 1, t);
      StartOutputs(cfg, sh, k - 1, t);
      OneGroupStarts(cfg, m.sh, k - 1, t);
    }
  }

  lemma OneGroupStarts(cfg: MasterConfig, sh: Shared, gi: nat, t: Clock)
    requires ValidConfig(cfg) && gi < |cfg.groups| && Told(sh)
    ensures var c := StartGroup(cfg, sh, gi, t);
            && c.sh.parameterNo == sh.parameterNo && c.sh.unitInfo == sh.unitInfo && Told(c.sh)
            && c.g.ry == seq(BITS, i => 0) && c.g.rww == seq(WORDS, i => 0) && c.g.scanStart == 0
  {
    hide LaidOut, Deliver, LastState;
    GoodSetting(cfg, gi);
    var setting := cfg.groups[gi];
    var c0 := At(Scope(sh, ZeroGroup(setting)), MasterListen);
    var g1 := c0.g.(responseTimer := Stopped, scanTimer := Stopped, total := 0, seqNo := 0, scanStart := 0, word := 0,
                    devices := seq(|c0.g.devices|, i requires 0 <= i < |c0.g.devices| => c0.g.devices[i].(state := D.MasterDown)));
    QuietPass(setting, gi, Scope(sh, g1), 0, D.GroupStartup);
    var c1 := InitGroupData(setting, gi, c0);
    QuietPass(setting, gi, Scope(c1.sh.(arbTimer := Stopped), c1.g), 0, D.GroupStandby);
    LastStateOfMore(sh.trace, MasterStateCb(Standby));
  }

  lemma InitIsTraced(cfg: MasterConfig, parameterNo: u16, t0: Clock, gi: nat)
    requires GoodConfig(cfg) && gi < |cfg.groups|
    ensures var m := Init(cfg, parameterNo, t0); Traced(cfg, m, (parameterNo + 1) % 0x1_0000, [], gi, m)
  {
    hide LaidOut, Started, StartGroups, ConfigureGroups, Ready;
    var sh := Shared(Down, Stopped, parameterNo, UNIT_INFO_RUNNING, IPADDR_INVALID, []);
    StartOutputs(cfg, sh, |cfg.groups|, t0);
    var m := StartGroups(cfg, sh, |cfg.groups|, t0);
    ConfigureParameter(cfg, m.(sh := m.sh.(parameterNo := (m.sh.parameterNo + 1) % 0x1_0000)), |cfg.groups|, t0);
  }

  lemma StepIsTraced(cfg: MasterConfig, m0: Master, parameterNo: u16, inputs: seq<Input>, gi: nat)
    requires MasterInv(cfg, m0) && (forall k :: 0 <= k < |inputs| ==> Allowed(inputs[k])) && inputs != [] && gi < |cfg.groups|
    requires Traced(cfg, m0, parameterNo, inputs[..|inputs| - 1], gi, Run(cfg, m0, inputs[..|inputs| - 1]))
    ensures Traced(cfg, m0, parameterNo, inputs, gi, Run(cfg, m0, inputs))
  {
    hide LaidOut, GroupInv, Step, Log, LastState, StepReports, Reports, StepRecord, RecordOf;
    var rest, last := inputs[..|inputs| - 1], inputs[|inputs| - 1];
    var m := Run(cfg, m0, rest);
    RunKeeps(cfg, m0, rest);
    StepIsStamped(cfg, m, last, gi);
    StepReportsAre(cfg, m, last);
    Shape(cfg, m, gi);
    SomeDevices(cfg, gi);
    StepRecordIs(cfg, m, last, gi, 0);
  }

  lemma SomeDevices(cfg: MasterConfig, gi: nat)
    requires GoodConfig(cfg) && gi < |cfg.groups|
    ensures |cfg.groups[gi].devices| > 0
  {
    assert ValidGroup(cfg.groups[gi], cfg.masterId);
  }

  /** Over every run from initialisation the application knows the state of the master, and the master has
      the status and the outputs that the application set last, the parameter number after the stored one,
      and the scan start of the input that sent the last request. */
  lemma {:induction false} RunIsTraced(cfg: MasterConfig, parameterNo: u16, t0: Clock, inputs: seq<Input>, gi: nat)
    requires GoodConfig(cfg) && (forall k :: 0 <= k < |inputs| ==> Allowed(inputs[k])) && gi < |cfg.groups|
    ensures Traced(cfg, Init(cfg, parameterNo, t0), (parameterNo + 1) % 0x1_0000, inputs, gi, RunFromInit(cfg, parameterNo, t0, inputs))
  {
    hide Traced, Run, Init, Step, MasterInv;
    var m0 := Init(cfg, parameterNo, t0);
    InitIsTraced(cfg, parameterNo, t0, gi);
    InitKeeps(cfg, parameterNo, t0);
    if inputs == [] {
      RunOfNone(cfg, m0);
    } else {
      RunIsTraced(cfg, parameterNo, t0, inputs[..|inputs| - 1], gi);
      StepIsTraced(cfg, m0, (parameterNo + 1) % 0x1_0000, inputs, gi);
    }
  }

  lemma RunOfNone(cfg: MasterConfig, m: Master)
    requires Ready(cfg, m)
    ensures Run(cfg, m, []) == m
  {
  }

  /** Request k of group gi, when the input that comes after the run sends it: every field of its headers. */
  lemma RequestCarries(cfg: MasterConfig, parameterNo: u16, t0: Clock, inputs: seq<Input>, input: Input, gi: nat, k: nat)
    requires GoodConfig(cfg) && (forall j :: 0 <= j < |inputs| ==> Allowed(inputs[j])) && Allowed(input) && gi < |cfg.groups|
    requires var m := RunFromInit(cfg, parameterNo, t0, inputs);
             |Log(gi, m.sh.trace)| <= k < |Log(gi, Step(cfg, m, input).sh.trace)| && k % 2 == 0
    ensures var o := Log(gi, Step(cfg, RunFromInit(cfg, parameterNo, t0, inputs), input).sh.trace)[k];
            && (input.Timers? || input.Frame?) && o.Sent?
            && var q := o.request;
            && q.protocolVer == cfg.protocolVer && q.masterId == cfg.masterId && q.groupNo == gi + 1
            && q.timeout == cfg.groups[gi].timeout && q.offCount == cfg.groups[gi].offCount
            && q.seqNo == SeqOf(k / 2) && q.clock == input.t.unixMs
            && q.unitInfo == StatusOf(cfg, inputs) && q.parameterNo == (parameterNo + 1) % 0x1_0000
  {
    hide LaidOut, GroupInv, Step, Log, LastState, Run, Init, StartStamp, OutputsOf, StatusOf, Fillers, PlainView, EncodeRequest,
         AcceptsRequest, DecodeRequest;
    var m := RunFromInit(cfg, parameterNo, t0, inputs);
    RunInv(cfg, parameterNo, t0, inputs);
    RunIsTraced(cfg, parameterNo, t0, inputs, gi);
    StepIsStamped(cfg, m, input, gi);
    StepKeeps(cfg, m, input);
    LogEntryOf(cfg, Step(cfg, m, input), gi, k);
  }

  lemma LogEntryOf(cfg: MasterConfig, m: Master, gi: nat, k: nat)
    requires MasterInv(cfg, m) && gi < |m.groups| && k < |Log(gi, m.sh.trace)|
    ensures LogEntry(cfg, gi, k, Log(gi, m.sh.trace)[k])
  {
    hide LaidOut, FrameFits, Log, LogEntry, DevicesSound;
    assert GroupInv(cfg, gi, ScopeOf(m, gi));
  }
}
