/** The responses of a device over whole runs: what was kept of the last one, the response times, the
    counters, and which answers were reported as second ones. */
module ResponseLedger {
  import opened Words
  import opened Config
  import opened Statistics
  import opened Responses
  import opened GroupModel
  import opened MasterModel
  import opened GroupRuns
  import opened Scans
  import opened Startup
  import opened ArbitrationSafety
  import opened Disconnections
  import opened DeviceSteps
  import opened MasterReports
  import opened ResponseRules
  import opened RequestContents
  import D = DeviceModel

  // ---------------------------------------------------------------- the ledger

  datatype Latest = None | Kept(response: Response, time: u32)

  /** An account of the responses of a device since the last statistics clear: the last one kept with its
      response time, the response times in order, and how many came, were alarms, and were invalid. */
  datatype Ledger = Ledger(latest: Latest, times: seq<u32>, incoming: nat, alarms: nat, invalid: nat, enabled: bool, forced: bool)

  /** The response r, which came `time` microseconds after the request: kept, or counted as invalid if the
      device is disabled, if the last one kept had the same number and the device has left LISTEN, if the
      device is connected and the number is not that of the scan, or if the size is wrong. */
  function Entered(setting: DeviceSetting, l: Ledger, state: D.DeviceState, bit: bool, seqNo: u16, time: u32, r: Response): Ledger {
    var seen := l.(incoming := l.incoming + 1);
    var second := l.latest.Kept? && l.latest.response.seqNo == r.seqNo && state != D.Listen;
    if !l.enabled || second || (bit && r.seqNo != seqNo) then seen.(invalid := l.invalid + 1)
    else if |r.rx| != 8 * setting.stations then
      seen.(invalid := l.invalid + 1, alarms := l.alarms + if Complains(r) then 1 else 0)
    else
      seen.(alarms := l.alarms + (if Complains(r) || Alarms(r) then 1 else 0), times := l.times + [time], latest := Kept(r, time))
  }

  /** The ledger after one input; `start` is the stamp of the scan start. */
  function LedgerNext(cfg: MasterConfig, m: Master, l: Ledger, start: u32, input: Input, gi: nat, i: nat): Ledger
    requires gi < |m.groups| && i < |m.groups[gi].devices| && gi < |cfg.groups| && i < |cfg.groups[gi].devices|
  {
    var d := m.groups[gi].devices[i];
    if IsReplyOf(cfg, input, gi, i) then
      Entered(cfg.groups[gi].devices[i], l, d.state, d.bit, m.groups[gi].seqNo, (input.t.now - start) % 0x1_0000_0000, Reply(input))
    else if input.ClearStatistics? then Ledger(None, [], 0, 0, 0, l.enabled, l.forced)
    else if input == SetEnabled(gi, i, true) then l.(enabled := true)
    else if input == SetEnabled(gi, i, false) then l.(enabled := false)
    else if input == Force(gi, i, true) then l.(forced := true)
    else if input == Force(gi, i, false) then l.(forced := false)
    else l
  }

  /** The ledger of a run from initialisation. */
  function LedgerOf(cfg: MasterConfig, m: Master, inputs: seq<Input>, gi: nat, i: nat): Ledger
    requires Ready(cfg, m) && (forall k :: 0 <= k < |inputs| ==> Allowed(inputs[k]))
    requires gi < |cfg.groups| && i < |cfg.groups[gi].devices|
  {
    hide LaidOut, Step;
    if inputs == [] then Ledger(None, [], 0, 0, 0, !cfg.groups[gi].devices[i].reserved, false)
    else
      var rest := inputs[..|inputs| - 1];
      var m1 := Run(cfg, m, rest);
      Shape(cfg, m1, gi);
      LedgerNext(cfg, m1, LedgerOf(cfg, m, rest, gi, i), StartStamp(cfg, m, rest, gi), inputs[|inputs| - 1], gi, i)
  }

  /** The record says what the ledger says, on 32-bit counters. */
  predicate Matches(cfg: MasterConfig, l: Ledger, record: Record) {
    && record.latest == (match l.latest case None => D.NO_FRAME case Kept(r, time) => Values(r, time))
    && record.time == Updates(cfg.maxSamples, l.times)
    && record.incoming == l.incoming % 0x1_0000_0000 && record.alarms == l.alarms % 0x1_0000_0000
    && record.invalid == l.invalid % 0x1_0000_0000
    && record.enabled == l.enabled && record.forced == l.forced
  }

  lemma UpdatesOfMore(maxSamples: u16, times: seq<u32>, time: u32)
    ensures Updates(maxSamples, times + [time]) == Update(Updates(maxSamples, times), maxSamples, time)
  {
    assert (times + [time])[..|times|] == times;
  }

  lemma EnteredMatches(cfg: MasterConfig, setting: DeviceSetting, l: Ledger, d: D.Device, seqNo: u16, time: u32, r: Response)
    requires Matches(cfg, l, RecordOf(d))
    ensures Matches(cfg, Entered(setting, l, d.state, d.bit, seqNo, time, r), RecordAfter(cfg, setting, d, seqNo, time, r))
  {
    hide Update, Updates, Count, Complains, Alarms, Values;
    var record := RecordOf(d);
    CountMatches(l.incoming, record.incoming, true);
    CountMatches(l.invalid, record.invalid, true);
    CountMatches(l.alarms, record.alarms, Complains(r));
    CountMatches(l.alarms, record.alarms, Complains(r) || Alarms(r));
    UpdatesOfMore(cfg.maxSamples, l.times, time);
    SecondAgrees(l, d, r, cfg);
  }

  lemma CountMatches(n: nat, c: u32, more: bool)
    requires c == n % 0x1_0000_0000
    ensures Count(c, more) == (n + if more then 1 else 0) % 0x1_0000_0000
  {
  }

  lemma SecondAgrees(l: Ledger, d: D.Device, r: Response, cfg: MasterConfig)
    requires Matches(cfg, l, RecordOf(d))
    ensures Repeats(d, r) <==> l.latest.Kept? && l.latest.response.seqNo == r.seqNo && d.state != D.Listen
  {
    hide Updates;
  }

  lemma NextMatches(cfg: MasterConfig, m: Master, l: Ledger, input: Input, gi: nat, i: nat)
    requires Ready(cfg, m) && Allowed(input) && gi < |m.groups| && i < |m.groups[gi].devices| && i < |cfg.groups[gi].devices|
    requires Matches(cfg, l, RecordOf(m.groups[gi].devices[i]))
    ensures var r := Step(cfg, m, input);
            && gi < |r.groups| && i < |r.groups[gi].devices|
            && Matches(cfg, LedgerNext(cfg, m, l, m.groups[gi].scanStart, input, gi, i), RecordOf(r.groups[gi].devices[i]))
  {
    hide LaidOut, Step, Matches, IsReplyOf, ParseResponse, RecordAfter, Entered;
    var d := m.groups[gi].devices[i];
    StepRecordIs(cfg, m, input, gi, i);
    if IsReplyOf(cfg, input, gi, i) {
      ReplyTime(cfg, input, gi, i);
      EnteredMatches(cfg, cfg.groups[gi].devices[i], l, d, m.groups[gi].seqNo,
                     (input.t.now - m.groups[gi].scanStart) % 0x1_0000_0000, Reply(input));
    } else {
      SettingMatches(cfg, l, RecordOf(d));
    }
  }

  lemma ReplyTime(cfg: MasterConfig, input: Input, gi: nat, i: nat)
    ensures IsReplyOf(cfg, input, gi, i) ==> input.Frame? && IsReply(input)
  {
  }

  lemma SettingMatches(cfg: MasterConfig, l: Ledger, record: Record)
    requires Matches(cfg, l, record)
    ensures Matches(cfg, Ledger(None, [], 0, 0, 0, l.enabled, l.forced), Record(D.NO_FRAME, 0, 0, 0, CLEARED, record.enabled, record.forced))
    ensures forall on :: Matches(cfg, l.(enabled := on), record.(enabled := on))
    ensures forall on :: Matches(cfg, l.(forced := on), record.(forced := on))
  {
  }

  /** Over every run from initialisation what the master keeps of a device's responses is what the ledger
      says, with response times measured from the input that sent the request. */
  lemma {:induction false} RunMatches(cfg: MasterConfig, parameterNo: u16, t0: Clock, inputs: seq<Input>, gi: nat, i: nat)
    requires GoodConfig(cfg) && (forall k :: 0 <= k < |inputs| ==> Allowed(inputs[k]))
    requires gi < |cfg.groups| && i < |cfg.groups[gi].devices|
    ensures var m := RunFromInit(cfg, parameterNo, t0, inputs);
            && i < |m.groups[gi].devices|
            && Matches(cfg, LedgerOf(cfg, Init(cfg, parameterNo, t0), inputs, gi, i), RecordOf(m.groups[gi].devices[i]))
  {
    hide LaidOut, Step, Init, Matches, LedgerNext, StartStamp, GroupInv, Begun, RecordOf;
    var m0 := Init(cfg, parameterNo, t0);
    InitKeeps(cfg, parameterNo, t0);
    Shape(cfg, m0, gi);
    if inputs == [] {
      BegunDevice(cfg, gi, ScopeOf(m0, gi), i);
      UntouchedMatches(cfg, cfg.groups[gi].devices[i], m0.groups[gi].devices[i]);
    } else {
      var rest, last := inputs[..|inputs| - 1], inputs[|inputs| - 1];
      RunMatches(cfg, parameterNo, t0, rest, gi, i);
      ScanStartOf(cfg, parameterNo, t0, rest, gi);
      NextMatches(cfg, Run(cfg, m0, rest), LedgerOf(cfg, m0, rest, gi, i), last, gi, i);
    }
  }

  lemma ScanStartOf(cfg: MasterConfig, parameterNo: u16, t0: Clock, inputs: seq<Input>, gi: nat)
    requires GoodConfig(cfg) && (forall k :: 0 <= k < |inputs| ==> Allowed(inputs[k])) && gi < |cfg.groups|
    ensures Run(cfg, Init(cfg, parameterNo, t0), inputs).groups[gi].scanStart == StartStamp(cfg, Init(cfg, parameterNo, t0), inputs, gi)
  {
    hide LaidOut, Step, Init, StartStamp, Told;
    RunIsTraced(cfg, parameterNo, t0, inputs, gi);
  }

  lemma UntouchedMatches(cfg: MasterConfig, setting: DeviceSetting, d: D.Device)
    requires Untouched(setting, d)
    ensures Matches(cfg, Ledger(None, [], 0, 0, 0, !setting.reserved, false), RecordOf(d))
  {
  }

  // ---------------------------------------------------------------- what follows

  /** The response-time statistics of a device describe exactly the counted response times of its run, if
      and only if their total fits 32 bits. */
  lemma StatisticsOfRun(cfg: MasterConfig, parameterNo: u16, t0: Clock, inputs: seq<Input>, gi: nat, i: nat)
    requires GoodConfig(cfg) && (forall k :: 0 <= k < |inputs| ==> Allowed(inputs[k]))
    requires gi < |cfg.groups| && i < |cfg.groups[gi].devices|
    ensures var m := RunFromInit(cfg, parameterNo, t0, inputs);
            var times := LedgerOf(cfg, Init(cfg, parameterNo, t0), inputs, gi, i).times;
            var counted := times[..Statistics.Counted(cfg.maxSamples, times)];
            && i < |m.groups[gi].devices|
            && m.groups[gi].devices[i].counters.time == Updates(cfg.maxSamples, times)
            && (Describes(m.groups[gi].devices[i].counters.time, counted) <==> Sum(counted) < 0x1_0000_0000)
  {
    hide LaidOut, Run, Init, LedgerOf, Updates, Describes, Sum;
    RunMatches(cfg, parameterNo, t0, inputs, gi, i);
    StatisticsAreExactIff(cfg.maxSamples, LedgerOf(cfg, Init(cfg, parameterNo, t0), inputs, gi, i).times);
  }

  /** A response that counts as a second answer: the device is enabled and has left LISTEN, and the last
      response kept since the statistics were cleared had the same number. */
  predicate IsSecond(l: Ledger, state: D.DeviceState, r: Response) {
    l.enabled && l.latest.Kept? && l.latest.response.seqNo == r.seqNo && state != D.Listen
  }

  /** What follows a run, if the input is a response of device i: the report of a duplicate slave, if and only
      if it is a second answer; and then the device is back in LISTEN, the frame is counted as invalid, and
      everything else is the same, input data included. */
  predicate TellsSecond(cfg: MasterConfig, m: Master, l: Ledger, input: Input, gi: nat, i: nat)
    requires Ready(cfg, m) && Allowed(input) && IsReplyOf(cfg, input, gi, i)
    requires gi < |m.groups| && i < |m.groups[gi].devices|
  {
    var d, r, o := m.groups[gi].devices[i], Step(cfg, m, input), GroupModel.ErrorReport(SlaveDuplicated, input.ip);
    if IsSecond(l, d.state, Reply(input)) then
      r == Master(m.sh.(trace := m.sh.trace + [o]),
                  m.groups[gi := m.groups[gi].(devices := m.groups[gi].devices[i :=
                    d.(state := D.Listen, timeoutCount := 0,
                       counters := d.counters.(incoming := Count(d.counters.incoming, true),
                                               invalid := Count(d.counters.invalid, true)))])])
    else
      |Reports(r.sh.trace)| >= |Reports(m.sh.trace)| && o !in Reports(r.sh.trace)[|Reports(m.sh.trace)|..]
  }

  lemma SecondAnswersAreTold(cfg: MasterConfig, parameterNo: u16, t0: Clock, inputs: seq<Input>, input: Input, gi: nat, i: nat)
    requires GoodConfig(cfg) && (forall k :: 0 <= k < |inputs| ==> Allowed(inputs[k])) && Allowed(input)
    requires IsReplyOf(cfg, input, gi, i)
    ensures var m := RunFromInit(cfg, parameterNo, t0, inputs);
            && i < |m.groups[gi].devices|
            && TellsSecond(cfg, m, LedgerOf(cfg, Init(cfg, parameterNo, t0), inputs, gi, i), input, gi, i)
  {
    hide LaidOut, Step, Init, LedgerOf, IsReplyOf, ParseResponse, Reports, Begun, AllUp, GroupInv;
    var m0 := Init(cfg, parameterNo, t0);
    ReplyTime(cfg, input, gi, i);
    Configured(cfg, input, gi, i);
    var m, l := RunFromInit(cfg, parameterNo, t0, inputs), LedgerOf(cfg, m0, inputs, gi, i);
    RunMatches(cfg, parameterNo, t0, inputs, gi, i);
    InitKeeps(cfg, parameterNo, t0);
    BegunIsUp(cfg, m0);
    RunIsUp(cfg, m0, inputs);
    IsUp(m, gi, i);
    if IsSecond(l, m.groups[gi].devices[i].state, Reply(input)) {
      SecondAnswerIsReported(cfg, m, input, gi, i);
    } else {
      NotSecondReports(cfg, m, l, input, gi, i);
    }
  }

  lemma Configured(cfg: MasterConfig, input: Input, gi: nat, i: nat)
    requires IsReplyOf(cfg, input, gi, i)
    ensures gi < |cfg.groups| && i < |cfg.groups[gi].devices|
  {
  }

  lemma NotSecondReports(cfg: MasterConfig, m: Master, l: Ledger, input: Input, gi: nat, i: nat)
    requires Ready(cfg, m) && Allowed(input) && IsReplyOf(cfg, input, gi, i)
    requires gi < |m.groups| && i < |m.groups[gi].devices|
    requires Matches(cfg, l, RecordOf(m.groups[gi].devices[i])) && !IsSecond(l, m.groups[gi].devices[i].state, Reply(input))
    ensures var before, after := Reports(m.sh.trace), Reports(Step(cfg, m, input).sh.trace);
            |after| >= |before| && GroupModel.ErrorReport(SlaveDuplicated, input.ip) !in after[|before|..]
  {
    hide LaidOut, Step, ParseResponse, Reports, Updates, StepReports;
    StepReportsAre(cfg, m, input);
    ReplyReportsAre(cfg, m, input, gi, i);
    assert Reports(Step(cfg, m, input).sh.trace)[|Reports(m.sh.trace)|..] == StepReports(cfg, m, input);
  }

  // ---------------------------------------------------------------- two answers in one scan

  /** No response of device i and no statistics clear. */
  predicate Silent(cfg: MasterConfig, input: Input, gi: nat, i: nat) {
    !IsReplyOf(cfg, input, gi, i) && !input.ClearStatistics?
  }

  lemma {:induction false} LatestStays(cfg: MasterConfig, m: Master, first: seq<Input>, more: seq<Input>, gi: nat, i: nat)
    requires Ready(cfg, m) && (forall k :: 0 <= k < |first| ==> Allowed(first[k])) && (forall k :: 0 <= k < |more| ==> Allowed(more[k]))
    requires forall k :: 0 <= k < |more| ==> Silent(cfg, more[k], gi, i)
    requires gi < |cfg.groups| && i < |cfg.groups[gi].devices|
    ensures forall k :: 0 <= k < |first + more| ==> Allowed((first + more)[k])
    ensures LedgerOf(cfg, m, first + more, gi, i).latest == LedgerOf(cfg, m, first, gi, i).latest
    decreases |more|
  {
    hide Ready, Step, Allowed, IsReplyOf, StartStamp, Entered;
    if more == [] {
      assert first + more == first;
    } else {
      LatestStays(cfg, m, first, more[..|more| - 1], gi, i);
      assert (first + more)[..|first + more| - 1] == first + more[..|more| - 1];
    }
  }

  /** The input is a response of device i that is kept. */
  predicate TakenFrom(cfg: MasterConfig, m: Master, input: Input, gi: nat, i: nat) {
    && IsReplyOf(cfg, input, gi, i) && gi < |m.groups| && i < |m.groups[gi].devices|
    && IsUsable(m.groups[gi].devices[i], m.groups[gi].seqNo, Reply(input))
    && |Reply(input).rx| == 8 * cfg.groups[gi].devices[i].stations
  }

  /** Two answers of one address with one number: if the first is kept, and nothing else comes from that
      device and no statistics are cleared in between, the second is told as a duplicate slave unless the
      device is disabled or back in LISTEN. */
  lemma TwoAnswersAreTold(cfg: MasterConfig, parameterNo: u16, t0: Clock, before: seq<Input>, first: Input, more: seq<Input>,
                          second: Input, gi: nat, i: nat)
    requires GoodConfig(cfg) && (forall k :: 0 <= k < |before| ==> Allowed(before[k])) && (forall k :: 0 <= k < |more| ==> Allowed(more[k]))
    requires Allowed(first) && Allowed(second) && TakenFrom(cfg, RunFromInit(cfg, parameterNo, t0, before), first, gi, i)
    requires IsReplyOf(cfg, second, gi, i) && Reply(first).seqNo == Reply(second).seqNo
    requires forall k :: 0 <= k < |more| ==> Silent(cfg, more[k], gi, i)
    ensures forall k :: 0 <= k < |before + [first] + more| ==> Allowed((before + [first] + more)[k])
    ensures var m := RunFromInit(cfg, parameterNo, t0, before + [first] + more);
            && i < |m.groups[gi].devices|
            && (m.groups[gi].devices[i].enabled && m.groups[gi].devices[i].state != D.Listen ==>
                  && m.groups[gi].devices[i].state != D.MasterDown
                  && Reports(Step(cfg, m, second).sh.trace) == Reports(m.sh.trace) + [GroupModel.ErrorReport(SlaveDuplicated, second.ip)]
                  && Step(cfg, m, second).groups[gi].rx == m.groups[gi].rx && Step(cfg, m, second).groups[gi].rwr == m.groups[gi].rwr
                  && i < |Step(cfg, m, second).groups[gi].devices|
                  && Step(cfg, m, second).groups[gi].devices[i].state == D.Listen)
  {
    hide LaidOut, Step, Init, Run, LedgerOf, IsReplyOf, ParseResponse, Reports, Silent, Allowed, Updates;
    var m0 := Init(cfg, parameterNo, t0);
    var upTo := before + [first];
    ReplyTime(cfg, first, gi, i);
    ReplyTime(cfg, second, gi, i);
    Configured(cfg, first, gi, i);
    FirstIsKept(cfg, parameterNo, t0, before, first, gi, i);
    LatestStays(cfg, m0, upTo, more, gi, i);
    RunMatches(cfg, parameterNo, t0, upTo + more, gi, i);
    SecondAnswersAreTold(cfg, parameterNo, t0, upTo + more, second, gi, i);
    var m := RunFromInit(cfg, parameterNo, t0, upTo + more);
    ReportsOfMore(m.sh.trace, GroupModel.ErrorReport(SlaveDuplicated, second.ip));
    UpAfterRun(cfg, parameterNo, t0, upTo + more, gi, i);
  }

  lemma UpAfterRun(cfg: MasterConfig, parameterNo: u16, t0: Clock, inputs: seq<Input>, gi: nat, i: nat)
    requires GoodConfig(cfg) && (forall k :: 0 <= k < |inputs| ==> Allowed(inputs[k])) && gi < |cfg.groups| && i < |cfg.groups[gi].devices|
    ensures var m := RunFromInit(cfg, parameterNo, t0, inputs); i < |m.groups[gi].devices| && m.groups[gi].devices[i].state != D.MasterDown
  {
    hide LaidOut, Init, Run, Begun, AllUp, GroupInv;
    var m0 := Init(cfg, parameterNo, t0);
    InitKeeps(cfg, parameterNo, t0);
    BegunIsUp(cfg, m0);
    RunIsUp(cfg, m0, inputs);
    Shape(cfg, Run(cfg, m0, inputs), gi);
    IsUp(Run(cfg, m0, inputs), gi, i);
  }

  lemma FirstIsKept(cfg: MasterConfig, parameterNo: u16, t0: Clock, before: seq<Input>, first: Input, gi: nat, i: nat)
    requires GoodConfig(cfg) && (forall k :: 0 <= k < |before| ==> Allowed(before[k])) && Allowed(first)
    requires TakenFrom(cfg, RunFromInit(cfg, parameterNo, t0, before), first, gi, i)
    ensures gi < |cfg.groups| && i < |cfg.groups[gi].devices| && IsReply(first)
    ensures forall k :: 0 <= k < |before + [first]| ==> Allowed((before + [first])[k])
    ensures var l := LedgerOf(cfg, Init(cfg, parameterNo, t0), before + [first], gi, i).latest;
            l.Kept? && l.response == Reply(first)
  {
    hide LaidOut, Step, Init, Run, ParseResponse, StartStamp, Entered, IsReplyOf, Matches, IsUsable, RecordOf;
    var m0, m := Init(cfg, parameterNo, t0), RunFromInit(cfg, parameterNo, t0, before);
    assert (before + [first])[..|before|] == before;
    ReplyTime(cfg, first, gi, i);
    Configured(cfg, first, gi, i);
    RunMatches(cfg, parameterNo, t0, before, gi, i);
    UsableIsKept(cfg, cfg.groups[gi].devices[i], LedgerOf(cfg, m0, before, gi, i), m.groups[gi].devices[i], m.groups[gi].seqNo,
                 (first.t.now - StartStamp(cfg, m0, before, gi)) % 0x1_0000_0000, Reply(first));
  }

  lemma UsableIsKept(cfg: MasterConfig, setting: DeviceSetting, l: Ledger, d: D.Device, seqNo: u16, time: u32, r: Response)
    requires Matches(cfg, l, RecordOf(d)) && IsUsable(d, seqNo, r) && |r.rx| == 8 * setting.stations
    ensures Entered(setting, l, d.state, d.bit, seqNo, time, r).latest == Kept(r, time)
  {
    hide Updates;
    SecondAgrees(l, d, r, cfg);
  }
}
