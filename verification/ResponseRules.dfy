/** What the master does with each response, exactly: which are counted as what, which one is a second
    answer, what is kept, and what is reported (clm_iefb_handle_response_frame). */
module ResponseRules {
  import opened Words
  import opened Config
  import opened Layout
  import opened Timer
  import opened Statistics
  import opened Frames
  import opened Responses
  import opened GroupModel
  import opened MasterModel
  import opened GroupRuns
  import opened MasterReports
  import D = DeviceModel

  // ---------------------------------------------------------------- the rules

  /** The slave complains about its station count or about a second master. */
  predicate Complains(r: Response) {
    r.endCode == 0xCFE0 || r.endCode == 0xCFE1
  }

  /** The slave has an error or asks to be disconnected. */
  predicate Alarms(r: Response) {
    r.endCode == 0xCFF0 || r.endCode == 0xCFFF
  }

  function Count(n: u32, more: bool): u32 {
    if more then (n + 1) % 0x1_0000_0000 else n
  }

  /** The header values that are kept of a response. */
  function Values(r: Response, sample: u32): D.FrameValues {
    D.NO_FRAME.(received := true, responseTime := sample, stations := |r.rx| / 8, protocolVer := r.protocolVer,
                endCode := r.endCode, vendorCode := r.vendorCode, modelCode := r.modelCode, equipmentVer := r.equipmentVer,
                unitInfo := r.unitInfo, mgmtInfo := r.mgmtInfo, errCode := r.errCode,
                slaveId := r.slaveId, groupNo := r.groupNo, seqNo := r.seqNo)
  }

  /** The record of a device after its response r, which came `sample` microseconds after the scan start. */
  function RecordAfter(cfg: MasterConfig, setting: DeviceSetting, d: D.Device, seqNo: u16, sample: u32, r: Response): Record {
    var was := RecordOf(d);
    var seen := was.(incoming := Count(was.incoming, true));
    if !IsUsable(d, seqNo, r) then seen.(invalid := Count(was.invalid, true))
    else if |r.rx| != 8 * setting.stations then
      seen.(invalid := Count(was.invalid, true), alarms := Count(was.alarms, Complains(r)))
    else
      seen.(alarms := Count(was.alarms, Complains(r) || Alarms(r)), time := Update(was.time, cfg.maxSamples, sample),
            latest := Values(r, sample))
  }

  /** A callback for an alarm with a new end code, and one for a changed error code or management information. */
  function ChangeReports(gi: nat, i: nat, latest: D.FrameValues, r: Response): seq<Output> {
    (if Alarms(r) && r.endCode != latest.endCode then [AlarmCb(gi, i, r.endCode, r.errCode, r.mgmtInfo)] else [])
    + (if latest.received && (r.errCode != latest.errCode || r.mgmtInfo != latest.mgmtInfo)
       then [SlaveInfoCb(gi, i, r.endCode, r.errCode, r.mgmtInfo)] else [])
  }

  function ComplaintReports(r: Response, ip: u32): seq<Output> {
    if r.endCode == 0xCFE1 then [GroupModel.ErrorReport(SlaveReportsWrongNumberOccupied, ip)]
    else if r.endCode == 0xCFE0 then [GroupModel.ErrorReport(SlaveReportsMasterDuplication, ip)]
    else []
  }

  /** What the response of device i of group gi makes the master report. */
  function ReplyReports(setting: DeviceSetting, gi: nat, i: nat, d: D.Device, seqNo: u16, r: Response, ip: u32): seq<Output> {
    if d.enabled && Repeats(d, r) then [GroupModel.ErrorReport(SlaveDuplicated, ip)]
    else if !IsUsable(d, seqNo, r) then []
    else ComplaintReports(r, ip) + if |r.rx| == 8 * setting.stations then ChangeReports(gi, i, d.latest, r) else []
  }

  // ---------------------------------------------------------------- what is written

  /** One record is new, and these reports; all other records are the same. */
  predicate Writes(m: Master, r: Master, gi: nat, i: nat, record: Record, reports: seq<Output>) {
    && gi < |m.groups| == |r.groups| && i < |m.groups[gi].devices| == |r.groups[gi].devices|
    && (forall h :: 0 <= h < |m.groups| && h != gi ==> SameRecords(m.groups[h], r.groups[h]))
    && r.groups[gi].ry == m.groups[gi].ry && r.groups[gi].rww == m.groups[gi].rww
    && (forall j :: 0 <= j < |m.groups[gi].devices| && j != i ==> RecordOf(r.groups[gi].devices[j]) == RecordOf(m.groups[gi].devices[j]))
    && RecordOf(r.groups[gi].devices[i]) == record
    && Adds(m.sh, r.sh, reports)
  }

  lemma WritesThenLeaves(m: Master, a: Master, r: Master, gi: nat, i: nat, record: Record, reports: seq<Output>)
    requires Writes(m, a, gi, i, record, reports) && Leaves(a, r, [])
    ensures Writes(m, r, gi, i, record, reports)
  {
    hide Adds, RecordOf;
    AddsOn(m.sh, a.sh, r.sh, reports, []);
    assert reports + [] == reports;
    assert SameRecords(a.groups[gi], r.groups[gi]);
    forall h | 0 <= h < |m.groups| && h != gi ensures SameRecords(m.groups[h], r.groups[h]) {
      assert SameRecords(m.groups[h], a.groups[h]) && SameRecords(a.groups[h], r.groups[h]);
    }
  }

  /** A device record put in, and perhaps input data with it. */
  lemma PutWrites(m: Master, r: Master, gi: nat, i: nat, d: D.Device, reports: seq<Output>)
    requires gi < |m.groups| && i < |m.groups[gi].devices| && Adds(m.sh, r.sh, reports)
    requires |r.groups| == |m.groups| && forall h :: 0 <= h < |m.groups| && h != gi ==> r.groups[h] == m.groups[h]
    requires r.groups[gi].devices == m.groups[gi].devices[i := d]
    requires r.groups[gi].ry == m.groups[gi].ry && r.groups[gi].rww == m.groups[gi].rww
    ensures Writes(m, r, gi, i, RecordOf(d), reports)
  {
    hide Adds, RecordOf;
  }

  lemma ComplaintAdds(sh: Shared, r: Response, ip: u32)
    ensures Adds(sh, ReportComplaint(sh, r.endCode, ip), ComplaintReports(r, ip))
  {
    hide Adds;
    AddsNone(sh, sh);
    AddsNote(sh, GroupModel.ErrorReport(SlaveReportsWrongNumberOccupied, ip));
    AddsNote(sh, GroupModel.ErrorReport(SlaveReportsMasterDuplication, ip));
  }

  lemma ChangesAdd(sh: Shared, gi: nat, i: nat, latest: D.FrameValues, r: Response)
    ensures Adds(sh, ReportChanges(sh, gi, i, latest, r), ChangeReports(gi, i, latest, r))
  {
    hide Adds;
    var alarm := AlarmCb(gi, i, r.endCode, r.errCode, r.mgmtInfo);
    var info := SlaveInfoCb(gi, i, r.endCode, r.errCode, r.mgmtInfo);
    var first := if Alarms(r) && r.endCode != latest.endCode then [alarm] else [];
    var second := if latest.received && (r.errCode != latest.errCode || r.mgmtInfo != latest.mgmtInfo) then [info] else [];
    var sh1 := if first != [] then Note(sh, alarm) else sh;
    AddsNone(sh, sh);
    AddsNote(sh, alarm);
    AddsNone(sh1, sh1);
    AddsNote(sh1, info);
    AddsOn(sh, sh1, ReportChanges(sh, gi, i, latest, r), first, second);
  }

  // ---------------------------------------------------------------- the branches

  /** The device as an accepted response leaves it, before any event. */
  lemma KeptRecord(cfg: MasterConfig, setting: DeviceSetting, d: D.Device, seqNo: u16, scanStart: u32, now: u32, r: Response)
    requires IsUsable(d, seqNo, r) && r.WellFormed() && r.Stations() == setting.stations
    ensures var d0 := CountIncoming(d);
            var d1 := if IsComplaint(r.endCode) then CountAlarm(d0) else d0;
            var d2 := Stored(if IsSlaveAlarm(r.endCode) then CountAlarm(d1) else d1, cfg.maxSamples, r, Delta(now, scanStart));
            RecordOf(d2) == RecordAfter(cfg, setting, d, seqNo, (now - scanStart) % 0x1_0000_0000, r)
  {
    hide Update, ResponseSize;
  }

  lemma KeepWrites(cfg: MasterConfig, m: Master, t: Clock, gi: nat, i: nat, r: Response, d: D.Device, sh: Shared)
    requires Ready(cfg, m) && gi < |m.groups| && i < |m.groups[gi].devices| && i < |cfg.groups[gi].devices|
    requires r.WellFormed() && r.Stations() == cfg.groups[gi].devices[i].stations
    requires d.station == m.groups[gi].devices[i].station
    ensures var a := WithDevice(cfg, m.(sh := sh), gi, i, d);
            var q := KeepResponse(cfg, a, t, gi, i, r);
            && |q.groups| == |m.groups| && (forall h :: 0 <= h < |m.groups| && h != gi ==> q.groups[h] == m.groups[h])
            && q.groups[gi].devices
               == m.groups[gi].devices[i := Stored(if IsSlaveAlarm(r.endCode) then CountAlarm(d) else d, cfg.maxSamples, r,
                                                    Delta(t.now, m.groups[gi].scanStart))]
            && q.groups[gi].ry == m.groups[gi].ry && q.groups[gi].rww == m.groups[gi].rww
            && q.sh == ReportChanges(sh, gi, i, d.latest, r)
  {
    hide LaidOut, StoreData, ReportChanges, KeepResponse, Update;
    var a := WithDevice(cfg, m.(sh := sh), gi, i, d);
    GoodSetting(cfg, gi);
    KeepResponseParts(cfg, a, t, gi, i, r);
  }

  lemma AcceptWrites(cfg: MasterConfig, m: Master, t: Clock, gi: nat, i: nat, r: Response, d: D.Device, sh: Shared, reports: seq<Output>)
    requires Ready(cfg, m) && gi < |m.groups| && i < |m.groups[gi].devices| && i < |cfg.groups[gi].devices|
    requires r.WellFormed() && r.Stations() == cfg.groups[gi].devices[i].stations
    requires d.station == m.groups[gi].devices[i].station && d.latest == m.groups[gi].devices[i].latest && Adds(m.sh, sh, reports)
    ensures var d2 := Stored(if IsSlaveAlarm(r.endCode) then CountAlarm(d) else d, cfg.maxSamples, r, Delta(t.now, m.groups[gi].scanStart));
            Writes(m, AcceptResponse(cfg, WithDevice(cfg, m.(sh := sh), gi, i, d), t, gi, i, r), gi, i, RecordOf(d2),
                   reports + ChangeReports(gi, i, m.groups[gi].devices[i].latest, r))
  {
    hide LaidOut, KeepResponse, Adds, Writes, MasterReports.Leaves, AllGroups, Answered, ReportChanges, Update, Stored, Response.WellFormed,
         Response.Stations, RecordOf, ChangeReports;
    var a := WithDevice(cfg, m.(sh := sh), gi, i, d);
    var q := KeepResponse(cfg, a, t, gi, i, r);
    var d2 := Stored(if IsSlaveAlarm(r.endCode) then CountAlarm(d) else d, cfg.maxSamples, r, Delta(t.now, m.groups[gi].scanStart));
    KeepWrites(cfg, m, t, gi, i, r, d, sh);
    ChangesAdd(sh, gi, i, d.latest, r);
    AddsOn(m.sh, sh, q.sh, reports, ChangeReports(gi, i, d.latest, r));
    PutWrites(m, q, gi, i, d2, reports + ChangeReports(gi, i, d.latest, r));
    var e := if r.endCode == ENDCODE_SUCCESS then D.ReceiveOk else D.ReceiveError;
    if r.endCode == ENDCODE_MASTER_DUPLICATION {
      AllGroupsLeave(cfg, q, 0, t, DuplicationAlarm);
      NoReports(q, 0, DuplicationAlarm);
      WritesThenLeaves(m, q, AllGroups(cfg, q, 0, t, DuplicationAlarm), gi, i, RecordOf(d2), reports + ChangeReports(gi, i, d.latest, r));
    } else {
      AnsweredLeaves(cfg, q, t, gi, i, e);
      WritesThenLeaves(m, q, Answered(cfg, q, t, gi, i, e), gi, i, RecordOf(d2), reports + ChangeReports(gi, i, d.latest, r));
    }
  }

  lemma WrongSizeRecord(cfg: MasterConfig, setting: DeviceSetting, d: D.Device, seqNo: u16, sample: u32, r: Response)
    requires r.WellFormed()
    ensures |r.rx| == 8 * setting.stations <==> r.Stations() == setting.stations
    ensures var d0 := CountIncoming(d);
            IsUsable(d, seqNo, r) && r.Stations() != setting.stations ==>
              RecordOf(CountInvalid(if IsComplaint(r.endCode) then CountAlarm(d0) else d0)) == RecordAfter(cfg, setting, d, seqNo, sample, r)
    ensures !IsUsable(d, seqNo, r) ==> RecordOf(CountInvalid(CountIncoming(d))) == RecordAfter(cfg, setting, d, seqNo, sample, r)
  {
    hide Update, ResponseSize;
  }

  lemma InSequenceWrites(cfg: MasterConfig, m: Master, t: Clock, gi: nat, i: nat, r: Response, ip: u32)
    requires Ready(cfg, m) && gi < |m.groups| && i < |m.groups[gi].devices| && i < |cfg.groups[gi].devices| && r.WellFormed()
    requires IsUsable(m.groups[gi].devices[i], m.groups[gi].seqNo, r)
    ensures var g, setting := m.groups[gi], cfg.groups[gi].devices[i];
            Writes(m, HandleInSequence(cfg, WithDevice(cfg, m, gi, i, CountIncoming(g.devices[i])), t, gi, i, r, ip), gi, i,
                   RecordAfter(cfg, setting, g.devices[i], g.seqNo, (t.now - g.scanStart) % 0x1_0000_0000, r),
                   ReplyReports(setting, gi, i, g.devices[i], g.seqNo, r, ip))
  {
    hide LaidOut, AcceptResponse, Adds, Writes, ReportComplaint, Update, Stored, RecordOf, ChangeReports, RecordAfter, ComplaintReports,
         Response.WellFormed, Response.Stations;
    var g, setting := m.groups[gi], cfg.groups[gi].devices[i];
    var d := g.devices[i];
    var d0 := CountIncoming(d);
    var d1 := if IsComplaint(r.endCode) then CountAlarm(d0) else d0;
    var sh := ReportComplaint(m.sh, r.endCode, ip);
    WrongSizeRecord(cfg, setting, d, g.seqNo, (t.now - g.scanStart) % 0x1_0000_0000, r);
    ComplaintAdds(m.sh, r, ip);
    PutTwice(cfg, m, sh, gi, i, d0, d1);
    if r.Stations() != setting.stations {
      PutTwice(cfg, m, sh, gi, i, d0, CountInvalid(d1));
      PutWrites(m, WithDevice(cfg, m.(sh := sh), gi, i, CountInvalid(d1)), gi, i, CountInvalid(d1), ComplaintReports(r, ip));
      assert ComplaintReports(r, ip) + [] == ComplaintReports(r, ip);
    } else {
      AcceptWrites(cfg, m, t, gi, i, r, d1, sh, ComplaintReports(r, ip));
      KeptRecord(cfg, setting, d, g.seqNo, g.scanStart, t.now, r);
    }
  }

  lemma PutTwice(cfg: MasterConfig, m: Master, sh: Shared, gi: nat, i: nat, a: D.Device, b: D.Device)
    requires Ready(cfg, m) && gi < |m.groups| && i < |m.groups[gi].devices|
    requires a.station == b.station == m.groups[gi].devices[i].station
    ensures WithDevice(cfg, WithDevice(cfg, m, gi, i, a).(sh := sh), gi, i, b) == WithDevice(cfg, m.(sh := sh), gi, i, b)
  {
    hide LaidOut;
    assert m.groups[gi].devices[i := a][i := b] == m.groups[gi].devices[i := b];
  }

  lemma FromDeviceWrites(cfg: MasterConfig, m: Master, t: Clock, gi: nat, i: nat, r: Response, ip: u32)
    requires Ready(cfg, m) && gi < |m.groups| && i < |m.groups[gi].devices| && i < |cfg.groups[gi].devices| && r.WellFormed()
    ensures var g, setting := m.groups[gi], cfg.groups[gi].devices[i];
            Writes(m, HandleFromDevice(cfg, m, t, gi, i, r, ip), gi, i,
                   RecordAfter(cfg, setting, g.devices[i], g.seqNo, (t.now - g.scanStart) % 0x1_0000_0000, r),
                   ReplyReports(setting, gi, i, g.devices[i], g.seqNo, r, ip))
  {
    hide LaidOut, HandleInSequence, Adds, Writes, OneDevice, RecordOf, RecordAfter, ComplaintReports, ChangeReports,
         Response.WellFormed, Response.Stations;
    var g, setting := m.groups[gi], cfg.groups[gi].devices[i];
    var d := g.devices[i];
    var d0 := CountIncoming(d);
    WrongSizeRecord(cfg, setting, d, g.seqNo, (t.now - g.scanStart) % 0x1_0000_0000, r);
    AddsNone(m.sh, m.sh);
    assert m.(sh := m.sh) == m;
    if !d.enabled {
      PutWrites(m, WithDevice(cfg, m, gi, i, CountInvalid(d0)), gi, i, CountInvalid(d0), []);
    } else if Repeats(d, r) {
      var o := GroupModel.ErrorReport(SlaveDuplicated, ip);
      var a := WithDevice(cfg, m.(sh := Note(m.sh, o)), gi, i, CountInvalid(d0));
      AddsNote(m.sh, o);
      PutWrites(m, a, gi, i, CountInvalid(d0), [o]);
      OneDeviceLeaves(cfg, a, gi, i, D.SlaveDuplication);
      WritesThenLeaves(m, a, OneDevice(cfg, a, gi, i, D.SlaveDuplication), gi, i, RecordOf(CountInvalid(d0)), [o]);
    } else if !IsUsable(d, g.seqNo, r) {
      PutWrites(m, WithDevice(cfg, m, gi, i, CountInvalid(d0)), gi, i, CountInvalid(d0), []);
    } else {
      InSequenceWrites(cfg, m, t, gi, i, r, ip);
    }
  }

  // ---------------------------------------------------------------- steps

  /** The input is a response of device i of group gi. */
  predicate IsReplyOf(cfg: MasterConfig, input: Input, gi: nat, i: nat) {
    && gi < |cfg.groups| && i < |cfg.groups[gi].devices|
    && IsReply(input) && Reply(input).groupNo == gi + 1 && cfg.groups[gi].devices[i].slaveId == input.ip
  }

  lemma IndexOfReply(cfg: MasterConfig, input: Input, gi: nat, i: nat)
    requires GoodConfig(cfg) && IsReplyOf(cfg, input, gi, i)
    ensures input.ip != cfg.masterId && DeviceIndex(cfg.groups[gi].devices, input.ip) == i
  {
    hide ParseResponse;
    assert ValidGroup(cfg.groups[gi], cfg.masterId);
    assert ValidDevice(cfg.groups[gi].devices[i], cfg.masterId);
  }

  lemma ReplyIsHandled(cfg: MasterConfig, m: Master, input: Input, gi: nat, i: nat)
    requires Ready(cfg, m) && Allowed(input) && IsReplyOf(cfg, input, gi, i)
    ensures Reply(input).WellFormed() && gi < |m.groups| && i < |m.groups[gi].devices|
    ensures Step(cfg, m, input) == HandleFromDevice(cfg, m, input.t, gi, i, Reply(input), input.ip)
  {
    hide LaidOut, HandleFromDevice, ParseResponse, IsResponse, IsRequest;
    IndexOfReply(cfg, input, gi, i);
    ReplyIsResponse(input.bytes, input.ip);
    AcceptedResponseIsEncoded(input.bytes, input.ip);
    Shape(cfg, m, gi);
  }

  /** Every response of a configured device changes that device's record, and makes the master report, as the
      rules say; all other records, the output memory and the settings stay. */
  lemma ReplyWrites(cfg: MasterConfig, m: Master, input: Input, gi: nat, i: nat)
    requires Ready(cfg, m) && Allowed(input) && IsReplyOf(cfg, input, gi, i)
    ensures gi < |m.groups| && i < |m.groups[gi].devices|
    ensures var g, setting := m.groups[gi], cfg.groups[gi].devices[i];
            Writes(m, Step(cfg, m, input), gi, i,
                   RecordAfter(cfg, setting, g.devices[i], g.seqNo, (input.t.now - g.scanStart) % 0x1_0000_0000, Reply(input)),
                   ReplyReports(setting, gi, i, g.devices[i], g.seqNo, Reply(input), input.ip))
  {
    hide LaidOut, HandleFromDevice, Step, ParseResponse, Writes, RecordAfter, ReplyReports, Response.WellFormed;
    ReplyIsHandled(cfg, m, input, gi, i);
    FromDeviceWrites(cfg, m, input.t, gi, i, Reply(input), input.ip);
  }

  /** A second answer: counted as invalid and reported, the device back in LISTEN, and nothing else. The data
      of the frame goes nowhere. */
  lemma SecondAnswerIsReported(cfg: MasterConfig, m: Master, input: Input, gi: nat, i: nat)
    requires Ready(cfg, m) && Allowed(input) && IsReplyOf(cfg, input, gi, i)
    requires gi < |m.groups| && i < |m.groups[gi].devices|
    requires m.groups[gi].devices[i].enabled && m.groups[gi].devices[i].latest.received
    requires m.groups[gi].devices[i].latest.seqNo == Reply(input).seqNo
    requires m.groups[gi].devices[i].state != D.Listen && m.groups[gi].devices[i].state != D.MasterDown
    ensures var d := m.groups[gi].devices[i];
            Step(cfg, m, input)
            == Master(m.sh.(trace := m.sh.trace + [GroupModel.ErrorReport(SlaveDuplicated, input.ip)]),
                      m.groups[gi := m.groups[gi].(devices := m.groups[gi].devices[i :=
                        d.(state := D.Listen, timeoutCount := 0,
                           counters := d.counters.(incoming := Count(d.counters.incoming, true),
                                                   invalid := Count(d.counters.invalid, true)))])])
  {
    hide LaidOut, Step, ParseResponse, PatchFrame, HandleInSequence, Response.WellFormed;
    ReplyIsHandled(cfg, m, input, gi, i);
    GoodSetting(cfg, gi);
    Shape(cfg, m, gi);
    var d := m.groups[gi].devices[i];
    var d1 := CountInvalid(CountIncoming(d));
    PutAgain(m.groups[gi].devices, i, d1, D.After(d1, cfg.groups[gi].devices[i], cfg.groups[gi].offCount, D.SlaveDuplication));
  }

  lemma PutAgain(devices: seq<D.Device>, i: nat, a: D.Device, b: D.Device)
    requires i < |devices|
    ensures devices[i := a][i := b] == devices[i := b]
  {
  }

  /** The reports of one step. */
  function StepReports(cfg: MasterConfig, m: Master, input: Input): seq<Output>
    requires Ready(cfg, m)
  {
    if IsForeignRequest(cfg, input) then AllReports(m.(sh := m.sh.(conflictIp := input.ip)), 0, RequestFromOther)
    else if IsReply(input) && 1 <= Reply(input).groupNo <= |cfg.groups| then
      var gi := Reply(input).groupNo - 1;
      var i := DeviceIndex(cfg.groups[gi].devices, input.ip);
      Shape(cfg, m, gi);
      if i < |cfg.groups[gi].devices| then
        ReplyReports(cfg.groups[gi].devices[i], gi, i, m.groups[gi].devices[i], m.groups[gi].seqNo, Reply(input), input.ip)
      else []
    else []
  }

  lemma ForeignReports(cfg: MasterConfig, m: Master, input: Input)
    requires Ready(cfg, m) && Allowed(input) && IsForeignRequest(cfg, input)
    ensures SameAll(m, Step(cfg, m, input)) && Reports(Step(cfg, m, input).sh.trace) == Reports(m.sh.trace) + StepReports(cfg, m, input)
    ensures Step(cfg, m, input).sh.unitInfo == m.sh.unitInfo && Step(cfg, m, input).sh.parameterNo == m.sh.parameterNo
    ensures Told(m.sh) ==> Told(Step(cfg, m, input).sh)
  {
    hide LaidOut, AllGroups, Reports, LastState, ParseResponse, IsResponse, IsRequest, SameAll;
    AllGroupsLeave(cfg, m.(sh := m.sh.(conflictIp := input.ip)), 0, input.t, RequestFromOther);
    SameAllOf(m, m.(sh := m.sh.(conflictIp := input.ip)), Step(cfg, m, input));
  }

  lemma SameAllOf(m: Master, a: Master, r: Master)
    requires a.groups == m.groups && SameAll(a, r)
    ensures SameAll(m, r)
  {
  }

  lemma SameAllSelf(m: Master, r: Master)
    requires r.groups == m.groups
    ensures SameAll(m, r)
  {
  }

  /** A frame that is neither a request of another master nor a response of a configured device does nothing. */
  lemma StrayFrame(cfg: MasterConfig, m: Master, input: Input)
    requires Ready(cfg, m) && Allowed(input) && input.Frame? && !IsForeignRequest(cfg, input)
    requires forall gi: nat, i: nat :: !IsReplyOf(cfg, input, gi, i)
    ensures Step(cfg, m, input) == m && StepReports(cfg, m, input) == []
  {
    hide LaidOut, HandleFromDevice, AllGroups, ParseResponse, IsRequest, IsResponse, ReplyReports;
    ReplyIsResponse(input.bytes, input.ip);
    if IsReply(input) {
      AcceptedResponseIsEncoded(input.bytes, input.ip);
      var gi := Reply(input).groupNo - 1;
      if gi < |cfg.groups| {
        assert !IsReplyOf(cfg, input, gi, DeviceIndex(cfg.groups[gi].devices, input.ip));
      }
    }
  }

  lemma ReplyReportsAre(cfg: MasterConfig, m: Master, input: Input, gi: nat, i: nat)
    requires Ready(cfg, m) && Allowed(input) && IsReplyOf(cfg, input, gi, i)
    ensures gi < |m.groups| && i < |m.groups[gi].devices| && !IsForeignRequest(cfg, input)
    ensures StepReports(cfg, m, input)
            == ReplyReports(cfg.groups[gi].devices[i], gi, i, m.groups[gi].devices[i], m.groups[gi].seqNo, Reply(input), input.ip)
  {
    hide LaidOut, ParseResponse, ReplyReports, IsResponse, IsRequest;
    ReplyIsResponse(input.bytes, input.ip);
    IndexOfReply(cfg, input, gi, i);
    Shape(cfg, m, gi);
  }

  lemma ReplyAdds(cfg: MasterConfig, m: Master, input: Input, gi: nat, i: nat)
    requires Ready(cfg, m) && Allowed(input) && IsReplyOf(cfg, input, gi, i)
    ensures Adds(m.sh, Step(cfg, m, input).sh, StepReports(cfg, m, input))
  {
    hide LaidOut, Step, Adds, ParseResponse, RecordAfter, StepReports, ReplyReports;
    ReplyWrites(cfg, m, input, gi, i);
    ReplyReportsAre(cfg, m, input, gi, i);
  }

  /** The status that requests carry: running, stopped, or, from version 2 on, stopped by the user. */
  function StatusWord(protocolVer: u16, running: bool, byUser: bool): u16 {
    if running then 1 else if protocolVer >= 2 && byUser then 2 else 0
  }

  /** One step of the master: what it reports, and the settings of the application. */
  lemma StepReportsAre(cfg: MasterConfig, m: Master, input: Input)
    requires Ready(cfg, m) && Allowed(input)
    ensures var r := Step(cfg, m, input);
            && Reports(r.sh.trace) == Reports(m.sh.trace) + StepReports(cfg, m, input)
            && (Told(m.sh) ==> Told(r.sh)) && r.sh.parameterNo == m.sh.parameterNo
            && r.sh.unitInfo == if input.SetStatus? then StatusWord(cfg.protocolVer, input.running, input.stoppedByUser) else m.sh.unitInfo
  {
    hide LaidOut, Tick, Receive, Reports, LastState, ParseResponse, Writes, IsReplyOf, IsReply, IsForeignRequest, ReplyReports,
         MasterReports.Leaves, RecordAfter, AllReports;
    assert Reports(m.sh.trace) + [] == Reports(m.sh.trace);
    if input.Timers? {
      TickLeaves(cfg, m, input.t);
      LeavesAdds(m, Tick(cfg, m, input.t), []);
      NoFrame(cfg, m, input);
    } else if input.Frame? {
      if IsForeignRequest(cfg, input) {
        ForeignReports(cfg, m, input);
      } else if gi: nat, i: nat :| IsReplyOf(cfg, input, gi, i) {
        ReplyAdds(cfg, m, input, gi, i);
      } else {
        StrayFrame(cfg, m, input);
      }
    } else {
      NoFrame(cfg, m, input);
    }
  }

  lemma NoFrame(cfg: MasterConfig, m: Master, input: Input)
    requires Ready(cfg, m) && !input.Frame?
    ensures StepReports(cfg, m, input) == []
  {
  }

  lemma LeavesAdds(m: Master, r: Master, reports: seq<Output>)
    requires MasterReports.Leaves(m, r, reports)
    ensures Adds(m.sh, r.sh, reports)
  {
  }

  /** The record of device i of group gi after one step. */
  function StepRecord(cfg: MasterConfig, m: Master, input: Input, gi: nat, i: nat): Record
    requires gi < |m.groups| && i < |m.groups[gi].devices| && gi < |cfg.groups| && i < |cfg.groups[gi].devices|
  {
    var g, was := m.groups[gi], RecordOf(m.groups[gi].devices[i]);
    if IsReplyOf(cfg, input, gi, i) then
      RecordAfter(cfg, cfg.groups[gi].devices[i], g.devices[i], g.seqNo, (input.t.now - g.scanStart) % 0x1_0000_0000, Reply(input))
    else if input.ClearStatistics? then Record(D.NO_FRAME, 0, 0, 0, CLEARED, was.enabled, was.forced)
    else if input == SetEnabled(gi, i, true) then was.(enabled := true)
    else if input == SetEnabled(gi, i, false) then was.(enabled := false)
    else if input == Force(gi, i, true) then was.(forced := true)
    else if input == Force(gi, i, false) then was.(forced := false)
    else was
  }

  /** One step of the master: the record of each device, and the output memory. */
  lemma StepRecordIs(cfg: MasterConfig, m: Master, input: Input, gi: nat, i: nat)
    requires Ready(cfg, m) && Allowed(input) && gi < |m.groups| && i < |m.groups[gi].devices| && i < |cfg.groups[gi].devices|
    ensures var r := Step(cfg, m, input);
            && |r.groups| == |m.groups| && |r.groups[gi].devices| == |m.groups[gi].devices|
            && RecordOf(r.groups[gi].devices[i]) == StepRecord(cfg, m, input, gi, i)
            && r.groups[gi].ry == (if input.WriteOutputs? && input.gi == gi then input.ry else m.groups[gi].ry)
            && r.groups[gi].rww == (if input.WriteOutputs? && input.gi == gi then input.rww else m.groups[gi].rww)
  {
    hide LaidOut, Tick, Receive, Adds, ParseResponse, IsReply, IsForeignRequest, RecordAfter, ReplyReports;
    if input.Timers? {
      NotReply(cfg, input, gi, i);
      TickLeaves(cfg, m, input.t);
      assert SameRecords(m.groups[gi], Tick(cfg, m, input.t).groups[gi]);
    } else if input.Frame? {
      FrameRecord(cfg, m, input, gi, i);
    } else {
      ApplicationRecord(cfg, m, input, gi, i);
    }
  }

  lemma ApplicationRecord(cfg: MasterConfig, m: Master, input: Input, gi: nat, i: nat)
    requires Ready(cfg, m) && Allowed(input) && gi < |m.groups| && i < |m.groups[gi].devices| && i < |cfg.groups[gi].devices|
    requires !input.Frame? && !input.Timers?
    ensures var r := Step(cfg, m, input);
            && |r.groups| == |m.groups| && |r.groups[gi].devices| == |m.groups[gi].devices|
            && RecordOf(r.groups[gi].devices[i]) == StepRecord(cfg, m, input, gi, i)
            && r.groups[gi].ry == (if input.WriteOutputs? && input.gi == gi then input.ry else m.groups[gi].ry)
            && r.groups[gi].rww == (if input.WriteOutputs? && input.gi == gi then input.rww else m.groups[gi].rww)
  {
    hide LaidOut, UnitInfo, RecordAfter, RecordOf, WithEnabled, WithForced, AllCleared;
    NotReply(cfg, input, gi, i);
    match input
    case SetEnabled(h, j, on) => EnabledRecord(cfg, m, h, j, on, gi, i);
    case Force(h, j, on) => ForcedRecord(cfg, m, h, j, on, gi, i);
    case ClearStatistics => ClearedRecord(cfg, m, gi, i);
    case _ =>
  }

  lemma NotReply(cfg: MasterConfig, input: Input, gi: nat, i: nat)
    requires !input.Frame?
    ensures !IsReplyOf(cfg, input, gi, i)
  {
  }

  lemma EnabledRecord(cfg: MasterConfig, m: Master, h: nat, j: nat, on: bool, gi: nat, i: nat)
    requires Ready(cfg, m) && gi < |m.groups| && i < |m.groups[gi].devices|
    ensures var r, was := WithEnabled(cfg, m, h, j, on), RecordOf(m.groups[gi].devices[i]);
            && |r.groups| == |m.groups| && |r.groups[gi].devices| == |m.groups[gi].devices|
            && RecordOf(r.groups[gi].devices[i]) == (if h == gi && j == i then was.(enabled := on) else was)
            && r.groups[gi].ry == m.groups[gi].ry && r.groups[gi].rww == m.groups[gi].rww
  {
    hide LaidOut;
  }

  lemma ForcedRecord(cfg: MasterConfig, m: Master, h: nat, j: nat, on: bool, gi: nat, i: nat)
    requires Ready(cfg, m) && gi < |m.groups| && i < |m.groups[gi].devices|
    ensures var r, was := WithForced(cfg, m, h, j, on), RecordOf(m.groups[gi].devices[i]);
            && |r.groups| == |m.groups| && |r.groups[gi].devices| == |m.groups[gi].devices|
            && RecordOf(r.groups[gi].devices[i]) == (if h == gi && j == i then was.(forced := on) else was)
            && r.groups[gi].ry == m.groups[gi].ry && r.groups[gi].rww == m.groups[gi].rww
  {
    hide LaidOut;
  }

  lemma ClearedRecord(cfg: MasterConfig, m: Master, gi: nat, i: nat)
    requires Ready(cfg, m) && gi < |m.groups| && i < |m.groups[gi].devices|
    ensures var r, was := AllCleared(cfg, m), RecordOf(m.groups[gi].devices[i]);
            && |r.groups| == |m.groups| && |r.groups[gi].devices| == |m.groups[gi].devices|
            && RecordOf(r.groups[gi].devices[i]) == Record(D.NO_FRAME, 0, 0, 0, CLEARED, was.enabled, was.forced)
            && r.groups[gi].ry == m.groups[gi].ry && r.groups[gi].rww == m.groups[gi].rww
  {
    hide LaidOut;
  }

  lemma FrameRecord(cfg: MasterConfig, m: Master, input: Input, gi: nat, i: nat)
    requires Ready(cfg, m) && Allowed(input) && gi < |m.groups| && i < |m.groups[gi].devices| && i < |cfg.groups[gi].devices|
    requires input.Frame?
    ensures var r := Step(cfg, m, input);
            && |r.groups| == |m.groups| && |r.groups[gi].devices| == |m.groups[gi].devices|
            && RecordOf(r.groups[gi].devices[i]) == StepRecord(cfg, m, input, gi, i)
            && r.groups[gi].ry == m.groups[gi].ry && r.groups[gi].rww == m.groups[gi].rww
  {
    hide LaidOut, Step, Adds, ParseResponse, IsReply, IsForeignRequest, RecordAfter, ReplyReports, RecordOf, IsReplyOf;
    if h: nat, j: nat :| IsReplyOf(cfg, input, h, j) {
      ReplyWrites(cfg, m, input, h, j);
      OneReply(cfg, input, h, j, gi, i);
      if h != gi {
        assert SameRecords(m.groups[gi], Step(cfg, m, input).groups[gi]);
      }
    } else if IsForeignRequest(cfg, input) {
      ForeignReports(cfg, m, input);
      assert SameRecords(m.groups[gi], Step(cfg, m, input).groups[gi]);
    } else {
      StrayFrame(cfg, m, input);
    }
  }

  lemma OneReply(cfg: MasterConfig, input: Input, h: nat, j: nat, gi: nat, i: nat)
    requires GoodConfig(cfg) && IsReplyOf(cfg, input, h, j)
    ensures IsReplyOf(cfg, input, gi, i) ==> h == gi && j == i
  {
    hide ParseResponse;
  }
}
