/** Input data: a response changes the area of its own device and of no other, and a connected
    device's area only takes data of the scan that is under way. */
module Freshness {
  import opened Words
  import opened Buffers
  import opened Config
  import opened Layout
  import opened Timer
  import opened Frames
  import opened Responses
  import opened GroupModel
  import opened MasterModel
  import opened GroupRuns
  import opened FrameViews
  import opened Scans
  import opened ScanStarts
  import D = DeviceModel

  predicate SameInputs(m: Master, r: Master) {
    && |r.groups| == |m.groups|
    && forall gi :: 0 <= gi < |m.groups| ==> r.groups[gi].rx == m.groups[gi].rx && r.groups[gi].rwr == m.groups[gi].rwr
  }

  lemma EventInputs(cfg: MasterConfig, setting: GroupSetting, gi: nat, c: Scope, t: Clock, e: GroupEvent)
    requires LaidOut(setting, c.g) && ValidGroupSetting(setting)
    requires e != Startup && e != NewConfig && e != ParameterChange
    ensures var r := GroupEventStep(cfg, setting, gi, c, t, e).g; r.rx == c.g.rx && r.rwr == c.g.rwr
  {
    hide GroupEventStep, LaidOut, StartScope, Log, BeginScan, EncodeRequest, RequestOf;
    if Starts(setting, c.g.state, e) {
      StartingEvent(cfg, setting, gi, c, t, e);
      StartScopeFacts(setting, gi, c, e);
      BeginFacts(setting, gi, StartScope(setting, gi, c, e), t);
    } else {
      OtherEvent(cfg, setting, gi, c, t, e);
    }
  }

  lemma OneGroupInputs(cfg: MasterConfig, m: Master, gi: nat, t: Clock, e: GroupEvent)
    requires Ready(cfg, m) && gi < |m.groups| && e != Startup && e != NewConfig && e != ParameterChange
    ensures SameInputs(m, OneGroup(cfg, m, gi, t, e))
  {
    hide GroupEventStep, LaidOut;
    GoodSetting(cfg, gi);
    EventInputs(cfg, cfg.groups[gi], gi, ScopeOf(m, gi), t, e);
  }

  lemma {:induction false} AllGroupsInputs(cfg: MasterConfig, m: Master, k: nat, t: Clock, e: GroupEvent)
    requires Ready(cfg, m) && k <= |m.groups| && e != Startup && e != NewConfig && e != ParameterChange
    ensures SameInputs(m, AllGroups(cfg, m, k, t, e))
    decreases |m.groups| - k
  {
    hide OneGroup, LaidOut;
    if k < |m.groups| {
      OneGroupInputs(cfg, m, k, t, e);
      AllGroupsInputs(cfg, OneGroup(cfg, m, k, t, e), k + 1, t, e);
    }
  }

  lemma OneDeviceInputs(cfg: MasterConfig, m: Master, gi: nat, i: nat, e: D.DeviceEvent)
    requires Ready(cfg, m) && gi < |m.groups| && i < |m.groups[gi].devices| && e != D.GroupStartup
    ensures SameInputs(m, OneDevice(cfg, m, gi, i, e))
  {
    hide D.After, PatchFrame, LaidOut;
    GoodSetting(cfg, gi);
  }

  lemma MonitorOneInputs(cfg: MasterConfig, m: Master, h: nat, t: Clock)
    requires Ready(cfg, m) && h < |m.groups|
    ensures SameInputs(m, MonitorGroup(cfg, m, h, t))
  {
    hide OneGroup, LaidOut, Expired;
    LaidOutApart(cfg, m, h);
    OneGroupInputs(cfg, m.(groups := m.groups[h := m.groups[h].(responseTimer := Stopped)]), h, t, LinkScanTimeout);
    var m1 := AfterResponseTimer(cfg, m, h, t);
    LaidOutApart(cfg, m1, h);
    OneGroupInputs(cfg, m1.(groups := m1.groups[h := m1.groups[h].(scanTimer := Stopped)]), h, t, LinkScanStart);
  }

  lemma {:induction false} MonitorInputs(cfg: MasterConfig, m: Master, k: nat, t: Clock)
    requires Ready(cfg, m) && k <= |m.groups|
    ensures SameInputs(m, MonitorGroups(cfg, m, k, t))
    decreases |m.groups| - k
  {
    hide MonitorGroup, LaidOut;
    if k < |m.groups| {
      MonitorOneInputs(cfg, m, k, t);
      MonitorInputs(cfg, MonitorGroup(cfg, m, k, t), k + 1, t);
    }
  }

  lemma TickInputs(cfg: MasterConfig, m: Master, t: Clock)
    requires Ready(cfg, m)
    ensures SameInputs(m, Tick(cfg, m, t))
  {
    hide MonitorGroups, AllGroups, LaidOut, Expired;
    AllGroupsInputs(cfg, m.(sh := m.sh.(arbTimer := Stopped)), 0, t, ArbitrationDone);
    MonitorInputs(cfg, MonitorArbitration(cfg, m, t), 0, t);
  }

  // ---------------------------------------------------------------- responses

  /** A response whose data is stored for device i: from an enabled device, not a duplicate, in
      step with the group when the device is connected, and of the configured size. */
  predicate IsTaken(m: Master, gi: nat, i: nat, setting: DeviceSetting, r: Response)
    requires gi < |m.groups| && i < |m.groups[gi].devices|
  {
    IsUsable(m.groups[gi].devices[i], m.groups[gi].seqNo, r) && r.Stations() == setting.stations
  }

  /** The areas of group h after a response of device i was stored in group gi. */
  predicate StoredIn(cfg: MasterConfig, m: Master, gi: nat, i: nat, r: Response, q: Master)
    requires Ready(cfg, m) && gi < |m.groups| && i < |m.groups[gi].devices| && i < |cfg.groups[gi].devices|
    requires r.WellFormed() && r.Stations() == cfg.groups[gi].devices[i].stations && ValidGroupSetting(cfg.groups[gi])
  {
    var s := StoreData(cfg.groups[gi], m.groups[gi], i, r, m.groups[gi].devices[i].bit);
    && |q.groups| == |m.groups|
    && (forall h :: 0 <= h < |m.groups| && h != gi ==> q.groups[h].rx == m.groups[h].rx && q.groups[h].rwr == m.groups[h].rwr)
    && q.groups[gi].rx == s.rx && q.groups[gi].rwr == s.rwr
  }

  lemma KeepStores(cfg: MasterConfig, m: Master, t: Clock, gi: nat, i: nat, r: Response)
    requires Ready(cfg, m) && gi < |m.groups| && i < |m.groups[gi].devices| && i < |cfg.groups[gi].devices|
    requires r.WellFormed() && r.Stations() == cfg.groups[gi].devices[i].stations && ValidGroupSetting(cfg.groups[gi])
    ensures StoredIn(cfg, m, gi, i, r, KeepResponse(cfg, m, t, gi, i, r))
  {
    hide LaidOut, Splice;
  }

  lemma AcceptStores(cfg: MasterConfig, m: Master, t: Clock, gi: nat, i: nat, r: Response)
    requires Ready(cfg, m) && gi < |m.groups| && i < |m.groups[gi].devices| && i < |cfg.groups[gi].devices|
    requires r.WellFormed() && r.Stations() == cfg.groups[gi].devices[i].stations && ValidGroupSetting(cfg.groups[gi])
    ensures StoredIn(cfg, m, gi, i, r, AcceptResponse(cfg, m, t, gi, i, r))
  {
    hide LaidOut, StoreData, KeepResponse, AllGroups, OneDevice, OneGroup, HaveReceivedFromAll;
    KeepStores(cfg, m, t, gi, i, r);
    var m1 := KeepResponse(cfg, m, t, gi, i, r);
    Shape(cfg, m1, gi);
    Shape(cfg, m, gi);
    AllGroupsInputs(cfg, m1, 0, t, DuplicationAlarm);
    var e := if r.endCode == ENDCODE_SUCCESS then D.ReceiveOk else D.ReceiveError;
    OneDeviceInputs(cfg, m1, gi, i, e);
    OneGroupInputs(cfg, OneDevice(cfg, m1, gi, i, e), gi, t, LinkScanComplete);
  }

  lemma FromDeviceStores(cfg: MasterConfig, m: Master, t: Clock, gi: nat, i: nat, r: Response, ip: u32)
    requires Ready(cfg, m) && gi < |m.groups| && i < |m.groups[gi].devices| && i < |cfg.groups[gi].devices|
    requires r.WellFormed() && ValidGroupSetting(cfg.groups[gi])
    ensures var q := HandleFromDevice(cfg, m, t, gi, i, r, ip);
            if IsTaken(m, gi, i, cfg.groups[gi].devices[i], r) then StoredIn(cfg, m, gi, i, r, q) else SameInputs(m, q)
  {
    hide LaidOut, AcceptResponse, OneDevice, ReportComplaint, Splice, Zeros, ResponseSize;
    var d := CountIncoming(m.groups[gi].devices[i]);
    match Judge(d, m.groups[gi].seqNo, r)
    case Unusable =>
    case Duplicate =>
      OneDeviceInputs(cfg, WithDevice(cfg, m.(sh := Note(m.sh, ErrorReport(SlaveDuplicated, ip))), gi, i, CountInvalid(d)),
                      gi, i, D.SlaveDuplication);
    case InSequence =>
      if r.Stations() == cfg.groups[gi].devices[i].stations {
        var d1 := if IsComplaint(r.endCode) then CountAlarm(d) else d;
        var m1 := WithDevice(cfg, WithDevice(cfg, m, gi, i, d).(sh := ReportComplaint(m.sh, r.endCode, ip)), gi, i, d1);
        AcceptStores(cfg, m1, t, gi, i, r);
      }
  }

  /** The input is a response that is taken for device i of group gi. */
  predicate TakenFor(cfg: MasterConfig, m: Master, input: Input, gi: nat, i: nat)
    requires Ready(cfg, m) && gi < |m.groups|
  {
    && IsReply(input) && input.ip != cfg.masterId
    && Reply(input).groupNo == gi + 1
    && i == DeviceIndex(cfg.groups[gi].devices, input.ip) < |m.groups[gi].devices|
    && i < |cfg.groups[gi].devices|
    && IsTaken(m, gi, i, cfg.groups[gi].devices[i], Reply(input))
  }

  /** The input is a response of a configured device. */
  predicate Identified(cfg: MasterConfig, m: Master, input: Input)
    requires Ready(cfg, m)
  {
    && IsReply(input) && input.ip != cfg.masterId && 1 <= Reply(input).groupNo <= |cfg.groups|
    && DeviceIndex(cfg.groups[Reply(input).groupNo - 1].devices, input.ip) < |cfg.groups[Reply(input).groupNo - 1].devices|
    && DeviceIndex(cfg.groups[Reply(input).groupNo - 1].devices, input.ip) < |m.groups[Reply(input).groupNo - 1].devices|
  }

  /** A taken response is stored for its device; any other frame stores nothing. */
  lemma ReceiveInputs(cfg: MasterConfig, m: Master, input: Input)
    requires Ready(cfg, m) && Allowed(input) && input.Frame?
    ensures var q := Receive(cfg, m, input.t, input.bytes, input.ip);
            if Identified(cfg, m, input) then
              var r := Reply(input);
              var h := r.groupNo - 1;
              var i := DeviceIndex(cfg.groups[h].devices, input.ip);
              && r.WellFormed() && ValidGroupSetting(cfg.groups[h])
              && if IsTaken(m, h, i, cfg.groups[h].devices[i], r) then StoredIn(cfg, m, h, i, r, q) else SameInputs(m, q)
            else SameInputs(m, q)
  {
    hide LaidOut, HandleFromDevice, AllGroups, ParseResponse, IsRequest, IsResponse, IsTaken, StoreData, StoredIn, SameInputs;
    var t, b, ip := input.t, input.bytes, input.ip;
    ReplyIsResponse(b, ip);
    NothingStored(m);
    if ip != cfg.masterId {
      if IsResponse(b) {
        if ParseResponse(b, ip).Parsed? {
          var r := ParseResponse(b, ip).r;
          AcceptedResponseIsEncoded(b, ip);
          if r.groupNo <= |cfg.groups| {
            var h := r.groupNo - 1;
            var i := DeviceIndex(cfg.groups[h].devices, ip);
            Shape(cfg, m, h);
            GoodSetting(cfg, h);
            if i < |cfg.groups[h].devices| {
              FromDeviceStores(cfg, m, t, h, i, r, ip);
            }
          }
        }
      } else if IsRequest(b) {
        ForeignStores(cfg, m, t, ip);
      }
    }
  }

  lemma NothingStored(m: Master)
    ensures SameInputs(m, m)
  {
  }

  lemma ForeignStores(cfg: MasterConfig, m: Master, t: Clock, ip: u32)
    requires Ready(cfg, m)
    ensures SameInputs(m, AllGroups(cfg, m.(sh := m.sh.(conflictIp := ip)), 0, t, RequestFromOther))
  {
    hide AllGroups, LaidOut;
    AllGroupsInputs(cfg, m.(sh := m.sh.(conflictIp := ip)), 0, t, RequestFromOther);
  }

  lemma ReceiveStores(cfg: MasterConfig, m: Master, input: Input, gi: nat, j: nat)
    requires Ready(cfg, m) && gi < |m.groups| && j < |m.groups[gi].devices| && Allowed(input) && input.Frame?
    requires ValidGroupSetting(cfg.groups[gi]) && |cfg.groups[gi].devices| == |m.groups[gi].devices|
    ensures var q := Receive(cfg, m, input.t, input.bytes, input.ip);
            && |q.groups| == |m.groups|
            && (if TakenFor(cfg, m, input, gi, j) then
                  Reply(input).WellFormed() && StoredIn(cfg, m, gi, j, Reply(input), q)
                else
                  (exists i: nat :: i < |m.groups[gi].devices| && i != j && TakenFor(cfg, m, input, gi, i)
                                    && Reply(input).WellFormed() && StoredIn(cfg, m, gi, i, Reply(input), q))
                  || (q.groups[gi].rx == m.groups[gi].rx && q.groups[gi].rwr == m.groups[gi].rwr))
  {
    hide LaidOut, Receive, ParseResponse, IsTaken, StoreData;
    ReceiveInputs(cfg, m, input);
  }

  /** The area of device j, after data was stored for device i. */
  lemma StoreAreas(setting: GroupSetting, g: Group, i: nat, j: nat, r: Response, valid: bool)
    requires LaidOut(setting, g) && ValidGroupSetting(setting) && i < |g.devices| && j < |g.devices|
    requires r.WellFormed() && r.Stations() == setting.devices[i].stations
    requires Offset(WORD_AREA, End(setting.devices, i)) <= |g.rwr| && Offset(BIT_AREA, End(setting.devices, i)) <= |g.rx|
    requires Offset(WORD_AREA, End(setting.devices, j)) <= |g.rwr| && Offset(BIT_AREA, End(setting.devices, j)) <= |g.rx|
    ensures var q, n := StoreData(setting, g, i, r, valid), setting.devices[i].stations;
            && AreaOf(setting, q.rwr, WORD_AREA, j)
               == (if j != i then AreaOf(setting, g.rwr, WORD_AREA, j) else if valid then r.rwr else Zeros(WORD_AREA * n))
            && AreaOf(setting, q.rx, BIT_AREA, j)
               == (if j != i then AreaOf(setting, g.rx, BIT_AREA, j) else if valid then r.rx else Zeros(BIT_AREA * n))
  {
    hide Splice, Zeros, AreaOf;
    var n := setting.devices[i].stations;
    StationInRange(setting, i);
    SpliceArea(setting, g.rwr, WORD_AREA, i, j, if valid then r.rwr else Zeros(WORD_AREA * n));
    SpliceArea(setting, g.rx, BIT_AREA, i, j, if valid then r.rx else Zeros(BIT_AREA * n));
  }

  lemma AreasFit(setting: GroupSetting, i: nat)
    requires ValidGroupSetting(setting) && i < |setting.devices|
    ensures Offset(WORD_AREA, End(setting.devices, i)) <= WORDS && Offset(BIT_AREA, End(setting.devices, i)) <= BITS
  {
    Fits(setting, i);
  }

  /** Only received frames change input areas. */
  lemma QuietInputs(cfg: MasterConfig, m: Master, input: Input)
    requires Ready(cfg, m) && Allowed(input) && !input.Frame?
    ensures SameInputs(m, Step(cfg, m, input))
  {
    hide LaidOut, Tick;
    if input.Timers? {
      TickInputs(cfg, m, input.t);
    }
  }

  /** One step, seen from device j of group gi. Its input area changes exactly when a response is
      taken for it: that response comes from its configured address, it is enabled, and if it is
      connected the response carries the current sequence number and its data is stored; an
      unconnected device's area is zeroed. Nothing else ever changes the area. */
  lemma InputsAreFresh(cfg: MasterConfig, m: Master, input: Input, gi: nat, j: nat)
    requires Ready(cfg, m) && gi < |m.groups| && j < |m.groups[gi].devices| && Allowed(input)
    ensures var g, q, setting := m.groups[gi], Step(cfg, m, input).groups[gi], cfg.groups[gi];
            && ValidGroupSetting(setting) && j < |setting.devices|
            && Offset(WORD_AREA, End(setting.devices, j)) <= WORDS && Offset(BIT_AREA, End(setting.devices, j)) <= BITS
            && |g.rwr| == |q.rwr| == WORDS && |g.rx| == |q.rx| == BITS
            && (if TakenFor(cfg, m, input, gi, j) then
                  && setting.devices[j].slaveId == input.ip && g.devices[j].enabled
                  && (g.devices[j].bit ==>
                        && Reply(input).seqNo == g.seqNo
                        && AreaOf(setting, q.rwr, WORD_AREA, j) == Reply(input).rwr
                        && AreaOf(setting, q.rx, BIT_AREA, j) == Reply(input).rx)
                  && (!g.devices[j].bit ==>
                        && AreaOf(setting, q.rwr, WORD_AREA, j) == Zeros(WORD_AREA * setting.devices[j].stations)
                        && AreaOf(setting, q.rx, BIT_AREA, j) == Zeros(BIT_AREA * setting.devices[j].stations))
                else
                  && AreaOf(setting, q.rwr, WORD_AREA, j) == AreaOf(setting, g.rwr, WORD_AREA, j)
                  && AreaOf(setting, q.rx, BIT_AREA, j) == AreaOf(setting, g.rx, BIT_AREA, j))
  {
    hide LaidOut, Receive, Tick, ParseResponse, AreaOf, StoreData, WithEnabled, WithForced, WithOutputs, AllCleared;
    var setting := cfg.groups[gi];
    Shape(cfg, m, gi);
    LaidOutShape(setting, m.groups[gi]);
    LaidOutShape(setting, Step(cfg, m, input).groups[gi]);
    GoodSetting(cfg, gi);
    AreasFit(setting, j);
    if !input.Frame? {
      QuietInputs(cfg, m, input);
    } else {
      ReceiveStores(cfg, m, input, gi, j);
      if i: nat :| i < |m.groups[gi].devices| && TakenFor(cfg, m, input, gi, i) {
        AcceptedResponseIsEncoded(input.bytes, input.ip);
        AreasFit(setting, i);
        StoreAreas(setting, m.groups[gi], i, j, Reply(input), m.groups[gi].devices[i].bit);
      }
    }
  }
}
