/** The whole master: its groups, the shared fields, and one step for each thing that can
    happen to it (src/master/clm_iefb.c). */
module MasterModel {
  import opened Words
  import opened Buffers
  import opened Config
  import opened Layout
  import opened Timer
  import opened Statistics
  import opened Frames
  import opened Responses
  import opened GroupModel
  import D = DeviceModel

  datatype Master = Master(sh: Shared, groups: seq<Group>)

  /** A configuration both validators accept. */
  predicate GoodConfig(cfg: MasterConfig) {
    ValidConfig(cfg) && DistinctSlaves(cfg)
  }

  lemma GoodSetting(cfg: MasterConfig, gi: nat)
    requires ValidConfig(cfg) && gi < |cfg.groups|
    ensures ValidGroupSetting(cfg.groups[gi])
  {
    var devices := cfg.groups[gi].devices;
    assert ValidGroup(cfg.groups[gi], cfg.masterId);
    forall i | 0 <= i < |devices| ensures 1 <= devices[i].stations <= CLM_MAX_OCCUPIED_STATIONS_PER_GROUP {
      assert ValidDevice(devices[i], cfg.masterId);
    }
    OccupiedMonotone(devices, 1, |devices|);
    assert Occupied(devices, 1) == devices[0].stations;
  }

  /** Every group is there and laid out: true from the end of initialisation on. */
  predicate Ready(cfg: MasterConfig, m: Master) {
    && GoodConfig(cfg)
    && |m.groups| == |cfg.groups|
    && (forall gi :: 0 <= gi < |m.groups| ==> LaidOut(cfg.groups[gi], m.groups[gi]))
  }

  // ---------------------------------------------------------------- events for all groups

  function ScopeOf(m: Master, gi: nat): Scope
    requires gi < |m.groups|
  {
    Scope(m.sh, m.groups[gi])
  }

  function WithScope(m: Master, gi: nat, c: Scope): Master
    requires gi < |m.groups|
  {
    Master(c.sh, m.groups[gi := c.g])
  }

  function OneGroup(cfg: MasterConfig, m: Master, gi: nat, t: Clock, e: GroupEvent): (r: Master)
    requires Ready(cfg, m) && gi < |m.groups| && e != Startup
    ensures Ready(cfg, r)
  {
    GoodSetting(cfg, gi);
    WithScope(m, gi, GroupEventStep(cfg, cfg.groups[gi], gi, ScopeOf(m, gi), t, e))
  }

  /** clm_iefb_group_fsm_event_all, from group k on. */
  function AllGroups(cfg: MasterConfig, m: Master, k: nat, t: Clock, e: GroupEvent): (r: Master)
    requires Ready(cfg, m) && k <= |m.groups| && e != Startup
    ensures Ready(cfg, r)
    decreases |m.groups| - k
  {
    if k == |m.groups| then m else AllGroups(cfg, OneGroup(cfg, m, k, t, e), k + 1, t, e)
  }

  function PutDevice(g: Group, i: nat, d: D.Device): Group
    requires i < |g.devices|
  {
    g.(devices := g.devices[i := d])
  }

  /** Device i of group gi replaced; its station number stays. */
  function WithDevice(cfg: MasterConfig, m: Master, gi: nat, i: nat, d: D.Device): (r: Master)
    requires Ready(cfg, m) && gi < |m.groups| && i < |m.groups[gi].devices|
    requires d.station == m.groups[gi].devices[i].station
    ensures Ready(cfg, r)
  {
    m.(groups := m.groups[gi := PutDevice(m.groups[gi], i, d)])
  }

  function OneDevice(cfg: MasterConfig, m: Master, gi: nat, i: nat, e: D.DeviceEvent): (r: Master)
    requires Ready(cfg, m) && gi < |m.groups| && i < |m.groups[gi].devices| && e != D.GroupStartup
    ensures Ready(cfg, r)
  {
    GoodSetting(cfg, gi);
    WithScope(m, gi, DeviceEvent(cfg.groups[gi], gi, ScopeOf(m, gi), i, e))
  }

  // ---------------------------------------------------------------- initialisation

  /** Up, and waiting for its configuration. */
  predicate Started(cfg: MasterConfig, gi: nat, g: Group) {
    gi < |cfg.groups| && Sized(cfg.groups[gi], g) && g.state == MasterListen
  }

  predicate AllStarted(cfg: MasterConfig, groups: seq<Group>) {
    forall gi :: 0 <= gi < |groups| ==> Started(cfg, gi, groups[gi])
  }

  lemma OneMoreStarted(cfg: MasterConfig, groups: seq<Group>, g: Group)
    requires AllStarted(cfg, groups) && Started(cfg, |groups|, g)
    ensures AllStarted(cfg, groups + [g])
  {
    hide Started;
  }

  /** The group part of clm_iefb_init. */
  function StartGroup(cfg: MasterConfig, sh: Shared, gi: nat, t: Clock): (c: Scope)
    requires ValidConfig(cfg) && gi < |cfg.groups|
    ensures Started(cfg, gi, c.g)
  {
    hide InitGroupData, LaidOut;
    GoodSetting(cfg, gi);
    GroupEventStep(cfg, cfg.groups[gi], gi, Scope(sh, ZeroGroup(cfg.groups[gi])), t, Startup)
  }

  function StartGroups(cfg: MasterConfig, sh: Shared, k: nat, t: Clock): (r: Master)
    requires ValidConfig(cfg) && k <= |cfg.groups|
    ensures |r.groups| == k && AllStarted(cfg, r.groups)
  {
    hide StartGroup, AllStarted, Started;
    if k == 0 then
      NoneStarted(cfg);
      Master(sh, [])
    else
      var m := StartGroups(cfg, sh, k - 1, t);
      var c := StartGroup(cfg, m.sh, k - 1, t);
      OneMoreStarted(cfg, m.groups, c.g);
      Master(c.sh, m.groups + [c.g])
  }

  lemma NoneStarted(cfg: MasterConfig)
    ensures AllStarted(cfg, [])
  {
  }

  /** NEW_CONFIG, raised for a group that waits for it. */
  function ConfigureGroup(cfg: MasterConfig, gi: nat, c: Scope, t: Clock): (r: Scope)
    requires ValidConfig(cfg) && Started(cfg, gi, c.g)
    ensures LaidOut(cfg.groups[gi], r.g)
  {
    hide TakeConfig, LaidOut;
    GoodSetting(cfg, gi);
    GroupEventStep(cfg, cfg.groups[gi], gi, c, t, NewConfig)
  }

  /** The first k groups. */
  function ConfigureGroups(cfg: MasterConfig, m: Master, k: nat, t: Clock): (r: Master)
    requires ValidConfig(cfg) && |m.groups| == |cfg.groups| && AllStarted(cfg, m.groups) && k <= |m.groups|
    ensures |r.groups| == |m.groups|
    ensures forall gi :: 0 <= gi < k ==> LaidOut(cfg.groups[gi], r.groups[gi])
    ensures forall gi :: k <= gi < |m.groups| ==> r.groups[gi] == m.groups[gi]
  {
    hide ConfigureGroup, LaidOut, Started;
    if k == 0 then m
    else
      var m1 := ConfigureGroups(cfg, m, k - 1, t);
      WithScope(m1, k - 1, ConfigureGroup(cfg, k - 1, ScopeOf(m1, k - 1), t))
  }

  /** clm_iefb_init; parameterNo is the number found in storage. */
  function Init(cfg: MasterConfig, parameterNo: u16, t: Clock): (m: Master)
    requires GoodConfig(cfg)
    ensures Ready(cfg, m)
  {
    hide StartGroups, ConfigureGroups, LaidOut, Started;
    var sh := Shared(Down, Stopped, parameterNo, UNIT_INFO_RUNNING, IPADDR_INVALID, []);
    var m := StartGroups(cfg, sh, |cfg.groups|, t);
    var m1 := m.(sh := m.sh.(parameterNo := (m.sh.parameterNo + 1) % 0x1_0000));
    ConfigureGroups(cfg, m1, |cfg.groups|, t)
  }

  // ---------------------------------------------------------------- timers

  /** The first half of a group's part of clm_iefb_monitor_all_group_timers. */
  function AfterResponseTimer(cfg: MasterConfig, m: Master, h: nat, t: Clock): (r: Master)
    requires Ready(cfg, m) && h < |m.groups|
    ensures Ready(cfg, r)
  {
    if Expired(m.groups[h].responseTimer, t.now) then
      OneGroup(cfg, m.(groups := m.groups[h := m.groups[h].(responseTimer := Stopped)]), h, t, LinkScanTimeout)
    else m
  }

  /** And the second half. */
  function AfterScanTimer(cfg: MasterConfig, m: Master, h: nat, t: Clock): (r: Master)
    requires Ready(cfg, m) && h < |m.groups|
    ensures Ready(cfg, r)
  {
    if Expired(m.groups[h].scanTimer, t.now) then
      OneGroup(cfg, m.(groups := m.groups[h := m.groups[h].(scanTimer := Stopped)]), h, t, LinkScanStart)
    else m
  }

  function MonitorGroup(cfg: MasterConfig, m: Master, gi: nat, t: Clock): (r: Master)
    requires Ready(cfg, m) && gi < |m.groups|
    ensures Ready(cfg, r)
  {
    AfterScanTimer(cfg, AfterResponseTimer(cfg, m, gi, t), gi, t)
  }

  function MonitorGroups(cfg: MasterConfig, m: Master, k: nat, t: Clock): (r: Master)
    requires Ready(cfg, m) && k <= |m.groups|
    ensures Ready(cfg, r)
    decreases |m.groups| - k
  {
    if k == |m.groups| then m else MonitorGroups(cfg, MonitorGroup(cfg, m, k, t), k + 1, t)
  }

  function MonitorArbitration(cfg: MasterConfig, m: Master, t: Clock): (r: Master)
    requires Ready(cfg, m)
    ensures Ready(cfg, r)
  {
    if Expired(m.sh.arbTimer, t.now) then
      AllGroups(cfg, m.(sh := m.sh.(arbTimer := Stopped)), 0, t, ArbitrationDone)
    else m
  }

  /** The timer part of clm_iefb_periodic. */
  function Tick(cfg: MasterConfig, m: Master, t: Clock): (r: Master)
    requires Ready(cfg, m)
    ensures Ready(cfg, r)
  {
    MonitorGroups(cfg, MonitorArbitration(cfg, m, t), 0, t)
  }

  // ---------------------------------------------------------------- responses

  datatype Verdict = Unusable | Duplicate | InSequence

  /** The first checks of clm_iefb_handle_response_frame, in order. */
  function Judge(d: D.Device, seqNo: u16, r: Response): Verdict {
    if !d.enabled then Unusable
    else if d.latest.received && r.seqNo == d.latest.seqNo && d.state != D.Listen then Duplicate
    else if d.bit && r.seqNo != seqNo then Unusable
    else InSequence
  }

  function CountIncoming(d: D.Device): D.Device {
    d.(counters := d.counters.(incoming := Inc32(d.counters.incoming)))
  }

  function CountInvalid(d: D.Device): D.Device {
    d.(counters := d.counters.(invalid := Inc32(d.counters.invalid)))
  }

  function CountAlarm(d: D.Device): D.Device {
    d.(counters := d.counters.(alarms := Inc32(d.counters.alarms)))
  }

  /** End codes that the slave uses to complain about the master. */
  function ReportComplaint(sh: Shared, endCode: u16, ip: u32): Shared {
    if endCode == ENDCODE_WRONG_NUMBER_OCCUPIED then Note(sh, ErrorReport(SlaveReportsWrongNumberOccupied, ip))
    else if endCode == ENDCODE_MASTER_DUPLICATION then Note(sh, ErrorReport(SlaveReportsMasterDuplication, ip))
    else sh
  }

  predicate IsComplaint(endCode: u16) {
    endCode == ENDCODE_WRONG_NUMBER_OCCUPIED || endCode == ENDCODE_MASTER_DUPLICATION
  }

  predicate IsSlaveAlarm(endCode: u16) {
    endCode == ENDCODE_SLAVE_ERROR || endCode == ENDCODE_SLAVE_REQUESTS_DISCONNECT
  }

  function ReportChanges(sh: Shared, gi: nat, i: nat, latest: D.FrameValues, r: Response): Shared {
    var sh1 :=
      if IsSlaveAlarm(r.endCode) && r.endCode != latest.endCode then
        Note(sh, AlarmCb(gi, i, r.endCode, r.errCode, r.mgmtInfo))
      else sh;
    if latest.received && (r.errCode != latest.errCode || r.mgmtInfo != latest.mgmtInfo) then
      Note(sh1, SlaveInfoCb(gi, i, r.endCode, r.errCode, r.mgmtInfo))
    else sh1
  }

  /** clm_iefb_store_incoming_slave_runtime_info */
  function ValuesOf(r: Response, responseTime: u32): D.FrameValues {
    D.FrameValues(true, responseTime, r.Stations(), r.protocolVer, r.endCode, r.vendorCode, r.modelCode,
                  r.equipmentVer, r.unitInfo, r.mgmtInfo, r.errCode, r.slaveId, r.groupNo, r.seqNo)
  }

  function Stored(d: D.Device, maxSamples: u16, r: Response, responseTime: u32): D.Device {
    d.(latest := ValuesOf(r, responseTime),
       counters := d.counters.(time := Update(d.counters.time, maxSamples, responseTime)))
  }

  /** clm_iefb_store_incoming_cyclic_data */
  function StoreData(setting: GroupSetting, g: Group, i: nat, r: Response, valid: bool): (q: Group)
    requires LaidOut(setting, g) && ValidGroupSetting(setting) && i < |g.devices|
    requires r.WellFormed() && r.Stations() == setting.devices[i].stations
    ensures LaidOut(setting, q) && q == g.(rwr := q.rwr, rx := q.rx)
  {
    var first, n := g.devices[i].station - 1, setting.devices[i].stations;
    StationInRange(setting, i);
    g.(rwr := Splice(g.rwr, WORD_AREA * first, if valid then r.rwr else Zeros(WORD_AREA * n)),
       rx := Splice(g.rx, BIT_AREA * first, if valid then r.rx else Zeros(BIT_AREA * n)))
  }

  /** clm_iefb_group_have_received_from_all_devices */
  predicate HaveReceivedFromAll(g: Group) {
    if g.seqNo == 0 then
      && (forall i :: 0 <= i < |g.devices| ==> g.devices[i].state != D.WaitTd)
      && (exists i :: 0 <= i < |g.devices| && g.devices[i].state == D.CyclicSent)
    else
      && (forall i :: 0 <= i < |g.devices| ==> !(g.devices[i].bit && g.devices[i].state == D.CyclicSending))
      && (exists i :: 0 <= i < |g.devices| && g.devices[i].bit)
  }

  /** What is kept of an accepted response: header values, statistics and input data. */
  function KeepResponse(cfg: MasterConfig, m: Master, t: Clock, gi: nat, i: nat, r: Response): (q: Master)
    requires Ready(cfg, m) && gi < |m.groups| && i < |m.groups[gi].devices|
    requires r.WellFormed() && r.Stations() == cfg.groups[gi].devices[i].stations
    ensures Ready(cfg, q)
  {
    GoodSetting(cfg, gi);
    var g := m.groups[gi];
    var d := g.devices[i];
    var d1 := if IsSlaveAlarm(r.endCode) then CountAlarm(d) else d;
    var d2 := Stored(d1, cfg.maxSamples, r, Delta(t.now, g.scanStart));
    var g1 := StoreData(cfg.groups[gi], PutDevice(g, i, d2), i, r, d.bit);
    WithScope(m, gi, Scope(ReportChanges(m.sh, gi, i, d.latest, r), g1))
  }

  /** The device's event, and the end of the scan if it was the last answer. */
  function Answered(cfg: MasterConfig, m: Master, t: Clock, gi: nat, i: nat, e: D.DeviceEvent): (q: Master)
    requires Ready(cfg, m) && gi < |m.groups| && i < |m.groups[gi].devices| && e != D.GroupStartup
    ensures Ready(cfg, q)
  {
    var m1 := OneDevice(cfg, m, gi, i, e);
    if HaveReceivedFromAll(m1.groups[gi]) then OneGroup(cfg, m1, gi, t, LinkScanComplete) else m1
  }

  /** An accepted response: kept, shown to the application, and turned into events. */
  function AcceptResponse(cfg: MasterConfig, m: Master, t: Clock, gi: nat, i: nat, r: Response): (q: Master)
    requires Ready(cfg, m) && gi < |m.groups| && i < |m.groups[gi].devices|
    requires r.WellFormed() && r.Stations() == cfg.groups[gi].devices[i].stations
    ensures Ready(cfg, q)
  {
    var m1 := KeepResponse(cfg, m, t, gi, i, r);
    if r.endCode == ENDCODE_MASTER_DUPLICATION then AllGroups(cfg, m1, 0, t, DuplicationAlarm)
    else
      Answered(cfg, m1, t, gi, i, if r.endCode == ENDCODE_SUCCESS then D.ReceiveOk else D.ReceiveError)
  }

  /** A response with a plausible sequence number: complaints are reported, then the
      number of stations decides. */
  function HandleInSequence(cfg: MasterConfig, m: Master, t: Clock, gi: nat, i: nat, r: Response, ip: u32): (q: Master)
    requires Ready(cfg, m) && gi < |m.groups| && i < |m.groups[gi].devices| && r.WellFormed()
    ensures Ready(cfg, q)
  {
    var g := m.groups[gi];
    var sh := ReportComplaint(m.sh, r.endCode, ip);
    var d := if IsComplaint(r.endCode) then CountAlarm(g.devices[i]) else g.devices[i];
    if r.Stations() != cfg.groups[gi].devices[i].stations then WithDevice(cfg, m.(sh := sh), gi, i, CountInvalid(d))
    else AcceptResponse(cfg, WithDevice(cfg, m.(sh := sh), gi, i, d), t, gi, i, r)
  }

  function HandleFromDevice(cfg: MasterConfig, m: Master, t: Clock, gi: nat, i: nat, r: Response, ip: u32): (q: Master)
    requires Ready(cfg, m) && gi < |m.groups| && i < |m.groups[gi].devices| && r.WellFormed()
    ensures Ready(cfg, q)
  {
    var g := m.groups[gi];
    var d := CountIncoming(g.devices[i]);
    match Judge(d, g.seqNo, r)
    case Unusable => WithDevice(cfg, m, gi, i, CountInvalid(d))
    case Duplicate =>
      OneDevice(cfg, WithDevice(cfg, m.(sh := Note(m.sh, ErrorReport(SlaveDuplicated, ip))), gi, i, CountInvalid(d)),
                gi, i, D.SlaveDuplication)
    case InSequence => HandleInSequence(cfg, WithDevice(cfg, m, gi, i, d), t, gi, i, r, ip)
  }

  /** clm_iefb_handle_response_frame, behind the parser. */
  function HandleResponse(cfg: MasterConfig, m: Master, t: Clock, r: Response, ip: u32): (q: Master)
    requires Ready(cfg, m) && r.WellFormed() && r.groupNo >= 1
    ensures Ready(cfg, q)
  {
    if r.groupNo > |cfg.groups| then m
    else
      var gi := r.groupNo - 1;
      var i := DeviceIndex(cfg.groups[gi].devices, ip);
      if i == |cfg.groups[gi].devices| then m else HandleFromDevice(cfg, m, t, gi, i, r, ip)
  }

  /** clm_iefb_handle_input_frame. The parser's assertion must hold. */
  function Receive(cfg: MasterConfig, m: Master, t: Clock, b: seq<byte>, ip: u32): (r: Master)
    requires Ready(cfg, m) && ParseResponse(b, ip) != AssertionFails
    ensures Ready(cfg, r)
  {
    if ip == cfg.masterId then m
    else if IsResponse(b) then
      match ParseResponse(b, ip)
      case Parsed(r) => AcceptedResponseIsEncoded(b, ip); HandleResponse(cfg, m, t, r, ip)
      case _ => m
    else if IsRequest(b) then
      AllGroups(cfg, m.(sh := m.sh.(conflictIp := ip)), 0, t, RequestFromOther)
    else m
  }

  // ---------------------------------------------------------------- the application

  /** clm_iefb_calc_master_local_unit_info */
  function UnitInfo(protocolVer: u16, running: bool, stoppedByUser: bool): u16 {
    if running then UNIT_INFO_RUNNING
    else if protocolVer < 2 || !stoppedByUser then UNIT_INFO_STOPPED
    else UNIT_INFO_STOPPED_BY_USER
  }

  /** clm_iefb_statistics_clear_all */
  function StatisticsCleared(g: Group): Group {
    g.(devices := seq(|g.devices|, i requires 0 <= i < |g.devices| =>
         g.devices[i].(counters := D.CLEARED_COUNTERS, latest := D.NO_FRAME)))
  }

  // ---------------------------------------------------------------- runs

  datatype Input =
    | Timers(t: Clock)
    | Frame(t: Clock, bytes: seq<byte>, ip: u32)
    | SetEnabled(gi: nat, i: nat, on: bool)
    | Force(gi: nat, i: nat, on: bool)
    | SetStatus(running: bool, stoppedByUser: bool)
    | ClearStatistics
    | WriteOutputs(gi: nat, ry: seq<byte>, rww: seq<byte>)

  /** What the environment must respect: the parser's own assertion, and the sizes of the
      output areas the application writes into. */
  predicate Allowed(input: Input) {
    match input
    case Frame(_, b, ip) => ParseResponse(b, ip) != AssertionFails
    case WriteOutputs(_, ry, rww) => |ry| == BITS && |rww| == WORDS
    case _ => true
  }

  function WithEnabled(cfg: MasterConfig, m: Master, gi: nat, i: nat, on: bool): (r: Master)
    requires Ready(cfg, m)
    ensures Ready(cfg, r)
  {
    if gi < |m.groups| && i < |m.groups[gi].devices| then
      WithDevice(cfg, m, gi, i, m.groups[gi].devices[i].(enabled := on))
    else m
  }

  function WithForced(cfg: MasterConfig, m: Master, gi: nat, i: nat, on: bool): (r: Master)
    requires Ready(cfg, m)
    ensures Ready(cfg, r)
  {
    if gi < |m.groups| && i < |m.groups[gi].devices| then
      WithDevice(cfg, m, gi, i, m.groups[gi].devices[i].(forced := on))
    else m
  }

  function WithOutputs(cfg: MasterConfig, m: Master, gi: nat, ry: seq<byte>, rww: seq<byte>): (r: Master)
    requires Ready(cfg, m) && |ry| == BITS && |rww| == WORDS
    ensures Ready(cfg, r)
  {
    if gi < |m.groups| then m.(groups := m.groups[gi := m.groups[gi].(ry := ry, rww := rww)]) else m
  }

  function AllCleared(cfg: MasterConfig, m: Master): (r: Master)
    requires Ready(cfg, m)
    ensures Ready(cfg, r)
  {
    m.(groups := seq(|m.groups|, gi requires 0 <= gi < |m.groups| => StatisticsCleared(m.groups[gi])))
  }

  function Step(cfg: MasterConfig, m: Master, input: Input): (r: Master)
    requires Ready(cfg, m) && Allowed(input)
    ensures Ready(cfg, r)
  {
    match input
    case Timers(t) => Tick(cfg, m, t)
    case Frame(t, b, ip) => Receive(cfg, m, t, b, ip)
    case SetEnabled(gi, i, on) => WithEnabled(cfg, m, gi, i, on)
    case Force(gi, i, on) => WithForced(cfg, m, gi, i, on)
    case SetStatus(running, byUser) => m.(sh := m.sh.(unitInfo := UnitInfo(cfg.protocolVer, running, byUser)))
    case ClearStatistics => AllCleared(cfg, m)
    case WriteOutputs(gi, ry, rww) => WithOutputs(cfg, m, gi, ry, rww)
  }

  /** A run: any sequence of inputs. */
  function Run(cfg: MasterConfig, m: Master, inputs: seq<Input>): (r: Master)
    requires Ready(cfg, m) && forall k :: 0 <= k < |inputs| ==> Allowed(inputs[k])
    ensures Ready(cfg, r)
  {
    if inputs == [] then m
    else Step(cfg, Run(cfg, m, inputs[..|inputs| - 1]), inputs[|inputs| - 1])
  }
}
