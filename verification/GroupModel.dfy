/** One group of slaves in the master: the group state machine of src/master/clm_iefb.c, run
    to completion, with the request frame it patches and sends. */
module GroupModel {
  import opened Words
  import opened Buffers
  import opened Config
  import opened Layout
  import opened Timer
  import opened Frames
  import opened Fsm
  import opened RequestFrame
  import D = DeviceModel

  datatype GroupState = MasterDown | MasterListen | MasterArbitration | LinkScanComp | LinkScan {
    function Ord(): nat {
      match this
      case MasterDown => 0
      case MasterListen => 1
      case MasterArbitration => 2
      case LinkScanComp => 3
      case LinkScan => 4
    }
  }

  const GROUP_STATES := [MasterDown, MasterListen, MasterArbitration, LinkScanComp, LinkScan]

  datatype GroupEvent =
    | NoEvent | Startup | ParameterChange | NewConfig | ArbitrationDone | RequestFromOther
    | DuplicationAlarm | LinkScanStart | LinkScanTimeout | LinkScanComplete
  {
    function Ord(): nat {
      match this
      case NoEvent => 0
      case Startup => 1
      case ParameterChange => 2
      case NewConfig => 3
      case ArbitrationDone => 4
      case RequestFromOther => 5
      case DuplicationAlarm => 6
      case LinkScanStart => 7
      case LinkScanTimeout => 8
      case LinkScanComplete => 9
    }
  }

  const GROUP_EVENTS := [NoEvent, Startup, ParameterChange, NewConfig, ArbitrationDone, RequestFromOther,
                         DuplicationAlarm, LinkScanStart, LinkScanTimeout, LinkScanComplete]

  datatype GroupAction =
    | NoAction | InitGroup | ReflectNewConfig | ArbitrationFailed | StartFirstScan | StartScan | ScanTimedOut | ScanCompleted

  datatype MasterState = Down | Standby | Arbitration | Running

  datatype ErrorMessage =
    ArbitrationLost | SlaveDuplicated | SlaveReportsWrongNumberOccupied | SlaveReportsMasterDuplication

  /** What leaves the master: frames on the wire and calls to the application. An error
      report stands for the call that the rate limiter may still swallow. */
  datatype Output =
    | Sent(group: nat, request: Request, bytes: seq<byte>)
    | MasterStateCb(state: MasterState)
    | LinkScanCb(group: nat, success: bool)
    | ConnectCb(group: nat, device: nat)
    | DisconnectCb(group: nat, device: nat)
    | AlarmCb(group: nat, device: nat, endCode: u16, errCode: u16, mgmtInfo: u32)
    | SlaveInfoCb(group: nat, device: nat, endCode: u16, errCode: u16, mgmtInfo: u32)
    | ErrorReport(message: ErrorMessage, ip: u32)

  datatype Group = Group(
    state: GroupState, total: u16, seqNo: u16, word: u16, scanStart: u32,
    responseTimer: TimerState, scanTimer: TimerState,
    devices: seq<D.Device>, frame: Request,
    rx: seq<byte>, ry: seq<byte>, rwr: seq<byte>, rww: seq<byte>)

  /** The fields of the master that the group machines share. */
  datatype Shared = Shared(
    masterState: MasterState, arbTimer: TimerState, parameterNo: u16, unitInfo: u16, conflictIp: u32,
    trace: seq<Output>)

  /** One group together with the shared fields: what a group event reads and writes. */
  datatype Scope = Scope(sh: Shared, g: Group)

  /** The time of a call: the microsecond stamp, and the wall clock put into requests. */
  datatype Clock = Clock(now: u32, unixMs: u64)

  const WORDS := WORD_AREA * CLM_MAX_OCCUPIED_STATIONS_PER_GROUP
  const BITS := BIT_AREA * CLM_MAX_OCCUPIED_STATIONS_PER_GROUP

  /** A group in zeroed memory. */
  function ZeroGroup(setting: GroupSetting): Group {
    Group(MasterDown, 0, 0, 0, 0, Stopped, Stopped, seq(|setting.devices|, i => D.ZERO_DEVICE),
          NO_REQUEST,
          Zeros(BITS), Zeros(BITS), Zeros(WORDS), Zeros(WORDS))
  }

  // ---------------------------------------------------------------- what every group keeps

  predicate Sized(setting: GroupSetting, g: Group) {
    && |g.devices| == |setting.devices|
    && |g.rx| == |g.ry| == BITS
    && |g.rwr| == |g.rww| == WORDS
  }

  /** The frame and the station numbers follow the configuration. */
  predicate LaidOut(setting: GroupSetting, g: Group) {
    && Sized(setting, g)
    && g.frame.WellFormed()
    && |g.frame.ids| == Total(setting.devices)
    && (forall i :: 0 <= i < |g.devices| ==> g.devices[i].station == 1 + Start(setting.devices, i))
  }

  lemma TimersLaidOut(setting: GroupSetting, g: Group)
    requires LaidOut(setting, g)
    ensures LaidOut(setting, g.(responseTimer := Stopped)) && LaidOut(setting, g.(scanTimer := Stopped))
  {
  }

  // ---------------------------------------------------------------- pieces of the actions

  /** clm_iefb_update_frame_sequence_no */
  function NextSeqNo(s: u16): u16 {
    if s == 0xFFFF then 1 else s + 1
  }

  /** cl_iefb_set_cyclic_transmission_state */
  function SetTransmissionState(word: u16, station: u16, on: bool): u16 {
    if station == 0 || station > MAX_STATIONS_PER_GROUP then word
    else
      Pow2Values();
      WithBit(16, word, station - 1, on)
  }

  /** The frame part of clm_iefb_set_data_ip, for device i in its new state. */
  function PatchFrame(setting: GroupSetting, g: Group, i: nat): (r: Group)
    requires LaidOut(setting, g) && ValidGroupSetting(setting) && i < |g.devices|
    ensures LaidOut(setting, r)
    ensures r == g.(word := r.word, frame := r.frame)
  {
    var d := g.devices[i];
    var on := d.bit || d.forced;
    StationInRange(setting, i);
    g.(word := SetTransmissionState(g.word, d.station, on),
       frame := WithData(WithId(g.frame, d.station, d.state != D.CyclicSuspend, setting.devices[i].slaveId),
                         g.rww, g.ry, d.station, setting.devices[i].stations, on))
  }

  /** What the layout needs from the validated configuration. */
  predicate ValidGroupSetting(setting: GroupSetting) {
    && 1 <= Total(setting.devices) <= CLM_MAX_OCCUPIED_STATIONS_PER_GROUP
    && (forall i :: 0 <= i < |setting.devices| ==> 1 <= setting.devices[i].stations <= CLM_MAX_OCCUPIED_STATIONS_PER_GROUP)
  }

  lemma StationInRange(setting: GroupSetting, i: nat)
    requires i < |setting.devices|
    ensures End(setting.devices, i) == Start(setting.devices, i) + setting.devices[i].stations <= Total(setting.devices)
  {
    OccupiedMonotone(setting.devices, i + 1, |setting.devices|);
  }

  function Note(sh: Shared, o: Output): Shared {
    sh.(trace := sh.trace + [o])
  }

  function SetMasterState(sh: Shared, s: MasterState): Shared {
    if s != sh.masterState then Note(sh, MasterStateCb(s)).(masterState := s) else sh
  }

  // ---------------------------------------------------------------- device events inside the group

  /** Nothing but the devices, the transmission word and the frame differs. */
  predicate OnlyDevices(g: Group, r: Group) {
    r == g.(devices := r.devices, word := r.word, frame := r.frame)
  }

  /** One device event, run to completion. */
  function DeviceEvent(setting: GroupSetting, gi: nat, c: Scope, i: nat, e: D.DeviceEvent): (r: Scope)
    requires Sized(setting, c.g) && ValidGroupSetting(setting) && i < |c.g.devices|
    requires D.Patches(c.g.devices[i].state, e) ==> LaidOut(setting, c.g)
    ensures Sized(setting, r.g)
    ensures LaidOut(setting, c.g) && e != D.GroupStartup ==> LaidOut(setting, r.g)
    ensures OnlyDevices(c.g, r.g)
  {
    var d := c.g.devices[i];
    var d' := D.After(d, setting.devices[i], setting.offCount, e);
    var g' := c.g.(devices := c.g.devices[i := d']);
    if D.Patches(d.state, e) then
      Scope(if d'.bit && !d.bit then Note(c.sh, ConnectCb(gi, i))
            else if !d'.bit && d.bit then Note(c.sh, DisconnectCb(gi, i)) else c.sh,
            PatchFrame(setting, g', i))
    else
      Scope(c.sh, g')
  }

  /** One turn of the device event loop, with its effect on the frame and the callbacks. */
  function DeviceTurn(setting: GroupSetting, gi: nat, c: Scope, i: nat, e: D.DeviceEvent): Scope
    requires Sized(setting, c.g) && ValidGroupSetting(setting) && i < |c.g.devices|
    requires D.Patches(c.g.devices[i].state, e) ==> LaidOut(setting, c.g)
  {
    var d := c.g.devices[i];
    var d' := D.Turn(d, setting.devices[i], setting.offCount, e).0;
    var g' := c.g.(devices := c.g.devices[i := d']);
    D.TurnsMakeAfter(d, setting.devices[i], setting.offCount, e);
    if D.Patches(d.state, e) then
      Scope(if d'.bit && !d.bit then Note(c.sh, ConnectCb(gi, i))
            else if !d'.bit && d.bit then Note(c.sh, DisconnectCb(gi, i)) else c.sh,
            PatchFrame(setting, g', i))
    else
      Scope(c.sh, g')
  }

  /** The loop of clm_iefb_device_fsm_event makes the big step turn by turn. */
  lemma DeviceTurnsMakeEvent(setting: GroupSetting, gi: nat, c: Scope, i: nat, e: D.DeviceEvent)
    requires Sized(setting, c.g) && ValidGroupSetting(setting) && i < |c.g.devices|
    requires D.Patches(c.g.devices[i].state, e) ==> LaidOut(setting, c.g)
    ensures var c1, next := DeviceTurn(setting, gi, c, i, e), D.Turn(c.g.devices[i], setting.devices[i], setting.offCount, e).1;
            && Sized(setting, c1.g)
            && (next != D.NoEvent ==> D.Rank(next) < D.Rank(e) && !D.Patches(c1.g.devices[i].state, next))
            && DeviceEvent(setting, gi, c, i, e) == (if next == D.NoEvent then c1 else DeviceEvent(setting, gi, c1, i, next))
  {
    hide D.After, D.Turn, PatchFrame;
    D.TurnsMakeAfter(c.g.devices[i], setting.devices[i], setting.offCount, e);
    var (d1, next) := D.Turn(c.g.devices[i], setting.devices[i], setting.offCount, e);
    var d2 := D.After(d1, setting.devices[i], setting.offCount, next);
    assert c.g.devices[i := d1][i := d2] == c.g.devices[i := d2];
  }

  /** What one pass over the devices tells each of them: one event for all, or start or
      stop according to whether the device is enabled. */
  datatype Signal = ToAll(e: D.DeviceEvent) | ScanSignal

  function EventFor(s: Signal, d: D.Device): D.DeviceEvent {
    match s
    case ToAll(e) => e
    case ScanSignal => if d.enabled then D.ScanStartDeviceStart else D.ScanStartDeviceStop
  }

  /** A signal that can reach every device of a group without a configured frame. */
  predicate Harmless(s: Signal) {
    s.ToAll? && s.e != D.ScanStartDeviceStart && s.e != D.ScanStartDeviceStop
  }

  predicate KeepsLayout(s: Signal) {
    s != ToAll(D.GroupStartup)
  }

  /** The signal delivered to devices k, k + 1, ... in order. */
  function Deliver(setting: GroupSetting, gi: nat, c: Scope, k: nat, s: Signal): (r: Scope)
    requires Sized(setting, c.g) && ValidGroupSetting(setting) && k <= |c.g.devices|
    requires Harmless(s) || (LaidOut(setting, c.g) && KeepsLayout(s))
    ensures Sized(setting, r.g)
    ensures LaidOut(setting, c.g) && KeepsLayout(s) ==> LaidOut(setting, r.g)
    ensures OnlyDevices(c.g, r.g)
    decreases |c.g.devices| - k
  {
    if k == |c.g.devices| then c
    else Deliver(setting, gi, DeviceEvent(setting, gi, c, k, EventFor(s, c.g.devices[k])), k + 1, s)
  }

  // ---------------------------------------------------------------- the group actions

  /** Entry action of MASTER_LISTEN. */
  function EnterListen(setting: GroupSetting, gi: nat, c: Scope): (r: Scope)
    requires Sized(setting, c.g) && ValidGroupSetting(setting)
    ensures Sized(setting, r.g) && OnlyDevices(c.g, r.g)
    ensures LaidOut(setting, c.g) ==> LaidOut(setting, r.g)
  {
    var c1 := Scope(c.sh.(arbTimer := Stopped), c.g);
    var c2 := Deliver(setting, gi, c1, 0, ToAll(D.GroupStandby));
    Scope(SetMasterState(c2.sh, Standby), c2.g)
  }

  /** clm_iefb_group_init */
  function InitGroupData(setting: GroupSetting, gi: nat, c: Scope): (r: Scope)
    requires Sized(setting, c.g) && ValidGroupSetting(setting)
    ensures Sized(setting, r.g) && r.g.state == c.g.state
  {
    var g := c.g.(responseTimer := Stopped, scanTimer := Stopped, total := 0, seqNo := 0, scanStart := 0, word := 0,
                  devices := seq(|c.g.devices|, i requires 0 <= i < |c.g.devices| => c.g.devices[i].(state := D.MasterDown)));
    Deliver(setting, gi, Scope(c.sh, g), 0, ToAll(D.GroupStartup))
  }

  /** Station numbers and timeout counts of all devices, from the configuration. */
  function ReflectedDevices(setting: GroupSetting, devices: seq<D.Device>): (r: seq<D.Device>)
    requires ValidGroupSetting(setting) && |devices| == |setting.devices|
    ensures |r| == |devices|
    ensures forall i :: 0 <= i < |r| ==> r[i].station == 1 + Start(setting.devices, i)
  {
    seq(|devices|, i requires 0 <= i < |devices| =>
      StationInRange(setting, i); devices[i].(timeoutCount := 0, station := 1 + Start(setting.devices, i)))
  }

  /** clm_iefb_reflect_group_parameters */
  function Reflected(cfg: MasterConfig, setting: GroupSetting, gi: nat, parameterNo: u16, g: Group): (r: Group)
    requires Sized(setting, g) && ValidGroupSetting(setting)
    ensures LaidOut(setting, r) && r.state == g.state
  {
    var blank := BlankRequest(cfg, setting, (gi + 1) % 0x100, parameterNo, Total(setting.devices));
    var all := seq(|setting.devices|, i => true);
    g.(total := Total(setting.devices), seqNo := 0, word := 0, devices := ReflectedDevices(setting, g.devices),
       frame := blank.(ids := SlaveIds(setting.devices, all)))
  }

  /** clm_iefb_group_new_config */
  function TakeConfig(cfg: MasterConfig, setting: GroupSetting, gi: nat, c: Scope, t: Clock): (r: Scope)
    requires Sized(setting, c.g) && ValidGroupSetting(setting)
    ensures LaidOut(setting, r.g) && r.g.state == c.g.state
  {
    Scope(if c.sh.arbTimer.Running? then c.sh
          else c.sh.(arbTimer := TimerState.Running(cfg.arbitrationTime * 1000, t.now)),
          Reflected(cfg, setting, gi, c.sh.parameterNo, c.g))
  }

  /** clm_iefb_on_linkscan_start */
  function BeginScan(setting: GroupSetting, gi: nat, c: Scope, t: Clock): (r: Scope)
    requires LaidOut(setting, c.g) && ValidGroupSetting(setting)
    ensures LaidOut(setting, r.g) && r.g.state == c.g.state
  {
    var c1 := Deliver(setting, gi, c, 0, ScanSignal);
    var frame := c1.g.frame.(seqNo := c1.g.seqNo, clock := t.unixMs, unitInfo := c1.sh.unitInfo, word := c1.g.word);
    var period := setting.timeout * 1000;
    Scope(Note(c1.sh, Sent(gi, frame, EncodeRequest(frame))),
          c1.g.(scanStart := t.now, frame := frame, responseTimer := TimerState.Running(period, t.now),
                scanTimer := if setting.constantScan then TimerState.Running(period, t.now) else c1.g.scanTimer))
  }

  /** The common part of clm_iefb_on_linkscan_timeout and clm_iefb_on_linkscan_complete, and
      the entry action of LINK_SCAN_COMP behind them. */
  function FinishScan(setting: GroupSetting, gi: nat, c: Scope, e: D.DeviceEvent, success: bool): (r: Scope)
    requires LaidOut(setting, c.g) && ValidGroupSetting(setting)
    requires e == D.GroupTimeout || e == D.GroupAllResponded
    ensures LaidOut(setting, r.g) && r.g.state == c.g.state
  {
    var c1 := Deliver(setting, gi, c, 0, ToAll(e));
    Scope(SetMasterState(Note(c1.sh, LinkScanCb(gi, success)), MasterState.Running), c1.g.(seqNo := NextSeqNo(c1.g.seqNo)))
  }

  predicate Configured(s: GroupState) {
    s == MasterArbitration || s == LinkScanComp || s == LinkScan
  }

  function At(c: Scope, s: GroupState): Scope {
    Scope(c.sh, c.g.(state := s))
  }

  function FallToListen(setting: GroupSetting, gi: nat, c: Scope): (r: Scope)
    requires Sized(setting, c.g) && ValidGroupSetting(setting)
    ensures Sized(setting, r.g) && r.g.state == MasterListen
    ensures LaidOut(setting, c.g) ==> LaidOut(setting, r.g)
  {
    EnterListen(setting, gi, At(c, MasterListen))
  }

  /** LINKSCAN_COMPLETE while scanning: with constant link scan time the group waits for the
      second timer, otherwise the next scan starts at once. */
  function CompleteScan(setting: GroupSetting, gi: nat, c: Scope, t: Clock): (r: Scope)
    requires LaidOut(setting, c.g) && ValidGroupSetting(setting)
    ensures LaidOut(setting, r.g) && r.g.state == if setting.constantScan then LinkScanComp else LinkScan
  {
    var c1 := At(Scope(c.sh, c.g.(responseTimer := Stopped)), LinkScanComp);
    var c2 := FinishScan(setting, gi, c1, D.GroupAllResponded, true);
    if setting.constantScan then c2 else BeginScan(setting, gi, At(c2, LinkScan), t)
  }

  /** LINKSCAN_TIMEOUT while scanning. */
  function TimeOutScan(setting: GroupSetting, gi: nat, c: Scope, t: Clock): (r: Scope)
    requires LaidOut(setting, c.g) && ValidGroupSetting(setting)
    ensures LaidOut(setting, r.g) && r.g.state == LinkScan
  {
    var c2 := FinishScan(setting, gi, At(c, LinkScanComp), D.GroupTimeout, false);
    BeginScan(setting, gi, At(c2, LinkScan), t)
  }

  /** One group event and everything it sets off, run to completion. */
  function GroupEventStep(cfg: MasterConfig, setting: GroupSetting, gi: nat, c: Scope, t: Clock, e: GroupEvent): (r: Scope)
    requires Sized(setting, c.g) && ValidGroupSetting(setting)
    requires Configured(c.g.state) ==> LaidOut(setting, c.g)
    ensures Sized(setting, r.g)
    ensures Configured(r.g.state) ==> LaidOut(setting, r.g)
    ensures LaidOut(setting, c.g) && e != Startup ==> LaidOut(setting, r.g)
  {
    match c.g.state
    case MasterDown =>
      if e == Startup then EnterListen(setting, gi, InitGroupData(setting, gi, At(c, MasterListen))) else c
    case MasterListen =>
      if e == NewConfig then
        var c1 := TakeConfig(cfg, setting, gi, At(c, MasterArbitration), t);
        Scope(SetMasterState(c1.sh, Arbitration), c1.g)
      else c
    case MasterArbitration =>
      if e == ArbitrationDone then
        BeginScan(setting, gi, At(Scope(SetMasterState(c.sh, MasterState.Running), c.g), LinkScan), t)
      else if e == RequestFromOther then
        FallToListen(setting, gi, Scope(Note(c.sh, ErrorReport(ArbitrationLost, c.sh.conflictIp)), c.g))
      else if e == ParameterChange then FallToListen(setting, gi, c)
      else c
    case LinkScanComp =>
      if e == LinkScanStart then BeginScan(setting, gi, At(c, LinkScan), t)
      else if e == DuplicationAlarm || e == ParameterChange then FallToListen(setting, gi, c)
      else c
    case LinkScan =>
      if e == LinkScanComplete then CompleteScan(setting, gi, c, t)
      else if e == LinkScanTimeout then TimeOutScan(setting, gi, c, t)
      else if e == DuplicationAlarm || e == ParameterChange then FallToListen(setting, gi, c)
      else c
  }

  // ---------------------------------------------------------------- the table

  type GroupRow = Row<GroupState, GroupEvent, GroupAction>

  /** The rows of the table that leave one state. */
  function RowsFrom(s: GroupState): seq<GroupRow> {
    match s
    case MasterDown => [
      Row(MasterDown, Startup, MasterListen, InitGroup)]
    case MasterListen => [
      Row(MasterListen, NewConfig, MasterArbitration, ReflectNewConfig),
      Row(MasterListen, ParameterChange, MasterListen, NoAction)]
    case MasterArbitration => [
      Row(MasterArbitration, ParameterChange, MasterListen, NoAction),
      Row(MasterArbitration, ArbitrationDone, LinkScanComp, StartFirstScan),
      Row(MasterArbitration, RequestFromOther, MasterListen, ArbitrationFailed)]
    case LinkScanComp => [
      Row(LinkScanComp, ParameterChange, MasterListen, NoAction),
      Row(LinkScanComp, LinkScanStart, LinkScan, StartScan),
      Row(LinkScanComp, RequestFromOther, LinkScanComp, NoAction),
      Row(LinkScanComp, DuplicationAlarm, MasterListen, NoAction)]
    case LinkScan => [
      Row(LinkScan, ParameterChange, MasterListen, NoAction),
      Row(LinkScan, LinkScanComplete, LinkScanComp, ScanCompleted),
      Row(LinkScan, LinkScanTimeout, LinkScanComp, ScanTimedOut),
      Row(LinkScan, RequestFromOther, LinkScan, NoAction),
      Row(LinkScan, DuplicationAlarm, MasterListen, NoAction)]
  }

  function GroupTransitions(): seq<GroupRow> {
    RowsFrom(MasterDown) + RowsFrom(MasterListen) + RowsFrom(MasterArbitration)
    + RowsFrom(LinkScanComp) + RowsFrom(LinkScan)
  }

  /** What the matrix holds, state by state. */
  function GroupCell(s: GroupState, e: GroupEvent): (GroupState, GroupAction) {
    match s
    case MasterDown => if e == Startup then (MasterListen, InitGroup) else (s, NoAction)
    case MasterListen => if e == NewConfig then (MasterArbitration, ReflectNewConfig) else (s, NoAction)
    case MasterArbitration => (
      match e
      case ParameterChange => (MasterListen, NoAction)
      case ArbitrationDone => (LinkScanComp, StartFirstScan)
      case RequestFromOther => (MasterListen, ArbitrationFailed)
      case _ => (s, NoAction))
    case LinkScanComp => (
      match e
      case ParameterChange => (MasterListen, NoAction)
      case LinkScanStart => (LinkScan, StartScan)
      case DuplicationAlarm => (MasterListen, NoAction)
      case _ => (s, NoAction))
    case LinkScan => (
      match e
      case ParameterChange => (MasterListen, NoAction)
      case LinkScanComplete => (LinkScanComp, ScanCompleted)
      case LinkScanTimeout => (LinkScanComp, ScanTimedOut)
      case DuplicationAlarm => (MasterListen, NoAction)
      case _ => (s, NoAction))
  }

  predicate IsCell(s: GroupState, r: GroupRow) {
    r.state == s && (r.next, r.action) == GroupCell(s, r.event)
  }

  lemma RowsAgree(s: GroupState)
    ensures forall k :: 0 <= k < |RowsFrom(s)| ==> IsCell(s, RowsFrom(s)[k])
  {
  }

  lemma CellsAreRows(s: GroupState, e: GroupEvent)
    ensures GroupCell(s, e) != (s, NoAction) ==> Row(s, e, GroupCell(s, e).0, GroupCell(s, e).1) in RowsFrom(s)
  {
  }

  lemma RowsOfOneState(r: GroupRow, s: GroupState)
    requires r in RowsFrom(s)
    ensures IsCell(s, r)
  {
    RowsAgree(s);
    var k :| 0 <= k < |RowsFrom(s)| && RowsFrom(s)[k] == r;
  }

  lemma TableRows(r: GroupRow)
    ensures r in GroupTransitions() <==> r in RowsFrom(r.state)
  {
    forall s | r in RowsFrom(s) ensures s == r.state {
      RowsOfOneState(r, s);
    }
  }

  /** The matrix built from the table holds exactly these cells. */
  lemma GroupMatrixIsCells(s: GroupState, e: GroupEvent)
    ensures Lookup(GroupTransitions(), s, e, NoAction) == Cell(GroupCell(s, e).0, GroupCell(s, e).1)
  {
    var c := Lookup(GroupTransitions(), s, e, NoAction);
    var r, key := Row(s, e, c.next, c.action), Row(s, e, GroupCell(s, e).0, GroupCell(s, e).1);
    LookupCases(GroupTransitions(), s, e, NoAction);
    TableRows(r);
    TableRows(key);
    CellsAreRows(s, e);
    if r in RowsFrom(s) {
      RowsOfOneState(r, s);
    }
  }
}
