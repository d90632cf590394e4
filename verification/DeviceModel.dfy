/** What the master keeps for one slave device, and what each event does to it: the
    device state machine of src/master/clm_iefb.c, run to completion. */
module DeviceModel {
  import opened Words
  import opened Config
  import opened Fsm
  import opened Statistics

  datatype DeviceState = MasterDown | Listen | WaitTd | CyclicSuspend | CyclicSent | CyclicSending {
    function Ord(): nat {
      match this
      case MasterDown => 0
      case Listen => 1
      case WaitTd => 2
      case CyclicSuspend => 3
      case CyclicSent => 4
      case CyclicSending => 5
    }
  }

  const DEVICE_STATES := [MasterDown, Listen, WaitTd, CyclicSuspend, CyclicSent, CyclicSending]

  datatype DeviceEvent =
    | NoEvent | GroupStartup | GroupStandby | GroupTimeout | GroupAllResponded | ReceiveOk | ReceiveError
    | ScanStartDeviceStart | ScanStartDeviceStop | TimeoutCounterFull | TimeoutCounterNotFull | SlaveDuplication
  {
    function Ord(): nat {
      match this
      case NoEvent => 0
      case GroupStartup => 1
      case GroupStandby => 2
      case GroupTimeout => 3
      case GroupAllResponded => 4
      case ReceiveOk => 5
      case ReceiveError => 6
      case ScanStartDeviceStart => 7
      case ScanStartDeviceStop => 8
      case TimeoutCounterFull => 9
      case TimeoutCounterNotFull => 10
      case SlaveDuplication => 11
    }
  }

  const DEVICE_EVENTS := [
    NoEvent, GroupStartup, GroupStandby, GroupTimeout, GroupAllResponded, ReceiveOk, ReceiveError,
    ScanStartDeviceStart, ScanStartDeviceStop, TimeoutCounterFull, TimeoutCounterNotFull, SlaveDuplication]

  datatype DeviceAction = NoAction | InitDevice | SetDataIp | EvaluateTimeoutCounter | ResetTimeoutCount

  /** Header values of the latest response stored for a device. */
  datatype FrameValues = FrameValues(
    received: bool, responseTime: u32, stations: nat, protocolVer: u16, endCode: u16,
    vendorCode: u16, modelCode: u32, equipmentVer: u16, unitInfo: u16, mgmtInfo: u32, errCode: u16,
    slaveId: u32, groupNo: byte, seqNo: u16)

  const NO_FRAME := FrameValues(false, 0, 0, 0, 0, 0, 0, 0, 0, 0, 0, 0, 0, 0)

  datatype Counters = Counters(
    connects: u32, disconnects: u32, timeouts: u32, sent: u32,
    incoming: u32, alarms: u32, invalid: u32, time: TimeStatistics)

  const CLEARED_COUNTERS := Counters(0, 0, 0, 0, 0, 0, 0, CLEARED)

  datatype Device = Device(
    state: DeviceState, enabled: bool, bit: bool, forced: bool, timeoutCount: u16, station: u16,
    latest: FrameValues, counters: Counters)

  /** A device in zeroed memory. */
  const ZERO_DEVICE := Device(MasterDown, false, false, false, 0, 0, NO_FRAME,
                              Counters(0, 0, 0, 0, 0, 0, 0, TimeStatistics(0, 0, 0, 0, 0)))

  // ---------------------------------------------------------------- the actions, on the device alone

  /** clm_iefb_device_init */
  function Initialised(d: Device, setting: DeviceSetting): Device {
    d.(enabled := !setting.reserved, bit := false, counters := CLEARED_COUNTERS, latest := NO_FRAME,
       timeoutCount := 0, station := 0)
  }

  /** The device part of clm_iefb_set_data_ip: the transmission bit follows the new state,
      and its edges are counted. */
  function BitSet(d: Device, newState: DeviceState): Device {
    var on := newState == CyclicSending;
    var c := d.counters;
    var c1 := if on && !d.bit then c.(connects := Inc32(c.connects))
              else if !on && d.bit then c.(disconnects := Inc32(c.disconnects)) else c;
    var c2 := if d.enabled then c1.(sent := Inc32(c1.sent)) else c1;
    d.(bit := on, counters := c2)
  }

  // ---------------------------------------------------------------- one event, run to completion

  /** Where an event patches the request frame (action clm_iefb_set_data_ip). */
  predicate Patches(s: DeviceState, e: DeviceEvent) {
    || (s == Listen && (e == ScanStartDeviceStart || e == ScanStartDeviceStop))
    || (s == CyclicSent && e == ScanStartDeviceStart)
  }

  /** The device after an event and all events it triggers in turn. */
  function After(d: Device, setting: DeviceSetting, offCount: u16, e: DeviceEvent): Device {
    match d.state
    case MasterDown => (
      match e
      case GroupStartup => Initialised(d, setting).(state := Listen)
      case _ => d)
    case Listen => (
      match e
      case ScanStartDeviceStart => BitSet(d, WaitTd).(state := WaitTd)
      case ScanStartDeviceStop => BitSet(d, CyclicSuspend).(state := CyclicSuspend)
      case _ => d)
    case WaitTd => (
      match e
      case ReceiveOk => d.(state := CyclicSent)
      case GroupStandby => Disconnected(d)
      case ReceiveError => Disconnected(d)
      case GroupTimeout => Disconnected(d)
      case GroupAllResponded => Disconnected(d)
      case SlaveDuplication => Disconnected(d)
      case _ => d)
    case CyclicSuspend => (
      match e
      case GroupStandby => Disconnected(d)
      case GroupTimeout => Disconnected(d)
      case GroupAllResponded => Disconnected(d)
      case SlaveDuplication => Disconnected(d)
      case _ => d)
    case CyclicSent => (
      match e
      case GroupStandby => Disconnected(d)
      case SlaveDuplication => Disconnected(d)
      case ScanStartDeviceStart => BitSet(d, CyclicSending).(state := CyclicSending)
      case ScanStartDeviceStop => d.(state := CyclicSuspend)
      case _ => d)
    case CyclicSending => (
      match e
      case ReceiveOk => d.(state := CyclicSent, timeoutCount := 0)
      case GroupTimeout => Missed(d, offCount)
      case GroupStandby => Disconnected(d)
      case ReceiveError => Disconnected(d)
      case SlaveDuplication => Disconnected(d)
      case TimeoutCounterFull => Disconnected(d)
      case TimeoutCounterNotFull => d.(state := CyclicSent)
      case _ => d)
  }

  /** Back to LISTEN, whose entry action resets the timeout count. The transmission bit
      stays until the next scan start. */
  function Disconnected(d: Device): Device {
    d.(state := Listen, timeoutCount := 0)
  }

  /** One more missed scan: the device is dropped when the count reaches the limit. */
  function Missed(d: Device, offCount: u16): Device {
    var count := (d.timeoutCount + 1) % 0x1_0000;
    if count >= offCount then
      Disconnected(d.(counters := d.counters.(timeouts := Inc32(d.counters.timeouts))))
    else
      d.(state := CyclicSent, timeoutCount := count)
  }

  // ---------------------------------------------------------------- one turn of the event loop

  /** How far an event is from the end of the chain it starts. */
  function Rank(e: DeviceEvent): nat {
    if e == NoEvent then 0 else if e == TimeoutCounterFull || e == TimeoutCounterNotFull then 1 else 2
  }

  /** The device after a transition and its action, and the event the action asks for. */
  function Acted(d: Device, setting: DeviceSetting, offCount: u16, action: DeviceAction): (Device, DeviceEvent) {
    match action
    case NoAction => (d, NoEvent)
    case InitDevice => (Initialised(d, setting), NoEvent)
    case SetDataIp => (BitSet(d, d.state), NoEvent)
    case ResetTimeoutCount => (d.(timeoutCount := 0), NoEvent)
    case EvaluateTimeoutCounter =>
      var count := (d.timeoutCount + 1) % 0x1_0000;
      var d1 := d.(timeoutCount := count);
      if count >= offCount then (d1.(counters := d1.counters.(timeouts := Inc32(d1.counters.timeouts))), TimeoutCounterFull)
      else (d1, TimeoutCounterNotFull)
  }

  /** One turn of the loop in clm_iefb_device_fsm_event: new state, action, action on entry. */
  function Turn(d: Device, setting: DeviceSetting, offCount: u16, e: DeviceEvent): (Device, DeviceEvent) {
    var cell := DeviceCell(d.state, e);
    var (d1, next) := Acted(d.(state := cell.0), setting, offCount, cell.1);
    (if cell.0 != d.state && cell.0 == Listen then d1.(timeoutCount := 0) else d1, next)
  }

  /** A turn that asks for no further event is the whole of After. */
  lemma TurnIsAfter(d: Device, setting: DeviceSetting, offCount: u16, e: DeviceEvent)
    requires DeviceCell(d.state, e).1 != EvaluateTimeoutCounter
    ensures Turn(d, setting, offCount, e) == (After(d, setting, offCount, e), NoEvent)
  {
    hide Inc32;
  }

  /** Turn by turn the loop computes After, and each turn asks for an event of lower rank. */
  lemma TurnsMakeAfter(d: Device, setting: DeviceSetting, offCount: u16, e: DeviceEvent)
    ensures var (d1, next) := Turn(d, setting, offCount, e);
            && After(d, setting, offCount, e) == (if next == NoEvent then d1 else After(d1, setting, offCount, next))
            && (next != NoEvent ==> Rank(next) < Rank(e))
            && (Patches(d.state, e) <==> DeviceCell(d.state, e).1 == SetDataIp)
            && (next != NoEvent ==> !Patches(d1.state, next) && !Patches(d.state, e))
            && (e != GroupStartup ==> DeviceCell(d.state, e).1 != InitDevice && next != GroupStartup)
  {
    hide Inc32;
    if DeviceCell(d.state, e).1 != EvaluateTimeoutCounter {
      hide Turn, After;
      TurnIsAfter(d, setting, offCount, e);
    } else {
      CountingCell(d.state, e);
    }
  }

  lemma CountingCell(s: DeviceState, e: DeviceEvent)
    requires DeviceCell(s, e).1 == EvaluateTimeoutCounter
    ensures s == CyclicSending && e == GroupTimeout
  {
  }

  // ---------------------------------------------------------------- the table

  type DeviceRow = Row<DeviceState, DeviceEvent, DeviceAction>

  /** The rows of the table that leave one state. */
  function RowsFrom(s: DeviceState): seq<DeviceRow> {
    match s
    case MasterDown => [
      Row(MasterDown, GroupStartup, Listen, InitDevice)]
    case Listen => [
      Row(Listen, GroupStandby, Listen, NoAction),
      Row(Listen, ScanStartDeviceStart, WaitTd, SetDataIp),
      Row(Listen, ScanStartDeviceStop, CyclicSuspend, SetDataIp),
      Row(Listen, SlaveDuplication, Listen, NoAction)]
    case WaitTd => [
      Row(WaitTd, GroupStandby, Listen, NoAction),
      Row(WaitTd, ReceiveOk, CyclicSent, NoAction),
      Row(WaitTd, ReceiveError, Listen, NoAction),
      Row(WaitTd, GroupTimeout, Listen, NoAction),
      Row(WaitTd, GroupAllResponded, Listen, NoAction),
      Row(WaitTd, SlaveDuplication, Listen, NoAction)]
    case CyclicSuspend => [
      Row(CyclicSuspend, GroupStandby, Listen, NoAction),
      Row(CyclicSuspend, GroupTimeout, Listen, NoAction),
      Row(CyclicSuspend, GroupAllResponded, Listen, NoAction),
      Row(CyclicSuspend, SlaveDuplication, Listen, NoAction)]
    case CyclicSent => [
      Row(CyclicSent, GroupStandby, Listen, NoAction),
      Row(CyclicSent, ScanStartDeviceStart, CyclicSending, SetDataIp),
      Row(CyclicSent, ScanStartDeviceStop, CyclicSuspend, NoAction),
      Row(CyclicSent, SlaveDuplication, Listen, NoAction)]
    case CyclicSending => [
      Row(CyclicSending, GroupStandby, Listen, NoAction),
      Row(CyclicSending, ReceiveOk, CyclicSent, ResetTimeoutCount),
      Row(CyclicSending, ReceiveError, Listen, NoAction),
      Row(CyclicSending, GroupTimeout, CyclicSending, EvaluateTimeoutCounter),
      Row(CyclicSending, TimeoutCounterFull, Listen, NoAction),
      Row(CyclicSending, TimeoutCounterNotFull, CyclicSent, NoAction),
      Row(CyclicSending, SlaveDuplication, Listen, NoAction)]
  }

  function DeviceTransitions(): seq<DeviceRow> {
    RowsFrom(MasterDown) + RowsFrom(Listen) + RowsFrom(WaitTd)
    + RowsFrom(CyclicSuspend) + RowsFrom(CyclicSent) + RowsFrom(CyclicSending)
  }

  /** What the matrix holds, state by state. */
  function DeviceCell(s: DeviceState, e: DeviceEvent): (DeviceState, DeviceAction) {
    match s
    case MasterDown => (
      match e
      case GroupStartup => (Listen, InitDevice)
      case _ => (s, NoAction))
    case Listen => (
      match e
      case ScanStartDeviceStart => (WaitTd, SetDataIp)
      case ScanStartDeviceStop => (CyclicSuspend, SetDataIp)
      case _ => (s, NoAction))
    case WaitTd => (
      match e
      case ReceiveOk => (CyclicSent, NoAction)
      case GroupStandby => (Listen, NoAction)
      case ReceiveError => (Listen, NoAction)
      case GroupTimeout => (Listen, NoAction)
      case GroupAllResponded => (Listen, NoAction)
      case SlaveDuplication => (Listen, NoAction)
      case _ => (s, NoAction))
    case CyclicSuspend => (
      match e
      case GroupStandby => (Listen, NoAction)
      case GroupTimeout => (Listen, NoAction)
      case GroupAllResponded => (Listen, NoAction)
      case SlaveDuplication => (Listen, NoAction)
      case _ => (s, NoAction))
    case CyclicSent => (
      match e
      case GroupStandby => (Listen, NoAction)
      case SlaveDuplication => (Listen, NoAction)
      case ScanStartDeviceStart => (CyclicSending, SetDataIp)
      case ScanStartDeviceStop => (CyclicSuspend, NoAction)
      case _ => (s, NoAction))
    case CyclicSending => (
      match e
      case ReceiveOk => (CyclicSent, ResetTimeoutCount)
      case GroupTimeout => (CyclicSending, EvaluateTimeoutCounter)
      case GroupStandby => (Listen, NoAction)
      case ReceiveError => (Listen, NoAction)
      case SlaveDuplication => (Listen, NoAction)
      case TimeoutCounterFull => (Listen, NoAction)
      case TimeoutCounterNotFull => (CyclicSent, NoAction)
      case _ => (s, NoAction))
  }

  predicate IsCell(s: DeviceState, r: DeviceRow) {
    r.state == s && (r.next, r.action) == DeviceCell(s, r.event)
  }

  /** Every row of a state is a cell of that state, and every cell that is not the default is a row. */
  lemma RowsAgree(s: DeviceState)
    ensures forall k :: 0 <= k < |RowsFrom(s)| ==> IsCell(s, RowsFrom(s)[k])
  {
  }

  lemma CellsAreRows(s: DeviceState, e: DeviceEvent)
    ensures DeviceCell(s, e) != (s, NoAction) ==> Row(s, e, DeviceCell(s, e).0, DeviceCell(s, e).1) in RowsFrom(s)
  {
  }

  lemma RowsOfOneState(r: DeviceRow, s: DeviceState)
    requires r in RowsFrom(s)
    ensures IsCell(s, r)
  {
    RowsAgree(s);
    var k :| 0 <= k < |RowsFrom(s)| && RowsFrom(s)[k] == r;
  }

  lemma TableRows(r: DeviceRow)
    ensures r in DeviceTransitions() <==> r in RowsFrom(r.state)
  {
    forall s | r in RowsFrom(s) ensures s == r.state {
      RowsOfOneState(r, s);
    }
  }

  /** The matrix built from the table holds exactly these cells. */
  lemma DeviceMatrixIsCells(s: DeviceState, e: DeviceEvent)
    ensures Lookup(DeviceTransitions(), s, e, NoAction) == Cell(DeviceCell(s, e).0, DeviceCell(s, e).1)
  {
    var c := Lookup(DeviceTransitions(), s, e, NoAction);
    var r, key := Row(s, e, c.next, c.action), Row(s, e, DeviceCell(s, e).0, DeviceCell(s, e).1);
    LookupCases(DeviceTransitions(), s, e, NoAction);
    TableRows(r);
    TableRows(key);
    CellsAreRows(s, e);
    if r in RowsFrom(s) {
      RowsOfOneState(r, s);
    }
  }
}
