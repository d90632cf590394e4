/** The master as the source has it: mutable groups, timers, frames and memory areas, and
    table-driven event loops. Every method is proved equal to the functions of the models. */
module MasterEngine {
  import opened Words
  import opened Buffers
  import opened Config
  import opened Layout
  import opened Timer
  import opened Statistics
  import opened Frames
  import opened Responses
  import opened RequestFrame
  import opened Fsm
  import opened GroupModel
  import opened GroupTurns
  import opened MasterModel
  import opened Scans
  import opened Image
  import R = GroupRuns
  import D = DeviceModel

  type DeviceMatrix = TransitionMatrix<D.DeviceState, D.DeviceEvent, D.DeviceAction>
  type GroupMatrix = TransitionMatrix<GroupState, GroupEvent, GroupAction>

  /** clm_group_data_t; the timers, the frame and the areas are parts of it. */
  class GroupData {
    const index: nat
    var state: GroupState
    var total: u16
    var seqNo: u16
    var word: u16
    var scanStart: u32
    const responseTimer: Timer
    const scanTimer: Timer
    const devices: array<D.Device>
    const frame: RequestFrame
    const rx: array<byte>
    const ry: array<byte>
    const rwr: array<byte>
    const rww: array<byte>

    constructor (index: nat, setting: GroupSetting)
      ensures Blank(index, setting) && fresh(Parts())
    {
      this.index := index;
      state, total, seqNo, word, scanStart := MasterDown, 0, 0, 0, 0;
      responseTimer := new Timer();
      scanTimer := new Timer();
      devices := new D.Device[|setting.devices|](i => D.ZERO_DEVICE);
      frame := new RequestFrame();
      rx := new byte[BITS](i => 0);
      ry := new byte[BITS](i => 0);
      rwr := new byte[WORDS](i => 0);
      rww := new byte[WORDS](i => 0);
      new;
      assert devices[..] == seq(|setting.devices|, i => D.ZERO_DEVICE);
      assert rx[..] == Zeros(BITS) && ry[..] == Zeros(BITS) && rwr[..] == Zeros(WORDS) && rww[..] == Zeros(WORDS);
    }

    /** Everything that belongs to the group. */
    ghost function Parts(): set<object> {
      {this, responseTimer, scanTimer, devices, frame, frame.buffer, rx, ry, rwr, rww}
    }

    ghost function Value(): Group
      reads Parts()
    {
      Group(state, total, seqNo, word, scanStart, responseTimer.State(), scanTimer.State(), devices[..], frame.content,
            rx[..], ry[..], rwr[..], rww[..])
    }

    /** Zeroed memory. */
    ghost predicate Blank(index: nat, setting: GroupSetting)
      reads Parts()
    {
      this.index == index && Whole(setting) && Value() == ZeroGroup(setting)
    }

    /** The parts are distinct and have their sizes, and the frame is what it says it is. */
    ghost predicate Whole(setting: GroupSetting)
      reads Parts()
    {
      && responseTimer != scanTimer
      && frame.buffer != rx && frame.buffer != ry && frame.buffer != rwr && frame.buffer != rww
      && rx != ry && rx != rwr && rx != rww && ry != rwr && ry != rww && rwr != rww
      && Sized(setting, Value())
      && frame.buffer.Length == BUFFER_LEN
      && (frame.content.WellFormed() ==> frame.Valid())
    }
  }

  /** No two groups share a part. */
  ghost predicate Separate(groups: seq<GroupData>) {
    forall h, k :: 0 <= h < k < |groups| ==> groups[h].Parts() !! groups[k].Parts()
  }

  lemma BlankIndex(g: GroupData, index: nat, setting: GroupSetting)
    requires g.Blank(index, setting)
    ensures g.index == index
  {
  }

  method NewGroups(config: MasterConfig) returns (all: seq<GroupData>)
    ensures |all| == |config.groups|
    ensures forall gi :: 0 <= gi < |all| ==> all[gi].Blank(gi, config.groups[gi]) && fresh(all[gi].Parts())
    ensures Separate(all)
  {
    hide GroupData.Blank;
    all := [];
    for gi := 0 to |config.groups|
      invariant |all| == gi
      invariant forall h :: 0 <= h < gi ==> all[h].Blank(h, config.groups[h]) && fresh(all[h].Parts())
      invariant Separate(all)
    {
      var g := new GroupData(gi, config.groups[gi]);
      all := all + [g];
    }
  }

  ghost predicate HoldsDeviceTable(m: DeviceMatrix)
    reads m.cells
  {
    m.states == D.DEVICE_STATES && m.events == D.DEVICE_EVENTS && m.Holds(D.DeviceTransitions(), D.NoAction)
  }

  ghost predicate HoldsGroupTable(m: GroupMatrix)
    reads m.cells
  {
    m.states == GROUP_STATES && m.events == GROUP_EVENTS && m.Holds(GroupTransitions(), GroupAction.NoAction)
  }

  /** clm_iefb_device_fsm_tables_init */
  method NewDeviceMatrix() returns (m: DeviceMatrix)
    ensures HoldsDeviceTable(m) && fresh(m) && fresh(m.cells)
  {
    m := new TransitionMatrix(D.DEVICE_STATES, (s: D.DeviceState) => s.Ord(),
                              D.DEVICE_EVENTS, (e: D.DeviceEvent) => e.Ord(), D.DeviceTransitions(), D.NoAction);
  }

  /** clm_iefb_group_fsm_tables_init */
  method NewGroupMatrix() returns (m: GroupMatrix)
    ensures HoldsGroupTable(m) && fresh(m) && fresh(m.cells)
  {
    m := new TransitionMatrix(GROUP_STATES, (s: GroupState) => s.Ord(),
                              GROUP_EVENTS, (e: GroupEvent) => e.Ord(), GroupTransitions(), GroupAction.NoAction);
  }

  /** clm_t */
  class Clm {
    const config: MasterConfig
    const deviceMatrix: DeviceMatrix
    const groupMatrix: GroupMatrix
    const arbTimer: Timer
    var masterState: MasterState
    var parameterNo: u16
    var unitInfo: u16
    var conflictIp: u32
    const groups: seq<GroupData>
    ghost var trace: seq<Output>

    /** Zeroed memory and the two state machine tables. */
    constructor (config: MasterConfig, parameterNo: u16)
      requires GoodConfig(config)
      ensures this.config == config && |groups| == |config.groups| && Tables() && Apart()
      ensures forall gi :: 0 <= gi < |groups| ==> groups[gi].Blank(gi, config.groups[gi])
      ensures Sh() == Shared(Down, Stopped, parameterNo, UNIT_INFO_RUNNING, IPADDR_INVALID, [])
      ensures fresh(arbTimer) && fresh(AllParts())
    {
      hide GroupData.Blank, Separate, HoldsDeviceTable, HoldsGroupTable;
      this.config := config;
      this.parameterNo := parameterNo;
      masterState, unitInfo, conflictIp, trace := Down, UNIT_INFO_RUNNING, IPADDR_INVALID, [];
      var forDevices := NewDeviceMatrix();
      var forGroups := NewGroupMatrix();
      deviceMatrix, groupMatrix := forDevices, forGroups;
      arbTimer := new Timer();
      var all := NewGroups(config);
      groups := all;
      new;
      forall gi | 0 <= gi < |groups| ensures groups[gi].index == gi {
        BlankIndex(groups[gi], gi, config.groups[gi]);
      }
    }

    /** The groups are separate objects. */
    ghost predicate Apart() {
      && (forall gi :: 0 <= gi < |groups| ==> groups[gi].index == gi)
      && Separate(groups)
      && (forall gi :: 0 <= gi < |groups| ==> arbTimer !in groups[gi].Parts() && this !in groups[gi].Parts())
    }

    ghost function Sh(): Shared
      reads this, arbTimer
    {
      Shared(masterState, arbTimer.State(), parameterNo, unitInfo, conflictIp, trace)
    }

    ghost function Now(g: GroupData): Scope
      reads this, arbTimer, g.Parts()
    {
      Scope(Sh(), g.Value())
    }

    ghost predicate Tables()
      reads deviceMatrix.cells, groupMatrix.cells
    {
      HoldsDeviceTable(deviceMatrix) && HoldsGroupTable(groupMatrix)
    }

    function Setting(g: GroupData): GroupSetting
      requires g.index < |config.groups|
    {
      config.groups[g.index]
    }

    /** A group of this master in one piece. */
    ghost predicate Fits(g: GroupData)
      reads this, arbTimer, g.Parts(), deviceMatrix.cells, groupMatrix.cells
    {
      && g.index < |config.groups| && ValidGroupSetting(Setting(g))
      && g.Whole(Setting(g)) && arbTimer != g.responseTimer && arbTimer != g.scanTimer
      && Tables()
    }

    // -------------------------------------------------------------- device actions

    /** clm_iefb_device_init */
    method DeviceInit(g: GroupData, i: nat) returns (next: D.DeviceEvent)
      requires Fits(g) && i < g.devices.Length
      modifies g.devices
      ensures g.devices[..] == old(g.devices[..])[i := D.Initialised(old(g.devices[i]), Setting(g).devices[i])]
      ensures next == D.NoEvent
    {
      var setting := config.groups[g.index].devices[i];
      var d := g.devices[i].(enabled := !setting.reserved, bit := false);
      d := d.(counters := D.CLEARED_COUNTERS);
      d := d.(latest := D.NO_FRAME);
      d := d.(timeoutCount := 0);
      d := d.(station := 0);
      g.devices[i] := d;
      return D.NoEvent;
    }

    /** clm_iefb_evaluate_timeoutcounter */
    method EvaluateTimeoutCounter(g: GroupData, i: nat) returns (next: D.DeviceEvent)
      requires Fits(g) && i < g.devices.Length
      modifies g.devices
      ensures var r := D.Acted(old(g.devices[i]), Setting(g).devices[i], Setting(g).offCount, D.EvaluateTimeoutCounter);
              g.devices[..] == old(g.devices[..])[i := r.0] && next == r.1
    {
      hide Tables, RequestFrame.Valid, GroupData.Whole, ValidGroupSetting;
      var d := g.devices[i];
      d := d.(timeoutCount := (d.timeoutCount + 1) % 0x1_0000);
      if d.timeoutCount >= config.groups[g.index].offCount {
        d := d.(counters := d.counters.(timeouts := Inc32(d.counters.timeouts)));
        next := D.TimeoutCounterFull;
      } else {
        next := D.TimeoutCounterNotFull;
      }
      g.devices[i] := d;
    }

    /** clm_iefb_reset_timeout_count */
    method ResetTimeoutCount(g: GroupData, i: nat) returns (next: D.DeviceEvent)
      requires i < g.devices.Length
      modifies g.devices
      ensures g.devices[..] == old(g.devices[..])[i := old(g.devices[i]).(timeoutCount := 0)] && next == D.NoEvent
    {
      g.devices[i] := g.devices[i].(timeoutCount := 0);
      return D.NoEvent;
    }

    /** The frame part of clm_iefb_set_data_ip. */
    method WriteDeviceToFrame(g: GroupData, i: nat, d: D.Device)
      requires Fits(g) && i < g.devices.Length && LaidOut(Setting(g), g.Value()) && d.station == g.devices[i].station
      modifies g`word, g.frame`content, g.frame.buffer
      ensures Fits(g)
      ensures var c := old(g.Value());
              var g1 := c.(devices := c.devices[i := d]);
              && LaidOut(Setting(g), g1)
              && g.Value() == PatchFrame(Setting(g), g1, i).(devices := c.devices)
    {
      hide Tables, Splice, WithBit, EncodeRequest, RequestFrame.Valid, WithData, SetTransmissionState;
      var group, setting := config.groups[g.index], config.groups[g.index].devices[i];
      StationInRange(group, i);
      var combined := d.bit || d.forced;
      g.word := SetTransmissionState(g.word, d.station, combined);
      g.frame.UpdateSlaveId(d.station, d.state != D.CyclicSuspend, setting.slaveId);
      g.frame.UpdateCyclicData(g.rww, g.ry, d.station, setting.stations, combined);
    }

    /** The device part of clm_iefb_set_data_ip: the bit, its edges and the frame count. */
    method SetTransmissionBit(device: D.Device, gi: nat, i: nat) returns (d: D.Device)
      modifies `trace
      ensures d == D.BitSet(device, device.state)
      ensures trace == old(trace) + if d.bit && !device.bit then [ConnectCb(gi, i)]
                                    else if !d.bit && device.bit then [DisconnectCb(gi, i)] else []
      ensures d.station == device.station
    {
      d := device;
      if d.state == D.CyclicSending {
        if !d.bit {
          d := d.(counters := d.counters.(connects := Inc32(d.counters.connects)));
          trace := trace + [ConnectCb(gi, i)];
        }
        d := d.(bit := true);
      } else {
        if d.bit {
          d := d.(counters := d.counters.(disconnects := Inc32(d.counters.disconnects)));
          trace := trace + [DisconnectCb(gi, i)];
        }
        d := d.(bit := false);
      }
      if d.enabled {
        d := d.(counters := d.counters.(sent := Inc32(d.counters.sent)));
      }
    }

    /** clm_iefb_set_data_ip: the device follows its new state, then its part of the frame is written. */
    method SetDataIp(g: GroupData, i: nat) returns (next: D.DeviceEvent)
      requires Fits(g) && i < g.devices.Length && LaidOut(Setting(g), g.Value())
      modifies `trace, g.devices, g`word, g.frame`content, g.frame.buffer
      ensures Fits(g) && next == D.NoEvent
      ensures var c := old(Now(g));
              var d := c.g.devices[i];
              var d' := D.BitSet(d, d.state);
              var g1 := c.g.(devices := c.g.devices[i := d']);
              && LaidOut(Setting(g), g1)
              && Now(g) == Scope(if d'.bit && !d.bit then Note(c.sh, ConnectCb(g.index, i))
                                 else if !d'.bit && d.bit then Note(c.sh, DisconnectCb(g.index, i)) else c.sh,
                                 PatchFrame(Setting(g), g1, i))
    {
      hide Tables, LaidOut, RequestFrame.Valid, PatchFrame, ValidGroupSetting, D.BitSet;
      var d := SetTransmissionBit(g.devices[i], g.index, i);
      WriteDeviceToFrame(g, i, d);
      g.devices[i] := d;
      return D.NoEvent;
    }

    // -------------------------------------------------------------- the device event loop

    /** The action a transition names. */
    method PerformDeviceAction(g: GroupData, i: nat, action: D.DeviceAction) returns (next: D.DeviceEvent)
      requires Fits(g) && i < g.devices.Length && (action == D.SetDataIp ==> LaidOut(Setting(g), g.Value()))
      modifies `trace, g.devices, g`word, g.frame`content, g.frame.buffer
      ensures Fits(g)
      ensures next == D.Acted(old(g.devices[i]), Setting(g).devices[i], Setting(g).offCount, action).1
      ensures ActsOn(Setting(g), g.index, old(Now(g)), i, action, Now(g))
    {
      hide Tables, LaidOut, RequestFrame.Valid, PatchFrame, ValidGroupSetting;
      match action
      case NoAction => next := D.NoEvent;
      case InitDevice => next := DeviceInit(g, i);
      case SetDataIp => next := SetDataIp(g, i);
      case EvaluateTimeoutCounter => next := EvaluateTimeoutCounter(g, i);
      case ResetTimeoutCount => next := ResetTimeoutCount(g, i);
    }

    /** The transition: the matrix gives the next state and the action. */
    method MoveDevice(g: GroupData, i: nat, e: D.DeviceEvent) returns (action: D.DeviceAction)
      requires Fits(g) && i < g.devices.Length
      requires D.Patches(g.devices[i].state, e) ==> LaidOut(Setting(g), g.Value())
      modifies g.devices
      ensures Fits(g)
      ensures var c := old(Now(g));
              var cell := D.DeviceCell(c.g.devices[i].state, e);
              && action == cell.1 && Now(g) == MovesOn(c, i, cell.0)
              && (action == D.SetDataIp ==> LaidOut(Setting(g), g.Value()))
    {
      hide LaidOut, RequestFrame.Valid, ValidGroupSetting, D.DeviceCell, HoldsDeviceTable, HoldsGroupTable, D.Turn, D.After;
      ghost var c := Now(g);
      var state := g.devices[i].state;
      DeviceEntry(deviceMatrix, state, e);
      var cell := deviceMatrix.cells[state.Ord(), e.Ord()];
      D.TurnsMakeAfter(g.devices[i], Setting(g).devices[i], Setting(g).offCount, e);
      CellFacts(state, e);
      g.devices[i] := g.devices[i].(state := cell.next);
      assert g.Value() == c.g.(devices := c.g.devices[i := c.g.devices[i].(state := cell.next)]);
      if cell.action == D.SetDataIp {
        StateKeepsLayout(Setting(g), c.g, i, cell.next);
      }
      return cell.action;
    }

    /** The action on entry to a state: entering LISTEN resets the timeout count. */
    method EnterDeviceState(g: GroupData, i: nat, previous: D.DeviceState)
      requires Fits(g) && i < g.devices.Length
      modifies g.devices
      ensures Fits(g)
      ensures Now(g) == EntersOn(old(Now(g)), i, previous)
    {
      hide RequestFrame.Valid, ValidGroupSetting, HoldsDeviceTable, HoldsGroupTable;
      ghost var c := Now(g);
      if g.devices[i].state != previous && OnEntry(g.devices[i].state) == D.ResetTimeoutCount {
        var ignored := ResetTimeoutCount(g, i);
        assert g.Value() == c.g.(devices := c.g.devices[i := c.g.devices[i].(timeoutCount := 0)]);
      }
    }

    /** One turn of the loop: transition, action, action on entry. */
    method TurnDevice(g: GroupData, i: nat, e: D.DeviceEvent) returns (next: D.DeviceEvent)
      requires Fits(g) && i < g.devices.Length
      requires D.Patches(g.devices[i].state, e) ==> LaidOut(Setting(g), g.Value())
      modifies `trace, g.devices, g`word, g.frame`content, g.frame.buffer
      ensures Fits(g)
      ensures Now(g) == DeviceTurn(Setting(g), g.index, old(Now(g)), i, e)
      ensures next == D.Turn(old(g.devices[i]), Setting(g).devices[i], Setting(g).offCount, e).1
    {
      hide LaidOut, RequestFrame.Valid, PatchFrame, ValidGroupSetting, D.Acted, D.DeviceCell, HoldsDeviceTable, HoldsGroupTable,
           D.After, DeviceTurn, ActsOn, EntersOn;
      ghost var c := Now(g);
      D.TurnsMakeAfter(g.devices[i], Setting(g).devices[i], Setting(g).offCount, e);
      var previous := g.devices[i].state;
      var action := MoveDevice(g, i, e);
      next := PerformDeviceAction(g, i, action);
      StepsMakeTurn(Setting(g), g.index, c, i, e, Now(g));
      EnterDeviceState(g, i, previous);
    }

    /** clm_iefb_device_fsm_event */
    method DeviceFsmEvent(g: GroupData, i: nat, e: D.DeviceEvent)
      requires Fits(g) && i < g.devices.Length
      requires D.Patches(g.devices[i].state, e) ==> LaidOut(Setting(g), g.Value())
      modifies `trace, g.devices, g`word, g.frame`content, g.frame.buffer
      ensures Fits(g)
      ensures Now(g) == DeviceEvent(Setting(g), g.index, old(Now(g)), i, e)
    {
      hide LaidOut, RequestFrame.Valid, ValidGroupSetting, D.Turn, DeviceTurn, DeviceEvent, Tables;
      ghost var final := DeviceEvent(Setting(g), g.index, Now(g), i, e);
      var event := e;
      while true
        invariant Fits(g) && i < g.devices.Length
        invariant D.Patches(g.devices[i].state, event) ==> LaidOut(Setting(g), g.Value())
        invariant DeviceEvent(Setting(g), g.index, Now(g), i, event) == final
        decreases D.Rank(event)
      {
        DeviceTurnsMakeEvent(Setting(g), g.index, Now(g), i, event);
        event := TurnDevice(g, i, event);
        if event == D.NoEvent {
          break;
        }
      }
    }

    /** clm_iefb_device_fsm_event_all_in_group */
    method DeviceFsmEventAll(g: GroupData, e: D.DeviceEvent)
      requires Fits(g) && Harmless(ToAll(e))
      modifies `trace, g.devices, g`word, g.frame`content, g.frame.buffer
      ensures Fits(g)
      ensures Now(g) == Deliver(Setting(g), g.index, old(Now(g)), 0, ToAll(e))
    {
      hide LaidOut, RequestFrame.Valid, ValidGroupSetting, DeviceEvent, Tables;
      ghost var final := Deliver(Setting(g), g.index, Now(g), 0, ToAll(e));
      for i := 0 to g.devices.Length
        invariant Fits(g)
        invariant Deliver(Setting(g), g.index, Now(g), i, ToAll(e)) == final
      {
        DeviceFsmEvent(g, i, e);
      }
    }

    // -------------------------------------------------------------- group actions

    /** clm_iefb_set_master_state */
    method ChangeMasterState(newState: MasterState)
      modifies `trace, `masterState
      ensures Sh() == SetMasterState(old(Sh()), newState)
    {
      if newState != masterState {
        trace := trace + [MasterStateCb(newState)];
        masterState := newState;
      }
    }

    /** The loop of clm_iefb_group_init. */
    method TakeDevicesDown(g: GroupData)
      modifies g.devices
      ensures |g.devices[..]| == |old(g.devices[..])|
      ensures forall j :: 0 <= j < g.devices.Length ==> g.devices[j] == old(g.devices[j]).(state := D.MasterDown)
    {
      ghost var devices := g.devices[..];
      for i := 0 to g.devices.Length
        modifies g.devices
        invariant forall j :: 0 <= j < g.devices.Length ==>
                    g.devices[j] == if j < i then devices[j].(state := D.MasterDown) else devices[j]
      {
        g.devices[i] := g.devices[i].(state := D.MasterDown);
      }
    }

    /** The part of clm_iefb_group_init before the devices are started. */
    method ClearGroup(g: GroupData)
      requires Fits(g)
      modifies g`total, g`seqNo, g`scanStart, g`word, g.responseTimer, g.scanTimer, g.devices
      ensures Fits(g)
      ensures Now(g) == Scope(old(Sh()), Cleared(old(g.Value())))
    {
      hide RequestFrame.Valid, ValidGroupSetting, Tables;
      g.responseTimer.Stop();
      g.scanTimer.Stop();
      g.total, g.seqNo, g.scanStart, g.word := 0, 0, 0, 0;
      TakeDevicesDown(g);
      assert g.Value().devices == Cleared(old(g.Value())).devices;
    }

    /** clm_iefb_group_init */
    method GroupInit(g: GroupData)
      requires Fits(g)
      modifies `trace, g`total, g`seqNo, g`scanStart, g`word, g.responseTimer, g.scanTimer, g.devices, g.frame`content, g.frame.buffer
      ensures Fits(g)
      ensures Now(g) == InitGroupData(Setting(g), g.index, old(Now(g)))
    {
      hide LaidOut, RequestFrame.Valid, ValidGroupSetting, Tables, Deliver;
      ClearGroup(g);
      DeviceFsmEventAll(g, D.GroupStartup);
    }

    /** The loop of clm_iefb_reflect_group_parameters. */
    method ReflectDevices(g: GroupData)
      requires Fits(g)
      modifies g.devices
      ensures Fits(g)
      ensures g.Value() == old(g.Value()).(devices := ReflectedDevices(Setting(g), old(g.devices[..])))
    {
      hide RequestFrame.Valid, HoldsDeviceTable, HoldsGroupTable;
      ghost var devices := g.devices[..];
      var setting := config.groups[g.index];
      for i := 0 to g.devices.Length
        modifies g.devices
        invariant forall j :: 0 <= j < g.devices.Length ==>
                    g.devices[j] == if j < i then devices[j].(timeoutCount := 0, station := (1 + Start(setting.devices, j)) % 0x1_0000)
                                    else devices[j]
      {
        var ok, station := CalcSlaveStationNo(setting.devices, i);
        g.devices[i] := g.devices[i].(timeoutCount := 0, station := station);
      }
      DevicesReflected(setting, devices, g.devices[..]);
    }

    /** clm_iefb_reflect_group_parameters */
    method ReflectGroupParameters(g: GroupData)
      requires Fits(g)
      modifies g`total, g`seqNo, g`word, g.devices, g.frame, g.frame.buffer
      ensures Fits(g)
      ensures g.Value() == Reflected(config, Setting(g), g.index, parameterNo, old(g.Value()))
    {
      hide RequestFrame.Valid, ValidGroupSetting, Tables, SlaveIds, ReflectedDevices, LaidOut;
      var setting := config.groups[g.index];
      TotalFits(setting);
      var total := CalcOccupiedPerGroup(setting.devices);
      g.total, g.seqNo, g.word := total, 0, 0;
      ReflectDevices(g);
      g.frame.Initialise(config, setting, (g.index + 1) % 0x100, g.total, parameterNo);
      g.frame.InitialiseSlaveIds(setting.devices);
    }

    /** clm_iefb_group_new_config */
    method GroupNewConfig(g: GroupData, t: Clock)
      requires Fits(g)
      modifies arbTimer, g`total, g`seqNo, g`word, g.devices, g.frame, g.frame.buffer
      ensures Fits(g)
      ensures Now(g) == TakeConfig(config, Setting(g), g.index, old(Now(g)), t)
    {
      hide RequestFrame.Valid, ValidGroupSetting, Tables, Reflected;
      ReflectGroupParameters(g);
      arbTimer.StartIfNotRunning(config.arbitrationTime * 1000, t.now);
    }

    /** clm_iefb_on_arbitration_failed */
    method OnArbitrationFailed()
      modifies `trace
      ensures Sh() == Note(old(Sh()), ErrorReport(ArbitrationLost, old(conflictIp)))
    {
      trace := trace + [ErrorReport(ArbitrationLost, conflictIp)];
    }

    /** The loop of clm_iefb_on_linkscan_start. */
    method StartDevices(g: GroupData)
      requires Fits(g) && LaidOut(Setting(g), g.Value())
      modifies `trace, g.devices, g`word, g.frame`content, g.frame.buffer
      ensures Fits(g)
      ensures Now(g) == Deliver(Setting(g), g.index, old(Now(g)), 0, ScanSignal)
    {
      hide LaidOut, RequestFrame.Valid, ValidGroupSetting, DeviceEvent, Tables;
      ghost var final := Deliver(Setting(g), g.index, Now(g), 0, ScanSignal);
      for i := 0 to g.devices.Length
        invariant Fits(g) && LaidOut(Setting(g), g.Value())
        invariant Deliver(Setting(g), g.index, Now(g), i, ScanSignal) == final
      {
        DeviceFsmEvent(g, i, if g.devices[i].enabled then D.ScanStartDeviceStart else D.ScanStartDeviceStop);
      }
    }

    /** clm_iefb_on_linkscan_start, with clm_iefb_send_cyclic_request_frame */
    method OnLinkscanStart(g: GroupData, t: Clock)
      requires Fits(g) && LaidOut(Setting(g), g.Value())
      modifies `trace, g`scanStart, g.responseTimer, g.scanTimer, g.devices, g`word, g.frame`content, g.frame.buffer
      ensures Fits(g)
      ensures Now(g) == BeginScan(Setting(g), g.index, old(Now(g)), t)
    {
      hide RequestFrame.Valid, ValidGroupSetting, Deliver, EncodeRequest, Tables;
      var setting := config.groups[g.index];
      StartDevices(g);
      g.scanStart := t.now;
      g.frame.UpdateHeaders(g.seqNo, t.unixMs, unitInfo, g.word);
      FrameBytes(g.frame);
      trace := trace + [Sent(g.index, g.frame.content, g.frame.buffer[..g.frame.payloadLen])];
      g.responseTimer.Start(setting.timeout * 1000, t.now);
      if setting.constantScan {
        g.scanTimer.Start(setting.timeout * 1000, t.now);
      }
    }

    /** clm_iefb_on_linkscan_timeout, and clm_iefb_on_linkscan_complete behind its timer. */
    method EndScan(g: GroupData, e: D.DeviceEvent, success: bool)
      requires Fits(g) && LaidOut(Setting(g), g.Value()) && (e == D.GroupTimeout || e == D.GroupAllResponded)
      modifies `trace, g`seqNo, g.devices, g`word, g.frame`content, g.frame.buffer
      ensures Fits(g)
      ensures Now(g) == ScanEnd(Setting(g), g.index, old(Now(g)), e, success)
    {
      hide LaidOut, RequestFrame.Valid, ValidGroupSetting, Deliver, Tables;
      DeviceFsmEventAll(g, e);
      trace := trace + [LinkScanCb(g.index, success)];
      g.seqNo := UpdateFrameSequenceNo(g.seqNo);
    }

    // -------------------------------------------------------------- the group event loop

    /** The action a transition names. */
    method PerformGroupAction(g: GroupData, t: Clock, a: GroupAction) returns (next: GroupEvent)
      requires Fits(g) && (NeedsFrame(a) ==> LaidOut(Setting(g), g.Value()))
      modifies `trace, arbTimer, g.Parts() - {g}, g`total, g`seqNo, g`word, g`scanStart
      ensures Fits(g)
      ensures var r := GroupActed(config, Setting(g), g.index, old(Now(g)), t, a); Now(g) == r.0 && next == r.1
    {
      hide LaidOut, RequestFrame.Valid, ValidGroupSetting, Deliver, BeginScan, Tables, Reflected, InitGroupData;
      next := NoEvent;
      match a
      case NoAction =>
      case InitGroup => GroupInit(g);
      case ReflectNewConfig => GroupNewConfig(g, t);
      case ArbitrationFailed => OnArbitrationFailed();
      case StartFirstScan => next := LinkScanStart;
      case StartScan => OnLinkscanStart(g, t);
      case ScanTimedOut =>
        EndScan(g, D.GroupTimeout, false);
        next := LinkScanStart;
      case ScanCompleted =>
        TimerOff(Setting(g), g.Value());
        g.responseTimer.Stop();
        EndScan(g, D.GroupAllResponded, true);
        if !config.groups[g.index].constantScan {
          next := LinkScanStart;
        }
    }

    /** clm_iefb_group_on_entry_listen */
    method OnEntryListen(g: GroupData)
      requires Fits(g)
      modifies `trace, `masterState, arbTimer, g.devices, g`word, g.frame`content, g.frame.buffer
      ensures Fits(g)
      ensures Now(g) == EnterListen(Setting(g), g.index, old(Now(g)))
    {
      hide LaidOut, RequestFrame.Valid, ValidGroupSetting, Deliver, Tables;
      arbTimer.Stop();
      DeviceFsmEventAll(g, D.GroupStandby);
      ChangeMasterState(Standby);
    }

    /** group_state_actions */
    method PerformGroupEntry(g: GroupData, s: GroupState)
      requires Fits(g)
      modifies `trace, `masterState, arbTimer, g.devices, g`word, g.frame`content, g.frame.buffer
      ensures Fits(g)
      ensures Now(g) == GroupEntered(Setting(g), g.index, old(Now(g)), s)
    {
      hide LaidOut, RequestFrame.Valid, ValidGroupSetting, EnterListen, Tables;
      match s
      case MasterListen => OnEntryListen(g);
      case MasterArbitration => ChangeMasterState(Arbitration);
      case LinkScanComp => ChangeMasterState(MasterState.Running);
      case MasterDown =>
      case LinkScan =>
    }

    /** One turn of the loop. */
    method TurnGroup(g: GroupData, t: Clock, e: GroupEvent) returns (next: GroupEvent)
      requires Fits(g) && Legal(Setting(g), Now(g), e)
      modifies `trace, `masterState, arbTimer, g.Parts()
      ensures Fits(g)
      ensures var r := GroupTurn(config, Setting(g), g.index, old(Now(g)), t, e); Now(g) == r.0 && next == r.1
    {
      hide LaidOut, RequestFrame.Valid, ValidGroupSetting, GroupActed, GroupEntered, HoldsDeviceTable, HoldsGroupTable;
      var previous := g.state;
      GroupEntry(groupMatrix, previous, e);
      var cell := groupMatrix.cells[previous.Ord(), e.Ord()];
      FrameCells(previous, e);
      MovedShape(Setting(g), Now(g), cell.next);
      g.state := cell.next;
      next := PerformGroupAction(g, t, cell.action);
      if g.state != previous {
        PerformGroupEntry(g, g.state);
      }
    }

    /** clm_iefb_group_fsm_event */
    method GroupFsmEvent(g: GroupData, t: Clock, e: GroupEvent)
      requires Fits(g) && Legal(Setting(g), Now(g), e)
      modifies `trace, `masterState, arbTimer, g.Parts()
      ensures Fits(g)
      ensures Now(g) == GroupEventStep(config, Setting(g), g.index, old(Now(g)), t, e)
    {
      hide LaidOut, RequestFrame.Valid, ValidGroupSetting, GroupTurn, GroupEventStep, Tables;
      ghost var final := GroupEventStep(config, Setting(g), g.index, Now(g), t, e);
      var event := e;
      while true
        invariant Fits(g) && Legal(Setting(g), Now(g), event)
        invariant GroupEventStep(config, Setting(g), g.index, Now(g), t, event) == final
        decreases GroupTurns.Rank(event)
      {
        GroupTurnsMakeEvent(config, Setting(g), g.index, Now(g), t, event);
        event := TurnGroup(g, t, event);
        if event == NoEvent {
          break;
        }
      }
    }

    // -------------------------------------------------------------- all groups

    ghost function AllParts(): set<object> {
      set gi, o | 0 <= gi < |groups| && o in groups[gi].Parts() :: o
    }

    /** The whole master as a value. */
    ghost function M(): Master
      reads this, arbTimer, AllParts()
    {
      Master(Sh(), seq(|groups|, gi requires 0 <= gi < |groups| reads AllParts() => groups[gi].Value()))
    }

    ghost predicate Ok()
      reads this, arbTimer, AllParts(), deviceMatrix.cells, groupMatrix.cells
    {
      && Apart() && GoodConfig(config) && |groups| == |config.groups|
      && (forall gi :: 0 <= gi < |groups| ==> Fits(groups[gi]))
    }

    lemma ReadyIsLegal(gi: nat, e: GroupEvent)
      requires Ok() && Ready(config, M()) && gi < |groups|
      ensures Legal(Setting(groups[gi]), Now(groups[gi]), e)
    {
      hide LaidOut;
      assert M().groups[gi] == groups[gi].Value();
      LaidOutShape(Setting(groups[gi]), groups[gi].Value());
    }

    /** A group whose parts are untouched is as it was. */
    twostate lemma StaysAsItWas(h: nat)
      requires h < |groups| && old(Fits(groups[h])) && Tables() && unchanged(groups[h].Parts())
      ensures Fits(groups[h]) && groups[h].Value() == old(groups[h].Value())
    {
    }

    /** After a change to one group only. */
    twostate lemma OthersStay(gi: nat)
      requires gi < |groups| && old(Ok()) && Fits(groups[gi])
      requires forall h :: 0 <= h < |groups| && h != gi ==> unchanged(groups[h].Parts())
      ensures Ok()
      ensures M() == Master(Sh(), old(M()).groups[gi := groups[gi].Value()])
    {
      hide GroupData.Value, GroupData.Whole, ValidGroupSetting, HoldsDeviceTable, HoldsGroupTable;
      forall h | 0 <= h < |groups| ensures Fits(groups[h]) && (h != gi ==> groups[h].Value() == old(groups[h].Value())) {
        if h != gi {
          StaysAsItWas(h);
        }
      }
    }

    lemma PartsApart(gi: nat, h: nat)
      requires Apart() && gi < |groups| && h < |groups| && gi != h
      ensures groups[gi].Parts() !! groups[h].Parts()
      ensures arbTimer !in groups[h].Parts() && this !in groups[h].Parts()
    {
      hide GroupData.Parts;
      assert groups[if h < gi then h else gi].Parts() !! groups[if h < gi then gi else h].Parts();
    }

    /** clm_iefb_group_fsm_event for the group with index gi. */
    method RunGroupEvent(gi: nat, t: Clock, e: GroupEvent)
      requires Ok() && gi < |groups| && Legal(Setting(groups[gi]), Now(groups[gi]), e)
      modifies `trace, `masterState, arbTimer, groups[gi].Parts()
      ensures Ok() && |old(M()).groups| == |groups|
      ensures Legal(Setting(groups[gi]), ScopeOf(old(M()), gi), e)
      ensures M() == WithScope(old(M()), gi, GroupEventStep(config, config.groups[gi], gi, ScopeOf(old(M()), gi), t, e))
    {
      hide LaidOut, GroupEventStep, GroupData.Value, GroupData.Whole, ValidGroupSetting, Tables, Sized;
      forall h | 0 <= h < |groups| && h != gi ensures groups[gi].Parts() !! groups[h].Parts()
        && arbTimer !in groups[h].Parts() && this !in groups[h].Parts() {
        PartsApart(gi, h);
      }
      GroupFsmEvent(groups[gi], t, e);
      OthersStay(gi);
    }

    /** The same once the master is running. */
    method OneGroupEvent(gi: nat, t: Clock, e: GroupEvent)
      requires Ok() && Ready(config, M()) && gi < |groups| && e != Startup
      modifies `trace, `masterState, arbTimer, groups[gi].Parts()
      ensures Ok() && M() == OneGroup(config, old(M()), gi, t, e)
    {
      hide LaidOut, GroupEventStep, Ok, M;
      ReadyIsLegal(gi, e);
      Counted();
      RunGroupEvent(gi, t, e);
    }

    /** clm_iefb_group_fsm_event_all */
    method GroupFsmEventAll(t: Clock, e: GroupEvent)
      requires Ok() && Ready(config, M()) && e != Startup
      modifies `trace, `masterState, arbTimer, AllParts()
      ensures Ok() && M() == AllGroups(config, old(M()), 0, t, e)
    {
      hide LaidOut, Ready, OneGroup, Ok, M, AllParts, GroupData.Parts;
      Counted();
      ghost var final := AllGroups(config, M(), 0, t, e);
      for gi := 0 to |groups|
        invariant Ok() && Ready(config, M()) && |M().groups| == |groups|
        invariant AllGroups(config, M(), gi, t, e) == final
      {
        InAllParts(gi);
        OneGroupEvent(gi, t, e);
        Counted();
      }
    }

    lemma Counted()
      ensures |M().groups| == |groups|
    {
    }

    lemma InAllParts(gi: nat)
      requires gi < |groups|
      ensures groups[gi].Parts() <= AllParts()
    {
    }

    /** The value of one group, and its timers. */
    lemma GroupOf(gi: nat)
      requires Ok() && gi < |groups|
      ensures |M().groups| == |groups| && M().groups[gi] == groups[gi].Value()
      ensures groups[gi].Value().responseTimer == groups[gi].responseTimer.State()
      ensures groups[gi].Value().scanTimer == groups[gi].scanTimer.State()
      ensures groups[gi].index == gi && groups[gi].devices[..] == groups[gi].Value().devices
    {
    }

    /** cl_timer_stop on a timer of the group. */
    method StopTimer(gi: nat, response: bool)
      requires Ok() && Ready(config, M()) && gi < |groups|
      modifies groups[gi].responseTimer, groups[gi].scanTimer
      ensures Ok()
      ensures var g := old(M()).groups[gi];
              M() == old(M()).(groups := old(M()).groups[gi := if response then g.(responseTimer := Stopped)
                                                               else g.(scanTimer := Stopped)])
    {
      hide LaidOut, Ready, ValidGroupSetting, Tables;
      forall h | 0 <= h < |groups| && h != gi ensures groups[gi].Parts() !! groups[h].Parts() {
        PartsApart(gi, h);
      }
      if response {
        groups[gi].responseTimer.Stop();
      } else {
        groups[gi].scanTimer.Stop();
      }
      OthersStay(gi);
    }

    /** cl_timer_is_expired on a timer of the group; nothing changes. */
    method IsDue(gi: nat, response: bool, t: Clock) returns (due: bool)
      requires Ok() && gi < |groups|
      ensures Ok() && M() == old(M())
      ensures due == Expired(if response then M().groups[gi].responseTimer else M().groups[gi].scanTimer, t.now)
    {
      hide Expired, GroupData.Whole, ValidGroupSetting, Tables;
      if response {
        due := groups[gi].responseTimer.IsExpired(t.now);
      } else {
        due := groups[gi].scanTimer.IsExpired(t.now);
      }
    }

    /** One group's part of clm_iefb_monitor_all_group_timers. */
    method MonitorGroupTimers(gi: nat, t: Clock)
      requires Ok() && Ready(config, M()) && gi < |groups|
      modifies `trace, `masterState, arbTimer, groups[gi].Parts()
      ensures Ok() && M() == MonitorGroup(config, old(M()), gi, t)
    {
      hide LaidOut, OneGroup, Ok, M, Expired;
      GroupOf(gi);
      R.LaidOutApart(config, M(), gi);
      var due := IsDue(gi, true, t);
      if due {
        StopTimer(gi, true);
        OneGroupEvent(gi, t, LinkScanTimeout);
      }
      GroupOf(gi);
      R.LaidOutApart(config, M(), gi);
      due := IsDue(gi, false, t);
      if due {
        StopTimer(gi, false);
        OneGroupEvent(gi, t, LinkScanStart);
      }
    }

    /** clm_iefb_monitor_all_group_timers */
    method MonitorAllGroupTimers(t: Clock)
      requires Ok() && Ready(config, M())
      modifies `trace, `masterState, arbTimer, AllParts()
      ensures Ok() && M() == MonitorGroups(config, old(M()), 0, t)
    {
      hide LaidOut, Ready, MonitorGroup, Ok, M, AllParts, GroupData.Parts;
      Counted();
      ghost var final := MonitorGroups(config, M(), 0, t);
      for gi := 0 to |groups|
        invariant Ok() && Ready(config, M()) && |M().groups| == |groups|
        invariant MonitorGroups(config, M(), gi, t) == final
      {
        InAllParts(gi);
        MonitorGroupTimers(gi, t);
        Counted();
      }
    }

    /** The timer part of clm_iefb_periodic. */
    method PeriodicTimers(t: Clock)
      requires Ok() && Ready(config, M())
      modifies `trace, `masterState, arbTimer, AllParts()
      ensures Ok() && M() == Tick(config, old(M()), t)
    {
      hide LaidOut, Ready, MonitorGroups, AllGroups, GroupData.Whole, GroupData.Value, ValidGroupSetting, Tables;
      var expired := arbTimer.IsExpired(t.now);
      if expired {
        StopArbitrationTimer();
        GroupFsmEventAll(t, ArbitrationDone);
      }
      MonitorAllGroupTimers(t);
    }

    method StopArbitrationTimer()
      requires Ok() && Ready(config, M())
      modifies arbTimer
      ensures Ok() && Ready(config, M()) && M() == old(M()).(sh := old(M()).sh.(arbTimer := Stopped))
    {
      hide LaidOut, GroupData.Whole, ValidGroupSetting, Tables;
      arbTimer.Stop();
      forall gi | 0 <= gi < |groups| ensures Fits(groups[gi]) && groups[gi].Value() == old(groups[gi].Value()) {
        StaysAsItWas(gi);
      }
    }

    // -------------------------------------------------------------- responses

    /** Assignments to fields of one device. */
    method SetDevice(gi: nat, i: nat, d: D.Device)
      requires Ok() && Ready(config, M()) && gi < |groups| && i < groups[gi].devices.Length
      requires d.station == groups[gi].devices[i].station
      modifies groups[gi].devices
      ensures Ok() && i < |old(M()).groups[gi].devices| && d.station == old(M()).groups[gi].devices[i].station
      ensures M() == WithDevice(config, old(M()), gi, i, d)
    {
      hide LaidOut, ValidGroupSetting, Tables, RequestFrame.Valid;
      forall h | 0 <= h < |groups| && h != gi ensures groups[gi].Parts() !! groups[h].Parts() {
        PartsApart(gi, h);
      }
      groups[gi].devices[i] := d;
      OthersStay(gi);
    }

    /** A call to the application, or a report that may become one. */
    method Tell(o: Output)
      requires Ok()
      modifies `trace
      ensures Ok() && M() == old(M()).(sh := Note(old(M()).sh, o))
    {
      hide GroupData.Whole, GroupData.Value, ValidGroupSetting, Tables;
      trace := trace + [o];
      forall gi | 0 <= gi < |groups| ensures Fits(groups[gi]) && groups[gi].Value() == old(groups[gi].Value()) {
        StaysAsItWas(gi);
      }
    }

    lemma LaidOutHere(gi: nat)
      requires Ok() && Ready(config, M()) && gi < |groups|
      ensures LaidOut(Setting(groups[gi]), groups[gi].Value())
      ensures |groups[gi].Value().devices| == groups[gi].devices.Length
    {
      hide LaidOut;
      assert M().groups[gi] == groups[gi].Value();
    }

    /** clm_iefb_device_fsm_event for one device. */
    method OneDeviceEvent(gi: nat, i: nat, e: D.DeviceEvent)
      requires Ok() && Ready(config, M()) && gi < |groups| && i < groups[gi].devices.Length && e != D.GroupStartup
      modifies `trace, groups[gi].Parts()
      ensures Ok() && i < |old(M()).groups[gi].devices|
      ensures M() == OneDevice(config, old(M()), gi, i, e)
    {
      hide DeviceEvent, LaidOut, GroupData.Value, GroupData.Whole, ValidGroupSetting, Tables, D.Patches, Ready, Sized;
      LaidOutHere(gi);
      GoodSetting(config, gi);
      forall h | 0 <= h < |groups| && h != gi ensures groups[gi].Parts() !! groups[h].Parts()
        && arbTimer !in groups[h].Parts() && this !in groups[h].Parts() {
        PartsApart(gi, h);
      }
      DeviceFsmEvent(groups[gi], i, e);
      OthersStay(gi);
    }

    /** clm_iefb_group_have_received_from_all_devices */
    method GroupHaveReceivedFromAllDevices(gi: nat) returns (all: bool)
      requires Ok() && gi < |groups|
      ensures Ok() && M() == old(M()) && all == HaveReceivedFromAll(M().groups[gi])
    {
      hide GroupData.Whole, ValidGroupSetting, Tables;
      GroupOf(gi);
      all := HaveReceivedFromAllOf(groups[gi].seqNo, groups[gi].devices);
    }

    /** clm_iefb_store_incoming_cyclic_data */
    method StoreIncomingCyclicData(g: GroupData, i: nat, r: Response, valid: bool)
      requires Fits(g) && LaidOut(Setting(g), g.Value()) && i < g.devices.Length
      requires r.WellFormed() && r.Stations() == Setting(g).devices[i].stations
      modifies g.rwr, g.rx
      ensures Fits(g)
      ensures g.Value() == StoreData(Setting(g), old(g.Value()), i, r, valid)
    {
      hide Tables, RequestFrame.Valid, Splice, Zeros;
      StationInRange(Setting(g), i);
      var first, n := g.devices[i].station - 1, config.groups[g.index].devices[i].stations;
      assert WORD_AREA * first + WORD_AREA * n <= g.rwr.Length && BIT_AREA * first + BIT_AREA * n <= g.rx.Length;
      if valid {
        Put(g.rwr, WORD_AREA * first, r.rwr);
        Put(g.rx, BIT_AREA * first, r.rx);
      } else {
        Clear(g.rwr, WORD_AREA * first, WORD_AREA * n);
        Clear(g.rx, BIT_AREA * first, BIT_AREA * n);
      }
    }

    /** The same for the group with index gi. */
    method StoreForGroup(gi: nat, i: nat, r: Response, valid: bool)
      requires Ok() && Ready(config, M()) && gi < |groups| && i < groups[gi].devices.Length
      requires r.WellFormed() && i < |config.groups[gi].devices| && r.Stations() == config.groups[gi].devices[i].stations
      requires ValidGroupSetting(config.groups[gi])
      modifies groups[gi].rwr, groups[gi].rx
      ensures Ok() && i < |old(M()).groups[gi].devices|
      ensures M() == old(M()).(groups := old(M()).groups[gi := StoreData(config.groups[gi], old(M()).groups[gi], i, r, valid)])
    {
      hide LaidOut, StoreData, GroupData.Value, GroupData.Whole, ValidGroupSetting, Tables;
      GroupOf(gi);
      forall h | 0 <= h < |groups| && h != gi ensures groups[gi].Parts() !! groups[h].Parts() {
        PartsApart(gi, h);
      }
      StoreIncomingCyclicData(groups[gi], i, r, valid);
      OthersStay(gi);
    }

    /** The middle of clm_iefb_handle_response_frame: callbacks, header values, statistics, data. */
    method KeepResponseOf(gi: nat, i: nat, r: Response, t: Clock)
      requires Ok() && Ready(config, M()) && gi < |groups| && i < groups[gi].devices.Length
      requires r.WellFormed() && i < |config.groups[gi].devices| && r.Stations() == config.groups[gi].devices[i].stations
      modifies `trace, groups[gi].devices, groups[gi].rwr, groups[gi].rx
      ensures Ok() && i < |old(M()).groups[gi].devices|
      ensures M() == KeepResponse(config, old(M()), t, gi, i, r)
    {
      hide LaidOut, Ready, Ok, M, StoreData, Update;
      GoodConfigHere(gi);
      ghost var m := M();
      GroupOf(gi);
      R.KeepResponseParts(config, m, t, gi, i, r);
      var d := groups[gi].devices[i];
      var latest := d.latest;
      if IsSlaveAlarm(r.endCode) {
        d := CountAlarm(d);
        if r.endCode != latest.endCode {
          Tell(AlarmCb(gi, i, r.endCode, r.errCode, r.mgmtInfo));
        }
      }
      if latest.received && (r.errCode != latest.errCode || r.mgmtInfo != latest.mgmtInfo) {
        Tell(SlaveInfoCb(gi, i, r.endCode, r.errCode, r.mgmtInfo));
      }
      AnyShared(m, M().sh);
      GroupOf(gi);
      d := Stored(d, config.maxSamples, r, Delta(t.now, groups[gi].scanStart));
      SetDevice(gi, i, d);
      StoreForGroup(gi, i, r, d.bit);
    }

    lemma AnyShared(m: Master, sh: Shared)
      requires Ready(config, m)
      ensures Ready(config, m.(sh := sh))
    {
    }

    lemma GoodConfigHere(gi: nat)
      requires Ok() && gi < |groups|
      ensures GoodConfig(config) && |groups| == |config.groups| && ValidGroupSetting(config.groups[gi])
    {
    }

    /** The end of clm_iefb_handle_response_frame: the events a response triggers. */
    method RaiseEvents(gi: nat, i: nat, r: Response, t: Clock)
      requires Ok() && Ready(config, M()) && gi < |groups| && i < groups[gi].devices.Length
      modifies `trace, `masterState, arbTimer, AllParts()
      ensures Ok() && i < |old(M()).groups[gi].devices|
      ensures M() == if r.endCode == ENDCODE_MASTER_DUPLICATION then AllGroups(config, old(M()), 0, t, DuplicationAlarm)
                     else Answered(config, old(M()), t, gi, i, if r.endCode == ENDCODE_SUCCESS then D.ReceiveOk else D.ReceiveError)
    {
      hide LaidOut, Ready, Ok, M, AllGroups, OneDevice, OneGroup, HaveReceivedFromAll, AllParts, GroupData.Parts;
      GroupOf(gi);
      if r.endCode == ENDCODE_MASTER_DUPLICATION {
        GroupFsmEventAll(t, DuplicationAlarm);
      } else {
        InAllParts(gi);
        OneDeviceEvent(gi, i, if r.endCode == ENDCODE_SUCCESS then D.ReceiveOk else D.ReceiveError);
        var all := GroupHaveReceivedFromAllDevices(gi);
        if all {
          OneGroupEvent(gi, t, LinkScanComplete);
        }
      }
    }

    /** From the check of the sequence number on. */
    method HandleResponseInSequence(gi: nat, i: nat, r: Response, ip: u32, t: Clock)
      requires Ok() && Ready(config, M()) && gi < |groups| && i < groups[gi].devices.Length && r.WellFormed()
      modifies `trace, `masterState, arbTimer, AllParts()
      ensures Ok() && i < |old(M()).groups[gi].devices|
      ensures M() == HandleInSequence(config, old(M()), t, gi, i, r, ip)
    {
      hide LaidOut, Ok, M, AllGroups, Answered, KeepResponse, AllParts;
      InAllParts(gi);
      GroupOf(gi);
      R.Shape(config, M(), gi);
      ghost var m := M();
      if r.endCode == ENDCODE_WRONG_NUMBER_OCCUPIED {
        Tell(ErrorReport(SlaveReportsWrongNumberOccupied, ip));
      }
      if r.endCode == ENDCODE_MASTER_DUPLICATION {
        Tell(ErrorReport(SlaveReportsMasterDuplication, ip));
      }
      AnyShared(m, M().sh);
      GroupOf(gi);
      var d := groups[gi].devices[i];
      if IsComplaint(r.endCode) {
        d := CountAlarm(d);
      }
      if r.Stations() != config.groups[gi].devices[i].stations {
        SetDevice(gi, i, CountInvalid(d));
        return;
      }
      SetDevice(gi, i, d);
      GroupOf(gi);
      KeepResponseOf(gi, i, r, t);
      GroupOf(gi);
      RaiseEvents(gi, i, r, t);
    }

    /** clm_iefb_handle_response_frame, from the found device on. */
    method HandleResponseOfDevice(gi: nat, i: nat, r: Response, ip: u32, t: Clock)
      requires Ok() && Ready(config, M()) && gi < |groups| && i < groups[gi].devices.Length && r.WellFormed()
      modifies `trace, `masterState, arbTimer, AllParts()
      ensures Ok() && i < |old(M()).groups[gi].devices|
      ensures M() == HandleFromDevice(config, old(M()), t, gi, i, r, ip)
    {
      hide LaidOut, Ok, M, OneDevice, HandleInSequence, AllParts;
      InAllParts(gi);
      GroupOf(gi);
      var seqNo := groups[gi].seqNo;
      var d := CountIncoming(groups[gi].devices[i]);
      if !d.enabled {
        SetDevice(gi, i, CountInvalid(d));
        return;
      }
      if d.latest.received && r.seqNo == d.latest.seqNo && d.state != D.Listen {
        ghost var m := M();
        Tell(ErrorReport(SlaveDuplicated, ip));
        AnyShared(m, M().sh);
        SetDevice(gi, i, CountInvalid(d));
        GroupOf(gi);
        OneDeviceEvent(gi, i, D.SlaveDuplication);
        return;
      }
      if d.bit && r.seqNo != seqNo {
        SetDevice(gi, i, CountInvalid(d));
        return;
      }
      SetDevice(gi, i, d);
      GroupOf(gi);
      HandleResponseInSequence(gi, i, r, ip, t);
    }

    /** clm_iefb_handle_response_frame, behind the parser. */
    method HandleResponseFrame(r: Response, ip: u32, t: Clock)
      requires Ok() && Ready(config, M()) && r.WellFormed() && r.groupNo >= 1
      modifies `trace, `masterState, arbTimer, AllParts()
      ensures Ok() && M() == HandleResponse(config, old(M()), t, r, ip)
    {
      hide LaidOut, Ok, M, HandleFromDevice, AllParts;
      Counted();
      GroupCount();
      if r.groupNo > |config.groups| {
        return;
      }
      var gi := r.groupNo - 1;
      var found, i := FindDevice(gi, ip);
      if found {
        GroupOf(gi);
        R.Shape(config, M(), gi);
        HandleResponseOfDevice(gi, i, r, ip, t);
      }
    }

    /** clm_iefb_calc_slave_device_index; nothing changes. */
    method FindDevice(gi: nat, ip: u32) returns (found: bool, i: nat)
      requires Ok() && gi < |config.groups|
      ensures Ok() && M() == old(M())
      ensures i == DeviceIndex(config.groups[gi].devices, ip) && (found <==> i < |config.groups[gi].devices|)
    {
      hide GroupData.Whole, GroupData.Value, ValidGroupSetting, Tables;
      found, i := CalcSlaveDeviceIndex(config.groups[gi].devices, ip);
    }

    /** clm_iefb_handle_request_frame */
    method HandleRequestFrame(ip: u32, t: Clock)
      requires Ok() && Ready(config, M())
      modifies `trace, `masterState, `conflictIp, arbTimer, AllParts()
      ensures Ok()
      ensures M() == AllGroups(config, old(M()).(sh := old(M()).sh.(conflictIp := ip)), 0, t, RequestFromOther)
    {
      hide LaidOut, Ready, AllGroups, AllParts, Ok, M;
      ghost var m := M();
      NoteConflict(ip);
      AnyShared(m, M().sh);
      GroupFsmEventAll(t, RequestFromOther);
    }

    method NoteConflict(ip: u32)
      requires Ok()
      modifies `conflictIp
      ensures Ok() && M() == old(M()).(sh := old(M()).sh.(conflictIp := ip))
    {
      hide GroupData.Whole, GroupData.Value, ValidGroupSetting, Tables;
      conflictIp := ip;
      forall gi | 0 <= gi < |groups| ensures Fits(groups[gi]) && groups[gi].Value() == old(groups[gi].Value()) {
        StaysAsItWas(gi);
      }
    }

    /** clm_iefb_handle_input_frame. The parser's own assertion must hold. */
    method HandleInputFrame(b: seq<byte>, ip: u32, t: Clock)
      requires Ok() && Ready(config, M()) && ParseResponse(b, ip) != AssertionFails
      modifies `trace, `masterState, `conflictIp, arbTimer, AllParts()
      ensures Ok() && M() == Receive(config, old(M()), t, b, ip)
    {
      hide LaidOut, Ready, AllGroups, HandleResponse, AllParts, Ok, M, IsResponse, IsRequest, ParseResponse;
      if ip == config.masterId {
        return;
      }
      if !IsResponse(b) {
        if IsRequest(b) {
          HandleRequestFrame(ip, t);
        }
        return;
      }
      var parsed := ParseResponse(b, ip);
      if parsed.Parsed? {
        AcceptedResponseIsEncoded(b, ip);
        HandleResponseFrame(parsed.r, ip, t);
      }
    }

    // -------------------------------------------------------------- the application

    /** clm_iefb_set_slave_communication_status */
    method SetSlaveCommunicationStatus(gi: nat, i: nat, enabled: bool) returns (ok: bool)
      requires Ok() && Ready(config, M())
      modifies AllParts()
      ensures Ok() && M() == WithEnabled(config, old(M()), gi, i, enabled)
      ensures ok <==> gi < |config.groups| && i < |config.groups[gi].devices|
    {
      hide LaidOut, AllParts, Ok, M;
      Counted();
      GroupCount();
      if gi >= |config.groups| {
        return false;
      }
      R.Shape(config, M(), gi);
      GroupOf(gi);
      if i >= |config.groups[gi].devices| {
        return false;
      }
      InAllParts(gi);
      SetDevice(gi, i, groups[gi].devices[i].(enabled := enabled));
      return true;
    }

    /** clm_iefb_force_cyclic_transmission_bit */
    method ForceCyclicTransmissionBit(gi: nat, i: nat, force: bool) returns (ok: bool)
      requires Ok() && Ready(config, M())
      modifies AllParts()
      ensures Ok() && M() == WithForced(config, old(M()), gi, i, force)
      ensures ok <==> gi < |config.groups| && i < |config.groups[gi].devices|
    {
      hide LaidOut, AllParts, Ok, M;
      Counted();
      GroupCount();
      if gi >= |config.groups| {
        return false;
      }
      R.Shape(config, M(), gi);
      GroupOf(gi);
      if i >= |config.groups[gi].devices| {
        return false;
      }
      InAllParts(gi);
      SetDevice(gi, i, groups[gi].devices[i].(forced := force));
      return true;
    }

    /** clm_iefb_set_master_application_status */
    method SetMasterApplicationStatus(running: bool, stoppedByUser: bool)
      requires Ok()
      modifies `unitInfo
      ensures Ok()
      ensures M() == old(M()).(sh := old(M()).sh.(unitInfo := UnitInfo(config.protocolVer, running, stoppedByUser)))
    {
      hide GroupData.Whole, GroupData.Value, ValidGroupSetting, Tables;
      unitInfo := UnitInfo(config.protocolVer, running, stoppedByUser);
      forall gi | 0 <= gi < |groups| ensures Fits(groups[gi]) && groups[gi].Value() == old(groups[gi].Value()) {
        StaysAsItWas(gi);
      }
    }

    lemma GroupCount()
      requires Ok()
      ensures |groups| == |config.groups|
    {
    }

    /** clm_iefb_set_ry_bit; the area number must lie inside the device, as the source asserts. */
    method SetRyBit(gi: nat, i: nat, number: u16, value: bool)
      requires Ok() && Ready(config, M()) && gi < |config.groups| && i < |config.groups[gi].devices|
      requires number < 64 * config.groups[gi].devices[i].stations
      modifies AllParts()
      ensures Ok() && gi < |old(M()).groups|
      ensures var first, g := BIT_AREA * Start(config.groups[gi].devices, i), old(M()).groups[gi];
              && first + number / 8 < |g.ry|
              && M() == old(M()).(groups := old(M()).groups[gi := g.(ry := FlatBitSet(g.ry, first, number, value))])
    {
      hide LaidOut, Ready, GroupData.Whole, GroupData.Value, ValidGroupSetting, Tables, FlatBitSet, AllParts;
      InAllParts(gi);
      AreasHere(gi);
      DeviceHere(gi, i);
      forall h | 0 <= h < |groups| && h != gi ensures groups[gi].Parts() !! groups[h].Parts() {
        PartsApart(gi, h);
      }
      SetBit(groups[gi].ry, BIT_AREA * (groups[gi].devices[i].station - 1), number, value);
      RyWritten(gi);
      OthersStay(gi);
    }

    /** clm_iefb_set_rww_value */
    method SetRwwValue(gi: nat, i: nat, number: u16, value: u16)
      requires Ok() && Ready(config, M()) && gi < |config.groups| && i < |config.groups[gi].devices|
      requires number < 32 * config.groups[gi].devices[i].stations
      modifies AllParts()
      ensures Ok() && gi < |old(M()).groups|
      ensures var first, g := WORD_AREA * Start(config.groups[gi].devices, i), old(M()).groups[gi];
              && first + 2 * number + 2 <= |g.rww|
              && M() == old(M()).(groups := old(M()).groups[gi := g.(rww := FlatRegisterSet(g.rww, first, number, value))])
    {
      hide LaidOut, Ready, GroupData.Whole, GroupData.Value, ValidGroupSetting, Tables, FlatRegisterSet, AllParts;
      InAllParts(gi);
      AreasHere(gi);
      DeviceHere(gi, i);
      forall h | 0 <= h < |groups| && h != gi ensures groups[gi].Parts() !! groups[h].Parts() {
        PartsApart(gi, h);
      }
      SetRegister(groups[gi].rww, WORD_AREA * (groups[gi].devices[i].station - 1), number, value);
      RwwWritten(gi);
      OthersStay(gi);
    }

    /** clm_iefb_get_rx_bit */
    method GetRxBit(gi: nat, i: nat, number: u16) returns (value: bool)
      requires Ok() && Ready(config, M()) && gi < |config.groups| && i < |config.groups[gi].devices|
      requires number < 64 * config.groups[gi].devices[i].stations
      ensures gi < |M().groups| && BIT_AREA * Start(config.groups[gi].devices, i) + number / 8 < |M().groups[gi].rx|
      ensures value == FlatBit(M().groups[gi].rx, BIT_AREA * Start(config.groups[gi].devices, i), number)
    {
      hide LaidOut, Ready, ValidGroupSetting, Tables, FlatBit;
      DeviceHere(gi, i);
      value := GetBit(groups[gi].rx, BIT_AREA * (groups[gi].devices[i].station - 1), number);
    }

    /** clm_iefb_get_rwr_value */
    method GetRwrValue(gi: nat, i: nat, number: u16) returns (value: u16)
      requires Ok() && Ready(config, M()) && gi < |config.groups| && i < |config.groups[gi].devices|
      requires number < 32 * config.groups[gi].devices[i].stations
      ensures gi < |M().groups| && WORD_AREA * Start(config.groups[gi].devices, i) + 2 * number + 2 <= |M().groups[gi].rwr|
      ensures value == FlatRegister(M().groups[gi].rwr, WORD_AREA * Start(config.groups[gi].devices, i), number)
    {
      hide LaidOut, Ready, ValidGroupSetting, Tables, FlatRegister;
      DeviceHere(gi, i);
      value := GetRegister(groups[gi].rwr, WORD_AREA * (groups[gi].devices[i].station - 1), number);
    }

    /** Where a device is, and that its areas fit. */
    lemma DeviceHere(gi: nat, i: nat)
      requires Ok() && Ready(config, M()) && gi < |config.groups| && i < |config.groups[gi].devices|
      ensures gi < |groups| == |M().groups| && M().groups[gi] == groups[gi].Value() && i < groups[gi].devices.Length
      ensures groups[gi].devices[i].station == 1 + Start(config.groups[gi].devices, i)
      ensures var g, end := groups[gi], End(config.groups[gi].devices, i);
              && end == Start(config.groups[gi].devices, i) + config.groups[gi].devices[i].stations
              && WORD_AREA * end <= g.rww.Length == g.rwr.Length && BIT_AREA * end <= g.ry.Length == g.rx.Length
    {
      GoodSetting(config, gi);
      StationInRange(config.groups[gi], i);
      assert LaidOut(config.groups[gi], M().groups[gi]);
      assert M().groups[gi] == groups[gi].Value();
    }

    lemma AreasHere(gi: nat)
      requires Ok() && gi < |groups|
      ensures groups[gi].Value().ry == groups[gi].ry[..] && groups[gi].Value().rww == groups[gi].rww[..]
    {
    }

    /** Writing one output area leaves a group whole. */
    twostate lemma RyWritten(gi: nat)
      requires gi < |groups| && old(Fits(groups[gi])) && Tables() && unchanged(groups[gi].Parts() - {groups[gi].ry})
      ensures Fits(groups[gi]) && groups[gi].Value() == old(groups[gi].Value()).(ry := groups[gi].ry[..])
    {
    }

    twostate lemma RwwWritten(gi: nat)
      requires gi < |groups| && old(Fits(groups[gi])) && Tables() && unchanged(groups[gi].Parts() - {groups[gi].rww})
      ensures Fits(groups[gi]) && groups[gi].Value() == old(groups[gi].Value()).(rww := groups[gi].rww[..])
    {
    }

    // -------------------------------------------------------------- initialisation

    /** The first k groups have had STARTUP, the others are still zeroed. */
    ghost predicate Starting(m: Master, k: nat)
      requires GoodConfig(config)
    {
      && |m.groups| == |config.groups|
      && (forall gi :: k <= gi < |m.groups| ==> m.groups[gi] == ZeroGroup(config.groups[gi]))
    }

    lemma ZeroIsLegal(gi: nat)
      requires Ok() && gi < |groups| && M().groups[gi] == ZeroGroup(config.groups[gi])
      ensures Legal(Setting(groups[gi]), Now(groups[gi]), Startup) && ScopeOf(M(), gi) == Scope(Sh(), ZeroGroup(config.groups[gi]))
      ensures Legal(config.groups[gi], ScopeOf(M(), gi), Startup)
    {
      GoodSetting(config, gi);
    }

    lemma StartedIsLegal(gi: nat)
      requires Ok() && gi < |groups| && Started(config, gi, M().groups[gi])
      ensures Legal(Setting(groups[gi]), Now(groups[gi]), NewConfig)
    {
      hide LaidOut;
      GoodSetting(config, gi);
      assert M().groups[gi] == groups[gi].Value();
    }

    /** clm_iefb_group_fsm_event_all with STARTUP */
    method StartupAll(t: Clock)
      requires Ok() && Starting(M(), 0)
      modifies `trace, `masterState, arbTimer, AllParts()
      ensures Ok() && M() == StartGroups(config, old(M()).sh, |config.groups|, t)
    {
      hide GroupEventStep, GroupData.Parts, AllParts, ZeroGroup, Ok, M, StartingFrom, Legal;
      Counted();
      GroupCount();
      GoodConfigOf();
      ghost var sh := M().sh;
      NoneStartedYet(config, M(), t);
      for gi := 0 to |groups|
        invariant Ok() && |M().groups| == |groups| == |config.groups| && StartingFrom(config, sh, M(), gi, t)
      {
        InAllParts(gi);
        NextIsZero(config, sh, M(), gi, t);
        ZeroIsLegal(gi);
        OneMoreStartedUp(config, sh, M(), gi, t);
        RunGroupEvent(gi, t, Startup);
      }
      AllStartedUp(config, sh, M(), t);
    }

    lemma GoodConfigOf()
      requires Ok()
      ensures GoodConfig(config)
    {
    }

    /** clm_iefb_handle_new_config, without the file it saves the number to. */
    method HandleNewConfig(t: Clock)
      requires Ok() && AllStarted(config, M().groups)
      modifies `trace, `masterState, `parameterNo, arbTimer, AllParts()
      ensures Ok() && |old(M()).groups| == |config.groups|
      ensures M() == ConfigureGroups(config, old(M()).(sh := old(M()).sh.(parameterNo := (old(M()).sh.parameterNo + 1) % 0x1_0000)),
                                     |config.groups|, t)
    {
      hide GroupEventStep, GroupData.Parts, AllParts, LaidOut, Started, Ok, M, ConfigureGroups, Legal, GoodConfig, WithScope;
      Counted();
      GroupCount();
      GoodConfigOf();
      NextParameterNo();
      ghost var m := M();
      NoneConfigured(config, m, t);
      for gi := 0 to |groups|
        invariant Ok() && |M().groups| == |groups| == |config.groups|
        invariant M() == ConfigureGroups(config, m, gi, t)
      {
        InAllParts(gi);
        OneMoreConfigured(config, m, gi, t);
        StartedIsLegal(gi);
        RunGroupEvent(gi, t, NewConfig);
        Counted();
      }
    }

    method NextParameterNo()
      requires Ok()
      modifies `parameterNo
      ensures Ok() && M() == old(M()).(sh := old(M()).sh.(parameterNo := (old(M()).sh.parameterNo + 1) % 0x1_0000))
    {
      hide GroupData.Whole, GroupData.Value, ValidGroupSetting, Tables;
      parameterNo := (parameterNo + 1) % 0x1_0000;
      forall gi | 0 <= gi < |groups| ensures Fits(groups[gi]) && groups[gi].Value() == old(groups[gi].Value()) {
        StaysAsItWas(gi);
      }
    }

    lemma BlankIsStarting()
      requires Apart() && Tables() && GoodConfig(config) && |groups| == |config.groups|
      requires forall gi :: 0 <= gi < |groups| ==> groups[gi].Blank(gi, config.groups[gi])
      ensures Ok() && Starting(M(), 0)
    {
      hide GroupData.Value, GroupData.Whole, HoldsDeviceTable, HoldsGroupTable;
      forall gi | 0 <= gi < |groups| ensures Fits(groups[gi]) && M().groups[gi] == ZeroGroup(config.groups[gi]) {
        assert groups[gi].Blank(gi, config.groups[gi]);
        GoodSetting(config, gi);
        assert arbTimer !in groups[gi].Parts();
      }
    }
  }

  /** The first k groups are started, the others are zeroed memory. */
  ghost predicate StartingFrom(cfg: MasterConfig, sh: Shared, m: Master, k: nat, t: Clock)
    requires GoodConfig(cfg)
  {
    && k <= |m.groups| == |cfg.groups|
    && m.sh == StartGroups(cfg, sh, k, t).sh && m.groups[..k] == StartGroups(cfg, sh, k, t).groups
    && (forall gi :: k <= gi < |m.groups| ==> m.groups[gi] == ZeroGroup(cfg.groups[gi]))
  }

  lemma NoneStartedYet(cfg: MasterConfig, m: Master, t: Clock)
    requires GoodConfig(cfg) && |m.groups| == |cfg.groups|
    requires forall gi :: 0 <= gi < |m.groups| ==> m.groups[gi] == ZeroGroup(cfg.groups[gi])
    ensures StartingFrom(cfg, m.sh, m, 0, t)
  {
    hide ZeroGroup;
  }

  lemma NextIsZero(cfg: MasterConfig, sh: Shared, m: Master, k: nat, t: Clock)
    requires GoodConfig(cfg) && StartingFrom(cfg, sh, m, k, t) && k < |m.groups|
    ensures m.groups[k] == ZeroGroup(cfg.groups[k])
  {
    hide ZeroGroup, StartGroups;
  }

  lemma OneMoreStartedUp(cfg: MasterConfig, sh: Shared, m: Master, k: nat, t: Clock)
    requires GoodConfig(cfg) && StartingFrom(cfg, sh, m, k, t) && k < |m.groups|
    requires Legal(cfg.groups[k], ScopeOf(m, k), Startup)
    ensures StartingFrom(cfg, sh, WithScope(m, k, GroupEventStep(cfg, cfg.groups[k], k, ScopeOf(m, k), t, Startup)), k + 1, t)
  {
    hide ZeroGroup, GroupEventStep, LaidOut;
    GoodSetting(cfg, k);
    var r := WithScope(m, k, GroupEventStep(cfg, cfg.groups[k], k, ScopeOf(m, k), t, Startup));
    assert r.groups[..k + 1] == m.groups[..k] + [r.groups[k]];
  }

  lemma AllStartedUp(cfg: MasterConfig, sh: Shared, m: Master, t: Clock)
    requires GoodConfig(cfg) && StartingFrom(cfg, sh, m, |cfg.groups|, t)
    ensures m == StartGroups(cfg, sh, |cfg.groups|, t)
  {
    hide ZeroGroup, StartGroups;
    assert m.groups[..|m.groups|] == m.groups;
  }

  lemma NoneConfigured(cfg: MasterConfig, m: Master, t: Clock)
    requires GoodConfig(cfg) && |m.groups| == |cfg.groups| && AllStarted(cfg, m.groups)
    ensures ConfigureGroups(cfg, m, 0, t) == m
  {
  }

  lemma OneMoreConfigured(cfg: MasterConfig, m: Master, k: nat, t: Clock)
    requires GoodConfig(cfg) && |m.groups| == |cfg.groups| && AllStarted(cfg, m.groups) && k < |m.groups|
    ensures var r := ConfigureGroups(cfg, m, k, t);
            && Started(cfg, k, r.groups[k])
            && Legal(cfg.groups[k], ScopeOf(r, k), NewConfig)
            && ConfigureGroups(cfg, m, k + 1, t)
               == WithScope(r, k, GroupEventStep(cfg, cfg.groups[k], k, ScopeOf(r, k), t, NewConfig))
  {
    hide GroupEventStep, LaidOut;
    assert Started(cfg, k, m.groups[k]);
    GoodSetting(cfg, k);
  }

  /** clm_iefb_init: a master that runs as the model's initial state says. */
  method NewMaster(config: MasterConfig, storedParameterNo: u16, t: Clock) returns (clm: Clm)
    requires GoodConfig(config)
    ensures fresh(clm) && clm.Ok() && clm.config == config
    ensures clm.M() == Init(config, storedParameterNo, t)
  {
    hide StartGroups, ConfigureGroups, Clm.Ok, Clm.M, Clm.AllParts, Clm.Apart, GroupData.Blank, LaidOut, Started;
    clm := new Clm(config, storedParameterNo);
    clm.BlankIsStarting();
    SharedOf(clm);
    clm.StartupAll(t);
    clm.HandleNewConfig(t);
  }

  lemma SharedOf(clm: Clm)
    ensures clm.M().sh == clm.Sh()
  {
  }

  /** The two loops of clm_iefb_group_have_received_from_all_devices. */
  method HaveReceivedFromAllOf(seqNo: u16, devices: array<D.Device>) returns (all: bool)
    ensures all <==>
      if seqNo == 0 then
        && (forall i :: 0 <= i < devices.Length ==> devices[i].state != D.WaitTd)
        && (exists i :: 0 <= i < devices.Length && devices[i].state == D.CyclicSent)
      else
        && (forall i :: 0 <= i < devices.Length ==> !(devices[i].bit && devices[i].state == D.CyclicSending))
        && (exists i :: 0 <= i < devices.Length && devices[i].bit)
  {
    var received := false;
    if seqNo == 0 {
      for i := 0 to devices.Length
        invariant forall j :: 0 <= j < i ==> devices[j].state != D.WaitTd
        invariant received <==> exists j :: 0 <= j < i && devices[j].state == D.CyclicSent
      {
        if devices[i].state == D.WaitTd {
          return false;
        }
        if devices[i].state == D.CyclicSent {
          received := true;
        }
      }
      return received;
    }
    for i := 0 to devices.Length
      invariant forall j :: 0 <= j < i ==> !(devices[j].bit && devices[j].state == D.CyclicSending)
      invariant received <==> exists j :: 0 <= j < i && devices[j].bit
    {
      if devices[i].bit {
        received := true;
      }
      if devices[i].bit && devices[i].state == D.CyclicSending {
        return false;
      }
    }
    return received;
  }

  lemma GroupEntry(m: GroupMatrix, s: GroupState, e: GroupEvent)
    requires HoldsGroupTable(m)
    ensures s.Ord() < m.cells.Length0 && e.Ord() < m.cells.Length1
    ensures m.cells[s.Ord(), e.Ord()] == Cell(GroupCell(s, e).0, GroupCell(s, e).1)
  {
    hide GroupTransitions, GroupCell;
    GroupMatrixIsCells(s, e);
    assert m.states[s.Ord()] == s && m.events[e.Ord()] == e;
  }

  /** Actions that need the frame belong to configured states. */
  lemma FrameCells(s: GroupState, e: GroupEvent)
    ensures NeedsFrame(GroupCell(s, e).1) ==> Configured(s)
  {
  }

  /** clm_iefb_update_frame_sequence_no: from the number of one request to that of the next. */
  method UpdateFrameSequenceNo(s: u16) returns (r: u16)
    ensures r == s % 0xFFFF + 1 && r != 0
    ensures forall k: nat :: s == SeqOf(k) ==> r == SeqOf(k + 1)
  {
    if s == 0xFFFF {
      return 1;
    }
    return s + 1;
  }

  lemma FrameBytes(frame: RequestFrame)
    requires frame.Valid()
    ensures frame.payloadLen <= frame.buffer.Length && frame.content.WellFormed()
    ensures frame.buffer[..frame.payloadLen] == EncodeRequest(frame.content)
  {
  }

  /** A group as clm_iefb_group_init clears it. */
  function Cleared(g: Group): Group {
    g.(responseTimer := Stopped, scanTimer := Stopped, total := 0, seqNo := 0, scanStart := 0, word := 0,
       devices := seq(|g.devices|, i requires 0 <= i < |g.devices| => g.devices[i].(state := D.MasterDown)))
  }

  lemma TotalFits(setting: GroupSetting)
    requires ValidGroupSetting(setting)
    ensures 1 <= Total(setting.devices) <= MAX_STATIONS_PER_GROUP && Positive(setting.devices)
  {
  }

  /** The loop over the devices makes what the model says of them. */
  lemma DevicesReflected(setting: GroupSetting, before: seq<D.Device>, devices: seq<D.Device>)
    requires ValidGroupSetting(setting) && |devices| == |before| == |setting.devices|
    requires forall j :: 0 <= j < |devices| ==>
               devices[j] == before[j].(timeoutCount := 0, station := (1 + Start(setting.devices, j)) % 0x1_0000)
    ensures devices == ReflectedDevices(setting, before)
  {
    forall j | 0 <= j < |devices| ensures 1 + Start(setting.devices, j) < 0x1_0000 {
      StationInRange(setting, j);
    }
  }

  /** The three steps of a turn: the transition, its action, and the action on entry. */
  function MovesOn(c: Scope, i: nat, s: D.DeviceState): Scope
    requires i < |c.g.devices|
  {
    Scope(c.sh, c.g.(devices := c.g.devices[i := c.g.devices[i].(state := s)]))
  }

  ghost predicate ActsOn(setting: GroupSetting, gi: nat, c: Scope, i: nat, action: D.DeviceAction, r: Scope)
    requires i < |c.g.devices| && i < |setting.devices|
  {
    var d := c.g.devices[i];
    var d' := D.Acted(d, setting.devices[i], setting.offCount, action).0;
    var g1 := c.g.(devices := c.g.devices[i := d']);
    if action == D.SetDataIp then
      && LaidOut(setting, g1) && ValidGroupSetting(setting)
      && r == Scope(if d'.bit && !d.bit then Note(c.sh, ConnectCb(gi, i))
                    else if !d'.bit && d.bit then Note(c.sh, DisconnectCb(gi, i)) else c.sh,
                    PatchFrame(setting, g1, i))
    else r == Scope(c.sh, g1)
  }

  function EntersOn(c: Scope, i: nat, previous: D.DeviceState): Scope
    requires i < |c.g.devices|
  {
    var d := c.g.devices[i];
    if d.state != previous && d.state == D.Listen then
      Scope(c.sh, c.g.(devices := c.g.devices[i := d.(timeoutCount := 0)]))
    else c
  }

  lemma StepsMakeTurn(setting: GroupSetting, gi: nat, c: Scope, i: nat, e: D.DeviceEvent, r: Scope)
    requires Sized(setting, c.g) && ValidGroupSetting(setting) && i < |c.g.devices|
    requires D.Patches(c.g.devices[i].state, e) ==> LaidOut(setting, c.g)
    requires var cell := D.DeviceCell(c.g.devices[i].state, e);
             ActsOn(setting, gi, MovesOn(c, i, cell.0), i, cell.1, r)
    ensures i < |r.g.devices| && EntersOn(r, i, c.g.devices[i].state) == DeviceTurn(setting, gi, c, i, e)
    ensures var d := c.g.devices[i];
            var cell := D.DeviceCell(d.state, e);
            D.Turn(d, setting.devices[i], setting.offCount, e).1
            == D.Acted(d.(state := cell.0), setting.devices[i], setting.offCount, cell.1).1
  {
    hide LaidOut, PatchFrame, ValidGroupSetting, D.Acted, D.DeviceCell, D.After;
    var d := c.g.devices[i];
    var cell := D.DeviceCell(d.state, e);
    var d1 := d.(state := cell.0);
    D.TurnsMakeAfter(d, setting.devices[i], setting.offCount, e);
    CellFacts(d.state, e);
    ActedKeepsState(d1, setting.devices[i], setting.offCount, cell.1);
    var d2 := D.Acted(d1, setting.devices[i], setting.offCount, cell.1).0;
    assert c.g.devices[i := d1][i := d2] == c.g.devices[i := d2];
    assert c.g.devices[i := d2][i := d2.(timeoutCount := 0)] == c.g.devices[i := d2.(timeoutCount := 0)];
  }

  lemma CellFacts(s: D.DeviceState, e: D.DeviceEvent)
    ensures D.DeviceCell(s, e).1 == D.SetDataIp ==> D.DeviceCell(s, e).0 != D.Listen
  {
  }

  lemma ActedKeepsState(d: D.Device, setting: DeviceSetting, offCount: u16, action: D.DeviceAction)
    ensures D.Acted(d, setting, offCount, action).0.state == d.state
  {
  }

  lemma StateKeepsLayout(setting: GroupSetting, g: Group, i: nat, s: D.DeviceState)
    requires LaidOut(setting, g) && i < |g.devices|
    ensures LaidOut(setting, g.(devices := g.devices[i := g.devices[i].(state := s)]))
  {
  }

  /** device_state_actions */
  function OnEntry(s: D.DeviceState): D.DeviceAction {
    if s == D.Listen then D.ResetTimeoutCount else D.NoAction
  }

  lemma DeviceEntry(m: DeviceMatrix, s: D.DeviceState, e: D.DeviceEvent)
    requires HoldsDeviceTable(m)
    ensures s.Ord() < m.cells.Length0 && e.Ord() < m.cells.Length1
    ensures m.cells[s.Ord(), e.Ord()] == Cell(D.DeviceCell(s, e).0, D.DeviceCell(s, e).1)
  {
    hide D.DeviceTransitions, D.DeviceCell;
    D.DeviceMatrixIsCells(s, e);
    assert m.states[s.Ord()] == s && m.events[e.Ord()] == e;
  }
}
