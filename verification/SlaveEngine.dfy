/** The slave as the source has it: mutable state, timers, two response frames in their buffers,
    and a table-driven event loop. Every method is proved equal to the model. */
module SlaveEngine {
  import opened Words
  import opened Buffers
  import opened Config
  import opened Layout
  import opened Timer
  import opened Frames
  import opened Responses
  import opened Fsm
  import opened SlaveModel
  import opened SlaveTurns
  import SlaveInvariant
  import opened ResponseFrame
  import opened Image

  type SlaveMatrix = TransitionMatrix<SlaveState, SlaveEvent, SlaveAction>

  ghost predicate HoldsTable(m: SlaveMatrix)
    reads m.cells
  {
    m.states == SLAVE_STATES && m.events == SLAVE_EVENTS && m.Holds(SlaveTransitions(), NoAction)
  }

  /** The table part of cls_fsm_init. */
  method NewSlaveMatrix() returns (m: SlaveMatrix)
    ensures HoldsTable(m) && fresh(m) && fresh(m.cells)
  {
    m := new TransitionMatrix(SLAVE_STATES, (s: SlaveState) => s.Ord(), SLAVE_EVENTS, (e: SlaveEvent) => e.Ord(),
                              SlaveTransitions(), NoAction);
  }

  lemma SlaveEntry(m: SlaveMatrix, s: SlaveState, e: SlaveEvent)
    requires HoldsTable(m)
    ensures s.Ord() < m.cells.Length0 && e.Ord() < m.cells.Length1
    ensures m.cells[s.Ord(), e.Ord()] == Cell(SlaveCell(s, e).0, SlaveCell(s, e).1)
  {
    hide SlaveTransitions, SlaveCell;
    SlaveMatrixIsCells(s, e);
    assert m.states[s.Ord()] == s && m.events[e.Ord()] == e;
  }

  /** cls_t */
  class Cls {
    const config: SlaveConfig
    const matrix: SlaveMatrix
    var state: SlaveState
    var master: MasterInfo
    const receiveTimer: Timer
    const disablingTimer: Timer
    var memo: Memo
    const ry: array<byte>
    const rww: array<byte>
    const normal: ResponseFrame
    const error: ResponseFrame
    var operating: bool
    var errCode: u16
    var mgmtInfo: u32
    var endCodeDisabled: u16
    ghost var trace: seq<SlaveOutput>

    constructor (config: SlaveConfig)
      requires ValidSlaveConfig(config)
      ensures Whole() && fresh(Parts()) && this.config == config
      ensures Value() == ZERO_SLAVE.(ry := Zeros(BIT_AREA * CLS_MAX_OCCUPIED_STATIONS),
                                     rww := Zeros(WORD_AREA * CLS_MAX_OCCUPIED_STATIONS))
    {
      this.config := config;
      var table := NewSlaveMatrix();
      matrix := table;
      state, master, memo := SlaveDown, NO_MASTER, Memo(false, false, 0, 0);
      operating, errCode, mgmtInfo, endCodeDisabled, trace := false, 0, 0, 0, [];
      receiveTimer := new Timer();
      disablingTimer := new Timer();
      normal := new ResponseFrame();
      error := new ResponseFrame();
      ry := new byte[BIT_AREA * CLS_MAX_OCCUPIED_STATIONS](i => 0);
      rww := new byte[WORD_AREA * CLS_MAX_OCCUPIED_STATIONS](i => 0);
      new;
      assert ry[..] == Zeros(BIT_AREA * CLS_MAX_OCCUPIED_STATIONS);
      assert rww[..] == Zeros(WORD_AREA * CLS_MAX_OCCUPIED_STATIONS);
    }

    ghost function Parts(): set<object> {
      {this, receiveTimer, disablingTimer, ry, rww, normal, normal.buffer, error, error.buffer}
    }

    ghost function Value(): Slave
      reads Parts()
    {
      Slave(state, master, receiveTimer.State(), disablingTimer.State(), memo, ry[..], rww[..], normal.content, error.content,
            operating, errCode, mgmtInfo, endCodeDisabled, trace)
    }

    ghost predicate Whole()
      reads Parts(), matrix.cells
    {
      && ValidSlaveConfig(config) && HoldsTable(matrix)
      && receiveTimer != disablingTimer && normal != error
      && normal.buffer != error.buffer && ry != rww
      && ry != normal.buffer && ry != error.buffer && rww != normal.buffer && rww != error.buffer
      && ry.Length == BIT_AREA * CLS_MAX_OCCUPIED_STATIONS && rww.Length == WORD_AREA * CLS_MAX_OCCUPIED_STATIONS
      && normal.buffer.Length == BUFFER_LEN && error.buffer.Length == BUFFER_LEN
      && (normal.content.WellFormed() && normal.content.Stations() >= 1 ==> normal.Valid())
      && (error.content.WellFormed() && error.content.Stations() >= 1 ==> error.Valid())
    }

    // -------------------------------------------------------------- pieces of the actions

    /** cls_iefb_handle_master_state_callback */
    method HandleMasterStateCallback(connected: bool, protocolVer: u16, status: u16)
      requires Whole()
      modifies `trace, `memo
      ensures Whole() && Value() == TellMasterState(old(Value()), connected, protocolVer, status)
    {
      hide HoldsTable, Filtered, ResponseFrame.Valid;
      if ShouldTrigger(memo, connected, protocolVer, status) {
        trace := trace + [Filtered(connected, protocolVer, status)];
      }
      memo := Memo(true, connected, protocolVer, status);
    }

    /** cls_iefb_clear_master_info */
    method ClearMasterInfo()
      requires Whole()
      modifies `trace, `memo, `master, receiveTimer, disablingTimer
      ensures Whole() && Value() == ClearMaster(old(Value()))
    {
      hide HoldsTable, TellMasterState, ResponseFrame.Valid;
      master := NO_MASTER;
      receiveTimer.Stop();
      disablingTimer.Stop();
      HandleMasterStateCallback(false, 0, 0);
    }

    /** cls_iefb_send_cyclic_response_frame */
    method SendCyclicResponseFrame(q: Incoming, includeData: bool, endCode: u16)
      requires Whole() && FramesFit(config, Value()) && q.Incoming?
      modifies `trace, normal`content, normal.buffer, error`content, error.buffer
      ensures Whole() && Value() == Reply(config, old(Value()), q, includeData, endCode)
    {
      hide HoldsTable, ResponseFrame.Valid, EncodeResponse;
      var output := if includeData then normal else error;
      output.Update(q.localIp, endCode, q.r.groupNo, q.r.seqNo, if operating then 1 else 0, errCode, mgmtInfo);
      FrameBytes(output);
      trace := trace + [Replied(q.remoteIp, output.content, output.buffer[..output.payloadLen])];
    }

    /** cls_iefb_copy_cyclic_data_from_request */
    method CopyCyclicDataFromRequest(r: Request, start: u16, on: bool) returns (ok: bool)
      requires Whole() && FramesFit(config, Value()) && r.WellFormed()
      modifies ry, rww
      ensures Whole() && ok == CanCopy(config, |r.ids|, start)
      ensures Value() == if ok then Copied(config, old(Value()), r, start, on) else old(Value())
    {
      hide HoldsTable, ResponseFrame.Valid, Splice;
      var n, total := config.stations, |r.ids|;
      var end := (start + n - 1) % 0x1_0000;
      if total == 0 || total > MAX_STATIONS_PER_GROUP || total < n {
        return false;
      }
      if start == 0 || start > MAX_STATIONS_PER_GROUP {
        return false;
      }
      if end > MAX_STATIONS_PER_GROUP || end > total {
        return false;
      }
      var p := start - 1;
      if on {
        Put(ry, 0, r.ry[BIT_AREA * p..BIT_AREA * (p + n)]);
        Put(rww, 0, r.rww[WORD_AREA * p..WORD_AREA * (p + n)]);
      } else {
        Clear(ry, 0, BIT_AREA * n);
        Clear(rww, 0, WORD_AREA * n);
      }
      return true;
    }

    // -------------------------------------------------------------- the actions

    /** cls_iefb_slave_init */
    method SlaveInitAction()
      requires Whole()
      modifies Parts()
      ensures Whole() && Value() == Initialised(config, old(Value()))
    {
      hide HoldsTable, ResponseFrame.Valid, ClearMaster, BlankResponse, Splice;
      BlankFits(config);
      receiveTimer.Stop();
      disablingTimer.Stop();
      Clear(ry, 0, BIT_AREA * CLS_MAX_OCCUPIED_STATIONS);
      Clear(rww, 0, WORD_AREA * CLS_MAX_OCCUPIED_STATIONS);
      assert ry[..] == Zeros(BIT_AREA * CLS_MAX_OCCUPIED_STATIONS);
      assert rww[..] == Zeros(WORD_AREA * CLS_MAX_OCCUPIED_STATIONS);
      memo := Memo(false, false, 0, 0);
      ClearMasterInfo();
      operating, mgmtInfo, errCode, endCodeDisabled := true, 0, 0, ENDCODE_SLAVE_REQUESTS_DISCONNECT;
      normal.Initialise(config);
      error.Initialise(config);
    }

    /** cls_iefb_handle_new_or_updated_master */
    method HandleNewOrUpdatedMaster(q: Incoming, now: u32) returns (next: SlaveEvent)
      requires Whole() && FramesFit(config, Value()) && (q.Incoming? ==> q.r.WellFormed())
      modifies `trace, `memo, `master, receiveTimer
      ensures Whole()
      ensures var r := SlaveActed(config, old(Value()), now, q, TakeMaster); Value() == r.0 && next == r.1
    {
      hide HoldsTable, ResponseFrame.Valid, TellMasterState, FramesFit;
      if q.NoRequest? {
        return NoEvent;
      }
      master := MasterInfo(q.r.masterId, q.r.clock, q.r.clock != 0, q.r.protocolVer, q.r.groupNo, q.r.parameterNo,
                           q.r.timeout, q.r.offCount, master.station, |q.r.ids| % 0x1_0000);
      receiveTimer.Start(TotalTimeout(master.timeout, master.offCount), now);
      trace := trace + [ConnectCb(master.masterId, master.groupNo, master.station)];
      HandleMasterStateCallback(true, q.r.protocolVer, q.r.unitInfo);
      return CorrectMaster;
    }

    /** cls_iefb_handle_cyclic_event */
    method HandleCyclicEvent(q: Incoming, now: u32)
      requires Whole() && FramesFit(config, Value()) && q.Incoming? && q.r.WellFormed()
      modifies `trace, `memo, `master, receiveTimer, ry, rww, normal`content, normal.buffer, error`content, error.buffer
      ensures Whole() && Value() == Exchanged(config, old(Value()), now, q)
    {
      hide HoldsTable, ResponseFrame.Valid, FramesFit, Reply, Copied, CanCopy, MyBit, Filtered;
      var on := MyBit(q.r.word, master.station);
      var ok := CopyCyclicDataFromRequest(q.r, master.station, on);
      if !ok {
        return;
      }
      ghost var copied := Value();
      master := master.(clock := q.r.clock, clockValid := q.r.clock != 0);
      HandleMasterStateCallback(true, q.r.protocolVer, q.r.unitInfo);
      FramesStay(config, copied, Value());
      SendCyclicResponseFrame(q, on, ENDCODE_SUCCESS);
      receiveTimer.Restart(now);
    }

    /** An error response: cls_iefb_handle_wrong_stationcount and cls_iefb_handle_incoming_when_disabled. */
    method SendErrorResponse(q: Incoming, endCode: u16)
      requires Whole() && FramesFit(config, Value())
      modifies `trace, normal`content, normal.buffer, error`content, error.buffer
      ensures Whole() && Value() == SlaveModel.Rejected(config, old(Value()), q, endCode)
    {
      hide HoldsTable, ResponseFrame.Valid, FramesFit, Reply;
      if q.Incoming? {
        SendCyclicResponseFrame(q, false, endCode);
      }
    }

    /** cls_iefb_handle_wrong_master */
    method HandleWrongMaster(q: Incoming)
      requires Whole() && FramesFit(config, Value()) && (q.Incoming? ==> q.r.WellFormed())
      modifies `trace, normal`content, normal.buffer, error`content, error.buffer
      ensures Whole() && Value() == SlaveActed(config, old(Value()), 0, q, RejectMaster).0
    {
      hide HoldsTable, ResponseFrame.Valid, FramesFit, Reply;
      if q.Incoming? {
        ghost var before := Value();
        trace := trace + [ErrorReport(MasterDuplication, q.r.masterId, 0)];
        FramesStay(config, before, Value());
        SendCyclicResponseFrame(q, false, ENDCODE_MASTER_DUPLICATION);
      }
    }

    // -------------------------------------------------------------- the event loop

    /** The action a transition names. */
    method PerformAction(q: Incoming, now: u32, a: SlaveAction) returns (next: SlaveEvent)
      requires Whole() && (a != InitSlave ==> FramesFit(config, Value())) && (q.Incoming? ==> q.r.WellFormed())
      modifies Parts()
      ensures Whole()
      ensures var r := SlaveActed(config, old(Value()), now, q, a); Value() == r.0 && next == r.1
    {
      hide HoldsTable, ResponseFrame.Valid, FramesFit, Initialised, Exchanged, SlaveModel.Rejected, TakenMaster, Reply;
      next := NoEvent;
      match a
      case NoAction =>
      case LogOnly =>
      case InitSlave => SlaveInitAction();
      case TakeMaster => next := HandleNewOrUpdatedMaster(q, now);
      case HandleCyclic =>
        if q.Incoming? {
          HandleCyclicEvent(q, now);
        }
      case RejectStationCount => SendErrorResponse(q, ENDCODE_WRONG_NUMBER_OCCUPIED);
      case RejectDisabled => SendErrorResponse(q, endCodeDisabled);
      case RejectMaster => HandleWrongMaster(q);
    }

    /** The action on entry to a state. */
    method PerformEntry(next: SlaveState, now: u32)
      requires Whole()
      modifies `trace, `memo, `master, receiveTimer, disablingTimer
      ensures Whole() && Value() == EntryDone(old(Value()), next, now)
    {
      hide HoldsTable, ResponseFrame.Valid, ClearMaster;
      match next
      case MasterNone => ClearMasterInfo();
      case WaitDisabling =>
        ClearMasterInfo();
        disablingTimer.Start(WAIT_TIME_DISABLE_SLAVE, now);
      case SlaveDisabled => disablingTimer.Stop();
      case MasterControl =>
      case SlaveDown =>
    }

    /** The action on exit, and the transition. */
    method MoveTo(next: SlaveState)
      requires Whole() && (state != SlaveDown ==> FramesFit(config, Value()))
      modifies `trace, `state
      ensures Whole() && (old(state) != SlaveDown ==> FramesFit(config, Value()))
      ensures var s := old(Value());
              Value() == (if next != s.state && s.state == MasterControl then Note(s, DisconnectCb) else s).(state := next)
    {
      hide ResponseFrame.Valid, FramesFit, HoldsTable;
      ghost var before := Value();
      if next != state && state == MasterControl {
        trace := trace + [DisconnectCb];
      }
      state := next;
      if before.state != SlaveDown {
        FramesStay(config, before, Value());
      }
    }

    /** The action on entry, and the state callback. */
    method Arrive(now: u32)
      requires Whole()
      modifies `trace, `memo, `master, receiveTimer, disablingTimer
      ensures Whole() && Value() == Note(EntryDone(old(Value()), old(state), now), StateCb(old(state)))
    {
      hide ResponseFrame.Valid, HoldsTable, EntryDone;
      PerformEntry(state, now);
      trace := trace + [StateCb(state)];
    }

    /** One turn of the loop. */
    method Turn(q: Incoming, now: u32, e: SlaveEvent) returns (next: SlaveEvent)
      requires Whole() && TurnLegal(config, Value(), q) && (state == SlaveDown ==> e == Startup)
      modifies Parts()
      ensures Whole()
      ensures var r := SlaveTurn(config, old(Value()), now, q, e); Value() == r.0 && next == r.1
    {
      hide FramesFit, SlaveActed, EntryDone, SlaveCell, HoldsTable, Whole, Value;
      var previous := state;
      StateOf();
      var cell := Entry(e);
      MoveTo(cell.next);
      DownCell(previous, e);
      next := PerformAction(q, now, cell.action);
      StateOf();
      if state != previous {
        Arrive(now);
      }
    }

    lemma StateOf()
      ensures Value().state == state
    {
    }

    /** The matrix element for the current state. */
    method Entry(e: SlaveEvent) returns (cell: Cell<SlaveState, SlaveAction>)
      requires Whole()
      ensures Whole() && Value() == old(Value())
      ensures cell == Cell(SlaveCell(state, e).0, SlaveCell(state, e).1)
    {
      hide HoldsTable, ResponseFrame.Valid, SlaveCell;
      SlaveEntry(matrix, state, e);
      cell := matrix.cells[state.Ord(), e.Ord()];
    }

    /** cls_iefb_fsm_event */
    method FsmEvent(q: Incoming, now: u32, e: SlaveEvent)
      requires Whole() && TurnLegal(config, Value(), q) && (state == SlaveDown ==> e == Startup)
      modifies Parts()
      ensures Whole() && Value() == SlaveEventStep(config, old(Value()), now, q, e)
    {
      hide ResponseFrame.Valid, FramesFit, SlaveTurn, SlaveEventStep;
      ghost var final := SlaveEventStep(config, Value(), now, q, e);
      var event := e;
      while true
        invariant Whole() && TurnLegal(config, Value(), q) && (state == SlaveDown ==> event == Startup)
        invariant SlaveEventStep(config, Value(), now, q, event) == final
        decreases SlaveTurns.Rank(event)
      {
        SlaveTurnsMakeEvent(config, Value(), now, q, event);
        event := Turn(q, now, event);
        if event == NoEvent {
          break;
        }
      }
    }

    // -------------------------------------------------------------- incoming requests

    /** Up and running: what every entry point keeps. */
    ghost predicate Up()
      reads Parts(), matrix.cells
    {
      Whole() && FramesFit(config, Value()) && state != SlaveDown
    }

    /** An event for a running slave. */
    method Raise(q: Incoming, now: u32, e: SlaveEvent)
      requires Up() && (q.Incoming? ==> q.r.WellFormed())
      modifies Parts()
      ensures Up() && Value() == SlaveEventStep(config, old(Value()), now, q, e)
    {
      hide ResponseFrame.Valid, FramesFit, HoldsTable, SlaveEventStep;
      FsmEvent(q, now, e);
    }

    /** cls_iefb_trigger_error_callback */
    method Report(o: SlaveOutput)
      requires Up()
      modifies `trace
      ensures Up() && Value() == Note(old(Value()), o)
    {
      hide ResponseFrame.Valid, FramesFit, HoldsTable;
      ghost var before := Value();
      trace := trace + [o];
      FramesStay(config, before, Value());
    }

    /** cls_iefb_search_slave_parameters, once the station is known. */
    method HandleOwnStation(q: Incoming, now: u32, station: u16)
      requires Up() && q.Incoming? && q.r.WellFormed()
      modifies Parts()
      ensures Up() && Value() == Matched(config, old(Value()), now, q, station)
    {
      hide ResponseFrame.Valid, FramesFit, HoldsTable, SlaveEventStep, MyBit;
      var on := MyBit(q.r.word, station);
      if state == WaitDisabling {
        if on {
          Raise(q, now, IncomingWhenDisabled);
        }
        return;
      }
      if state == MasterNone {
        if on {
          Report(ErrorReport(SlaveStationDuplication, IPADDR_INVALID, 0));
          return;
        }
        KeepStation(station);
        Raise(q, now, NewMaster);
        return;
      }
      if !IsMasterIdCorrect(q.r.masterId) {
        return;
      }
      if on {
        return;
      }
      KeepStation(station);
      Raise(q, now, NewMaster);
    }

    method KeepStation(station: u16)
      requires Up()
      modifies `master
      ensures Up() && Value() == old(Value()).(master := old(Value()).master.(station := station))
    {
      hide ResponseFrame.Valid, FramesFit, HoldsTable;
      ghost var before := Value();
      master := master.(station := station);
      FramesStay(config, before, Value());
    }

    /** cls_iefb_is_master_id_correct */
    predicate IsMasterIdCorrect(masterId: u32)
      reads this
    {
      master.masterId != IPADDR_INVALID && masterId == master.masterId
    }

    /** cls_iefb_search_slave_parameters */
    method SearchSlaveParameters(q: Incoming, now: u32)
      requires Up() && q.Incoming? && q.r.WellFormed()
      modifies Parts()
      ensures Up() && Value() == Searched(config, old(Value()), now, q)
    {
      hide ResponseFrame.Valid, FramesFit, HoldsTable, SlaveEventStep, Matched;
      var result := AnalyzeSlaveIds(q.localIp, q.r.ids);
      match result
      case SearchError =>
      case NotFound =>
      case Found(station, count) =>
        if count != config.stations {
          Report(ErrorReport(WrongNumberOccupied, IPADDR_INVALID, count % 0x1_0000));
          Raise(q, now, WrongStationCount);
        } else {
          HandleOwnStation(q, now, station);
        }
    }

    /** cls_iefb_handle_cyclic_input_frame, behind the parser. */
    method HandleCyclicInputFrame(q: Incoming, now: u32)
      requires Up() && q.Incoming? && q.r.WellFormed()
      modifies Parts()
      ensures Up() && Value() == HandleRequest(config, old(Value()), now, q)
    {
      hide ResponseFrame.Valid, FramesFit, HoldsTable, SlaveEventStep, Searched;
      if state == SlaveDisabled {
        return;
      }
      if state != MasterControl {
        SearchSlaveParameters(q, now);
        return;
      }
      if !IsMasterIdCorrect(q.r.masterId) {
        Raise(q, now, WrongMaster);
        return;
      }
      if q.r.parameterNo != master.parameterNo {
        SearchSlaveParameters(q, now);
        return;
      }
      if q.r.seqNo == 0 {
        SearchSlaveParameters(q, now);
        return;
      }
      if q.r.groupNo != master.groupNo {
        return;
      }
      var station := master.station;
      if station < 1 || station > MAX_STATIONS_PER_GROUP || station > |q.r.ids| {
        return;
      }
      if q.r.ids[station - 1] == IPADDR_INVALID {
        return;
      }
      if q.r.ids[station - 1] != q.localIp {
        return;
      }
      Raise(q, now, CorrectMaster);
    }

    /** cls_iefb_handle_input_frame */
    method HandleInputFrame(b: seq<byte>, remoteIp: u32, localIp: u32, now: u32)
      requires Up()
      modifies Parts()
      ensures Up() && Value() == Receive(config, old(Value()), now, b, remoteIp, localIp)
    {
      hide ResponseFrame.Valid, FramesFit, HoldsTable, HandleRequest, IsRequest, ValidRequestHeaders, DecodeRequest;
      if !IsRequest(b) {
        return;
      }
      if localIp == IPADDR_INVALID {
        return;
      }
      if !ValidRequestHeaders(b, remoteIp) {
        return;
      }
      SlaveInvariant.DecodedIsSendable(b, remoteIp);
      HandleCyclicInputFrame(Incoming(DecodeRequest(b), remoteIp, localIp), now);
    }

    // -------------------------------------------------------------- public functions

    /** cls_iefb_periodic, with the datagram the socket delivered, if any. */
    method Periodic(d: Datagram, now: u32)
      requires Up()
      modifies Parts()
      ensures Up() && Value() == Polled(config, old(Value()), now, d)
    {
      hide ResponseFrame.Valid, FramesFit, HoldsTable, Receive, SlaveEventStep, Expired, Whole, Value;
      if d.Datagram? {
        HandleInputFrame(d.bytes, d.remoteIp, d.localIp, now);
      }
      var due := IsDue(true, now);
      if due {
        StopTimer(true);
        Raise(NoRequest, now, TimeoutMaster);
      }
      due := IsDue(false, now);
      if due {
        StopTimer(false);
        Raise(NoRequest, now, DisableWaitEnded);
      }
    }

    /** cl_timer_is_expired; nothing changes. */
    method IsDue(receive: bool, now: u32) returns (due: bool)
      requires Up()
      ensures Up() && Value() == old(Value())
      ensures due == Expired(if receive then Value().receiveTimer else Value().disablingTimer, now)
    {
      hide ResponseFrame.Valid, FramesFit, HoldsTable, Expired;
      if receive {
        due := receiveTimer.IsExpired(now);
      } else {
        due := disablingTimer.IsExpired(now);
      }
    }

    method StopTimer(receive: bool)
      requires Up()
      modifies receiveTimer, disablingTimer
      ensures Up()
      ensures Value() == if receive then old(Value()).(receiveTimer := Stopped) else old(Value()).(disablingTimer := Stopped)
    {
      hide ResponseFrame.Valid, FramesFit, HoldsTable;
      ghost var before := Value();
      if receive {
        receiveTimer.Stop();
      } else {
        disablingTimer.Stop();
      }
      FramesStay(config, before, Value());
    }

    /** cls_iefb_disable_slave */
    method DisableSlaveNow(now: u32, isError: bool)
      requires Up()
      modifies Parts()
      ensures Up() && Value() == SlaveStep(config, old(Value()), Disable(now, isError))
    {
      hide ResponseFrame.Valid, FramesFit, HoldsTable, SlaveEventStep;
      ghost var before := Value();
      endCodeDisabled := if isError then ENDCODE_SLAVE_ERROR else ENDCODE_SLAVE_REQUESTS_DISCONNECT;
      FramesStay(config, before, Value());
      Raise(NoRequest, now, DisableSlave);
    }

    /** cls_iefb_reenable_slave */
    method ReenableSlaveNow(now: u32)
      requires Up()
      modifies Parts()
      ensures Up() && Value() == SlaveStep(config, old(Value()), Reenable(now))
    {
      hide SlaveEventStep, Whole, Value;
      Raise(NoRequest, now, ReenableSlave);
    }

    // -------------------------------------------------------------- access to cyclic data

    /** cls_iefb_set_rx_bit; the area number must lie inside the slave, as the source asserts. */
    method SetRxBit(number: u16, value: bool)
      requires Up() && number < 64 * config.stations
      modifies normal`content, normal.buffer
      ensures Up() && number / 8 < |old(Value()).normal.rx|
      ensures var s := old(Value());
              Value() == s.(normal := s.normal.(rx := FlatBitSet(s.normal.rx, 0, number, value)))
    {
      hide HoldsTable, ResponseFrame.Valid, FlatBitSet;
      normal.SetRxBit(number, value);
    }

    /** cls_iefb_set_rwr_value */
    method SetRwrValue(number: u16, value: u16)
      requires Up() && number < 32 * config.stations
      modifies normal`content, normal.buffer
      ensures Up() && 2 * number + 2 <= |old(Value()).normal.rwr|
      ensures var s := old(Value());
              Value() == s.(normal := s.normal.(rwr := FlatRegisterSet(s.normal.rwr, 0, number, value)))
    {
      hide HoldsTable, ResponseFrame.Valid, FlatRegisterSet;
      normal.SetRwrValue(number, value);
    }

    /** cls_iefb_get_ry_bit */
    method GetRyBit(number: u16) returns (value: bool)
      requires Up() && number < 64 * config.stations
      ensures number / 8 < |Value().ry| && value == FlatBit(Value().ry, 0, number)
    {
      hide HoldsTable, ResponseFrame.Valid, FlatBit;
      value := GetBit(ry, 0, number);
    }

    /** cls_iefb_get_rww_value */
    method GetRwwValue(number: u16) returns (value: u16)
      requires Up() && number < 32 * config.stations
      ensures 2 * number + 2 <= |Value().rww| && value == FlatRegister(Value().rww, 0, number)
    {
      hide HoldsTable, ResponseFrame.Valid, FlatRegister;
      value := GetRegister(rww, 0, number);
    }
  }

  /** cls_iefb_init and cls_fsm_init: a slave that runs as the model's initial state says. */
  method NewSlave(config: SlaveConfig, now: u32) returns (cls: Cls)
    requires ValidSlaveConfig(config)
    ensures fresh(cls) && cls.Up() && cls.config == config
    ensures cls.Value() == SlaveInit(config, now)
  {
    hide ResponseFrame.Valid, FramesFit, HoldsTable;
    cls := new Cls(config);
    AreasAreCleared(config, cls.Value(), now);
    cls.FsmEvent(NoRequest, now, Startup);
  }

  /** Initialisation clears the areas whatever they held. */
  lemma AreasAreCleared(cfg: SlaveConfig, s: Slave, now: u32)
    requires ValidSlaveConfig(cfg) && s == ZERO_SLAVE.(ry := s.ry, rww := s.rww)
    ensures SlaveEventStep(cfg, s, now, NoRequest, Startup) == SlaveInit(cfg, now)
  {
  }

  lemma DownCell(s: SlaveState, e: SlaveEvent)
    ensures SlaveCell(s, e).1 == InitSlave <==> s == SlaveDown && e == Startup
  {
  }

  lemma FramesStay(cfg: SlaveConfig, s: Slave, r: Slave)
    requires FramesFit(cfg, s) && SameFrames(s, r)
    ensures FramesFit(cfg, r)
  {
  }

  lemma FrameBytes(frame: ResponseFrame)
    requires frame.Valid()
    ensures frame.payloadLen <= frame.buffer.Length && frame.content.WellFormed()
    ensures frame.buffer[..frame.payloadLen] == EncodeResponse(frame.content)
  {
  }
}
