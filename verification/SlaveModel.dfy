/** The slave: its state machine, run to completion, and what it does with incoming requests
    (src/slave/cls_iefb.c). */
module SlaveModel {
  import opened Words
  import opened Buffers
  import opened Config
  import opened Layout
  import opened Timer
  import opened Frames
  import opened Responses

  datatype SlaveState = SlaveDown | MasterNone | MasterControl | SlaveDisabled | WaitDisabling {
    function Ord(): nat {
      match this
      case SlaveDown => 0
      case MasterNone => 1
      case MasterControl => 2
      case SlaveDisabled => 3
      case WaitDisabling => 4
    }
  }

  const SLAVE_STATES := [SlaveDown, MasterNone, MasterControl, SlaveDisabled, WaitDisabling]

  datatype SlaveEvent =
    | NoEvent | Startup | NewMaster | CorrectMaster | WrongMaster | WrongStationCount | IncomingWhenDisabled
    | TimeoutMaster | ReenableSlave | DisableSlave | DisableWaitEnded | IpUpdated
  {
    function Ord(): nat {
      match this
      case NoEvent => 0
      case Startup => 1
      case NewMaster => 2
      case CorrectMaster => 3
      case WrongMaster => 4
      case WrongStationCount => 5
      case IncomingWhenDisabled => 6
      case TimeoutMaster => 7
      case ReenableSlave => 8
      case DisableSlave => 9
      case DisableWaitEnded => 10
      case IpUpdated => 11
    }
  }

  const SLAVE_EVENTS := [
    NoEvent, Startup, NewMaster, CorrectMaster, WrongMaster, WrongStationCount, IncomingWhenDisabled,
    TimeoutMaster, ReenableSlave, DisableSlave, DisableWaitEnded, IpUpdated]

  datatype SlaveAction =
    | NoAction | InitSlave | TakeMaster | RejectStationCount | RejectMaster | HandleCyclic | RejectDisabled | LogOnly

  const CLS_MAX_OCCUPIED_STATIONS: StationLimit
  const WAIT_TIME_DISABLE_SLAVE: u32 := 2500000
  const DEFAULT_TIMEOUT := 500
  const DEFAULT_TIMEOUT_COUNT := 3

  datatype SlaveConfig = SlaveConfig(stations: u16, vendorCode: u16, modelCode: u32, equipmentVer: u16)

  /** The stations check of cls_validate_config. */
  predicate ValidSlaveConfig(cfg: SlaveConfig) {
    1 <= cfg.stations <= CLS_MAX_OCCUPIED_STATIONS
  }

  datatype MasterInfo = MasterInfo(
    masterId: u32, clock: u64, clockValid: bool, protocolVer: u16, groupNo: u16, parameterNo: u16,
    timeout: u16, offCount: u16, station: u16, total: u16)

  const NO_MASTER := MasterInfo(IPADDR_INVALID, 0, false, 0, 0, 0, 0, 0, 0, 0)

  /** What the last master state callback was about. */
  datatype Memo = Memo(executed: bool, connected: bool, protocolVer: u16, status: u16)

  datatype SlaveError = MasterDuplication | SlaveStationDuplication | WrongNumberOccupied

  datatype SlaveOutput =
    | Replied(ip: u32, response: Response, bytes: seq<byte>)
    | StateCb(state: SlaveState)
    | ConnectCb(masterId: u32, groupNo: u16, station: u16)
    | DisconnectCb
    | MasterStateCb(connected: bool, running: bool, stoppedByUser: bool, protocolVer: u16, status: u16)
    | ErrorReport(error: SlaveError, ip: u32, argument: u16)

  datatype Slave = Slave(
    state: SlaveState, master: MasterInfo, receiveTimer: TimerState, disablingTimer: TimerState, memo: Memo,
    ry: seq<byte>, rww: seq<byte>, normal: Response, error: Response,
    operating: bool, errCode: u16, mgmtInfo: u32, endCodeDisabled: u16, trace: seq<SlaveOutput>)

  /** A parsed request and the addresses of the datagram it came in. */
  datatype Incoming = NoRequest | Incoming(r: Request, remoteIp: u32, localIp: u32)

  // ---------------------------------------------------------------- pieces of the actions

  function Note(s: Slave, o: SlaveOutput): Slave {
    s.(trace := s.trace + [o])
  }

  /** cls_iefb_should_trigger_master_state_callback */
  predicate ShouldTrigger(memo: Memo, connected: bool, protocolVer: u16, status: u16) {
    || !memo.executed
    || connected != memo.connected
    || protocolVer != memo.protocolVer
    || status != memo.status
  }

  /** cls_iefb_filter_master_state_callback_values */
  function Filtered(connected: bool, protocolVer: u16, status: u16): SlaveOutput {
    if !connected then MasterStateCb(false, false, false, 0, 0)
    else
      var running := Bit(status, 0);
      MasterStateCb(true, running, protocolVer > 1 && !running && Bit(status, 1), protocolVer, status)
  }

  /** cls_iefb_handle_master_state_callback */
  function TellMasterState(s: Slave, connected: bool, protocolVer: u16, status: u16): Slave {
    var s1 := if ShouldTrigger(s.memo, connected, protocolVer, status) then Note(s, Filtered(connected, protocolVer, status)) else s;
    s1.(memo := Memo(true, connected, protocolVer, status))
  }

  /** Frames and data areas are the same. */
  predicate SameFrames(s: Slave, r: Slave) {
    r.normal == s.normal && r.error == s.error && r.ry == s.ry && r.rww == s.rww
  }

  /** cls_iefb_clear_master_info */
  function ClearMaster(s: Slave): (r: Slave)
    ensures SameFrames(s, r)
    ensures r.state == s.state
  {
    TellMasterState(s.(master := NO_MASTER, receiveTimer := Stopped, disablingTimer := Stopped), false, 0, 0)
  }

  /** cl_iefb_initialise_cyclic_response_frame */
  function BlankResponse(cfg: SlaveConfig): Response {
    Response(MAX_PROTOCOL_VER, ENDCODE_SUCCESS, cfg.vendorCode, cfg.modelCode, cfg.equipmentVer, 1, 0, 0,
             0, 0, 0, Zeros(WORD_AREA * cfg.stations), Zeros(BIT_AREA * cfg.stations))
  }

  /** cl_iefb_update_cyclic_response_frame */
  function WithHeader(r: Response, slaveId: u32, endCode: u16, groupNo: byte, seqNo: u16, s: Slave): Response {
    r.(slaveId := slaveId, endCode := endCode, groupNo := groupNo, seqNo := seqNo,
       unitInfo := if s.operating then 1 else 0, errCode := s.errCode, mgmtInfo := s.mgmtInfo)
  }

  /** What both prepared response frames keep: their size. */
  predicate FramesFit(cfg: SlaveConfig, s: Slave) {
    && ValidSlaveConfig(cfg)
    && s.normal.WellFormed() && s.normal.Stations() == cfg.stations
    && s.error.WellFormed() && s.error.Stations() == cfg.stations
    && |s.ry| == BIT_AREA * CLS_MAX_OCCUPIED_STATIONS
    && |s.rww| == WORD_AREA * CLS_MAX_OCCUPIED_STATIONS
  }

  /** cls_iefb_send_cyclic_response_frame: the normal frame with data, or the error frame. */
  function Reply(cfg: SlaveConfig, s: Slave, q: Incoming, includeData: bool, endCode: u16): (r: Slave)
    requires FramesFit(cfg, s) && q.Incoming?
    ensures FramesFit(cfg, r)
    ensures r.state == s.state
  {
    var frame := WithHeader(if includeData then s.normal else s.error, q.localIp, endCode, q.r.groupNo, q.r.seqNo, s);
    Note(if includeData then s.(normal := frame) else s.(error := frame),
         Replied(q.remoteIp, frame, EncodeResponse(frame)))
  }

  /** cl_calculate_total_timeout_us, and its cast to uint32_t. */
  function TotalTimeout(timeout: u16, offCount: u16): u32 {
    var t := if timeout < MIN_TIMEOUT then DEFAULT_TIMEOUT else timeout;
    var c := if offCount < MIN_TIMEOUT_COUNT then DEFAULT_TIMEOUT_COUNT else offCount;
    t * c % U32_MODULUS * 1000 % U32_MODULUS
  }

  /** cl_iefb_extract_my_transmission_state */
  predicate MyBit(word: u16, station: u16) {
    1 <= station <= MAX_STATIONS_PER_GROUP && And(word, Pow2(station - 1)) > 0
  }

  /** The checks of cls_iefb_copy_cyclic_data_from_request. */
  predicate CanCopy(cfg: SlaveConfig, total: nat, station: u16) {
    && 1 <= total <= MAX_STATIONS_PER_GROUP && cfg.stations <= total
    && 1 <= station <= MAX_STATIONS_PER_GROUP
    && (station + cfg.stations - 1) % 0x1_0000 <= MAX_STATIONS_PER_GROUP
    && (station + cfg.stations - 1) % 0x1_0000 <= total
  }

  /** cls_iefb_copy_cyclic_data_from_request, behind its checks. */
  function Copied(cfg: SlaveConfig, s: Slave, r: Request, station: u16, on: bool): (q: Slave)
    requires FramesFit(cfg, s) && r.WellFormed() && CanCopy(cfg, |r.ids|, station)
    ensures FramesFit(cfg, q)
    ensures q.state == s.state
  {
    var p, n := station - 1, cfg.stations;
    s.(ry := Splice(s.ry, 0, if on then r.ry[BIT_AREA * p..BIT_AREA * (p + n)] else Zeros(BIT_AREA * n)),
       rww := Splice(s.rww, 0, if on then r.rww[WORD_AREA * p..WORD_AREA * (p + n)] else Zeros(WORD_AREA * n)))
  }

  // ---------------------------------------------------------------- the actions

  /** cls_iefb_slave_init */
  function Initialised(cfg: SlaveConfig, s: Slave): (r: Slave)
    requires ValidSlaveConfig(cfg)
    ensures FramesFit(cfg, r)
  {
    var s1 := s.(receiveTimer := Stopped, disablingTimer := Stopped, memo := Memo(false, false, 0, 0),
                 ry := Zeros(BIT_AREA * CLS_MAX_OCCUPIED_STATIONS), rww := Zeros(WORD_AREA * CLS_MAX_OCCUPIED_STATIONS));
    BlankFits(cfg);
    ClearMaster(s1).(operating := true, mgmtInfo := 0, errCode := 0, endCodeDisabled := ENDCODE_SLAVE_REQUESTS_DISCONNECT,
                     normal := BlankResponse(cfg), error := BlankResponse(cfg))
  }

  lemma BlankFits(cfg: SlaveConfig)
    requires ValidSlaveConfig(cfg)
    ensures BlankResponse(cfg).WellFormed() && BlankResponse(cfg).Stations() == cfg.stations
  {
  }

  /** What the slave stores of a master; the station was stored by the search. */
  function MasterOf(s: Slave, q: Incoming): MasterInfo
    requires q.Incoming?
  {
    MasterInfo(q.r.masterId, q.r.clock, q.r.clock != 0, q.r.protocolVer, q.r.groupNo, q.r.parameterNo,
               q.r.timeout, q.r.offCount, s.master.station, |q.r.ids| % 0x1_0000)
  }

  /** cls_iefb_handle_new_or_updated_master */
  function TakenMaster(cfg: SlaveConfig, s: Slave, now: u32, q: Incoming): (r: Slave)
    requires FramesFit(cfg, s) && q.Incoming?
    ensures FramesFit(cfg, r)
    ensures r.state == s.state
  {
    var m := MasterOf(s, q);
    var s1 := s.(master := m, receiveTimer := TimerState.Running(TotalTimeout(q.r.timeout, q.r.offCount), now));
    TellMasterState(Note(s1, ConnectCb(m.masterId, m.groupNo, m.station)), true, q.r.protocolVer, q.r.unitInfo)
  }

  /** cls_iefb_handle_cyclic_event */
  function Exchanged(cfg: SlaveConfig, s: Slave, now: u32, q: Incoming): (r: Slave)
    requires FramesFit(cfg, s) && q.Incoming? && q.r.WellFormed()
    ensures FramesFit(cfg, r)
    ensures r.state == s.state
  {
    if !CanCopy(cfg, |q.r.ids|, s.master.station) then s
    else
      var on := MyBit(q.r.word, s.master.station);
      var s1 := Copied(cfg, s, q.r, s.master.station, on);
      var s2 := s1.(master := s1.master.(clock := q.r.clock, clockValid := q.r.clock != 0));
      var s3 := TellMasterState(s2, true, q.r.protocolVer, q.r.unitInfo);
      var s4 := Reply(cfg, s3, q, on, ENDCODE_SUCCESS);
      if s4.receiveTimer.Running? then s4.(receiveTimer := TimerState.Running(s4.receiveTimer.period, now)) else s4
  }

  // ---------------------------------------------------------------- one event, run to completion

  function Entered(s: Slave, next: SlaveState): Slave {
    Note(s, StateCb(next))
  }

  /** To MASTER_NONE, with its entry action. */
  function ToNone(s: Slave): (r: Slave)
    ensures SameFrames(s, r)
    ensures r.state == MasterNone
  {
    Entered(ClearMaster(s.(state := MasterNone)), MasterNone)
  }

  /** To SLAVE_DISABLED, with its entry action. */
  function ToDisabled(s: Slave): (r: Slave)
    ensures SameFrames(s, r)
    ensures r.state == SlaveDisabled
  {
    Entered(s.(state := SlaveDisabled, disablingTimer := Stopped), SlaveDisabled)
  }

  /** To WAIT_DISABLING_SLAVE, with its entry action. */
  function ToWait(s: Slave, now: u32): (r: Slave)
    ensures SameFrames(s, r)
    ensures r.state == WaitDisabling
  {
    Entered(ClearMaster(s.(state := WaitDisabling)).(disablingTimer := TimerState.Running(WAIT_TIME_DISABLE_SLAVE, now)),
            WaitDisabling)
  }

  function Rejected(cfg: SlaveConfig, s: Slave, q: Incoming, endCode: u16): (r: Slave)
    requires FramesFit(cfg, s)
    ensures FramesFit(cfg, r)
    ensures r.state == s.state
  {
    if q.NoRequest? then s else Reply(cfg, s, q, false, endCode)
  }

  /** A new or updated master, and the cyclic data exchange that follows at once. */
  function Connected(cfg: SlaveConfig, s: Slave, now: u32, q: Incoming, entering: bool): (r: Slave)
    requires FramesFit(cfg, s) && (q.Incoming? ==> q.r.WellFormed())
    ensures FramesFit(cfg, r)
    ensures r.state == s.state
  {
    var s1 := if q.NoRequest? then s else TakenMaster(cfg, s, now, q);
    var s2 := if entering then Entered(s1, MasterControl) else s1;
    if q.NoRequest? then s2 else Exchanged(cfg, s2, now, q)
  }

  function InMasterNone(cfg: SlaveConfig, s: Slave, now: u32, q: Incoming, e: SlaveEvent): (r: Slave)
    requires FramesFit(cfg, s) && (q.Incoming? ==> q.r.WellFormed())
    ensures FramesFit(cfg, r)
    ensures s.state != SlaveDown ==> r.state != SlaveDown
  {
    hide Connected, Rejected, ToDisabled;
    if e == NewMaster then Connected(cfg, s.(state := MasterControl), now, q, true)
    else if e == WrongStationCount then Rejected(cfg, s, q, ENDCODE_WRONG_NUMBER_OCCUPIED)
    else if e == DisableSlave then ToDisabled(s)
    else s
  }

  function InMasterControl(cfg: SlaveConfig, s: Slave, now: u32, q: Incoming, e: SlaveEvent): (r: Slave)
    requires FramesFit(cfg, s) && (q.Incoming? ==> q.r.WellFormed())
    ensures FramesFit(cfg, r)
    ensures s.state != SlaveDown ==> r.state != SlaveDown
  {
    hide Connected, Rejected, Reply, Exchanged, ToNone, ToWait;
    if e == CorrectMaster then (if q.NoRequest? then s else Exchanged(cfg, s, now, q))
    else if e == WrongMaster then
      (if q.NoRequest? then s
       else Reply(cfg, Note(s, ErrorReport(MasterDuplication, q.r.masterId, 0)), q, false, ENDCODE_MASTER_DUPLICATION))
    else if e == NewMaster then Connected(cfg, s, now, q, false)
    else if e == WrongStationCount then
      ToNone(Rejected(cfg, Note(s, DisconnectCb).(state := MasterNone), q, ENDCODE_WRONG_NUMBER_OCCUPIED))
    else if e == TimeoutMaster || e == IpUpdated then ToNone(Note(s, DisconnectCb))
    else if e == DisableSlave then ToWait(Note(s, DisconnectCb), now)
    else s
  }

  function InWaitDisabling(cfg: SlaveConfig, s: Slave, q: Incoming, e: SlaveEvent): (r: Slave)
    requires FramesFit(cfg, s)
    ensures FramesFit(cfg, r)
    ensures s.state != SlaveDown ==> r.state != SlaveDown
  {
    hide Rejected, ToNone, ToDisabled;
    if e == ReenableSlave then ToNone(s)
    else if e == IncomingWhenDisabled then Rejected(cfg, s, q, s.endCodeDisabled)
    else if e == DisableWaitEnded || e == IpUpdated then ToDisabled(s)
    else s
  }

  /** One slave event and everything it sets off. */
  function SlaveEventStep(cfg: SlaveConfig, s: Slave, now: u32, q: Incoming, e: SlaveEvent): (r: Slave)
    requires ValidSlaveConfig(cfg) && (s.state != SlaveDown ==> FramesFit(cfg, s)) && (q.Incoming? ==> q.r.WellFormed())
    ensures s.state != SlaveDown || e == Startup ==> FramesFit(cfg, r)
    ensures s.state != SlaveDown || e == Startup ==> r.state != SlaveDown
  {
    hide Initialised, InMasterNone, InMasterControl, InWaitDisabling, ToNone;
    match s.state
    case SlaveDown => if e == Startup then ToNone(Initialised(cfg, s.(state := MasterNone))) else s
    case MasterNone => InMasterNone(cfg, s, now, q, e)
    case MasterControl => InMasterControl(cfg, s, now, q, e)
    case WaitDisabling => InWaitDisabling(cfg, s, q, e)
    case SlaveDisabled => if e == ReenableSlave then ToNone(s) else s
  }

  // ---------------------------------------------------------------- incoming requests

  /** cls_iefb_search_slave_parameters. The state is none of the two that discard frames. */
  function Searched(cfg: SlaveConfig, s: Slave, now: u32, q: Incoming): (r: Slave)
    requires FramesFit(cfg, s) && q.Incoming? && q.r.WellFormed() && s.state != SlaveDown
    ensures FramesFit(cfg, r)
    ensures r.state != SlaveDown
  {
    match SearchSlaveId(q.localIp, q.r.ids)
    case SearchError => s
    case NotFound => s
    case Found(station, count) =>
      if count != cfg.stations then
        SlaveEventStep(cfg, Note(s, ErrorReport(WrongNumberOccupied, IPADDR_INVALID, count % 0x1_0000)), now, q, WrongStationCount)
      else Matched(cfg, s, now, q, station)
  }

  /** The rest of it, once the slave found its own address with the right number of stations. */
  function Matched(cfg: SlaveConfig, s: Slave, now: u32, q: Incoming, station: u16): (r: Slave)
    requires FramesFit(cfg, s) && q.Incoming? && q.r.WellFormed() && s.state != SlaveDown
    ensures FramesFit(cfg, r)
    ensures r.state != SlaveDown
  {
    var on := MyBit(q.r.word, station);
    if s.state == WaitDisabling then
      (if on then SlaveEventStep(cfg, s, now, q, IncomingWhenDisabled) else s)
    else if s.state == MasterNone then
      (if on then Note(s, ErrorReport(SlaveStationDuplication, IPADDR_INVALID, 0))
       else SlaveEventStep(cfg, s.(master := s.master.(station := station)), now, q, NewMaster))
    else if !IsMyMaster(s, q.r.masterId) || on then s
    else SlaveEventStep(cfg, s.(master := s.master.(station := station)), now, q, NewMaster)
  }

  /** cls_iefb_is_master_id_correct */
  predicate IsMyMaster(s: Slave, masterId: u32) {
    s.master.masterId != IPADDR_INVALID && masterId == s.master.masterId
  }

  /** The master-control part of cls_iefb_handle_cyclic_input_frame. */
  function Served(cfg: SlaveConfig, s: Slave, now: u32, q: Incoming): (r: Slave)
    requires FramesFit(cfg, s) && q.Incoming? && q.r.WellFormed() && s.state == MasterControl
    ensures FramesFit(cfg, r)
    ensures r.state != SlaveDown
  {
    if !IsMyMaster(s, q.r.masterId) then SlaveEventStep(cfg, s, now, q, WrongMaster)
    else if q.r.parameterNo != s.master.parameterNo || q.r.seqNo == 0 then Searched(cfg, s, now, q)
    else if q.r.groupNo != s.master.groupNo then s
    else if !(1 <= s.master.station <= MAX_STATIONS_PER_GROUP && s.master.station <= |q.r.ids|) then s
    else if q.r.ids[s.master.station - 1] == IPADDR_INVALID || q.r.ids[s.master.station - 1] != q.localIp then s
    else SlaveEventStep(cfg, s, now, q, CorrectMaster)
  }

  /** cls_iefb_handle_cyclic_input_frame, behind the parser. */
  function HandleRequest(cfg: SlaveConfig, s: Slave, now: u32, q: Incoming): (r: Slave)
    requires FramesFit(cfg, s) && q.Incoming? && q.r.WellFormed() && s.state != SlaveDown
    ensures FramesFit(cfg, r)
    ensures r.state != SlaveDown
  {
    if s.state == SlaveDisabled then s
    else if s.state != MasterControl then Searched(cfg, s, now, q)
    else Served(cfg, s, now, q)
  }

  /** cls_iefb_handle_input_frame */
  function Receive(cfg: SlaveConfig, s: Slave, now: u32, b: seq<byte>, remoteIp: u32, localIp: u32): (r: Slave)
    requires FramesFit(cfg, s) && s.state != SlaveDown
    ensures FramesFit(cfg, r)
    ensures r.state != SlaveDown
  {
    if !IsRequest(b) || localIp == IPADDR_INVALID || !ValidRequestHeaders(b, remoteIp) then s
    else
      AcceptedIsEncoded(b, remoteIp);
      HandleRequest(cfg, s, now, Incoming(DecodeRequest(b), remoteIp, localIp))
  }

  /** The timers of cls_iefb_periodic. */
  function ReceiveTimerChecked(cfg: SlaveConfig, s: Slave, now: u32): (r: Slave)
    requires FramesFit(cfg, s) && s.state != SlaveDown
    ensures FramesFit(cfg, r)
    ensures r.state != SlaveDown
  {
    if Expired(s.receiveTimer, now) then SlaveEventStep(cfg, s.(receiveTimer := Stopped), now, NoRequest, TimeoutMaster) else s
  }

  function DisablingTimerChecked(cfg: SlaveConfig, s: Slave, now: u32): (r: Slave)
    requires FramesFit(cfg, s) && s.state != SlaveDown
    ensures FramesFit(cfg, r)
    ensures r.state != SlaveDown
  {
    if Expired(s.disablingTimer, now) then SlaveEventStep(cfg, s.(disablingTimer := Stopped), now, NoRequest, DisableWaitEnded)
    else s
  }

  // ---------------------------------------------------------------- runs

  datatype Datagram = NoDatagram | Datagram(bytes: seq<byte>, remoteIp: u32, localIp: u32)

  datatype SlaveInput =
    | Poll(now: u32, datagram: Datagram)
    | Disable(now: u32, isError: bool)
    | Reenable(now: u32)
    | SetStatus(operating: bool, errCode: u16, mgmtInfo: u32)
    | WriteInputs(rwr: seq<byte>, rx: seq<byte>)

  /** The application writes whole input areas of the configured size. */
  predicate AllowedInput(cfg: SlaveConfig, input: SlaveInput) {
    input.WriteInputs? ==> |input.rwr| == WORD_AREA * cfg.stations && |input.rx| == BIT_AREA * cfg.stations
  }

  function ReceivedAny(cfg: SlaveConfig, s: Slave, now: u32, d: Datagram): (r: Slave)
    requires FramesFit(cfg, s) && s.state != SlaveDown
    ensures FramesFit(cfg, r)
    ensures r.state != SlaveDown
  {
    if d.Datagram? then Receive(cfg, s, now, d.bytes, d.remoteIp, d.localIp) else s
  }

  function Polled(cfg: SlaveConfig, s: Slave, now: u32, d: Datagram): (r: Slave)
    requires FramesFit(cfg, s) && s.state != SlaveDown
    ensures FramesFit(cfg, r) && r.state != SlaveDown
  {
    hide SlaveEventStep, Receive;
    DisablingTimerChecked(cfg, ReceiveTimerChecked(cfg, ReceivedAny(cfg, s, now, d), now), now)
  }

  /** RX and RWr as the application writes them, into the frame for normal responses. */
  function WithInputs(cfg: SlaveConfig, s: Slave, rwr: seq<byte>, rx: seq<byte>): (r: Slave)
    requires FramesFit(cfg, s) && |rwr| == WORD_AREA * cfg.stations && |rx| == BIT_AREA * cfg.stations
    ensures FramesFit(cfg, r) && r.state == s.state
  {
    s.(normal := s.normal.(rwr := rwr, rx := rx))
  }

  function SlaveStep(cfg: SlaveConfig, s: Slave, input: SlaveInput): (r: Slave)
    requires FramesFit(cfg, s) && s.state != SlaveDown && AllowedInput(cfg, input)
    ensures FramesFit(cfg, r) && r.state != SlaveDown
  {
    hide SlaveEventStep;
    match input
    case Poll(now, d) => Polled(cfg, s, now, d)
    case Disable(now, isError) =>
      SlaveEventStep(cfg, s.(endCodeDisabled := if isError then ENDCODE_SLAVE_ERROR else ENDCODE_SLAVE_REQUESTS_DISCONNECT),
                     now, NoRequest, DisableSlave)
    case Reenable(now) => SlaveEventStep(cfg, s, now, NoRequest, ReenableSlave)
    case SetStatus(operating, errCode, mgmtInfo) => s.(operating := operating, errCode := errCode, mgmtInfo := mgmtInfo)
    case WriteInputs(rwr, rx) => WithInputs(cfg, s, rwr, rx)
  }

  /** A slave in zeroed memory. */
  const ZERO_SLAVE := Slave(
    SlaveDown, NO_MASTER, Stopped, Stopped, Memo(false, false, 0, 0), [], [],
    Response(0, 0, 0, 0, 0, 0, 0, 0, 0, 0, 0, [], []), Response(0, 0, 0, 0, 0, 0, 0, 0, 0, 0, 0, [], []),
    false, 0, 0, 0, [])

  /** cls_fsm_init */
  function SlaveInit(cfg: SlaveConfig, now: u32): (r: Slave)
    requires ValidSlaveConfig(cfg)
    ensures FramesFit(cfg, r) && r.state != SlaveDown
  {
    SlaveEventStep(cfg, ZERO_SLAVE, now, NoRequest, Startup)
  }

  function SlaveRun(cfg: SlaveConfig, s: Slave, inputs: seq<SlaveInput>): (r: Slave)
    requires FramesFit(cfg, s) && s.state != SlaveDown && forall k :: 0 <= k < |inputs| ==> AllowedInput(cfg, inputs[k])
    ensures FramesFit(cfg, r) && r.state != SlaveDown
  {
    hide SlaveStep;
    if inputs == [] then s
    else SlaveStep(cfg, SlaveRun(cfg, s, inputs[..|inputs| - 1]), inputs[|inputs| - 1])
  }
}
