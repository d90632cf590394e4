/** The slave's transition table, and one turn of its event loop. */
module SlaveTurns {
  import opened Words
  import opened Timer
  import opened Frames
  import opened Responses
  import opened Fsm
  import opened SlaveModel

  type SlaveRow = Row<SlaveState, SlaveEvent, SlaveAction>

  /** The rows of the table that leave one state. */
  function RowsFrom(s: SlaveState): seq<SlaveRow> {
    match s
    case SlaveDown => [
      Row(SlaveDown, Startup, MasterNone, InitSlave)]
    case MasterNone => [
      Row(MasterNone, NewMaster, MasterControl, TakeMaster),
      Row(MasterNone, WrongStationCount, MasterNone, RejectStationCount),
      Row(MasterNone, DisableSlave, SlaveDisabled, LogOnly)]
    case MasterControl => [
      Row(MasterControl, CorrectMaster, MasterControl, HandleCyclic),
      Row(MasterControl, WrongMaster, MasterControl, RejectMaster),
      Row(MasterControl, NewMaster, MasterControl, TakeMaster),
      Row(MasterControl, WrongStationCount, MasterNone, RejectStationCount),
      Row(MasterControl, TimeoutMaster, MasterNone, LogOnly),
      Row(MasterControl, IpUpdated, MasterNone, LogOnly),
      Row(MasterControl, DisableSlave, WaitDisabling, LogOnly)]
    case WaitDisabling => [
      Row(WaitDisabling, ReenableSlave, MasterNone, LogOnly),
      Row(WaitDisabling, IncomingWhenDisabled, WaitDisabling, RejectDisabled),
      Row(WaitDisabling, DisableWaitEnded, SlaveDisabled, NoAction),
      Row(WaitDisabling, IpUpdated, SlaveDisabled, LogOnly)]
    case SlaveDisabled => [
      Row(SlaveDisabled, ReenableSlave, MasterNone, LogOnly)]
  }

  function SlaveTransitions(): seq<SlaveRow> {
    RowsFrom(SlaveDown) + RowsFrom(MasterNone) + RowsFrom(MasterControl) + RowsFrom(WaitDisabling) + RowsFrom(SlaveDisabled)
  }

  /** What the matrix holds, state by state. */
  function SlaveCell(s: SlaveState, e: SlaveEvent): (SlaveState, SlaveAction) {
    match s
    case SlaveDown => if e == Startup then (MasterNone, InitSlave) else (s, NoAction)
    case MasterNone => (
      match e
      case NewMaster => (MasterControl, TakeMaster)
      case WrongStationCount => (MasterNone, RejectStationCount)
      case DisableSlave => (SlaveDisabled, LogOnly)
      case _ => (s, NoAction))
    case MasterControl => (
      match e
      case CorrectMaster => (MasterControl, HandleCyclic)
      case WrongMaster => (MasterControl, RejectMaster)
      case NewMaster => (MasterControl, TakeMaster)
      case WrongStationCount => (MasterNone, RejectStationCount)
      case TimeoutMaster => (MasterNone, LogOnly)
      case IpUpdated => (MasterNone, LogOnly)
      case DisableSlave => (WaitDisabling, LogOnly)
      case _ => (s, NoAction))
    case WaitDisabling => (
      match e
      case ReenableSlave => (MasterNone, LogOnly)
      case IncomingWhenDisabled => (WaitDisabling, RejectDisabled)
      case DisableWaitEnded => (SlaveDisabled, NoAction)
      case IpUpdated => (SlaveDisabled, LogOnly)
      case _ => (s, NoAction))
    case SlaveDisabled => if e == ReenableSlave then (MasterNone, LogOnly) else (s, NoAction)
  }

  predicate IsCell(s: SlaveState, r: SlaveRow) {
    r.state == s && (r.next, r.action) == SlaveCell(s, r.event)
  }

  lemma RowsAgree(s: SlaveState)
    ensures forall k :: 0 <= k < |RowsFrom(s)| ==> IsCell(s, RowsFrom(s)[k])
  {
  }

  lemma CellsAreRows(s: SlaveState, e: SlaveEvent)
    ensures SlaveCell(s, e) != (s, NoAction) ==> Row(s, e, SlaveCell(s, e).0, SlaveCell(s, e).1) in RowsFrom(s)
  {
  }

  lemma RowsOfOneState(r: SlaveRow, s: SlaveState)
    requires r in RowsFrom(s)
    ensures IsCell(s, r)
  {
    RowsAgree(s);
    var k :| 0 <= k < |RowsFrom(s)| && RowsFrom(s)[k] == r;
  }

  lemma TableRows(r: SlaveRow)
    ensures r in SlaveTransitions() <==> r in RowsFrom(r.state)
  {
    forall s | r in RowsFrom(s) ensures s == r.state {
      RowsOfOneState(r, s);
    }
  }

  /** The matrix built from the table holds exactly these cells. */
  lemma SlaveMatrixIsCells(s: SlaveState, e: SlaveEvent)
    ensures Lookup(SlaveTransitions(), s, e, NoAction) == Cell(SlaveCell(s, e).0, SlaveCell(s, e).1)
  {
    var c := Lookup(SlaveTransitions(), s, e, NoAction);
    var r, key := Row(s, e, c.next, c.action), Row(s, e, SlaveCell(s, e).0, SlaveCell(s, e).1);
    LookupCases(SlaveTransitions(), s, e, NoAction);
    TableRows(r);
    TableRows(key);
    CellsAreRows(s, e);
    if r in RowsFrom(s) {
      RowsOfOneState(r, s);
    }
  }

  // ---------------------------------------------------------------- one turn of the loop

  function Rank(e: SlaveEvent): nat {
    if e == NoEvent then 0 else if e == CorrectMaster then 1 else 2
  }

  /** The slave after an action, and the event the action asks for. */
  function SlaveActed(cfg: SlaveConfig, s: Slave, now: u32, q: Incoming, a: SlaveAction): (r: (Slave, SlaveEvent))
    requires ValidSlaveConfig(cfg) && (a != InitSlave ==> FramesFit(cfg, s)) && (q.Incoming? ==> q.r.WellFormed())
    ensures FramesFit(cfg, r.0) && r.0.state == s.state
  {
    hide Initialised, TakenMaster, Reply, Exchanged, FramesFit;
    match a
    case NoAction => (s, NoEvent)
    case LogOnly => (s, NoEvent)
    case InitSlave => (InitialisedState(cfg, s), NoEvent)
    case TakeMaster => if q.NoRequest? then (s, NoEvent) else (TakenMaster(cfg, s, now, q), CorrectMaster)
    case HandleCyclic => (if q.NoRequest? then s else Exchanged(cfg, s, now, q), NoEvent)
    case RejectStationCount => (SlaveModel.Rejected(cfg, s, q, ENDCODE_WRONG_NUMBER_OCCUPIED), NoEvent)
    case RejectDisabled => (SlaveModel.Rejected(cfg, s, q, s.endCodeDisabled), NoEvent)
    case RejectMaster =>
      if q.NoRequest? then (s, NoEvent)
      else
        var s1 := Note(s, ErrorReport(MasterDuplication, q.r.masterId, 0));
        NoteFits(cfg, s, ErrorReport(MasterDuplication, q.r.masterId, 0));
        (Reply(cfg, s1, q, false, ENDCODE_MASTER_DUPLICATION), NoEvent)
  }

  function InitialisedState(cfg: SlaveConfig, s: Slave): (r: Slave)
    requires ValidSlaveConfig(cfg)
    ensures FramesFit(cfg, r) && r.state == s.state
  {
    Initialised(cfg, s)
  }

  lemma NoteFits(cfg: SlaveConfig, s: Slave, o: SlaveOutput)
    requires FramesFit(cfg, s)
    ensures FramesFit(cfg, Note(s, o))
  {
  }

  /** state_actions, on entry */
  function EntryDone(s: Slave, next: SlaveState, now: u32): (r: Slave)
    ensures SameFrames(s, r) && r.state == s.state
  {
    match next
    case MasterNone => ClearMaster(s)
    case WaitDisabling => ClearMaster(s).(disablingTimer := TimerState.Running(WAIT_TIME_DISABLE_SLAVE, now))
    case SlaveDisabled => s.(disablingTimer := Stopped)
    case MasterControl => s
    case SlaveDown => s
  }

  predicate TurnLegal(cfg: SlaveConfig, s: Slave, q: Incoming) {
    ValidSlaveConfig(cfg) && (s.state != SlaveDown ==> FramesFit(cfg, s)) && (q.Incoming? ==> q.r.WellFormed())
  }

  /** One turn of the loop in cls_iefb_fsm_event: action on exit, new state, action, action on
      entry, state callback. */
  function SlaveTurn(cfg: SlaveConfig, s: Slave, now: u32, q: Incoming, e: SlaveEvent): (r: (Slave, SlaveEvent))
    requires TurnLegal(cfg, s, q) && (s.state == SlaveDown ==> e == Startup)
    ensures FramesFit(cfg, r.0)
  {
    hide SlaveActed, ClearMaster;
    var cell := SlaveCell(s.state, e);
    var moved := cell.0 != s.state;
    var s1 := if moved && s.state == MasterControl then Note(s, DisconnectCb) else s;
    var (s2, next) := SlaveActed(cfg, s1.(state := cell.0), now, q, cell.1);
    var s3 := if moved then EntryDone(s2, cell.0, now) else s2;
    (if moved then Note(s3, StateCb(cell.0)) else s3, next)
  }

  /** What a turn of the loop must satisfy: the big step is the turn and the rest. */
  predicate TurnFits(cfg: SlaveConfig, s: Slave, now: u32, q: Incoming, e: SlaveEvent)
    requires TurnLegal(cfg, s, q) && (s.state == SlaveDown ==> e == Startup)
  {
    var (s1, next) := SlaveTurn(cfg, s, now, q, e);
    && (next != NoEvent ==> Rank(next) < Rank(e))
    && TurnLegal(cfg, s1, q) && s1.state != SlaveDown
    && SlaveEventStep(cfg, s, now, q, e) == if next == NoEvent then s1 else SlaveEventStep(cfg, s1, now, q, next)
  }

  predicate KeepsControl(e: SlaveEvent) {
    e == NewMaster || e == CorrectMaster || e == WrongMaster
  }

  lemma TurnsWithinControl(cfg: SlaveConfig, s: Slave, now: u32, q: Incoming, e: SlaveEvent)
    requires TurnLegal(cfg, s, q) && s.state == MasterControl && KeepsControl(e)
    ensures TurnFits(cfg, s, now, q, e)
  {
    hide TakenMaster, Reply, Exchanged, FramesFit, ClearMaster;
  }

  lemma TurnsOutOfControl(cfg: SlaveConfig, s: Slave, now: u32, q: Incoming, e: SlaveEvent)
    requires TurnLegal(cfg, s, q) && s.state == MasterControl && !KeepsControl(e)
    ensures TurnFits(cfg, s, now, q, e)
  {
    hide TakenMaster, Reply, Exchanged, FramesFit, ClearMaster;
  }

  lemma TurnsInMasterNone(cfg: SlaveConfig, s: Slave, now: u32, q: Incoming, e: SlaveEvent)
    requires TurnLegal(cfg, s, q) && s.state == MasterNone
    ensures TurnFits(cfg, s, now, q, e)
  {
    hide TakenMaster, Reply, Exchanged, FramesFit, ClearMaster;
  }

  lemma TurnsWhenDown(cfg: SlaveConfig, s: Slave, now: u32, q: Incoming, e: SlaveEvent)
    requires TurnLegal(cfg, s, q) && s.state == SlaveDown && e == Startup
    ensures TurnFits(cfg, s, now, q, e)
  {
    hide Initialised, TakenMaster, Reply, Exchanged, FramesFit, ClearMaster;
  }

  lemma TurnsWhileWaiting(cfg: SlaveConfig, s: Slave, now: u32, q: Incoming, e: SlaveEvent)
    requires TurnLegal(cfg, s, q) && s.state == WaitDisabling
    ensures TurnFits(cfg, s, now, q, e)
  {
    hide Initialised, TakenMaster, Reply, Exchanged, FramesFit, ClearMaster;
  }

  lemma TurnsWhenDisabled(cfg: SlaveConfig, s: Slave, now: u32, q: Incoming, e: SlaveEvent)
    requires TurnLegal(cfg, s, q) && s.state == SlaveDisabled
    ensures TurnFits(cfg, s, now, q, e)
  {
    hide Initialised, TakenMaster, Reply, Exchanged, FramesFit, ClearMaster;
  }

  /** Turn by turn the loop makes the big step of the model. */
  lemma SlaveTurnsMakeEvent(cfg: SlaveConfig, s: Slave, now: u32, q: Incoming, e: SlaveEvent)
    requires TurnLegal(cfg, s, q) && (s.state == SlaveDown ==> e == Startup)
    ensures TurnFits(cfg, s, now, q, e)
  {
    hide TurnFits;
    if s.state == MasterControl {
      if KeepsControl(e) {
        TurnsWithinControl(cfg, s, now, q, e);
      } else {
        TurnsOutOfControl(cfg, s, now, q, e);
      }
    } else if s.state == MasterNone {
      TurnsInMasterNone(cfg, s, now, q, e);
    } else if s.state == WaitDisabling {
      TurnsWhileWaiting(cfg, s, now, q, e);
    } else if s.state == SlaveDisabled {
      TurnsWhenDisabled(cfg, s, now, q, e);
    } else {
      TurnsWhenDown(cfg, s, now, q, e);
    }
  }
}
