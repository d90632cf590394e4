/** One turn of the group event loop, and the proof that the turns make the big step of the model. */
module GroupTurns {
  import opened Config
  import opened Timer
  import opened GroupModel
  import D = DeviceModel

  function Rank(e: GroupEvent): nat {
    if e == NoEvent then 0 else if e == LinkScanStart then 1 else 2
  }

  /** The common part of clm_iefb_on_linkscan_timeout and clm_iefb_on_linkscan_complete. */
  function ScanEnd(setting: GroupSetting, gi: nat, c: Scope, e: D.DeviceEvent, success: bool): (r: Scope)
    requires LaidOut(setting, c.g) && ValidGroupSetting(setting)
    requires e == D.GroupTimeout || e == D.GroupAllResponded
    ensures LaidOut(setting, r.g) && r.g.state == c.g.state
  {
    var c1 := Deliver(setting, gi, c, 0, ToAll(e));
    Scope(Note(c1.sh, LinkScanCb(gi, success)), c1.g.(seqNo := NextSeqNo(c1.g.seqNo)))
  }

  /** Actions that need a configured frame. */
  predicate NeedsFrame(a: GroupAction) {
    a == StartScan || a == ScanTimedOut || a == ScanCompleted
  }

  /** The scope after a group action, and the event the action asks for. */
  function GroupActed(cfg: MasterConfig, setting: GroupSetting, gi: nat, c: Scope, t: Clock, a: GroupAction): (r: (Scope, GroupEvent))
    requires Sized(setting, c.g) && ValidGroupSetting(setting) && (NeedsFrame(a) ==> LaidOut(setting, c.g))
    ensures Sized(setting, r.0.g) && r.0.g.state == c.g.state
    ensures LaidOut(setting, c.g) && a != InitGroup ==> LaidOut(setting, r.0.g)
    ensures a == ReflectNewConfig ==> LaidOut(setting, r.0.g)
  {
    hide Deliver, BeginScan, Reflected;
    match a
    case NoAction => (c, NoEvent)
    case InitGroup => (InitGroupData(setting, gi, c), NoEvent)
    case ReflectNewConfig => (TakeConfig(cfg, setting, gi, c, t), NoEvent)
    case ArbitrationFailed => (Scope(Note(c.sh, ErrorReport(ArbitrationLost, c.sh.conflictIp)), c.g), NoEvent)
    case StartFirstScan => (c, LinkScanStart)
    case StartScan => (BeginScan(setting, gi, c, t), NoEvent)
    case ScanTimedOut => (ScanEnd(setting, gi, c, D.GroupTimeout, false), LinkScanStart)
    case ScanCompleted =>
      TimerOff(setting, c.g);
      (ScanEnd(setting, gi, Scope(c.sh, c.g.(responseTimer := Stopped)), D.GroupAllResponded, true),
       if setting.constantScan then NoEvent else LinkScanStart)
  }

  lemma TimerOff(setting: GroupSetting, g: Group)
    requires LaidOut(setting, g)
    ensures LaidOut(setting, g.(responseTimer := Stopped))
  {
  }

  /** group_state_actions: what happens on entry to a state. */
  function GroupEntered(setting: GroupSetting, gi: nat, c: Scope, s: GroupState): (r: Scope)
    requires Sized(setting, c.g) && ValidGroupSetting(setting)
    ensures Sized(setting, r.g) && r.g.state == c.g.state
    ensures LaidOut(setting, c.g) ==> LaidOut(setting, r.g)
  {
    hide Deliver, LaidOut;
    match s
    case MasterListen => EnterListen(setting, gi, c)
    case MasterArbitration => Scope(SetMasterState(c.sh, Arbitration), c.g)
    case LinkScanComp => Scope(SetMasterState(c.sh, MasterState.Running), c.g)
    case MasterDown => c
    case LinkScan => c
  }

  /** A group and its event fit together: no scan without a configured frame. */
  predicate Legal(setting: GroupSetting, c: Scope, e: GroupEvent) {
    Sized(setting, c.g) && ValidGroupSetting(setting) && (Configured(c.g.state) ==> LaidOut(setting, c.g))
  }

  /** One turn of the loop in clm_iefb_group_fsm_event: new state, action, action on entry. */
  function GroupTurn(cfg: MasterConfig, setting: GroupSetting, gi: nat, c: Scope, t: Clock, e: GroupEvent): (r: (Scope, GroupEvent))
    requires Legal(setting, c, e)
    ensures Sized(setting, r.0.g)
  {
    hide LaidOut;
    var cell := GroupCell(c.g.state, e);
    MovedShape(setting, c, cell.0);
    var (c1, next) := GroupActed(cfg, setting, gi, At(c, cell.0), t, cell.1);
    (if cell.0 != c.g.state then GroupEntered(setting, gi, c1, cell.0) else c1, next)
  }

  lemma MovedShape(setting: GroupSetting, c: Scope, s: GroupState)
    requires Sized(setting, c.g)
    ensures Sized(setting, At(c, s).g) && (LaidOut(setting, c.g) ==> LaidOut(setting, At(c, s).g))
  {
  }

  predicate TurnFits(cfg: MasterConfig, setting: GroupSetting, gi: nat, c: Scope, t: Clock, e: GroupEvent)
    requires Legal(setting, c, e)
  {
    var (c1, next) := GroupTurn(cfg, setting, gi, c, t, e);
    && (next != NoEvent ==> Rank(next) < Rank(e))
    && Legal(setting, c1, next)
    && GroupEventStep(cfg, setting, gi, c, t, e)
       == if next == NoEvent then c1 else GroupEventStep(cfg, setting, gi, c1, t, next)
  }

  lemma TurnsInScan(cfg: MasterConfig, setting: GroupSetting, gi: nat, c: Scope, t: Clock, e: GroupEvent)
    requires Legal(setting, c, e) && c.g.state == LinkScan
    ensures TurnFits(cfg, setting, gi, c, t, e)
  {
    hide Deliver, LaidOut, BeginScan, EnterListen, InitGroupData, TakeConfig;
    MovedShape(setting, c, GroupCell(c.g.state, e).0);
  }

  lemma TurnsOutsideScan(cfg: MasterConfig, setting: GroupSetting, gi: nat, c: Scope, t: Clock, e: GroupEvent)
    requires Legal(setting, c, e) && c.g.state != LinkScan
    ensures TurnFits(cfg, setting, gi, c, t, e)
  {
    hide Deliver, LaidOut, BeginScan, EnterListen, InitGroupData, TakeConfig;
    MovedShape(setting, c, GroupCell(c.g.state, e).0);
  }

  /** Turn by turn the loop makes the big step, and each turn asks for an event of lower rank. */
  lemma GroupTurnsMakeEvent(cfg: MasterConfig, setting: GroupSetting, gi: nat, c: Scope, t: Clock, e: GroupEvent)
    requires Legal(setting, c, e)
    ensures TurnFits(cfg, setting, gi, c, t, e)
  {
    hide TurnFits;
    if c.g.state == LinkScan {
      TurnsInScan(cfg, setting, gi, c, t, e);
    } else {
      TurnsOutsideScan(cfg, setting, gi, c, t, e);
    }
  }
}
