/** The closed loop as a network: a master with one group, its slaves, and the frames under way
    between them. Frames arrive in any order, the timers are polled in between, and both
    applications write as they like. */
module Network {
  import opened Words
  import opened Config
  import opened Timer
  import opened Frames
  import opened GroupModel
  import M = MasterModel
  import opened Scans
  import opened SlaveModel
  import opened SlaveInvariant
  import opened ClosedLoop
  import opened Serving

  /** The configurations of the two sides. */
  datatype Plant = Plant(cfg: MasterConfig, scfgs: seq<SlaveConfig>)

  /** One valid group without reserved devices, and for every device a slave set up to match. */
  predicate GoodPlant(p: Plant) {
    && M.GoodConfig(p.cfg) && |p.cfg.groups| == 1 && NoneReserved(p.cfg) && TimerHolds(p.cfg)
    && |p.scfgs| == |p.cfg.groups[0].devices|
    && (forall i :: 0 <= i < |p.scfgs| ==> Matching(p.cfg, i, p.scfgs[i]))
  }

  datatype Wire = Idle | Carries(bytes: seq<byte>)

  /** For every device the request on its way down and the response on its way up. */
  datatype Net = Net(m: M.Master, slaves: seq<Slave>, down: seq<Wire>, up: seq<Wire>)

  predicate Sane(p: Plant, net: Net) {
    && GoodPlant(p) && M.Ready(p.cfg, net.m)
    && |net.slaves| == |net.down| == |net.up| == |p.scfgs|
    && (forall i :: 0 <= i < |net.slaves| ==> FramesFit(p.scfgs[i], net.slaves[i]) && net.slaves[i].state != SlaveDown)
  }

  datatype Happening =
    | RequestArrives(i: nat, now: u32)
    | ResponseArrives(i: nat, t: Clock)
    | MasterPolls(t: Clock)
    | SlavePolls(i: nat, now: u32)
    | MasterWrites(ry: seq<byte>, rww: seq<byte>)
    | MasterStatus(running: bool, stoppedByUser: bool)
    | MasterClears
    | SlaveWrites(i: nat, rwr: seq<byte>, rx: seq<byte>)
    | SlaveStatus(i: nat, operating: bool, errCode: u16, mgmtInfo: u32)

  /** What may happen: frames under way arrive, and no timer runs out while it waits for a frame. */
  predicate May(p: Plant, net: Net, h: Happening)
    requires Sane(p, net)
  {
    match h
    case RequestArrives(i, _) => i < |net.down| && net.down[i].Carries?
    case ResponseArrives(i, _) => i < |net.up| && net.up[i].Carries?
    case MasterPolls(t) => net.m.groups[0].state == LinkScan ==> !Expired(net.m.groups[0].responseTimer, t.now)
    case SlavePolls(i, now) => i < |net.slaves| && !Expired(net.slaves[i].receiveTimer, now)
    case MasterWrites(ry, rww) => |ry| == BITS && |rww| == WORDS
    case MasterStatus(_, _) => true
    case MasterClears => true
    case SlaveWrites(i, rwr, rx) =>
      i < |net.slaves| && |rwr| == WORD_AREA * p.scfgs[i].stations && |rx| == BIT_AREA * p.scfgs[i].stations
    case SlaveStatus(i, _, _, _) => i < |net.slaves|
  }

  /** A request just logged goes to all slaves. */
  function Broadcast(net: Net, m: M.Master): seq<Wire> {
    var log := Log(0, m.sh.trace);
    if |log| > |Log(0, net.m.sh.trace)| && log[|log| - 1].Sent? then seq(|net.down|, i => Carries(log[|log| - 1].bytes))
    else net.down
  }

  function MasterStep(p: Plant, net: Net, input: M.Input): (r: Net)
    requires Sane(p, net)
    ensures Sane(p, r)
  {
    if !M.Allowed(input) then net
    else
      var m := M.Step(p.cfg, net.m, input);
      net.(m := m, down := Broadcast(net, m))
  }

  function SlaveMoves(p: Plant, net: Net, i: nat, input: SlaveInput): (r: Net)
    requires Sane(p, net) && i < |net.slaves| && AllowedInput(p.scfgs[i], input)
    ensures Sane(p, r)
  {
    var s := SlaveStep(p.scfgs[i], net.slaves[i], input);
    var replies := Replies(s.trace);
    net.(slaves := net.slaves[i := s],
         up := if |replies| > |Replies(net.slaves[i].trace)| && replies[|replies| - 1].Replied?
               then net.up[i := Carries(replies[|replies| - 1].bytes)] else net.up)
  }

  function Next(p: Plant, net: Net, h: Happening): (r: Net)
    requires Sane(p, net) && May(p, net, h)
    ensures Sane(p, r)
  {
    match h
    case RequestArrives(i, now) =>
      SlaveMoves(p, net.(down := net.down[i := Idle]), i, Poll(now, Carrying(p.cfg, net.down[i].bytes, i)))
    case ResponseArrives(i, t) =>
      MasterStep(p, net.(up := net.up[i := Idle]), M.Frame(t, net.up[i].bytes, p.cfg.groups[0].devices[i].slaveId))
    case MasterPolls(t) => MasterStep(p, net, M.Timers(t))
    case SlavePolls(i, now) => SlaveMoves(p, net, i, Poll(now, NoDatagram))
    case MasterWrites(ry, rww) => MasterStep(p, net, M.WriteOutputs(0, ry, rww))
    case MasterStatus(running, byUser) => MasterStep(p, net, M.SetStatus(running, byUser))
    case MasterClears => MasterStep(p, net, M.ClearStatistics)
    case SlaveWrites(i, rwr, rx) => SlaveMoves(p, net, i, WriteInputs(rwr, rx))
    case SlaveStatus(i, operating, errCode, mgmtInfo) =>
      SlaveMoves(p, net, i, SlaveInput.SetStatus(operating, errCode, mgmtInfo))
  }

  /** A run in which everything that happens may happen. */
  predicate InTime(p: Plant, net: Net, hs: seq<Happening>)
    requires Sane(p, net)
    decreases |hs|
  {
    hide Sane, May, Next;
    hs == [] || (May(p, net, hs[0]) && InTime(p, Next(p, net, hs[0]), hs[1..]))
  }

  function Final(p: Plant, net: Net, hs: seq<Happening>): (r: Net)
    requires Sane(p, net) && InTime(p, net, hs)
    ensures Sane(p, r)
    decreases |hs|
  {
    hide Sane, May, Next;
    if hs == [] then net else Final(p, Next(p, net, hs[0]), hs[1..])
  }

  /** The run leads from one state of the network to another. */
  predicate Reaches(p: Plant, net: Net, hs: seq<Happening>, r: Net)
    requires Sane(p, net)
    ensures Reaches(p, net, hs, r) ==> Sane(p, r)
  {
    hide Sane;
    InTime(p, net, hs) && Final(p, net, hs) == r
  }

  /** And so does one happening. */
  predicate Follows(p: Plant, net: Net, h: Happening, r: Net)
    requires Sane(p, net)
    ensures Follows(p, net, h, r) ==> Sane(p, r)
  {
    hide Sane;
    May(p, net, h) && Next(p, net, h) == r
  }

  /** The master's only group. */
  function TheGroup(p: Plant, net: Net): (g: Group)
    requires Sane(p, net)
    ensures |net.m.groups| == 1 && g == net.m.groups[0]
  {
    hide FramesFit, LaidOut, Matching, TimerHolds, NoneReserved, M.GoodConfig;
    net.m.groups[0]
  }

  /** Both sides just initialised, nothing under way. */
  function Beginning(p: Plant, parameterNo: u16, t0: Clock, now: u32): (r: Net)
    requires GoodPlant(p)
    ensures Sane(p, r)
  {
    hide M.GoodConfig, M.Ready, FramesFit, M.Init, SlaveInit;
    var n := |p.scfgs|;
    Net(M.Init(p.cfg, parameterNo, t0), seq(n, i requires 0 <= i < n => SlaveInit(p.scfgs[i], now)),
        seq(n, i => Idle), seq(n, i => Idle))
  }
}
