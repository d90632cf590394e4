/** How many frames a scan takes: in the closed loop the arrivals and the scans keep an exact balance. */
module NetworkProgress {
  import opened Words
  import opened Config
  import opened Timer
  import opened Frames
  import opened Responses
  import opened GroupModel
  import M = MasterModel
  import opened Scans
  import opened Startup
  import opened SlaveModel
  import opened SlaveInvariant
  import opened ClosedLoop
  import opened Serving
  import opened Network
  import opened NetworkInvariant
  import opened NetworkDelivery

  // ---------------------------------------------------------------- the balance

  /** Requests sent so far, in a log where requests and callbacks alternate. */
  function Started(net: Net): nat {
    (|Log(0, net.m.sh.trace)| + 1) / 2
  }

  /** The arrivals that all scans begun so far ask for, less those the open scan still waits for. */
  function Balance(p: Plant, net: Net): int
    requires Sane(p, net)
  {
    2 * |p.scfgs| * Started(net) - Pending(net.down, net.up)
  }

  function ArrivalsIn(hs: seq<Happening>): nat {
    if hs == [] then 0 else (if IsArrival(hs[0]) then 1 else 0) + ArrivalsIn(hs[1..])
  }

  /** A scan is open exactly when a request is unanswered in the log, and when an arrival is owed. */
  lemma OpenIsOwed(p: Plant, net: Net)
    requires NetInv(p, net)
    ensures |net.m.groups| == 1 && |net.down| == |net.up| == |p.scfgs| > 0 && Pending(net.down, net.up) <= 2 * |p.scfgs|
    ensures net.m.groups[0].state == LinkScan <==> |Log(0, net.m.sh.trace)| % 2 == 1
    ensures net.m.groups[0].state == LinkScan <==> Pending(net.down, net.up) > 0
  {
    hide M.GoodConfig, LaidOut, Log, EncodeRequest, Open, FramesFit, Matching, NoneReserved, TimerHolds, Story, Known, Begun,
         Paused, Pending, Stations, AllAnswered;
    var c, k := M.ScopeOf(net.m, 0), |Log(0, net.m.sh.trace)| / 2;
    SomeDevice(p);
    PendingWhenOpen(net.down, net.up);
    match c.g.state
    case MasterArbitration =>
      BegunLog(p, c);
      RestingIsAnswered(p, 0, net);
    case LinkScan => OpenState(p.cfg, k, c, Answered(net.down, net.up));
    case LinkScanComp =>
      PausedState(p, k, c);
      RestingIsAnswered(p, k, net);
  }

  lemma SomeDevice(p: Plant)
    requires GoodPlant(p)
    ensures |p.scfgs| > 0
  {
    hide DistinctSlaves, Matching, NoneReserved, TimerHolds;
    assert ValidGroup(p.cfg.groups[0], p.cfg.masterId);
  }

  lemma RestingIsAnswered(p: Plant, k: nat, net: Net)
    requires Sane(p, net) && Resting(p, k, net)
    ensures AllAnswered(Answered(net.down, net.up))
  {
    hide FramesFit, LaidOut, Known, GoodPlant;
  }

  /** Right after a request went out every device owes two arrivals. */
  lemma {:induction false} AllOwed(down: seq<Wire>, up: seq<Wire>)
    requires |down| == |up| && forall i :: 0 <= i < |down| ==> down[i].Carries?
    ensures Pending(down, up) == 2 * |down|
  {
    if down != [] {
      AllOwed(down[..|down| - 1], up[..|up| - 1]);
    }
  }

  lemma StartOwesAll(p: Plant, net: Net, h: Happening)
    requires NetInv(p, net) && May(p, net, h) && Sends(net, Next(p, net, h))
    ensures var r := Next(p, net, h); |r.down| == |r.up| && Pending(r.down, r.up) == 2 * |p.scfgs|
  {
    hide NetInv, Next, Sends, FramesFit, GoodPlant, EncodeRequest, ShowsData, M.Ready, Pending;
    InvIsSane(p, net);
    StartCarries(p, net, h);
    var r := Next(p, net, h);
    AllOwed(r.down, r.up);
  }

  // ---------------------------------------------------------------- one happening

  /** A response ends the scan only as the last arrival that was owed. */
  lemma ResponseEnds(p: Plant, net: Net, i: nat, t: Clock)
    requires NetInv(p, net) && i < |net.up| && net.up[i].Carries?
    ensures var r := Next(p, net, ResponseArrives(i, t));
            |Log(0, r.m.sh.trace)| > |Log(0, net.m.sh.trace)| ==>
              && |Log(0, r.m.sh.trace)| <= |Log(0, net.m.sh.trace)| + 2
              && AllAnswered(Answered(net.down, net.up[i := Idle]))
  {
    hide M.GoodConfig, LaidOut, Log, EncodeRequest, EncodeResponse, ParseResponse, Open, FramesFit, Matching, NoneReserved,
         TimerHolds, Known, Begun, Story, M.Step, M.Allowed, Proper, ShowsAll, ShowsData, GroupInv, AllRested;
    var k, q := |Log(0, net.m.sh.trace)| / 2, net.m.groups[0].frame;
    assert net.m.groups[0].state == LinkScan;
    assert Station(p, k, q, i, net.slaves[i], net.down[i], net.up[i]);
    var r := ParseResponse(net.up[i].bytes, p.cfg.groups[0].devices[i].slaveId).r;
    OpenState(p.cfg, k, M.ScopeOf(net.m, 0), Answered(net.down, net.up));
    ProperSendable(p, k, i, r);
    ResponseStep(p.cfg, k, net.m, Answered(net.down, net.up), t, i, r);
    assert Answered(net.down, net.up[i := Idle]) == Answered(net.down, net.up)[i := true];
  }

  lemma ResponseBalances(p: Plant, net: Net, i: nat, t: Clock)
    requires NetInv(p, net) && Sane(p, net) && i < |net.up| && net.up[i].Carries?
    ensures Balance(p, Next(p, net, ResponseArrives(i, t))) == Balance(p, net) + 1
  {
    hide NetInv, Next, FramesFit, GoodPlant, Log, M.Ready, Pending, Answered, AllAnswered;
    var h := ResponseArrives(i, t);
    var r := Next(p, net, h);
    NextKeeps(p, net, h);
    OpenIsOwed(p, net);
    OpenIsOwed(p, r);
    ResponseArrivalMoves(p, net, i, t);
    CarriesUp(p, net, i);
    PendingWith(net.down, net.up, i, Idle, Idle);
    assert net.down[i := Idle] == net.down;
    if |Log(0, r.m.sh.trace)| > |Log(0, net.m.sh.trace)| {
      ResponseEnds(p, net, i, t);
      PendingWhenOpen(net.down, net.up[i := Idle]);
      if r.m.groups[0].state == LinkScan {
        StartOwesAll(p, net, h);
      }
      OneMore(|p.scfgs|, Started(net));
    }
  }

  lemma OneMore(n: nat, s: nat)
    ensures 2 * n * (s + 1) == 2 * n * s + 2 * n
  {
  }

  lemma CarriesUp(p: Plant, net: Net, i: nat)
    requires NetInv(p, net) && i < |net.up| && net.up[i].Carries?
    ensures i < |net.down| && net.down[i].Idle? && |net.m.groups| == 1 && net.m.groups[0].state == LinkScan
  {
    hide M.GoodConfig, LaidOut, Log, EncodeRequest, Open, FramesFit, Matching, NoneReserved, TimerHolds, Story, Known, Begun, Paused,
         ProperFrame;
    assert net.m.groups[0].state == LinkScan;
    assert Station(p, |Log(0, net.m.sh.trace)| / 2, net.m.groups[0].frame, i, net.slaves[i], net.down[i], net.up[i]);
  }

  lemma RequestBalances(p: Plant, net: Net, i: nat, now: u32)
    requires NetInv(p, net) && Sane(p, net) && i < |net.down| && net.down[i].Carries?
    ensures Balance(p, Next(p, net, RequestArrives(i, now))) == Balance(p, net) + 1
  {
    hide NetInv, Next, FramesFit, GoodPlant, Log, M.Ready, Pending;
    RequestArrivalMoves(p, net, i, now);
    PendingWith(net.down, net.up, i, Idle, Next(p, net, RequestArrives(i, now)).up[i]);
  }

  lemma PollBalances(p: Plant, net: Net, t: Clock)
    requires NetInv(p, net) && Sane(p, net) && May(p, net, MasterPolls(t))
    ensures Balance(p, Next(p, net, MasterPolls(t))) == Balance(p, net)
  {
    hide NetInv, Next, FramesFit, GoodPlant, Log, M.Ready, Pending, Opens, Expired;
    var h := MasterPolls(t);
    var r := Next(p, net, h);
    NextKeeps(p, net, h);
    OpenIsOwed(p, net);
    OpenIsOwed(p, r);
    PollOpens(p, net, t);
    if |Log(0, r.m.sh.trace)| > |Log(0, net.m.sh.trace)| {
      OpensLog(p, |Log(0, r.m.sh.trace)| / 2, M.ScopeOf(net.m, 0), M.ScopeOf(r.m, 0));
      StartOwesAll(p, net, h);
      OneMore(|p.scfgs|, Started(net));
    } else {
      PollKeepsWires(p, net, t);
    }
  }

  lemma OpensLog(p: Plant, k: nat, c: Scope, r: Scope)
    requires GoodPlant(p) && Opens(p.cfg, k, c, [], r)
    ensures |Log(0, r.sh.trace)| == |Log(0, c.sh.trace)| + 1 && r.g.state == LinkScan
  {
    hide Log, EncodeRequest, ShowsAll, ShowsData, GoodPlant, GroupInv;
  }

  lemma PollKeepsWires(p: Plant, net: Net, t: Clock)
    requires Sane(p, net) && May(p, net, MasterPolls(t))
    requires Log(0, Next(p, net, MasterPolls(t)).m.sh.trace) == Log(0, net.m.sh.trace)
    ensures Next(p, net, MasterPolls(t)).down == net.down && Next(p, net, MasterPolls(t)).up == net.up
  {
    hide FramesFit, GoodPlant, Log, M.Ready, M.Step, Expired;
  }

  /** Everything else leaves the log and all wires alone. */
  lemma OthersKeepWires(p: Plant, net: Net, h: Happening)
    requires NetInv(p, net) && Sane(p, net) && May(p, net, h) && !IsArrival(h) && !h.MasterPolls?
    ensures var r := Next(p, net, h); r.down == net.down && r.up == net.up && r.m.sh.trace == net.m.sh.trace
  {
    hide NetInv, FramesFit, GoodPlant, Log, M.Ready, M.Step, SlaveStep, Replies, Expired;
    OthersSendNothing(p, net, h);
    match h
    case SlavePolls(j, now) =>
      SlaveKeeps(p, net, j);
      QuietPoll(p.scfgs[j], net.slaves[j], now);
    case SlaveWrites(j, rwr, rx) => SameReplies(p.scfgs[j], net.slaves[j], WriteInputs(rwr, rx));
    case SlaveStatus(j, operating, errCode, mgmtInfo) =>
      SameReplies(p.scfgs[j], net.slaves[j], SlaveInput.SetStatus(operating, errCode, mgmtInfo));
    case _ =>
  }

  // ---------------------------------------------------------------- runs

  /** Every arrival counts, and nothing else does. */
  lemma NextBalances(p: Plant, net: Net, h: Happening)
    requires NetInv(p, net) && Sane(p, net) && May(p, net, h)
    ensures Balance(p, Next(p, net, h)) == Balance(p, net) + if IsArrival(h) then 1 else 0
  {
    hide NetInv, Next, FramesFit, GoodPlant, Log, M.Ready, Pending, Balance, Expired;
    match h
    case RequestArrives(i, now) => RequestBalances(p, net, i, now);
    case ResponseArrives(i, t) => ResponseBalances(p, net, i, t);
    case MasterPolls(t) => PollBalances(p, net, t);
    case _ =>
      OthersKeepWires(p, net, h);
      SameBalance(p, net, Next(p, net, h));
  }

  lemma SameBalance(p: Plant, net: Net, r: Net)
    requires Sane(p, net) && Sane(p, r) && r.down == net.down && r.up == net.up && r.m.sh.trace == net.m.sh.trace
    ensures Balance(p, r) == Balance(p, net)
  {
    hide Sane, Log, Pending;
  }

  lemma {:induction false} RunBalances(p: Plant, net: Net, hs: seq<Happening>)
    requires NetInv(p, net) && Sane(p, net) && InTime(p, net, hs)
    ensures NetInv(p, Final(p, net, hs)) && Balance(p, Final(p, net, hs)) == Balance(p, net) + ArrivalsIn(hs)
    decreases |hs|
  {
    hide NetInv, Next, May, Sane, Balance, IsArrival;
    if hs != [] {
      NextKeeps(p, net, hs[0]);
      NextBalances(p, net, hs[0]);
      RunBalances(p, Next(p, net, hs[0]), hs[1..]);
    }
  }

  lemma BeginningBalance(p: Plant, parameterNo: u16, t0: Clock, now: u32)
    requires GoodPlant(p)
    ensures Balance(p, Beginning(p, parameterNo, t0, now)) == 0
  {
    hide M.GoodConfig, LaidOut, Log, FramesFit, NoneReserved, TimerHolds, Matching, SlaveInit, M.Init, Begun, Pending;
    var net := Beginning(p, parameterNo, t0, now);
    BeginningKeeps(p, parameterNo, t0, now);
    InitKeeps(p.cfg, parameterNo, t0);
    BegunLog(p, M.ScopeOf(net.m, 0));
    OpenIsOwed(p, net);
  }

  /** From initialisation on, the frames that have arrived are exactly two per device for every scan begun,
      less those that the open scan still waits for. Scan k has ended, and with success, if and only if
      2n(k+1) frames have arrived, n being the number of devices: not earlier, and whatever the order, the
      polls in between and the wrap of the sequence number. */
  lemma ScanEndsWithItsFrames(p: Plant, parameterNo: u16, t0: Clock, now: u32, hs: seq<Happening>, k: nat)
    requires GoodPlant(p) && InTime(p, Beginning(p, parameterNo, t0, now), hs)
    ensures var net := Final(p, Beginning(p, parameterNo, t0, now), hs);
            var log := Log(0, net.m.sh.trace);
            && |net.down| == |net.up|
            && ArrivalsIn(hs) == 2 * |p.scfgs| * ((|log| + 1) / 2) - Pending(net.down, net.up)
            && (|log| >= 2 * k + 2 <==> ArrivalsIn(hs) >= 2 * |p.scfgs| * (k + 1))
            && (|log| >= 2 * k + 2 ==> log[2 * k + 1] == LinkScanCb(0, true))
  {
    hide NetInv, GoodPlant, FramesFit, M.Ready, Log, Final, InTime, Beginning, Pending, ShowsAll;
    var net0 := Beginning(p, parameterNo, t0, now);
    BeginningKeeps(p, parameterNo, t0, now);
    BeginningBalance(p, parameterNo, t0, now);
    RunBalances(p, net0, hs);
    var net := Final(p, net0, hs);
    OpenIsOwed(p, net);
    EndedIff(|p.scfgs|, |Log(0, net.m.sh.trace)|, Pending(net.down, net.up), k);
    if |Log(0, net.m.sh.trace)| >= 2 * k + 2 {
      LogPromise(p, net, 2 * k + 1);
    }
  }

  lemma EndedIff(n: nat, log: nat, pending: nat, k: nat)
    requires n > 0 && pending <= 2 * n && (log % 2 == 1 <==> pending > 0)
    ensures log >= 2 * k + 2 <==> 2 * n * ((log + 1) / 2) - pending >= 2 * n * (k + 1)
  {
    Multiples(2 * n, (log + 1) / 2, k + 1);
    Multiples(2 * n, k + 1, (log + 1) / 2);
  }

  lemma Multiples(m: nat, a: nat, b: nat)
    ensures a < b ==> m * a + m <= m * b
  {
    if a < b {
      assert m * b == m * a + m * (b - a);
      assert m * (b - a) == m + m * (b - a - 1);
    }
  }
}
