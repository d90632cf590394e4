/** What the closed loop keeps: every request shows every device, every scan ends with success,
    and every slave stays with this master. */
module NetworkInvariant {
  import opened Words
  import opened Config
  import opened Timer
  import opened Frames
  import opened Responses
  import opened GroupModel
  import M = MasterModel
  import opened Scans
  import opened ScanInvariant
  import opened Startup
  import opened SlaveModel
  import opened SlaveInvariant
  import opened Delivery
  import opened ClosedLoop
  import opened Serving
  import opened Network

  // ---------------------------------------------------------------- the invariant

  /** Entry j of the log: request j / 2 shows every device, and its scan ends with success. */
  predicate Chapter(cfg: MasterConfig, j: nat, o: Output)
    requires M.GoodConfig(cfg)
  {
    if j % 2 == 0 then o.Sent? && ShowsAll(cfg, j / 2, o.request) && o == Sent(0, o.request, EncodeRequest(o.request))
    else o == LinkScanCb(0, true)
  }

  predicate Story(cfg: MasterConfig, log: seq<Output>)
    requires M.GoodConfig(cfg)
  {
    forall j :: 0 <= j < |log| ==> Chapter(cfg, j, log[j])
  }

  /** A slave before request k reaches it. */
  predicate Known(p: Plant, k: nat, parameterNo: u16, i: nat, s: Slave)
    requires GoodPlant(p) && i < |p.scfgs|
  {
    if k == 0 then Free(p.scfgs[i], s) else Serves(p.cfg, i, parameterNo, p.scfgs[i], s)
  }

  /** The bytes are a proper response of device i to request k. */
  predicate ProperFrame(p: Plant, k: nat, i: nat, b: seq<byte>)
    requires GoodPlant(p) && i < |p.scfgs|
  {
    var ip := p.cfg.groups[0].devices[i].slaveId;
    && ParseResponse(b, ip).Parsed?
    && Proper(p.cfg, k, i, ParseResponse(b, ip).r) && b == EncodeResponse(ParseResponse(b, ip).r)
  }

  /** A slave and its wires while scan k is open with request q. */
  predicate Station(p: Plant, k: nat, q: Request, i: nat, s: Slave, down: Wire, up: Wire)
    requires GoodPlant(p) && i < |p.scfgs| && q.WellFormed()
  {
    if down.Carries? then down.bytes == EncodeRequest(q) && up.Idle? && Known(p, k, q.parameterNo, i, s)
    else Known(p, k + 1, q.parameterNo, i, s) && (up.Carries? ==> ProperFrame(p, k, i, up.bytes))
  }

  /** The devices whose response has arrived: nothing of theirs is under way any more. */
  function Answered(down: seq<Wire>, up: seq<Wire>): (r: seq<bool>)
    requires |down| == |up|
    ensures |r| == |down|
  {
    seq(|down|, i requires 0 <= i < |down| => down[i].Idle? && up[i].Idle?)
  }

  predicate Stations(p: Plant, k: nat, net: Net)
    requires Sane(p, net) && net.m.groups[0].frame.WellFormed()
  {
    forall i :: 0 <= i < |net.slaves| ==> Station(p, k, net.m.groups[0].frame, i, net.slaves[i], net.down[i], net.up[i])
  }

  /** Scan k is open. */
  predicate Underway(p: Plant, k: nat, net: Net)
    requires Sane(p, net)
  {
    var c := M.ScopeOf(net.m, 0);
    && Open(p.cfg, k, c, Answered(net.down, net.up)) && !AllAnswered(Answered(net.down, net.up))
    && c.sh.arbTimer == Stopped && c.g.frame.WellFormed()
    && Log(0, c.sh.trace)[2 * k] == Sent(0, c.g.frame, EncodeRequest(c.g.frame))
    && Stations(p, k, net)
  }

  /** Nothing is under way, and every slave is as it must be before request k. */
  predicate Resting(p: Plant, k: nat, net: Net)
    requires Sane(p, net)
  {
    forall i :: 0 <= i < |net.slaves| ==>
      net.down[i].Idle? && net.up[i].Idle? && Known(p, k, net.m.groups[0].frame.parameterNo, i, net.slaves[i])
  }

  predicate NetInv(p: Plant, net: Net) {
    && Sane(p, net)
    && Story(p.cfg, Log(0, net.m.sh.trace))
    && var k, c := |Log(0, net.m.sh.trace)| / 2, M.ScopeOf(net.m, 0);
       match c.g.state
       case MasterArbitration => Begun(p.cfg, 0, c) && Resting(p, 0, net)
       case LinkScan => Underway(p, k, net)
       case LinkScanComp => Paused(p.cfg, k, c) && Resting(p, k, net)
       case _ => false
  }

  // ---------------------------------------------------------------- a scan opens

  lemma StoryGrows(cfg: MasterConfig, log: seq<Output>, o: Output)
    requires M.GoodConfig(cfg) && Story(cfg, log) && Chapter(cfg, |log|, o)
    ensures Story(cfg, log + [o])
  {
    hide Chapter;
  }

  lemma NobodyAnswered(n: nat, bytes: seq<byte>, up: seq<Wire>)
    requires |up| == n && n > 0
    ensures var a := Answered(seq(n, i => Carries(bytes)), up);
            a == seq(n, i => false) && !AllAnswered(a)
  {
    var a := Answered(seq(n, i => Carries(bytes)), up);
    assert !a[0];
  }

  /** The request of a scan that just opened goes out to every slave. */
  lemma NewScan(p: Plant, k: nat, net: Net, closing: seq<Output>, m: M.Master)
    requires Sane(p, net) && M.Ready(p.cfg, m) && Story(p.cfg, Log(0, net.m.sh.trace))
    requires closing == [] || closing == [LinkScanCb(0, true)]
    requires |Log(0, net.m.sh.trace)| + |closing| == 2 * k
    requires Opens(p.cfg, k, M.ScopeOf(net.m, 0), closing, M.ScopeOf(m, 0)) && Resting(p, k, net)
    ensures NetInv(p, net.(m := m, down := Broadcast(net, m)))
  {
    hide M.GoodConfig, LaidOut, Log, EncodeRequest, Open, ShowsAll, Known, FramesFit, Matching, NoneReserved, TimerHolds;
    FrameOfGroup(p, m);
    var r := M.ScopeOf(m, 0);
    var before, log := Log(0, net.m.sh.trace), Log(0, m.sh.trace);
    var sent := Sent(0, r.g.frame, EncodeRequest(r.g.frame));
    OpenOf(p.cfg, k, M.ScopeOf(net.m, 0), closing, r);
    OpenState(p.cfg, k, r, seq(|r.g.devices|, i => false));
    if closing != [] {
      StoryGrows(p.cfg, before, LinkScanCb(0, true));
    }
    assert before + [] == before;
    StoryGrows(p.cfg, before + closing, sent);
    NobodyAnswered(|net.down|, sent.bytes, net.up);
    forall i | 0 <= i < |net.slaves|
      ensures Station(p, k, r.g.frame, i, net.slaves[i], Carries(sent.bytes), net.up[i])
    {
      KnownApart(p, k, net.m.groups[0].frame.parameterNo, r.g.frame.parameterNo, i, net.slaves[i]);
    }
  }

  lemma FrameOfGroup(p: Plant, m: M.Master)
    requires GoodPlant(p) && M.Ready(p.cfg, m)
    ensures |m.groups| == 1 && m.groups[0].frame.WellFormed()
  {
    LaidOutShape(p.cfg.groups[0], m.groups[0]);
  }

  lemma KnownApart(p: Plant, k: nat, a: u16, b: u16, i: nat, s: Slave)
    requires GoodPlant(p) && i < |p.scfgs| && Known(p, k, a, i, s) && a == b
    ensures Known(p, k, b, i, s)
  {
  }

  lemma OpenState(cfg: MasterConfig, k: nat, c: Scope, answered: seq<bool>)
    requires M.GoodConfig(cfg) && Open(cfg, k, c, answered)
    ensures c.g.state == LinkScan && |c.g.devices| == |answered| == |cfg.groups[0].devices| > 0
    ensures |Log(0, c.sh.trace)| == 2 * k + 1
  {
    hide GroupInv, InScan, Log;
    SomeDevice(cfg);
  }

  // ---------------------------------------------------------------- a request arrives

  /** The request of the open scan, as the log holds it. */
  lemma RequestUnderway(p: Plant, k: nat, net: Net)
    requires Sane(p, net) && Story(p.cfg, Log(0, net.m.sh.trace)) && Underway(p, k, net)
    ensures var q := net.m.groups[0].frame;
            GoodRequest(p.cfg, 0, q, EncodeRequest(q)) && ShowsAll(p.cfg, k, q) && q.seqNo == SeqOf(k)
  {
    hide ValidConfig, DistinctSlaves, LaidOut, Log, EncodeRequest, ShowsAll, GoodRequest, FrameFits, DevicesSound, Stations, InScan,
         FramesFit, Matching, NoneReserved, TimerHolds;
    var log := Log(0, net.m.sh.trace);
    assert Chapter(p.cfg, 2 * k, log[2 * k]);
    assert LogEntry(p.cfg, 0, 2 * k, log[2 * k]);
  }

  lemma ServedFrame(p: Plant, k: nat, i: nat, s: Slave, r: Slave)
    requires GoodPlant(p) && i < |p.scfgs| && ServedWell(p.cfg, k, i, s, r)
    ensures ProperFrame(p, k, i, Replies(r.trace)[|Replies(s.trace)|].bytes)
  {
    hide EncodeResponse, ParseResponse, Replies, Response.WellFormed, M.GoodConfig, NoneReserved, TimerHolds, Matching;
    EncodedResponseIsAccepted(Replies(r.trace)[|Replies(s.trace)|].response, p.cfg.groups[0].devices[i].slaveId);
  }

  lemma RequestArrival(p: Plant, net: Net, i: nat, now: u32)
    requires NetInv(p, net) && i < |net.down| && net.down[i].Carries?
    ensures NetInv(p, Next(p, net, RequestArrives(i, now)))
  {
    hide M.GoodConfig, LaidOut, Log, EncodeRequest, GoodRequest, ShowsAll, Open, FramesFit, Matching, NoneReserved, TimerHolds,
         Serves, Free, SlaveStep, Replies, ServedWell, ProperFrame, Begun, Paused, Story, AllAnswered, Exchange;
    var k, q := |Log(0, net.m.sh.trace)| / 2, net.m.groups[0].frame;
    assert net.m.groups[0].state == LinkScan;
    RequestUnderway(p, k, net);
    assert Station(p, k, q, i, net.slaves[i], net.down[i], net.up[i]);
    RequestServed(p.cfg, k, q, EncodeRequest(q), i, p.scfgs[i], net.slaves[i], now);
    var s, r := net.slaves[i], SlaveStep(p.scfgs[i], net.slaves[i], Poll(now, Carrying(p.cfg, net.down[i].bytes, i)));
    ServedFrame(p, k, i, s, r);
    LastReply(p, k, i, s, r);
    var net2 := Next(p, net, RequestArrives(i, now));
    assert Answered(net2.down, net2.up) == Answered(net.down, net.up);
    forall j | 0 <= j < |net2.slaves| ensures Station(p, k, q, j, net2.slaves[j], net2.down[j], net2.up[j]) {
      assert Station(p, k, q, j, net.slaves[j], net.down[j], net.up[j]);
    }
  }

  lemma LastReply(p: Plant, k: nat, i: nat, s: Slave, r: Slave)
    requires GoodPlant(p) && i < |p.scfgs| && ServedWell(p.cfg, k, i, s, r)
    ensures |Replies(r.trace)| == |Replies(s.trace)| + 1 && Replies(r.trace)[|Replies(r.trace)| - 1].Replied?
  {
    hide Replies, EncodeResponse, Proper;
  }

  // ---------------------------------------------------------------- a response arrives

  /** What a response leads to keeps the invariant. */
  lemma ResponseTaken(p: Plant, k: nat, net: Net, i: nat, m: M.Master)
    requires NetInv(p, net) && Underway(p, k, net) && i < |net.up| && net.up[i].Carries? && M.Ready(p.cfg, m)
    requires AfterResponse(p.cfg, k, M.ScopeOf(net.m, 0), Answered(net.down, net.up)[i := true], M.ScopeOf(m, 0))
    ensures var net1 := net.(up := net.up[i := Idle]); NetInv(p, net1.(m := m, down := Broadcast(net1, m)))
  {
    hide M.GoodConfig, LaidOut, Log, EncodeRequest, Open, FramesFit, Matching, NoneReserved, TimerHolds, Story, Chapter,
         Known, ProperFrame, Begun, Paused, Opens;
    var c, r, net1 := M.ScopeOf(net.m, 0), M.ScopeOf(m, 0), net.(up := net.up[i := Idle]);
    FrameOfGroup(p, m);
    OpenState(p.cfg, k, c, Answered(net.down, net.up));
    assert Station(p, k, c.g.frame, i, net.slaves[i], net.down[i], net.up[i]);
    assert Answered(net1.down, net1.up) == Answered(net.down, net.up)[i := true];
    forall j | 0 <= j < |net1.slaves| ensures Station(p, k, c.g.frame, j, net1.slaves[j], net1.down[j], net1.up[j]) {
      assert Station(p, k, c.g.frame, j, net.slaves[j], net.down[j], net.up[j]);
    }
    if AllAnswered(Answered(net1.down, net1.up)) {
      LastResponse(p, k, net1, m);
    } else {
      OpenState(p.cfg, k, r, Answered(net1.down, net1.up));
    }
  }

  lemma LastResponse(p: Plant, k: nat, net: Net, m: M.Master)
    requires Sane(p, net) && Story(p.cfg, Log(0, net.m.sh.trace)) && M.Ready(p.cfg, m)
    requires |Log(0, net.m.sh.trace)| == 2 * k + 1 && net.m.groups[0].frame.WellFormed()
    requires AllAnswered(Answered(net.down, net.up)) && Stations(p, k, net)
    requires AfterResponse(p.cfg, k, M.ScopeOf(net.m, 0), Answered(net.down, net.up), M.ScopeOf(m, 0))
    ensures NetInv(p, net.(m := m, down := Broadcast(net, m)))
  {
    hide M.GoodConfig, LaidOut, Log, EncodeRequest, Open, FramesFit, Matching, NoneReserved, TimerHolds, Story,
         Known, ProperFrame, Begun, Opens, Paused;
    var q := net.m.groups[0].frame;
    forall i | 0 <= i < |net.slaves| ensures net.down[i].Idle? && net.up[i].Idle? && Known(p, k + 1, q.parameterNo, i, net.slaves[i]) {
      assert Answered(net.down, net.up)[i];
      assert Station(p, k, q, i, net.slaves[i], net.down[i], net.up[i]);
    }
    if p.cfg.groups[0].constantScan {
      StoryGrows(p.cfg, Log(0, net.m.sh.trace), LinkScanCb(0, true));
      PausedState(p, k + 1, M.ScopeOf(m, 0));
    } else {
      NewScan(p, k + 1, net, [LinkScanCb(0, true)], m);
    }
  }

  lemma PausedState(p: Plant, k: nat, c: Scope)
    requires GoodPlant(p) && Paused(p.cfg, k, c)
    ensures c.g.state == LinkScanComp && k > 0 && |Log(0, c.sh.trace)| == 2 * k && c.sh.arbTimer == Stopped
  {
    hide GroupInv, Log;
  }

  lemma ResponseArrival(p: Plant, net: Net, i: nat, t: Clock)
    requires NetInv(p, net) && i < |net.up| && net.up[i].Carries?
    ensures NetInv(p, Next(p, net, ResponseArrives(i, t)))
  {
    hide M.GoodConfig, LaidOut, Log, EncodeRequest, EncodeResponse, ParseResponse, Open, FramesFit, Matching, NoneReserved,
         TimerHolds, Known, Begun, Paused, Opens, Story, M.Step, M.Allowed, Broadcast, Proper, AfterResponse;
    var k, q := |Log(0, net.m.sh.trace)| / 2, net.m.groups[0].frame;
    assert net.m.groups[0].state == LinkScan;
    assert Station(p, k, q, i, net.slaves[i], net.down[i], net.up[i]);
    var r := ParseResponse(net.up[i].bytes, p.cfg.groups[0].devices[i].slaveId).r;
    OpenState(p.cfg, k, M.ScopeOf(net.m, 0), Answered(net.down, net.up));
    ProperSendable(p, k, i, r);
    ResponseStep(p.cfg, k, net.m, Answered(net.down, net.up), t, i, r);
    ResponseTaken(p, k, net, i, M.Step(p.cfg, net.m, M.Frame(t, net.up[i].bytes, p.cfg.groups[0].devices[i].slaveId)));
  }

  lemma ProperSendable(p: Plant, k: nat, i: nat, r: Response)
    requires GoodPlant(p) && i < |p.scfgs| && Proper(p.cfg, k, i, r)
    ensures r.WellFormed()
  {
  }

  // ---------------------------------------------------------------- polls

  lemma SameMaster(net: Net, m: M.Master)
    requires |net.m.groups| == |m.groups| == 1 && M.ScopeOf(m, 0) == M.ScopeOf(net.m, 0)
    ensures net.(m := m, down := Broadcast(net, m)) == net
  {
    hide Log;
    assert m.groups == net.m.groups;
  }

  lemma MasterPoll(p: Plant, net: Net, t: Clock)
    requires NetInv(p, net) && May(p, net, MasterPolls(t))
    ensures NetInv(p, Next(p, net, MasterPolls(t)))
  {
    hide M.GoodConfig, LaidOut, Log, EncodeRequest, Open, FramesFit, Matching, NoneReserved, TimerHolds, Story,
         Known, ProperFrame, Begun, Opens, Paused, Expired, M.Step, Broadcast, Stations;
    var m, c, k := M.Step(p.cfg, net.m, M.Timers(t)), M.ScopeOf(net.m, 0), |Log(0, net.m.sh.trace)| / 2;
    match c.g.state
    case MasterArbitration =>
      BegunLog(p, c);
      PollInArbitration(p.cfg, net.m, t);
      if Expired(net.m.sh.arbTimer, t.now) {
        NewScan(p, 0, net, [], m);
      } else {
        SameMaster(net, m);
      }
    case LinkScanComp =>
      PausedState(p, k, c);
      TickOfOne(p.cfg, net.m, t);
      NeverExpires(t.now);
      MonitorInPause(p.cfg, k, net.m, t);
      if Expired(net.m.groups[0].scanTimer, t.now) {
        NewScan(p, k, net, [], m);
      } else {
        SameMaster(net, m);
      }
    case LinkScan =>
      TickOfOne(p.cfg, net.m, t);
      NeverExpires(t.now);
      MonitorInScan(p.cfg, k, net.m, Answered(net.down, net.up), t);
      CalmKeeps(p, net, m);
  }

  lemma BegunLog(p: Plant, c: Scope)
    requires GoodPlant(p) && Begun(p.cfg, 0, c)
    ensures Log(0, c.sh.trace) == []
  {
    hide M.GoodConfig;
    BegunIsRested(p.cfg, c);
  }

  /** Whatever leaves an open scan open, with log and frame as they were, keeps the invariant. */
  lemma CalmKeeps(p: Plant, net: Net, m: M.Master)
    requires NetInv(p, net) && net.m.groups[0].state == LinkScan && M.Ready(p.cfg, m)
    requires Open(p.cfg, |Log(0, net.m.sh.trace)| / 2, M.ScopeOf(m, 0), Answered(net.down, net.up))
    requires Calmly(M.ScopeOf(net.m, 0), M.ScopeOf(m, 0))
    ensures NetInv(p, net.(m := m, down := Broadcast(net, m)))
  {
    hide M.GoodConfig, LaidOut, Log, EncodeRequest, Open, FramesFit, Matching, NoneReserved, TimerHolds, Story, Begun, Paused, Station;
    FrameOfGroup(p, m);
    assert net.(m := m, down := Broadcast(net, m)) == net.(m := m);
    assert Underway(p, |Log(0, net.m.sh.trace)| / 2, net.(m := m));
  }

  lemma SlavePoll(p: Plant, net: Net, i: nat, now: u32)
    requires NetInv(p, net) && May(p, net, SlavePolls(i, now))
    ensures NetInv(p, Next(p, net, SlavePolls(i, now)))
  {
    hide M.GoodConfig, LaidOut, Log, Open, FramesFit, Matching, NoneReserved, TimerHolds, Story, Begun, Paused, Expired,
         SlaveStep, Replies, SlaveInv, Station;
    SlaveKeeps(p, net, i);
    QuietPoll(p.scfgs[i], net.slaves[i], now);
    assert net.slaves[i := net.slaves[i]] == net.slaves;
  }

  /** In every state each slave keeps its invariant and is not being disabled. */
  lemma SlaveKeeps(p: Plant, net: Net, i: nat)
    requires NetInv(p, net) && i < |net.slaves|
    ensures SlaveInv(p.scfgs[i], net.slaves[i])
    ensures net.slaves[i].state == MasterNone || net.slaves[i].state == MasterControl
  {
    hide M.GoodConfig, LaidOut, Log, Open, FramesFit, Matching, NoneReserved, TimerHolds, Story, Begun, Paused, SlaveInv,
         EncodeRequest, ProperFrame;
    if net.m.groups[0].state == LinkScan {
      var k, q := |Log(0, net.m.sh.trace)| / 2, net.m.groups[0].frame;
      assert Station(p, k, q, i, net.slaves[i], net.down[i], net.up[i]);
    }
  }

  // ---------------------------------------------------------------- the applications

  /** What the application of the master changes: output memory and the unit information of later requests. */
  predicate ByApplication(c: Scope, r: Scope) {
    && r.g == c.g.(ry := r.g.ry, rww := r.g.rww)
    && r.sh == c.sh.(unitInfo := r.sh.unitInfo)
  }

  lemma ApplicationKeeps(p: Plant, k: nat, c: Scope, r: Scope, answered: seq<bool>)
    requires GoodPlant(p) && ByApplication(c, r) && GroupInv(p.cfg, 0, r)
    ensures Open(p.cfg, k, c, answered) ==> Open(p.cfg, k, r, answered) && Calmly(c, r)
    ensures Paused(p.cfg, k, c) ==> Paused(p.cfg, k, r)
    ensures Begun(p.cfg, 0, c) ==> Begun(p.cfg, 0, r)
  {
    hide ValidConfig, DistinctSlaves, Log, GroupInv, InScan, Rested, Untouched;
  }

  lemma GroupHolds(p: Plant, net: Net)
    requires NetInv(p, net)
    ensures MasterInv(p.cfg, net.m)
  {
    hide M.GoodConfig, LaidOut, Log, FramesFit, Matching, NoneReserved, TimerHolds, Story, Known, GroupInv, Stations, InScan, Rested, Untouched, EncodeRequest;
    assert GroupInv(p.cfg, 0, M.ScopeOf(net.m, 0));
  }

  lemma MasterApplication(p: Plant, net: Net, input: M.Input)
    requires NetInv(p, net) && M.Allowed(input)
    requires input.SetStatus? || (input.WriteOutputs? && input.gi == 0)
    ensures NetInv(p, MasterStep(p, net, input))
  {
    hide M.GoodConfig, LaidOut, Log, EncodeRequest, Open, FramesFit, Matching, NoneReserved, TimerHolds, Story, Begun, Paused,
         GroupInv, Known, ProperFrame, Broadcast, MasterInv, Stations;
    var c, k := M.ScopeOf(net.m, 0), |Log(0, net.m.sh.trace)| / 2;
    GroupHolds(p, net);
    StepKeeps(p.cfg, net.m, input);
    var m := M.Step(p.cfg, net.m, input);
    GroupOf(p, m);
    FrameOfGroup(p, net.m);
    assert ByApplication(c, M.ScopeOf(m, 0));
    ApplicationKeeps(p, k, c, M.ScopeOf(m, 0), Answered(net.down, net.up));
    if c.g.state == LinkScan {
      CalmKeeps(p, net, m);
    } else {
      assert Broadcast(net, m) == net.down by {
        SameLog(net, m);
      }
    }
  }

  lemma ClearKeeps(p: Plant, k: nat, c: Scope, r: Scope, answered: seq<bool>)
    requires GoodPlant(p) && GroupInv(p.cfg, 0, r) && r.sh == c.sh && r.g == M.StatisticsCleared(c.g)
    ensures Open(p.cfg, k, c, answered) ==> Open(p.cfg, k, r, answered) && Calmly(c, r)
    ensures Paused(p.cfg, k, c) ==> Paused(p.cfg, k, r)
    ensures Begun(p.cfg, 0, c) ==> Begun(p.cfg, 0, r)
  {
    hide ValidConfig, DistinctSlaves, Log, GroupInv;
    if Open(p.cfg, k, c, answered) {
      forall i | 0 <= i < |answered| ensures InScan(k, r.g.devices[i], answered[i]) {
        assert InScan(k, c.g.devices[i], answered[i]);
      }
    }
    if Paused(p.cfg, k, c) {
      forall i | 0 <= i < |r.g.devices| ensures Rested(k, r.g.devices[i]) {
        assert Rested(k, c.g.devices[i]);
      }
    }
    if Begun(p.cfg, 0, c) {
      forall i | 0 <= i < |r.g.devices| ensures Untouched(p.cfg.groups[0].devices[i], r.g.devices[i]) {
        assert Untouched(p.cfg.groups[0].devices[i], c.g.devices[i]);
      }
    }
  }

  lemma MasterClear(p: Plant, net: Net)
    requires NetInv(p, net)
    ensures NetInv(p, MasterStep(p, net, M.ClearStatistics))
  {
    hide M.GoodConfig, LaidOut, Log, EncodeRequest, Open, FramesFit, Matching, NoneReserved, TimerHolds, Story, Begun, Paused,
         GroupInv, Known, ProperFrame, Broadcast, MasterInv, Stations;
    var c, k := M.ScopeOf(net.m, 0), |Log(0, net.m.sh.trace)| / 2;
    GroupHolds(p, net);
    StepKeeps(p.cfg, net.m, M.ClearStatistics);
    var m := M.Step(p.cfg, net.m, M.ClearStatistics);
    GroupOf(p, m);
    FrameOfGroup(p, net.m);
    ClearKeeps(p, k, c, M.ScopeOf(m, 0), Answered(net.down, net.up));
    SameLog(net, m);
    if c.g.state == LinkScan {
      CalmKeeps(p, net, m);
    }
  }

  lemma SameLog(net: Net, m: M.Master)
    requires m.sh.trace == net.m.sh.trace
    ensures Broadcast(net, m) == net.down
  {
  }

  lemma GroupOf(p: Plant, m: M.Master)
    requires GoodPlant(p) && MasterInv(p.cfg, m)
    ensures |m.groups| == 1 && GroupInv(p.cfg, 0, M.ScopeOf(m, 0))
  {
    hide GroupInv, LaidOut;
  }

  lemma KnownByApplication(p: Plant, k: nat, parameterNo: u16, i: nat, s: Slave, r: Slave)
    requires GoodPlant(p) && i < |p.scfgs| && Known(p, k, parameterNo, i, s) && SlaveInv(p.scfgs[i], r)
    requires r.state == s.state && r.master == s.master
    ensures Known(p, k, parameterNo, i, r)
  {
    hide SlaveInv;
  }

  lemma SlaveApplication(p: Plant, net: Net, i: nat, input: SlaveInput)
    requires NetInv(p, net) && i < |net.slaves| && AllowedInput(p.scfgs[i], input)
    requires input.SetStatus? || input.WriteInputs?
    ensures NetInv(p, SlaveMoves(p, net, i, input))
  {
    hide M.GoodConfig, LaidOut, Log, EncodeRequest, Open, FramesFit, Matching, NoneReserved, TimerHolds, Story, Begun, Paused,
         Known, ProperFrame, Replies, SlaveInv;
    SlaveKeeps(p, net, i);
    SlaveStepKeeps(p.scfgs[i], net.slaves[i], input);
    var net2 := SlaveMoves(p, net, i, input);
    var k, q := |Log(0, net.m.sh.trace)| / 2, net.m.groups[0].frame;
    if net.m.groups[0].state == LinkScan {
      forall j | 0 <= j < |net2.slaves| ensures Station(p, k, q, j, net2.slaves[j], net2.down[j], net2.up[j]) {
        assert Station(p, k, q, j, net.slaves[j], net.down[j], net.up[j]);
        if j == i {
          KnownEither(p, k, q.parameterNo, i, net.slaves[i], net2.slaves[i]);
        }
      }
    } else {
      forall j | 0 <= j < |net2.slaves|
        ensures Known(p, if net.m.groups[0].state == MasterArbitration then 0 else k, q.parameterNo, j, net2.slaves[j])
      {
        if j == i {
          KnownByApplication(p, if net.m.groups[0].state == MasterArbitration then 0 else k, q.parameterNo, i, net.slaves[i], net2.slaves[i]);
        }
      }
    }
  }

  lemma KnownEither(p: Plant, k: nat, parameterNo: u16, i: nat, s: Slave, r: Slave)
    requires GoodPlant(p) && i < |p.scfgs| && SlaveInv(p.scfgs[i], r) && r.state == s.state && r.master == s.master
    ensures Known(p, k, parameterNo, i, s) ==> Known(p, k, parameterNo, i, r)
    ensures Known(p, k + 1, parameterNo, i, s) ==> Known(p, k + 1, parameterNo, i, r)
  {
    hide SlaveInv;
  }

  // ---------------------------------------------------------------- runs

  lemma NextKeeps(p: Plant, net: Net, h: Happening)
    requires NetInv(p, net) && May(p, net, h)
    ensures NetInv(p, Next(p, net, h))
  {
    hide NetInv, MasterStep, SlaveMoves, Expired, GoodPlant, FramesFit, M.Ready;
    match h
    case RequestArrives(i, now) => RequestArrival(p, net, i, now);
    case ResponseArrives(i, t) => ResponseArrival(p, net, i, t);
    case MasterPolls(t) => MasterPoll(p, net, t);
    case SlavePolls(i, now) => SlavePoll(p, net, i, now);
    case MasterWrites(ry, rww) => MasterApplication(p, net, M.WriteOutputs(0, ry, rww));
    case MasterStatus(running, byUser) => MasterApplication(p, net, M.SetStatus(running, byUser));
    case MasterClears => MasterClear(p, net);
    case SlaveWrites(i, rwr, rx) => SlaveApplication(p, net, i, WriteInputs(rwr, rx));
    case SlaveStatus(i, operating, errCode, mgmtInfo) =>
      SlaveApplication(p, net, i, SlaveInput.SetStatus(operating, errCode, mgmtInfo));
  }

  lemma BeginningKeeps(p: Plant, parameterNo: u16, t0: Clock, now: u32)
    requires GoodPlant(p)
    ensures NetInv(p, Beginning(p, parameterNo, t0, now))
  {
    hide M.GoodConfig, LaidOut, Log, FramesFit, NoneReserved, TimerHolds, SlaveInv, SlaveInit, M.Init, MasterInv, Replies, Begun;
    var net := Beginning(p, parameterNo, t0, now);
    InitKeeps(p.cfg, parameterNo, t0);
    BegunLog(p, M.ScopeOf(net.m, 0));
    BegunState(p, M.ScopeOf(net.m, 0));
    forall i | 0 <= i < |net.slaves| ensures Free(p.scfgs[i], net.slaves[i]) {
      SlaveInitKeeps(p.scfgs[i], now);
    }
  }

  lemma BegunState(p: Plant, c: Scope)
    requires GoodPlant(p) && Begun(p.cfg, 0, c)
    ensures c.g.state == MasterArbitration
  {
    hide GroupInv, M.GoodConfig;
  }

  lemma {:induction false} FinalKeeps(p: Plant, net: Net, hs: seq<Happening>)
    requires NetInv(p, net) && InTime(p, net, hs)
    ensures NetInv(p, Final(p, net, hs))
    decreases |hs|
  {
    hide Next, May, Sane;
    InvIsSane(p, net);
    if hs != [] {
      NextKeeps(p, net, hs[0]);
      FinalKeeps(p, Next(p, net, hs[0]), hs[1..]);
    }
  }

  lemma InvIsSane(p: Plant, net: Net)
    requires NetInv(p, net)
    ensures Sane(p, net)
  {
  }

  // ---------------------------------------------------------------- the promise

  /** Entry j of the log of a network that keeps its invariant. */
  lemma LogPromise(p: Plant, net: Net, j: nat)
    requires NetInv(p, net) && j < |Log(0, net.m.sh.trace)|
    ensures var o := Log(0, net.m.sh.trace)[j];
            if j % 2 == 0 then o.Sent? && o.group == 0 && o.request.seqNo == SeqOf(j / 2) && ShowsAll(p.cfg, j / 2, o.request)
            else o == LinkScanCb(0, true)
  {
    hide ValidConfig, DistinctSlaves, LaidOut, Log, EncodeRequest, ShowsAll, GoodRequest, FrameFits, DevicesSound, Stations, InScan,
         FramesFit, Matching, NoneReserved, TimerHolds, Rested, Untouched, Known, AllListen, AllListenOrSent;
    var log := Log(0, net.m.sh.trace);
    assert Chapter(p.cfg, j, log[j]);
    GroupHolds(p, net);
    GroupOf(p, net.m);
    LogOfGroup(p, M.ScopeOf(net.m, 0));
    assert LogEntry(p.cfg, 0, j, log[j]);
  }

  lemma LogOfGroup(p: Plant, c: Scope)
    requires GoodPlant(p) && GroupInv(p.cfg, 0, c)
    ensures LogFits(p.cfg, 0, Log(0, c.sh.trace))
  {
    hide ValidConfig, DistinctSlaves, LaidOut, Log, LogFits, FrameFits, DevicesSound, AllListen, AllListenOrSent, NoneSending;
  }

  /** From scan 1 on device i is connected and its slave is under this master's control. */
  lemma ConnectedPromise(p: Plant, net: Net, i: nat)
    requires NetInv(p, net) && i < |net.slaves| && |Log(0, net.m.sh.trace)| >= 3
    ensures i < |net.m.groups[0].devices| && net.m.groups[0].devices[i].bit
    ensures BoundTo(p.cfg, 0, i, p.scfgs[i], net.slaves[i])
  {
    hide M.GoodConfig, LaidOut, Log, GroupInv, FramesFit, Matching, NoneReserved, TimerHolds, Story, SlaveInv, EncodeRequest,
         ProperFrame, AtBoundary, Untouched;
    var c, k := M.ScopeOf(net.m, 0), |Log(0, net.m.sh.trace)| / 2;
    match c.g.state
    case MasterArbitration => BegunLog(p, c);
    case LinkScan =>
      assert Station(p, k, c.g.frame, i, net.slaves[i], net.down[i], net.up[i]);
      assert InScan(k, c.g.devices[i], Answered(net.down, net.up)[i]);
    case LinkScanComp =>
      PausedState(p, k, c);
      assert Rested(k, c.g.devices[i]);
  }

  predicate AllIdle(net: Net) {
    |net.down| == |net.up| && forall i :: 0 <= i < |net.down| ==> net.down[i].Idle? && net.up[i].Idle?
  }

  /** The closed loop. With one valid group, all devices enabled, slaves that match, and frames that
      arrive once and before any timer that waits for them runs out, in whatever order: scan k carries
      sequence number SeqOf(k), shows every device, and ends with success; as soon as nothing is under
      way any more the scan has ended; and from scan 1 on every device is connected, with its slave
      under this master's control, also across the wrap of the sequence number. */
  lemma ClosedLoopHolds(p: Plant, parameterNo: u16, t0: Clock, now: u32, hs: seq<Happening>, j: nat, i: nat)
    requires GoodPlant(p) && InTime(p, Beginning(p, parameterNo, t0, now), hs)
    ensures var net := Final(p, Beginning(p, parameterNo, t0, now), hs);
            var log := Log(0, net.m.sh.trace);
            && (j < |log| ==>
                  if j % 2 == 0 then
                    log[j].Sent? && log[j].group == 0 && log[j].request.seqNo == SeqOf(j / 2) && ShowsAll(p.cfg, j / 2, log[j].request)
                  else log[j] == LinkScanCb(0, true))
            && (AllIdle(net) ==> net.m.groups[0].state != LinkScan)
            && (i < |p.scfgs| && |log| >= 3 ==>
                  && i < |net.m.groups[0].devices| && net.m.groups[0].devices[i].bit
                  && BoundTo(p.cfg, 0, i, p.scfgs[i], net.slaves[i]))
  {
    hide NetInv, GoodPlant, M.Ready, Log, FramesFit, ShowsAll, BoundTo, Final, InTime, Beginning, AllIdle;
    var net0 := Beginning(p, parameterNo, t0, now);
    BeginningKeeps(p, parameterNo, t0, now);
    FinalKeeps(p, net0, hs);
    var net := Final(p, net0, hs);
    if j < |Log(0, net.m.sh.trace)| {
      LogPromise(p, net, j);
    }
    if i < |p.scfgs| && |Log(0, net.m.sh.trace)| >= 3 {
      ConnectedPromise(p, net, i);
    }
    QuietMeansDone(p, net);
  }

  lemma QuietMeansDone(p: Plant, net: Net)
    requires NetInv(p, net)
    ensures AllIdle(net) ==> net.m.groups[0].state != LinkScan
  {
  }

  // ---------------------------------------------------------------- scans come to their end

  /** Arrivals that a device still owes the open scan. */
  function Owed(down: Wire, up: Wire): nat {
    if down.Carries? then 2 else if up.Carries? then 1 else 0
  }

  /** And all devices together. */
  function Pending(down: seq<Wire>, up: seq<Wire>): nat
    requires |down| == |up|
  {
    if down == [] then 0
    else Pending(down[..|down| - 1], up[..|up| - 1]) + Owed(down[|down| - 1], up[|up| - 1])
  }

  lemma {:induction false} PendingWith(down: seq<Wire>, up: seq<Wire>, i: nat, d: Wire, u: Wire)
    requires |down| == |up| && i < |down|
    ensures Pending(down[i := d], up[i := u]) + Owed(down[i], up[i]) == Pending(down, up) + Owed(d, u)
  {
    var n := |down| - 1;
    if i < n {
      PendingWith(down[..n], up[..n], i, d, u);
      assert down[i := d][..n] == down[..n][i := d] && up[i := u][..n] == up[..n][i := u];
    } else {
      assert down[i := d][..n] == down[..n] && up[i := u][..n] == up[..n];
    }
  }

  lemma {:induction false} PendingWhenOpen(down: seq<Wire>, up: seq<Wire>)
    requires |down| == |up|
    ensures Pending(down, up) <= 2 * |down|
    ensures Pending(down, up) == 0 <==> AllAnswered(Answered(down, up))
  {
    if down != [] {
      var n := |down| - 1;
      PendingWhenOpen(down[..n], up[..n]);
      forall i | 0 <= i < n ensures Answered(down[..n], up[..n])[i] == Answered(down, up)[i] {
      }
      assert AllAnswered(Answered(down, up)) <==> AllAnswered(Answered(down[..n], up[..n])) && Answered(down, up)[n];
    }
  }

  predicate IsArrival(h: Happening) {
    h.RequestArrives? || h.ResponseArrives?
  }

  /** Every arrival brings the open scan closer to its end: the log grows, or one arrival less is owed.
      A scan of n devices therefore ends with its 2n-th arrival. */
  lemma ArrivalsEndScans(p: Plant, net: Net, h: Happening)
    requires NetInv(p, net) && May(p, net, h) && IsArrival(h)
    ensures 0 < Pending(net.down, net.up) <= 2 * |p.scfgs|
    ensures var r := Next(p, net, h);
            || |Log(0, r.m.sh.trace)| > |Log(0, net.m.sh.trace)|
            || (Log(0, r.m.sh.trace) == Log(0, net.m.sh.trace) && Pending(r.down, r.up) == Pending(net.down, net.up) - 1)
  {
    hide M.GoodConfig, LaidOut, Log, EncodeRequest, EncodeResponse, ParseResponse, Open, FramesFit, Matching, NoneReserved,
         TimerHolds, Known, Begun, Paused, Story, M.Step, M.Allowed, Proper, SlaveStep, Replies, Pending, AllAnswered;
    var k, q := |Log(0, net.m.sh.trace)| / 2, net.m.groups[0].frame;
    assert net.m.groups[0].state == LinkScan;
    PendingWhenOpen(net.down, net.up);
    match h
    case RequestArrives(i, now) =>
      RequestArrivalMoves(p, net, i, now);
      PendingWith(net.down, net.up, i, Idle, Next(p, net, h).up[i]);
    case ResponseArrives(i, t) =>
      assert Station(p, k, q, i, net.slaves[i], net.down[i], net.up[i]);
      ResponseArrivalMoves(p, net, i, t);
      PendingWith(net.down, net.up, i, Idle, Idle);
      assert net.down[i := Idle] == net.down;
  }

  lemma RequestArrivalMoves(p: Plant, net: Net, i: nat, now: u32)
    requires NetInv(p, net) && i < |net.down| && net.down[i].Carries?
    ensures var r := Next(p, net, RequestArrives(i, now));
            r.m == net.m && r.down == net.down[i := Idle] && r.up == net.up[i := r.up[i]] && r.up[i].Carries?
  {
    hide M.GoodConfig, LaidOut, Log, EncodeRequest, GoodRequest, ShowsAll, Open, FramesFit, Matching, NoneReserved, TimerHolds,
         Serves, Free, SlaveStep, Replies, ServedWell, ProperFrame, Begun, Paused, Story;
    var k, q := |Log(0, net.m.sh.trace)| / 2, net.m.groups[0].frame;
    assert net.m.groups[0].state == LinkScan;
    RequestUnderway(p, k, net);
    assert Station(p, k, q, i, net.slaves[i], net.down[i], net.up[i]);
    RequestServed(p.cfg, k, q, EncodeRequest(q), i, p.scfgs[i], net.slaves[i], now);
    LastReply(p, k, i, net.slaves[i], SlaveStep(p.scfgs[i], net.slaves[i], Poll(now, Carrying(p.cfg, net.down[i].bytes, i))));
  }

  lemma ResponseArrivalMoves(p: Plant, net: Net, i: nat, t: Clock)
    requires NetInv(p, net) && i < |net.up| && net.up[i].Carries?
    ensures var r := Next(p, net, ResponseArrives(i, t));
            || |Log(0, r.m.sh.trace)| > |Log(0, net.m.sh.trace)|
            || (Log(0, r.m.sh.trace) == Log(0, net.m.sh.trace) && r.down == net.down && r.up == net.up[i := Idle])
  {
    hide M.GoodConfig, LaidOut, Log, EncodeRequest, EncodeResponse, ParseResponse, Open, FramesFit, Matching, NoneReserved,
         TimerHolds, Known, Begun, Paused, Story, M.Step, M.Allowed, Proper, ShowsAll;
    var k, q := |Log(0, net.m.sh.trace)| / 2, net.m.groups[0].frame;
    assert net.m.groups[0].state == LinkScan;
    assert Station(p, k, q, i, net.slaves[i], net.down[i], net.up[i]);
    var r := ParseResponse(net.up[i].bytes, p.cfg.groups[0].devices[i].slaveId).r;
    OpenState(p.cfg, k, M.ScopeOf(net.m, 0), Answered(net.down, net.up));
    ProperSendable(p, k, i, r);
    ResponseStep(p.cfg, k, net.m, Answered(net.down, net.up), t, i, r);
  }
}
