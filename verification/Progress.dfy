/** Polls are never in vain: a timer that is due ends the scan, or starts the next one. */
module Progress {
  import opened Words
  import opened Config
  import opened Timer
  import opened Frames
  import opened GroupModel
  import opened MasterModel
  import opened GroupRuns
  import opened Scans
  import opened ScanInvariant
  import opened ScanStarts
  import D = DeviceModel

  /** Neither timer of the group has expired. */
  predicate Settled(g: Group, now: u32) {
    !Expired(g.responseTimer, now) && !Expired(g.scanTimer, now)
  }

  lemma ScanTimerSettles(cfg: MasterConfig, m: Master, h: nat, t: Clock)
    requires Ready(cfg, m) && h < |m.groups| && !Expired(m.groups[h].responseTimer, t.now)
    ensures Settled(AfterScanTimer(cfg, m, h, t).groups[h], t.now)
  {
    hide Deliver, FinishScan, LaidOut, EnterListen, FallToListen, EncodeRequest, CompleteScan, TimeOutScan;
    assert ValidGroup(cfg.groups[h], cfg.masterId);
    GoodSetting(cfg, h);
    LaidOutApart(cfg, m, h);
  }

  lemma {:induction false} PollSettles(cfg: MasterConfig, m: Master, k: nat, t: Clock, gi: nat)
    requires Ready(cfg, m) && k <= |m.groups| && gi < |m.groups|
    requires gi < k ==> Settled(m.groups[gi], t.now)
    ensures Settled(MonitorGroups(cfg, m, k, t).groups[gi], t.now)
    decreases |m.groups| - k
  {
    hide LaidOut, Settled;
    if k == |m.groups| {
    } else {
      ResponseTimerSettled(cfg, m, k, t);
      ScanTimerSettles(cfg, AfterResponseTimer(cfg, m, k, t), k, t);
      MonitorOther(cfg, m, k, t, gi);
      PollSettles(cfg, MonitorGroup(cfg, m, k, t), k + 1, t, gi);
    }
  }

  lemma MonitorOther(cfg: MasterConfig, m: Master, h: nat, t: Clock, gi: nat)
    requires Ready(cfg, m) && h < |m.groups| && gi < |m.groups|
    ensures gi != h ==> MonitorGroup(cfg, m, h, t).groups[gi] == m.groups[gi]
  {
    hide LaidOut, GroupEventStep;
  }

  /** The timer a running group waits for. */
  function Awaited(g: Group): TimerState {
    if g.state == LinkScan then g.responseTimer else g.scanTimer
  }

  /** Either the log has grown, or nothing happened to the awaited timer. */
  predicate Waiting(gi: nat, c: Scope, n: nat, s: GroupState, timer: TimerState) {
    |Log(gi, c.sh.trace)| > n || (c.g.state == s && Awaited(c.g) == timer && |Log(gi, c.sh.trace)| == n)
  }

  lemma BeginLogs(setting: GroupSetting, gi: nat, c: Scope, t: Clock)
    requires LaidOut(setting, c.g) && ValidGroupSetting(setting)
    ensures |Log(gi, BeginScan(setting, gi, c, t).sh.trace)| == |Log(gi, c.sh.trace)| + 1
  {
    hide BeginScan, EncodeRequest, RequestOf, LaidOut, Log;
    BeginFacts(setting, gi, c, t);
  }

  lemma TimerActKeepsWaiting(cfg: MasterConfig, gi: nat, input: Input, c: Scope, a: Act, n: nat, s: GroupState, timer: TimerState)
    requires GoodConfig(cfg) && gi < |cfg.groups| && LaidOut(cfg.groups[gi], c.g) && ValidGroupSetting(cfg.groups[gi])
    requires Possible(cfg, gi, input, c, a) && GroupInv(cfg, gi, c) && input.Timers?
    requires (s == LinkScan || s == LinkScanComp) && Waiting(gi, c, n, s, timer)
    ensures Waiting(gi, Do(cfg, gi, input, c, a), n, s, timer)
  {
    hide LaidOut, BeginScan, StartFor, AtBoundary, Log, GroupEventStep, HaveReceivedFromAll, Base, Do, StartsScan;
    if StartsScan(cfg.groups[gi], c, a) {
      IsStart(cfg.groups[gi], c, a);
      StartingAct(cfg, gi, input, c, a);
      BeginLogs(cfg.groups[gi], gi, StartFor(cfg, gi, input, c, a), TimeOf(a));
    } else {
      CalmAct(cfg, gi, input, c, a);
      if |Log(gi, c.sh.trace)| == n {
        CalmTimer(cfg, gi, input, c, a);
      }
    }
  }

  lemma IsStart(setting: GroupSetting, c: Scope, a: Act)
    ensures StartsScan(setting, c, a) ==> IsGroupEvent(a)
  {
  }

  lemma CalmTimer(cfg: MasterConfig, gi: nat, input: Input, c: Scope, a: Act)
    requires GoodConfig(cfg) && gi < |cfg.groups| && LaidOut(cfg.groups[gi], c.g)
    requires Possible(cfg, gi, input, c, a) && GroupInv(cfg, gi, c) && input.Timers?
    requires (c.g.state == LinkScan || c.g.state == LinkScanComp) && !StartsScan(cfg.groups[gi], c, a)
    ensures var r := Do(cfg, gi, input, c, a); r.g.state == c.g.state && Awaited(r.g) == Awaited(c.g)
  {
    hide LaidOut, Base, Log, AllListen, AllListenOrSent, NoneSending, HaveReceivedFromAll, StoreData, D.After;
  }

  /** A poll that finds the awaited timer of a running group expired moves the group on: its log grows. */
  lemma DueTimerIsServed(cfg: MasterConfig, m: Master, t: Clock, gi: nat)
    requires MasterInv(cfg, m) && gi < |m.groups|
    requires m.groups[gi].state == LinkScan || m.groups[gi].state == LinkScanComp
    requires Expired(Awaited(m.groups[gi]), t.now)
    ensures |Log(gi, Step(cfg, m, Timers(t)).sh.trace)| > |Log(gi, m.sh.trace)|
  {
    hide LaidOut, GroupInv, Log, Possible, Do, MonitorGroups;
    var g, n := m.groups[gi], |Log(gi, m.sh.trace)|;
    GoodSetting(cfg, gi);
    var p := (c: Scope) => Waiting(gi, c, n, g.state, Awaited(g));
    var input := Timers(t);
    forall c: Scope, a | LaidOut(cfg.groups[gi], c.g) && Possible(cfg, gi, input, c, a) && GroupInv(cfg, gi, c) && p(c)
      ensures p(Do(cfg, gi, input, c, a))
    {
      TimerActKeepsWaiting(cfg, gi, input, c, a, n, g.state, Awaited(g));
    }
    assert Inductive(cfg, gi, input, p);
    var m2 := Step(cfg, m, input);
    var acts := StepIsActs(cfg, m, input, gi);
    ChainInvariant(cfg, gi, input, ScopeOf(m, gi), acts, ScopeOf(m2, gi), p);
    PollSettles(cfg, MonitorArbitration(cfg, m, t), 0, t, gi);
  }
}
