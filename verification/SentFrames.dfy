/** The number of requests sent to a device: one for every scan of its group that starts while it is enabled. */
module SentFrames {
  import opened Words
  import opened Config
  import opened Frames
  import opened GroupModel
  import opened MasterModel
  import opened GroupRuns
  import opened DeviceRuns
  import opened Histories
  import opened Scans
  import opened ScanInvariant
  import opened ScanStarts
  import opened Startup
  import opened ArbitrationSafety
  import opened DisableLatency
  import opened RequestContents
  import D = DeviceModel

  // ---------------------------------------------------------------- the device alone

  lemma KeepsSent(d: D.Device, setting: DeviceSetting, offCount: u16, e: D.DeviceEvent)
    requires e != D.GroupStartup && !StartsOrStops(e)
    ensures D.After(d, setting, offCount, e).counters.sent == d.counters.sent
  {
  }

  lemma {:induction false} RunKeepsSent(d: D.Device, setting: DeviceSetting, offCount: u16, events: seq<D.DeviceEvent>)
    requires forall k :: 0 <= k < |events| ==> events[k] != D.GroupStartup && !StartsOrStops(events[k])
    ensures DeviceRun(d, setting, offCount, events).counters.sent == d.counters.sent
  {
    hide D.After;
    if events != [] {
      var rest := events[..|events| - 1];
      assert forall k :: 0 <= k < |rest| ==> rest[k] == events[k];
      RunKeepsSent(d, setting, offCount, rest);
      KeepsSent(DeviceRun(d, setting, offCount, rest), setting, offCount, events[|events| - 1]);
    }
  }

  /** A scan start between two scans. */
  lemma StartCountsSent(d: D.Device, setting: DeviceSetting, offCount: u16)
    requires d.state == D.Listen || d.state == D.CyclicSent
    ensures D.After(d, setting, offCount, ScanStartFor(d)).counters.sent
            == (d.counters.sent + if d.enabled then 1 else 0) % 0x1_0000_0000
  {
  }

  // ---------------------------------------------------------------- acts

  /** What an input has added to the number of requests sent, when the log had n entries before. */
  predicate Added(gi: nat, i: nat, n: nat, sent: nat, enabled: bool, c: Scope) {
    var log := Log(gi, c.sh.trace);
    && |log| >= n && i < |c.g.devices| && c.g.devices[i].enabled == enabled
    && c.g.devices[i].counters.sent == (sent + if enabled then (|log| + 1) / 2 - (n + 1) / 2 else 0) % 0x1_0000_0000
  }

  lemma CalmSent(cfg: MasterConfig, gi: nat, input: Input, c: Scope, a: Act, i: nat)
    requires GoodConfig(cfg) && gi < |cfg.groups| && LaidOut(cfg.groups[gi], c.g) && ValidGroupSetting(cfg.groups[gi])
    requires Possible(cfg, gi, input, c, a) && !StartsScan(cfg.groups[gi], c, a) && (input.Timers? || input.Frame?)
    requires i < |c.g.devices|
    ensures var r := Do(cfg, gi, input, c, a).g;
            i < |r.devices| && r.devices[i].counters.sent == c.g.devices[i].counters.sent && r.devices[i].enabled == c.g.devices[i].enabled
  {
    hide LaidOut, GroupEventStep, PatchFrame, D.After, DeviceRun, StoreData, HaveReceivedFromAll, Accepts, Duplicates;
    var setting := cfg.groups[gi];
    LaidOutShape(setting, c.g);
    if IsGroupEvent(a) {
      MetFacts(cfg, gi, input, c, a);
      EventOnDevice(cfg, setting, gi, Met(c, a), TimeOf(a), EventOf(a), i);
      LaidOutShape(setting, Do(cfg, gi, input, c, a).g);
      CalmSends(cfg, gi, input, c, a, i);
      RunKeepsSent(c.g.devices[i], setting.devices[i], setting.offCount, SentByEvent(setting, c.g.state, EventOf(a), c.g.devices[i]));
      CalmAct(cfg, gi, input, c, a);
    } else if a.Fire? {
      KeepsSent(c.g.devices[a.i], setting.devices[a.i], setting.offCount, a.de);
      KeepsFlags(c.g.devices[a.i], setting.devices[a.i], setting.offCount, a.de);
    }
  }

  lemma CalmSends(cfg: MasterConfig, gi: nat, input: Input, c: Scope, a: Act, i: nat)
    requires gi < |cfg.groups| && Possible(cfg, gi, input, c, a) && IsGroupEvent(a) && !StartsScan(cfg.groups[gi], c, a)
    requires i < |c.g.devices|
    ensures var es := SentByEvent(cfg.groups[gi], c.g.state, EventOf(a), c.g.devices[i]);
            forall k :: 0 <= k < |es| ==> es[k] != D.GroupStartup && !StartsOrStops(es[k])
  {
    hide HaveReceivedFromAll;
  }

  lemma StartSent(cfg: MasterConfig, gi: nat, input: Input, c: Scope, a: Act, i: nat)
    requires GoodConfig(cfg) && gi < |cfg.groups| && LaidOut(cfg.groups[gi], c.g) && ValidGroupSetting(cfg.groups[gi])
    requires Possible(cfg, gi, input, c, a) && GroupInv(cfg, gi, c) && StartsScan(cfg.groups[gi], c, a)
    requires i < |c.g.devices| && i < |cfg.groups[gi].devices|
    ensures var d, r := c.g.devices[i], Do(cfg, gi, input, c, a).g;
            && i < |r.devices| && r.devices[i].enabled == d.enabled
            && r.devices[i].counters.sent == (d.counters.sent + if d.enabled then 1 else 0) % 0x1_0000_0000
  {
    hide LaidOut, GroupInv, Do, BeginScan, Starts, Log, D.After, StartScope, Possible, Base;
    var setting, s := cfg.groups[gi], StartFor(cfg, gi, input, c, a);
    StartingAct(cfg, gi, input, c, a);
    MetFacts(cfg, gi, input, c, a);
    StartScopeDevice(setting, gi, Met(c, a), EventOf(a), i);
    MetDevice(setting, c, a, i);
    EndSent(setting, c, EventOf(a), i);
    LaidOutShape(setting, s.g);
    LaidOutShape(setting, Do(cfg, gi, input, c, a).g);
    BeginOnDevice(setting, gi, s, TimeOf(a), i);
    StartCountsSent(s.g.devices[i], setting.devices[i], setting.offCount);
    KeepsFlags(s.g.devices[i], setting.devices[i], setting.offCount, ScanStartFor(s.g.devices[i]));
  }

  lemma EndSent(setting: GroupSetting, c: Scope, e: GroupEvent, i: nat)
    requires i < |c.g.devices| && i < |setting.devices|
    ensures AtStart(setting, c, e, i).counters.sent == c.g.devices[i].counters.sent
    ensures AtStart(setting, c, e, i).enabled == c.g.devices[i].enabled
  {
    hide D.After;
    var d, de := c.g.devices[i], if e == LinkScanComplete then D.GroupAllResponded else D.GroupTimeout;
    KeepsSent(d, setting.devices[i], setting.offCount, de);
    KeepsFlags(d, setting.devices[i], setting.offCount, de);
  }

  lemma ActAdds(cfg: MasterConfig, gi: nat, input: Input, c: Scope, a: Act, i: nat, n: nat, sent: nat, enabled: bool)
    requires GoodConfig(cfg) && gi < |cfg.groups| && LaidOut(cfg.groups[gi], c.g) && ValidGroupSetting(cfg.groups[gi])
    requires Possible(cfg, gi, input, c, a) && GroupInv(cfg, gi, c) && (input.Timers? || input.Frame?)
    requires Added(gi, i, n, sent, enabled, c) && i < |cfg.groups[gi].devices|
    ensures Added(gi, i, n, sent, enabled, Do(cfg, gi, input, c, a))
  {
    hide LaidOut, GroupInv, Do, BeginScan, Starts, Log, StartFor, AtBoundary, Possible, EncodeRequest, RequestOf, Added;
    var r := Do(cfg, gi, input, c, a);
    AddedDevice(gi, i, n, sent, enabled, c);
    if StartsScan(cfg.groups[gi], c, a) {
      var s := StartFor(cfg, gi, input, c, a);
      StartSent(cfg, gi, input, c, a, i);
      StartingAct(cfg, gi, input, c, a);
      EvenAtBoundary(cfg, gi, s);
      BeginFacts(cfg.groups[gi], gi, s, TimeOf(a));
      OneMoreAdded(gi, i, n, sent, enabled, c, r);
    } else {
      CalmSent(cfg, gi, input, c, a, i);
      CalmAct(cfg, gi, input, c, a);
      OddWhileScanning(cfg, gi, c);
      NoneAdded(gi, i, n, sent, enabled, c, r);
    }
  }

  lemma AddedDevice(gi: nat, i: nat, n: nat, sent: nat, enabled: bool, c: Scope)
    requires Added(gi, i, n, sent, enabled, c)
    ensures i < |c.g.devices|
  {
  }

  lemma OneMoreAdded(gi: nat, i: nat, n: nat, sent: nat, enabled: bool, c: Scope, r: Scope)
    requires Added(gi, i, n, sent, enabled, c) && i < |r.g.devices|
    requires r.g.devices[i].enabled == c.g.devices[i].enabled
    requires r.g.devices[i].counters.sent == (c.g.devices[i].counters.sent + if c.g.devices[i].enabled then 1 else 0) % 0x1_0000_0000
    requires |Log(gi, r.sh.trace)| >= |Log(gi, c.sh.trace)|
    requires (|Log(gi, r.sh.trace)| + 1) / 2 == (|Log(gi, c.sh.trace)| + 1) / 2 + 1
    ensures Added(gi, i, n, sent, enabled, r)
  {
    hide Log;
  }

  lemma NoneAdded(gi: nat, i: nat, n: nat, sent: nat, enabled: bool, c: Scope, r: Scope)
    requires Added(gi, i, n, sent, enabled, c) && i < |r.g.devices|
    requires r.g.devices[i].enabled == c.g.devices[i].enabled && r.g.devices[i].counters.sent == c.g.devices[i].counters.sent
    requires |Log(gi, r.sh.trace)| >= |Log(gi, c.sh.trace)| && (|Log(gi, r.sh.trace)| + 1) / 2 == (|Log(gi, c.sh.trace)| + 1) / 2
    ensures Added(gi, i, n, sent, enabled, r)
  {
    hide Log;
  }

  // ---------------------------------------------------------------- steps and runs

  /** Requests of group gi in a run, counted while device i is enabled, since the last statistics clear. */
  function SentWhileEnabled(cfg: MasterConfig, m: Master, inputs: seq<Input>, gi: nat, i: nat): nat
    requires Ready(cfg, m) && (forall k :: 0 <= k < |inputs| ==> Allowed(inputs[k]))
    requires gi < |cfg.groups| && i < |cfg.groups[gi].devices|
  {
    hide LaidOut, Step;
    if inputs == [] then 0
    else
      var rest, last := inputs[..|inputs| - 1], inputs[|inputs| - 1];
      var m1 := Run(cfg, m, rest);
      Shape(cfg, m1, gi);
      var before, after := |Log(gi, m1.sh.trace)|, |Log(gi, Run(cfg, m, inputs).sh.trace)|;
      if last.ClearStatistics? then 0
      else SentWhileEnabled(cfg, m, rest, gi, i)
           + if m1.groups[gi].devices[i].enabled && after > before then (after + 1) / 2 - (before + 1) / 2 else 0
  }

  lemma StepAdds(cfg: MasterConfig, m: Master, input: Input, gi: nat, i: nat)
    requires MasterInv(cfg, m) && Allowed(input) && gi < |m.groups| && i < |m.groups[gi].devices| && i < |cfg.groups[gi].devices|
    requires input.Timers? || input.Frame?
    ensures var d, r := m.groups[gi].devices[i], Step(cfg, m, input);
            gi < |r.groups| && Added(gi, i, |Log(gi, m.sh.trace)|, d.counters.sent, d.enabled, ScopeOf(r, gi))
  {
    hide LaidOut, GroupInv, Step, Log, Possible, Do;
    var setting, n, d := cfg.groups[gi], |Log(gi, m.sh.trace)|, m.groups[gi].devices[i];
    GoodSetting(cfg, gi);
    var p := (c: Scope) => Added(gi, i, n, d.counters.sent, d.enabled, c);
    forall c: Scope, a | LaidOut(setting, c.g) && Possible(cfg, gi, input, c, a) && GroupInv(cfg, gi, c) && p(c)
      ensures p(Do(cfg, gi, input, c, a))
    {
      ActAdds(cfg, gi, input, c, a, i, n, d.counters.sent, d.enabled);
    }
    var acts := StepIsActs(cfg, m, input, gi);
    ChainInvariant(cfg, gi, input, ScopeOf(m, gi), acts, ScopeOf(Step(cfg, m, input), gi), p);
  }

  lemma ApplicationSent(cfg: MasterConfig, m: Master, input: Input, gi: nat, i: nat)
    requires Ready(cfg, m) && Allowed(input) && gi < |m.groups| && i < |m.groups[gi].devices| && !input.Timers? && !input.Frame?
    ensures var r := Step(cfg, m, input);
            && gi < |r.groups| && i < |r.groups[gi].devices| && r.sh.trace == m.sh.trace
            && r.groups[gi].devices[i].counters.sent == if input.ClearStatistics? then 0 else m.groups[gi].devices[i].counters.sent
  {
    hide LaidOut;
  }

  /** Over every run from initialisation the number of sent frames is the number of scans that started while
      the device was enabled, since the last statistics clear, on a 32-bit counter. */
  lemma {:induction false} SentIsCounted(cfg: MasterConfig, parameterNo: u16, t0: Clock, inputs: seq<Input>, gi: nat, i: nat)
    requires GoodConfig(cfg) && (forall k :: 0 <= k < |inputs| ==> Allowed(inputs[k]))
    requires gi < |cfg.groups| && i < |cfg.groups[gi].devices|
    ensures var m0, m := Init(cfg, parameterNo, t0), RunFromInit(cfg, parameterNo, t0, inputs);
            && i < |m.groups[gi].devices|
            && m.groups[gi].devices[i].counters.sent == SentWhileEnabled(cfg, m0, inputs, gi, i) % 0x1_0000_0000
  {
    hide LaidOut, Step, Init, GroupInv, Begun, Log, MasterInv;
    var m0 := Init(cfg, parameterNo, t0);
    InitKeeps(cfg, parameterNo, t0);
    Shape(cfg, m0, gi);
    if inputs == [] {
      BegunDevice(cfg, gi, ScopeOf(m0, gi), i);
    } else {
      var rest, last := inputs[..|inputs| - 1], inputs[|inputs| - 1];
      SentIsCounted(cfg, parameterNo, t0, rest, gi, i);
      RunKeeps(cfg, m0, rest);
      StepCounts(cfg, Run(cfg, m0, rest), last, SentWhileEnabled(cfg, m0, rest, gi, i), gi, i);
    }
  }

  lemma StepCounts(cfg: MasterConfig, m: Master, input: Input, n: nat, gi: nat, i: nat)
    requires MasterInv(cfg, m) && Allowed(input) && gi < |m.groups| && i < |m.groups[gi].devices| && i < |cfg.groups[gi].devices|
    requires m.groups[gi].devices[i].counters.sent == n % 0x1_0000_0000
    ensures var r := Step(cfg, m, input);
            var before, after := |Log(gi, m.sh.trace)|, |Log(gi, r.sh.trace)|;
            && gi < |r.groups| && i < |r.groups[gi].devices|
            && r.groups[gi].devices[i].counters.sent
               == (if input.ClearStatistics? then 0
                   else n + if m.groups[gi].devices[i].enabled && after > before then (after + 1) / 2 - (before + 1) / 2 else 0)
                  % 0x1_0000_0000
  {
    hide LaidOut, Step, GroupInv, Log;
    if input.Timers? || input.Frame? {
      StepAdds(cfg, m, input, gi, i);
    } else {
      ApplicationSent(cfg, m, input, gi, i);
    }
  }
}
