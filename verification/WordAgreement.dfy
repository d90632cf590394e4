/** Without forcing, the transmission word is the OR of the devices' bits at their first
    stations, and each device's tallies balance with its bit. */
module WordAgreement {
  import opened Words
  import opened Config
  import opened Layout
  import opened GroupModel
  import opened MasterModel
  import opened GroupRuns
  import opened DeviceRuns
  import opened Histories
  import opened FrameViews
  import opened Scans
  import opened ScanInvariant
  import opened ScanStarts
  import opened Startup
  import opened ArbitrationSafety
  import opened MasterTheorems
  import opened DeviceSteps
  import opened Disconnections
  import D = DeviceModel

  /** No device is forced, and the word shows exactly the devices' bits. */
  predicate Exact(setting: GroupSetting, g: Group)
    requires LaidOut(setting, g) && ValidGroupSetting(setting)
  {
    forall i :: 0 <= i < |g.devices| ==>
      !g.devices[i].forced && ViewOf(setting, g.word, g.frame, i).bit == g.devices[i].bit
  }

  lemma BeginExact(setting: GroupSetting, gi: nat, c: Scope, t: Clock)
    requires LaidOut(setting, c.g) && ValidGroupSetting(setting) && Exact(setting, c.g)
    ensures Exact(setting, BeginScan(setting, gi, c, t).g)
  {
    hide BeginScan, RequestOf, ViewOf, Written, D.After;
    var r := BeginScan(setting, gi, c, t);
    LaidOutShape(setting, r.g);
    LaidOutShape(setting, c.g);
    BeginFacts(setting, gi, c, t);
    forall i | 0 <= i < |r.g.devices|
      ensures !r.g.devices[i].forced && ViewOf(setting, r.g.word, r.g.frame, i).bit == r.g.devices[i].bit
    {
      var d, e := c.g.devices[i], ScanStartFor(c.g.devices[i]);
      BeginViews(setting, gi, c, t, i);
      BeginOnDevice(setting, gi, c, t, i);
      KeepsFlags(d, setting.devices[i], setting.offCount, e);
      WrittenIsPlain(setting, c.g.rww, c.g.ry, r.g.devices[i], i);
      if !D.Patches(d.state, e) {
        KeepsBit(d, setting.devices[i], setting.offCount, e);
      }
    }
  }

  lemma ActExact(cfg: MasterConfig, gi: nat, input: Input, c: Scope, a: Act)
    requires GoodConfig(cfg) && gi < |cfg.groups| && LaidOut(cfg.groups[gi], c.g) && ValidGroupSetting(cfg.groups[gi])
    requires Possible(cfg, gi, input, c, a) && GroupInv(cfg, gi, c)
    requires Exact(cfg.groups[gi], c.g) && !(input.Force? && input.on)
    ensures Exact(cfg.groups[gi], Do(cfg, gi, input, c, a).g)
  {
    hide Do, LaidOut, GroupInv, BeginScan, ViewOf, StartFor, AtBoundary, Starts, Log;
    if StartsScan(cfg.groups[gi], c, a) {
      StartingAct(cfg, gi, input, c, a);
      BeginExact(cfg.groups[gi], gi, StartFor(cfg, gi, input, c, a), TimeOf(a));
    } else {
      CalmAct(cfg, gi, input, c, a);
    }
  }

  /** The OR of the bits of the first k devices, each at its first station. */
  function OrOfBits(setting: GroupSetting, g: Group, k: nat): nat
    requires k <= |g.devices| == |setting.devices|
  {
    if k == 0 then 0
    else Or(OrOfBits(setting, g, k - 1), if g.devices[k - 1].bit then Pow2(Start(setting.devices, k - 1)) else 0)
  }

  lemma {:induction false} BitOfOrOfBits(setting: GroupSetting, g: Group, k: nat, s: nat)
    requires k <= |g.devices| == |setting.devices|
    ensures Bit(OrOfBits(setting, g, k), s) <==> exists i: nat :: i < k && Start(setting.devices, i) == s && g.devices[i].bit
  {
    if k == 0 {
      BitOfZero(s);
    } else {
      var last := if g.devices[k - 1].bit then Pow2(Start(setting.devices, k - 1)) else 0;
      BitOfOrOfBits(setting, g, k - 1, s);
      BitOfOr(OrOfBits(setting, g, k - 1), last, s);
      BitOfPow2(Start(setting.devices, k - 1), s);
      BitOfZero(s);
    }
  }

  lemma {:induction false} OrOfBitsFits(setting: GroupSetting, g: Group, k: nat)
    requires ValidGroupSetting(setting) && k <= |g.devices| == |setting.devices|
    ensures OrOfBits(setting, g, k) < Pow2(16)
  {
    hide Pow2;
    if k == 0 {
      Pow2Values();
    } else {
      OrOfBitsFits(setting, g, k - 1);
      Fits(setting, k - 1);
      Pow2Grows(Start(setting.devices, k - 1), 16);
      OrStaysInWidth(16, OrOfBits(setting, g, k - 1), if g.devices[k - 1].bit then Pow2(Start(setting.devices, k - 1)) else 0);
    }
  }

  lemma StartIsUnique(setting: GroupSetting, i: nat, j: nat)
    requires ValidGroupSetting(setting) && i < |setting.devices| && j < |setting.devices|
    requires Start(setting.devices, i) == Start(setting.devices, j)
    ensures i == j
  {
    Fits(setting, i);
    Fits(setting, j);
    if i != j {
      RangesApart(setting.devices, i, j);
    }
  }

  lemma ExactWordIsOr(setting: GroupSetting, g: Group)
    requires LaidOut(setting, g) && ValidGroupSetting(setting) && Exact(setting, g) && Fillers(setting, g.word, g.frame)
    ensures g.word == OrOfBits(setting, g, |g.devices|)
  {
    hide Bit, Pow2, OrOfBits, AreaOf;
    Pow2Values();
    OrOfBitsFits(setting, g, |g.devices|);
    forall s: nat | s < 16 ensures Bit(g.word, s) == Bit(OrOfBits(setting, g, |g.devices|), s) {
      BitOfOrOfBits(setting, g, |g.devices|, s);
      if IsStart(setting.devices, s) {
        var i: nat :| i < |setting.devices| && Start(setting.devices, i) == s;
        assert ViewOf(setting, g.word, g.frame, i).bit == g.devices[i].bit;
        forall j: nat | j < |g.devices| && Start(setting.devices, j) == s ensures j == i {
          StartIsUnique(setting, i, j);
        }
      }
    }
    SameBitsSameWord(16, g.word, OrOfBits(setting, g, |g.devices|));
  }

  lemma BegunExact(cfg: MasterConfig, gi: nat, c: Scope)
    requires GoodConfig(cfg) && gi < |cfg.groups| && Begun(cfg, gi, c) && ValidGroupSetting(cfg.groups[gi])
    requires LaidOut(cfg.groups[gi], c.g)
    ensures Exact(cfg.groups[gi], c.g)
  {
    hide GroupInv, AreaOf;
    forall i | 0 <= i < |c.g.devices|
      ensures !c.g.devices[i].forced && ViewOf(cfg.groups[gi], c.g.word, c.g.frame, i).bit == c.g.devices[i].bit
    {
      assert Untouched(cfg.groups[gi].devices[i], c.g.devices[i]);
      BitOfZero(Start(cfg.groups[gi].devices, i));
    }
  }

  /** Over every run without forcing, the transmission word equals the OR over the devices of
      bit << (station - 1); bits of continuation stations are therefore 0. */
  lemma WordIsOrOfBits(cfg: MasterConfig, parameterNo: u16, t0: Clock, inputs: seq<Input>, gi: nat)
    requires GoodConfig(cfg) && gi < |cfg.groups|
    requires forall j :: 0 <= j < |inputs| ==> Allowed(inputs[j]) && !(inputs[j].Force? && inputs[j].on)
    ensures var g := RunFromInit(cfg, parameterNo, t0, inputs).groups[gi];
            |g.devices| == |cfg.groups[gi].devices| && g.word == OrOfBits(cfg.groups[gi], g, |g.devices|)
  {
    hide Init, Run, LaidOut, GroupInv, Exact, Fillers, OrOfBits, Possible, Do, Begun;
    var setting := cfg.groups[gi];
    GoodSetting(cfg, gi);
    var p := (c: Scope) => LaidOut(setting, c.g) && Exact(setting, c.g);
    InitKeeps(cfg, parameterNo, t0);
    var m0 := Init(cfg, parameterNo, t0);
    BegunExact(cfg, gi, ScopeOf(m0, gi));
    forall k | 0 <= k < |inputs| ensures Inductive(cfg, gi, inputs[k], p) {
      forall c: Scope, a | LaidOut(setting, c.g) && Possible(cfg, gi, inputs[k], c, a) && GroupInv(cfg, gi, c) && p(c)
        ensures p(Do(cfg, gi, inputs[k], c, a))
      {
        ActExact(cfg, gi, inputs[k], c, a);
      }
    }
    RunInvariant(cfg, m0, inputs, gi, p);
    RunInv(cfg, parameterNo, t0, inputs);
    var m := RunFromInit(cfg, parameterNo, t0, inputs);
    Shape(cfg, m, gi);
    InvFillers(cfg, gi, ScopeOf(m, gi));
    ExactWordIsOr(setting, m.groups[gi]);
  }

  lemma InvFillers(cfg: MasterConfig, gi: nat, c: Scope)
    requires GoodConfig(cfg) && gi < |cfg.groups| && GroupInv(cfg, gi, c)
    ensures Fillers(cfg.groups[gi], c.g.word, c.g.frame)
  {
    hide LaidOut, Log, LogFits, Sound, Fillers, PlainView, ViewOf;
  }

  // ---------------------------------------------------------------- single devices over runs

  /** Over every run without a statistics clear, connects minus disconnects is the device's bit
      (on counters that may wrap). */
  lemma TalliesBalance(cfg: MasterConfig, parameterNo: u16, t0: Clock, inputs: seq<Input>, gi: nat, i: nat)
    requires GoodConfig(cfg) && gi < |cfg.groups| && i < |cfg.groups[gi].devices|
    requires forall j :: 0 <= j < |inputs| ==> Allowed(inputs[j]) && !inputs[j].ClearStatistics?
    ensures var m := RunFromInit(cfg, parameterNo, t0, inputs);
            i < |m.groups[gi].devices| && Balanced(m.groups[gi].devices[i])
  {
    hide Init, Run, LaidOut, Begun, DeviceRun;
    var m0 := Init(cfg, parameterNo, t0);
    InitKeeps(cfg, parameterNo, t0);
    Shape(cfg, m0, gi);
    BegunDevice(cfg, gi, ScopeOf(m0, gi), i);
    BegunIsUp(cfg, m0);
    RunOnDevice(cfg, m0, inputs, gi, i);
    var events := RunEvents(cfg, m0, inputs, gi, i);
    var d := DeviceRun(m0.groups[gi].devices[i], cfg.groups[gi].devices[i], cfg.groups[gi].offCount, events);
    RunIsBalanced(m0.groups[gi].devices[i], cfg.groups[gi].devices[i], cfg.groups[gi].offCount, events);
    SameTalliesSameBalance(d, Run(cfg, m0, inputs).groups[gi].devices[i]);
  }
}
