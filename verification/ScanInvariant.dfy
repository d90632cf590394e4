/** Every act keeps the invariant of a group, so it holds over every run of the master. */
module ScanInvariant {
  import opened Words
  import opened Config
  import opened Timer
  import opened Frames
  import Responses
  import opened GroupModel
  import opened MasterModel
  import opened GroupRuns
  import opened DeviceRuns
  import opened Histories
  import opened FrameViews
  import opened Scans
  import D = DeviceModel

  // ---------------------------------------------------------------- the parts

  lemma WrittenIsPlain(setting: GroupSetting, rww: seq<byte>, ry: seq<byte>, d: D.Device, i: nat)
    requires ValidGroupSetting(setting) && i < |setting.devices| && |rww| == WORDS && |ry| == BITS
    ensures PlainView(setting, Written(setting, rww, ry, d, i), i)
    ensures Written(setting, rww, ry, d, i).bit == (d.bit || d.forced)
  {
    hide AreaOf;
    Fits(setting, i);
  }

  lemma KeepsBit(d: D.Device, setting: DeviceSetting, offCount: u16, e: D.DeviceEvent)
    requires !D.Patches(d.state, e) && e != D.GroupStartup
    ensures D.After(d, setting, offCount, e).bit == d.bit
  {
  }

  lemma StartedFits(cfg: MasterConfig, gi: nat, g: Group, i: nat)
    requires GoodConfig(cfg) && gi < |cfg.groups| && LaidOut(cfg.groups[gi], g) && FrameFits(cfg, gi, g)
    requires i < |g.devices| && ValidGroupSetting(cfg.groups[gi])
    ensures PlainView(cfg.groups[gi], StartedView(cfg.groups[gi], g, i), i)
    ensures D.After(g.devices[i], cfg.groups[gi].devices[i], cfg.groups[gi].offCount, ScanStartFor(g.devices[i])).bit
            ==> StartedView(cfg.groups[gi], g, i).bit
  {
    hide D.After, Written, PlainView;
    var setting, d := cfg.groups[gi], g.devices[i];
    var e := ScanStartFor(d);
    if D.Patches(d.state, e) {
      WrittenIsPlain(setting, g.rww, g.ry, D.After(d, setting.devices[i], setting.offCount, e), i);
    } else {
      KeepsBit(d, setting.devices[i], setting.offCount, e);
    }
  }

  lemma RequestIsGood(cfg: MasterConfig, gi: nat, c: Scope, t: Clock)
    requires GoodConfig(cfg) && gi < |cfg.groups| && Base(cfg, gi, c) && ValidGroupSetting(cfg.groups[gi])
    ensures var q := RequestOf(cfg.groups[gi], gi, c, t);
            q.WellFormed() && GoodRequest(cfg, gi, q, EncodeRequest(q))
  {
    hide Deliver, BeginScan, EncodeRequest, RequestOf, StartedView, PlainView, Fillers, ViewOf;
    var setting := cfg.groups[gi];
    var q := RequestOf(setting, gi, c, t);
    LaidOutShape(setting, c.g);
    BeginFacts(setting, gi, c, t);
    forall i | 0 <= i < |setting.devices| ensures Holds(setting, q) && PlainView(setting, ViewOf(setting, q.word, q, i), i) {
      BeginViews(setting, gi, c, t, i);
      StartedFits(cfg, gi, c.g, i);
    }
    assert 0 < |setting.devices|;
    BeginViews(setting, gi, c, t, 0);
    assert ValidGroup(cfg.groups[gi], cfg.masterId);
  }

  lemma BeginFrameFits(cfg: MasterConfig, gi: nat, c: Scope, t: Clock)
    requires GoodConfig(cfg) && gi < |cfg.groups| && Base(cfg, gi, c) && ValidGroupSetting(cfg.groups[gi])
    ensures FrameFits(cfg, gi, BeginScan(cfg.groups[gi], gi, c, t).g)
  {
    hide Deliver, BeginScan, EncodeRequest, RequestOf, StartedView, PlainView, Fillers, ViewOf, D.After, GoodRequest;
    var setting := cfg.groups[gi];
    var q, r := RequestOf(setting, gi, c, t), BeginScan(setting, gi, c, t);
    LaidOutShape(setting, c.g);
    LaidOutShape(setting, r.g);
    BeginFacts(setting, gi, c, t);
    forall i | 0 <= i < |r.g.devices|
      ensures PlainView(setting, ViewOf(setting, r.g.word, r.g.frame, i), i)
              && (r.g.devices[i].bit ==> ViewOf(setting, r.g.word, r.g.frame, i).bit)
    {
      BeginViews(setting, gi, c, t, i);
      StartedFits(cfg, gi, c.g, i);
      BeginOnDevice(setting, gi, c, t, i);
    }
    assert 0 < |setting.devices|;
    BeginViews(setting, gi, c, t, 0);
  }

  lemma StartFromListen(d: D.Device, setting: DeviceSetting, offCount: u16)
    requires d.state == D.Listen
    ensures D.After(d, setting, offCount, ScanStartFor(d)).state != D.CyclicSending
  {
  }

  lemma LogGrows(cfg: MasterConfig, gi: nat, log: seq<Output>, o: Output)
    requires GoodConfig(cfg) && gi < |cfg.groups| && LogFits(cfg, gi, log) && LogEntry(cfg, gi, |log|, o)
    ensures LogFits(cfg, gi, log + [o])
  {
    hide LogEntry;
  }

  lemma OffCountPositive(cfg: MasterConfig, gi: nat)
    requires GoodConfig(cfg) && gi < |cfg.groups|
    ensures cfg.groups[gi].offCount >= 1 && 1 <= cfg.groups[gi].timeout
  {
    assert ValidGroup(cfg.groups[gi], cfg.masterId);
  }

  /** A scan start leads from a scan boundary into a scan. */
  lemma BeginKeeps(cfg: MasterConfig, gi: nat, c: Scope, t: Clock)
    requires GoodConfig(cfg) && gi < |cfg.groups| && AtBoundary(cfg, gi, c) && ValidGroupSetting(cfg.groups[gi])
    ensures Scanning(cfg, gi, BeginScan(cfg.groups[gi], gi, c, t))
  {
    hide Deliver, BeginScan, EncodeRequest, RequestOf, FrameFits, D.After, GoodRequest, LaidOut, Log, LogFits, Sound;
    var setting := cfg.groups[gi];
    var q, r := RequestOf(setting, gi, c, t), BeginScan(setting, gi, c, t);
    LaidOutShape(setting, c.g);
    LaidOutShape(setting, r.g);
    BeginFacts(setting, gi, c, t);
    BeginFrameFits(cfg, gi, c, t);
    RequestIsGood(cfg, gi, c, t);
    LogGrows(cfg, gi, Log(gi, c.sh.trace), Sent(gi, q, EncodeRequest(q)));
    forall i | 0 <= i < |r.g.devices|
      ensures Sound(r.g.devices[i], setting.offCount) && r.g.devices[i].state != D.MasterDown
              && (c.g.seqNo == 0 ==> r.g.devices[i].state != D.CyclicSending)
    {
      BeginOnDevice(setting, gi, c, t, i);
      StepIsSound(c.g.devices[i], setting.devices[i], setting.offCount, ScanStartFor(c.g.devices[i]));
      if c.g.seqNo == 0 {
        StartFromListen(c.g.devices[i], setting.devices[i], setting.offCount);
      }
    }
  }

  /** Devices changed by events that do not touch the frame. */
  lemma QuietFrameFits(cfg: MasterConfig, gi: nat, g: Group, r: Group)
    requires GoodConfig(cfg) && gi < |cfg.groups| && LaidOut(cfg.groups[gi], g) && FrameFits(cfg, gi, g)
    requires LaidOut(cfg.groups[gi], r) && r.frame == g.frame && r.word == g.word
    requires forall i :: 0 <= i < |g.devices| ==> r.devices[i].bit == g.devices[i].bit
    ensures FrameFits(cfg, gi, r)
  {
    hide ViewOf, PlainView, Fillers;
  }

  lemma ScanEndsAtBoundary(d: D.Device, setting: DeviceSetting, offCount: u16, e: D.DeviceEvent)
    requires Sound(d, offCount) && d.state != D.MasterDown
    requires e == D.GroupTimeout || (e == D.GroupAllResponded && d.state != D.CyclicSending)
    ensures var r := D.After(d, setting, offCount, e); r.state == D.Listen || r.state == D.CyclicSent
  {
  }

  /** The end of a scan leads back to a scan boundary: after a timeout always, and after
      "all responded" because no device is still sending. */
  lemma FinishKeeps(cfg: MasterConfig, gi: nat, c: Scope, e: D.DeviceEvent, success: bool)
    requires GoodConfig(cfg) && gi < |cfg.groups| && Base(cfg, gi, c) && ValidGroupSetting(cfg.groups[gi])
    requires |Log(gi, c.sh.trace)| % 2 == 1 && c.g.seqNo == SeqOf(|Log(gi, c.sh.trace)| / 2)
    requires e == D.GroupTimeout || (e == D.GroupAllResponded && NoneSending(c.g))
    ensures AtBoundary(cfg, gi, FinishScan(cfg.groups[gi], gi, c, e, success))
  {
    hide Deliver, FinishScan, FrameFits, D.After, GoodRequest, LaidOut, Log, LogFits, Sound, SeqOf, NextSeqNo;
    var setting := cfg.groups[gi];
    var r := FinishScan(setting, gi, c, e, success);
    LaidOutShape(setting, c.g);
    LaidOutShape(setting, r.g);
    FinishFacts(setting, gi, c, e, success);
    LogGrows(cfg, gi, Log(gi, c.sh.trace), LinkScanCb(gi, success));
    NextIsSeqOf(|Log(gi, c.sh.trace)| / 2);
    forall i | 0 <= i < |r.g.devices|
      ensures Sound(r.g.devices[i], setting.offCount) && r.g.devices[i].state != D.MasterDown
              && (r.g.devices[i].state == D.Listen || r.g.devices[i].state == D.CyclicSent)
              && r.g.devices[i].bit == c.g.devices[i].bit
    {
      FinishOnDevice(setting, gi, c, e, success, i);
      FinishedDevice(c.g.devices[i], setting.devices[i], setting.offCount, e);
    }
    QuietFrameFits(cfg, gi, c.g, r.g);
  }

  lemma FinishedDevice(d: D.Device, setting: DeviceSetting, offCount: u16, e: D.DeviceEvent)
    requires Sound(d, offCount) && d.state != D.MasterDown
    requires e == D.GroupTimeout || (e == D.GroupAllResponded && d.state != D.CyclicSending)
    ensures var r := D.After(d, setting, offCount, e);
            Sound(r, offCount) && r.state != D.MasterDown && (r.state == D.Listen || r.state == D.CyclicSent) && r.bit == d.bit
  {
    hide D.After, Sound;
    StepIsSound(d, setting, offCount, e);
    ScanEndsAtBoundary(d, setting, offCount, e);
    KeepsBit(d, setting, offCount, e);
  }

  lemma StandbyListens(d: D.Device, setting: DeviceSetting, offCount: u16)
    requires d.state != D.MasterDown
    ensures D.After(d, setting, offCount, D.GroupStandby).state == D.Listen
  {
  }

  /** Falling back to MASTER_LISTEN is possible from anywhere. */
  lemma FallKeeps(cfg: MasterConfig, gi: nat, c: Scope)
    requires GoodConfig(cfg) && gi < |cfg.groups| && Base(cfg, gi, c) && ValidGroupSetting(cfg.groups[gi])
    ensures GroupInv(cfg, gi, FallToListen(cfg.groups[gi], gi, c))
    ensures Log(gi, FallToListen(cfg.groups[gi], gi, c).sh.trace) == Log(gi, c.sh.trace)
  {
    hide Deliver, EnterListen, FrameFits, D.After, LaidOut, Log, LogFits, Sound;
    var setting := cfg.groups[gi];
    LaidOutShape(setting, c.g);
    var r := FallToListen(setting, gi, c);
    LaidOutAt(setting, c, MasterListen);
    LaidOutShape(setting, r.g);
    ListenFacts(setting, gi, At(c, MasterListen));
    forall i | 0 <= i < |r.g.devices|
      ensures Sound(r.g.devices[i], setting.offCount) && r.g.devices[i].state == D.Listen
              && r.g.devices[i].bit == c.g.devices[i].bit
    {
      StandbyOnDevice(setting, gi, c, i);
      StepIsSound(c.g.devices[i], setting.devices[i], setting.offCount, D.GroupStandby);
      StandbyListens(c.g.devices[i], setting.devices[i], setting.offCount);
      KeepsBit(c.g.devices[i], setting.devices[i], setting.offCount, D.GroupStandby);
    }
    QuietFrameFits(cfg, gi, c.g, r.g);
  }

  lemma LaidOutAt(setting: GroupSetting, c: Scope, s: GroupState)
    requires LaidOut(setting, c.g)
    ensures LaidOut(setting, At(c, s).g)
  {
  }

  /** The parts of the invariant that do not mention the group state. */
  lemma StateApart(cfg: MasterConfig, gi: nat, c: Scope, s: GroupState, sh: Shared)
    requires GoodConfig(cfg) && gi < |cfg.groups| && Base(cfg, gi, c)
    requires sh.unitInfo == c.sh.unitInfo && Log(gi, sh.trace) == Log(gi, c.sh.trace)
    ensures var r := At(Scope(sh, c.g), s);
            Base(cfg, gi, r) && (AtBoundary(cfg, gi, c) ==> AtBoundary(cfg, gi, r))
  {
    hide ViewOf, PlainView, Fillers, LogEntry, Sound, HeaderFits;
    LaidOutAt(cfg.groups[gi], c, s);
  }

  /** Acts that set a timer aside. */
  lemma TimersApart(cfg: MasterConfig, gi: nat, c: Scope, t1: TimerState, t2: TimerState)
    requires GoodConfig(cfg) && gi < |cfg.groups| && Base(cfg, gi, c)
    ensures var r := Scope(c.sh, c.g.(responseTimer := t1, scanTimer := t2));
            Base(cfg, gi, r) && (AtBoundary(cfg, gi, c) ==> AtBoundary(cfg, gi, r))
  {
    hide ViewOf, PlainView, Fillers, LogEntry, Sound, HeaderFits;
  }

  // ---------------------------------------------------------------- group events

  lemma CompleteKeeps(cfg: MasterConfig, gi: nat, c: Scope, t: Clock)
    requires GoodConfig(cfg) && gi < |cfg.groups| && Scanning(cfg, gi, c) && ValidGroupSetting(cfg.groups[gi])
    requires NoneSending(c.g)
    ensures GroupInv(cfg, gi, CompleteScan(cfg.groups[gi], gi, c, t))
  {
    hide FinishScan, BeginScan, Log, LaidOut, FrameFits, LogFits, DevicesSound;
    var setting := cfg.groups[gi];
    TimersApart(cfg, gi, c, Stopped, c.g.scanTimer);
    var c0 := Scope(c.sh, c.g.(responseTimer := Stopped));
    StateApart(cfg, gi, c0, LinkScanComp, c.sh);
    var c1 := At(c0, LinkScanComp);
    FinishKeeps(cfg, gi, c1, D.GroupAllResponded, true);
    FinishFacts(setting, gi, c1, D.GroupAllResponded, true);
    var c2 := FinishScan(setting, gi, c1, D.GroupAllResponded, true);
    if !setting.constantScan {
      StateApart(cfg, gi, c2, LinkScan, c2.sh);
      BeginKeeps(cfg, gi, At(c2, LinkScan), t);
    }
  }

  lemma TimeOutKeeps(cfg: MasterConfig, gi: nat, c: Scope, t: Clock)
    requires GoodConfig(cfg) && gi < |cfg.groups| && Base(cfg, gi, c) && ValidGroupSetting(cfg.groups[gi])
    requires |Log(gi, c.sh.trace)| % 2 == 1 && c.g.seqNo == SeqOf(|Log(gi, c.sh.trace)| / 2)
    ensures GroupInv(cfg, gi, TimeOutScan(cfg.groups[gi], gi, c, t))
  {
    hide FinishScan, BeginScan, Log, LaidOut, FrameFits, LogFits, DevicesSound;
    var setting := cfg.groups[gi];
    StateApart(cfg, gi, c, LinkScanComp, c.sh);
    var c1 := At(c, LinkScanComp);
    FinishKeeps(cfg, gi, c1, D.GroupTimeout, false);
    var c2 := FinishScan(setting, gi, c1, D.GroupTimeout, false);
    StateApart(cfg, gi, c2, LinkScan, c2.sh);
    BeginKeeps(cfg, gi, At(c2, LinkScan), t);
  }

  lemma StartKeeps(cfg: MasterConfig, gi: nat, c: Scope, t: Clock, sh: Shared)
    requires GoodConfig(cfg) && gi < |cfg.groups| && AtBoundary(cfg, gi, c) && ValidGroupSetting(cfg.groups[gi])
    requires sh.unitInfo == c.sh.unitInfo && Log(gi, sh.trace) == Log(gi, c.sh.trace)
    ensures GroupInv(cfg, gi, BeginScan(cfg.groups[gi], gi, At(Scope(sh, c.g), LinkScan), t))
  {
    hide BeginScan, Log, Base, LaidOut;
    StateApart(cfg, gi, c, LinkScan, sh);
    BeginKeeps(cfg, gi, At(Scope(sh, c.g), LinkScan), t);
  }

  /** What a group event may meet. A scan start outside a scan boundary is ignored, because the
      state machine has no row for it while scanning. */
  predicate MayOccur(c: Scope, e: GroupEvent) {
    match e
    case ArbitrationDone => true
    case RequestFromOther => true
    case DuplicationAlarm => true
    case LinkScanComplete => NoneSending(c.g)
    case LinkScanTimeout => true
    case LinkScanStart => true
    case _ => false
  }

  /** The invariant without the timers that a poll has just stopped. */
  predicate InvBut(cfg: MasterConfig, gi: nat, c: Scope, e: GroupEvent)
    requires GoodConfig(cfg) && gi < |cfg.groups|
  {
    || GroupInv(cfg, gi, c)
    || (e == LinkScanTimeout && c.g.state == LinkScan && Base(cfg, gi, c)
        && |Log(gi, c.sh.trace)| % 2 == 1 && c.g.seqNo == SeqOf(|Log(gi, c.sh.trace)| / 2))
    || (e == LinkScanStart && c.g.state == LinkScanComp && AtBoundary(cfg, gi, c))
  }

  lemma EventKeeps(cfg: MasterConfig, gi: nat, c: Scope, t: Clock, e: GroupEvent)
    requires GoodConfig(cfg) && gi < |cfg.groups| && LaidOut(cfg.groups[gi], c.g) && ValidGroupSetting(cfg.groups[gi])
    requires InvBut(cfg, gi, c, e) && MayOccur(c, e)
    ensures GroupInv(cfg, gi, GroupEventStep(cfg, cfg.groups[gi], gi, c, t, e))
  {
    hide FallToListen, BeginScan, CompleteScan, TimeOutScan, Log, Base, LaidOut, NoneSending;
    var setting := cfg.groups[gi];
    match c.g.state
    case MasterDown =>
    case MasterListen =>
    case MasterArbitration =>
      var sh := SetMasterState(c.sh, MasterState.Running);
      LogOfMore(gi, c.sh.trace, MasterStateCb(MasterState.Running));
      StartKeeps(cfg, gi, c, t, sh);
      var lost := ErrorReport(ArbitrationLost, c.sh.conflictIp);
      LogOfMore(gi, c.sh.trace, lost);
      StateApart(cfg, gi, c, c.g.state, Note(c.sh, lost));
      FallKeeps(cfg, gi, Scope(Note(c.sh, lost), c.g));
      LaidOutAt(setting, c, LinkScan);
    case LinkScanComp =>
      StartKeeps(cfg, gi, c, t, c.sh);
      FallKeeps(cfg, gi, c);
    case LinkScan =>
      FallKeeps(cfg, gi, c);
      TimeOutKeeps(cfg, gi, c, t);
      if e == LinkScanComplete {
        CompleteKeeps(cfg, gi, c, t);
      }
  }

  // ---------------------------------------------------------------- all acts

  /** "All responded" is never concluded while a device is still sending. */
  lemma CompleteMeansNoneSending(cfg: MasterConfig, gi: nat, c: Scope)
    requires GoodConfig(cfg) && gi < |cfg.groups| && GroupInv(cfg, gi, c) && HaveReceivedFromAll(c.g)
    ensures NoneSending(c.g)
  {
    hide FrameFits, LaidOut, LogFits, Log;
  }

  lemma FireKeepsStates(d: D.Device, setting: DeviceSetting, offCount: u16, e: D.DeviceEvent)
    requires e == D.ReceiveOk || e == D.ReceiveError || e == D.SlaveDuplication
    ensures var r := D.After(d, setting, offCount, e);
            && (d.state == D.Listen ==> r.state == D.Listen)
            && (d.state == D.CyclicSent ==> r.state == D.Listen || r.state == D.CyclicSent)
            && (d.state != D.CyclicSending ==> r.state != D.CyclicSending)
            && !D.Patches(d.state, e)
  {
  }

  lemma FireKeeps(cfg: MasterConfig, gi: nat, c: Scope, i: nat, e: D.DeviceEvent)
    requires GoodConfig(cfg) && gi < |cfg.groups| && GroupInv(cfg, gi, c) && ValidGroupSetting(cfg.groups[gi])
    requires i < |c.g.devices| && (e == D.ReceiveOk || e == D.ReceiveError || e == D.SlaveDuplication)
    requires LaidOut(cfg.groups[gi], c.g)
    ensures GroupInv(cfg, gi, DeviceEvent(cfg.groups[gi], gi, c, i, e))
  {
    hide FrameFits, LaidOut, LogFits, Log, D.After, PatchFrame, Sound;
    LaidOutShape(cfg.groups[gi], c.g);
    var d, ds, off := c.g.devices[i], cfg.groups[gi].devices[i], cfg.groups[gi].offCount;
    FireKeepsStates(d, ds, off, e);
    StepIsSound(d, ds, off, e);
    KeepsBit(d, ds, off, e);
    QuietFrameFits(cfg, gi, c.g, DeviceEvent(cfg.groups[gi], gi, c, i, e).g);
  }

  lemma TouchKeeps(cfg: MasterConfig, gi: nat, c: Scope, i: nat, d: D.Device)
    requires GoodConfig(cfg) && gi < |cfg.groups| && GroupInv(cfg, gi, c) && ValidGroupSetting(cfg.groups[gi])
    requires LaidOut(cfg.groups[gi], c.g) && i < |c.g.devices| && SameCore(c.g.devices[i], d)
    ensures GroupInv(cfg, gi, c.(g := PutDevice(c.g, i, d)))
  {
    hide FrameFits, LaidOut, LogFits, Log;
    TouchLaidOut(cfg.groups[gi], c.g, i, d);
    QuietFrameFits(cfg, gi, c.g, PutDevice(c.g, i, d));
  }

  lemma TouchLaidOut(setting: GroupSetting, g: Group, i: nat, d: D.Device)
    requires LaidOut(setting, g) && i < |g.devices| && SameCore(g.devices[i], d)
    ensures LaidOut(setting, PutDevice(g, i, d))
  {
  }

  lemma DataKeeps(cfg: MasterConfig, gi: nat, c: Scope, r: Group)
    requires GoodConfig(cfg) && gi < |cfg.groups| && GroupInv(cfg, gi, c)
    requires LaidOut(cfg.groups[gi], r) && r == c.g.(rx := r.rx, ry := r.ry, rwr := r.rwr, rww := r.rww)
    ensures GroupInv(cfg, gi, c.(g := r))
  {
    hide FrameFits, LaidOut, LogFits, Log, Sound;
    QuietFrameFits(cfg, gi, c.g, r);
  }

  lemma SharedKeeps(cfg: MasterConfig, gi: nat, c: Scope, sh: Shared)
    requires GoodConfig(cfg) && gi < |cfg.groups| && GroupInv(cfg, gi, c)
    requires UnitInfoFits(cfg.protocolVer, sh.unitInfo) && Log(gi, sh.trace) == Log(gi, c.sh.trace)
    ensures GroupInv(cfg, gi, c.(sh := sh))
  {
    hide FrameFits, LaidOut, LogFits, Log, Sound;
  }

  lemma TimeoutActKeeps(cfg: MasterConfig, gi: nat, c: Scope, t: Clock, response: bool)
    requires GoodConfig(cfg) && gi < |cfg.groups| && GroupInv(cfg, gi, c) && ValidGroupSetting(cfg.groups[gi])
    requires if response then Expired(c.g.responseTimer, t.now)
             else Expired(c.g.scanTimer, t.now) && !Expired(c.g.responseTimer, t.now)
    ensures var r := if response then c.g.(responseTimer := Stopped) else c.g.(scanTimer := Stopped);
            LaidOut(cfg.groups[gi], r)
            && GroupInv(cfg, gi, GroupEventStep(cfg, cfg.groups[gi], gi, Scope(c.sh, r), t,
                                                if response then LinkScanTimeout else LinkScanStart))
  {
    hide FrameFits, LaidOut, LogFits, Log, Sound, GroupEventStep;
    var r := if response then c.g.(responseTimer := Stopped) else c.g.(scanTimer := Stopped);
    TimersApart(cfg, gi, c, r.responseTimer, r.scanTimer);
    EventKeeps(cfg, gi, Scope(c.sh, r), t, if response then LinkScanTimeout else LinkScanStart);
  }

  /** Every act keeps the invariant. */
  lemma ActKeeps(cfg: MasterConfig, gi: nat, input: Input, c: Scope, a: Act)
    requires GoodConfig(cfg) && gi < |cfg.groups| && LaidOut(cfg.groups[gi], c.g)
    requires GroupInv(cfg, gi, c) && Possible(cfg, gi, input, c, a)
    ensures GroupInv(cfg, gi, Do(cfg, gi, input, c, a))
  {
    hide Base, AtBoundary, Scanning, LaidOut, GroupEventStep, DeviceEvent, StoreData, HaveReceivedFromAll, NoneSending,
         AllListen, Responses.ParseResponse, Log;
    var setting := cfg.groups[gi];
    GoodSetting(cfg, gi);
    match a
    case Event(e, t) =>
      if e == LinkScanComplete {
        CompleteMeansNoneSending(cfg, gi, c);
      }
      EventKeeps(cfg, gi, c, t, e);
    case ResponseTimeout(t) => TimeoutActKeeps(cfg, gi, c, t, true);
    case ScanTimeout(t) => TimeoutActKeeps(cfg, gi, c, t, false);
    case Fire(i, e) => FireKeeps(cfg, gi, c, i, e);
    case Touch(i, d) => TouchKeeps(cfg, gi, c, i, d);
    case Store(i) => DataKeeps(cfg, gi, c, Do(cfg, gi, input, c, a).g);
    case Outputs(ry, rww) => DataKeeps(cfg, gi, c, Do(cfg, gi, input, c, a).g);
    case Status(u) => SharedKeeps(cfg, gi, c, c.sh.(unitInfo := u));
    case Others(sh) =>
      LogIgnoresOthers(gi, c.sh.trace, sh.trace);
      InvUnitInfo(cfg, gi, c);
      SharedKeeps(cfg, gi, c, sh);
  }

  lemma InvUnitInfo(cfg: MasterConfig, gi: nat, c: Scope)
    requires GoodConfig(cfg) && gi < |cfg.groups| && GroupInv(cfg, gi, c)
    ensures UnitInfoFits(cfg.protocolVer, c.sh.unitInfo)
  {
    hide FrameFits, LaidOut, LogFits, Log, Sound;
  }

  lemma {:induction false} ChainKeeps(cfg: MasterConfig, gi: nat, input: Input, c: Scope, acts: seq<Act>, c2: Scope)
    requires GoodConfig(cfg) && gi < |cfg.groups| && LaidOut(cfg.groups[gi], c.g)
    requires GroupInv(cfg, gi, c) && Chain(cfg, gi, input, c, acts, c2)
    ensures GroupInv(cfg, gi, c2)
    decreases |acts|
  {
    hide GroupInv, Do, Possible, LaidOut;
    if acts != [] {
      ActKeeps(cfg, gi, input, c, acts[0]);
      ChainKeeps(cfg, gi, input, Do(cfg, gi, input, c, acts[0]), acts[1..], c2);
    }
  }

  /** Every group of the master satisfies its invariant. */
  predicate MasterInv(cfg: MasterConfig, m: Master) {
    Ready(cfg, m) && forall gi :: 0 <= gi < |m.groups| ==> GroupInv(cfg, gi, ScopeOf(m, gi))
  }

  /** The invariant survives every step. */
  lemma StepKeeps(cfg: MasterConfig, m: Master, input: Input)
    requires MasterInv(cfg, m) && Allowed(input)
    ensures MasterInv(cfg, Step(cfg, m, input))
  {
    hide GroupInv, LaidOut, Step;
    var m2 := Step(cfg, m, input);
    forall gi | 0 <= gi < |m2.groups| ensures GroupInv(cfg, gi, ScopeOf(m2, gi)) {
      var acts := StepIsActs(cfg, m, input, gi);
      ChainKeeps(cfg, gi, input, ScopeOf(m, gi), acts, ScopeOf(m2, gi));
    }
  }

  /** And therefore every run. */
  lemma {:induction false} RunKeeps(cfg: MasterConfig, m: Master, inputs: seq<Input>)
    requires MasterInv(cfg, m) && (forall k :: 0 <= k < |inputs| ==> Allowed(inputs[k]))
    ensures MasterInv(cfg, Run(cfg, m, inputs))
  {
    hide MasterInv, Ready, Step;
    ReadyOf(cfg, m);
    if inputs != [] {
      RunKeeps(cfg, m, inputs[..|inputs| - 1]);
      StepKeeps(cfg, Run(cfg, m, inputs[..|inputs| - 1]), inputs[|inputs| - 1]);
    }
  }

  lemma ReadyOf(cfg: MasterConfig, m: Master)
    requires MasterInv(cfg, m)
    ensures Ready(cfg, m)
  {
  }

  // ---------------------------------------------------------------- other invariants

  /** P holds of a group after every act that handling this input may involve. */
  ghost predicate Inductive(cfg: MasterConfig, gi: nat, input: Input, p: Scope -> bool)
    requires GoodConfig(cfg) && gi < |cfg.groups|
  {
    forall c: Scope, a :: LaidOut(cfg.groups[gi], c.g) && Possible(cfg, gi, input, c, a) && GroupInv(cfg, gi, c) && p(c)
                   ==> p(Do(cfg, gi, input, c, a))
  }

  lemma {:induction false} ChainInvariant(cfg: MasterConfig, gi: nat, input: Input, c: Scope, acts: seq<Act>, c2: Scope,
                                          p: Scope -> bool)
    requires GoodConfig(cfg) && gi < |cfg.groups| && LaidOut(cfg.groups[gi], c.g)
    requires GroupInv(cfg, gi, c) && Chain(cfg, gi, input, c, acts, c2)
    requires Inductive(cfg, gi, input, p) && p(c)
    ensures p(c2)
    decreases |acts|
  {
    hide GroupInv, Do, Possible, LaidOut;
    if acts != [] {
      ActKeeps(cfg, gi, input, c, acts[0]);
      ChainInvariant(cfg, gi, input, Do(cfg, gi, input, c, acts[0]), acts[1..], c2, p);
    }
  }

  /** What every act keeps, every run keeps. */
  lemma {:induction false} RunInvariant(cfg: MasterConfig, m: Master, inputs: seq<Input>, gi: nat, p: Scope -> bool)
    requires MasterInv(cfg, m) && gi < |m.groups| && p(ScopeOf(m, gi))
    requires forall k :: 0 <= k < |inputs| ==> Allowed(inputs[k]) && Inductive(cfg, gi, inputs[k], p)
    ensures gi < |Run(cfg, m, inputs).groups| && p(ScopeOf(Run(cfg, m, inputs), gi))
  {
    hide GroupInv, Step, Inductive, LaidOut;
    if inputs != [] {
      var rest, last := inputs[..|inputs| - 1], inputs[|inputs| - 1];
      RunInvariant(cfg, m, rest, gi, p);
      RunKeeps(cfg, m, rest);
      var m1 := Run(cfg, m, rest);
      assert last == inputs[|rest|];
      var acts := StepIsActs(cfg, m1, last, gi);
      ChainInvariant(cfg, gi, last, ScopeOf(m1, gi), acts, ScopeOf(Step(cfg, m1, last), gi), p);
    }
  }
}
