/** Link scans: what a scan start and a scan end do to the frame, the log and the timers of a
    group, and the invariant that every act keeps. */
module Scans {
  import opened Words
  import opened Config
  import opened Timer
  import opened Frames
  import opened GroupModel
  import opened MasterModel
  import opened DeviceRuns
  import opened Histories
  import opened FrameViews
  import D = DeviceModel

  // ---------------------------------------------------------------- the log of a group

  predicate InLog(gi: nat, o: Output) {
    (o.Sent? || o.LinkScanCb?) && o.group == gi
  }

  /** The requests a group sent and the link scan callbacks it made, in order. */
  function Log(gi: nat, trace: seq<Output>): seq<Output> {
    if trace == [] then []
    else
      var o := trace[|trace| - 1];
      Log(gi, trace[..|trace| - 1]) + if InLog(gi, o) then [o] else []
  }

  lemma LogOfMore(gi: nat, trace: seq<Output>, o: Output)
    ensures Log(gi, trace + [o]) == Log(gi, trace) + if InLog(gi, o) then [o] else []
  {
    assert (trace + [o])[..|trace|] == trace;
  }

  lemma {:induction false} LogIgnoresOthers(gi: nat, before: seq<Output>, after: seq<Output>)
    requires |before| <= |after| && after[..|before|] == before
    requires forall k :: |before| <= k < |after| ==> !InLog(gi, after[k])
    ensures Log(gi, after) == Log(gi, before)
    decreases |after|
  {
    if |after| == |before| {
      assert after == before;
    } else {
      LogIgnoresOthers(gi, before, after[..|after| - 1]);
    }
  }

  // ---------------------------------------------------------------- passes over the devices

  predicate StartsOrStops(e: D.DeviceEvent) {
    e == D.ScanStartDeviceStart || e == D.ScanStartDeviceStop
  }

  /** Events other than those of a scan start touch devices only. */
  lemma {:induction false} QuietPass(setting: GroupSetting, gi: nat, c: Scope, k: nat, e: D.DeviceEvent)
    requires Sized(setting, c.g) && ValidGroupSetting(setting) && k <= |c.g.devices|
    requires !StartsOrStops(e)
    ensures var r := Deliver(setting, gi, c, k, ToAll(e)); r == Scope(c.sh, c.g.(devices := r.g.devices))
    decreases |c.g.devices| - k
  {
    hide D.After, LaidOut;
    if k < |c.g.devices| {
      QuietPass(setting, gi, DeviceEvent(setting, gi, c, k, e), k + 1, e);
    }
  }

  /** What a scan start leaves of the view of device j. */
  function StartedView(setting: GroupSetting, g: Group, j: nat): View
    requires LaidOut(setting, g) && ValidGroupSetting(setting) && j < |g.devices|
  {
    var d := g.devices[j];
    if D.Patches(d.state, ScanStartFor(d)) then
      Written(setting, g.rww, g.ry, D.After(d, setting.devices[j], setting.offCount, ScanStartFor(d)), j)
    else ViewOf(setting, g.word, g.frame, j)
  }

  lemma OneStart(setting: GroupSetting, gi: nat, c: Scope, i: nat, j: nat)
    requires LaidOut(setting, c.g) && ValidGroupSetting(setting) && i < |c.g.devices| && j < |c.g.devices|
    ensures var r := DeviceEvent(setting, gi, c, i, ScanStartFor(c.g.devices[i])).g;
            && ViewOf(setting, r.word, r.frame, j)
               == (if j == i then StartedView(setting, c.g, i) else ViewOf(setting, c.g.word, c.g.frame, j))
            && SameHeader(c.g.frame, r.frame)
            && (Fillers(setting, c.g.word, c.g.frame) ==> Fillers(setting, r.word, r.frame))
  {
    hide D.After, PatchFrame, ViewOf, Written, Fillers;
    var d := c.g.devices[i];
    var e := ScanStartFor(d);
    if D.Patches(d.state, e) {
      KeepsFlags(d, setting.devices[i], setting.offCount, e);
      var g := c.g.(devices := c.g.devices[i := D.After(d, setting.devices[i], setting.offCount, e)]);
      PatchViews(setting, g, i, j);
      PatchHeader(setting, g, i);
      if Fillers(setting, c.g.word, c.g.frame) {
        PatchFillers(setting, g, i);
      }
    }
  }

  lemma LaidOutShape(setting: GroupSetting, g: Group)
    requires LaidOut(setting, g)
    ensures Sized(setting, g) && g.frame.WellFormed() && |g.frame.ids| == Total(setting.devices)
  {
  }

  /** A scan start writes exactly the views of the devices that enter or re-enter the cycle. */
  lemma {:induction false} StartPass(setting: GroupSetting, gi: nat, c: Scope, k: nat, j: nat)
    requires LaidOut(setting, c.g) && ValidGroupSetting(setting) && k <= |c.g.devices| && j < |c.g.devices|
    ensures var r := Deliver(setting, gi, c, k, ScanSignal).g;
            && ViewOf(setting, r.word, r.frame, j)
               == (if j >= k then StartedView(setting, c.g, j) else ViewOf(setting, c.g.word, c.g.frame, j))
            && SameHeader(c.g.frame, r.frame)
            && (Fillers(setting, c.g.word, c.g.frame) ==> Fillers(setting, r.word, r.frame))
    decreases |c.g.devices| - k
  {
    hide D.After, LaidOut, ViewOf, Written, Fillers, DeviceEvent;
    LaidOutShape(setting, c.g);
    if k < |c.g.devices| {
      var e := ScanStartFor(c.g.devices[k]);
      var c1 := DeviceEvent(setting, gi, c, k, e);
      OneStart(setting, gi, c, k, j);
      OneOnDevices(setting, gi, c, k, e);
      StartPass(setting, gi, c1, k + 1, j);
    }
  }

  lemma {:induction false} StartPassLog(setting: GroupSetting, gi: nat, c: Scope, k: nat)
    requires LaidOut(setting, c.g) && ValidGroupSetting(setting) && k <= |c.g.devices|
    ensures var r := Deliver(setting, gi, c, k, ScanSignal);
            Log(gi, r.sh.trace) == Log(gi, c.sh.trace) && r.sh == c.sh.(trace := r.sh.trace)
    decreases |c.g.devices| - k
  {
    hide D.After, LaidOut, DeviceEvent, Log;
    LaidOutShape(setting, c.g);
    if k < |c.g.devices| {
      var e := ScanStartFor(c.g.devices[k]);
      OneStartLog(setting, gi, c, k, e);
      StartPassLog(setting, gi, DeviceEvent(setting, gi, c, k, e), k + 1);
    }
  }

  lemma OneStartLog(setting: GroupSetting, gi: nat, c: Scope, i: nat, e: D.DeviceEvent)
    requires LaidOut(setting, c.g) && ValidGroupSetting(setting) && i < |c.g.devices|
    ensures var r := DeviceEvent(setting, gi, c, i, e);
            Log(gi, r.sh.trace) == Log(gi, c.sh.trace) && r.sh == c.sh.(trace := r.sh.trace)
  {
    hide D.After, LaidOut, PatchFrame, DeviceEvent, Log;
    NoteOfDevice(setting, gi, c, i, e);
    LogOfMore(gi, c.sh.trace, ConnectCb(gi, i));
    LogOfMore(gi, c.sh.trace, DisconnectCb(gi, i));
  }

  /** A device event notes a connect, a disconnect or nothing. */
  lemma NoteOfDevice(setting: GroupSetting, gi: nat, c: Scope, i: nat, e: D.DeviceEvent)
    requires LaidOut(setting, c.g) && ValidGroupSetting(setting) && i < |c.g.devices|
    ensures var sh := DeviceEvent(setting, gi, c, i, e).sh;
            sh == c.sh || sh == Note(c.sh, ConnectCb(gi, i)) || sh == Note(c.sh, DisconnectCb(gi, i))
  {
    hide D.After, LaidOut, PatchFrame;
    LaidOutShape(setting, c.g);
  }

  // ---------------------------------------------------------------- scan start and scan end as a whole

  /** The request of a scan start. */
  function RequestOf(setting: GroupSetting, gi: nat, c: Scope, t: Clock): Request
    requires LaidOut(setting, c.g) && ValidGroupSetting(setting)
  {
    var c1 := Deliver(setting, gi, c, 0, ScanSignal);
    c1.g.frame.(seqNo := c1.g.seqNo, clock := t.unixMs, unitInfo := c1.sh.unitInfo, word := c1.g.word)
  }

  lemma BeginFacts(setting: GroupSetting, gi: nat, c: Scope, t: Clock)
    requires LaidOut(setting, c.g) && ValidGroupSetting(setting)
    ensures var r, q := BeginScan(setting, gi, c, t), RequestOf(setting, gi, c, t);
            && Log(gi, r.sh.trace) == Log(gi, c.sh.trace) + [Sent(gi, q, EncodeRequest(q))]
            && r.sh == c.sh.(trace := r.sh.trace)
            && r.g.frame == q && r.g.word == q.word && q.seqNo == c.g.seqNo && q.unitInfo == c.sh.unitInfo
            && SameHeader(c.g.frame.(seqNo := q.seqNo, clock := q.clock, unitInfo := q.unitInfo, word := q.word), q)
            && r.g == c.g.(devices := r.g.devices, word := q.word, frame := q, scanStart := t.now,
                           responseTimer := TimerState.Running(setting.timeout * 1000, t.now),
                           scanTimer := if setting.constantScan then TimerState.Running(setting.timeout * 1000, t.now)
                                        else c.g.scanTimer)
  {
    hide Deliver, EncodeRequest, LaidOut, Log;
    LaidOutShape(setting, c.g);
    var c1 := Deliver(setting, gi, c, 0, ScanSignal);
    LaidOutShape(setting, c1.g);
    StartPassLog(setting, gi, c, 0);
    StartHeader(setting, gi, c);
    var q := RequestOf(setting, gi, c, t);
    LogOfMore(gi, c1.sh.trace, Sent(gi, q, EncodeRequest(q)));
  }

  lemma StartHeader(setting: GroupSetting, gi: nat, c: Scope)
    requires LaidOut(setting, c.g) && ValidGroupSetting(setting)
    ensures SameHeader(c.g.frame, Deliver(setting, gi, c, 0, ScanSignal).g.frame)
  {
    hide Deliver;
    assert |c.g.devices| > 0;
    StartPass(setting, gi, c, 0, 0);
  }

  lemma BeginViews(setting: GroupSetting, gi: nat, c: Scope, t: Clock, j: nat)
    requires LaidOut(setting, c.g) && ValidGroupSetting(setting) && j < |c.g.devices|
    ensures var q := RequestOf(setting, gi, c, t); q.WellFormed() && |q.ids| == Total(setting.devices)
    ensures var q := RequestOf(setting, gi, c, t);
            && ViewOf(setting, q.word, q, j) == StartedView(setting, c.g, j)
            && (Fillers(setting, c.g.word, c.g.frame) ==> Fillers(setting, q.word, q))
  {
    hide Deliver, AreaOf;
    StartPass(setting, gi, c, 0, j);
  }

  lemma FinishFacts(setting: GroupSetting, gi: nat, c: Scope, e: D.DeviceEvent, success: bool)
    requires LaidOut(setting, c.g) && ValidGroupSetting(setting)
    requires e == D.GroupTimeout || e == D.GroupAllResponded
    ensures var r := FinishScan(setting, gi, c, e, success);
            && Log(gi, r.sh.trace) == Log(gi, c.sh.trace) + [LinkScanCb(gi, success)]
            && r.sh == c.sh.(trace := r.sh.trace, masterState := MasterState.Running)
            && r.g == c.g.(devices := r.g.devices, seqNo := NextSeqNo(c.g.seqNo))
  {
    hide Deliver, LaidOut, Log;
    LaidOutShape(setting, c.g);
    QuietPass(setting, gi, c, 0, e);
    LogOfMore(gi, c.sh.trace, LinkScanCb(gi, success));
    LogOfMore(gi, c.sh.trace + [LinkScanCb(gi, success)], MasterStateCb(MasterState.Running));
  }

  lemma ListenFacts(setting: GroupSetting, gi: nat, c: Scope)
    requires Sized(setting, c.g) && ValidGroupSetting(setting)
    ensures var r := EnterListen(setting, gi, c);
            && Log(gi, r.sh.trace) == Log(gi, c.sh.trace)
            && r.sh == c.sh.(trace := r.sh.trace, masterState := Standby, arbTimer := Stopped)
            && r.g == c.g.(devices := r.g.devices)
  {
    hide Deliver, LaidOut, Log;
    QuietPass(setting, gi, Scope(c.sh.(arbTimer := Stopped), c.g), 0, D.GroupStandby);
    LogOfMore(gi, c.sh.trace, MasterStateCb(Standby));
  }

  // ---------------------------------------------------------------- the invariant of a group

  /** The sequence number of scan k: 0 first, then 1 to 65535 over and over. */
  function SeqOf(k: nat): u16 {
    if k == 0 then 0 else (k - 1) % 0xFFFF + 1
  }

  lemma NextIsSeqOf(k: nat)
    ensures NextSeqNo(SeqOf(k)) == SeqOf(k + 1)
  {
  }

  predicate UnitInfoFits(protocolVer: u16, unitInfo: u16) {
    unitInfo <= if protocolVer == 1 then 1 else 3
  }

  /** Header fields that stay as configured. */
  predicate HeaderFits(cfg: MasterConfig, gi: nat, q: Request)
    requires gi < |cfg.groups|
  {
    && q.protocolVer == cfg.protocolVer && q.masterId == cfg.masterId && q.groupNo == gi + 1
    && q.timeout == cfg.groups[gi].timeout && q.offCount == cfg.groups[gi].offCount
  }

  /** A device's view shows its address or none, and data only with the bit on. */
  predicate PlainView(setting: GroupSetting, v: View, i: nat)
    requires i < |setting.devices|
  {
    && (v.id == IPADDR_INVALID || v.id == setting.devices[i].slaveId)
    && (!v.bit ==> forall k :: 0 <= k < |v.rww| ==> v.rww[k] == 0)
    && (!v.bit ==> forall k :: 0 <= k < |v.ry| ==> v.ry[k] == 0)
  }

  predicate FrameFits(cfg: MasterConfig, gi: nat, g: Group)
    requires ValidConfig(cfg) && gi < |cfg.groups| && LaidOut(cfg.groups[gi], g)
  {
    GoodSetting(cfg, gi);
    && HeaderFits(cfg, gi, g.frame)
    && Fillers(cfg.groups[gi], g.word, g.frame)
    && (forall i :: 0 <= i < |g.devices| ==>
          && PlainView(cfg.groups[gi], ViewOf(cfg.groups[gi], g.word, g.frame, i), i)
          && (g.devices[i].bit ==> ViewOf(cfg.groups[gi], g.word, g.frame, i).bit))
  }

  /** A request as every scan of a group sends it. */
  predicate GoodRequest(cfg: MasterConfig, gi: nat, q: Request, bytes: seq<byte>)
    requires ValidConfig(cfg) && gi < |cfg.groups|
  {
    GoodSetting(cfg, gi);
    && Sendable(q, cfg.masterId) && bytes == EncodeRequest(q)
    && HeaderFits(cfg, gi, q)
    && |q.ids| == Total(cfg.groups[gi].devices)
    && Fillers(cfg.groups[gi], q.word, q)
    && (forall i :: 0 <= i < |cfg.groups[gi].devices| ==> PlainView(cfg.groups[gi], ViewOf(cfg.groups[gi], q.word, q, i), i))
  }

  /** The log alternates: request k with sequence number SeqOf(k), then its link scan callback. */
  predicate LogEntry(cfg: MasterConfig, gi: nat, k: nat, o: Output)
    requires ValidConfig(cfg) && gi < |cfg.groups|
  {
    if k % 2 == 0 then
      o.Sent? && o.group == gi && o.request.seqNo == SeqOf(k / 2) && GoodRequest(cfg, gi, o.request, o.bytes)
    else o.LinkScanCb? && o.group == gi
  }

  predicate LogFits(cfg: MasterConfig, gi: nat, log: seq<Output>)
    requires ValidConfig(cfg) && gi < |cfg.groups|
  {
    forall k :: 0 <= k < |log| ==> LogEntry(cfg, gi, k, log[k])
  }

  predicate DevicesSound(setting: GroupSetting, g: Group) {
    forall i :: 0 <= i < |g.devices| ==> Sound(g.devices[i], setting.offCount) && g.devices[i].state != D.MasterDown
  }

  /** What holds of a group in every state. */
  predicate Base(cfg: MasterConfig, gi: nat, c: Scope)
    requires GoodConfig(cfg) && gi < |cfg.groups|
  {
    && LaidOut(cfg.groups[gi], c.g)
    && FrameFits(cfg, gi, c.g)
    && UnitInfoFits(cfg.protocolVer, c.sh.unitInfo)
    && LogFits(cfg, gi, Log(gi, c.sh.trace))
    && DevicesSound(cfg.groups[gi], c.g)
  }

  predicate AllListen(g: Group) {
    forall i :: 0 <= i < |g.devices| ==> g.devices[i].state == D.Listen
  }

  /** Between two scans. */
  predicate AllListenOrSent(g: Group) {
    forall i :: 0 <= i < |g.devices| ==> g.devices[i].state == D.Listen || g.devices[i].state == D.CyclicSent
  }

  predicate NoneSending(g: Group) {
    forall i :: 0 <= i < |g.devices| ==> g.devices[i].state != D.CyclicSending
  }

  /** At a scan boundary: every scan is finished, and the next sequence number is due. */
  predicate AtBoundary(cfg: MasterConfig, gi: nat, c: Scope)
    requires GoodConfig(cfg) && gi < |cfg.groups|
  {
    var n := |Log(gi, c.sh.trace)|;
    && Base(cfg, gi, c)
    && n % 2 == 0 && c.g.seqNo == SeqOf(n / 2)
    && AllListenOrSent(c.g)
    && (n == 0 ==> AllListen(c.g))
  }

  /** While a scan is under way. */
  predicate Scanning(cfg: MasterConfig, gi: nat, c: Scope)
    requires GoodConfig(cfg) && gi < |cfg.groups|
  {
    var n := |Log(gi, c.sh.trace)|;
    && Base(cfg, gi, c)
    && n % 2 == 1 && c.g.seqNo == SeqOf(n / 2)
    && (c.g.seqNo == 0 ==> NoneSending(c.g))
    && c.g.responseTimer == TimerState.Running(cfg.groups[gi].timeout * 1000, c.g.scanStart)
    && (cfg.groups[gi].constantScan ==> c.g.scanTimer == c.g.responseTimer)
  }

  /** The invariant of a group, from the end of initialisation on. */
  predicate GroupInv(cfg: MasterConfig, gi: nat, c: Scope)
    requires GoodConfig(cfg) && gi < |cfg.groups|
  {
    match c.g.state
    case MasterDown => false
    case MasterListen => Base(cfg, gi, c) && AllListen(c.g)
    case MasterArbitration => AtBoundary(cfg, gi, c) && Log(gi, c.sh.trace) == []
    case LinkScanComp =>
      AtBoundary(cfg, gi, c) && Log(gi, c.sh.trace) != [] && cfg.groups[gi].constantScan && c.g.scanTimer.Running?
    case LinkScan => Scanning(cfg, gi, c)
  }
}
