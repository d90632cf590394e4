/** Master and slaves together: with every frame delivered once and in time, every link scan
    completes with success, whatever the order of the responses. */
module ClosedLoop {
  import opened Words
  import opened Config
  import opened Layout
  import opened Timer
  import opened Frames
  import opened Responses
  import opened GroupModel
  import M = MasterModel
  import opened GroupRuns
  import opened Histories
  import opened FrameViews
  import opened Scans
  import opened ScanInvariant
  import opened ScanStarts
  import opened Freshness
  import opened Startup
  import opened SlaveModel
  import opened Delivery
  import D = DeviceModel

  // ---------------------------------------------------------------- the master between request and responses

  /** A device in scan k, before or after its response. */
  predicate InScan(k: nat, d: D.Device, answered: bool) {
    && d.enabled && !d.forced && d.bit == (k > 0)
    && (if answered then d.state == D.CyclicSent && (d.latest.received ==> d.latest.seqNo == SeqOf(k))
        else d.state == (if k == 0 then D.WaitTd else D.CyclicSending)
             && (d.latest.received ==> k > 0 && d.latest.seqNo == SeqOf(k - 1)))
  }

  /** Request k is out, and the devices marked in `answered` have responded to it. */
  predicate Open(cfg: MasterConfig, k: nat, c: Scope, answered: seq<bool>)
    requires M.GoodConfig(cfg)
  {
    && GroupInv(cfg, 0, c) && c.g.state == LinkScan
    && |Log(0, c.sh.trace)| == 2 * k + 1
    && |c.g.devices| == |answered| == |cfg.groups[0].devices|
    && (forall i :: 0 <= i < |answered| ==> InScan(k, c.g.devices[i], answered[i]))
  }

  /** A request that shows every device, with the bits of a connected group from scan 1 on. */
  predicate ShowsAll(cfg: MasterConfig, k: nat, q: Request)
    requires M.GoodConfig(cfg)
  {
    && ValidGroupSetting(cfg.groups[0]) && Holds(cfg.groups[0], q)
    && (forall i :: 0 <= i < |cfg.groups[0].devices| ==>
          && ViewOf(cfg.groups[0], q.word, q, i).id == cfg.groups[0].devices[i].slaveId
          && ViewOf(cfg.groups[0], q.word, q, i).bit == (k > 0))
  }

  /** From scan 1 on a request carries the output memory of every device. */
  predicate ShowsData(cfg: MasterConfig, k: nat, ry: seq<byte>, rww: seq<byte>, q: Request)
    requires M.GoodConfig(cfg)
  {
    && ValidGroupSetting(cfg.groups[0]) && Holds(cfg.groups[0], q) && |ry| == BITS && |rww| == WORDS
    && (k > 0 ==> forall i :: 0 <= i < |cfg.groups[0].devices| ==> ShowsOutputs(cfg.groups[0], ry, rww, q, i))
  }

  predicate ShowsOutputs(setting: GroupSetting, ry: seq<byte>, rww: seq<byte>, q: Request, i: nat)
    requires i < |setting.devices| && Holds(setting, q) && |ry| == BITS && |rww| == WORDS
  {
    AreasFit(setting, i);
    && ViewOf(setting, q.word, q, i).ry == AreaOf(setting, ry, BIT_AREA, i)
    && ViewOf(setting, q.word, q, i).rww == AreaOf(setting, rww, WORD_AREA, i)
  }

  lemma SeqAlwaysChanges(k: nat)
    requires k > 0
    ensures SeqOf(k) != SeqOf(k - 1) && SeqOf(k) != 0
  {
  }

  // ---------------------------------------------------------------- the next scan

  /** A device between scans k - 1 and k, all responses in (or none expected yet for k == 0). */
  predicate Rested(k: nat, d: D.Device) {
    && d.enabled && !d.forced && d.bit == (k > 1)
    && (k == 0 ==> d.state == D.Listen && !d.latest.received)
    && (k > 0 ==> d.state == D.CyclicSent && (d.latest.received ==> d.latest.seqNo == SeqOf(k - 1)))
  }

  predicate AllRested(cfg: MasterConfig, k: nat, c: Scope)
    requires M.GoodConfig(cfg)
  {
    && |c.g.devices| == |cfg.groups[0].devices|
    && (forall i :: 0 <= i < |c.g.devices| ==> Rested(k, c.g.devices[i]))
  }

  lemma RestedStarts(k: nat, d: D.Device, setting: DeviceSetting, offCount: u16)
    requires Rested(k, d)
    ensures D.Patches(d.state, ScanStartFor(d))
    ensures InScan(k, D.After(d, setting, offCount, ScanStartFor(d)), false)
    ensures D.After(d, setting, offCount, ScanStartFor(d)).state != D.CyclicSuspend
  {
  }

  /** From a scan boundary with all devices rested, a scan start opens scan k and shows all. */
  lemma StartOpens(cfg: MasterConfig, k: nat, c: Scope, t: Clock)
    requires M.GoodConfig(cfg) && AtBoundary(cfg, 0, c) && |Log(0, c.sh.trace)| == 2 * k && AllRested(cfg, k, c)
    requires c.g.state == LinkScan && ValidGroupSetting(cfg.groups[0]) && LaidOut(cfg.groups[0], c.g)
    ensures var r, q := BeginScan(cfg.groups[0], 0, c, t), RequestOf(cfg.groups[0], 0, c, t);
            && Open(cfg, k, r, seq(|c.g.devices|, i => false))
            && ShowsAll(cfg, k, q) && ShowsData(cfg, k, c.g.ry, c.g.rww, q)
            && r.g.frame == q && q.parameterNo == c.g.frame.parameterNo
            && Log(0, r.sh.trace) == Log(0, c.sh.trace) + [Sent(0, q, EncodeRequest(q))]
            && r.sh.arbTimer == c.sh.arbTimer
  {
    hide BeginScan, RequestOf, EncodeRequest, LaidOut, Log, D.After, Base, Scanning, InScan, Rested, AreaOf, Fillers;
    var setting := cfg.groups[0];
    var r, q := BeginScan(setting, 0, c, t), RequestOf(setting, 0, c, t);
    LaidOutShape(setting, c.g);
    LaidOutShape(setting, r.g);
    BeginKeeps(cfg, 0, c, t);
    BeginFacts(setting, 0, c, t);
    forall i | 0 <= i < |c.g.devices|
      ensures InScan(k, r.g.devices[i], false) && Holds(setting, q)
        && ViewOf(setting, q.word, q, i).id == setting.devices[i].slaveId && ViewOf(setting, q.word, q, i).bit == (k > 0)
        && (k > 0 ==> ShowsOutputs(setting, c.g.ry, c.g.rww, q, i))
    {
      BeginViews(setting, 0, c, t, i);
      BeginOnDevice(setting, 0, c, t, i);
      RestedStarts(k, c.g.devices[i], setting.devices[i], setting.offCount);
      WrittenIsPlain(setting, c.g.rww, c.g.ry, r.g.devices[i], i);
      OpenBit(k, r.g.devices[i]);
      WrittenShows(setting, c.g.rww, c.g.ry, r.g.devices[i], q, i);
    }
    SomeDevice(cfg);
  }

  lemma WrittenShows(setting: GroupSetting, rww: seq<byte>, ry: seq<byte>, d: D.Device, q: Request, i: nat)
    requires Holds(setting, q) && i < |setting.devices| && |rww| == WORDS && |ry| == BITS
    requires ViewOf(setting, q.word, q, i) == Written(setting, rww, ry, d, i)
    ensures d.bit || d.forced ==> ShowsOutputs(setting, ry, rww, q, i)
  {
    hide AreaOf;
    AreasFit(setting, i);
  }

  lemma OpenBit(k: nat, d: D.Device)
    requires InScan(k, d, false)
    ensures (d.bit || d.forced) == (k > 0)
  {
  }

  lemma SomeDevice(cfg: MasterConfig)
    requires M.GoodConfig(cfg)
    ensures |cfg.groups| > 0 && |cfg.groups[0].devices| > 0
  {
    assert ValidGroup(cfg.groups[0], cfg.masterId);
  }

  // ---------------------------------------------------------------- the end of a scan

  predicate AllAnswered(answered: seq<bool>) {
    forall i :: 0 <= i < |answered| ==> answered[i]
  }

  lemma AnsweredRests(k: nat, d: D.Device, setting: DeviceSetting, offCount: u16)
    requires InScan(k, d, true)
    ensures Rested(k + 1, D.After(d, setting, offCount, D.GroupAllResponded))
  {
  }

  /** What LINKSCAN_COMPLETE leaves before the next start: a boundary, one success callback more,
      and rested devices. */
  lemma ScanCloses(cfg: MasterConfig, k: nat, c: Scope, answered: seq<bool>)
    requires M.GoodConfig(cfg) && Open(cfg, k, c, answered) && AllAnswered(answered)
    requires ValidGroupSetting(cfg.groups[0]) && LaidOut(cfg.groups[0], c.g)
    ensures var r := AfterEnd(cfg.groups[0], 0, c, LinkScanComplete);
            && AtBoundary(cfg, 0, r) && AllRested(cfg, k + 1, r) && r.g.state == LinkScan
            && Log(0, r.sh.trace) == Log(0, c.sh.trace) + [LinkScanCb(0, true)]
            && r.g.frame == c.g.frame && r.sh.arbTimer == c.sh.arbTimer
  {
    hide LaidOut, Log, D.After, Base, InScan, Rested, FinishScan;
    var setting := cfg.groups[0];
    var c0 := Scope(c.sh, c.g.(responseTimer := Stopped));
    var c1 := At(c0, LinkScanComp);
    NoneSendingWhenAnswered(cfg, k, c, answered);
    TimersApart(cfg, 0, c, Stopped, c.g.scanTimer);
    StateApart(cfg, 0, c0, LinkScanComp, c.sh);
    BaseLaidOut(cfg, c1);
    LaidOutShape(setting, c1.g);
    FinishKeeps(cfg, 0, c1, D.GroupAllResponded, true);
    FinishFacts(setting, 0, c1, D.GroupAllResponded, true);
    var c2 := FinishScan(setting, 0, c1, D.GroupAllResponded, true);
    BaseLaidOut(cfg, c2);
    LaidOutShape(setting, c2.g);
    StateApart(cfg, 0, c2, LinkScan, c2.sh);
    forall i | 0 <= i < |c2.g.devices| ensures Rested(k + 1, c2.g.devices[i]) {
      FinishOnDevice(setting, 0, c1, D.GroupAllResponded, true, i);
      AnsweredRests(k, c.g.devices[i], setting.devices[i], setting.offCount);
    }
  }

  lemma BaseLaidOut(cfg: MasterConfig, c: Scope)
    requires M.GoodConfig(cfg) && |cfg.groups| > 0 && Base(cfg, 0, c)
    ensures LaidOut(cfg.groups[0], c.g)
  {
  }

  lemma NoneSendingWhenAnswered(cfg: MasterConfig, k: nat, c: Scope, answered: seq<bool>)
    requires M.GoodConfig(cfg) && Open(cfg, k, c, answered) && AllAnswered(answered)
    ensures NoneSending(c.g)
  {
    hide GroupInv;
    forall i | 0 <= i < |c.g.devices| ensures c.g.devices[i].state != D.CyclicSending {
      assert InScan(k, c.g.devices[i], answered[i]);
    }
  }

  /** After the last response: with constant link scan time the group waits for its timer, otherwise
      scan k + 1 is open at once. */
  lemma CompleteOpensNext(cfg: MasterConfig, k: nat, c: Scope, answered: seq<bool>, t: Clock)
    requires M.GoodConfig(cfg) && Open(cfg, k, c, answered) && AllAnswered(answered)
    requires ValidGroupSetting(cfg.groups[0]) && LaidOut(cfg.groups[0], c.g)
    ensures var setting, r := cfg.groups[0], GroupEventStep(cfg, cfg.groups[0], 0, c, t, LinkScanComplete);
            var e := AfterEnd(setting, 0, c, LinkScanComplete);
            if setting.constantScan then r == At(e, LinkScanComp)
            else r == BeginScan(setting, 0, e, t)
  {
    hide LaidOut, FinishScan, BeginScan, GroupInv, Log, InScan;
  }

  // ---------------------------------------------------------------- one response

  /** A response in order: from device i, for scan k, with success. */
  predicate Proper(cfg: MasterConfig, k: nat, i: nat, r: Response)
    requires M.GoodConfig(cfg) && |cfg.groups| > 0
  {
    && i < |cfg.groups[0].devices|
    && SendableResponse(r, cfg.groups[0].devices[i].slaveId)
    && r.groupNo == 1 && r.seqNo == SeqOf(k) && r.endCode == ENDCODE_SUCCESS
    && r.Stations() == cfg.groups[0].devices[i].stations
  }

  lemma SeqInScan(cfg: MasterConfig, k: nat, c: Scope, answered: seq<bool>)
    requires M.GoodConfig(cfg) && Open(cfg, k, c, answered)
    ensures c.g.seqNo == SeqOf(k)
  {
    hide Base, Log, InScan;
  }

  lemma NotDuplicate(k: nat, d: D.Device, r: Response)
    requires InScan(k, d, false) && r.seqNo == SeqOf(k)
    ensures M.Judge(d, SeqOf(k), r) == M.InSequence
  {
    if k > 0 {
      SeqAlwaysChanges(k);
    }
  }

  lemma ReceiveAnswers(k: nat, d: D.Device, d2: D.Device, setting: DeviceSetting, offCount: u16)
    requires InScan(k, d, false) && SameCore(d, d2) && d2.enabled == d.enabled && d2.forced == d.forced
    requires d2.latest.received && d2.latest.seqNo == SeqOf(k)
    ensures InScan(k, D.After(d2, setting, offCount, D.ReceiveOk), true)
    ensures !D.Patches(d2.state, D.ReceiveOk)
  {
  }

  /** Whether everything is in, as the master decides it. */
  lemma AllInIffAnswered(cfg: MasterConfig, k: nat, c: Scope, answered: seq<bool>)
    requires M.GoodConfig(cfg) && Open(cfg, k, c, answered)
    ensures M.HaveReceivedFromAll(c.g) <==> AllAnswered(answered)
  {
    hide GroupInv, Log;
    SomeDevice(cfg);
    SeqInScan(cfg, k, c, answered);
    forall i | 0 <= i < |answered| ensures InScan(k, c.g.devices[i], answered[i]) {
    }
    assert InScan(k, c.g.devices[0], answered[0]);
    if k > 0 {
      SeqAlwaysChanges(k);
    }
  }

  /** What the log, the frame and the arbitration timer have in common. */
  predicate Calmly(c: Scope, r: Scope) {
    && Log(0, r.sh.trace) == Log(0, c.sh.trace) && r.sh.arbTimer == c.sh.arbTimer
    && r.g.frame == c.g.frame && r.g.state == c.g.state && |r.g.devices| == |c.g.devices|
  }

  /** And the output memory with it. */
  predicate Steadily(c: Scope, r: Scope) {
    Calmly(c, r) && r.g.ry == c.g.ry && r.g.rww == c.g.rww
  }

  /** Device i replaced by d, everything else in the scan as before. */
  lemma OpenWith(cfg: MasterConfig, k: nat, c: Scope, answered: seq<bool>, r: Scope, i: nat, done: bool)
    requires M.GoodConfig(cfg) && Open(cfg, k, c, answered) && i < |answered| && GroupInv(cfg, 0, r) && Calmly(c, r)
    requires forall j :: 0 <= j < |c.g.devices| && j != i ==> r.g.devices[j] == c.g.devices[j]
    requires InScan(k, r.g.devices[i], done)
    ensures Open(cfg, k, r, answered[i := done])
  {
    hide GroupInv, InScan, Log;
  }

  /** Counting and keeping a response changes nothing the scan depends on. */
  lemma KeptScope(cfg: MasterConfig, m: M.Master, t: Clock, i: nat, r: Response)
    requires M.Ready(cfg, m) && i < |m.groups[0].devices| && i < |cfg.groups[0].devices|
    requires GroupInv(cfg, 0, M.ScopeOf(m, 0)) && r.WellFormed() && r.Stations() == cfg.groups[0].devices[i].stations
    ensures var q := M.KeepResponse(cfg, m, t, 0, i, r);
            && GroupInv(cfg, 0, M.ScopeOf(q, 0)) && Steadily(M.ScopeOf(m, 0), M.ScopeOf(q, 0))
            && (forall j :: 0 <= j < |m.groups[0].devices| && j != i ==> q.groups[0].devices[j] == m.groups[0].devices[j])
            && q.groups[0].devices[i] == Recorded(cfg, m, t, 0, i, r)
  {
    hide GroupInv, LaidOut, Log, M.ReportChanges, M.StoreData, M.KeepResponse;
    M.GoodSetting(cfg, 0);
    var d := Recorded(cfg, m, t, 0, i, r);
    var m1 := M.WithDevice(cfg, m, 0, i, d);
    KeepResponseParts(cfg, m, t, 0, i, r);
    TouchKeeps(cfg, 0, M.ScopeOf(m, 0), i, d);
    var g2 := M.StoreData(cfg.groups[0], m1.groups[0], i, r, m.groups[0].devices[i].bit);
    DataKeeps(cfg, 0, M.ScopeOf(m1, 0), g2);
    var sh := M.ReportChanges(m.sh, 0, i, m.groups[0].devices[i].latest, r);
    ReportsAreOthers(0, m.sh, 0, i, m.groups[0].devices[i].latest, r, 0);
    LogIgnoresOthers(0, m.sh.trace, sh.trace);
    InvUnitInfo(cfg, 0, M.ScopeOf(m, 0));
    SharedKeeps(cfg, 0, Scope(m.sh, g2), sh);
    ReportKeepsTimer(m.sh, 0, i, m.groups[0].devices[i].latest, r);
  }

  lemma ReportKeepsTimer(sh: Shared, gi: nat, i: nat, latest: D.FrameValues, r: Response)
    ensures M.ReportChanges(sh, gi, i, latest, r).arbTimer == sh.arbTimer
  {
  }

  /** The record of the response as the device's latest frame. */
  lemma RecordedFacts(cfg: MasterConfig, m: M.Master, t: Clock, i: nat, r: Response)
    requires 0 < |m.groups| && i < |m.groups[0].devices|
    ensures var d, q := m.groups[0].devices[i], Recorded(cfg, m, t, 0, i, r);
            && SameCore(d, q) && q.enabled == d.enabled && q.forced == d.forced
            && q.latest.received && q.latest.seqNo == r.seqNo
  {
  }

  // ---------------------------------------------------------------- the step that takes a response

  /** A proper response, taken up to its event. */
  function Taken(cfg: MasterConfig, m: M.Master, t: Clock, i: nat, r: Response): (q: M.Master)
    requires M.Ready(cfg, m) && 0 < |m.groups| && i < |m.groups[0].devices|
    requires r.WellFormed() && r.Stations() == cfg.groups[0].devices[i].stations
    ensures M.Ready(cfg, q) && |q.groups| == |m.groups|
  {
    M.KeepResponse(cfg, M.WithDevice(cfg, m, 0, i, M.CountIncoming(m.groups[0].devices[i])), t, 0, i, r)
  }

  lemma FindsDevice(cfg: MasterConfig, i: nat)
    requires M.GoodConfig(cfg) && |cfg.groups| > 0 && i < |cfg.groups[0].devices|
    ensures DeviceIndex(cfg.groups[0].devices, cfg.groups[0].devices[i].slaveId) == i
    ensures cfg.groups[0].devices[i].slaveId != cfg.masterId
  {
    DevicesAreUsable(cfg, 0);
  }

  lemma SequenceTaken(cfg: MasterConfig, m: M.Master, t: Clock, i: nat, r: Response, ip: u32)
    requires M.Ready(cfg, m) && 0 < |m.groups| && i < |m.groups[0].devices| && i < |cfg.groups[0].devices|
    requires r.WellFormed() && r.endCode == ENDCODE_SUCCESS && r.Stations() == cfg.groups[0].devices[i].stations
    ensures M.HandleInSequence(cfg, m, t, 0, i, r, ip)
            == M.Answered(cfg, M.KeepResponse(cfg, m, t, 0, i, r), t, 0, i, D.ReceiveOk)
  {
    hide M.KeepResponse, M.Answered, LaidOut;
    var g := m.groups[0];
    assert g.devices[i := g.devices[i]] == g.devices;
    assert m.groups[0 := g] == m.groups;
    assert M.WithDevice(cfg, m.(sh := m.sh), 0, i, g.devices[i]) == m;
  }

  /** In an open scan a proper response goes straight to its event. */
  lemma ProperIsTaken(cfg: MasterConfig, k: nat, m: M.Master, answered: seq<bool>, t: Clock, i: nat, r: Response)
    requires M.Ready(cfg, m) && |cfg.groups| > 0 && Open(cfg, k, M.ScopeOf(m, 0), answered)
    requires i < |answered| && !answered[i] && Proper(cfg, k, i, r)
    ensures var input := M.Frame(t, EncodeResponse(r), cfg.groups[0].devices[i].slaveId);
            && M.Allowed(input)
            && M.Step(cfg, m, input) == M.Answered(cfg, Taken(cfg, m, t, i, r), t, 0, i, D.ReceiveOk)
  {
    hide EncodeResponse, ParseResponse, LaidOut, GroupInv, Log, M.HandleInSequence, M.KeepResponse, M.Answered, InScan;
    var ip, b := cfg.groups[0].devices[i].slaveId, EncodeResponse(r);
    EncodedResponseIsAccepted(r, ip);
    ReplyIsResponse(b, ip);
    FindsDevice(cfg, i);
    AcceptedResponseIsEncoded(b, ip);
    var d := m.groups[0].devices[i];
    assert InScan(k, d, answered[i]);
    SeqInScan(cfg, k, M.ScopeOf(m, 0), answered);
    CountsInScan(k, d);
    NotDuplicate(k, M.CountIncoming(d), r);
    SequenceTaken(cfg, M.WithDevice(cfg, m, 0, i, M.CountIncoming(d)), t, i, r, ip);
  }

  lemma CountsInScan(k: nat, d: D.Device)
    requires InScan(k, d, false)
    ensures InScan(k, M.CountIncoming(d), false) && SameCore(d, M.CountIncoming(d))
  {
  }

  /** The event of a proper response marks its device as answered and changes nothing else. */
  lemma AnswerOpens(cfg: MasterConfig, k: nat, m: M.Master, answered: seq<bool>, t: Clock, i: nat, r: Response)
    requires M.Ready(cfg, m) && |cfg.groups| > 0 && Open(cfg, k, M.ScopeOf(m, 0), answered)
    requires i < |answered| && !answered[i] && Proper(cfg, k, i, r)
    ensures var q := M.OneDevice(cfg, Taken(cfg, m, t, i, r), 0, i, D.ReceiveOk);
            Open(cfg, k, M.ScopeOf(q, 0), answered[i := true]) && Steadily(M.ScopeOf(m, 0), M.ScopeOf(q, 0))
  {
    hide EncodeResponse, LaidOut, GroupInv, Log, M.KeepResponse, InScan, D.After, PatchFrame;
    M.GoodSetting(cfg, 0);
    var d := m.groups[0].devices[i];
    assert InScan(k, d, answered[i]);
    CountsInScan(k, d);
    TouchKeeps(cfg, 0, M.ScopeOf(m, 0), i, M.CountIncoming(d));
    var m1 := M.WithDevice(cfg, m, 0, i, M.CountIncoming(d));
    KeptScope(cfg, m1, t, i, r);
    RecordedFacts(cfg, m1, t, i, r);
    var m2 := Taken(cfg, m, t, i, r);
    FireKeeps(cfg, 0, M.ScopeOf(m2, 0), i, D.ReceiveOk);
    ReceiveAnswers(k, M.CountIncoming(d), m2.groups[0].devices[i], cfg.groups[0].devices[i], cfg.groups[0].offCount);
    OpenWith(cfg, k, M.ScopeOf(m, 0), answered, M.ScopeOf(M.OneDevice(cfg, m2, 0, i, D.ReceiveOk), 0), i, true);
  }

  // ---------------------------------------------------------------- what a step of the master leads to

  /** Scan k has just opened with a request that shows every device, after `closing` was logged. */
  predicate Opens(cfg: MasterConfig, k: nat, c: Scope, closing: seq<Output>, r: Scope)
    requires M.GoodConfig(cfg)
  {
    && Open(cfg, k, r, seq(|r.g.devices|, i => false))
    && ShowsAll(cfg, k, r.g.frame) && ShowsData(cfg, k, c.g.ry, c.g.rww, r.g.frame)
    && Log(0, r.sh.trace) == Log(0, c.sh.trace) + closing + [Sent(0, r.g.frame, EncodeRequest(r.g.frame))]
    && r.sh.arbTimer == Stopped && r.g.frame.parameterNo == c.g.frame.parameterNo
  }

  /** Between scans k - 1 and k, waiting for the constant link scan timer. */
  predicate Paused(cfg: MasterConfig, k: nat, c: Scope)
    requires M.GoodConfig(cfg)
  {
    && k > 0 && GroupInv(cfg, 0, c) && c.g.state == LinkScanComp && AllRested(cfg, k, c)
    && |Log(0, c.sh.trace)| == 2 * k && c.g.responseTimer == Stopped && c.sh.arbTimer == Stopped
  }

  /** What taking the response of device i leads to. */
  predicate AfterResponse(cfg: MasterConfig, k: nat, c: Scope, answered: seq<bool>, r: Scope)
    requires M.GoodConfig(cfg)
  {
    if !AllAnswered(answered) then Open(cfg, k, r, answered) && Calmly(c, r)
    else if !cfg.groups[0].constantScan then Opens(cfg, k + 1, c, [LinkScanCb(0, true)], r)
    else
      && Paused(cfg, k + 1, r) && Log(0, r.sh.trace) == Log(0, c.sh.trace) + [LinkScanCb(0, true)]
      && r.g.frame == c.g.frame
  }

  lemma OpensFrom(cfg: MasterConfig, k: nat, b: Scope, t: Clock, c: Scope, closing: seq<Output>)
    requires M.GoodConfig(cfg) && AtBoundary(cfg, 0, b) && |Log(0, b.sh.trace)| == 2 * k && AllRested(cfg, k, b)
    requires b.g.state == LinkScan && ValidGroupSetting(cfg.groups[0]) && LaidOut(cfg.groups[0], b.g)
    requires Log(0, b.sh.trace) == Log(0, c.sh.trace) + closing && b.sh.arbTimer == Stopped
    requires b.g.frame.parameterNo == c.g.frame.parameterNo && b.g.ry == c.g.ry && b.g.rww == c.g.rww
    ensures Opens(cfg, k, c, closing, BeginScan(cfg.groups[0], 0, b, t))
  {
    hide BeginScan, RequestOf, EncodeRequest, LaidOut, Log, AtBoundary, AllRested, ShowsAll, ShowsData, Rested, InScan, GroupInv;
    StartOpens(cfg, k, b, t);
    var r := BeginScan(cfg.groups[0], 0, b, t);
    assert Open(cfg, k, r, seq(|b.g.devices|, i => false));
    assert |r.g.devices| == |b.g.devices|;
  }

  lemma EndOfScan(cfg: MasterConfig, k: nat, c: Scope, answered: seq<bool>, t: Clock)
    requires M.GoodConfig(cfg) && Open(cfg, k, c, answered) && AllAnswered(answered) && c.sh.arbTimer == Stopped
    requires ValidGroupSetting(cfg.groups[0]) && LaidOut(cfg.groups[0], c.g)
    ensures AfterResponse(cfg, k, c, answered, GroupEventStep(cfg, cfg.groups[0], 0, c, t, LinkScanComplete))
  {
    hide LaidOut, FinishScan, BeginScan, GroupEventStep, GroupInv, Log, InScan, Rested, AtBoundary, Opens, AfterEnd;
    CompleteOpensNext(cfg, k, c, answered, t);
    ScanCloses(cfg, k, c, answered);
    var b := AfterEnd(cfg.groups[0], 0, c, LinkScanComplete);
    if cfg.groups[0].constantScan {
      PausesAt(cfg, k, c, answered);
    } else {
      EndTimers(cfg.groups[0], c);
      OpensFrom(cfg, k + 1, b, t, c, [LinkScanCb(0, true)]);
    }
  }

  lemma PausesAt(cfg: MasterConfig, k: nat, c: Scope, answered: seq<bool>)
    requires M.GoodConfig(cfg) && Open(cfg, k, c, answered) && AllAnswered(answered) && c.sh.arbTimer == Stopped
    requires ValidGroupSetting(cfg.groups[0]) && LaidOut(cfg.groups[0], c.g) && cfg.groups[0].constantScan
    ensures Paused(cfg, k + 1, At(AfterEnd(cfg.groups[0], 0, c, LinkScanComplete), LinkScanComp))
  {
    hide LaidOut, FinishScan, Log, InScan, Rested, Base;
    ScanCloses(cfg, k, c, answered);
    var b := AfterEnd(cfg.groups[0], 0, c, LinkScanComplete);
    StateApart(cfg, 0, b, LinkScanComp, b.sh);
    EndTimers(cfg.groups[0], c);
  }

  lemma EndTimers(setting: GroupSetting, c: Scope)
    requires ValidGroupSetting(setting) && LaidOut(setting, c.g)
    ensures AfterEnd(setting, 0, c, LinkScanComplete).g.scanTimer == c.g.scanTimer
    ensures AfterEnd(setting, 0, c, LinkScanComplete).g.responseTimer == Stopped
    ensures AfterEnd(setting, 0, c, LinkScanComplete).g.ry == c.g.ry && AfterEnd(setting, 0, c, LinkScanComplete).g.rww == c.g.rww
  {
    hide Deliver;
  }

  /** One proper response: either the scan goes on, or it has completed with success. */
  lemma ResponseStep(cfg: MasterConfig, k: nat, m: M.Master, answered: seq<bool>, t: Clock, i: nat, r: Response)
    requires M.Ready(cfg, m) && |cfg.groups| > 0 && Open(cfg, k, M.ScopeOf(m, 0), answered) && m.sh.arbTimer == Stopped
    requires i < |answered| && !answered[i] && Proper(cfg, k, i, r)
    ensures var input := M.Frame(t, EncodeResponse(r), cfg.groups[0].devices[i].slaveId);
            && M.Allowed(input)
            && AfterResponse(cfg, k, M.ScopeOf(m, 0), answered[i := true], M.ScopeOf(M.Step(cfg, m, input), 0))
  {
    hide EncodeResponse, LaidOut, GroupInv, Log, InScan, M.Step, M.Allowed, M.OneDevice, Opens, Paused,
         M.HaveReceivedFromAll, GroupEventStep;
    M.GoodSetting(cfg, 0);
    ProperIsTaken(cfg, k, m, answered, t, i, r);
    AnswerOpens(cfg, k, m, answered, t, i, r);
    var q := M.OneDevice(cfg, Taken(cfg, m, t, i, r), 0, i, D.ReceiveOk);
    AllInIffAnswered(cfg, k, M.ScopeOf(q, 0), answered[i := true]);
    if AllAnswered(answered[i := true]) {
      LaidOutShape(cfg.groups[0], q.groups[0]);
      EndOfScan(cfg, k, M.ScopeOf(q, 0), answered[i := true], t);
      SameLeads(cfg, k, M.ScopeOf(m, 0), M.ScopeOf(q, 0), answered[i := true],
                GroupEventStep(cfg, cfg.groups[0], 0, M.ScopeOf(q, 0), t, LinkScanComplete));
    }
  }

  lemma SameLeads(cfg: MasterConfig, k: nat, c: Scope, c1: Scope, answered: seq<bool>, r: Scope)
    requires M.GoodConfig(cfg) && Steadily(c, c1) && AllAnswered(answered) && AfterResponse(cfg, k, c1, answered, r)
    ensures AfterResponse(cfg, k, c, answered, r)
  {
    hide Log, Open, Paused, ShowsAll, ShowsData;
  }

  // ---------------------------------------------------------------- polls of the master

  lemma TickOfOne(cfg: MasterConfig, m: M.Master, t: Clock)
    requires M.Ready(cfg, m) && |m.groups| == 1
    ensures M.Step(cfg, m, M.Timers(t)) == M.MonitorGroup(cfg, M.MonitorArbitration(cfg, m, t), 0, t)
  {
    hide M.MonitorGroup, M.MonitorArbitration, LaidOut;
    var r := M.MonitorGroup(cfg, M.MonitorArbitration(cfg, m, t), 0, t);
    assert M.MonitorGroups(cfg, r, 1, t) == r;
  }

  /** A poll in time leaves an open scan open. */
  lemma MonitorInScan(cfg: MasterConfig, k: nat, m: M.Master, answered: seq<bool>, t: Clock)
    requires M.Ready(cfg, m) && |cfg.groups| > 0 && Open(cfg, k, M.ScopeOf(m, 0), answered)
    requires !Expired(m.groups[0].responseTimer, t.now)
    ensures var r := M.ScopeOf(M.MonitorGroup(cfg, m, 0, t), 0);
            Open(cfg, k, r, answered) && Calmly(M.ScopeOf(m, 0), r) && r.g.responseTimer == m.groups[0].responseTimer
  {
    hide LaidOut, Log, InScan, Base, Expired;
    M.GoodSetting(cfg, 0);
    TimersLaidOut(cfg.groups[0], m.groups[0]);
    TimersApart(cfg, 0, M.ScopeOf(m, 0), m.groups[0].responseTimer, Stopped);
  }

  lemma MonitorInPause(cfg: MasterConfig, k: nat, m: M.Master, t: Clock)
    requires M.Ready(cfg, m) && |cfg.groups| > 0 && Paused(cfg, k, M.ScopeOf(m, 0))
    ensures var c, r := M.ScopeOf(m, 0), M.ScopeOf(M.MonitorGroup(cfg, m, 0, t), 0);
            if Expired(m.groups[0].scanTimer, t.now) then Opens(cfg, k, c, [], r) else r == c
  {
    hide LaidOut, Log, Rested, Base, BeginScan, Expired, Opens, AllListenOrSent;
    M.GoodSetting(cfg, 0);
    NeverExpires(t.now);
    var c := M.ScopeOf(m, 0);
    if Expired(m.groups[0].scanTimer, t.now) {
      TimersApart(cfg, 0, c, Stopped, Stopped);
      var c1 := Scope(c.sh, c.g.(scanTimer := Stopped));
      TimersLaidOut(cfg.groups[0], c.g);
      StateApart(cfg, 0, c1, LinkScan, c1.sh);
      LaidOutAt(cfg.groups[0], c1, LinkScan);
      OpensFrom(cfg, k, At(c1, LinkScan), t, c, []);
    }
  }

  lemma NeverExpires(now: u32)
    ensures !Expired(Stopped, now)
  {
  }

  /** No device is reserved, so all are enabled from the start. */
  predicate NoneReserved(cfg: MasterConfig) {
    |cfg.groups| > 0 && forall i :: 0 <= i < |cfg.groups[0].devices| ==> !cfg.groups[0].devices[i].reserved
  }

  lemma BegunIsRested(cfg: MasterConfig, c: Scope)
    requires M.GoodConfig(cfg) && NoneReserved(cfg) && Begun(cfg, 0, c)
    ensures AllRested(cfg, 0, c) && AtBoundary(cfg, 0, c) && Log(0, c.sh.trace) == []
  {
    hide Base, Log;
    forall i | 0 <= i < |c.g.devices| ensures Rested(0, c.g.devices[i]) {
      assert Untouched(cfg.groups[0].devices[i], c.g.devices[i]);
    }
  }

  /** The end of arbitration, for the group. */
  lemma ArbitrationOpens(cfg: MasterConfig, c: Scope, t: Clock)
    requires M.GoodConfig(cfg) && NoneReserved(cfg) && Begun(cfg, 0, c) && c.sh.arbTimer == Stopped
    requires ValidGroupSetting(cfg.groups[0]) && LaidOut(cfg.groups[0], c.g)
    ensures var r := GroupEventStep(cfg, cfg.groups[0], 0, c, t, ArbitrationDone);
            Opens(cfg, 0, c, [], r) && r.g.responseTimer == TimerState.Running(cfg.groups[0].timeout * 1000, t.now)
  {
    hide LaidOut, Log, Rested, Base, BeginScan, Opens, AllListenOrSent, AllRested, RequestOf, EncodeRequest, AllListen;
    var setting := cfg.groups[0];
    BegunIsRested(cfg, c);
    var sh := SetMasterState(c.sh, MasterState.Running);
    LogOfMore(0, c.sh.trace, Output.MasterStateCb(MasterState.Running));
    StateApart(cfg, 0, c, LinkScan, sh);
    var b := At(Scope(sh, c.g), LinkScan);
    LaidOutAt(setting, Scope(sh, c.g), LinkScan);
    SameRested(cfg, 0, c, b);
    OpensFrom(cfg, 0, b, t, c, []);
    BeginFacts(setting, 0, b, t);
  }

  lemma SameRested(cfg: MasterConfig, k: nat, c: Scope, r: Scope)
    requires M.GoodConfig(cfg) && AllRested(cfg, k, c) && r.g.devices == c.g.devices
    ensures AllRested(cfg, k, r)
  {
  }

  /** Just started, the response timer cannot have expired. */
  lemma FreshTimer(cfg: MasterConfig, now: u32)
    requires M.GoodConfig(cfg) && |cfg.groups| > 0
    ensures !Expired(TimerState.Running(cfg.groups[0].timeout * 1000, now), now)
  {
    OffCountPositive(cfg, 0);
  }

  lemma OpensThenCalm(cfg: MasterConfig, k: nat, c: Scope, closing: seq<Output>, r: Scope, r2: Scope)
    requires M.GoodConfig(cfg) && Opens(cfg, k, c, closing, r) && Calmly(r, r2)
    requires Open(cfg, k, r2, seq(|r.g.devices|, i => false))
    ensures Opens(cfg, k, c, closing, r2)
  {
    hide Log, GroupInv, InScan, ShowsAll, ShowsData;
  }

  /** A poll in arbitration: nothing before its timer is due, then scan 0 opens. */
  lemma PollInArbitration(cfg: MasterConfig, m: M.Master, t: Clock)
    requires M.Ready(cfg, m) && |m.groups| == 1 && NoneReserved(cfg) && Begun(cfg, 0, M.ScopeOf(m, 0))
    ensures var c, r := M.ScopeOf(m, 0), M.ScopeOf(M.Step(cfg, m, M.Timers(t)), 0);
            if Expired(m.sh.arbTimer, t.now) then Opens(cfg, 0, c, [], r) else r == c
  {
    hide LaidOut, Log, GroupInv, InScan, Expired, Opens, GroupEventStep, M.MonitorGroup, Open, M.Step, Untouched, Calmly;
    M.GoodSetting(cfg, 0);
    TickOfOne(cfg, m, t);
    NeverExpires(t.now);
    if Expired(m.sh.arbTimer, t.now) {
      var m0 := m.(sh := m.sh.(arbTimer := Stopped));
      var c0 := M.ScopeOf(m0, 0);
      BegunApart(cfg, M.ScopeOf(m, 0));
      ArbitrationOpens(cfg, c0, t);
      var m1 := M.MonitorArbitration(cfg, m, t);
      AllOfOne(cfg, m0, t);
      var none := seq(|m1.groups[0].devices|, i => false);
      OpenOf(cfg, 0, c0, [], M.ScopeOf(m1, 0));
      FreshTimer(cfg, t.now);
      MonitorInScan(cfg, 0, m1, none, t);
      OpensThenCalm(cfg, 0, c0, [], M.ScopeOf(m1, 0), M.ScopeOf(M.MonitorGroup(cfg, m1, 0, t), 0));
      OpensApart(cfg, 0, M.ScopeOf(m, 0), c0, [], M.ScopeOf(M.MonitorGroup(cfg, m1, 0, t), 0));
    } else {
      IdleMonitor(cfg, m, t);
    }
  }

  lemma OpenOf(cfg: MasterConfig, k: nat, c: Scope, closing: seq<Output>, r: Scope)
    requires M.GoodConfig(cfg) && Opens(cfg, k, c, closing, r)
    ensures Open(cfg, k, r, seq(|r.g.devices|, i => false))
  {
    hide Open, ShowsAll, ShowsData, Log;
  }

  lemma OpensApart(cfg: MasterConfig, k: nat, c: Scope, c0: Scope, closing: seq<Output>, r: Scope)
    requires M.GoodConfig(cfg) && Opens(cfg, k, c0, closing, r) && c.g == c0.g && c.sh.trace == c0.sh.trace
    ensures Opens(cfg, k, c, closing, r)
  {
    hide Open, ShowsAll, ShowsData, Log;
  }

  lemma BegunApart(cfg: MasterConfig, c: Scope)
    requires M.GoodConfig(cfg) && |cfg.groups| > 0 && Begun(cfg, 0, c)
    ensures Begun(cfg, 0, c.(sh := c.sh.(arbTimer := Stopped)))
  {
    hide GroupInv, Untouched;
    InvUnitInfo(cfg, 0, c);
    SharedKeeps(cfg, 0, c, c.sh.(arbTimer := Stopped));
  }

  lemma AllOfOne(cfg: MasterConfig, m: M.Master, t: Clock)
    requires M.Ready(cfg, m) && |m.groups| == 1
    ensures M.AllGroups(cfg, m, 0, t, ArbitrationDone) == M.OneGroup(cfg, m, 0, t, ArbitrationDone)
  {
    hide M.OneGroup, LaidOut;
  }

  lemma IdleMonitor(cfg: MasterConfig, m: M.Master, t: Clock)
    requires M.Ready(cfg, m) && 0 < |m.groups|
    requires !Expired(m.groups[0].responseTimer, t.now) && !Expired(m.groups[0].scanTimer, t.now)
    ensures M.MonitorGroup(cfg, m, 0, t) == m
  {
    hide M.OneGroup, LaidOut, Expired;
  }
}
