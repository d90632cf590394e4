/** The slave and its application over whole runs: what the application set is what goes out, and what
    it was told last is what the master said. */
module SlaveRuns {
  import opened Words
  import opened Buffers
  import opened Timer
  import opened Frames
  import opened Responses
  import opened SlaveModel
  import opened SlaveInvariant
  import opened SlaveAnswers

  // ---------------------------------------------------------------- what the application wants

  /** Status, end code while disabled, and inputs. */
  datatype Wishes = Wishes(operating: bool, errCode: u16, mgmtInfo: u32, endCode: u16, rwr: seq<byte>, rx: seq<byte>)

  /** The latest of each in a run from initialisation. */
  function Wished(cfg: SlaveConfig, inputs: seq<SlaveInput>): Wishes {
    if inputs == [] then Wishes(true, 0, 0, 0xCFFF, Zeros(64 * cfg.stations), Zeros(8 * cfg.stations))
    else WishedNext(Wished(cfg, inputs[..|inputs| - 1]), inputs[|inputs| - 1])
  }

  function WishedNext(w: Wishes, input: SlaveInput): Wishes {
    match input
    case SetStatus(operating, errCode, mgmtInfo) => w.(operating := operating, errCode := errCode, mgmtInfo := mgmtInfo)
    case WriteInputs(rwr, rx) => w.(rwr := rwr, rx := rx)
    case Disable(_, isError) => w.(endCode := if isError then 0xCFF0 else 0xCFFF)
    case _ => w
  }

  predicate Obeys(cfg: SlaveConfig, w: Wishes, s: Slave) {
    && s.operating == w.operating && s.errCode == w.errCode && s.mgmtInfo == w.mgmtInfo && s.endCodeDisabled == w.endCode
    && s.normal.rwr == w.rwr && s.normal.rx == w.rx && Branded(cfg, s)
  }

  // ---------------------------------------------------------------- what the application was told

  /** The last callback about the master's status. */
  function Told(trace: seq<SlaveOutput>): seq<SlaveOutput> {
    if trace == [] then []
    else if trace[|trace| - 1].MasterStateCb? then [trace[|trace| - 1]]
    else Told(trace[..|trace| - 1])
  }

  /** It says what the slave remembers of it. */
  predicate Informed(s: Slave) {
    && s.memo.executed
    && Told(s.trace) == (if s.memo.connected then StatusNews(Memo(false, false, 0, 0), s.memo.protocolVer, s.memo.status)
                         else [MasterStateCb(false, false, false, 0, 0)])
    && (!s.memo.connected ==> s.memo == Memo(true, false, 0, 0))
  }

  lemma ToldOfMore(trace: seq<SlaveOutput>, o: SlaveOutput)
    ensures Told(trace + [o]) == if o.MasterStateCb? then [o] else Told(trace)
  {
    assert (trace + [o])[..|trace|] == trace;
  }

  lemma {:induction false} ToldOfSilence(trace: seq<SlaveOutput>, more: seq<SlaveOutput>)
    requires forall k :: 0 <= k < |more| ==> !more[k].MasterStateCb?
    ensures Told(trace + more) == Told(trace)
    decreases |more|
  {
    hide Told;
    if more == [] {
      assert trace + more == trace;
    } else {
      var n := |more| - 1;
      ToldOfSilence(trace, more[..n]);
      ToldOfMore(trace + more[..n], more[n]);
      assert trace + more == (trace + more[..n]) + [more[n]];
    }
  }

  /** Nothing about the master's status in between. */
  lemma Uninformed(s: Slave, r: Slave, more: seq<SlaveOutput>)
    requires Informed(s) && r.memo == s.memo && r.trace == s.trace + more
    requires forall k :: 0 <= k < |more| ==> !more[k].MasterStateCb?
    ensures Informed(r)
  {
    hide Told, StatusNews;
    ToldOfSilence(s.trace, more);
  }

  /** A status callback if it is news, with other outputs before and behind it. */
  lemma InformedOfStatus(s: Slave, r: Slave, ver: u16, status: u16, before: seq<SlaveOutput>, after: seq<SlaveOutput>)
    requires Informed(s) && r.memo == Memo(true, true, ver, status)
    requires r.trace == s.trace + before + StatusNews(s.memo, ver, status) + after
    requires forall k :: 0 <= k < |before| ==> !before[k].MasterStateCb?
    requires forall k :: 0 <= k < |after| ==> !after[k].MasterStateCb?
    ensures Informed(r)
  {
    hide Told;
    var mid := s.trace + before;
    ToldOfSilence(s.trace, before);
    if s.memo == Memo(true, true, ver, status) {
      assert mid + [] == mid;
    } else {
      ToldOfMore(mid, StatusNews(s.memo, ver, status)[0]);
    }
    ToldOfSilence(mid + StatusNews(s.memo, ver, status), after);
  }

  lemma InformedOfLoss(s: Slave, r: Slave, before: seq<SlaveOutput>, after: seq<SlaveOutput>)
    requires Informed(s) && r.memo == Memo(true, false, 0, 0)
    requires r.trace == s.trace + before + LossNews(s.memo) + after
    requires forall k :: 0 <= k < |before| ==> !before[k].MasterStateCb?
    requires forall k :: 0 <= k < |after| ==> !after[k].MasterStateCb?
    ensures Informed(r)
  {
    hide Told, StatusNews;
    var mid := s.trace + before;
    ToldOfSilence(s.trace, before);
    if s.memo == Memo(true, false, 0, 0) {
      assert mid + [] == mid;
    } else {
      ToldOfMore(mid, MasterStateCb(false, false, false, 0, 0));
    }
    ToldOfSilence(mid + LossNews(s.memo), after);
  }

  // ---------------------------------------------------------------- requests

  /** Everything that holds of a slave between two inputs. */
  predicate Sound(cfg: SlaveConfig, w: Wishes, s: Slave) {
    SlaveInv(cfg, s) && Obeys(cfg, w, s) && Informed(s)
  }

  lemma RefusedSound(cfg: SlaveConfig, w: Wishes, s: Slave, q: Incoming, reports: seq<SlaveOutput>, endCode: u16)
    requires FramesFit(cfg, s) && Obeys(cfg, w, s) && Informed(s) && q.Incoming?
    requires forall k :: 0 <= k < |reports| ==> !reports[k].MasterStateCb?
    ensures var r := Refused(cfg, s, q, reports, endCode); Obeys(cfg, w, r) && Informed(r)
  {
    hide EncodeResponse, Informed;
    var r := Refused(cfg, s, q, reports, endCode);
    var more := reports + [Says(q, Bare(cfg, s, q, endCode))];
    assert s.trace + more == r.trace;
    Uninformed(s, r, more);
  }

  lemma PartedSound(cfg: SlaveConfig, w: Wishes, s: Slave)
    requires Obeys(cfg, w, s) && Informed(s)
    ensures Obeys(cfg, w, Parted(s)) && Informed(Parted(s))
  {
    hide Informed, LossNews;
    assert s.trace + [] == s.trace;
    InformedOfLoss(s, Parted(s), [], [StateCb(MasterNone)]);
  }

  lemma FedSound(cfg: SlaveConfig, w: Wishes, s: Slave, now: u32, q: Incoming, p: nat)
    requires FramesFit(cfg, s) && GoodIncoming(q) && 1 <= p && p - 1 + cfg.stations <= |q.r.ids|
    requires Obeys(cfg, w, s) && Informed(s)
    ensures var r := Fed(cfg, s, now, q, p); Obeys(cfg, w, r) && Informed(r)
  {
    hide EncodeResponse, Informed, StatusNews, Taken, Bit;
    var r := Fed(cfg, s, now, q, p);
    assert s.trace + [] == s.trace;
    InformedOfStatus(s, r, q.r.protocolVer, q.r.unitInfo, [], [r.trace[|r.trace| - 1]]);
  }

  lemma BoundSound(cfg: SlaveConfig, w: Wishes, s: Slave, now: u32, q: Incoming, p: nat)
    requires FramesFit(cfg, s) && GoodIncoming(q) && 1 <= p && p - 1 + cfg.stations <= |q.r.ids|
    requires Obeys(cfg, w, s) && Informed(s)
    ensures var r := Bound(cfg, s, now, q, p); Obeys(cfg, w, r) && Informed(r)
  {
    hide EncodeResponse, Informed, StatusNews, Taken, TotalTimeout;
    var r := Bound(cfg, s, now, q, p);
    var after := (if s.state == MasterControl then [] else [StateCb(MasterControl)]) + [Says(q, Bare(cfg, s, q, 0))];
    var connect := [ConnectCb(q.r.masterId, q.r.groupNo, p)];
    assert r.trace == s.trace + connect + StatusNews(s.memo, q.r.protocolVer, q.r.unitInfo) + after;
    InformedOfStatus(s, r, q.r.protocolVer, q.r.unitInfo, connect, after);
  }

  lemma RequestSound(cfg: SlaveConfig, w: Wishes, s: Slave, now: u32, q: Incoming)
    requires Sound(cfg, w, s) && GoodIncoming(q)
    ensures FramesFit(cfg, s) && q.r.WellFormed() && Sound(cfg, w, HandleRequest(cfg, s, now, q))
  {
    hide Core, Listed, Bit, HandleRequest, Informed, Refused, Parted, Fed, Bound, Handled, Reported;
    CoreFits(cfg, s);
    RequestHandled(cfg, s, now, q);
    if LooksUp(s, q) {
      if p: nat, n: nat :| Listed(q, p, n) {
        ListedSize(q, p, n);
        LookedUpSound(cfg, w, s, now, q, p, n);
      } else {
        IgnoredIfAbsent(cfg, s, now, q);
      }
    } else if s.state == SlaveDisabled {
      IgnoredIfAbsent(cfg, s, now, q);
    } else if q.r.masterId != s.master.masterId {
      SecondMasterIsRefused(cfg, s, now, q);
      RefusedSound(cfg, w, s, q, [ErrorReport(MasterDuplication, q.r.masterId, 0)], 0xCFE0);
    } else {
      CyclicRequestIsServed(cfg, s, now, q);
      if s.master.station - 1 + cfg.stations <= |q.r.ids| {
        FedSound(cfg, w, s, now, q, s.master.station);
      }
    }
  }

  lemma LookedUpSound(cfg: SlaveConfig, w: Wishes, s: Slave, now: u32, q: Incoming, p: nat, n: nat)
    requires Sound(cfg, w, s) && GoodIncoming(q) && LooksUp(s, q) && Listed(q, p, n) && p >= 1
    ensures FramesFit(cfg, s) && q.r.WellFormed()
    ensures var r := HandleRequest(cfg, s, now, q); Obeys(cfg, w, r) && Informed(r)
  {
    hide Core, Listed, Bit, HandleRequest, Informed, Refused, Parted, Fed, Bound;
    CoreFits(cfg, s);
    ListedSize(q, p, n);
    if n != cfg.stations {
      WrongCountIsRefused(cfg, s, now, q, p, n);
      var report := ErrorReport(WrongNumberOccupied, 0, n);
      RefusedSound(cfg, w, s, q, [report], 0xCFE1);
      RefusedSound(cfg, w, s, q, [report, DisconnectCb], 0xCFE1);
      PartedSound(cfg, w, Refused(cfg, s, q, [report, DisconnectCb], 0xCFE1));
      Uninformed(s, Reported(s, [report]), [report]);
    } else if Bit(q.r.word, p - 1) {
      EarlyBitIsRefused(cfg, s, now, q, p);
      var report := ErrorReport(SlaveStationDuplication, 0, 0);
      Uninformed(s, Reported(s, [report]), [report]);
      RefusedSound(cfg, w, s, q, [], s.endCodeDisabled);
    } else {
      MasterIsTaken(cfg, s, now, q, p);
      BoundSound(cfg, w, s, now, q, p);
    }
  }

  // ---------------------------------------------------------------- timers and the application

  /** A poll that finds the master's timer run out: disconnected, told, and back to MASTER_NONE. */
  lemma MasterIsLost(cfg: SlaveConfig, s: Slave, now: u32)
    requires SlaveInv(cfg, s)
    ensures FramesFit(cfg, s)
    ensures ReceiveTimerChecked(cfg, s, now)
            == if Expired(s.receiveTimer, now) then Parted(Reported(s, [DisconnectCb])) else s
  {
    hide TraceFits, ToNone, Parted;
    if Expired(s.receiveTimer, now) {
      ToNoneParts(SlaveModel.Note(s.(receiveTimer := Stopped), DisconnectCb));
      PartedStopped(Reported(s, [DisconnectCb]));
    }
  }

  lemma PartedStopped(s: Slave)
    ensures Parted(s.(receiveTimer := Stopped)) == Parted(s)
  {
  }

  /** The slave out of service. */
  function OutOfService(s: Slave): Slave {
    s.(state := SlaveDisabled, disablingTimer := Stopped, trace := s.trace + [StateCb(SlaveDisabled)])
  }

  lemma WaitIsOver(cfg: SlaveConfig, s: Slave, now: u32)
    requires SlaveInv(cfg, s)
    ensures FramesFit(cfg, s)
    ensures DisablingTimerChecked(cfg, s, now) == if Expired(s.disablingTimer, now) then OutOfService(s) else s
  {
    hide TraceFits;
  }

  /** The application disables the slave: at once without a master, else after 2.5 seconds in which the
      master gets the end code. */
  lemma DisableTakesEffect(cfg: SlaveConfig, s: Slave, now: u32, isError: bool)
    requires SlaveInv(cfg, s)
    ensures FramesFit(cfg, s)
    ensures var r, s1 := SlaveStep(cfg, s, Disable(now, isError)), s.(endCodeDisabled := if isError then 0xCFF0 else 0xCFFF);
            && (s.state == MasterNone ==> r == OutOfService(s1))
            && (s.state == MasterControl ==>
                  r == s1.(state := WaitDisabling, master := NO_MASTER, receiveTimer := Stopped,
                           disablingTimer := TimerState.Running(2500000, now), memo := Memo(true, false, 0, 0),
                           trace := s.trace + [DisconnectCb] + LossNews(s.memo) + [StateCb(WaitDisabling)]))
            && (s.state == WaitDisabling || s.state == SlaveDisabled ==> r == s1)
  {
    hide TraceFits, TellMasterState, LossNews;
    TellsLoss(SlaveModel.Note(s, DisconnectCb).(endCodeDisabled := if isError then 0xCFF0 else 0xCFFF, state := WaitDisabling,
                                                master := NO_MASTER, receiveTimer := Stopped, disablingTimer := Stopped));
  }

  lemma ReenableTakesEffect(cfg: SlaveConfig, s: Slave, now: u32)
    requires SlaveInv(cfg, s)
    ensures FramesFit(cfg, s)
    ensures SlaveStep(cfg, s, Reenable(now))
            == if s.state == WaitDisabling || s.state == SlaveDisabled then Parted(s) else s
  {
    hide TraceFits, ToNone, Parted;
    ToNoneParts(s);
  }

  lemma ReceiveTimerSound(cfg: SlaveConfig, w: Wishes, s: Slave, now: u32)
    requires Sound(cfg, w, s)
    ensures FramesFit(cfg, s) && Sound(cfg, w, ReceiveTimerChecked(cfg, s, now))
  {
    hide SlaveInv, Informed, Parted, Expired, ReceiveTimerChecked, Obeys;
    TimerKeeps(cfg, s, now);
    MasterIsLost(cfg, s, now);
    Reporting(cfg, w, s, [DisconnectCb]);
    PartedSound(cfg, w, Reported(s, [DisconnectCb]));
  }

  lemma Reporting(cfg: SlaveConfig, w: Wishes, s: Slave, reports: seq<SlaveOutput>)
    requires Obeys(cfg, w, s) && Informed(s) && forall k :: 0 <= k < |reports| ==> !reports[k].MasterStateCb?
    ensures Obeys(cfg, w, Reported(s, reports)) && Informed(Reported(s, reports))
  {
    hide Informed;
    Uninformed(s, Reported(s, reports), reports);
  }

  lemma DisablingTimerSound(cfg: SlaveConfig, w: Wishes, s: Slave, now: u32)
    requires Sound(cfg, w, s)
    ensures FramesFit(cfg, s) && Sound(cfg, w, DisablingTimerChecked(cfg, s, now))
  {
    hide SlaveInv, Informed, Expired, DisablingTimerChecked;
    DisablingKeeps(cfg, s, now);
    WaitIsOver(cfg, s, now);
    Uninformed(s, OutOfService(s), [StateCb(SlaveDisabled)]);
  }

  lemma DatagramSound(cfg: SlaveConfig, w: Wishes, s: Slave, now: u32, d: Datagram)
    requires Sound(cfg, w, s)
    ensures FramesFit(cfg, s) && Sound(cfg, w, ReceivedAny(cfg, s, now, d))
  {
    hide Core, Informed, HandleRequest, IsRequest, ValidRequestHeaders, DecodeRequest, Handled;
    CoreFits(cfg, s);
    RequestInIsGood(d);
    DatagramHandled(cfg, s, now, d);
    if RequestIn(d).Incoming? {
      RequestSound(cfg, w, s, now, RequestIn(d));
    }
  }

  lemma DisableSound(cfg: SlaveConfig, w: Wishes, s: Slave, now: u32, isError: bool)
    requires Sound(cfg, w, s)
    ensures FramesFit(cfg, s)
    ensures var r := SlaveStep(cfg, s, Disable(now, isError));
            Obeys(cfg, WishedNext(w, Disable(now, isError)), r) && Informed(r)
  {
    hide Core, Informed, LossNews, SlaveStep;
    CoreFits(cfg, s);
    DisableTakesEffect(cfg, s, now, isError);
    var r := SlaveStep(cfg, s, Disable(now, isError));
    if s.state == MasterNone {
      Uninformed(s, r, [StateCb(SlaveDisabled)]);
    } else if s.state == MasterControl {
      InformedOfLoss(s, r, [DisconnectCb], [StateCb(WaitDisabling)]);
    } else {
      assert s.trace + [] == s.trace;
      Uninformed(s, r, []);
    }
  }

  lemma StepSound(cfg: SlaveConfig, w: Wishes, s: Slave, input: SlaveInput)
    requires Sound(cfg, w, s) && AllowedInput(cfg, input)
    ensures FramesFit(cfg, s) && Sound(cfg, WishedNext(w, input), SlaveStep(cfg, s, input))
  {
    hide Core, Informed, SlaveEventStep, ReceivedAny, ReceiveTimerChecked, DisablingTimerChecked, Parted;
    CoreFits(cfg, s);
    SlaveStepKeeps(cfg, s, input);
    assert s.trace + [] == s.trace;
    match input
    case Poll(now, d) =>
      DatagramSound(cfg, w, s, now, d);
      var s1 := ReceivedAny(cfg, s, now, d);
      ReceiveTimerSound(cfg, w, s1, now);
      DisablingTimerSound(cfg, w, ReceiveTimerChecked(cfg, s1, now), now);
    case Disable(now, isError) => DisableSound(cfg, w, s, now, isError);
    case Reenable(now) =>
      ReenableTakesEffect(cfg, s, now);
      PartedSound(cfg, w, s);
    case SetStatus(_, _, _) => Uninformed(s, SlaveStep(cfg, s, input), []);
    case WriteInputs(_, _) => Uninformed(s, SlaveStep(cfg, s, input), []);
  }

  lemma InitSound(cfg: SlaveConfig, now: u32)
    requires ValidSlaveConfig(cfg)
    ensures Sound(cfg, Wished(cfg, []), SlaveInit(cfg, now))
  {
    hide Core, ToNone, EncodeResponse;
    SlaveInitKeeps(cfg, now);
    var s := Initialised(cfg, ZERO_SLAVE.(state := MasterNone));
    ToNoneParts(s);
    TellsLoss(ZERO_SLAVE.(state := MasterNone, ry := s.ry, rww := s.rww));
    ToldOfMore([], MasterStateCb(false, false, false, 0, 0));
    assert Parted(s).trace == ([] + [MasterStateCb(false, false, false, 0, 0)]) + [StateCb(MasterNone)];
    ToldOfMore([] + [MasterStateCb(false, false, false, 0, 0)], StateCb(MasterNone));
  }

  /** Over every run from initialisation the slave is as its application set it last, status, inputs and end
      code alike, its frames carry the device's own data, and the last status callback says what the slave
      took from the last request it served. */
  lemma {:induction false} RunIsSound(cfg: SlaveConfig, now: u32, inputs: seq<SlaveInput>)
    requires ValidSlaveConfig(cfg) && forall k :: 0 <= k < |inputs| ==> AllowedInput(cfg, inputs[k])
    ensures Sound(cfg, Wished(cfg, inputs), SlaveRun(cfg, SlaveInit(cfg, now), inputs))
  {
    hide Sound, SlaveStep, SlaveInit, AllowedInput, WishedNext;
    InitSound(cfg, now);
    if inputs != [] {
      RunIsSound(cfg, now, inputs[..|inputs| - 1]);
      StepSound(cfg, Wished(cfg, inputs[..|inputs| - 1]), SlaveRun(cfg, SlaveInit(cfg, now), inputs[..|inputs| - 1]),
                inputs[|inputs| - 1]);
    }
  }
}
