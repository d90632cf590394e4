/** What the slave keeps over every run: one controlling master, one reply per request, and
    error responses without data. */
module SlaveInvariant {
  import opened Words
  import opened Buffers
  import opened Config
  import opened Layout
  import opened Timer
  import opened Frames
  import opened Responses
  import opened SlaveModel

  // ---------------------------------------------------------------- the invariant

  /** A master is stored, its timer runs and the application was told of a connection exactly in
      MASTER_CONTROL; the disabling timer runs exactly while waiting to be disabled. */
  predicate Linked(s: Slave) {
    && (s.master.masterId != IPADDR_INVALID <==> s.state == MasterControl)
    && (s.receiveTimer.Running? <==> s.state == MasterControl)
    && (s.memo.connected <==> s.state == MasterControl)
    && (s.disablingTimer.Running? <==> s.state == WaitDisabling)
  }

  /** The stored station lies inside a frame, and the timer has the master's own period. */
  predicate Placed(cfg: SlaveConfig, s: Slave) {
    s.state == MasterControl ==>
      && 1 <= s.master.station && s.master.station + cfg.stations - 1 <= MAX_STATIONS_PER_GROUP
      && (s.receiveTimer.Running? ==> s.receiveTimer.period == TotalTimeout(s.master.timeout, s.master.offCount))
  }

  predicate NoData(r: Response) {
    (forall k :: 0 <= k < |r.rwr| ==> r.rwr[k] == 0) && (forall k :: 0 <= k < |r.rx| ==> r.rx[k] == 0)
  }

  predicate ReplyEndCode(c: u16) {
    c == ENDCODE_SUCCESS || c == ENDCODE_MASTER_DUPLICATION || c == ENDCODE_WRONG_NUMBER_OCCUPIED
    || c == ENDCODE_SLAVE_ERROR || c == ENDCODE_SLAVE_REQUESTS_DISCONNECT
  }

  /** A reply as the slave sends it: the master accepts it, and it carries data only on success. */
  predicate GoodReply(cfg: SlaveConfig, o: SlaveOutput) {
    o.Replied? ==>
      && SendableResponse(o.response, o.response.slaveId) && o.bytes == EncodeResponse(o.response)
      && o.response.Stations() == cfg.stations
      && ReplyEndCode(o.response.endCode)
      && (o.response.endCode != ENDCODE_SUCCESS ==> NoData(o.response))
  }

  predicate TraceFits(cfg: SlaveConfig, s: Slave) {
    forall k :: 0 <= k < |s.trace| ==> GoodReply(cfg, s.trace[k])
  }

  /** The part that holds in any state: frames, end code and replies sent so far. */
  predicate Core(cfg: SlaveConfig, s: Slave) {
    && FramesFit(cfg, s)
    && NoData(s.error)
    && s.normal.protocolVer == s.error.protocolVer == MAX_PROTOCOL_VER
    && (s.endCodeDisabled == ENDCODE_SLAVE_ERROR || s.endCodeDisabled == ENDCODE_SLAVE_REQUESTS_DISCONNECT)
    && TraceFits(cfg, s)
  }

  predicate SlaveInv(cfg: SlaveConfig, s: Slave) {
    Core(cfg, s) && s.state != SlaveDown && Linked(s) && Placed(cfg, s)
  }

  // ---------------------------------------------------------------- replies

  function Replies(trace: seq<SlaveOutput>): seq<SlaveOutput> {
    if trace == [] then []
    else
      var o := trace[|trace| - 1];
      Replies(trace[..|trace| - 1]) + if o.Replied? then [o] else []
  }

  lemma RepliesOfMore(trace: seq<SlaveOutput>, o: SlaveOutput)
    ensures Replies(trace + [o]) == Replies(trace) + if o.Replied? then [o] else []
  {
    assert (trace + [o])[..|trace|] == trace;
  }

  /** What is fixed while only callbacks are made. */
  predicate Chatter(s: Slave, r: Slave) {
    && r == s.(trace := r.trace, memo := r.memo)
    && |s.trace| <= |r.trace| && r.trace[..|s.trace|] == s.trace
    && (forall k :: |s.trace| <= k < |r.trace| ==> !r.trace[k].Replied?)
    && Replies(r.trace) == Replies(s.trace)
  }

  lemma NoteIsChatter(s: Slave, o: SlaveOutput)
    requires !o.Replied?
    ensures Chatter(s, Note(s, o))
  {
    RepliesOfMore(s.trace, o);
  }

  lemma TellIsChatter(s: Slave, connected: bool, protocolVer: u16, status: u16)
    ensures var r := TellMasterState(s, connected, protocolVer, status);
            Chatter(s, r) && r.memo == Memo(true, connected, protocolVer, status)
  {
    hide Replies;
    RepliesOfMore(s.trace, Filtered(connected, protocolVer, status));
  }

  lemma ChatterKeepsTrace(cfg: SlaveConfig, s: Slave, r: Slave)
    requires TraceFits(cfg, s) && |s.trace| <= |r.trace| && r.trace[..|s.trace|] == s.trace
    requires forall k :: |s.trace| <= k < |r.trace| ==> !r.trace[k].Replied?
    ensures TraceFits(cfg, r)
  {
    forall k | 0 <= k < |r.trace| ensures GoodReply(cfg, r.trace[k]) {
      if k < |s.trace| {
        assert r.trace[k] == r.trace[..|s.trace|][k] == s.trace[k];
      }
    }
  }

  /** A request the parser let through, from and to a usable address. */
  predicate GoodIncoming(q: Incoming) {
    q.Incoming? && Sendable(q.r, q.remoteIp) && q.localIp != IPADDR_INVALID
  }

  /** The reply to a request: to its sender, from the addressed interface, with its sequence and group number. */
  predicate Answers(q: Incoming, o: SlaveOutput) {
    && q.Incoming? && o.Replied?
    && o.ip == q.remoteIp && o.response.slaveId == q.localIp
    && o.response.seqNo == q.r.seqNo && o.response.groupNo == q.r.groupNo
  }

  lemma ReplyFacts(cfg: SlaveConfig, s: Slave, q: Incoming, includeData: bool, endCode: u16)
    requires FramesFit(cfg, s) && GoodIncoming(q) && TraceFits(cfg, s) && NoData(s.error)
    requires s.normal.protocolVer == s.error.protocolVer == MAX_PROTOCOL_VER
    requires ReplyEndCode(endCode) && (endCode != ENDCODE_SUCCESS ==> !includeData)
    ensures var r := Reply(cfg, s, q, includeData, endCode);
            && |r.trace| == |s.trace| + 1 && r.trace[..|s.trace|] == s.trace
            && var o := r.trace[|s.trace|];
            && Answers(q, o) && o.response.endCode == endCode
            && o.response.rx == (if includeData then s.normal.rx else s.error.rx)
            && o.response.rwr == (if includeData then s.normal.rwr else s.error.rwr)
            && Replies(r.trace) == Replies(s.trace) + [o]
            && TraceFits(cfg, r) && NoData(r.error)
            && r.normal.protocolVer == r.error.protocolVer == MAX_PROTOCOL_VER
            && r == s.(normal := r.normal, error := r.error, trace := r.trace)
  {
    hide EncodeResponse, Replies, ResponseSize;
    var r := Reply(cfg, s, q, includeData, endCode);
    RepliesOfMore(s.trace, r.trace[|s.trace|]);
    forall k | 0 <= k < |r.trace| ensures GoodReply(cfg, r.trace[k]) {
      if k < |s.trace| {
        assert r.trace[k] == s.trace[k];
      }
    }
  }

  // ---------------------------------------------------------------- transitions

  /** The core does not look at the state, the master or the timers. */
  lemma CoreApart(cfg: SlaveConfig, s: Slave, r: Slave)
    requires Core(cfg, s) && r.normal == s.normal && r.error == s.error && r.ry == s.ry && r.rww == s.rww
    requires r.endCodeDisabled == s.endCodeDisabled
    requires |s.trace| <= |r.trace| && r.trace[..|s.trace|] == s.trace
    requires forall k :: |s.trace| <= k < |r.trace| ==> !r.trace[k].Replied?
    ensures Core(cfg, r)
  {
    hide GoodReply, FramesFit;
    FramesApart(cfg, s, r);
    ChatterKeepsTrace(cfg, s, r);
  }

  lemma CoreFits(cfg: SlaveConfig, s: Slave)
    requires Core(cfg, s)
    ensures FramesFit(cfg, s)
  {
  }

  lemma FramesApart(cfg: SlaveConfig, s: Slave, r: Slave)
    requires FramesFit(cfg, s) && SameFrames(s, r)
    ensures FramesFit(cfg, r)
  {
  }

  lemma Extends(a: seq<SlaveOutput>, b: seq<SlaveOutput>, c: seq<SlaveOutput>)
    requires |a| <= |b| <= |c| && b[..|a|] == a && c[..|b|] == b
    requires forall k :: |a| <= k < |b| ==> !b[k].Replied?
    requires forall k :: |b| <= k < |c| ==> !c[k].Replied?
    ensures c[..|a|] == a && forall k :: |a| <= k < |c| ==> !c[k].Replied?
  {
    assert c[..|a|] == c[..|b|][..|a|];
    forall k | |a| <= k < |c| ensures !c[k].Replied? {
      if k < |b| {
        assert c[k] == c[..|b|][k];
      }
    }
  }

  /** Entering a state without a master. */
  lemma ClearKeeps(cfg: SlaveConfig, s: Slave, next: SlaveState)
    requires Core(cfg, s)
    ensures var r := Entered(ClearMaster(s), next);
            && Core(cfg, r) && Replies(r.trace) == Replies(s.trace)
            && r == s.(master := NO_MASTER, receiveTimer := Stopped, disablingTimer := Stopped,
                       memo := Memo(true, false, 0, 0), trace := r.trace)
  {
    hide Core, Replies;
    var s0 := s.(master := NO_MASTER, receiveTimer := Stopped, disablingTimer := Stopped);
    var s1 := ClearMaster(s);
    var r := Entered(s1, next);
    TellIsChatter(s0, false, 0, 0);
    RepliesOfMore(s1.trace, StateCb(next));
    Extends(s.trace, s1.trace, r.trace);
    CoreApart(cfg, s, r);
  }

  lemma ToNoneKeeps(cfg: SlaveConfig, s: Slave)
    requires Core(cfg, s)
    ensures SlaveInv(cfg, ToNone(s)) && Replies(ToNone(s).trace) == Replies(s.trace)
    ensures ToNone(s).master == NO_MASTER
  {
    hide Core, ClearMaster, Entered, Replies;
    CoreApart(cfg, s, s.(state := MasterNone));
    ClearKeeps(cfg, s.(state := MasterNone), MasterNone);
  }

  lemma ToWaitKeeps(cfg: SlaveConfig, s: Slave, now: u32)
    requires Core(cfg, s)
    ensures SlaveInv(cfg, ToWait(s, now)) && Replies(ToWait(s, now).trace) == Replies(s.trace)
  {
    hide Core, Replies;
    var s1 := s.(state := WaitDisabling);
    CoreApart(cfg, s, s1);
    ClearKeeps(cfg, s1, WaitDisabling);
    CoreApart(cfg, Entered(ClearMaster(s1), WaitDisabling), ToWait(s, now));
  }

  lemma ToDisabledKeeps(cfg: SlaveConfig, s: Slave)
    requires Core(cfg, s) && s.master.masterId == IPADDR_INVALID && s.receiveTimer == Stopped && !s.memo.connected
    ensures SlaveInv(cfg, ToDisabled(s)) && Replies(ToDisabled(s).trace) == Replies(s.trace)
  {
    hide Core, Replies;
    CoreApart(cfg, s, ToDisabled(s));
    RepliesOfMore(s.trace, StateCb(SlaveDisabled));
  }

  // ---------------------------------------------------------------- the data exchange

  /** What a successful exchange leaves: outputs copied or cleared, and a success reply. */
  predicate ExchangeDone(cfg: SlaveConfig, s: Slave, now: u32, q: Incoming, r: Slave)
    requires FramesFit(cfg, s) && GoodIncoming(q) && CanCopy(cfg, |q.r.ids|, s.master.station)
  {
    var on, p, n := MyBit(q.r.word, s.master.station), s.master.station - 1, cfg.stations;
    && r.ry == Splice(s.ry, 0, if on then q.r.ry[BIT_AREA * p..BIT_AREA * (p + n)] else Zeros(BIT_AREA * n))
    && r.rww == Splice(s.rww, 0, if on then q.r.rww[WORD_AREA * p..WORD_AREA * (p + n)] else Zeros(WORD_AREA * n))
    && |Replies(r.trace)| == |Replies(s.trace)| + 1
    && var o := Replies(r.trace)[|Replies(s.trace)|];
    && Replies(r.trace) == Replies(s.trace) + [o]
    && Answers(q, o) && o.response.endCode == ENDCODE_SUCCESS
    && o.response.rx == (if on then s.normal.rx else s.error.rx)
    && o.response.rwr == (if on then s.normal.rwr else s.error.rwr)
    && r.normal.rx == s.normal.rx && r.normal.rwr == s.normal.rwr
    && r.master == s.master.(clock := q.r.clock, clockValid := q.r.clock != 0)
  }

  lemma CopiedKeeps(cfg: SlaveConfig, s: Slave, r: Request, station: u16, on: bool)
    requires Core(cfg, s) && r.WellFormed() && CanCopy(cfg, |r.ids|, station)
    ensures Core(cfg, Copied(cfg, s, r, station, on))
  {
    hide GoodReply, Splice;
    var q := Copied(cfg, s, r, station, on);
    ChatterKeepsTrace(cfg, s, q);
  }

  lemma ExchangeKeeps(cfg: SlaveConfig, s: Slave, now: u32, q: Incoming)
    requires SlaveInv(cfg, s) && s.state == MasterControl && GoodIncoming(q)
    ensures var r := Exchanged(cfg, s, now, q);
            && SlaveInv(cfg, r) && r.state == MasterControl
            && (if CanCopy(cfg, |q.r.ids|, s.master.station) then ExchangeDone(cfg, s, now, q, r) else r == s)
  {
    hide Splice, Zeros, Replies, EncodeResponse, TellMasterState, Reply, Core;
    if CanCopy(cfg, |q.r.ids|, s.master.station) {
      var on := MyBit(q.r.word, s.master.station);
      CoreFits(cfg, s);
      var s1 := Copied(cfg, s, q.r, s.master.station, on);
      CopiedKeeps(cfg, s, q.r, s.master.station, on);
      var s2 := s1.(master := s1.master.(clock := q.r.clock, clockValid := q.r.clock != 0));
      CoreApart(cfg, s1, s2);
      TellIsChatter(s2, true, q.r.protocolVer, q.r.unitInfo);
      var s3 := TellMasterState(s2, true, q.r.protocolVer, q.r.unitInfo);
      CoreApart(cfg, s2, s3);
      CoreReply(cfg, s3, q, on, ENDCODE_SUCCESS);
      var s4 := Reply(cfg, s3, q, on, ENDCODE_SUCCESS);
      CoreApart(cfg, s4, Exchanged(cfg, s, now, q));
    }
  }

  /** A reply keeps the core and is the only new reply. */
  lemma CoreReply(cfg: SlaveConfig, s: Slave, q: Incoming, includeData: bool, endCode: u16)
    requires Core(cfg, s) && GoodIncoming(q) && ReplyEndCode(endCode) && (endCode != ENDCODE_SUCCESS ==> !includeData)
    ensures var r := Reply(cfg, s, q, includeData, endCode);
            && Core(cfg, r) && r == s.(normal := r.normal, error := r.error, trace := r.trace)
            && r.normal.rx == s.normal.rx && r.normal.rwr == s.normal.rwr
            && |Replies(r.trace)| == |Replies(s.trace)| + 1
            && var o := Replies(r.trace)[|Replies(s.trace)|];
            && Replies(r.trace) == Replies(s.trace) + [o]
            && Answers(q, o) && o.response.endCode == endCode
            && o.response.rx == (if includeData then s.normal.rx else s.error.rx)
            && o.response.rwr == (if includeData then s.normal.rwr else s.error.rwr)
  {
    hide Replies, EncodeResponse, TraceFits;
    ReplyFacts(cfg, s, q, includeData, endCode);
  }

  // ---------------------------------------------------------------- taking a master

  lemma TakenKeeps(cfg: SlaveConfig, s: Slave, now: u32, q: Incoming, entering: bool)
    requires Core(cfg, s) && s.state == MasterControl && s.disablingTimer == Stopped && GoodIncoming(q)
    requires 1 <= s.master.station && s.master.station + cfg.stations - 1 <= MAX_STATIONS_PER_GROUP
    ensures FramesFit(cfg, s)
    ensures var s1 := TakenMaster(cfg, s, now, q);
            var s2 := if entering then Entered(s1, MasterControl) else s1;
            && SlaveInv(cfg, s2) && SameFrames(s, s2) && Replies(s2.trace) == Replies(s.trace)
            && s2.master.masterId == q.r.masterId && s2.master.station == s.master.station
            && s2.master.groupNo == q.r.groupNo && s2.master.parameterNo == q.r.parameterNo
            && s2.master.timeout == q.r.timeout && s2.master.offCount == q.r.offCount && s2.state == MasterControl
  {
    hide Replies, TellMasterState, Core, TotalTimeout;
    CoreFits(cfg, s);
    var s1 := TakenMaster(cfg, s, now, q);
    var m := MasterOf(s, q);
    var s0 := s.(master := m, receiveTimer := TimerState.Running(TotalTimeout(q.r.timeout, q.r.offCount), now));
    var connect := ConnectCb(m.masterId, m.groupNo, m.station);
    NoteIsChatter(s0, connect);
    TellIsChatter(Note(s0, connect), true, q.r.protocolVer, q.r.unitInfo);
    Extends(s.trace, Note(s0, connect).trace, s1.trace);
    var s2 := if entering then Entered(s1, MasterControl) else s1;
    NoteIsChatter(s1, StateCb(MasterControl));
    Extends(s.trace, s1.trace, s2.trace);
    CoreApart(cfg, s, s2);
  }

  /** Station p + 1 of the request carries the address of the interface it came to. */
  predicate Names(q: Incoming, station: u16) {
    q.Incoming? && 1 <= station <= |q.r.ids| && q.r.ids[station - 1] == q.localIp
  }

  /** How handling a request may change the slave: at most one reply, which answers the request;
      success only from and to the stored master, at the stored station. */
  predicate Handled(cfg: SlaveConfig, s: Slave, q: Incoming, r: Slave) {
    && q.Incoming?
    && |Replies(s.trace)| <= |Replies(r.trace)| <= |Replies(s.trace)| + 1
    && Replies(r.trace)[..|Replies(s.trace)|] == Replies(s.trace)
    && (|Replies(r.trace)| == |Replies(s.trace)| + 1 ==>
          var o := Replies(r.trace)[|Replies(s.trace)|];
          && Answers(q, o)
          && (o.response.endCode == ENDCODE_SUCCESS ==>
                && r.state == MasterControl && r.master.masterId == q.r.masterId == o.ip
                && q.r.groupNo == r.master.groupNo && Names(q, r.master.station)))
    && (s.state == MasterControl && r.state == MasterControl ==> r.master.masterId == s.master.masterId)
  }

  lemma SilentlyHandled(cfg: SlaveConfig, s: Slave, q: Incoming, r: Slave)
    requires q.Incoming? && Replies(r.trace) == Replies(s.trace)
    requires s.state == MasterControl && r.state == MasterControl ==> r.master.masterId == s.master.masterId
    ensures Handled(cfg, s, q, r)
  {
    hide Replies;
  }

  lemma ExchangeHandled(cfg: SlaveConfig, s: Slave, now: u32, q: Incoming)
    requires SlaveInv(cfg, s) && s.state == MasterControl && GoodIncoming(q)
    requires s.master.masterId == q.r.masterId && s.master.groupNo == q.r.groupNo && Names(q, s.master.station)
    ensures var r := Exchanged(cfg, s, now, q); SlaveInv(cfg, r) && Handled(cfg, s, q, r)
  {
    hide Replies, Splice, Zeros, Core, Exchanged;
    CoreFits(cfg, s);
    ExchangeKeeps(cfg, s, now, q);
    if !CanCopy(cfg, |q.r.ids|, s.master.station) {
      SilentlyHandled(cfg, s, q, s);
    }
  }

  lemma ConnectHandled(cfg: SlaveConfig, s: Slave, now: u32, q: Incoming, station: u16, entering: bool)
    requires SlaveInv(cfg, s) && GoodIncoming(q) && Names(q, station) && station + cfg.stations - 1 <= |q.r.ids|
    requires if entering then s.state == MasterNone else s.state == MasterControl && s.master.masterId == q.r.masterId
    ensures FramesFit(cfg, s)
    ensures var s0 := s.(master := s.master.(station := station), state := MasterControl);
            var r := Connected(cfg, s0, now, q, entering);
            SlaveInv(cfg, r) && Handled(cfg, s, q, r) && r.state == MasterControl
  {
    hide Replies, Core, Exchanged, TakenMaster;
    CoreFits(cfg, s);
    var s0 := s.(master := s.master.(station := station), state := MasterControl);
    CoreApart(cfg, s, s0);
    TakenKeeps(cfg, s0, now, q, entering);
    var s1 := TakenMaster(cfg, s0, now, q);
    var s2 := if entering then Entered(s1, MasterControl) else s1;
    ExchangeHandled(cfg, s2, now, q);
  }

  // ---------------------------------------------------------------- requests

  lemma RejectHandled(cfg: SlaveConfig, s: Slave, q: Incoming, endCode: u16)
    requires SlaveInv(cfg, s) && GoodIncoming(q) && ReplyEndCode(endCode) && endCode != ENDCODE_SUCCESS
    ensures FramesFit(cfg, s)
    ensures var r := Reply(cfg, s, q, false, endCode); SlaveInv(cfg, r) && Handled(cfg, s, q, r)
  {
    hide Replies, EncodeResponse, TraceFits;
    CoreFits(cfg, s);
    CoreReply(cfg, s, q, false, endCode);
  }

  lemma ReportKeeps(cfg: SlaveConfig, s: Slave, o: SlaveOutput)
    requires SlaveInv(cfg, s) && !o.Replied?
    ensures SlaveInv(cfg, Note(s, o)) && Replies(Note(s, o).trace) == Replies(s.trace)
  {
    hide Replies, Core;
    RepliesOfMore(s.trace, o);
    CoreApart(cfg, s, Note(s, o));
  }

  /** Handling after a report that concerns no reply. */
  lemma HandledAfterReport(cfg: SlaveConfig, s: Slave, s1: Slave, q: Incoming, r: Slave)
    requires Handled(cfg, s1, q, r) && Replies(s1.trace) == Replies(s.trace)
    requires s1.state == s.state && s1.master == s.master
    ensures Handled(cfg, s, q, r)
  {
    hide Replies;
  }

  /** A master-controlled slave that is told a wrong station count gives its master up. */
  lemma WrongCountHandled(cfg: SlaveConfig, s: Slave, now: u32, q: Incoming)
    requires SlaveInv(cfg, s) && GoodIncoming(q)
    ensures FramesFit(cfg, s) && q.r.WellFormed()
    ensures var r := SlaveEventStep(cfg, s, now, q, WrongStationCount); SlaveInv(cfg, r) && Handled(cfg, s, q, r)
  {
    hide Replies, Core, Reply, ToNone;
    CoreFits(cfg, s);
    SilentlyHandled(cfg, s, q, s);
    if s.state == MasterNone {
      RejectHandled(cfg, s, q, ENDCODE_WRONG_NUMBER_OCCUPIED);
    } else if s.state == MasterControl {
      var s1 := Note(s, DisconnectCb).(state := MasterNone);
      RepliesOfMore(s.trace, DisconnectCb);
      CoreApart(cfg, s, s1);
      CoreReply(cfg, s1, q, false, ENDCODE_WRONG_NUMBER_OCCUPIED);
      ToNoneKeeps(cfg, Reply(cfg, s1, q, false, ENDCODE_WRONG_NUMBER_OCCUPIED));
    }
  }

  lemma MatchedHandled(cfg: SlaveConfig, s: Slave, now: u32, q: Incoming, station: u16)
    requires SlaveInv(cfg, s) && GoodIncoming(q) && Names(q, station) && station + cfg.stations - 1 <= |q.r.ids|
    ensures FramesFit(cfg, s) && q.r.WellFormed()
    ensures var r := Matched(cfg, s, now, q, station); SlaveInv(cfg, r) && Handled(cfg, s, q, r)
  {
    hide Replies, Core, Reply, Connected, MyBit;
    CoreFits(cfg, s);
    SilentlyHandled(cfg, s, q, s);
    var on := MyBit(q.r.word, station);
    if s.state == WaitDisabling {
      EndCodeOf(cfg, s);
      RejectHandled(cfg, s, q, s.endCodeDisabled);
    } else if s.state == MasterNone {
      if on {
        var o := ErrorReport(SlaveStationDuplication, IPADDR_INVALID, 0);
        ReportKeeps(cfg, s, o);
        SilentlyHandled(cfg, s, q, Note(s, o));
      } else {
        ConnectHandled(cfg, s, now, q, station, true);
      }
    } else if s.state == MasterControl && IsMyMaster(s, q.r.masterId) && !on {
      ConnectHandled(cfg, s, now, q, station, false);
    }
  }

  lemma EndCodeOf(cfg: SlaveConfig, s: Slave)
    requires Core(cfg, s)
    ensures ReplyEndCode(s.endCodeDisabled) && s.endCodeDisabled != ENDCODE_SUCCESS
  {
  }

  lemma SearchedHandled(cfg: SlaveConfig, s: Slave, now: u32, q: Incoming)
    requires SlaveInv(cfg, s) && GoodIncoming(q)
    ensures FramesFit(cfg, s) && q.r.WellFormed()
    ensures var r := Searched(cfg, s, now, q); SlaveInv(cfg, r) && Handled(cfg, s, q, r)
  {
    hide Replies, Core, SlaveEventStep, Matched;
    CoreFits(cfg, s);
    SilentlyHandled(cfg, s, q, s);
    match SearchSlaveId(q.localIp, q.r.ids)
    case SearchError =>
    case NotFound =>
    case Found(station, count) =>
      if count != cfg.stations {
        var o := ErrorReport(WrongNumberOccupied, IPADDR_INVALID, count % 0x1_0000);
        ReportKeeps(cfg, s, o);
        WrongCountHandled(cfg, Note(s, o), now, q);
        HandledAfterReport(cfg, s, Note(s, o), q, SlaveEventStep(cfg, Note(s, o), now, q, WrongStationCount));
      } else {
        MatchedHandled(cfg, s, now, q, station);
      }
  }

  lemma ServedHandled(cfg: SlaveConfig, s: Slave, now: u32, q: Incoming)
    requires SlaveInv(cfg, s) && GoodIncoming(q) && s.state == MasterControl
    ensures FramesFit(cfg, s) && q.r.WellFormed()
    ensures var r := Served(cfg, s, now, q); SlaveInv(cfg, r) && Handled(cfg, s, q, r)
  {
    hide Replies, Core, Searched, Exchanged, Reply;
    CoreFits(cfg, s);
    SilentlyHandled(cfg, s, q, s);
    if !IsMyMaster(s, q.r.masterId) {
      var o := ErrorReport(MasterDuplication, q.r.masterId, 0);
      ReportKeeps(cfg, s, o);
      RejectHandled(cfg, Note(s, o), q, ENDCODE_MASTER_DUPLICATION);
      HandledAfterReport(cfg, s, Note(s, o), q, Reply(cfg, Note(s, o), q, false, ENDCODE_MASTER_DUPLICATION));
    } else if q.r.parameterNo != s.master.parameterNo || q.r.seqNo == 0 {
      SearchedHandled(cfg, s, now, q);
    } else if q.r.groupNo == s.master.groupNo && Names(q, s.master.station) {
      ExchangeHandled(cfg, s, now, q);
    }
  }

  /** One request: at most one reply, success only to the stored master, and the controlling
      master never changes without leaving MASTER_CONTROL. */
  lemma RequestHandled(cfg: SlaveConfig, s: Slave, now: u32, q: Incoming)
    requires SlaveInv(cfg, s) && GoodIncoming(q)
    ensures FramesFit(cfg, s) && q.r.WellFormed()
    ensures var r := HandleRequest(cfg, s, now, q); SlaveInv(cfg, r) && Handled(cfg, s, q, r)
  {
    hide Replies, Core, Searched, Served;
    CoreFits(cfg, s);
    SilentlyHandled(cfg, s, q, s);
    if s.state == MasterControl {
      ServedHandled(cfg, s, now, q);
    } else if s.state != SlaveDisabled {
      SearchedHandled(cfg, s, now, q);
    }
  }

  // ---------------------------------------------------------------- frames and timers

  /** The request a datagram is taken for, if it is one. */
  function RequestIn(d: Datagram): Incoming {
    if d.Datagram? && d.localIp != IPADDR_INVALID && AcceptsRequest(d.bytes, d.remoteIp) then
      Incoming(DecodeRequest(d.bytes), d.remoteIp, d.localIp)
    else NoRequest
  }

  lemma RequestInIsGood(d: Datagram)
    ensures RequestIn(d).Incoming? ==> GoodIncoming(RequestIn(d))
  {
    hide AcceptsRequest, DecodeRequest;
    if RequestIn(d).Incoming? {
      DecodedIsSendable(d.bytes, d.remoteIp);
    }
  }

  lemma DecodedIsSendable(b: seq<byte>, ip: u32)
    requires AcceptsRequest(b, ip)
    ensures |b| >= 67 && |b| == RequestSize(Get16(b[47..67], 14)) && Sendable(DecodeRequest(b), ip)
  {
    RequestRoundTrip(b, ip, DecodeRequest(b));
  }

  /** A datagram that is no request does nothing; a request is answered at most once. */
  lemma DatagramHandled(cfg: SlaveConfig, s: Slave, now: u32, d: Datagram)
    requires SlaveInv(cfg, s)
    ensures FramesFit(cfg, s)
    ensures var r, q := ReceivedAny(cfg, s, now, d), RequestIn(d);
            SlaveInv(cfg, r) && if q.Incoming? then Handled(cfg, s, q, r) else r == s
  {
    hide Replies, Core, HandleRequest, IsRequest, ValidRequestHeaders, DecodeRequest;
    CoreFits(cfg, s);
    RequestInIsGood(d);
    if RequestIn(d).Incoming? {
      RequestHandled(cfg, s, now, RequestIn(d));
    }
  }

  lemma TimerKeeps(cfg: SlaveConfig, s: Slave, now: u32)
    requires SlaveInv(cfg, s)
    ensures FramesFit(cfg, s)
    ensures var r := ReceiveTimerChecked(cfg, s, now);
            && SlaveInv(cfg, r) && Replies(r.trace) == Replies(s.trace)
            && (Expired(s.receiveTimer, now) ==> r.state == MasterNone && r.master == NO_MASTER)
            && (!Expired(s.receiveTimer, now) ==> r == s)
  {
    hide Replies, Core, ToNone;
    CoreFits(cfg, s);
    if Expired(s.receiveTimer, now) {
      var s1 := Note(s.(receiveTimer := Stopped), DisconnectCb);
      RepliesOfMore(s.trace, DisconnectCb);
      CoreApart(cfg, s, s1);
      ToNoneKeeps(cfg, s1);
    }
  }

  lemma DisablingKeeps(cfg: SlaveConfig, s: Slave, now: u32)
    requires SlaveInv(cfg, s)
    ensures FramesFit(cfg, s)
    ensures var r := DisablingTimerChecked(cfg, s, now);
            && SlaveInv(cfg, r) && Replies(r.trace) == Replies(s.trace)
            && (Expired(s.disablingTimer, now) ==> r.state == SlaveDisabled)
            && (!Expired(s.disablingTimer, now) ==> r == s)
  {
    hide Replies, Core, ToDisabled;
    CoreFits(cfg, s);
    if Expired(s.disablingTimer, now) {
      CoreApart(cfg, s, s.(disablingTimer := Stopped));
      ToDisabledKeeps(cfg, s.(disablingTimer := Stopped));
    }
  }

  lemma SwitchKeeps(cfg: SlaveConfig, s: Slave, now: u32, e: SlaveEvent)
    requires SlaveInv(cfg, s) && (e == DisableSlave || e == ReenableSlave)
    ensures FramesFit(cfg, s)
    ensures var r := SlaveEventStep(cfg, s, now, NoRequest, e); SlaveInv(cfg, r) && Replies(r.trace) == Replies(s.trace)
  {
    hide Replies, Core, ToNone, ToWait, ToDisabled;
    CoreFits(cfg, s);
    RepliesOfMore(s.trace, DisconnectCb);
    if s.state == MasterControl {
      CoreApart(cfg, s, Note(s, DisconnectCb));
      ToWaitKeeps(cfg, Note(s, DisconnectCb), now);
    } else if s.state == MasterNone {
      ToDisabledKeeps(cfg, s);
    } else {
      ToNoneKeeps(cfg, s);
    }
  }

  lemma WithInputsKeeps(cfg: SlaveConfig, s: Slave, rwr: seq<byte>, rx: seq<byte>)
    requires SlaveInv(cfg, s) && |rwr| == WORD_AREA * cfg.stations && |rx| == BIT_AREA * cfg.stations
    ensures SlaveInv(cfg, WithInputs(cfg, s, rwr, rx))
  {
    hide GoodReply;
    ChatterKeepsTrace(cfg, s, WithInputs(cfg, s, rwr, rx));
  }

  lemma SlaveStepKeeps(cfg: SlaveConfig, s: Slave, input: SlaveInput)
    requires SlaveInv(cfg, s) && AllowedInput(cfg, input)
    ensures FramesFit(cfg, s)
    ensures SlaveInv(cfg, SlaveStep(cfg, s, input))
  {
    hide Replies, SlaveEventStep, TraceFits, ReceivedAny, ReceiveTimerChecked, DisablingTimerChecked, RequestIn, FramesFit;
    CoreFits(cfg, s);
    match input
    case Poll(now, d) =>
      DatagramHandled(cfg, s, now, d);
      var s1 := ReceivedAny(cfg, s, now, d);
      TimerKeeps(cfg, s1, now);
      DisablingKeeps(cfg, ReceiveTimerChecked(cfg, s1, now), now);
    case Disable(now, isError) =>
      var s1 := s.(endCodeDisabled := if isError then ENDCODE_SLAVE_ERROR else ENDCODE_SLAVE_REQUESTS_DISCONNECT);
      FramesApart(cfg, s, s1);
      ChatterKeepsTrace(cfg, s, s1);
      SwitchKeeps(cfg, s1, now, DisableSlave);
    case Reenable(now) => SwitchKeeps(cfg, s, now, ReenableSlave);
    case SetStatus(operating, errCode, mgmtInfo) =>
      var s1 := s.(operating := operating, errCode := errCode, mgmtInfo := mgmtInfo);
      FramesApart(cfg, s, s1);
      ChatterKeepsTrace(cfg, s, s1);
    case WriteInputs(rwr, rx) => WithInputsKeeps(cfg, s, rwr, rx);
  }

  lemma SlaveInitKeeps(cfg: SlaveConfig, now: u32)
    requires ValidSlaveConfig(cfg)
    ensures var s := SlaveInit(cfg, now); SlaveInv(cfg, s) && s.state == MasterNone && Replies(s.trace) == []
  {
    hide Replies, ToNone;
    var s := Initialised(cfg, ZERO_SLAVE.(state := MasterNone));
    var s0 := ZERO_SLAVE.(state := MasterNone, ry := s.ry, rww := s.rww);
    TellIsChatter(s0, false, 0, 0);
    BlankFits(cfg);
    NoReplyYet();
    CoreOfBlank(cfg);
    ToNoneKeeps(cfg, s);
  }

  lemma NoReplyYet()
    ensures Replies([]) == []
  {
  }

  lemma CoreOfBlank(cfg: SlaveConfig)
    requires ValidSlaveConfig(cfg)
    ensures var s := Initialised(cfg, ZERO_SLAVE.(state := MasterNone)); Core(cfg, s) && Replies(s.trace) == []
  {
    hide Response.WellFormed, EncodeResponse;
    BlankFits(cfg);
    assert [MasterStateCb(false, false, false, 0, 0)][..0] == [];
  }

  /** From initialisation on the invariant holds over every run. */
  lemma {:induction false} SlaveRunKeeps(cfg: SlaveConfig, now: u32, inputs: seq<SlaveInput>)
    requires ValidSlaveConfig(cfg) && forall k :: 0 <= k < |inputs| ==> AllowedInput(cfg, inputs[k])
    ensures SlaveInv(cfg, SlaveRun(cfg, SlaveInit(cfg, now), inputs))
  {
    hide SlaveInv, SlaveStep, SlaveInit, AllowedInput;
    SlaveInitKeeps(cfg, now);
    if inputs != [] {
      SlaveRunKeeps(cfg, now, inputs[..|inputs| - 1]);
      SlaveStepKeeps(cfg, SlaveRun(cfg, SlaveInit(cfg, now), inputs[..|inputs| - 1]), inputs[|inputs| - 1]);
    }
  }

  // ---------------------------------------------------------------- what the slave promises

  /** Over every run: at rest a master is stored, its timer runs and a connection was reported exactly
      in MASTER_CONTROL, the disabling timer runs exactly in WAIT_DISABLING_SLAVE, the frame for error
      responses holds no data, and every reply sent is one the master's parser accepts; replies
      other than success carry no data. */
  lemma SingleControllingMaster(cfg: SlaveConfig, now: u32, inputs: seq<SlaveInput>, k: nat)
    requires ValidSlaveConfig(cfg) && forall j :: 0 <= j < |inputs| ==> AllowedInput(cfg, inputs[j])
    ensures var s := SlaveRun(cfg, SlaveInit(cfg, now), inputs);
            && Linked(s) && NoData(s.error)
            && (k < |s.trace| && s.trace[k].Replied? ==>
                  var o := s.trace[k];
                  && ParseResponse(o.bytes, o.response.slaveId) == Parsed(o.response)
                  && o.response.Stations() == cfg.stations
                  && (o.response.endCode != ENDCODE_SUCCESS ==> NoData(o.response)))
  {
    hide SlaveRun, SlaveInit, ParseResponse, EncodeResponse, FramesFit, NoData, SendableResponse;
    SlaveRunKeeps(cfg, now, inputs);
    var s := SlaveRun(cfg, SlaveInit(cfg, now), inputs);
    if k < |s.trace| && s.trace[k].Replied? {
      assert GoodReply(cfg, s.trace[k]);
      EncodedResponseIsAccepted(s.trace[k].response, s.trace[k].response.slaveId);
    }
  }

  /** One poll: a datagram is answered at most once, as Handled says; the timers answer nothing. The
      controlling master is the same after the poll unless MASTER_CONTROL was left. */
  lemma PollAnswersOnce(cfg: SlaveConfig, s: Slave, now: u32, d: Datagram)
    requires SlaveInv(cfg, s)
    ensures FramesFit(cfg, s)
    ensures var r, q, p := ReceivedAny(cfg, s, now, d), RequestIn(d), SlaveStep(cfg, s, Poll(now, d));
            && (if q.Incoming? then Handled(cfg, s, q, r) else r == s)
            && Replies(p.trace) == Replies(r.trace)
            && (s.state == MasterControl && p.state == MasterControl ==> p.master.masterId == s.master.masterId)
            && (p.state == MasterControl ==> p == r && !Expired(p.receiveTimer, now))
  {
    hide Replies, Core, Placed, ReceivedAny, ReceiveTimerChecked, DisablingTimerChecked, RequestIn;
    CoreFits(cfg, s);
    DatagramHandled(cfg, s, now, d);
    var r := ReceivedAny(cfg, s, now, d);
    TimerKeeps(cfg, r, now);
    DisablingKeeps(cfg, ReceiveTimerChecked(cfg, r, now), now);
  }

  /** The product of timeout and count never overflows 32 bits, and the timer gets the exact total in
      its documented range if and only if the product is at most 2147483 milliseconds. */
  lemma TotalTimeoutIsExactIff(timeout: u16, offCount: u16)
    ensures var t := if timeout < MIN_TIMEOUT then DEFAULT_TIMEOUT else timeout;
            var c := if offCount < MIN_TIMEOUT_COUNT then DEFAULT_TIMEOUT_COUNT else offCount;
            && t * c < U32_MODULUS
            && (TotalTimeout(timeout, offCount) == t * c * 1000 && TotalTimeout(timeout, offCount) <= HALF_RANGE
                <==> t * c <= 2147483)
  {
    var t: nat := if timeout < MIN_TIMEOUT then DEFAULT_TIMEOUT else timeout;
    var c: nat := if offCount < MIN_TIMEOUT_COUNT then DEFAULT_TIMEOUT_COUNT else offCount;
    ProductFits(t, c);
    Truncated(t * c);
  }

  lemma Truncated(n: nat)
    requires n < U32_MODULUS
    ensures n % U32_MODULUS * 1000 % U32_MODULUS == n * 1000 && n * 1000 <= HALF_RANGE <==> n <= 2147483
    ensures n > 2147483 && n * 1000 % U32_MODULUS == n * 1000 ==> n * 1000 > HALF_RANGE
  {
  }

  /** Beyond the bound the cast to 32 bits can leave a timer of 408 microseconds for a total of
      more than two hours. */
  lemma TotalTimeoutTruncates()
    ensures TotalTimeout(24197, 355) == 408 && 24197 * 355 == 8589935
  {
  }

  lemma {:induction false} ProductFits(t: nat, c: nat)
    requires t < 0x1_0000 && c < 0x1_0000
    ensures t * c <= 0xFFFF * 0xFFFF
  {
    ProductGrows(t, 0xFFFF, c);
    ProductGrows(c, 0xFFFF, 0xFFFF);
  }

  lemma ProductGrows(a: nat, b: nat, c: nat)
    requires a <= b
    ensures a * c <= b * c
  {
  }
}
