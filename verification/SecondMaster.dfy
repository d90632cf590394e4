/** Two masters and one slave: the slave's answer to the second master silences it for good. */
module SecondMaster {
  import opened Words
  import opened Config
  import opened Timer
  import opened Frames
  import opened Responses
  import opened GroupModel
  import M = MasterModel
  import opened Scans
  import opened ArbitrationSafety
  import S = SlaveModel
  import opened SlaveInvariant
  import opened SlaveAnswers
  import opened ResponseRules
  import D = DeviceModel

  /** A request as the second master sends it in the scan of group gi that is under way. */
  predicate InThisScan(cfg: MasterConfig, m: M.Master, gi: nat, q: Request) {
    gi < |m.groups| && Sendable(q, cfg.masterId) && q.groupNo == gi + 1 && q.seqNo == m.groups[gi].seqNo
  }

  /** The datagram of a request that reaches device i. */
  function Datagram(cfg: MasterConfig, gi: nat, i: nat, q: Request): S.Datagram
    requires q.WellFormed() && gi < |cfg.groups| && i < |cfg.groups[gi].devices|
  {
    S.Datagram.Datagram(EncodeRequest(q), cfg.masterId, cfg.groups[gi].devices[i].slaveId)
  }

  function Arrived(cfg: MasterConfig, gi: nat, i: nat, q: Request): S.Incoming
    requires gi < |cfg.groups| && i < |cfg.groups[gi].devices|
  {
    S.Incoming.Incoming(q, cfg.masterId, cfg.groups[gi].devices[i].slaveId)
  }

  lemma ArrivedIsGood(cfg: MasterConfig, gi: nat, i: nat, q: Request, scfg: S.SlaveConfig, s: S.Slave, now: u32)
    requires M.GoodConfig(cfg) && gi < |cfg.groups| && i < |cfg.groups[gi].devices| && Sendable(q, cfg.masterId) && SlaveInv(scfg, s)
    ensures GoodIncoming(Arrived(cfg, gi, i, q)) && S.FramesFit(scfg, s)
    ensures RequestIn(Datagram(cfg, gi, i, q)) == Arrived(cfg, gi, i, q)
    ensures S.ReceivedAny(scfg, s, now, Datagram(cfg, gi, i, q)) == S.HandleRequest(scfg, s, now, Arrived(cfg, gi, i, q))
  {
    hide S.HandleRequest, EncodeRequest, DecodeRequest, IsRequest, ValidRequestHeaders, Core;
    CoreFits(scfg, s);
    assert ValidGroup(cfg.groups[gi], cfg.masterId);
    assert ValidDevice(cfg.groups[gi].devices[i], cfg.masterId);
    RequestRoundTrip(EncodeRequest(q), cfg.masterId, q);
  }

  /** The slave's answer: exactly one, to the second master, with 0xCFE0 and no data. */
  lemma SlaveObjects(cfg: MasterConfig, gi: nat, i: nat, q: Request, scfg: S.SlaveConfig, s: S.Slave, now: u32)
    requires M.GoodConfig(cfg) && gi < |cfg.groups| && i < |cfg.groups[gi].devices| && Sendable(q, cfg.masterId)
    requires SlaveInv(scfg, s) && Branded(scfg, s) && s.state == S.MasterControl && s.master.masterId != cfg.masterId
    ensures S.FramesFit(scfg, s)
    ensures var r := S.SlaveStep(scfg, s, S.Poll(now, Datagram(cfg, gi, i, q)));
            var f := Bare(scfg, s, Arrived(cfg, gi, i, q), 0xCFE0);
            Replies(r.trace) == Replies(s.trace) + [S.Replied(cfg.masterId, f, EncodeResponse(f))]
  {
    hide S.ReceivedAny, S.SlaveStep, S.HandleRequest, Replies, Core, EncodeRequest, EncodeResponse, Bare, Handled, RequestIn;
    var a := Arrived(cfg, gi, i, q);
    ArrivedIsGood(cfg, gi, i, q, scfg, s, now);
    PollAnswersOnce(scfg, s, now, Datagram(cfg, gi, i, q));
    SecondMasterIsRefused(scfg, s, now, a);
    var o := S.ErrorReport(S.MasterDuplication, q.masterId, 0);
    RepliesOfMore(s.trace, o);
    RepliesOfMore(s.trace + [o], Says(a, Bare(scfg, s, a, 0xCFE0)));
  }

  /** What the second master makes of it, unless device i is disabled there or has answered this request already. */
  lemma ObjectionLoses(cfg: MasterConfig, m: M.Master, gi: nat, i: nat, q: Request, scfg: S.SlaveConfig, s: S.Slave, t: Clock)
    requires M.Ready(cfg, m) && InThisScan(cfg, m, gi, q) && i < |m.groups[gi].devices| && i < |cfg.groups[gi].devices|
    requires m.sh.masterState == MasterState.Running && S.ValidSlaveConfig(scfg) && scfg.stations == cfg.groups[gi].devices[i].stations
    requires var d := m.groups[gi].devices[i];
             d.enabled && !(d.latest.received && d.latest.seqNo == q.seqNo && d.state != D.Listen)
    ensures var f := Bare(scfg, s, Arrived(cfg, gi, i, q), 0xCFE0);
            var input := M.Frame(t, EncodeResponse(f), cfg.groups[gi].devices[i].slaveId);
            M.Allowed(input) && Loses(cfg, m, input)
  {
    hide LaidOut, EncodeResponse, EncodeRequest, ParseResponse, IsResponse, IsRequest;
    var f := Bare(scfg, s, Arrived(cfg, gi, i, q), 0xCFE0);
    var input := M.Frame(t, EncodeResponse(f), cfg.groups[gi].devices[i].slaveId);
    assert ValidGroup(cfg.groups[gi], cfg.masterId);
    assert ValidDevice(cfg.groups[gi].devices[i], cfg.masterId);
    EncodedResponseIsAccepted(f, cfg.groups[gi].devices[i].slaveId);
    IndexOfReply(cfg, input, gi, i);
  }

  /** A running master whose request reaches a slave under another master's control gets one answer, and from
      then on it never sends a request again, in any group, whatever happens. */
  lemma SecondMasterGoesSilent(cfg: MasterConfig, parameterNo: u16, t0: Clock, before: seq<M.Input>, gi: nat, i: nat, q: Request,
                               scfg: S.SlaveConfig, s: S.Slave, now: u32, t: Clock, after: seq<M.Input>, h: nat)
    requires M.GoodConfig(cfg) && gi < |cfg.groups| && i < |cfg.groups[gi].devices| && h < |cfg.groups|
    requires (forall k :: 0 <= k < |before| ==> M.Allowed(before[k])) && (forall k :: 0 <= k < |after| ==> M.Allowed(after[k]))
    requires SlaveInv(scfg, s) && Branded(scfg, s) && s.state == S.MasterControl && s.master.masterId != cfg.masterId
    requires scfg.stations == cfg.groups[gi].devices[i].stations
    requires var m := RunFromInit(cfg, parameterNo, t0, before);
             && m.sh.masterState == MasterState.Running && InThisScan(cfg, m, gi, q) && i < |m.groups[gi].devices|
             && var d := m.groups[gi].devices[i];
             && d.enabled && !(d.latest.received && d.latest.seqNo == q.seqNo && d.state != D.Listen)
    ensures S.FramesFit(scfg, s)
    ensures var r := S.SlaveStep(scfg, s, S.Poll(now, Datagram(cfg, gi, i, q)));
            && |Replies(r.trace)| == |Replies(s.trace)| + 1
            && var o := Replies(r.trace)[|Replies(s.trace)|];
            && o.Replied? && o.ip == cfg.masterId && o.response.endCode == 0xCFE0
            && var input := M.Frame(t, o.bytes, cfg.groups[gi].devices[i].slaveId);
            && M.Allowed(input)
            && (forall k :: 0 <= k < |before + [input] + after| ==> M.Allowed((before + [input] + after)[k]))
            && var lost, m2 := M.Step(cfg, RunFromInit(cfg, parameterNo, t0, before), input),
                               RunFromInit(cfg, parameterNo, t0, before + [input] + after);
            && m2.groups[h].state == MasterListen && m2.sh.masterState == Standby
            && Log(h, m2.sh.trace) == Log(h, lost.sh.trace)
  {
    hide S.SlaveStep, Replies, Core, EncodeRequest, EncodeResponse, Log, M.Step, M.Allowed, RunFromInit, Loses, LaidOut;
    var m := RunFromInit(cfg, parameterNo, t0, before);
    SlaveObjects(cfg, gi, i, q, scfg, s, now);
    ObjectionLoses(cfg, m, gi, i, q, scfg, s, t);
    var f := Bare(scfg, s, Arrived(cfg, gi, i, q), 0xCFE0);
    LoserIsSilent(cfg, parameterNo, t0, before, M.Frame(t, EncodeResponse(f), cfg.groups[gi].devices[i].slaveId), after, h);
  }
}
