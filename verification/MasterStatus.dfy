/** The status of the master's application, as the slave's application is told of it. */
module MasterStatus {
  import opened Words
  import opened SlaveModel
  import opened SlaveInvariant
  import opened SlaveAnswers
  import opened SlaveRuns
  import R = ResponseRules

  /** The slave serves the request: it exchanges data with its master, or takes it. */
  predicate Serves(cfg: SlaveConfig, s: Slave, q: Incoming, p: nat) {
    && q.Incoming? && 1 <= p <= |q.r.ids| && p - 1 + cfg.stations <= |q.r.ids|
    && ((IsCyclic(s, q) && p == s.master.station && q.r.groupNo == s.master.groupNo && q.r.ids[p - 1] == q.localIp)
        || (LooksUp(s, q) && s.state != WaitDisabling && Listed(q, p, cfg.stations) && !Bit(q.r.word, p - 1)))
  }

  /** After a request that carries the status of a master which is running or stopped, perhaps by its user,
      the last status callback says exactly that, from version 2 on also who stopped it. */
  lemma StatusIsTold(cfg: SlaveConfig, w: Wishes, s: Slave, now: u32, q: Incoming, p: nat, running: bool, byUser: bool)
    requires Sound(cfg, w, s) && GoodIncoming(q) && Serves(cfg, s, q, p)
    requires q.r.unitInfo == R.StatusWord(q.r.protocolVer, running, byUser)
    ensures FramesFit(cfg, s) && q.r.WellFormed()
    ensures Told(HandleRequest(cfg, s, now, q).trace)
            == [MasterStateCb(true, running, q.r.protocolVer >= 2 && !running && byUser, q.r.protocolVer, q.r.unitInfo)]
  {
    hide Core, Listed, Bit, HandleRequest, Informed, SlaveInv, Branded, Told;
    RequestSound(cfg, w, s, now, q);
    ServedMemo(cfg, s, now, q, p);
    InformedSays(HandleRequest(cfg, s, now, q), q.r.protocolVer, running, byUser);
  }

  lemma ServedMemo(cfg: SlaveConfig, s: Slave, now: u32, q: Incoming, p: nat)
    requires SlaveInv(cfg, s) && Branded(cfg, s) && GoodIncoming(q) && Serves(cfg, s, q, p)
    ensures FramesFit(cfg, s) && q.r.WellFormed()
    ensures HandleRequest(cfg, s, now, q).memo == Memo(true, true, q.r.protocolVer, q.r.unitInfo)
  {
    hide Core, Listed, Bit, HandleRequest, Taken, TotalTimeout, StatusNews, Bare, Full;
    CoreFits(cfg, s);
    if IsCyclic(s, q) {
      CyclicRequestIsServed(cfg, s, now, q);
    } else {
      MasterIsTaken(cfg, s, now, q, p);
    }
  }

  lemma InformedSays(r: Slave, ver: u16, running: bool, byUser: bool)
    requires Informed(r) && r.memo == Memo(true, true, ver, R.StatusWord(ver, running, byUser))
    ensures Told(r.trace) == [MasterStateCb(true, running, ver >= 2 && !running && byUser, ver, R.StatusWord(ver, running, byUser))]
  {
    hide Told;
  }
}
