/** What the master promises over whole runs, from initialisation on. */
module MasterTheorems {
  import opened Words
  import opened Config
  import opened Timer
  import opened Frames
  import opened GroupModel
  import opened MasterModel
  import opened DeviceRuns
  import opened FrameViews
  import opened Scans
  import opened ScanInvariant
  import opened Startup
  import opened ArbitrationSafety

  // ---------------------------------------------------------------- the invariant over runs from initialisation

  lemma RunInv(cfg: MasterConfig, parameterNo: u16, t0: Clock, inputs: seq<Input>)
    requires GoodConfig(cfg) && (forall k :: 0 <= k < |inputs| ==> Allowed(inputs[k]))
    ensures MasterInv(cfg, RunFromInit(cfg, parameterNo, t0, inputs))
  {
    hide MasterInv, Run, Init, Ready;
    InitKeeps(cfg, parameterNo, t0);
    RunKeeps(cfg, Init(cfg, parameterNo, t0), inputs);
  }

  /** The log of every group alternates between requests and link scan callbacks. Request k carries
      sequence number SeqOf(k) and is one its slaves accept, with the configured layout. */
  lemma RequestsAlternate(cfg: MasterConfig, parameterNo: u16, t0: Clock, inputs: seq<Input>, gi: nat, k: nat)
    requires GoodConfig(cfg) && (forall j :: 0 <= j < |inputs| ==> Allowed(inputs[j])) && gi < |cfg.groups|
    requires k < |Log(gi, RunFromInit(cfg, parameterNo, t0, inputs).sh.trace)|
    ensures var o := Log(gi, RunFromInit(cfg, parameterNo, t0, inputs).sh.trace)[k];
            if k % 2 == 0 then
              && o.Sent? && o.group == gi && o.request.seqNo == SeqOf(k / 2)
              && AcceptsRequest(o.bytes, cfg.masterId) && DecodeRequest(o.bytes) == o.request
              && GoodRequest(cfg, gi, o.request, o.bytes)
            else o.LinkScanCb? && o.group == gi
  {
    hide FrameFits, LaidOut, Log, Run, Init, EncodeRequest, AcceptsRequest, DecodeRequest, Fillers, PlainView, Sound;
    RunInv(cfg, parameterNo, t0, inputs);
    var m := RunFromInit(cfg, parameterNo, t0, inputs);
    assert GroupInv(cfg, gi, ScopeOf(m, gi));
    var log := Log(gi, m.sh.trace);
    assert LogEntry(cfg, gi, k, log[k]);
    if k % 2 == 0 {
      RequestRoundTrip(log[k].bytes, cfg.masterId, log[k].request);
    }
  }

  /** At rest every running group waits for a timer that is running: the response timer while
      scanning, the constant link scan timer between scans. While scanning with constant scan time
      the two are equal, so a poll never uses up the second one early. Devices rest at a boundary
      between scans, and no device is sending when the group concludes that all have answered. */
  lemma NoStuckGroup(cfg: MasterConfig, parameterNo: u16, t0: Clock, inputs: seq<Input>, gi: nat)
    requires GoodConfig(cfg) && (forall j :: 0 <= j < |inputs| ==> Allowed(inputs[j])) && gi < |cfg.groups|
    ensures var g := RunFromInit(cfg, parameterNo, t0, inputs).groups[gi];
            && g.state != MasterDown
            && (g.state == LinkScan ==>
                  && g.responseTimer == TimerState.Running(cfg.groups[gi].timeout * 1000, g.scanStart)
                  && (cfg.groups[gi].constantScan ==> g.scanTimer == g.responseTimer)
                  && (g.seqNo == 0 ==> NoneSending(g)))
            && (g.state == LinkScanComp ==>
                  cfg.groups[gi].constantScan && g.scanTimer.Running? && AllListenOrSent(g) && g.seqNo >= 1)
            && (HaveReceivedFromAll(g) ==> NoneSending(g))
  {
    hide FrameFits, LaidOut, LogFits, Log, Run, Init, HaveReceivedFromAll, Sound;
    RunInv(cfg, parameterNo, t0, inputs);
    var m := RunFromInit(cfg, parameterNo, t0, inputs);
    assert GroupInv(cfg, gi, ScopeOf(m, gi));
    if HaveReceivedFromAll(m.groups[gi]) {
      CompleteMeansNoneSending(cfg, gi, ScopeOf(m, gi));
    }
  }
}
