/** What holds of a device over every sequence of events it can be sent. */
module DeviceRuns {
  import opened Words
  import opened Config
  import opened DeviceModel

  function DeviceRun(d: Device, setting: DeviceSetting, offCount: u16, events: seq<DeviceEvent>): Device {
    if events == [] then d
    else After(DeviceRun(d, setting, offCount, events[..|events| - 1]), setting, offCount, events[|events| - 1])
  }

  lemma {:induction false} RunOfConcat(d: Device, setting: DeviceSetting, offCount: u16, a: seq<DeviceEvent>, b: seq<DeviceEvent>)
    ensures DeviceRun(d, setting, offCount, a + b) == DeviceRun(DeviceRun(d, setting, offCount, a), setting, offCount, b)
    decreases |b|
  {
    hide After;
    if b == [] {
      assert a + b == a;
    } else {
      assert (a + b)[..|a + b| - 1] == a + b[..|b| - 1];
      RunOfConcat(d, setting, offCount, a, b[..|b| - 1]);
    }
  }

  // ---------------------------------------------------------------- the invariant of a device

  /** At rest a device that is sending has its transmission bit on, one that waits for its first
      response has it off, and the timeout count stays below the limit. */
  predicate Sound(d: Device, offCount: u16) {
    && (d.state == CyclicSending ==> d.bit)
    && (d.state == WaitTd ==> !d.bit)
    && (d.state == Listen || d.state == WaitTd ==> d.timeoutCount == 0)
    && d.timeoutCount < offCount
  }

  /** A device in LISTEN with nothing counted: how initialisation leaves it. */
  predicate Fresh(d: Device) {
    d.state == Listen && !d.bit && d.timeoutCount == 0
  }

  lemma StepIsSound(d: Device, setting: DeviceSetting, offCount: u16, e: DeviceEvent)
    requires Sound(d, offCount) && d.state != MasterDown
    ensures Sound(After(d, setting, offCount, e), offCount) && After(d, setting, offCount, e).state != MasterDown
  {
  }

  lemma {:induction false} RunIsSound(d: Device, setting: DeviceSetting, offCount: u16, events: seq<DeviceEvent>)
    requires Sound(d, offCount) && d.state != MasterDown
    ensures Sound(DeviceRun(d, setting, offCount, events), offCount)
    ensures DeviceRun(d, setting, offCount, events).state != MasterDown
  {
    hide After;
    if events != [] {
      RunIsSound(d, setting, offCount, events[..|events| - 1]);
      StepIsSound(DeviceRun(d, setting, offCount, events[..|events| - 1]), setting, offCount, events[|events| - 1]);
    }
  }

  // ---------------------------------------------------------------- exact disconnection

  /** Whether the last event is a link scan that ended without this device's response while
      its data was under way. */
  predicate LastIsMiss(d: Device, setting: DeviceSetting, offCount: u16, events: seq<DeviceEvent>) {
    && events != []
    && events[|events| - 1] == GroupTimeout
    && DeviceRun(d, setting, offCount, events[..|events| - 1]).state == CyclicSending
  }

  /** Scans missed in a row by a connected device, since its last good response. */
  function Misses(d: Device, setting: DeviceSetting, offCount: u16, events: seq<DeviceEvent>): nat {
    if events == [] then 0
    else
      var rest := events[..|events| - 1];
      var s := DeviceRun(d, setting, offCount, rest).state;
      if LastIsMiss(d, setting, offCount, events) then Misses(d, setting, offCount, rest) + 1
      else if s == Listen || (s == CyclicSending && events[|events| - 1] == ReceiveOk) then 0
      else Misses(d, setting, offCount, rest)
  }

  /** How often a row of misses got as long as the limit. */
  function Drops(d: Device, setting: DeviceSetting, offCount: u16, events: seq<DeviceEvent>): nat {
    if events == [] then 0
    else
      Drops(d, setting, offCount, events[..|events| - 1])
      + if LastIsMiss(d, setting, offCount, events) && Misses(d, setting, offCount, events) == offCount then 1 else 0
  }

  lemma StepCounts(d: Device, setting: DeviceSetting, offCount: u16, e: DeviceEvent)
    requires Sound(d, offCount) && d.state != MasterDown
    ensures var r := After(d, setting, offCount, e);
            if d.state == CyclicSending && e == GroupTimeout then
              && r.state == (if d.timeoutCount + 1 == offCount then Listen else CyclicSent)
              && (r.state != Listen ==> r.timeoutCount == d.timeoutCount + 1)
              && r.counters.timeouts == (d.counters.timeouts + if d.timeoutCount + 1 == offCount then 1 else 0) % U32_MODULUS
            else
              && r.counters.timeouts == d.counters.timeouts
              && (r.state != Listen ==>
                    r.timeoutCount == if d.state == Listen || (d.state == CyclicSending && e == ReceiveOk) then 0 else d.timeoutCount)
  {
  }

  /** The timeout count is the number of scans missed in a row; a timeout drops the device exactly
      when that number reaches the limit, and each drop is counted once. */
  lemma {:induction false} ExactDisconnection(d: Device, setting: DeviceSetting, offCount: u16, events: seq<DeviceEvent>)
    requires Fresh(d) && offCount >= 1
    ensures var r, n := DeviceRun(d, setting, offCount, events), Misses(d, setting, offCount, events);
            && (r.state != Listen ==> r.timeoutCount == n < offCount)
            && (LastIsMiss(d, setting, offCount, events) ==>
                  n <= offCount && r.state == if n == offCount then Listen else CyclicSent)
            && r.counters.timeouts == (d.counters.timeouts + Drops(d, setting, offCount, events)) % U32_MODULUS
  {
    hide After;
    if events != [] {
      var rest := events[..|events| - 1];
      ExactDisconnection(d, setting, offCount, rest);
      RunIsSound(d, setting, offCount, rest);
      StepCounts(DeviceRun(d, setting, offCount, rest), setting, offCount, events[|events| - 1]);
    }
  }

  // ---------------------------------------------------------------- connects and disconnects

  /** Connects minus disconnects is the transmission bit, on the wrapping counters. */
  predicate Balanced(d: Device) {
    (d.counters.connects - d.counters.disconnects) % U32_MODULUS == if d.bit then 1 else 0
  }

  lemma StepIsBalanced(d: Device, setting: DeviceSetting, offCount: u16, e: DeviceEvent)
    requires Balanced(d) && d.state != MasterDown
    ensures Balanced(After(d, setting, offCount, e)) && After(d, setting, offCount, e).state != MasterDown
  {
    hide Balanced, BitSet;
    BitSetIsBalanced(d, WaitTd);
    BitSetIsBalanced(d, CyclicSuspend);
    BitSetIsBalanced(d, CyclicSending);
    var r := After(d, setting, offCount, e);
    if r.bit == d.bit && r.counters.connects == d.counters.connects && r.counters.disconnects == d.counters.disconnects {
      SameTalliesSameBalance(d, r);
    }
  }

  lemma BitSetIsBalanced(d: Device, s: DeviceState)
    requires Balanced(d)
    ensures forall next :: Balanced(BitSet(d, s).(state := next))
  {
  }

  lemma SameTalliesSameBalance(d: Device, r: Device)
    requires Balanced(d)
    requires r.bit == d.bit && r.counters.connects == d.counters.connects && r.counters.disconnects == d.counters.disconnects
    ensures Balanced(r)
  {
  }

  lemma {:induction false} RunIsBalanced(d: Device, setting: DeviceSetting, offCount: u16, events: seq<DeviceEvent>)
    requires Balanced(d) && d.state != MasterDown
    ensures Balanced(DeviceRun(d, setting, offCount, events)) && DeviceRun(d, setting, offCount, events).state != MasterDown
  {
    hide Balanced, After;
    if events != [] {
      RunIsBalanced(d, setting, offCount, events[..|events| - 1]);
      StepIsBalanced(DeviceRun(d, setting, offCount, events[..|events| - 1]), setting, offCount, events[|events| - 1]);
    }
  }
}
