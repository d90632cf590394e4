/** The wrap-around timer of src/common/cl_timer.c: 32-bit microsecond stamps that
    wrap about every 71 minutes. */
module Timer {
  import opened Words

  /** What a timer means, apart from the leftover fields of a stopped one. */
  datatype TimerState = Stopped | Running(period: u32, stamp: u32)

  const HALF_RANGE: u32 := 0x7FFF_FFFF

  /** `now - timestamp` on uint32_t. */
  function Delta(now: u32, stamp: u32): u32 {
    (now - stamp) % U32_MODULUS
  }

  predicate Expired(t: TimerState, now: u32) {
    t.Running? && Delta(now, t.stamp) <= HALF_RANGE && Delta(now, t.stamp) >= t.period
  }

  class Timer {
    var running: bool
    var period: u32
    var timestamp: u32

    constructor ()
      ensures State() == Stopped
    {
      running, period, timestamp := false, 0, 0;
    }

    function State(): TimerState
      reads this
    {
      if running then Running(period, timestamp) else Stopped
    }

    method Start(period: u32, now: u32)
      modifies this
      ensures State() == Running(period, now)
    {
      running := true;
      this.period := period;
      timestamp := now;
    }

    method StartIfNotRunning(period: u32, now: u32)
      modifies this
      ensures State() == if old(State()).Running? then old(State()) else Running(period, now)
    {
      if running {
        return;
      }
      Start(period, now);
    }

    method Restart(now: u32)
      modifies this
      ensures State() == if old(State()).Stopped? then Stopped else Running(old(State()).period, now)
    {
      if !running {
        return;
      }
      timestamp := now;
    }

    method Stop()
      modifies this
      ensures State() == Stopped
    {
      running, period, timestamp := false, 0, 0;
    }

    method IsExpired(now: u32) returns (expired: bool)
      ensures expired == Expired(State(), now)
    {
      if !running {
        return false;
      }
      var delta := (now - timestamp) % U32_MODULUS;
      if delta > HALF_RANGE {
        return false;
      }
      return delta >= period;
    }

    method IsRunning() returns (r: bool)
      ensures r == State().Running?
    {
      return running;
    }
  }

  // ---------------------------------------------------------------- meaning

  /** The 32-bit stamp of a clock that never wraps. */
  function StampOf(time: nat): u32 {
    time % U32_MODULUS
  }

  /** The exact law of the 32-bit test, on a clock that never wraps. */
  lemma ExpiredIff(started: nat, time: nat, period: u32)
    requires started <= time
    ensures Expired(Running(period, StampOf(started)), StampOf(time))
            <==> period <= (time - started) % U32_MODULUS <= HALF_RANGE
  {
    ElapsedIsDelta(started, time);
  }

  lemma ElapsedIsDelta(started: nat, time: nat)
    requires started <= time
    ensures Delta(StampOf(time), StampOf(started)) == (time - started) % U32_MODULUS
  {
    var e := time - started;
    var a, b := started / U32_MODULUS, time / U32_MODULUS;
    assert StampOf(time) - StampOf(started) == e - U32_MODULUS * (b - a);
  }

  /** While less than 2^31 microseconds have passed since the start, the 32-bit test is the test on a
      clock that never wraps. */
  lemma ExpiryRefinesUnboundedClock(started: nat, time: nat, period: u32)
    requires started <= time < started + 0x8000_0000
    ensures Expired(Running(period, StampOf(started)), StampOf(time)) <==> time - started >= period
  {
    ExpiredIff(started, time, period);
  }

  /** When the two tests agree at all: before 2^31 microseconds have passed, before a longer period is
      over, or when the wrapped difference has come round to a value that is due again. */
  lemma AgreesWithUnboundedClockIff(started: nat, time: nat, period: u32)
    requires started <= time
    ensures (Expired(Running(period, StampOf(started)), StampOf(time)) <==> time - started >= period)
            <==> (|| time - started <= HALF_RANGE || time - started < period
                  || period <= (time - started) % U32_MODULUS <= HALF_RANGE)
  {
    ExpiredIff(started, time, period);
  }

  /** A clock that reads up to 2^31 microseconds early never expires a timer. */
  lemma EarlyClockNeverExpires(started: nat, time: nat, period: u32)
    requires time < started <= time + 0x8000_0000
    ensures !Expired(Running(period, StampOf(started)), StampOf(time))
  {
    assert Delta(StampOf(time), StampOf(started)) == U32_MODULUS - (started - time);
  }

  /** The documented limit on periods is the exact one: a timer can expire at all if and
      only if its period is at most UINT32_MAX / 2. */
  lemma PeriodLimitIsExact(started: nat, period: u32)
    ensures (exists time: nat :: time >= started && Expired(Running(period, StampOf(started)), StampOf(time)))
            <==> period <= HALF_RANGE
  {
    if period <= HALF_RANGE {
      ExpiryRefinesUnboundedClock(started, started + period, period);
    }
  }

  /** An instance of the disagreement: a timer polled 2^31 microseconds after its start reads as not
      expired, whatever its period. */
  lemma LatePollMissesExpiry(started: nat, period: u32)
    ensures !Expired(Running(period, StampOf(started)), StampOf(started + 0x8000_0000))
  {
    assert Delta(StampOf(started + 0x8000_0000), StampOf(started)) == 0x8000_0000;
  }
}
