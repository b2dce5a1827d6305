// The time task: a counter of the minutes since the last SNTP sync, the
// delay that wakes the task just after every :00 and :30, and the choice,
// on each wake-up, between writing the network time into the DS3231 and
// taking the time back from it. The system clock, the SNTP client and the
// I2C bus are outside: the current time, the sync statuses and the bytes
// read from the chip are parameters, and what the task does to the outside
// world is a list of effects.
module TimeTask {
  import opened Civil
  import Ds3231

  /** Minutes without a sync after which the DS3231 takes over. */
  const SntpMaxTimeNoSync := 121

  /** sntp_get_sync_status, as ESP-IDF reports it. */
  datatype SyncStatus = StatusReset | StatusCompleted | StatusInProgress | StatusUnknown

  /** What one wake-up does outside the task. */
  datatype Effect =
    | MinutePassed                    // minute_passed queued for the display task
    | RtcWrite(registers: seq<int>)   // ds3231_set_time with these seven bytes
    | SetClock(t: int)                // settimeofday

  /** mktime under TZ="": the month carried into the year first (floor division), the other fields linearly. */
  function Mktime(tm: Tm): (t: int)
    ensures 0 <= tm.mon < 12 ==> t == TmToEpoch(tm)
  {
    var mon := tm.mon % 12;
    var year := tm.year + tm.mon / 12;
    DaysFromCivil(year + YearBase, mon, tm.mday) * SecsPerDay
      + tm.hour * SecsPerHour + tm.min * SecsPerMin + tm.sec
  }

  // ----- last_sntp_sync_min

  /** The count after one call: one more on a new minute, and 0 after a completed sync. */
  function SyncCount(lastMin: int, count: int, tmMin: int, status: SyncStatus): int {
    var c := if lastMin != tmMin then count + 1 else count;
    if status == StatusCompleted then 0 else c
  }

  /** A completed sync always answers 0. */
  lemma CompletedAnswersZero(lastMin: int, count: int, tmMin: int)
    ensures SyncCount(lastMin, count, tmMin, StatusCompleted) == 0
  {
  }

  /** Any other status counts the minute once: a second call in the same minute adds nothing. */
  lemma CountsOncePerMinute(lastMin: int, count: int, tmMin: int, s1: SyncStatus, s2: SyncStatus)
    requires s1 != StatusCompleted && s2 != StatusCompleted
    ensures SyncCount(lastMin, count, tmMin, s1) == count + (if lastMin != tmMin then 1 else 0)
    ensures SyncCount(tmMin, SyncCount(lastMin, count, tmMin, s1), tmMin, s2) == SyncCount(lastMin, count, tmMin, s1)
  {
  }

  // ----- The wake-up delay

  /** The delay of vTaskDelay in milliseconds, before its conversion to ticks. */
  function WakeDelayMs(sec: int, usec: int): int {
    CDiv(1050000 - usec, 1000) + ((if sec < 30 then 29 else 59) - sec) * 1000
  }

  /**
   * The delay is positive and ends about 50 ms after the next :00 or :30:
   * in microseconds it is the time to that boundary plus 50000, rounded
   * down to whole milliseconds.
   */
  lemma WakeDelayToBoundary(sec: int, usec: int)
    requires 0 <= sec < 60 && 0 <= usec < 1000000
    ensures var d := WakeDelayMs(sec, usec);
      var toBoundary := (30 - sec % 30) * 1000000 - usec;
      && d >= 50
      && d * 1000 <= toBoundary + 50000 < d * 1000 + 1000
  {
    var q := (1050000 - usec) / 1000;
    assert CDiv(1050000 - usec, 1000) == q;
    assert q * 1000 <= 1050000 - usec < q * 1000 + 1000;
    if sec < 30 {
      assert sec % 30 == sec;
    } else {
      assert sec % 30 == sec - 30;
    }
  }

  // ----- The DS3231 as the fallback clock

  /** The UTC record of an instant of 1900..2099 has fields the DS3231 can hold. */
  lemma GmtimeStorable(now: int)
    requires -2208988800 <= now < 4102444800
    ensures Ds3231.StorableTime(Gmtime(now))
  {
    var days := now / SecsPerDay;
    GmtimeSplit(now, days, now % SecsPerDay);
    var y := YearOfDay(days);
    if y >= 2100 {
      YearStartMonotone(2100, y);
    }
    if y < 1900 {
      YearStartMonotone(y + 1, 1900);
    }
    assert Gmtime(now).year + YearBase == y;
  }

  /** The day of the year, the weekday and the daylight flag take no part in the instant. */
  lemma SameInstant(a: Tm, b: Tm)
    requires 0 <= a.mon < 12
    requires a.sec == b.sec && a.min == b.min && a.hour == b.hour
    requires a.mday == b.mday && a.mon == b.mon && a.year == b.year
    ensures TmToEpoch(a) == TmToEpoch(b)
  {
  }

  /** Every instant of 1900..2099 survives being written to the DS3231 and read back. */
  lemma RtcRoundTrip(now: int, time0: Tm)
    requires -2208988800 <= now < 4102444800
    ensures Mktime(Ds3231.TimeOfRegisters(Ds3231.TimeRegisters(Gmtime(now)), time0)) == now
  {
    var g := Gmtime(now);
    GmtimeStorable(now);
    Ds3231.TimeRoundTrip(g, time0);
    var r := Tm(g.sec, g.min, g.hour, g.mday, g.mon, g.year, g.wday, time0.yday, 0);
    assert Ds3231.TimeOfRegisters(Ds3231.TimeRegisters(g), time0) == r;
    assert Mktime(r) == TmToEpoch(r);
    SameInstant(r, g);
  }

  // ----- The task

  /**
   * The time task's own state: the two statics of last_sntp_sync_min and
   * the broken-down time last read from the DS3231.
   */
  class TimeKeeper {
    var lastMin: int
    var count: int
    var rtcTime: Tm

    /** The statics start at zero. */
    constructor()
      ensures lastMin == 0 && count == 0 && rtcTime == Tm(0, 0, 0, 0, 0, 0, 0, 0, 0)
    {
      lastMin, count := 0, 0;
      rtcTime := Tm(0, 0, 0, 0, 0, 0, 0, 0, 0);
    }

    /** last_sntp_sync_min: the minutes counted since the last completed sync. */
    method LastSntpSyncMin(tmMin: int, status: SyncStatus) returns (r: int)
      modifies this
      ensures lastMin == tmMin && count == SyncCount(old(lastMin), old(count), tmMin, status)
      ensures r == count && rtcTime == old(rtcTime)
    {
      if lastMin != tmMin {
        lastMin := tmMin;
        count := count + 1;
      }
      match status {
        case StatusCompleted => count := 0;
        case StatusInProgress =>
        case StatusReset =>
        case StatusUnknown =>
      }
      r := count;
    }

    /** ds3231_get_time into the static record, then mktime of it as the new system time. */
    method ClockFromRtc(data: seq<int>) returns (effect: Effect)
      requires |data| == 7 && forall i :: 0 <= i < 7 ==> 0 <= data[i] < 256
      modifies this
      ensures rtcTime == Ds3231.TimeOfRegisters(data, old(rtcTime))
      ensures effect == SetClock(Mktime(rtcTime))
      ensures lastMin == old(lastMin) && count == old(count)
    {
      var tm, err := Ds3231.GetTime(data, rtcTime);
      rtcTime := tm;
      effect := SetClock(Mktime(tm));
    }

    /** Start-up: the system clock is seeded from the DS3231 under UTC. */
    method Start(data: seq<int>) returns (effects: seq<Effect>)
      requires |data| == 7 && forall i :: 0 <= i < 7 ==> 0 <= data[i] < 256
      modifies this
      ensures rtcTime == Ds3231.TimeOfRegisters(data, old(rtcTime))
      ensures effects == [SetClock(Mktime(rtcTime))]
      ensures lastMin == old(lastMin) && count == old(count)
    {
      var e := ClockFromRtc(data);
      effects := [e];
    }

    /**
     * One wake-up of the loop at system time `now`, whose local time is
     * `local`: minute_passed is queued, the network time goes to the DS3231
     * on the first minute after a sync, and the DS3231 time comes back every
     * 121 minutes without one. The status is sampled once for each decision.
     */
    method Tick(now: int, local: Tm, data: seq<int>, queued: bool, s1: SyncStatus, s2: SyncStatus)
      returns (effects: seq<Effect>)
      requires |data| == 7 && forall i :: 0 <= i < 7 ==> 0 <= data[i] < 256
      modifies this
      ensures var o := TickOutcome(old(lastMin), old(count), old(rtcTime), local, queued, s1, s2, Io(now, data, old(rtcTime)));
        lastMin == local.min && count == o.count && rtcTime == o.rtcTime && effects == o.effects
    {
      ghost var io := Io(now, data, rtcTime);
      var signal := if queued then [MinutePassed] else [];
      var write := [];
      var c1 := LastSntpSyncMin(local.min, s1);
      if c1 == 1 {
        var registers, err := Ds3231.SetTime(Gmtime(now));
        write := [RtcWrite(registers)];
      }
      effects := signal + write;
      var c2 := LastSntpSyncMin(local.min, s2);
      if c2 > 0 && c2 % SntpMaxTimeNoSync == 0 {
        var e := ClockFromRtc(data);
        effects := effects + [e];
      }
    }
  }

  /** What one wake-up leaves behind: the count, the last DS3231 record and the effects. */
  datatype Outcome = Outcome(count: int, rtcTime: Tm, effects: seq<Effect>)

  /**
   * The DS3231 traffic a wake-up may cause: the registers it would write,
   * the record it would read back and the system time that record gives.
   */
  datatype RtcIo = RtcIo(written: seq<int>, read: Tm, clock: int)

  /** The traffic at system time `now` with the chip holding `data`. */
  function Io(now: int, data: seq<int>, rtcTime: Tm): (io: RtcIo)
    requires |data| == 7 && forall i :: 0 <= i < 7 ==> 0 <= data[i] < 256
    ensures io.read == Ds3231.TimeOfRegisters(data, rtcTime) && io.clock == Mktime(io.read)
  {
    var tm := Ds3231.TimeOfRegisters(data, rtcTime);
    RtcIo(Ds3231.TimeRegisters(Gmtime(now)), tm, Mktime(tm))
  }

  /** The wake-up with one status sample for the DS3231 write and one for the read. */
  function TickOutcome(lastMin: int, count: int, rtcTime: Tm, local: Tm, queued: bool,
                       s1: SyncStatus, s2: SyncStatus, io: RtcIo): Outcome
  {
    var c1 := SyncCount(lastMin, count, local.min, s1);
    var c2 := SyncCount(local.min, c1, local.min, s2);
    var signal := if queued then [MinutePassed] else [];
    var write := if c1 == 1 then [RtcWrite(io.written)] else [];
    if c2 > 0 && c2 % SntpMaxTimeNoSync == 0 then
      Outcome(c2, io.read, signal + write + [SetClock(io.clock)])
    else
      Outcome(c2, rtcTime, signal + write)
  }

  /**
   * The wake-up as the loop is written: the read decision calls
   * last_sntp_sync_min twice, once for `> 0` and once for the modulus.
   */
  function TickOutcomeAsWritten(lastMin: int, count: int, rtcTime: Tm, local: Tm, queued: bool,
                                s1: SyncStatus, s2: SyncStatus, s3: SyncStatus, io: RtcIo): Outcome
  {
    var c1 := SyncCount(lastMin, count, local.min, s1);
    var c2 := SyncCount(local.min, c1, local.min, s2);
    var signal := if queued then [MinutePassed] else [];
    var write := if c1 == 1 then [RtcWrite(io.written)] else [];
    if c2 > 0 then
      var c3 := SyncCount(local.min, c2, local.min, s3);
      if c3 % SntpMaxTimeNoSync == 0 then
        Outcome(c3, io.read, signal + write + [SetClock(io.clock)])
      else Outcome(c3, rtcTime, signal + write)
    else
      Outcome(c2, rtcTime, signal + write)
  }

  /** The wake-up sets the clock from the DS3231. */
  predicate ReadsRtc(o: Outcome) {
    exists i :: 0 <= i < |o.effects| && o.effects[i].SetClock?
  }

  /**
   * As written, a sync that completes between the last two status samples
   * makes the modulus see 0, and the DS3231 time replaces the network time
   * that has just arrived.
   */
  lemma SyncBetweenSamplesReadsRtc(lastMin: int, count: int, rtcTime: Tm, local: Tm, queued: bool,
                                   s1: SyncStatus, s2: SyncStatus, io: RtcIo)
    requires s1 != StatusCompleted && s2 != StatusCompleted
    requires count > 0 || (count == 0 && lastMin != local.min)
    ensures var o := TickOutcomeAsWritten(lastMin, count, rtcTime, local, queued, s1, s2, StatusCompleted, io);
      o.count == 0 && ReadsRtc(o) && o.rtcTime == io.read
  {
    var c1 := SyncCount(lastMin, count, local.min, s1);
    assert SyncCount(local.min, c1, local.min, s2) == c1 > 0;
    var signal := if queued then [MinutePassed] else [];
    var write := if c1 == 1 then [RtcWrite(io.written)] else [];
    EndReadsRtc(0, io.read, signal + write, io.clock);
  }

  /** With one sample per decision, a wake-up whose samples report a completed sync never reads the DS3231. */
  lemma SyncNeverReadsRtc(lastMin: int, count: int, rtcTime: Tm, local: Tm, queued: bool,
                          s1: SyncStatus, s2: SyncStatus, io: RtcIo)
    requires s1 == StatusCompleted || s2 == StatusCompleted
    ensures var o := TickOutcome(lastMin, count, rtcTime, local, queued, s1, s2, io);
      o.count == 0 && !ReadsRtc(o) && o.rtcTime == rtcTime
  {
    var c1 := SyncCount(lastMin, count, local.min, s1);
    assert SyncCount(local.min, c1, local.min, s2) == 0;
    NoRead(0, rtcTime, queued, if c1 == 1 then [RtcWrite(io.written)] else []);
  }

  /**
   * Without a sync, the DS3231 is read exactly on the minutes that bring
   * the count to a positive multiple of 121, and the count is not reset
   * by it.
   */
  lemma RtcReadEvery121(lastMin: int, count: int, rtcTime: Tm, local: Tm, queued: bool,
                        s1: SyncStatus, s2: SyncStatus, io: RtcIo)
    requires s1 != StatusCompleted && s2 != StatusCompleted && count >= 0
    ensures var o := TickOutcome(lastMin, count, rtcTime, local, queued, s1, s2, io);
      && o.count == count + (if lastMin != local.min then 1 else 0)
      && (ReadsRtc(o) <==> o.count > 0 && o.count % SntpMaxTimeNoSync == 0)
  {
    var c1 := SyncCount(lastMin, count, local.min, s1);
    var c2 := SyncCount(local.min, c1, local.min, s2);
    assert c2 == c1 == count + (if lastMin != local.min then 1 else 0);
    var signal := if queued then [MinutePassed] else [];
    var write := if c1 == 1 then [RtcWrite(io.written)] else [];
    if c2 > 0 && c2 % SntpMaxTimeNoSync == 0 {
      EndReadsRtc(c2, io.read, signal + write, io.clock);
    } else {
      NoRead(c2, rtcTime, queued, write);
    }
  }

  /** Effects that end in setting the clock read the DS3231. */
  lemma EndReadsRtc(c: int, tm: Tm, es: seq<Effect>, t: int)
    ensures ReadsRtc(Outcome(c, tm, es + [SetClock(t)]))
  {
    assert (es + [SetClock(t)])[|es|] == SetClock(t);
  }

  /** The minute signal and DS3231 writes alone do not read the DS3231. */
  lemma NoRead(c: int, tm: Tm, queued: bool, write: seq<Effect>)
    requires forall i :: 0 <= i < |write| ==> write[i].RtcWrite?
    ensures !ReadsRtc(Outcome(c, tm, (if queued then [MinutePassed] else []) + write))
  {
    var es := (if queued then [MinutePassed] else []) + write;
    assert forall i :: 0 <= i < |es| ==> es[i] == MinutePassed || es[i].RtcWrite?;
  }

  /** The wake-up writes the DS3231. */
  predicate WritesRtc(o: Outcome) {
    exists i :: 0 <= i < |o.effects| && o.effects[i].RtcWrite?
  }

  /**
   * The count moves only when the minute changes, so both wake-ups of the
   * first minute after a sync write the network time to the DS3231.
   */
  lemma TwoWritesAfterSync(rtcTime: Tm, local: Tm, io1: RtcIo, io2: RtcIo)
    ensures var first := TickOutcome(local.min - 1, 0, rtcTime, local, true, StatusReset, StatusReset, io1);
      var second := TickOutcome(local.min, first.count, first.rtcTime, local, true, StatusReset, StatusReset, io2);
      first.count == 1 && second.count == 1 && WritesRtc(first) && WritesRtc(second)
  {
    var first := TickOutcome(local.min - 1, 0, rtcTime, local, true, StatusReset, StatusReset, io1);
    assert first.effects[1].RtcWrite?;
    var second := TickOutcome(local.min, first.count, first.rtcTime, local, true, StatusReset, StatusReset, io2);
    assert second.effects[1].RtcWrite?;
  }

  /** The minute signal is queued first on every wake-up when the queue exists, and never otherwise. */
  lemma SignalFirst(lastMin: int, count: int, rtcTime: Tm, local: Tm, queued: bool,
                    s1: SyncStatus, s2: SyncStatus, io: RtcIo)
    ensures var o := TickOutcome(lastMin, count, rtcTime, local, queued, s1, s2, io);
      (queued <==> |o.effects| > 0 && o.effects[0] == MinutePassed)
  {
  }

  // ----- set_time and get_time

  /** set_time: the system clock set to the new UTC time, which is also pushed to the DS3231. */
  function SetTime(t: int): (effects: seq<Effect>)
    ensures |effects| == 2 && effects[0] == SetClock(t) && effects[1].RtcWrite?
  {
    [SetClock(t), RtcWrite(Ds3231.TimeRegisters(Gmtime(t)))]
  }

  /** What set_time pushes to the DS3231 is read back as the same instant, for the years the chip holds. */
  lemma SetTimeReadsBack(t: int, time0: Tm)
    requires -2208988800 <= t < 4102444800
    ensures Mktime(Ds3231.TimeOfRegisters(SetTime(t)[1].registers, time0)) == t
  {
    RtcRoundTrip(t, time0);
  }
}
