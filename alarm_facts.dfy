// What the alarm engine's definitions imply: when the alarm sounds, which
// scheduled sound plays, the wrap-around of the time setters, the bounds
// the menu keeps, the delay before the NVRAM write, and night dimming.
module AlarmFacts {
  import opened Settings
  import opened Civil
  import opened DisplayFunctions

  // ----- The decision

  /** After the first ten seconds of a minute nothing is checked, played or changed. */
  lemma LateInMinute(t: Tm, s: ClockSettings, next: NextAlarm)
    requires ValidSounds(s) && 0 <= next.soundfileNr < MaxSoundFiles
    requires t.sec > 9
    ensures CheckAlarm(t, s, next) == AlarmCheck(0, next, [])
  {
  }

  /**
   * Otherwise the alarm sounds, looped, exactly when the pending alarm is
   * due and the alarm is on; else at most one sound of a later entry plays
   * once.
   */
  lemma SoundsWhenDue(t: Tm, s: ClockSettings, next: NextAlarm)
    requires ValidSounds(s) && 0 <= next.soundfileNr < MaxSoundFiles
    requires t.sec <= 9
    ensures var c := CheckAlarm(t, s, next);
      && (c.result == 1 <==> t.hour == c.next.hour && t.min == c.next.minute && s.alarmOn)
      && (c.result == 1 ==> c.played == [Play(s.alarmSounds[c.next.soundfileNr].soundfile, true)])
      && (c.result == 0 ==> c.played == [] || exists x :: 0 < x < MaxSoundFiles && c.played == [Play(s.alarmSounds[x].soundfile, false)])
  {
    var st := ScanUpTo(t, s.alarmSounds, next, MaxSoundFiles);
    var c := CheckAlarm(t, s, next);
    if c.result == 0 && c.played != [] {
      assert c.played == [Play(s.alarmSounds[st.soundToPlay].soundfile, false)];
    }
  }

  // ----- Entry 0 matches: the alarm is armed

  /** The last entry before n flagged as alarm whose weekday or date is today, 0 if none. */
  function Override(t: Tm, sounds: seq<AlarmSound>, n: nat): (x: nat)
    requires n <= |sounds|
    ensures n == 0 ==> x == 0
    ensures n > 0 ==> x < n
    ensures x > 0 ==> sounds[x].isAlarm && DayMatches(t, sounds[x])
    ensures forall y :: x < y < n ==> !(sounds[y].isAlarm && DayMatches(t, sounds[y]))
  {
    if n == 0 then 0
    else if sounds[n - 1].isAlarm && DayMatches(t, sounds[n - 1]) then n - 1
    else Override(t, sounds, n - 1)
  }

  /**
   * When entry 0's time is now, the pending alarm becomes now, with the
   * sound of the last alarm-flagged entry for today (entry 0's own by
   * default), and no other sound is chosen.
   */
  lemma {:induction false} ArmedScan(t: Tm, sounds: seq<AlarmSound>, next: NextAlarm, n: nat)
    requires 1 <= n <= |sounds| && TimeMatches(t, sounds[0])
    ensures var r := ScanUpTo(t, sounds, next, n);
      r == Scan(true, -1, NextAlarm(t.hour, t.min, Override(t, sounds, n)))
  {
    if n > 1 {
      ArmedScan(t, sounds, next, n - 1);
    }
  }

  /** The alarm time reached with the alarm on: the alarm sounds, whatever the other entries say. */
  lemma AlarmTimeSounds(t: Tm, s: ClockSettings, next: NextAlarm)
    requires ValidSounds(s) && 0 <= next.soundfileNr < MaxSoundFiles
    requires t.sec <= 9 && TimeMatches(t, s.alarmSounds[0])
    ensures var c := CheckAlarm(t, s, next);
      && c.next == NextAlarm(t.hour, t.min, Override(t, s.alarmSounds, MaxSoundFiles))
      && (s.alarmOn ==> c.result == 1)
      && (!s.alarmOn ==> c.result == 0 && c.played == [])
  {
    ArmedScan(t, s.alarmSounds, next, MaxSoundFiles);
  }

  // ----- Entry 0 does not match: scheduled sounds

  /** An entry that may be played once: its time is now, it is no alarm, and it is for today or every day. */
  predicate Eligible(t: Tm, e: AlarmSound) {
    TimeMatches(t, e) && !e.isAlarm && (DayMatches(t, e) || EveryDay(e))
  }

  /**
   * Without an alarm match the pending alarm stays as it was, and the sound
   * chosen is an eligible entry after 0: none exactly when none is
   * eligible, and no entry for today after it.
   */
  lemma {:induction false} UnarmedScan(t: Tm, sounds: seq<AlarmSound>, next: NextAlarm, n: nat)
    requires 1 <= n <= |sounds| && !TimeMatches(t, sounds[0])
    ensures var r := ScanUpTo(t, sounds, next, n);
      && !r.alarmFound && r.next == next
      && (r.soundToPlay == -1 <==> forall y :: 1 <= y < n ==> !Eligible(t, sounds[y]))
      && (r.soundToPlay != -1 ==> 1 <= r.soundToPlay < n && Eligible(t, sounds[r.soundToPlay]))
      && (forall y :: r.soundToPlay < y < n && TimeMatches(t, sounds[y]) && !sounds[y].isAlarm ==> !DayMatches(t, sounds[y]))
  {
    if n > 1 {
      UnarmedScan(t, sounds, next, n - 1);
      var prev := ScanUpTo(t, sounds, next, n - 1);
      var r := ScanUpTo(t, sounds, next, n);
      assert r == ScanEntry(t, sounds[n - 1], n - 1, prev);
      if Eligible(t, sounds[n - 1]) {
        assert r.soundToPlay != -1;
      }
    }
  }

  /**
   * A scheduled sound at a full hour for every day never plays: it names no
   * weekday and no date, and an every-day entry needs a minute other than 0.
   */
  lemma FullHourNeverPlays(t: Tm, s: ClockSettings, next: NextAlarm, x: int)
    requires ValidSounds(s) && 0 <= next.soundfileNr < MaxSoundFiles
    requires 0 <= t.wday < 7 && 0 <= t.mon < 12
    requires 0 < x < MaxSoundFiles && !TimeMatches(t, s.alarmSounds[0])
    requires s.alarmSounds[x].weekday == 0 && s.alarmSounds[x].month == 0 && s.alarmSounds[x].minute == 0
    ensures ScanUpTo(t, s.alarmSounds, next, MaxSoundFiles).soundToPlay != x
  {
    UnarmedScan(t, s.alarmSounds, next, MaxSoundFiles);
  }

  /** A cancelled alarm stays silent until entry 0's time comes round again. */
  lemma CancelledStaysSilent(t: Tm, s: ClockSettings, next: NextAlarm)
    requires ValidSounds(s) && 0 <= next.soundfileNr < MaxSoundFiles
    requires next.hour == BogusHour && 0 <= t.hour < 24 && !TimeMatches(t, s.alarmSounds[0])
    ensures CheckAlarm(t, s, next).result == 0
    ensures CheckAlarm(t, s, next).next == next
  {
    if t.sec <= 9 {
      UnarmedScan(t, s.alarmSounds, next, MaxSoundFiles);
    }
  }

  // ----- Time arithmetic

  /** Snoozing moves the pending alarm by the snooze length, modulo a day. */
  lemma AddSleepWraps(hour: int, minute: int, sleep: int)
    requires 0 <= hour < 24 && 0 <= minute < 60 && 0 <= sleep <= 60
    ensures var hm := AddSleep(hour, minute, sleep);
      && 0 <= hm.0 < 24 && 0 <= hm.1 < 60
      && hm.0 * 60 + hm.1 == (hour * 60 + minute + sleep) % 1440
  {
  }

  /** Turning the encoder moves the alarm time AlarmAdjust minutes up or down, modulo a day. */
  lemma AdjustAlarmWraps(hour: int, minute: int, adjustment: int)
    requires 0 <= hour < 24 && 0 <= minute < 60
    ensures var hm := AdjustAlarm(hour, minute, adjustment);
      && 0 <= hm.0 < 24 && 0 <= hm.1 < 60
      && hm.0 * 60 + hm.1 == (hour * 60 + minute + (if adjustment > 0 then AlarmAdjust else -AlarmAdjust)) % 1440
  {
  }

  /** The snooze length moves by one step towards the end asked for and never leaves 1..59. */
  lemma SleepAdjustStays(sleep: int, adjustment: int)
    requires 1 <= sleep <= 59
    ensures var r := SleepAdjust(sleep, adjustment);
      && 1 <= r <= 59
      && (adjustment > 0 ==> r == (if sleep < 59 then sleep + 1 else 59))
      && (adjustment <= 0 ==> r == (if sleep > 1 then sleep - 1 else 1))
  {
  }

  /** The brightness setting moves by one step and never leaves 0..MaxBright. */
  lemma BrightnessAdjustStays(b: int, adjustment: int)
    requires 0 <= b <= MaxBright
    ensures var r := BrightnessAdjust(b, adjustment);
      && 0 <= r <= MaxBright
      && (adjustment > 0 ==> r == (if b < MaxBright then b + 1 else b))
      && (adjustment < 0 ==> r == (if b > 0 then b - 1 else b))
      && (adjustment == 0 ==> r == b)
  {
  }

  // ----- Dimming

  /** Every month's sunrise hour is before its sunset hour. */
  lemma SunriseBeforeSunset(mon: int)
    requires 0 <= mon < 12
    ensures SunUpDownMonth[mon].sunUpHour < SunUpDownMonth[mon].sunDownHour
  {
  }

  /** As written, the level is two dimming steps down at every hour. */
  lemma {:induction false} DimmedAsWrittenAlways(b: int, t: Tm)
    requires 0 <= t.mon < 12
    ensures DimmedAsWritten(b, t) == (if b - 2 * DimStep(b) < 0 then 0 else b - 2 * DimStep(b))
  {
    SunriseBeforeSunset(t.mon);
  }

  /** At noon in June, full brightness is sent as 5 where the comments mean 15. */
  lemma DimsAtNoon()
    ensures var noon := Tm(0, 0, 12, 15, 5, 121, 2, 165, 0);
      DimmedAsWritten(MaxBright, noon) == 5 && Dimmed(MaxBright, noon) == MaxBright
  {
  }

  /**
   * Intended dimming: none in daylight, one step in the hours of sunrise
   * and sunset, two at night, never below 0 and never above the setting.
   */
  lemma DimmedByDaylight(b: int, t: Tm)
    requires 0 <= t.mon < 12 && 0 <= b
    ensures var h := SunHour(t);
      var sun := SunUpDownMonth[t.mon];
      var d := Dimmed(b, t);
      && 0 <= d <= b
      && (sun.sunUpHour < h < sun.sunDownHour ==> d == b)
      && ((h == sun.sunUpHour || h == sun.sunDownHour) ==> d == (if b - DimStep(b) < 0 then 0 else b - DimStep(b)))
      && ((h < sun.sunUpHour || h > sun.sunDownHour) ==> d == (if b - 2 * DimStep(b) < 0 then 0 else b - 2 * DimStep(b)))
  {
    SunriseBeforeSunset(t.mon);
  }

  // ----- Delayed NVRAM write

  /** n clock ticks from counter `count`: the counter after them and the writes made. */
  function Ticks(count: int, n: nat): (int, nat)
    decreases n
  {
    if n == 0 then (count, 0)
    else
      var step := StoreStep(count, -1);
      var rest := Ticks(step.0, n - 1);
      (rest.0, rest.1 + (if step.1 then 1 else 0))
  }

  /** A change request restarts the delay without writing. */
  lemma RequestRestarts(count: int, x: int)
    requires x >= 0
    ensures StoreStep(count, x) == (1, false)
  {
  }

  /** A parked counter ignores ticks. */
  lemma {:induction false} ParkedIgnoresTicks(count: int, n: nat)
    requires count < 0
    ensures Ticks(count, n) == (count, 0)
  {
    if n > 0 {
      ParkedIgnoresTicks(count, n - 1);
    }
  }

  /**
   * From a counter in 0..StoreDelay the write happens on the tick that takes
   * it past StoreDelay, exactly once, and the counter is then parked.
   */
  lemma {:induction false} WriteAfterDelay(count: int, n: nat)
    requires 0 <= count <= StoreDelay
    ensures count + n <= StoreDelay ==> Ticks(count, n) == (count + n, 0)
    ensures count + n > StoreDelay ==> Ticks(count, n) == (StoreParked, 1)
    decreases n
  {
    if n > 0 {
      if count < StoreDelay {
        WriteAfterDelay(count + 1, n - 1);
      } else {
        ParkedIgnoresTicks(StoreParked, n - 1);
      }
    }
  }

  /** A change is written on the tenth tick after it; after boot, on the eleventh tick. */
  lemma WriteTiming()
    ensures Ticks(StoreStep(0, 1).0, StoreDelay - 1) == (StoreDelay, 0)
    ensures Ticks(StoreStep(0, 1).0, StoreDelay) == (StoreParked, 1)
    ensures Ticks(0, StoreDelay) == (StoreDelay, 0)
    ensures Ticks(0, StoreDelay + 1) == (StoreParked, 1)
  {
    WriteAfterDelay(1, StoreDelay - 1);
    WriteAfterDelay(1, StoreDelay);
    WriteAfterDelay(0, StoreDelay);
    WriteAfterDelay(0, StoreDelay + 1);
  }
}
