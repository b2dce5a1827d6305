// The clock's alarm engine and the settings the menu adjusts: the scan of
// the alarm table once a minute, the pending alarm that snoozing moves,
// the wrap-around time arithmetic of the setters, night dimming, and the
// delayed write of the settings to NVRAM.
module DisplayFunctions {
  import opened Settings
  import opened Civil

  /** An hour no clock reaches: a pending alarm at this hour never sounds. */
  const BogusHour := 99
  /** The highest MAX7219 brightness level. */
  const MaxBright := 15
  /** Minutes the alarm time moves per encoder step. */
  const AlarmAdjust := 5
  /** Clock ticks between the last change and the NVRAM write. */
  const StoreDelay := 10
  /** The counter value that parks the delayed write. */
  const StoreParked := -255

  /** next_alarm: when the alarm sounds next and which entry's sound it plays. */
  datatype NextAlarm = NextAlarm(hour: int, minute: int, soundfileNr: int)

  /** The calls made into the audio player. */
  datatype Audio = Play(soundfile: string, looped: bool) | StopSound

  /** Average sunrise and sunset hours, without daylight saving. */
  datatype SunUpDown = SunUpDown(sunUpHour: int, sunDownHour: int)

  /** sun_updown_month, indexed by tm_mon. */
  const SunUpDownMonth: seq<SunUpDown> := [
    SunUpDown(9, 17), SunUpDown(8, 18), SunUpDown(7, 18), SunUpDown(6, 19),
    SunUpDown(6, 20), SunUpDown(5, 21), SunUpDown(5, 21), SunUpDown(6, 20),
    SunUpDown(6, 19), SunUpDown(7, 18), SunUpDown(8, 17), SunUpDown(9, 17)]

  // ----- The alarm table scan

  predicate TimeMatches(t: Tm, e: AlarmSound) {
    t.hour == e.hour && t.min == e.minute
  }

  /** The entry names today's weekday (1 is Sunday) or today's month and day. */
  predicate DayMatches(t: Tm, e: AlarmSound) {
    t.wday + 1 == e.weekday || (e.month == t.mon + 1 && e.day == t.mday)
  }

  /** An entry for every day at its time; midnight and full hours are excluded. */
  predicate EveryDay(e: AlarmSound) {
    e.weekday == 0 && e.month == 0 && e.hour != 0 && e.minute != 0
  }

  /** The loop variables of check_for_alarm together with next_alarm. */
  datatype Scan = Scan(alarmFound: bool, soundToPlay: int, next: NextAlarm)

  /** The choice of a sound to play once, for an entry other than the alarm. */
  function AncillaryChoice(t: Tm, e: AlarmSound, x: int, chosen: int): int {
    var s := if DayMatches(t, e) then x else chosen;
    if s == -1 && EveryDay(e) then x else s
  }

  /** One iteration of the scan, for entry x. */
  function ScanEntry(t: Tm, e: AlarmSound, x: int, st: Scan): Scan {
    var st1 :=
      if !TimeMatches(t, e) then st
      else if x == 0 then Scan(true, st.soundToPlay, NextAlarm(t.hour, t.min, 0))
      else if !st.alarmFound && !e.isAlarm then st.(soundToPlay := AncillaryChoice(t, e, x, st.soundToPlay))
      else st;
    if st1.alarmFound && e.isAlarm && DayMatches(t, e) then st1.(next := st1.next.(soundfileNr := x))
    else st1
  }

  /** The scan over the first n entries, starting from the pending alarm `next`. */
  function ScanUpTo(t: Tm, sounds: seq<AlarmSound>, next: NextAlarm, n: nat): (r: Scan)
    requires n <= |sounds|
    ensures -1 <= r.soundToPlay < n
    ensures r.next.soundfileNr == next.soundfileNr || 0 <= r.next.soundfileNr < n
  {
    if n == 0 then Scan(false, -1, next)
    else ScanEntry(t, sounds[n - 1], n - 1, ScanUpTo(t, sounds, next, n - 1))
  }

  /** check_for_alarm's result, the new pending alarm and what is played. */
  datatype AlarmCheck = AlarmCheck(result: int, next: NextAlarm, played: seq<Audio>)

  predicate ValidSounds(s: ClockSettings) {
    |s.alarmSounds| == MaxSoundFiles
  }

  /** The whole check: only in the first ten seconds of a minute, then the scan and the decision. */
  function CheckAlarm(t: Tm, s: ClockSettings, next: NextAlarm): AlarmCheck
    requires ValidSounds(s) && 0 <= next.soundfileNr < MaxSoundFiles
  {
    if t.sec > 9 then AlarmCheck(0, next, [])
    else
      var st := ScanUpTo(t, s.alarmSounds, next, MaxSoundFiles);
      Decide(t, s, st)
  }

  function Decide(t: Tm, s: ClockSettings, st: Scan): AlarmCheck
    requires ValidSounds(s) && 0 <= st.next.soundfileNr < MaxSoundFiles && st.soundToPlay < MaxSoundFiles
  {
    if t.hour == st.next.hour && t.min == st.next.minute && s.alarmOn then
      AlarmCheck(1, st.next, [Play(s.alarmSounds[st.next.soundfileNr].soundfile, true)])
    else if st.soundToPlay > 0 then
      AlarmCheck(0, st.next, [Play(s.alarmSounds[st.soundToPlay].soundfile, false)])
    else AlarmCheck(0, st.next, [])
  }

  // ----- Delayed NVRAM write

  /** clock_store_nvram: the new counter and whether the settings are written now. */
  function StoreStep(count: int, x: int): (int, bool) {
    if x < 0 && count < 0 then (count, false)
    else
      var c := if x < 0 then count + 1 else 1;
      if c > StoreDelay then (StoreParked, true) else (c, false)
  }

  // ----- Time arithmetic

  /** alarm_add_sleep on the pending alarm's hour and minute. */
  function AddSleep(hour: int, minute: int, sleep: int): (int, int) {
    var m := minute + sleep;
    if m > 59 then
      (if hour + 1 > 23 then 0 else hour + 1, m - 60)
    else (hour, m)
  }

  /** alarm_set_time on the alarm's hour and minute: AlarmAdjust minutes up or down. */
  function AdjustAlarm(hour: int, minute: int, adjustment: int): (int, int) {
    if adjustment > 0 then
      var m := minute + AlarmAdjust;
      if m > 59 then (if hour + 1 > 23 then 0 else hour + 1, m - 60) else (hour, m)
    else
      var m := minute - AlarmAdjust;
      if m < 0 then (if hour - 1 < 0 then 23 else hour - 1, m + 60) else (hour, m)
  }

  /** sleep_set_time's new snooze length. */
  function SleepAdjust(sleep: int, adjustment: int): int {
    if adjustment > 0 then (if sleep < 59 then sleep + 1 else sleep)
    else (if sleep > 1 then sleep - 1 else sleep)
  }

  /** brightness_set's new setting; whether it changed decides the NVRAM request. */
  function BrightnessAdjust(b: int, adjustment: int): int {
    if adjustment > 0 && b < MaxBright then b + 1
    else if adjustment < 0 && b > 0 then b - 1
    else b
  }

  /** The dimming step: a third of the setting, at least 1. */
  function DimStep(b: int): int {
    if b / 3 < 1 then 1 else b / 3
  }

  /** The hour compared with the table: one less while daylight saving is in force. */
  function SunHour(t: Tm): int {
    if t.isdst != 0 then t.hour - 1 else t.hour
  }

  /**
   * The level brightness_set sends, as written: the twilight test and the
   * dark test compare the hour the wrong way round, so both hold at every
   * hour of the day.
   */
  function DimmedAsWritten(b: int, t: Tm): int
    requires 0 <= t.mon < 12
  {
    var h := SunHour(t);
    var sun := SunUpDownMonth[t.mon];
    var b1 := if h <= sun.sunDownHour + 1 || h >= sun.sunUpHour - 1 then b - DimStep(b) else b;
    var b2 := if h <= sun.sunDownHour || h >= sun.sunUpHour then b1 - DimStep(b) else b1;
    if b2 < 0 then 0 else b2
  }

  /**
   * The level the comments describe: one step down from the hour of sunset
   * to that of sunrise, another step down strictly between them.
   */
  function Dimmed(b: int, t: Tm): int
    requires 0 <= t.mon < 12
  {
    var h := SunHour(t);
    var sun := SunUpDownMonth[t.mon];
    var b1 := if h >= sun.sunDownHour || h <= sun.sunUpHour then b - DimStep(b) else b;
    var b2 := if h >= sun.sunDownHour + 1 || h <= sun.sunUpHour - 1 then b1 - DimStep(b) else b1;
    if b2 < 0 then 0 else b2
  }

  /** The level computation of brightness_set. */
  method DimLevel(b: int, t: Tm) returns (level: int)
    requires 0 <= t.mon < 12
    ensures level == Dimmed(b, t)
  {
    var brightAdjust := b / 3;
    if brightAdjust < 1 {
      brightAdjust := 1;
    }
    var hour := t.hour;
    if t.isdst != 0 {
      hour := hour - 1;
    }
    var sun := SunUpDownMonth[t.mon];
    level := b;
    if hour >= sun.sunDownHour || hour <= sun.sunUpHour {
      level := level - brightAdjust;
    }
    if hour >= sun.sunDownHour + 1 || hour <= sun.sunUpHour - 1 {
      level := level - brightAdjust;
    }
    if level < 0 {
      level := 0;
    }
  }

  // ----- The clock's state and what each call does to it

  /** The settings, the pending alarm, the NVRAM write counter and the calls made out. */
  datatype ClockView = ClockView(
    settings: ClockSettings,
    nextAlarm: NextAlarm,
    storeCount: int,
    nvramWrites: seq<ClockSettings>,
    audio: seq<Audio>,
    brightnessSent: seq<int>)

  /** Twenty entries, and the pending alarm names one of them. */
  predicate ValidView(c: ClockView) {
    ValidSounds(c.settings) && 0 <= c.nextAlarm.soundfileNr < MaxSoundFiles
  }

  /** clock_store_nvram(x): the counter steps and the settings may be written out. */
  function Stored(c: ClockView, x: int): (r: ClockView)
    ensures r.settings == c.settings && r.nextAlarm == c.nextAlarm
    ensures r.audio == c.audio && r.brightnessSent == c.brightnessSent
    ensures r.nvramWrites == c.nvramWrites || r.nvramWrites == c.nvramWrites + [c.settings]
    ensures x > 0 ==> r.storeCount == 1 && r.nvramWrites == c.nvramWrites
  {
    var st := StoreStep(c.storeCount, x);
    ClockView(c.settings, c.nextAlarm, st.0, c.nvramWrites + (if st.1 then [c.settings] else []),
      c.audio, c.brightnessSent)
  }

  /** alarm_onoff: the alarm flag flips; switching off cancels the pending alarm; a write is requested. */
  function SwitchedOnOff(c: ClockView): (r: ClockView)
    ensures ValidView(c) ==> ValidView(r)
    ensures r.settings.alarmOn == !c.settings.alarmOn
    ensures r.settings.alarmSounds == c.settings.alarmSounds && r.settings.sleepMinutes == c.settings.sleepMinutes
    ensures r.settings.brightness == c.settings.brightness && r.settings.defaultOn == c.settings.defaultOn
    ensures c.settings.alarmOn ==> r.nextAlarm.hour == BogusHour
    ensures !c.settings.alarmOn ==> r.nextAlarm == c.nextAlarm
    ensures r.storeCount == 1 && r.nvramWrites == c.nvramWrites
    ensures r.audio == c.audio && r.brightnessSent == c.brightnessSent
  {
    var next := if c.settings.alarmOn then c.nextAlarm.(hour := BogusHour) else c.nextAlarm;
    Stored(ClockView(c.settings.(alarmOn := !c.settings.alarmOn), next, c.storeCount, c.nvramWrites,
      c.audio, c.brightnessSent), 1)
  }

  /** alarm_off: the pending alarm is cancelled, and the alarm switched off unless it is on by default. */
  function Cancelled(c: ClockView): (r: ClockView)
    ensures ValidView(c) ==> ValidView(r)
    ensures r.nextAlarm == c.nextAlarm.(hour := BogusHour)
    ensures r.settings == (if c.settings.defaultOn then c.settings else c.settings.(alarmOn := false))
    ensures r.storeCount == (if c.settings.defaultOn then c.storeCount else 1)
    ensures r.nvramWrites == c.nvramWrites && r.audio == c.audio && r.brightnessSent == c.brightnessSent
  {
    var next := c.nextAlarm.(hour := BogusHour);
    if c.settings.defaultOn then ClockView(c.settings, next, c.storeCount, c.nvramWrites, c.audio, c.brightnessSent)
    else Stored(ClockView(c.settings.(alarmOn := false), next, c.storeCount, c.nvramWrites, c.audio, c.brightnessSent), 1)
  }

  /** stop_alarm: the player is told to stop, and nothing else changes. */
  function Stopped(c: ClockView): (r: ClockView)
    ensures r.audio == c.audio + [StopSound]
    ensures r.settings == c.settings && r.nextAlarm == c.nextAlarm && r.storeCount == c.storeCount
    ensures r.nvramWrites == c.nvramWrites && r.brightnessSent == c.brightnessSent
  {
    ClockView(c.settings, c.nextAlarm, c.storeCount, c.nvramWrites, c.audio + [StopSound], c.brightnessSent)
  }

  /** alarm_add_sleep: the pending alarm moves by the snooze length, keeping its sound. */
  function Snoozed(c: ClockView): (r: ClockView)
    ensures ValidView(c) ==> ValidView(r)
    ensures (r.nextAlarm.hour, r.nextAlarm.minute) == AddSleep(c.nextAlarm.hour, c.nextAlarm.minute, c.settings.sleepMinutes)
    ensures r.nextAlarm.soundfileNr == c.nextAlarm.soundfileNr
    ensures r.settings == c.settings && r.storeCount == c.storeCount && r.nvramWrites == c.nvramWrites
    ensures r.audio == c.audio && r.brightnessSent == c.brightnessSent
  {
    var hm := AddSleep(c.nextAlarm.hour, c.nextAlarm.minute, c.settings.sleepMinutes);
    ClockView(c.settings, NextAlarm(hm.0, hm.1, c.nextAlarm.soundfileNr), c.storeCount, c.nvramWrites,
      c.audio, c.brightnessSent)
  }

  /** alarm_set_time: entry 0's time moves by the adjustment step, and a write is requested. */
  function AlarmMoved(c: ClockView, adjustment: int): (r: ClockView)
    requires ValidView(c)
    ensures ValidView(r)
    ensures var e := c.settings.alarmSounds[0];
      (r.settings.alarmSounds[0].hour, r.settings.alarmSounds[0].minute) == AdjustAlarm(e.hour, e.minute, adjustment)
    ensures r.settings.alarmSounds[0] == c.settings.alarmSounds[0].(hour := r.settings.alarmSounds[0].hour,
      minute := r.settings.alarmSounds[0].minute)
    ensures r.settings.alarmSounds[1..] == c.settings.alarmSounds[1..]
    ensures r.settings == c.settings.(alarmSounds := r.settings.alarmSounds)
    ensures r.nextAlarm == c.nextAlarm && r.storeCount == 1 && r.nvramWrites == c.nvramWrites
    ensures r.audio == c.audio && r.brightnessSent == c.brightnessSent
  {
    var e := c.settings.alarmSounds[0];
    var hm := AdjustAlarm(e.hour, e.minute, adjustment);
    var sounds := c.settings.alarmSounds[0 := e.(hour := hm.0, minute := hm.1)];
    Stored(ClockView(c.settings.(alarmSounds := sounds), c.nextAlarm, c.storeCount, c.nvramWrites,
      c.audio, c.brightnessSent), 1)
  }

  /** sleep_set_time: the snooze length moves by one within 1..59, and a write is requested. */
  function SleepMoved(c: ClockView, adjustment: int): (r: ClockView)
    ensures ValidView(c) ==> ValidView(r)
    ensures r.settings == c.settings.(sleepMinutes := SleepAdjust(c.settings.sleepMinutes, adjustment))
    ensures r.nextAlarm == c.nextAlarm && r.storeCount == 1 && r.nvramWrites == c.nvramWrites
    ensures r.audio == c.audio && r.brightnessSent == c.brightnessSent
  {
    Stored(ClockView(c.settings.(sleepMinutes := SleepAdjust(c.settings.sleepMinutes, adjustment)),
      c.nextAlarm, c.storeCount, c.nvramWrites, c.audio, c.brightnessSent), 1)
  }

  /**
   * brightness_set: the setting moves by one within 0..MaxBright, a change
   * requests a write, and the level for the time of day is sent.
   */
  function BrightnessMoved(c: ClockView, adjustment: int, t: Tm): (r: ClockView)
    requires 0 <= t.mon < 12
    ensures ValidView(c) ==> ValidView(r)
    ensures var b := BrightnessAdjust(c.settings.brightness, adjustment);
      && r.settings == c.settings.(brightness := b)
      && r.storeCount == (if b != c.settings.brightness then 1 else c.storeCount)
      && r.brightnessSent == c.brightnessSent + [Dimmed(b, t)]
    ensures r.nextAlarm == c.nextAlarm && r.nvramWrites == c.nvramWrites && r.audio == c.audio
  {
    var b := BrightnessAdjust(c.settings.brightness, adjustment);
    var v := ClockView(c.settings.(brightness := b), c.nextAlarm, c.storeCount, c.nvramWrites,
      c.audio, c.brightnessSent + [Dimmed(b, t)]);
    if b != c.settings.brightness then Stored(v, 1) else v
  }

  /** check_for_alarm at time t: the pending alarm and the sounds played follow CheckAlarm. */
  function Checked(c: ClockView, t: Tm): (r: ClockView)
    requires ValidView(c)
    ensures ValidView(r)
    ensures var a := CheckAlarm(t, c.settings, c.nextAlarm);
      r.nextAlarm == a.next && r.audio == c.audio + a.played
    ensures r.settings == c.settings && r.storeCount == c.storeCount
    ensures r.nvramWrites == c.nvramWrites && r.brightnessSent == c.brightnessSent
  {
    var a := CheckAlarm(t, c.settings, c.nextAlarm);
    ClockView(c.settings, a.next, c.storeCount, c.nvramWrites, c.audio + a.played, c.brightnessSent)
  }

  /** The clock settings, the pending alarm, the NVRAM write counter and the calls made out. */
  class Clock {
    var settings: ClockSettings
    var nextAlarm: NextAlarm
    var storeCount: int
    var nvramWrites: seq<ClockSettings>
    var audio: seq<Audio>
    /** The levels handed to max7219_set_brightness. */
    var brightnessSent: seq<int>

    /** The state as a value. */
    function View(): ClockView
      reads this
    {
      ClockView(settings, nextAlarm, storeCount, nvramWrites, audio, brightnessSent)
    }

    ghost predicate Valid()
      reads this
    {
      ValidView(View())
    }

    /** The state at boot: next_alarm at the bogus hour, the write counter at 0. */
    constructor (s: ClockSettings)
      requires ValidSounds(s)
      ensures Valid() && settings == s && nextAlarm == NextAlarm(BogusHour, 0, 0)
      ensures storeCount == 0 && nvramWrites == [] && audio == [] && brightnessSent == []
    {
      settings := s;
      nextAlarm := NextAlarm(BogusHour, 0, 0);
      storeCount := 0;
      nvramWrites := [];
      audio := [];
      brightnessSent := [];
    }

    /** clock_store_nvram(x): 1 or more asks for a write, -1 is a clock tick. */
    method StoreNvram(x: int)
      modifies this
      ensures View() == Stored(old(View()), x)
    {
      if x < 0 {
        if storeCount < 0 {
          assert nvramWrites + [] == nvramWrites;
          return;
        } else {
          storeCount := storeCount + 1;
        }
      } else {
        storeCount := 1;
      }
      if storeCount > StoreDelay {
        nvramWrites := nvramWrites + [settings];
        storeCount := StoreParked;
      } else {
        assert nvramWrites + [] == nvramWrites;
      }
    }

    /** alarm_onoff: toggle the alarm; switching it off also cancels a pending or snoozed alarm. */
    method AlarmOnOff()
      requires Valid()
      modifies this
      ensures Valid() && View() == SwitchedOnOff(old(View()))
    {
      if settings.alarmOn {
        settings := settings.(alarmOn := false);
        nextAlarm := nextAlarm.(hour := BogusHour);
      } else {
        settings := settings.(alarmOn := true);
      }
      StoreNvram(1);
    }

    /** alarm_off: cancel the pending alarm; unless the alarm is on by default, also switch it off. */
    method AlarmOff()
      requires Valid()
      modifies this
      ensures Valid() && View() == Cancelled(old(View()))
    {
      nextAlarm := nextAlarm.(hour := BogusHour);
      if !settings.defaultOn {
        settings := settings.(alarmOn := false);
        StoreNvram(1);
      }
    }

    /** stop_alarm: stop the sound that is playing. */
    method StopAlarm()
      modifies this
      ensures View() == Stopped(old(View()))
    {
      audio := audio + [StopSound];
    }

    /** alarm_add_sleep: the pending alarm moves by the snooze length. */
    method AlarmAddSleep()
      requires Valid()
      modifies this
      ensures Valid() && View() == Snoozed(old(View()))
    {
      var minute := nextAlarm.minute + settings.sleepMinutes;
      var hour := nextAlarm.hour;
      if minute > 59 {
        minute := minute - 60;
        hour := hour + 1;
        if hour > 23 {
          hour := 0;
        }
      }
      nextAlarm := nextAlarm.(hour := hour, minute := minute);
    }

    /** alarm_set_time: entry 0's time moves AlarmAdjust minutes, and a write is requested. */
    method AlarmSetTime(adjustment: int)
      requires Valid()
      modifies this
      ensures Valid() && View() == AlarmMoved(old(View()), adjustment)
    {
      var e := settings.alarmSounds[0];
      var hm := AdjustAlarm(e.hour, e.minute, adjustment);
      var minute := e.minute;
      var hour := e.hour;
      if adjustment > 0 {
        minute := minute + AlarmAdjust;
        if minute > 59 {
          minute := minute - 60;
          hour := hour + 1;
          if hour > 23 {
            hour := 0;
          }
        }
      } else {
        minute := minute - AlarmAdjust;
        if minute < 0 {
          minute := minute + 60;
          hour := hour - 1;
          if hour < 0 {
            hour := 23;
          }
        }
      }
      assert (hour, minute) == hm;
      settings := settings.(alarmSounds := settings.alarmSounds[0 := e.(hour := hour, minute := minute)]);
      StoreNvram(1);
    }

    /** sleep_set_time: the snooze length moves by one within 1..59, and a write is requested. */
    method SleepSetTime(adjustment: int)
      requires Valid()
      modifies this
      ensures Valid() && View() == SleepMoved(old(View()), adjustment)
    {
      if adjustment > 0 {
        if settings.sleepMinutes < 59 {
          settings := settings.(sleepMinutes := settings.sleepMinutes + 1);
        }
      } else {
        if settings.sleepMinutes > 1 {
          settings := settings.(sleepMinutes := settings.sleepMinutes - 1);
        }
      }
      StoreNvram(1);
    }

    /**
     * brightness_set: the setting moves by one within 0..MaxBright (a
     * change requests a write), then the level for the time of day is sent
     * to the display.
     */
    method BrightnessSet(adjustment: int, t: Tm)
      requires Valid() && 0 <= t.mon < 12
      modifies this
      ensures Valid() && View() == BrightnessMoved(old(View()), adjustment, t)
    {
      if adjustment > 0 {
        if settings.brightness < MaxBright {
          settings := settings.(brightness := settings.brightness + 1);
          StoreNvram(1);
        }
      }
      if adjustment < 0 {
        if settings.brightness > 0 {
          settings := settings.(brightness := settings.brightness - 1);
          StoreNvram(1);
        }
      }
      var level := DimLevel(settings.brightness, t);
      brightnessSent := brightnessSent + [level];
    }

    /**
     * check_for_alarm at time t: returns 1 when the alarm starts sounding
     * (looped), may play one scheduled sound otherwise, and keeps the
     * pending alarm.
     */
    method CheckForAlarm(t: Tm) returns (r: int)
      requires Valid()
      modifies this
      ensures Valid() && View() == Checked(old(View()), t)
      ensures r == CheckAlarm(t, old(settings), old(nextAlarm)).result
    {
      if t.sec > 9 {
        assert audio + [] == audio;
        return 0;
      }
      var alarmFound := false;
      var soundToPlay := -1;
      var x := 0;
      while x < MaxSoundFiles
        invariant 0 <= x <= MaxSoundFiles && settings == old(settings)
        invariant Scan(alarmFound, soundToPlay, nextAlarm) == ScanUpTo(t, settings.alarmSounds, old(nextAlarm), x)
        invariant -1 <= soundToPlay < x && 0 <= nextAlarm.soundfileNr < MaxSoundFiles
        invariant audio == old(audio)
        invariant storeCount == old(storeCount) && nvramWrites == old(nvramWrites)
        invariant brightnessSent == old(brightnessSent)
      {
        var e := settings.alarmSounds[x];
        ghost var before := Scan(alarmFound, soundToPlay, nextAlarm);
        if t.hour == e.hour && t.min == e.minute {
          if x == 0 {
            alarmFound := true;
            nextAlarm := NextAlarm(t.hour, t.min, x);
          } else {
            if !alarmFound && !e.isAlarm {
              if t.wday + 1 == e.weekday {
                soundToPlay := x;
              } else if e.month == t.mon + 1 && e.day == t.mday {
                soundToPlay := x;
              }
              if soundToPlay == -1 && e.weekday == 0 && e.month == 0 {
                if e.hour != 0 && e.minute != 0 {
                  soundToPlay := x;
                }
              }
            }
          }
        }
        if alarmFound && e.isAlarm {
          if t.wday + 1 == e.weekday {
            nextAlarm := nextAlarm.(soundfileNr := x);
          } else if e.month == t.mon + 1 && e.day == t.mday {
            nextAlarm := nextAlarm.(soundfileNr := x);
          }
        }
        assert Scan(alarmFound, soundToPlay, nextAlarm) == ScanEntry(t, e, x, before);
        x := x + 1;
      }
      if t.hour == nextAlarm.hour && t.min == nextAlarm.minute && settings.alarmOn {
        audio := audio + [Play(settings.alarmSounds[nextAlarm.soundfileNr].soundfile, true)];
        return 1;
      }
      if soundToPlay > 0 {
        audio := audio + [Play(settings.alarmSounds[soundToPlay].soundfile, false)];
      } else {
        assert audio + [] == audio;
      }
      return 0;
    }
  }
}
