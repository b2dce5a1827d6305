// The clock settings of the JSON API: json_clock_set validates a request
// into a copy of the settings, counting the values accepted, and commits
// the copy only when every value was; json_clock_read writes the settings
// out in the same shape.
module JsonClock {
  import opened Wrappers
  import opened Json
  import opened Settings
  import opened Text
  import opened DisplayFunctions

  const BadRequest := 400
  /** Values a complete request carries: four settings and seven per alarm entry. */
  const EntryFieldCount := 7
  const CompleteCount := 4 + EntryFieldCount * MaxSoundFiles

  /** A number item in lo..hi. */
  function NumberIn(item: Json, key: string, lo: int, hi: int): (r: Option<int>)
    ensures r.Some? <==> NumberOf(Item(item, key)).Some? && lo <= NumberOf(Item(item, key)).value <= hi
    ensures r.Some? ==> r == NumberOf(Item(item, key))
  {
    var n := NumberOf(Item(item, key));
    if n.Some? && lo <= n.value <= hi then n else None
  }

  function Or<T>(o: Option<T>, default: T): T {
    if o.Some? then o.value else default
  }

  function Counted<T>(o: Option<T>): int {
    if o.Some? then 1 else 0
  }

  // ----- The sound name guard

  /**
   * The guard as written measures the item's key, "sound", instead of its
   * value, so every string passes whatever its length.
   */
  function SoundAsWritten(item: Json): Option<string> {
    var v := StringOf(Item(item, "sound"));
    if v.Some? && Utf8Length("sound") < MaxSoundFileLength then v else None
  }

  /** The guard as intended: the name's bytes fit soundfile[] with its terminator. */
  function Sound(item: Json): (r: Option<string>)
    ensures r.Some? ==> Utf8Length(r.value) < MaxSoundFileLength
    ensures r.Some? <==> StringOf(Item(item, "sound")).Some? && Utf8Length(StringOf(Item(item, "sound")).value) < MaxSoundFileLength
  {
    var v := StringOf(Item(item, "sound"));
    if v.Some? && Utf8Length(v.value) < MaxSoundFileLength then v else None
  }

  /** A name of 20 bytes or more passes the guard as written and overflows the 20-byte buffer. */
  lemma LongSoundPasses(name: string)
    requires Utf8Length(name) >= MaxSoundFileLength
    ensures var item := Object([Member("sound", Str(name))]);
      SoundAsWritten(item) == Some(name) && Sound(item) == None
  {
    SoundKeyFits();
  }

  /** "a-very-long-sound-nam.wav" is such a name. */
  lemma LongSoundExample()
    ensures Utf8Length("a-very-long-sound-nam.wav") >= MaxSoundFileLength
  {
  }

  /** The guard as written accepts exactly the string items, so a long name is never refused. */
  lemma SoundAsWrittenAcceptsStrings(item: Json)
    ensures SoundAsWritten(item) == StringOf(Item(item, "sound"))
  {
    SoundKeyFits();
  }

  /** The key the guard as written measures is five bytes long. */
  lemma SoundKeyFits()
    ensures Utf8Length("sound") < MaxSoundFileLength
  {
  }

  // ----- One alarm entry

  /** The values of one entry that pass their checks. */
  datatype EntryFields = EntryFields(
    hour: Option<int>, minute: Option<int>, month: Option<int>, day: Option<int>,
    weekday: Option<int>, isAlarm: Option<bool>, sound: Option<string>)

  function Fields(item: Json): EntryFields {
    EntryFields(
      NumberIn(item, "hour", 0, 23), NumberIn(item, "minute", 0, 59),
      NumberIn(item, "month", 0, 12), NumberIn(item, "day", 0, 31),
      NumberIn(item, "weekday", 0, 7), BoolOf(Item(item, "is_alarm")), Sound(item))
  }

  /** The entry with the accepted values written over it. */
  function ApplyFields(e: AlarmSound, f: EntryFields): AlarmSound {
    AlarmSound(Or(f.hour, e.hour), Or(f.minute, e.minute), Or(f.month, e.month), Or(f.day, e.day),
               Or(f.weekday, e.weekday), Or(f.sound, e.soundfile), Or(f.isAlarm, e.isAlarm))
  }

  function CountFields(f: EntryFields): (n: int)
    ensures 0 <= n <= EntryFieldCount
  {
    Counted(f.hour) + Counted(f.minute) + Counted(f.month) + Counted(f.day)
    + Counted(f.weekday) + Counted(f.isAlarm) + Counted(f.sound)
  }

  predicate Complete(f: EntryFields) {
    f.hour.Some? && f.minute.Some? && f.month.Some? && f.day.Some?
    && f.weekday.Some? && f.isAlarm.Some? && f.sound.Some?
  }

  lemma CountCompleteIff(f: EntryFields)
    ensures CountFields(f) == EntryFieldCount <==> Complete(f)
  {
  }

  /** The checked values of every item of the "alarms" array. */
  function TableFields(items: seq<Json>): (fs: seq<EntryFields>)
    ensures |fs| == |items| && forall i :: 0 <= i < |items| ==> fs[i] == Fields(items[i])
  {
    seq(|items|, i requires 0 <= i < |items| => Fields(items[i]))
  }

  /** The alarm table after the first n items, and the values accepted from them. */
  function EntriesUpTo(sounds: seq<AlarmSound>, fs: seq<EntryFields>, n: nat): (r: (seq<AlarmSound>, int))
    requires n <= |fs| && n <= |sounds|
    ensures |r.0| == |sounds| && 0 <= r.1 <= EntryFieldCount * n
    ensures forall i :: n <= i < |sounds| ==> r.0[i] == sounds[i]
  {
    if n == 0 then (sounds, 0)
    else
      var p := EntriesUpTo(sounds, fs, n - 1);
      (p.0[n - 1 := ApplyFields(sounds[n - 1], fs[n - 1])], p.1 + CountFields(fs[n - 1]))
  }

  /** The step of EntriesUpTo: entry n is still the original one when it is filled in. */
  lemma EntriesStep(sounds: seq<AlarmSound>, fs: seq<EntryFields>, n: nat)
    requires n < |fs| && n < |sounds|
    ensures var p := EntriesUpTo(sounds, fs, n);
      EntriesUpTo(sounds, fs, n + 1) == (p.0[n := ApplyFields(p.0[n], fs[n])], p.1 + CountFields(fs[n]))
  {
  }

  // ----- The four settings

  /** A running count with the copy being filled. */
  datatype Tally = Tally(count: int, settings: ClockSettings)

  function AlarmOnValue(req: Json): Option<bool> { BoolOf(Item(req, "alarm_on")) }
  function DefaultOnValue(req: Json): Option<bool> { BoolOf(Item(req, "default_on")) }
  function SleepValue(req: Json): Option<int> { NumberIn(req, "sleep_minutes", 1, 60) }
  function BrightnessValue(req: Json): Option<int> { NumberIn(req, "brightness", 0, MaxBright) }

  function Scalars(s: ClockSettings, req: Json): (t: Tally)
    ensures 0 <= t.count <= 4 && t.settings.alarmSounds == s.alarmSounds
  {
    var a := AlarmOnValue(req);
    var d := DefaultOnValue(req);
    var sl := SleepValue(req);
    var b := BrightnessValue(req);
    Tally(Counted(a) + Counted(d) + Counted(sl) + Counted(b),
          ClockSettings(Or(a, s.alarmOn), Or(sl, s.sleepMinutes), Or(b, s.brightness), Or(d, s.defaultOn), s.alarmSounds))
  }

  /** The request turns the alarm off, which stops a sounding alarm at once. */
  predicate StopsAlarm(req: Json) {
    AlarmOnValue(req) == Some(false)
  }

  /** json_clock_set: the settings committed, or None for the 400 answer. */
  function ClockSetResult(s: ClockSettings, req: Json): Option<ClockSettings>
    requires ValidSounds(s)
  {
    var sc := Scalars(s, req);
    var alarms := Item(req, "alarms");
    if alarms.Some? && alarms.value.Array? then
      var items := alarms.value.items;
      if |items| != MaxSoundFiles then None
      else
        var en := EntriesUpTo(sc.settings.alarmSounds, TableFields(items), MaxSoundFiles);
        if sc.count + en.1 == CompleteCount then Some(sc.settings.(alarmSounds := en.0)) else None
    else if sc.count == CompleteCount then Some(sc.settings) else None
  }

  /** The settings once alarm_off has run on them. */
  function AfterAlarmOff(s: ClockSettings): ClockSettings {
    if s.defaultOn then s else s.(alarmOn := false)
  }

  /** One number block: the value is taken and counted when it is a number in lo..hi. */
  method TakeNumber(item: Json, key: string, lo: int, hi: int, current: int) returns (v: int, counted: int)
    ensures v == Or(NumberIn(item, key, lo, hi), current) && counted == Counted(NumberIn(item, key, lo, hi))
  {
    v, counted := current, 0;
    var o := NumberOf(Item(item, key));
    if o.Some? {
      if lo <= o.value && o.value <= hi {
        v := o.value;
        counted := 1;
      }
    }
  }

  /** One boolean block: any boolean is taken and counted. */
  method TakeBool(item: Json, key: string, current: bool) returns (v: bool, counted: int)
    ensures v == Or(BoolOf(Item(item, key)), current) && counted == Counted(BoolOf(Item(item, key)))
  {
    v, counted := current, 0;
    var o := BoolOf(Item(item, key));
    if o.Some? {
      v := o.value;
      counted := 1;
    }
  }

  /** The sound block, with the length of the name checked. */
  method TakeSound(item: Json, current: string) returns (v: string, counted: int)
    ensures v == Or(Sound(item), current) && counted == Counted(Sound(item))
  {
    v, counted := current, 0;
    var o := StringOf(Item(item, "sound"));
    if o.Some? {
      if Utf8Length(o.value) < MaxSoundFileLength {
        v := o.value;
        counted := 1;
      }
    }
  }

  /** One entry of the request, block by block in the handler's order. */
  method ParseEntry(e: AlarmSound, item: Json) returns (e': AlarmSound, n: int)
    ensures e' == ApplyFields(e, Fields(item)) && n == CountFields(Fields(item))
  {
    var hour, c1 := TakeNumber(item, "hour", 0, 23, e.hour);
    var minute, c2 := TakeNumber(item, "minute", 0, 59, e.minute);
    var month, c3 := TakeNumber(item, "month", 0, 12, e.month);
    var day, c4 := TakeNumber(item, "day", 0, 31, e.day);
    var weekday, c5 := TakeNumber(item, "weekday", 0, 7, e.weekday);
    var isAlarm, c6 := TakeBool(item, "is_alarm", e.isAlarm);
    var sound, c7 := TakeSound(item, e.soundfile);
    e' := AlarmSound(hour, minute, month, day, weekday, sound, isAlarm);
    n := c1 + c2 + c3 + c4 + c5 + c6 + c7;
  }

  /**
   * The four settings of json_clock_set into the copy `t.settings`;
   * "alarm_on": false switches a sounding alarm off on the spot.
   */
  method ParseScalars(clock: Clock, req: Json) returns (t: Tally)
    requires clock.Valid()
    modifies clock
    ensures clock.Valid()
    ensures t == Scalars(old(clock.settings), req)
    ensures clock.settings == (if StopsAlarm(req) then AfterAlarmOff(old(clock.settings)) else old(clock.settings))
    ensures clock.storeCount == (if StopsAlarm(req) && !old(clock.settings).defaultOn then 1 else old(clock.storeCount))
    ensures clock.nextAlarm == (if StopsAlarm(req) then old(clock.nextAlarm).(hour := BogusHour) else old(clock.nextAlarm))
    ensures clock.audio == old(clock.audio) + (if StopsAlarm(req) then [StopSound] else [])
    ensures clock.nvramWrites == old(clock.nvramWrites) && clock.brightnessSent == old(clock.brightnessSent)
  {
    var s := clock.settings;
    var alarmOn, c1 := s.alarmOn, 0;
    var a := BoolOf(Item(req, "alarm_on"));
    if a.Some? {
      alarmOn := a.value;
      if !a.value {
        clock.AlarmOff();
        clock.StopAlarm();
      } else {
        assert clock.audio + [] == clock.audio;
      }
      c1 := 1;
    } else {
      assert clock.audio + [] == clock.audio;
    }
    var defaultOn, c2 := TakeBool(req, "default_on", s.defaultOn);
    var sleep, c3 := TakeNumber(req, "sleep_minutes", 1, 60, s.sleepMinutes);
    var brightness, c4 := TakeNumber(req, "brightness", 0, MaxBright, s.brightness);
    t := Tally(c1 + c2 + c3 + c4, ClockSettings(alarmOn, sleep, brightness, defaultOn, s.alarmSounds));
  }

  /** The table block: an array of the wrong size ends the request at once. */
  method ParseAlarms(temp: ClockSettings, req: Json) returns (early: bool, temp': ClockSettings, n: int)
    requires ValidSounds(temp)
    ensures var alarms := Item(req, "alarms");
      && (early <==> alarms.Some? && alarms.value.Array? && |alarms.value.items| != MaxSoundFiles)
      && (!early && alarms.Some? && alarms.value.Array? ==>
            var en := EntriesUpTo(temp.alarmSounds, TableFields(alarms.value.items), MaxSoundFiles);
            temp' == temp.(alarmSounds := en.0) && n == en.1)
      && (!(alarms.Some? && alarms.value.Array?) ==> temp' == temp && n == 0)
  {
    temp', n, early := temp, 0, false;
    var alarms := Item(req, "alarms");
    if alarms.Some? && alarms.value.Array? {
      var items := alarms.value.items;
      if |items| != MaxSoundFiles {
        early := true;
        return;
      }
      var sounds := temp.alarmSounds;
      var x := 0;
      while x < |items|
        invariant 0 <= x <= |items|
        invariant (sounds, n) == EntriesUpTo(temp.alarmSounds, TableFields(items), x)
      {
        var e, k := ParseEntry(sounds[x], items[x]);
        EntriesStep(temp.alarmSounds, TableFields(items), x);
        sounds := sounds[x := e];
        n := n + k;
        x := x + 1;
      }
      temp' := temp.(alarmSounds := sounds);
    }
  }

  /**
   * json_clock_set on the clock: a complete request replaces the settings
   * and asks for the delayed NVRAM write; anything else is answered 400 and
   * leaves them alone, except that "alarm_on": false has already switched
   * a sounding alarm off.
   */
  method ClockSet(clock: Clock, req: Json) returns (code: int)
    requires clock.Valid()
    modifies clock
    ensures clock.Valid()
    ensures var r := ClockSetResult(old(clock.settings), req);
      && (code == 0 <==> r.Some?) && (r.None? ==> code == BadRequest)
      && (r.Some? ==> clock.settings == r.value && clock.storeCount == 1)
      && (r.None? ==> clock.settings == (if StopsAlarm(req) then AfterAlarmOff(old(clock.settings)) else old(clock.settings)))
      && (r.None? ==> clock.storeCount == (if StopsAlarm(req) && !old(clock.settings).defaultOn then 1 else old(clock.storeCount)))
    ensures clock.nextAlarm == (if StopsAlarm(req) then old(clock.nextAlarm).(hour := BogusHour) else old(clock.nextAlarm))
    ensures clock.audio == old(clock.audio) + (if StopsAlarm(req) then [StopSound] else [])
    ensures clock.nvramWrites == old(clock.nvramWrites) && clock.brightnessSent == old(clock.brightnessSent)
  {
    ghost var r := ClockSetResult(clock.settings, req);
    var t := ParseScalars(clock, req);
    var early, temp, n := ParseAlarms(t.settings, req);
    if early {
      assert r.None?;
      return BadRequest;
    }
    if t.count + n == CompleteCount {
      assert r == Some(temp);
      clock.settings := temp;
      clock.StoreNvram(1);
      return 0;
    }
    assert r.None?;
    return BadRequest;
  }

  // ----- json_clock_read

  function EntryJson(e: AlarmSound): Json {
    Object([
      Member("hour", Number(e.hour)), Member("minute", Number(e.minute)),
      Member("day", Number(e.day)), Member("month", Number(e.month)),
      Member("weekday", Number(e.weekday)), Member("is_alarm", Bool(e.isAlarm)),
      Member("sound", Str(e.soundfile))])
  }

  /** The reply json_clock_read builds: the four settings, then the table in index order. */
  function ClockReply(s: ClockSettings): seq<Member> {
    [Member("alarm_on", Bool(s.alarmOn)), Member("default_on", Bool(s.defaultOn)),
     Member("sleep_minutes", Number(s.sleepMinutes)), Member("brightness", Number(s.brightness)),
     Member("alarms", Array(seq(|s.alarmSounds|, i requires 0 <= i < |s.alarmSounds| => EntryJson(s.alarmSounds[i]))))]
  }

  /** json_clock_read: the reply, with the table appended entry by entry. */
  method ClockRead(clock: Clock) returns (code: int, reply: seq<Member>)
    requires clock.Valid()
    ensures code == 0 && reply == ClockReply(clock.settings)
  {
    var s := clock.settings;
    reply := [Member("alarm_on", Bool(s.alarmOn)), Member("default_on", Bool(s.defaultOn))];
    reply := reply + [Member("sleep_minutes", Number(s.sleepMinutes)), Member("brightness", Number(s.brightness))];
    var items: seq<Json> := [];
    var x := 0;
    while x < MaxSoundFiles
      invariant 0 <= x <= MaxSoundFiles
      invariant items == seq(x, i requires 0 <= i < x => EntryJson(s.alarmSounds[i]))
    {
      items := items + [EntryJson(s.alarmSounds[x])];
      x := x + 1;
    }
    assert items == seq(|s.alarmSounds|, i requires 0 <= i < |s.alarmSounds| => EntryJson(s.alarmSounds[i]));
    reply := reply + [Member("alarms", Array(items))];
    code := 0;
  }
}
