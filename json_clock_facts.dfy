// What json_clock_set accepts and what it then stores, and the round trip
// through json_clock_read.
module JsonClockFacts {
  import opened Wrappers
  import opened Json
  import opened Settings
  import opened DisplayFunctions
  import opened JsonClock
  import opened Text

  /** The entry a complete set of values describes. */
  function EntryOf(f: EntryFields): AlarmSound
    requires Complete(f)
  {
    AlarmSound(f.hour.value, f.minute.value, f.month.value, f.day.value, f.weekday.value, f.sound.value, f.isAlarm.value)
  }

  /** The table part counts seven per item only when every item is complete. */
  lemma {:induction false} FullCountComplete(sounds: seq<AlarmSound>, fs: seq<EntryFields>, n: nat)
    requires n <= |fs| && n <= |sounds|
    requires EntriesUpTo(sounds, fs, n).1 == EntryFieldCount * n
    ensures forall i :: 0 <= i < n ==> Complete(fs[i])
  {
    if n > 0 {
      CountCompleteIff(fs[n - 1]);
      FullCountComplete(sounds, fs, n - 1);
    }
  }

  /** Complete items count seven each. */
  lemma {:induction false} CompleteFullCount(sounds: seq<AlarmSound>, fs: seq<EntryFields>, n: nat)
    requires n <= |fs| && n <= |sounds|
    requires forall i :: 0 <= i < n ==> Complete(fs[i])
    ensures EntriesUpTo(sounds, fs, n).1 == EntryFieldCount * n
  {
    if n > 0 {
      CountCompleteIff(fs[n - 1]);
      CompleteFullCount(sounds, fs, n - 1);
    }
  }

  /** When every item is complete the table holds what the items say. */
  lemma {:induction false} EntriesContents(sounds: seq<AlarmSound>, fs: seq<EntryFields>, n: nat)
    requires n <= |fs| && n <= |sounds|
    requires forall i :: 0 <= i < n ==> Complete(fs[i])
    ensures forall i :: 0 <= i < n ==> EntriesUpTo(sounds, fs, n).0[i] == EntryOf(fs[i])
  {
    if n > 0 {
      assert ApplyFields(sounds[n - 1], fs[n - 1]) == EntryOf(fs[n - 1]);
      EntriesContents(sounds, fs, n - 1);
    }
  }

  /** A request with every value present and in range. */
  predicate CompleteRequest(req: Json) {
    && AlarmOnValue(req).Some? && DefaultOnValue(req).Some? && SleepValue(req).Some? && BrightnessValue(req).Some?
    && var alarms := Item(req, "alarms");
       && alarms.Some? && alarms.value.Array? && |alarms.value.items| == MaxSoundFiles
       && forall i :: 0 <= i < MaxSoundFiles ==> Complete(Fields(alarms.value.items[i]))
  }

  /** The settings a complete request describes. */
  function Requested(req: Json): (r: ClockSettings)
    requires CompleteRequest(req)
    ensures ValidSounds(r)
  {
    var items := Item(req, "alarms").value.items;
    ClockSettings(AlarmOnValue(req).value, SleepValue(req).value, BrightnessValue(req).value, DefaultOnValue(req).value,
                  seq(MaxSoundFiles, i requires 0 <= i < MaxSoundFiles => EntryOf(Fields(items[i]))))
  }

  /**
   * json_clock_set commits exactly the complete requests, and what it
   * commits is what the request says, whatever the settings were before.
   */
  lemma ClockSetAccepts(s: ClockSettings, req: Json)
    requires ValidSounds(s)
    ensures ClockSetResult(s, req).Some? <==> CompleteRequest(req)
    ensures ClockSetResult(s, req).Some? ==> ClockSetResult(s, req).value == Requested(req)
  {
    if ClockSetResult(s, req).Some? {
      AcceptedIsComplete(s, req);
    }
    if CompleteRequest(req) {
      CompleteIsAccepted(s, req);
    }
  }

  /** A committed request has the full count, so every value in it was present and in range. */
  lemma AcceptedIsComplete(s: ClockSettings, req: Json)
    requires ValidSounds(s) && ClockSetResult(s, req).Some?
    ensures CompleteRequest(req)
  {
    var sc := Scalars(s, req);
    var items := Item(req, "alarms").value.items;
    FullCountComplete(sc.settings.alarmSounds, TableFields(items), MaxSoundFiles);
  }

  /** A complete request is committed as the settings it describes. */
  lemma CompleteIsAccepted(s: ClockSettings, req: Json)
    requires ValidSounds(s) && CompleteRequest(req)
    ensures ClockSetResult(s, req) == Some(Requested(req))
  {
    var sc := Scalars(s, req);
    var fs := TableFields(Item(req, "alarms").value.items);
    CompleteFullCount(sc.settings.alarmSounds, fs, MaxSoundFiles);
    EntriesContents(sc.settings.alarmSounds, fs, MaxSoundFiles);
    assert EntriesUpTo(sc.settings.alarmSounds, fs, MaxSoundFiles).0 == Requested(req).alarmSounds;
  }

  /** A request without an "alarms" array is always refused: four values never make the count. */
  lemma NoTableRefused(s: ClockSettings, req: Json)
    requires ValidSounds(s)
    requires Item(req, "alarms").None? || !Item(req, "alarms").value.Array?
    ensures ClockSetResult(s, req) == None
  {
  }

  /** An "alarms" array of the wrong size is refused before any entry is read. */
  lemma WrongSizeRefused(s: ClockSettings, req: Json)
    requires ValidSounds(s)
    requires Item(req, "alarms").Some? && Item(req, "alarms").value.Array?
    requires |Item(req, "alarms").value.items| != MaxSoundFiles
    ensures ClockSetResult(s, req) == None
  {
  }

  /** The ranges json_clock_set enforces, for one entry. */
  predicate EntryInRange(e: AlarmSound) {
    && 0 <= e.hour <= 23 && 0 <= e.minute <= 59 && 0 <= e.month <= 12 && 0 <= e.day <= 31
    && 0 <= e.weekday <= 7 && Utf8Length(e.soundfile) < MaxSoundFileLength
  }

  /** The ranges json_clock_set enforces, for the whole settings. */
  predicate InRange(s: ClockSettings) {
    && 1 <= s.sleepMinutes <= 60 && 0 <= s.brightness <= MaxBright
    && |s.alarmSounds| == MaxSoundFiles
    && forall i :: 0 <= i < MaxSoundFiles ==> EntryInRange(s.alarmSounds[i])
  }

  /** Whatever json_clock_set stores is within its ranges. */
  lemma AcceptedInRange(s: ClockSettings, req: Json)
    requires ValidSounds(s)
    requires ClockSetResult(s, req).Some?
    ensures InRange(ClockSetResult(s, req).value)
  {
    ClockSetAccepts(s, req);
    var r := Requested(req);
    forall i | 0 <= i < MaxSoundFiles
      ensures EntryInRange(r.alarmSounds[i])
    {
      var f := Fields(Item(req, "alarms").value.items[i]);
      assert r.alarmSounds[i] == EntryOf(f);
    }
  }

  /** Each field of an entry written by json_clock_read is found under its own key. */
  lemma EntryItem(e: AlarmSound, i: nat)
    requires i < |EntryJson(e).members|
    ensures Item(EntryJson(e), EntryJson(e).members[i].key) == Some(EntryJson(e).members[i].value)
  {
    FindFirst(EntryJson(e).members, i);
  }

  /** One entry written by json_clock_read reads back as itself exactly when it is in range. */
  lemma EntryRoundTrip(e: AlarmSound)
    ensures Complete(Fields(EntryJson(e))) <==> EntryInRange(e)
    ensures Complete(Fields(EntryJson(e))) ==> EntryOf(Fields(EntryJson(e))) == e
  {
    EntryFieldsOf(e);
  }

  /** The values json_clock_set reads back from an entry written by json_clock_read. */
  lemma EntryFieldsOf(e: AlarmSound)
    ensures var f := Fields(EntryJson(e));
      && f.hour == (if 0 <= e.hour <= 23 then Some(e.hour) else None)
      && f.minute == (if 0 <= e.minute <= 59 then Some(e.minute) else None)
      && f.month == (if 0 <= e.month <= 12 then Some(e.month) else None)
      && f.day == (if 0 <= e.day <= 31 then Some(e.day) else None)
      && f.weekday == (if 0 <= e.weekday <= 7 then Some(e.weekday) else None)
      && f.isAlarm == Some(e.isAlarm)
      && f.sound == (if Utf8Length(e.soundfile) < MaxSoundFileLength then Some(e.soundfile) else None)
  {
    EntryItem(e, 0);
    EntryItem(e, 1);
    EntryItem(e, 2);
    EntryItem(e, 3);
    EntryItem(e, 4);
    EntryItem(e, 5);
    EntryItem(e, 6);
  }

  /** Each member of a reply is found under its own key. */
  lemma ReplyItem(s: ClockSettings, i: nat)
    requires i < |ClockReply(s)|
    ensures Item(Object(ClockReply(s)), ClockReply(s)[i].key) == Some(ClockReply(s)[i].value)
  {
    FindFirst(ClockReply(s), i);
  }

  /** The four settings of a reply read back as they were written. */
  lemma ReplyScalars(s: ClockSettings)
    ensures AlarmOnValue(Object(ClockReply(s))) == Some(s.alarmOn)
    ensures DefaultOnValue(Object(ClockReply(s))) == Some(s.defaultOn)
    ensures SleepValue(Object(ClockReply(s))) == (if 1 <= s.sleepMinutes <= 60 then Some(s.sleepMinutes) else None)
    ensures BrightnessValue(Object(ClockReply(s))) == (if 0 <= s.brightness <= MaxBright then Some(s.brightness) else None)
    ensures Item(Object(ClockReply(s)), "alarms") == Some(ClockReply(s)[4].value)
  {
    ReplyItem(s, 0);
    ReplyItem(s, 1);
    ReplyItem(s, 2);
    ReplyItem(s, 3);
    ReplyItem(s, 4);
  }

  /**
   * Posting what json_clock_read returned sets the clock to those settings,
   * from any settings, exactly when they are within json_clock_set's ranges.
   */
  lemma ReadThenSet(s: ClockSettings, before: ClockSettings)
    requires ValidSounds(s) && ValidSounds(before)
    ensures ClockSetResult(before, Object(ClockReply(s))) == Some(s) <==> InRange(s)
  {
    var req := Object(ClockReply(s));
    if InRange(s) {
      ReplyRequested(s);
      ClockSetAccepts(before, req);
    }
    if ClockSetResult(before, req) == Some(s) {
      AcceptedInRange(before, req);
    }
  }

  /** A reply whose settings are in range is a complete request for exactly those settings. */
  lemma ReplyRequested(s: ClockSettings)
    requires InRange(s)
    ensures CompleteRequest(Object(ClockReply(s))) && Requested(Object(ClockReply(s))) == s
  {
    var req := Object(ClockReply(s));
    ReplyScalars(s);
    var items := Item(req, "alarms").value.items;
    assert forall i :: 0 <= i < MaxSoundFiles ==> items[i] == EntryJson(s.alarmSounds[i]);
    forall i | 0 <= i < MaxSoundFiles
      ensures Complete(Fields(items[i])) && EntryOf(Fields(items[i])) == s.alarmSounds[i]
    {
      EntryRoundTrip(s.alarmSounds[i]);
    }
    assert CompleteRequest(req);
    var r := Requested(req);
    assert forall i :: 0 <= i < MaxSoundFiles ==> r.alarmSounds[i] == s.alarmSounds[i];
    assert r.alarmSounds == s.alarmSounds;
  }
}
