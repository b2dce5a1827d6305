# Dot-matrix alarm clock firmware, modelled in Dafny

The firmware drives an ESP32 clock. The time is shown on four MAX7219 8x8 LED
matrices. A DS3231 real-time clock keeps the time when the network time
service (SNTP) is out of reach, and a rotary encoder with a push button works
the menus. Twenty alarm entries can play sounds. A web server serves the
pages from a flash filesystem, and its JSON API reads and sets the network
settings, the alarm table and the time.

This project models the core of that firmware and proves properties of it:

- the patched time-zone code: the TZ parser, the change-over instants of a year and localtime;
- the time task that keeps the system clock, the network time and the DS3231 in step;
- the DS3231 register codec;
- the MAX7219 column buffer and the frames it sends;
- the rotary encoder state machine and the push-button debounce;
- the menu state machine of the display task and the alarm engine under it;
- the Wi-Fi event handler and the open access point;
- starting and stopping the default event loop and the web server;
- the static file handler;
- the six JSON request handlers and the endpoint that dispatches to them.

An operation of the source that changes global state in steps is a `class`
with fields and `modifies` clauses, or a method with its loop. Such a method
is proved against a function of its inputs, and the properties the source
promises are lemmas about that function. Pure decoding is functions and
lemmas. Calls into code outside the model become parameters of the model:
the C library's gmtime, the ESP-IDF drivers, the SNTP status, the I2C and SPI
buses and the filesystem. The effects of calls that only send something out
are recorded as a sequence of effects. The JSON documents of the API are the
`Json` datatype, with a lookup that behaves like
`cJSON_GetObjectItemCaseSensitive`.

The default time zone of the model is `CET-1CES-2,M3.5.0/2,M10.5.0/3`, as
in `main/defaults_globals.h`. `TzFacts.DefaultTzIn2021` proves where its
2021 change-over instants fall.

Where the source and its comments disagree, the model follows the code, except for the six
defects listed under "## Findings". For each of those the model holds the code as written and
the corrected behaviour side by side, proves the discrepancy on a concrete input, and builds
the operation on the corrected behaviour; "## Left out" names every member that runs the
corrected form. Elsewhere the code wins:

- The daylight-saving test for a southern zone accepts `t >= change[0] || t < change[1]`.
- An IP event is registered only for "got IP". A "lost IP" branch in the handler is therefore reached only by a Wi-Fi event with the same numeric id.

The length checks of the JSON handlers and the settings buffers count the bytes of the UTF-8
encoding, as `strlen` counts them (`Text.Utf8Length`).

## Model

| member | source | states |
|---|---|---|
| Ds3231.U8 | main/ds3231.c:61-64 | a conversion to uint8_t lands in 0..255 and keeps every value already in range |
| Ds3231.S8 | main/ds3231.c:128 | an int8_t reading of a byte lies in -128..127 and converts back to the same byte |
| Ds3231.Bcd2Dec | main/ds3231.c:56-59 | the decoded value of any byte is at most 165 |
| Ds3231.Dec2Bcd | main/ds3231.c:61-64 | the encoding always fits a byte, because the uint8_t result truncates |
| Ds3231.BcdRoundTrip | main/ds3231.c:56-64 | every value 0..99 survives encoding and decoding, and its encoding is valid BCD |
| Ds3231.DecimalRoundTrip | main/ds3231.c:56-64 | every valid BCD byte is the encoding of its decoded value |
| Ds3231.TimeRegisters | main/ds3231.c:70-85 | set_time writes seven register bytes, each within 0..255; TimeRoundTrip shows what they encode |
| Ds3231.SetTime | main/ds3231.c:66-89 | set_time sends the register bytes and answers ESP_OK whatever the bus did |
| Ds3231.Hour | main/ds3231.c:99-105 | the corrected hour reading; a byte without the 12-hour flag reads as its BCD value |
| Ds3231.HourAsWritten | main/ds3231.c:99-105 | definition: the hour register as the driver decodes it, one less than the dial hour in 12-hour mode; HourAsWrittenOffByOne states the difference |
| Ds3231.Hour12 | main/ds3231.c:99-103 | an hour on the 12-hour dial lies in 1..12 and gives back the hour of the day together with the PM half |
| Ds3231.TwelveHourRegister | main/ds3231.c:99-103 | the byte the chip holds for an hour in 12-hour mode is a byte |
| Ds3231.TwelveHourFields | main/ds3231.c:99-103 | that byte has the 12-hour flag, the PM flag exactly in the afternoon, and the dial hour in its digits |
| Ds3231.HourAsWrittenOffByOne | main/ds3231.c:101 | the driver as written reads 1 AM as 0 and 12 noon as 23 |
| Ds3231.HourReadsBack | main/ds3231.c:99-105 | the corrected reading returns every hour 0..23, in either mode |
| Ds3231.TwelveHourReadsBack | main/ds3231.c:99-103 | every hour written in 12-hour mode reads back as itself |
| Ds3231.TwentyFourHourReadsBack | main/ds3231.c:104-105 | every hour written in 24-hour mode reads back as itself |
| Ds3231.HourBelowFlags | main/ds3231.c:72 | the encoded hours 0..23 stay below the 12-hour flag, so set_time always leaves 24-hour mode |
| Ds3231.TimeOfRegisters | main/ds3231.c:97-115 | get_time keeps the record's day of the year and always clears the daylight flag; the hour is the corrected `Hour`, so a 12-hour register reads the dial hour rather than the one less the code as written gives (`HourAsWritten`); TimeRoundTrip gives the other fields |
| Ds3231.GetTime | main/ds3231.c:91-120 | get_time fills the record field by field as TimeOfRegisters says, with the corrected 12-hour reading, and answers ESP_OK |
| Ds3231.TimeRoundTrip | main/ds3231.c:66-120 | a time of 1900..2099 written and read back comes back unchanged except for the daylight flag |
| Ds3231.RegisterRoundTrip | main/ds3231.c:70-108 | each register field written from the record reads back as its value |
| Ds3231.MonthRegister | main/ds3231.c:79-85 | the month byte is a byte; MonthRoundTrip shows its month and century flag |
| Ds3231.MonthRoundTrip | main/ds3231.c:79-108 | the month reads back, and the century flag is set exactly for the years from 2000 |
| Ds3231.RawTemp | main/ds3231.c:128 | the raw temperature is the signed whole degrees times four plus the two fraction bits |
| Ds3231.TempInteger | main/ds3231.c:137 | the arithmetic shift right by two is floor division by four |
| Ds3231.TempIntegerOfRegisters | main/ds3231.c:133-140 | the whole degrees are the signed top register, whatever the fraction register holds |
| TimeTask.Mktime | main/time_task.c:51 | mktime under UTC agrees with the calendar's epoch seconds for every record whose month is 0..11 |
| TimeTask.SyncCount | main/time_task.c:149-171 | definition: last_sntp_sync_min's count after one call; CompletedAnswersZero and CountsOncePerMinute state its properties |
| TimeTask.WakeDelayMs | main/time_task.c:72-83 | definition: the delay handed to vTaskDelay in milliseconds; WakeDelayToBoundary states where it ends |
| TimeTask.CompletedAnswersZero | main/time_task.c:156-160 | a completed sync resets the count and answers 0 |
| TimeTask.CountsOncePerMinute | main/time_task.c:152-155 | any other status counts each new minute once; a second call in the same minute adds nothing |
| TimeTask.WakeDelayToBoundary | main/time_task.c:72-83 | the sleep is at least 50 ms and ends 50 ms after the next :00 or :30 second, rounded down to whole milliseconds |
| TimeTask.GmtimeStorable | main/time_task.c:101 | the UTC record of any instant of 1900..2099 has fields the DS3231 can hold |
| TimeTask.SameInstant | main/time_task.c:51 | the day of the year, the weekday and the daylight flag take no part in the instant mktime computes |
| TimeTask.RtcRoundTrip | main/time_task.c:98-118 | every instant of 1900..2099 written to the DS3231 and read back is the same instant |
| TimeTask.TimeKeeper.constructor | main/time_task.c:150-151 | the static counters start at zero |
| TimeTask.TimeKeeper.LastSntpSyncMin | main/time_task.c:149-171 | the minutes since the last completed sync, counted on each change of minute |
| TimeTask.TimeKeeper.ClockFromRtc | main/time_task.c:114-116 | the DS3231 time becomes the system time through mktime |
| TimeTask.TimeKeeper.Start | main/time_task.c:48-52 | at start-up the system clock is seeded from the DS3231 under UTC |
| TimeTask.TimeKeeper.Tick | main/time_task.c:85-118 | one wake-up: the minute signal is queued, the first minute after a sync writes the network time to the DS3231, and every 121st minute without a sync reads it back; the read decision takes a single status sample (the corrected `TickOutcome`), where the code as written samples twice (`TickOutcomeAsWritten`) |
| TimeTask.TickOutcome | main/time_task.c:85-118 | definition: a wake-up with one status sample per decision, which Tick follows; SyncNeverReadsRtc and RtcReadEvery121 state its properties |
| TimeTask.TickOutcomeAsWritten | main/time_task.c:109-118 | definition: a wake-up with the two calls of the read decision as written; SyncBetweenSamplesReadsRtc states its defect |
| TimeTask.Io | main/time_task.c:98-118 | the chip traffic of a wake-up: writes carry the UTC record of now, a read sets the clock to the instant of the chip's record |
| TimeTask.SyncBetweenSamplesReadsRtc | main/time_task.c:109 | as written, a sync that completes between the two status samples makes the DS3231 time overwrite the network time |
| TimeTask.SyncNeverReadsRtc | main/time_task.c:98-118 | with one status sample per decision, a wake-up that saw a completed sync never reads the DS3231 |
| TimeTask.RtcReadEvery121 | main/time_task.c:109-118 | without a sync the DS3231 is read exactly when the count is a positive multiple of 121, and the count is not reset by it |
| TimeTask.EndReadsRtc | main/time_task.c:114-116 | effects that end by setting the clock count as a DS3231 read |
| TimeTask.NoRead | main/time_task.c:91-103 | the minute signal and DS3231 writes alone are not a DS3231 read |
| TimeTask.TwoWritesAfterSync | main/time_task.c:98-103 | both wake-ups of the first minute after a sync write the network time to the DS3231 |
| TimeTask.SignalFirst | main/time_task.c:91-94 | the minute signal is queued first on every wake-up when the queue exists, and never otherwise |
| TimeTask.SetTime | main/time_task.c:183-195 | set_time sets the system clock and pushes the UTC record of the new time to the DS3231 |
| TimeTask.SetTimeReadsBack | main/time_task.c:183-195 | what set_time pushes reads back as the same instant, for the years the chip holds |
| Civil.CDiv | main/64bitpatch_localtime.c:314-318 | C division agrees with floor division for a non-negative dividend and a positive divisor |
| Civil.CMod | main/64bitpatch_localtime.c:314-318 | the C remainder completes the quotient to the dividend and, for a positive divisor, has the dividend's sign |
| Civil.LeapIndex | main/64bitpatch_localtime.c:57 | the month-table index is 1 exactly in a Gregorian leap year |
| Civil.MonthLength | main/64bitpatch_localtime.c:75-76 | months have 28..31 days, and 29 only in February of a leap year |
| Civil.DaysFromCivil | main/64bitpatch_localtime.c:100-104 | definition: days from 1970-01-01 to a civil date; CivilFromDays and MonthTurn state its properties |
| Civil.MonthTurn | main/64bitpatch_localtime.c:344-352 | the last day of a month is valid and is followed by the first of the next month, or by 1 January after 31 December |
| Civil.NextDate | main/64bitpatch_localtime.c:338-352 | the day after a valid date is a valid date one day number later |
| Civil.PreviousDate | main/64bitpatch_localtime.c:353-368 | the day before a valid date is a valid date one day number earlier, 31 December of the prior year before 1 January |
| Civil.Gmtime | main/64bitpatch_localtime.c:296 | gmtime_r gives a valid UTC record without daylight saving whose instant is t |
| Civil.CivilFromDays | main/64bitpatch_localtime.c:296 | the civil date of a day number is a valid date whose day number is the one given |
| Civil.TmToEpoch | main/time_task.c:51 | definition: the seconds since the epoch of a UTC record; GmtimeOfEpoch states that it inverts Gmtime |
| Civil.GmtimeOfEpoch | main/64bitpatch_localtime.c:296 | gmtime_r of a valid record's instant is that record, up to the daylight flag |
| Civil.GmtimeSplit | main/64bitpatch_localtime.c:296 | the UTC record splits the instant into a day number and a second of the day |
| Civil.GmtimeUnique | main/64bitpatch_localtime.c:296 | a valid record with instant t is the UTC record of t, up to the daylight flag |
| CScan.ULongOf | main/64bitpatch_localtime.c:246 | strtoul's result lies in 0..ULONG_MAX and is the number itself when there is no minus sign and it fits |
| CScan.UShort | main/64bitpatch_localtime.c:187 | conversion to unsigned short lands in 0..65535 and keeps the values already in range |
| CScan.DigitRun | main/64bitpatch_localtime.c:187 | the run of digits from a position is maximal and made of digits only |
| CScan.ScanUnsigned | main/64bitpatch_localtime.c:187-189 | a number that is found ends right after its last digit and fits unsigned long; a digit at the cursor is always read, with its decimal value |
| CScan.ScanTriple | main/64bitpatch_localtime.c:187-189 | up to three unsigned shorts; none is read exactly when the first number is missing, and then the cursor stays; numbers not read keep their previous values |
| CScan.ScanName | main/64bitpatch_localtime.c:173 | a name scan fails exactly on a first character a name cannot hold; otherwise it takes one to ten characters and stops before a non-name character |
| CScan.NameRun | main/64bitpatch_localtime.c:173 | the name run is at most the width, starts with a name character when non-empty, and stops before the first other character |
| CScan.NameRunChars | main/64bitpatch_localtime.c:173 | every character a name scan takes is neither a digit nor ',', '+' or '-' |
| LocalTime.YearDays | main/64bitpatch_localtime.c:100-104 | the C leap-day expression equals the calendar's day number of 1 January of the year |
| LocalTime.MonthRuleDay | main/64bitpatch_localtime.c:119-131 | the rule day lies within the month on weekday d, in week n or, when the month has no n-th such weekday, in its last seven days |
| LocalTime.RuleDay | main/64bitpatch_localtime.c:106-132 | definition: the day on which a rule falls in a year; TzInfo.TransitionDay computes it, and DayRuleOnCalendar and JulianRuleOnCalendar place it on the calendar |
| LocalTime.ChangeInstant | main/64bitpatch_localtime.c:134-138 | definition: the change-over instant in UTC; LimitsFor and DefaultTzChanges2021 use it |
| LocalTime.LimitsFor | main/64bitpatch_localtime.c:91-143 | the zone, the flags and the remembered string are kept; a year from 1970 on becomes the cached year, and an earlier one leaves the cache |
| LocalTime.MonthRule | main/64bitpatch_localtime.c:226-236 | an accepted "M" rule is well formed (month 1..12, week 1..5, day 0..6) and keeps its offset and change instant |
| LocalTime.DayRule | main/64bitpatch_localtime.c:237-268 | a "Jn" or "n" rule is always accepted, well formed, with its offset and change instant kept |
| LocalTime.DefaultRule | main/64bitpatch_localtime.c:250-261 | definition: the US rule taken when a rule is missing; MissingRuleDefaults states it |
| LocalTime.RuleTime | main/64bitpatch_localtime.c:264-278 | definition: the optional rule time, 02:00:00 when absent; MissingTimeDefault states it |
| LocalTime.RuleStep | main/64bitpatch_localtime.c:224-280 | an accepted rule item gives a well-formed rule with its offset and change instant kept |
| LocalTime.ParseRules | main/64bitpatch_localtime.c:223-281 | the rule loop keeps two rules, their offsets and change instants, and keeps well-formed rules well formed |
| LocalTime.ScanOffset | main/64bitpatch_localtime.c:177-189 | the cursor never moves back, and no number is read exactly when none follows the optional sign |
| LocalTime.TzsetResult | main/64bitpatch_localtime.c:146-286 | whatever the TZ value, the state stays well formed, remembers that value and keeps its cached year |
| LocalTime.ParseDescriptor | main/64bitpatch_localtime.c:171-189 | parsing a descriptor keeps the state well formed, with the remembered string and the cached year |
| LocalTime.ParseDaylight | main/64bitpatch_localtime.c:193-285 | the daylight part keeps the state well formed, with the remembered string and the cached year |
| LocalTime.DaylightRules | main/64bitpatch_localtime.c:201-285 | the part after the daylight name keeps the state well formed, with the remembered string and the cached year |
| LocalTime.DaylightAfterOffset | main/64bitpatch_localtime.c:221-285 | parsing the rules keeps the state well formed, with the remembered string and the cached year |
| LocalTime.DaylightFinish | main/64bitpatch_localtime.c:283-285 | taking two well-formed rules keeps the state well formed, with the remembered string and the cached year; DaylightOutcome gives the flags |
| LocalTime.DstFlag | main/64bitpatch_localtime.c:301-310 | tm_isdst is 0 without daylight saving and -1 before 1970; otherwise it is 1 exactly between the northern change-overs, or outside them in a southern zone |
| LocalTime.TzInfo.constructor | main/64bitpatch_localtime.c:79-88 | the globals start as a northern zone at offset 0, with the default rules, no daylight saving, no cached year and no remembered string |
| LocalTime.TzInfo.TransitionDay | main/64bitpatch_localtime.c:106-132 | the day number of a rule's change in a year, as the closed-form rule day says, for all three rule kinds |
| LocalTime.TzInfo.WeekInMonth | main/64bitpatch_localtime.c:123-129 | the weekday search ends on the rule's day: the n-th weekday, or the last one when it falls past the month's end |
| LocalTime.TzInfo.ChangedRule | main/64bitpatch_localtime.c:135-138 | the rule's change-over instant becomes ChangeInstant of the year, and the rule stays well formed |
| LocalTime.TzInfo.CalcLimits | main/64bitpatch_localtime.c:91-143 | the cache and both instants become LimitsFor of the year |
| LocalTime.TzInfo.ParseRuleItem | main/64bitpatch_localtime.c:224-280 | one pass of the rule loop leaves the state and cursor RuleStep gives |
| LocalTime.TzInfo.ParseRuleTime | main/64bitpatch_localtime.c:270-278 | the "/time" of a rule, 02:00:00 when absent or when no number follows the '/' |
| LocalTime.TzInfo.ParseOffset | main/64bitpatch_localtime.c:177-189 | the cursor-moving offset scan agrees with ScanOffset |
| LocalTime.TzInfo.Tzset | main/64bitpatch_localtime.c:146-286 | tzset_patch leaves the globals as TzsetResult of the TZ value |
| LocalTime.TzInfo.ParseRuleList | main/64bitpatch_localtime.c:223-281 | the rule loop leaves the rules ParseRules gives, and says whether it gave up |
| LocalTime.TzInfo.Daylight | main/64bitpatch_localtime.c:193-285 | the part after the standard offset leaves the state ParseDaylight gives |
| LocalTime.TzInfo.DaylightAfterName | main/64bitpatch_localtime.c:201-285 | the part after the daylight name leaves the state DaylightRules gives |
| LocalTime.TzInfo.FinishLimits | main/64bitpatch_localtime.c:283-285 | the close of tzset_patch leaves the state DaylightFinish gives |
| LocalTime.TzInfo.Localtime | main/64bitpatch_localtime.c:289-371 | localtime gives a valid record whose instant is t less the offset in effect, with the daylight flag DstFlag decides |
| LocalTime.TzInfo.DecideDst | main/64bitpatch_localtime.c:301-310 | the decision recomputes the instants for a new year and answers DstFlag of the updated state |
| LocalTime.LocalRecord | main/64bitpatch_localtime.c:296-312 | the shifted UTC record is valid and denotes t less the offset, for offsets under a day |
| LocalTime.GmtimeR | main/64bitpatch_localtime.c:296 | the library call gives a valid UTC record, not in daylight time, of instant t |
| LocalTime.ApplyOffset | main/64bitpatch_localtime.c:314-368 | the carry steps keep the record valid and move its instant back by the offset, for offsets under a day |
| LocalTime.ShiftClock | main/64bitpatch_localtime.c:314-337 | the time of day moves back by exactly the offset, with seconds and minutes in range and the hour within a day either side |
| LocalTime.NextDay | main/64bitpatch_localtime.c:338-352 | the forward carry gives the next date, one day later, with the time of day kept |
| LocalTime.DateAfter | main/64bitpatch_localtime.c:341-352 | the date fields move to the next date |
| LocalTime.PreviousDay | main/64bitpatch_localtime.c:353-368 | the backward carry gives the previous date, one day earlier, with the time of day kept |
| LocalTime.DateBefore | main/64bitpatch_localtime.c:356-368 | the date fields move to the previous date |
| LocalTime.MonthDayIsRuleDay | main/64bitpatch_localtime.c:127-131 | the day the weekday loop stops on is the closed-form rule day |
| TzFacts.TzsetWithoutTz | main/64bitpatch_localtime.c:153-161 | without TZ the zone is UTC without daylight saving, and the remembered string is dropped |
| TzFacts.TzsetIdempotent | main/64bitpatch_localtime.c:163 | a second tzset with the same TZ value changes nothing |
| TzFacts.TzsetOutcome | main/64bitpatch_localtime.c:173-285 | a new descriptor either leaves the time zone and daylight flag as they were (the parse gave up), gives standard time only, or sets both from the two rules with the cached year's instants |
| TzFacts.DaylightOutcome | main/64bitpatch_localtime.c:211-285 | after the daylight offset, either the flags stay or they are set from both rules and the instants recomputed |
| TzFacts.ChangeIgnoresChange | main/64bitpatch_localtime.c:135-138 | a rule's change-over instant does not depend on the instant it held before |
| TzFacts.DaylightOffsetAfterName | main/64bitpatch_localtime.c:216-219 | a daylight name sets the daylight offset to the scanned one, or to an hour ahead of standard time |
| TzFacts.MissingRuleDefaults | main/64bitpatch_localtime.c:250-261 | a rule item without a number gives M3.2.0 first and M11.1.0 second |
| TzFacts.MissingTimeDefault | main/64bitpatch_localtime.c:270-277 | a rule without a time, or with '/' and no number, changes at 02:00:00 |
| TzFacts.BadMonthRuleStops | main/64bitpatch_localtime.c:227-229 | a month rule whose month, week or day is out of range stops the parse |
| TzFacts.DayRuleOnCalendar | main/64bitpatch_localtime.c:112-113 | a zero-based day rule "n" names day n of the year, 29 February included |
| TzFacts.JulianRuleOnCalendar | main/64bitpatch_localtime.c:107-111 | a Julian rule "Jn" counts the days without 29 February and never lands on it |
| TzFacts.DefaultTzRules | main/64bitpatch_localtime.c:223-281 | the rules of the default descriptor are the last Sunday of March at 02:00 and the last Sunday of October at 03:00 |
| TzFacts.DefaultTzChanges2021 | main/64bitpatch_localtime.c:91-143 | those rules change over on 2021-03-28 and 2021-10-31, both at 01:00 UTC |
| TzFacts.DefaultTzIn2021 | main/64bitpatch_localtime.c:146-286 | tzset of the default descriptor with 2021 cached gives a northern zone with those two instants |
| Max7219.U8 | main/max7219.c:269 | the value as uint8_t lies in 0..255 |
| Max7219.Widths | main/max7219.c:155-177 | the glyph widths of an ASCII text are at most eight per byte and never negative |
| Max7219.SpriteLength | main/max7219.c:155-177 | the columns a text needs lie between 0 and nine per byte |
| Max7219.SpriteGetLength | main/max7219.c:155-177 | the loop over the text computes SpriteLength |
| Max7219.Paint | main/max7219.c:222-228 | painting one glyph keeps the 32 columns of the buffer |
| Max7219.Filled | main/max7219.c:207-236 | drawing a text keeps the 32 columns of the buffer; the lemmas below say which columns change |
| Max7219.FilledLeftUntouched | main/max7219.c:207-236 | columns left of the text's position are never written |
| Max7219.FilledRightUntouched | main/max7219.c:207-236 | columns at or past the end of an ASCII text are never written |
| Max7219.FilledShowsGlyphs | main/max7219.c:207-236 | every glyph column that falls on the display shows that glyph's byte |
| Max7219.FilledStopsAtNonAscii | main/max7219.c:207-236 | a non-ASCII byte ends the drawing, and nothing after it is drawn |
| Max7219.CommandFrame | main/max7219.c:272-280 | a command frame holds one register and value pair per chip |
| Max7219.DisplayFrame | main/max7219.c:326-339 | a display frame holds one register and column pair per chip |
| Max7219.DisplayFrames | main/max7219.c:326-339 | send_display sends eight frames, one per column register |
| Max7219.DisplayFramesCarryColumns | main/max7219.c:326-339 | display column j travels in frame j mod 8, in the slot of its chip, addressed to column register j mod 8 + 1 |
| Max7219.AlignedTextFits | main/max7219.c:247-252 | an aligned text that fits stays on the display: left-aligned it starts at 0, right-aligned it ends at the last column, centred its margins differ by at most one |
| Max7219.Zeros | main/max7219.c:136-139 | a cleared buffer has 32 zero columns |
| Max7219.Display.constructor | main/max7219.c:90-94 | the buffers start cleared and nothing has been sent |
| Max7219.Display.SendBuffer | main/max7219.c:147-151 | one more transfer, carrying the whole send buffer |
| Max7219.Display.SendCommand | main/max7219.c:272-280 | one transfer per chip slot, the k-th carrying the command in the first k slots; afterwards every slot holds it |
| Max7219.Display.SetBrightness | main/max7219.c:264-270 | values above 15 send nothing and keep the send buffer; others send the intensity command, one transfer per chip slot |
| Max7219.Display.SpriteClearBuffer | main/max7219.c:182-205 | the columns from the offset to the clipped end are zeroed and no others change |
| Max7219.Display.PaintGlyph | main/max7219.c:222-228 | the buffer becomes Paint of one glyph |
| Max7219.Display.SpriteFillBuffer | main/max7219.c:207-236 | the buffer becomes Filled of the text at the position |
| Max7219.Display.SendDisplay | main/max7219.c:326-339 | eight transfers, the frames of DisplayFrames |
| Max7219.Display.FillDisplayBuffer | main/max7219.c:240-262 | the display shows the cleared buffer with the text drawn at its alignment, and sends it |
| RotaryEncoder.PinState | main/rotary_encoder.c:188 | the pin code holds pin B in bit 1 and pin A in bit 0 |
| RotaryEncoder.Event | main/rotary_encoder.c:198 | the direction bits of a state are only the two direction flags |
| RotaryEncoder.Next | main/rotary_encoder.c:156-165 | every table entry is a valid state; pins 11 return to rest, and a direction appears only on that return from the final state of its turn |
| RotaryEncoder.EncoderSignal | main/rotary_encoder.c:214-223 | a clockwise event queues "up", an anticlockwise one "down", and no event queues nothing |
| RotaryEncoder.KeySignal | main/rotary_encoder.c:262-266 | the key timer queues a press while the pin reads low and a release otherwise |
| RotaryEncoder.Steps | main/rotary_encoder.c:194 | one event per pin code read, and the final state is valid |
| RotaryEncoder.StepsAppend | main/rotary_encoder.c:194 | reading two runs of pin codes one after the other gives the events of both in order |
| RotaryEncoder.CwClickSteps | main/rotary_encoder.c:156-165 | one clockwise click from rest emits nothing three times and then the clockwise event, ending at rest |
| RotaryEncoder.ClockwiseClicks | main/rotary_encoder.c:156-165 | n clockwise clicks from rest give exactly n clockwise events, one at the end of each click |
| RotaryEncoder.CcwClickSteps | main/rotary_encoder.c:156-165 | one anticlockwise click from rest emits nothing three times and then the anticlockwise event, ending at rest |
| RotaryEncoder.AnticlockwiseClicks | main/rotary_encoder.c:156-165 | n anticlockwise clicks from rest give exactly n anticlockwise events |
| RotaryEncoder.BounceIsSilent | main/rotary_encoder.c:156-165 | contact bounce that never reaches pins 11 emits no event |
| RotaryEncoder.PushAsWritten | main/rotary_encoder.c:240-252 | as written, the timer starts exactly when the tick exceeds last_tick + DEBOUNCE_TICKS + 2 taken in 32 bits; last_tick follows a start or a wrap |
| RotaryEncoder.BounceNearWrapRestarts | main/rotary_encoder.c:240 | as written, a press just before the tick counter wraps starts the timer, and a bounce one tick later starts it again |
| RotaryEncoder.Push | main/rotary_encoder.c:231-253 | with the elapsed ticks taken modulo 2^32, the timer starts exactly when more than the window has passed; last_tick follows a start or a wrap |
| RotaryEncoder.PushRun | main/rotary_encoder.c:231-253 | the debounce decisions for a run of interrupt times, one per interrupt |
| RotaryEncoder.PushDebounces | main/rotary_encoder.c:231-253 | within one period of the tick counter, every timer start is more than the window after the last one before the run and after every earlier start, also across the wrap |
| RotaryEncoder.PushStep | main/rotary_encoder.c:231-253 | an interrupt within one period starts the timer only more than the window after the tick last_tick stands for, and last_tick then stands for it |
| RotaryEncoder.Encoder.constructor | main/rotary_encoder.c:282 | the state machine starts at rest and last_tick at 0 |
| RotaryEncoder.Encoder.Process | main/rotary_encoder.c:185-204 | one table step on the pins read, returning its direction bits |
| RotaryEncoder.Encoder.IsrRotenc | main/rotary_encoder.c:206-227 | each pin edge takes one table step and queues its EncoderSignal |
| RotaryEncoder.Encoder.IsrRotpush | main/rotary_encoder.c:231-253 | each button edge takes the corrected Push decision and updates last_tick |
| DisplayFunctions.ScanUpTo | main/display_functions.c:331-398 | the scan over the first n entries chooses no sound or one of them, and leaves the pending alarm on its entry or on one of them |
| DisplayFunctions.TimeMatches | main/display_functions.c:337-338 | definition: the entry's hour and minute are the current ones |
| DisplayFunctions.DayMatches | main/display_functions.c:356-362 | definition: the entry names today's weekday (1 is Sunday) or today's month and day |
| DisplayFunctions.ScanEntry | main/display_functions.c:337-397 | definition: one pass of the scan loop on entry x; ArmedScan, UnarmedScan and Override state what it does |
| DisplayFunctions.CheckAlarm | main/display_functions.c:316-411 | definition: check_for_alarm's answer, new pending alarm and sounds played; LateInMinute, SoundsWhenDue and AlarmTimeSounds state its properties |
| DisplayFunctions.Decide | main/display_functions.c:401-410 | definition: the decision after the scan, the alarm before a sound played once |
| DisplayFunctions.StoreStep | main/display_functions.c:164-185 | definition: clock_store_nvram's new counter and whether it writes; RequestRestarts, WriteAfterDelay and WriteTiming state its properties |
| DisplayFunctions.AddSleep | main/display_functions.c:211-220 | definition: the snoozed hour and minute; AddSleepWraps states its range |
| DisplayFunctions.AdjustAlarm | main/display_functions.c:228-251 | definition: the alarm time after one step; AdjustAlarmWraps states its range |
| DisplayFunctions.SleepAdjust | main/display_functions.c:254-267 | definition: the snooze length after one step; SleepAdjustStays states its range |
| DisplayFunctions.BrightnessAdjust | main/display_functions.c:272-285 | definition: the brightness setting after one step; BrightnessAdjustStays states its range |
| DisplayFunctions.DimStep | main/display_functions.c:289-292 | definition: a third of the setting, at least 1 |
| DisplayFunctions.SunHour | main/display_functions.c:293-296 | definition: the hour compared with the table, one less under daylight saving |
| DisplayFunctions.Dimmed | main/display_functions.c:287-311 | definition: the corrected dimming; DimmedByDaylight states its steps |
| DisplayFunctions.DimmedAsWritten | main/display_functions.c:287-311 | definition: the level the code as written sends; DimmedAsWrittenAlways and DimsAtNoon state its defect |
| DisplayFunctions.DimLevel | main/display_functions.c:287-311 | the level computed is the corrected dimming `Dimmed` of the setting at the time, not the level the code as written sends (`DimmedAsWritten`); DimmedByDaylight states its steps |
| DisplayFunctions.Stored | main/display_functions.c:164-185 | clock_store_nvram on the clock's state: only the counter and the write log change, at most one write is added, and a request restarts the delay without writing |
| DisplayFunctions.SwitchedOnOff | main/display_functions.c:189-197 | alarm_onoff flips the alarm flag and nothing else in the settings, cancels the pending alarm when switching off, and requests a write |
| DisplayFunctions.Cancelled | main/display_functions.c:201-209 | alarm_off cancels the pending alarm and switches the alarm off with a write request unless it is on by default |
| DisplayFunctions.Stopped | main/display_functions.c:222-225 | stop_alarm adds one stop to the audio log and changes nothing else |
| DisplayFunctions.Snoozed | main/display_functions.c:211-220 | alarm_add_sleep moves the pending alarm as AddSleep says, keeps its sound and changes nothing else |
| DisplayFunctions.AlarmMoved | main/display_functions.c:228-251 | alarm_set_time moves entry 0's time as AdjustAlarm says, keeps its other fields and every other entry, and requests a write |
| DisplayFunctions.SleepMoved | main/display_functions.c:254-267 | sleep_set_time changes only the snooze length, as SleepAdjust says, and requests a write |
| DisplayFunctions.BrightnessMoved | main/display_functions.c:271-313 | brightness_set changes only the brightness setting, requests a write exactly when it changed, and sends the corrected level Dimmed |
| DisplayFunctions.Checked | main/display_functions.c:316-411 | check_for_alarm sets the pending alarm and adds the sounds CheckAlarm gives, and keeps the settings and the counter |
| DisplayFunctions.Clock.constructor | main/display_functions.c:52-54 | at boot the settings are those loaded, no alarm is pending, the write counter is 0, and nothing has been written, played or sent |
| DisplayFunctions.Clock.StoreNvram | main/display_functions.c:164-185 | the new state is `Stored` of the old: a request restarts the delay, a tick advances it and writes the settings once when it runs out; nothing else changes |
| DisplayFunctions.Clock.AlarmOnOff | main/display_functions.c:189-197 | the new state is `SwitchedOnOff` of the old: the alarm is toggled, switching it off cancels a pending or snoozed alarm, and a write is requested |
| DisplayFunctions.Clock.AlarmOff | main/display_functions.c:201-209 | the new state is `Cancelled` of the old: the pending alarm is cancelled, and the alarm is switched off with a write requested unless it is on by default |
| DisplayFunctions.Clock.StopAlarm | main/display_functions.c:222-225 | the new state is `Stopped` of the old: the player is told to stop and nothing else changes |
| DisplayFunctions.Clock.AlarmAddSleep | main/display_functions.c:211-220 | the new state is `Snoozed` of the old: the pending alarm moves by the snooze length and keeps its sound |
| DisplayFunctions.Clock.AlarmSetTime | main/display_functions.c:228-251 | the new state is `AlarmMoved` of the old: entry 0's time moves by the adjustment step as AdjustAlarm says, and a write is requested; nothing else changes |
| DisplayFunctions.Clock.SleepSetTime | main/display_functions.c:254-267 | the new state is `SleepMoved` of the old: the snooze length moves by one within 1..59, and a write is requested |
| DisplayFunctions.Clock.BrightnessSet | main/display_functions.c:271-313 | the new state is `BrightnessMoved` of the old: the setting moves by one as BrightnessAdjust says, a change requests a write, and the corrected dimmed level (`Dimmed`, not `DimmedAsWritten`) for the time of day is sent |
| DisplayFunctions.Clock.CheckForAlarm | main/display_functions.c:316-411 | the answer, the pending alarm and the sounds played are those of CheckAlarm (see SoundsWhenDue); the new state is `Checked` of the old, so the settings are kept |
| AlarmFacts.LateInMinute | main/display_functions.c:324-326 | after the first ten seconds of a minute nothing is checked, played or changed |
| AlarmFacts.SoundsWhenDue | main/display_functions.c:401-410 | the alarm sounds exactly when it is due and on; otherwise at most one later entry's sound plays once |
| AlarmFacts.Override | main/display_functions.c:384-397 | the last alarm-flagged entry for today before n, or 0 if there is none |
| AlarmFacts.ArmedScan | main/display_functions.c:337-349 | when entry 0's time is now, the pending alarm becomes now, with the sound of the last alarm entry for today |
| AlarmFacts.AlarmTimeSounds | main/display_functions.c:401-406 | the alarm time reached with the alarm on sounds the alarm, whatever the other entries say |
| AlarmFacts.UnarmedScan | main/display_functions.c:350-377 | without an alarm match the pending alarm stays, and the sound chosen is an eligible entry after 0, none exactly when none is eligible |
| AlarmFacts.FullHourNeverPlays | main/display_functions.c:367-375 | a scheduled sound at a full hour with no weekday or date never plays |
| AlarmFacts.CancelledStaysSilent | main/display_functions.c:189-209 | a cancelled alarm stays silent until entry 0's time comes round again |
| AlarmFacts.AddSleepWraps | main/display_functions.c:211-220 | snoozing moves the pending alarm by the snooze length, modulo a day |
| AlarmFacts.AdjustAlarmWraps | main/display_functions.c:228-251 | turning the encoder moves the alarm time up or down, modulo a day |
| AlarmFacts.SleepAdjustStays | main/display_functions.c:254-267 | the snooze length moves by one step toward the end asked for and never leaves 1..59 |
| AlarmFacts.BrightnessAdjustStays | main/display_functions.c:272-285 | the brightness setting moves by one step and never leaves 0..15 |
| AlarmFacts.SunriseBeforeSunset | main/display_functions.c:65-67 | every month's sunrise hour is before its sunset hour |
| AlarmFacts.DimmedAsWrittenAlways | main/display_functions.c:298-306 | as written, the level is two dimming steps down at every hour |
| AlarmFacts.DimsAtNoon | main/display_functions.c:298-306 | as written, full brightness at noon in June is sent as 5 |
| AlarmFacts.DimmedByDaylight | main/display_functions.c:287-311 | intended dimming: none in daylight, one step in the sunrise and sunset hours, two at night, never below 0 or above the setting |
| AlarmFacts.RequestRestarts | main/display_functions.c:164-170 | a write request restarts the delay without writing |
| AlarmFacts.ParkedIgnoresTicks | main/display_functions.c:171-185 | a parked counter ignores ticks |
| AlarmFacts.WriteAfterDelay | main/display_functions.c:171-185 | a counter within the delay writes exactly once, on the tick that passes the delay, and is then parked |
| AlarmFacts.WriteTiming | main/display_functions.c:164-185 | a change is written on the tenth tick after it, and after boot on the eleventh |
| DisplayClock.Menu.constructor | main/display_clock.c:91 | the menu starts on the clock screen with no actions taken |
| DisplayClock.Menu.Handle | main/display_clock.c:108-280 | one event of the display loop: the screen follows Step, with the alarm due as CheckAlarm decides; the clock's new state is the calls of Step performed in order (`PerformAll`); the network settings change only on a long press at the access-point prompt |
| DisplayClock.Menu.Press | main/display_clock.c:110-164 | a press moves the screen as Step says, and the clock's new state is Step's calls performed in order |
| DisplayClock.Menu.Release | main/display_clock.c:165-175 | a release moves the screen and makes the calls as Step says |
| DisplayClock.Menu.Tick | main/display_clock.c:176-191 | a minute tick moves the screen as Step says, with the alarm due as CheckAlarm decides, and the clock's new state is Step's calls performed in order |
| DisplayClock.Menu.Expire | main/display_clock.c:232-275 | the menu timer moves the screen as Step says and the clock's new state is Step's calls performed in order; a long press at the access-point prompt opens the access point |
| DisplayClock.Menu.TurnEncoder | main/display_clock.c:193-231 | turning keeps the screen, and the clock's new state is the calls Turn gives for it performed in order |
| DisplayClock.Step | main/display_clock.c:108-280 | definition: one pass of the display loop, the new screen and the calls in order; PressCycle, MinuteTick, TimerTransitions and TurnOnlyInSettings state its properties |
| DisplayClock.Turn | main/display_clock.c:193-231 | definition: the calls a turn makes on each screen |
| DisplayClock.Perform | main/display_clock.c:108-280 | the effect of one call of the loop on the clock's state keeps the alarm table well formed |
| DisplayClock.PerformAll | main/display_clock.c:108-280 | the calls of one event performed in order keep the alarm table well formed |
| DisplayClock.PressCycle | main/display_clock.c:110-164 | six presses walk the menu from the clock round to the clock |
| DisplayClock.PressTogglesAlarm | main/display_clock.c:110-164 | in the alarm-setting screen a press toggles the alarm and stays |
| DisplayClock.PressSnoozes | main/display_clock.c:110-164 | a press while the alarm sounds stops and snoozes it before anything else |
| DisplayClock.PressTogglesClock | main/display_clock.c:124-128 | a press in the alarm-setting screen flips the alarm flag, keeps the table, requests a write and plays nothing |
| DisplayClock.PressSnoozesClock | main/display_clock.c:139-149 | a press while the alarm sounds stops the sound and moves the pending alarm by the snooze length |
| DisplayClock.MinuteTick | main/display_clock.c:176-191 | a tick moves to the alarm screen from any screen exactly when the alarm is due, and otherwise keeps the screen |
| DisplayClock.MinuteTickClock | main/display_clock.c:176-191 | a minute tick keeps the settings, takes the pending alarm and sounds from CheckAlarm, sends the dimmed level of the unchanged brightness and advances the write delay by one tick |
| DisplayClock.TurnOnlyInSettings | main/display_clock.c:193-231 | turning never changes the screen and acts only on the three setting screens |
| DisplayClock.TurnAdjustsClock | main/display_clock.c:193-231 | turning in a setting screen adjusts that one setting as AdjustAlarm, SleepAdjust or BrightnessAdjust says, and anywhere else leaves the clock unchanged |
| DisplayClock.TimerTransitions | main/display_clock.c:232-275 | the timer returns every screen to the clock except the alarm screen and a long press; only a long press opens the access point |
| DisplayClock.TimerEndsAlarmClock | main/display_clock.c:242-247 | the timer ending a sounding alarm stops the sound, cancels the pending alarm and leaves the alarm on only when it is on by default |
| DisplayClock.ReleaseOnlyFromPrompt | main/display_clock.c:165-175 | a release changes the screen only from the open-access-point prompt |
| DisplayClock.DefaultSettingsValid | main/display_clock.c:49-61 | the default settings have twenty entries, every field in the range the settings API accepts |
| Network.WifiEventArgs.constructor | main/networkstartstop.c:183 | the handler argument starts without Wi-Fi and with the retry counter at 0 |
| Network.WifiEventArgs.HandleEvent | main/networkstartstop.c:104-172 | one event keeps the mode; the counter and the effects follow RetryAfter and EventEffects |
| Network.WifiEventArgs.Reconfigure | main/networkstartstop.c:216-315 | a running Wi-Fi has its applications stopped and reconnects disabled; a mode above 0 replaces the old one, and a mode with a station resets the counter to 0 |
| Network.RetryInRange | main/networkstartstop.c:126-150 | the retry counter stays within -1..10 whatever the event |
| Network.RetryAfter | main/networkstartstop.c:120-157 | definition: the retry counter after one event; RetryInRange and DisconnectsCount state its properties |
| Network.ConnectEffects | main/networkstartstop.c:120-150 | definition: the reconnect calls of station start and disconnect |
| Network.EventEffects | main/networkstartstop.c:104-172 | definition: everything the handler does on one event, in order; StartAppsOnId and LostIpStopsInStationMode state its properties |
| Network.ShutdownIgnoresDisconnect | main/networkstartstop.c:129 | while Wi-Fi is shut down a disconnect neither reconnects nor changes the counter |
| Network.DisconnectsCount | main/networkstartstop.c:126-150 | n disconnects within the retry budget reconnect n times and count n up |
| Network.DisconnectEffects | main/networkstartstop.c:126-150 | one disconnect reconnects within the budget, and past it backs off and resets the counter |
| Network.DisconnectCycle | main/networkstartstop.c:126-150 | eleven disconnects from a fresh counter give ten reconnects, a back-off, a reset to 0 and one more reconnect |
| Network.StartAppsOnId | main/networkstartstop.c:160-164 | the applications start exactly on the ids of "got IP" and "access point started", whatever the event base |
| Network.LostIpStopsInStationMode | main/networkstartstop.c:167-171 | losing the address stops the applications only in station-only mode |
| Network.ApAuthMode | main/networkstartstop.c:303-310 | the access point is open exactly when its password is empty |
| Network.OpenWifiAp | main/networkstartstop.c:401-418 | the settings become an open access point on channel 1, are written to NVRAM, and the Wi-Fi task is signalled |
| Network.OpenApParams | main/networkstartstop.c:401-418 | definition: the settings open_wifi_ap stores; OpenApIsOpen and OpenApIdempotent state its properties |
| Network.OpenApIsOpen | main/networkstartstop.c:297-315 | the next reconfiguration runs an open access point, keeping a station exactly when one was configured |
| Network.OpenApIdempotent | main/networkstartstop.c:401-418 | opening the access point twice is the same as once, and the station's names and passwords stay |
| EventHandler.RunKeepsLoopAlive | main/eventhandler.c:16-37 | from no users, one loop is alive while the count is positive and none at 0 |
| EventHandler.StartsRun | main/eventhandler.c:16-37 | n starts raise the count by n and create the loop only from 0 |
| EventHandler.StopsRun | main/eventhandler.c:16-37 | n stops from n delete the loop once, on the last |
| EventHandler.StartsThenStops | main/eventhandler.c:16-37 | n starts then n stops create and delete the loop exactly once and return to 0 |
| EventHandler.LoopStep | main/eventhandler.c:16-37 | definition: the new count and the library call of one start or stop; RunKeepsLoopAlive, StartsRun and StopsRun state its properties |
| EventHandler.DefaultEventLoop.constructor | main/eventhandler.c:16 | no users and no library calls at first |
| EventHandler.DefaultEventLoop.StartStop | main/eventhandler.c:16-37 | the user count and the library calls follow LoopStep; RunKeepsLoopAlive gives their meaning |
| Webserver.HttpdIdempotent | main/webserver.c:33-46 | the flag ends as asked, a library call is made only when it changes, and a repeated call does nothing |
| Webserver.HttpdStep | main/webserver.c:33-46 | definition: the started flag and the library call of one start or stop; HttpdIdempotent states its properties |
| Webserver.Httpd.constructor | main/webserver.c:33 | the server starts stopped, with no handle and no calls |
| Webserver.Httpd.StartStop | main/webserver.c:33-46 | the flag and the library calls follow HttpdStep; a start from stopped records whether httpd_start succeeded |
| Webserver.ErrorResponse | main/webserver.c:49-72 | 400, 404, 405, 414 and 500 are answered with their own status, any other code with 404 |
| Json.Find | main/json_network.c:54 | a lookup finds nothing exactly when no member has the key |
| Json.FindFirst | main/json_network.c:54 | the member at an index is the one found when no earlier member has its key |
| Json.FindAppend | main/json_network.c:54 | appending members never changes what an earlier member answers |
| HttpApiJson.ItemOf | main/http_api_json.c:126 | a lookup in a NULL object finds nothing |
| HttpApiJson.RequestCode | main/http_api_json.c:126-196 | the answer is 0 exactly for a known RequestType whose handler answered 0; unknown or missing types and the -1 marker give 400 |
| HttpApiJson.AfterParseAsWritten | main/http_api_json.c:78-88 | as written, a body that does not parse goes on as a NULL object and is answered 400 |
| HttpApiJson.AfterParse | main/http_api_json.c:78-88 | once the parse result is checked, a body that does not parse is answered 405 |
| HttpApiJson.UnparsableBody | main/http_api_json.c:78-88 | an unparsable body is answered 400 as written and 405 once corrected |
| HttpApiJson.Dispatch | main/http_api_json.c:134-191 | exactly the handler of a known name is called, and its code replaces the -1 marker, which otherwise becomes 400 |
| HttpApiJson.JsonApiPost | main/http_api_json.c:96-230 | 414 for a long body, 415 for one not received, a body that does not parse 405 (the corrected `AfterParse`; the code as written answers it 400), otherwise the dispatched answer; the reply JSON goes out exactly when the answer is 0 |
| HttpGet.UriError | main/http_get.c:43-81 | the code is 0, 400, 405 or 414: 0 exactly for an acceptable URI, 414 for one over 26 characters, and 405 exactly for a query string that no later check overrides |
| HttpGet.AcceptableUri | main/http_get.c:43-81 | definition: the URIs the handler accepts; UriError states that exactly these answer 0 |
| HttpGet.CheckUri | main/http_get.c:43-81 | the URI checks one after the other give UriError |
| HttpGet.ServedPath | main/http_get.c:88-97 | the served path of an accepted URI fits MAXVFSPATHLENGTH and has a dot |
| HttpGet.ServedPathShape | main/http_get.c:88-97 | "/" serves /www/index.html and any other URI /www plus the URI, with ".html" when it has no dot; no slash follows the one after /www |
| HttpGet.FirstIndex | main/http_get.c:112 | strchr's index holds the character and none is before it, or there is none |
| HttpGet.Extension | main/http_get.c:112-115 | the extension is a suffix of the path that starts with a dot |
| HttpGet.ContentType | main/http_get.c:119-144 | known extensions get their MIME type; any other one makes the browser save the file |
| HttpGet.FirstIndexAt | main/http_get.c:112 | an index holding the character with none before it is what strchr finds |
| HttpGet.ServedExtension | main/http_get.c:88-115 | the served extension is ".html" for "/" and for a URI without a dot, and otherwise the URI's from its first dot |
| HttpGet.DotExtension | main/http_get.c:93-115 | a URI with a dot keeps its own extension |
| HttpGet.AddedExtension | main/http_get.c:94-115 | a URI without a dot gets ".html" |
| HttpGet.IndexPageExtension | main/http_get.c:89-91 | the index page is served as ".html" |
| HttpGet.DefaultFilesGet | main/http_get.c:30-191 | a refused URI is answered with its error; a file that does not open with 404; otherwise the file goes out with the content type of its extension |
| JsonWavs.FindWav | main/json_wavs.c:51 | strstr's index is the first ".wav" from the start index, or there is none |
| JsonWavs.WavName | main/json_wavs.c:49-55 | an entry is listed exactly when it holds ".wav", and it starts with its short name followed by ".wav" |
| JsonWavs.WavItem | main/json_wavs.c:58-69 | the item answers its name under "wavsound" |
| JsonWavs.WavItems | main/json_wavs.c:46-71 | one item per listed name, in order |
| JsonWavs.WavNames | main/json_wavs.c:46-71 | the names listed are at most as many as the directory entries |
| JsonWavs.WavList | main/json_wavs.c:28-78 | a directory that does not open gives 400 and nothing; otherwise "wavs" lists the wav files in directory order |
| JsonWavs.WavNamesAppend | main/json_wavs.c:46-71 | listing two runs of entries lists the first run's names, then the second's |
| JsonWavs.WavNamesOne | main/json_wavs.c:46-71 | a single entry is listed exactly when it holds ".wav" |
| JsonWavs.ShortNameIsCut | main/json_wavs.c:51-55 | a listed name holds no ".wav" of its own |
| JsonWavs.DoubleSuffix | main/json_wavs.c:51-55 | the first ".wav" cuts the name: "a.wav.wav" is listed as "a" |
| JsonFiles.FilePath | main/json_files.c:62-69 | the path is the filesystem name, one '/' unless it ends in one, then the entry name |
| JsonFiles.FileItem | main/json_files.c:74-90 | the item answers the path under "filename" and the size under "filesize" |
| JsonFiles.FileItems | main/json_files.c:59-91 | one item per entry, in readdir order |
| JsonFiles.FileList | main/json_files.c:30-99 | a missing name or a directory that does not open gives 400 and nothing; otherwise "directory" lists every entry |
| JsonFiles.FileDelete | main/json_files.c:102-122 | 0 exactly when a filename string was given and removed, 500 otherwise |
| JsonTime.AcceptedTime | main/json_time.c:32-46 | a number timestamp from 946684800 (1 January 2000) on is accepted, anything else refused |
| JsonTime.TimeSet | main/json_time.c:25-49 | an accepted timestamp sets the time and answers 0; anything else answers 400 with no effect |
| JsonTime.TimeReply | main/json_time.c:51-58 | the reply holds the current time under "utctimestamp" |
| JsonTime.ReadThenSet | main/json_time.c:25-58 | posting the time read back sets the clock to it exactly when it is not before 2000 |
| JsonClock.NumberIn | main/json_clock.c:70-79 | a number item within the bounds, and its value |
| JsonClock.Sound | main/json_clock.c:175-184 | the intended guard: a sound name is taken only when it fits its buffer with the terminator |
| JsonClock.SoundAsWritten | main/json_clock.c:175-184 | definition: the sound guard as written; SoundAsWrittenAcceptsStrings and LongSoundPasses state its defect |
| JsonClock.LongSoundPasses | main/json_clock.c:178 | any name of 20 bytes or more passes the guard as written, and so overflows the 20-byte buffer, while the corrected guard refuses it |
| JsonClock.LongSoundExample | main/json_clock.c:178 | "a-very-long-sound-nam.wav" is 20 bytes or more, so it is a name LongSoundPasses applies to |
| JsonClock.SoundKeyFits | main/json_clock.c:178 | the key the guard as written measures, "sound", fits the buffer, so the guard never refuses |
| JsonClock.SoundAsWrittenAcceptsStrings | main/json_clock.c:178 | the guard as written accepts exactly the string items |
| JsonClock.CountFields | main/json_clock.c:103-188 | an entry counts between 0 and 7 values |
| JsonClock.CountCompleteIff | main/json_clock.c:103-188 | an entry counts 7 exactly when every value is present and in range |
| JsonClock.TableFields | main/json_clock.c:103-188 | the checked values of every item of the "alarms" array, the sound name under the corrected guard `Sound` |
| JsonClock.Fields | main/json_clock.c:104-184 | definition: the values of one item that pass their checks, the sound under the corrected guard |
| JsonClock.ApplyFields | main/json_clock.c:104-187 | definition: the entry with the accepted values written over it |
| JsonClock.EntriesUpTo | main/json_clock.c:103-188 | after n items the table keeps its length and the entries from n on, and at most seven values per item are counted |
| JsonClock.EntriesStep | main/json_clock.c:103-188 | entry n is still the original one when it is filled in |
| JsonClock.Scalars | main/json_clock.c:37-91 | the four settings count at most four and leave the table alone |
| JsonClock.TakeNumber | main/json_clock.c:105-114 | a number block takes and counts the value exactly when it is a number in range |
| JsonClock.TakeBool | main/json_clock.c:160-172 | a boolean block takes and counts any boolean |
| JsonClock.TakeSound | main/json_clock.c:175-184 | the sound block takes and counts a name whose bytes fit its buffer (the corrected guard; the code as written takes every string) |
| JsonClock.ParseEntry | main/json_clock.c:104-187 | one entry, block by block as TableFields says, so a sound name is taken under the corrected guard |
| JsonClock.ParseScalars | main/json_clock.c:37-91 | the four settings go into the copy, and "alarm_on": false stops a sounding alarm at once |
| JsonClock.ParseAlarms | main/json_clock.c:93-189 | an array of the wrong size ends the request at once; an array of the right size fills the entries as EntriesUpTo says, with sound names under the corrected guard; no array leaves the table alone |
| JsonClock.ClockSet | main/json_clock.c:26-203 | a complete request replaces the settings and asks for the delayed write; anything else answers 400 and keeps them, except that "alarm_on": false has already switched a sounding alarm off; a sound name of 20 bytes or more makes the request incomplete under the corrected guard, where the code as written accepts it |
| JsonClock.ClockSetResult | main/json_clock.c:26-203 | definition: the settings json_clock_set commits, or none for 400; ClockSetAccepts, AcceptedIsComplete and CompleteIsAccepted state its properties |
| JsonClock.AfterAlarmOff | main/display_functions.c:201-209 | definition: the settings after the alarm_off that "alarm_on": false triggers at main/json_clock.c:46 |
| JsonClock.ClockRead | main/json_clock.c:205-257 | the answer is 0 with the reply ClockReply of the settings |
| JsonClock.EntryJson | main/json_clock.c:241-252 | definition: one entry of the reply; EntryRoundTrip states that it reads back |
| JsonClock.ClockReply | main/json_clock.c:205-257 | definition: the reply of json_clock_read; ReplyItem and ReadThenSet state its properties |
| JsonClockFacts.FullCountComplete | main/json_clock.c:103-192 | the table counts seven per item only when every item is complete |
| JsonClockFacts.CompleteFullCount | main/json_clock.c:103-192 | complete items count seven each |
| JsonClockFacts.EntriesContents | main/json_clock.c:103-192 | when every item is complete the table holds what the items say |
| JsonClockFacts.Requested | main/json_clock.c:192-194 | the settings a complete request describes have a full table of well-formed entries |
| JsonClockFacts.ClockSetAccepts | main/json_clock.c:26-203 | the handler commits exactly the complete requests, and commits what they say |
| JsonClockFacts.AcceptedIsComplete | main/json_clock.c:26-203 | a committed request has every value present and in range |
| JsonClockFacts.CompleteIsAccepted | main/json_clock.c:26-203 | a complete request is committed as the settings it describes |
| JsonClockFacts.NoTableRefused | main/json_clock.c:192-202 | a request without an "alarms" array is always refused |
| JsonClockFacts.WrongSizeRefused | main/json_clock.c:96-100 | an "alarms" array of the wrong size is refused before any entry is read |
| JsonClockFacts.AcceptedInRange | main/json_clock.c:70-184 | whatever the handler stores is within its ranges |
| JsonClockFacts.EntryItem | main/json_clock.c:241-252 | each field of an entry read out is found under its own key |
| JsonClockFacts.EntryRoundTrip | main/json_clock.c:241-252 | an entry read out reads back as itself exactly when it is in range |
| JsonClockFacts.EntryFieldsOf | main/json_clock.c:241-252 | the values the set handler reads back from an entry read out |
| JsonClockFacts.ReplyItem | main/json_clock.c:210-224 | each member of the reply is found under its own key |
| JsonClockFacts.ReplyScalars | main/json_clock.c:210-224 | the four settings of the reply read back as written |
| JsonClockFacts.ReadThenSet | main/json_clock.c:205-257 | posting what ClockRead returned sets those settings exactly when they are within ClockSet's ranges |
| JsonClockFacts.ReplyRequested | main/json_clock.c:205-257 | a reply whose settings are in range is a complete request for exactly those settings |
| JsonNetwork.ParseField | main/json_network.c:54-192 | the block of one field is Step of that field on the copy and the error flag |
| JsonNetwork.TextOk | main/json_network.c:84-188 | definition: the length limit of each text field, in UTF-8 bytes |
| JsonNetwork.WideSsidRefused | main/json_network.c:140-146 | twenty characters of two bytes each are refused as a station SSID although twenty characters would fit |
| JsonNetwork.FieldOk | main/json_network.c:54-190 | definition: whether one field of the request passes its check; AcceptedIff states its role |
| JsonNetwork.ErrorMessage | main/json_network.c:74-188 | definition: the reply text of each failing check |
| JsonNetwork.Apply | main/json_network.c:54-192 | definition: the copy after a field that passed; ApplyPart and AbsentKeepsValue state its properties |
| JsonNetwork.ParseFrom | main/json_network.c:54-192 | definition: the blocks from the k-th on, stopping at the first failure; FirstError and RunMatchesParse relate it to the code's flag-threading form |
| JsonNetwork.Step | main/json_network.c:83-192 | definition: one block of json_setup_set, skipped once an error was found |
| JsonNetwork.RunFrom | main/json_network.c:83-192 | definition: the blocks from the k-th on, as the code runs them; RunAfterError and RunMatchesParse state its properties |
| JsonNetwork.CheckFields | main/json_network.c:54-192 | the nine blocks in order give RunFrom of the copy from the first field |
| JsonNetwork.RunAfterError | main/json_network.c:83-192 | once the error flag is set, no later block changes the state |
| JsonNetwork.RunMatchesParse | main/json_network.c:38-217 | the blocks with the error flag end at 0 or 400, keep the reply text on success, and give the outcome of stopping at the first failing field |
| JsonNetwork.SetupSet | main/json_network.c:38-218 | an accepted request commits the copy, writes it to NVRAM and signals the Wi-Fi task once; a rejected one answers 400 with the message and changes nothing; lengths count UTF-8 bytes as strlen does |
| JsonNetwork.AcceptedIff | main/json_network.c:54-192 | a request is accepted exactly when every field passes, whatever the copy |
| JsonNetwork.FirstFailing | main/json_network.c:54-192 | the first failing field from k on, every earlier one passing |
| JsonNetwork.FirstError | main/json_network.c:54-192 | a rejection carries the message of the first failing field |
| JsonNetwork.ApplyKeepsStoredOk | main/json_network.c:54-192 | a field that passes keeps the settings storable |
| JsonNetwork.AcceptedFits | main/json_network.c:54-192 | every accepted value fits its buffer with its terminator, counted in bytes |
| JsonNetwork.ApplyPart | main/json_network.c:48-192 | a field changes no other field's part of the settings, nor its own when the request lacks its key, and never the parts no field can set |
| JsonNetwork.AbsentKeepsValue | main/json_network.c:48-192 | a field absent from an accepted request keeps its value, and the IP settings never change |
| JsonNetwork.ByteMembers | main/json_network.c:231-251 | four members whose keys start with the prefix |
| JsonNetwork.AddressMembers | main/json_network.c:231-251 | the IP mode and the address bytes, under keys for the IP, gateway, mask and name servers |
| JsonNetwork.SetupRead | main/json_network.c:221-255 | the answer is 0 with the reply SetupReply of the settings |
| JsonNetwork.WifiMembers | main/json_network.c:224-230 | definition: the Wi-Fi part of the reply |
| JsonNetwork.SetupReply | main/json_network.c:221-255 | definition: the reply of json_setup_read; ReplyItem and ReadThenSet state its properties |
| JsonNetwork.FindSkip | main/json_network.c:224-253 | members without the key do not change what is found after them |
| JsonNetwork.WifiItem | main/json_network.c:224-253 | the first part of the reply answers its seven keys |
| JsonNetwork.ReplyItem | main/json_network.c:224-253 | the reply answers each key with the matching setting |
| JsonNetwork.ParseKeeps | main/json_network.c:38-255 | fields that pass and keep the copy leave the whole parse at the copy |
| JsonNetwork.ReplyFieldKeeps | main/json_network.c:38-255 | each field of the reply passes its check and leaves the settings as they were, for settings whose zone and server names are longer than three bytes |
| JsonNetwork.ReadThenSet | main/json_network.c:38-255 | posting the reply back is accepted and changes nothing, for storable settings whose zone and server names are longer than three bytes |
| Text.CharBytes | main/json_network.c:86 | a character takes one to four bytes, and one exactly when it is ASCII |
| Text.Utf8Length | main/json_network.c:86 | strlen of the encoding lies between the number of characters and four times it, and is 0 only for the empty text |
| Text.AsciiLength | main/json_network.c:86 | an ASCII text has one byte per character |
| Text.RepeatLength | main/json_network.c:86 | n copies of a character take n times its bytes |

## Left out

- I2C and SPI transfers: the DS3231 bytes read are parameters, and the MAX7219 transfers are a log of frames.
- `ds3231_get_temp_float`: floating point.
- The MAX7219 glyph table: the font is a parameter, and `font_terminal.h` is not part of this model.
- The `MAX7219_ROTATE90` branch of `max7219_send_display`: the build leaves it out.
- `max7219_init_spi` and the bus set-up.
- `rotary_encoder_init`'s GPIO, interrupt and timer set-up: the model keeps only its state.
- The half-step table of the rotary encoder: the build leaves it out.
- `rotary_encoder_get_button`: its level is the parameter `held`.
- The conversion of time to FreeRTOS ticks (`portTICK_PERIOD_MS`): the delay is given in milliseconds.
- The two `gettimeofday` calls of a time-task wake-up: one time `now` is a parameter.
- The localtime of a wake-up and the SNTP status: parameters.
- `get_time` in the JSON handlers: the parameter `now`.
- `TimeTask.Mktime`: only the UTC case with the fields in range; isdst and out-of-range day fields are not normalised.
- The ESP-IDF event ids: the values are those of ESP-IDF, since its headers are not part of this model.
- `start_stop_sntp` and the Wi-Fi driver calls of `wifi_setup`: recorded as effects.
- NVRAM, the filesystem, mDNS and audio playback: recorded as effects or given as parameters.
- Allocation failures (`malloc` of the remembered TZ string, the cJSON constructors): always taken to succeed.
- `json_clock_set`'s `temp_settings`: it is never freed, and the model does not track memory.
- cJSON numbers: the model's numbers are integers, so the fraction of `valuedouble` is not modelled.
- `strcpy` into a buffer that is too small: the model states which lengths fit; it does not model the overrun.
- C `int` overflow of the counters: the counters are unbounded integers where the source's values stay small.
- The receive loop of `http_request_json_parse`: whether the body arrived is the parameter `received`.
- The chunk loop of `default_files_get_handler`: whether every chunk went out is the parameter `chunksSent`.
- `HttpGet.DefaultFilesGet`: requires an extension shorter than eight characters, because the source leaves `file_ext` unset otherwise.
- `JsonFiles.FileList`: requires a non-empty filesystem name when entries are listed, because the source reads before the string otherwise.
- `stat` failure of a directory entry: the size is given with the entry.
- The in-place NUL of `json_wav_list`: the short name is the prefix it leaves.
- The hello handler of the web server.
- The `menu_timer(4000)` at boot and the rendering of each screen: the menu model keeps the state and the actions.
- The glyph placement of `time_sendto_display`.
- URIs, file paths and the TZ string are read as characters, not bytes. For ASCII text the two agree; a browser percent-encodes other characters in a URI and the handler refuses `%`, but a non-ASCII time-zone name would be cut by `%10[^0-9,+-]` at ten bytes in the source and at ten characters here.
- `Ds3231.TimeOfRegisters`: reads the hour with the corrected `Hour`; the code as written (`HourAsWritten`) reads a 12-hour register one hour low, so 0x41 (1 AM) gives 0 in the source and 1 here.
- `Ds3231.GetTime`: fills the record through `TimeOfRegisters`, so it carries the same corrected hour.
- `DisplayFunctions.DimLevel`: computes the corrected `Dimmed`; the code as written (`DimmedAsWritten`) dims at every hour, so noon in June at brightness 15 sends 5 in the source and 15 here.
- `DisplayFunctions.BrightnessMoved`: sends the corrected `Dimmed` level, not `DimmedAsWritten`.
- `DisplayFunctions.Clock.BrightnessSet`: follows `BrightnessMoved`, so it sends the corrected level.
- `DisplayClock.Perform`: a brightness call sends the corrected level, and so `DisplayClock.PerformAll`, `DisplayClock.Menu.Handle`, `DisplayClock.Menu.Tick`, `DisplayClock.Menu.TurnEncoder`, `DisplayClock.MinuteTickClock` and `DisplayClock.TurnAdjustsClock` state the corrected level too.
- `TimeTask.TimeKeeper.Tick`: takes one status sample for the read decision (`TickOutcome`); the code as written calls `last_sntp_sync_min` twice there (`TickOutcomeAsWritten`), so a sync completing between the calls reads the DS3231 in the source and not here.
- `RotaryEncoder.Encoder.IsrRotpush`: debounces with the corrected modular `Push`; the code as written (`PushAsWritten`) starts the timer again for presses at ticks 2^32-6 and 2^32-5.
- `JsonClock.TakeSound`: checks the bytes of the sound name (`Sound`); the code as written (`SoundAsWritten`) takes every string, so a name of 20 bytes or more is taken and counted in the source and refused here.
- `JsonClock.Fields`: uses the corrected sound guard, as `TakeSound` does.
- `JsonClock.TableFields`: uses the corrected sound guard through `Fields`.
- `JsonClock.ParseEntry`: uses the corrected sound guard through `TakeSound`.
- `JsonClock.ParseAlarms`: uses the corrected sound guard through `ParseEntry`.
- `JsonClock.ClockSetResult`: uses the corrected sound guard through `TableFields`, so a request with an over-long sound name is answered 400 here where the source accepts it and overflows the buffer.
- `JsonClock.ClockSet`: follows `ClockSetResult`, with the corrected sound guard.
- `HttpApiJson.JsonApiPost`: answers 405 to a body that does not parse (`AfterParse`); the code as written (`AfterParseAsWritten`) tests the address of the result, so such a body reaches the handler and is answered 400 in the source.
- Concurrency between the tasks: every operation runs to completion, and a single caller is assumed. In particular `last_sntp_sync_min` is also called from the main task's loop (`main/clock001_main.c:109`), and every such call can reset or advance the count between two wake-ups of the time task; the model of the time task sees only its own calls.

## Findings

| source | as written | input that shows it | evidently intended | confidence | as-written member | corrected member |
|---|---|---|---|---|---|---|
| main/ds3231.c:99-103 | the 12-hour reading subtracts one from the dial hour | the register for 1 AM reads as 0, and 12 noon reads as 23 | 12 AM is hour 0, 1..11 AM are 1..11, 12 PM is 12 | not executed | Ds3231.HourAsWrittenOffByOne | Ds3231.HourReadsBack |
| main/display_functions.c:298-306 | the twilight and night tests use `<=` sunset and `>=` sunrise, which holds at every hour | noon in June with brightness 15 sends 5 | no dimming in daylight, one step at sunrise and sunset, two at night | not executed | AlarmFacts.DimsAtNoon | AlarmFacts.DimmedByDaylight |
| main/json_clock.c:178 | the length guard measures the key "sound" instead of the value | a sound name of 20 bytes or more, such as "a-very-long-sound-nam.wav", passes and overflows the 20-byte buffer | refuse names that do not fit the buffer with the terminator | not executed | JsonClock.LongSoundPasses | JsonClock.Sound |
| main/time_task.c:109 | the sync counter is sampled twice, and a sample resets it | a sync that completes between the two samples makes the modulus see 0, so the DS3231 time replaces the network time | sample once per decision | not executed | TimeTask.SyncBetweenSamplesReadsRtc | TimeTask.SyncNeverReadsRtc |
| main/rotary_encoder.c:240-252 | `last_tick + DEBOUNCE_TICKS + 2` wraps in 32 bits | presses at ticks 2^32-6 and 2^32-5 both start the timer | measure the elapsed ticks modulo 2^32 | not executed | RotaryEncoder.BounceNearWrapRestarts | RotaryEncoder.PushDebounces |
| main/http_api_json.c:78-88 | the NULL check tests the pointer to the result, which is never NULL | a body that is not JSON is answered 400 | answer 405 | not executed | HttpApiJson.UnparsableBody | HttpApiJson.AfterParse |
