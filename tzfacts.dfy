// Properties of the time-zone model that relate several of its operations:
// what tzset makes of a descriptor, the defaults it fills in, and the
// change-over instants of the firmware's default descriptor.
module TzFacts {
  import opened Wrappers
  import opened Civil
  import opened CScan
  import opened LocalTime

  // ---- tzset as a whole ---------------------------------------------------

  /** Without TZ the zone is UTC without daylight saving, and the remembered string is dropped. */
  lemma TzsetWithoutTz(st: TzState)
    requires StateOk(st)
    ensures var r := TzsetResult(st, None);
      r.timezone == 0 && !r.daylight && r.prev == None && r.rules == st.rules
  {
  }

  /** A second tzset with the same TZ value changes nothing. */
  lemma TzsetIdempotent(st: TzState, env: Option<string>)
    requires StateOk(st)
    ensures TzsetResult(TzsetResult(st, env), env) == TzsetResult(st, env)
  {
  }

  /**
   * What a new descriptor does to the flags: the parse gives up and leaves
   * _timezone and the daylight flag as they were; or there is no daylight
   * name, so there is no daylight saving and _timezone is the standard
   * offset; or both rules are read, _timezone is the standard offset, the
   * daylight flag says whether the two offsets differ and the change-over
   * instants are those of the cached year.
   */
  lemma TzsetOutcome(st: TzState, s: string)
    requires StateOk(st) && st.prev != Some(s)
    ensures var r := TzsetResult(st, Some(s));
      || (r.timezone == st.timezone && r.daylight == st.daylight)
      || (!r.daylight && r.timezone == r.rules[0].offset)
      || (&& r.timezone == r.rules[0].offset
          && r.daylight == (r.rules[0].offset != r.rules[1].offset)
          && (r.year >= EpochYear ==>
                r.rules[0].change == ChangeInstant(r.rules[0], r.year)
                && r.rules[1].change == ChangeInstant(r.rules[1], r.year)))
  {
    var st1 := st.(prev := Some(s));
    match ScanName(s, if At(s, 0) == ':' then 1 else 0)
    case None =>
    case Some(p1) =>
      var o := ScanOffset(s, p1);
      if o.count >= 1 {
        var st2 := st1.(rules := SetOffset(st1.rules, 0, o.offset));
        match ScanName(s, o.next)
        case None =>
        case Some(p4) =>
          DaylightOutcome(st2, s, ScanOffset(s, p4));
      }
  }

  lemma DaylightOutcome(st: TzState, s: string, o: OffsetScan)
    requires StateOk(st)
    ensures var r := DaylightAfterOffset(st, s, o);
      || (r.timezone == st.timezone && r.daylight == st.daylight)
      || (&& r.timezone == r.rules[0].offset
          && r.daylight == (r.rules[0].offset != r.rules[1].offset)
          && (r.year >= EpochYear ==>
                r.rules[0].change == ChangeInstant(r.rules[0], r.year)
                && r.rules[1].change == ChangeInstant(r.rules[1], r.year)))
  {
    var off1 := DaylightOffset(st, o);
    var parsed := ParseRules(SetOffset(st.rules, 1, off1), s, o.next, 0);
    assert parsed.0[1].offset == off1;
    var r := DaylightFinish(st, parsed, off1);
    if parsed.1 {
      var st' := st.(rules := parsed.0);
      var lim := LimitsFor(st', st'.year);
      assert r == lim.(timezone := parsed.0[0].offset, daylight := parsed.0[0].offset != off1);
      assert r.rules == lim.rules;
      if st'.year >= EpochYear {
        ChangeIgnoresChange(parsed.0[0], st'.year);
        ChangeIgnoresChange(parsed.0[1], st'.year);
      }
    }
  }

  /** The change-over instant of a rule does not depend on the one it held before. */
  lemma ChangeIgnoresChange(r: Rule, y: int)
    requires RuleOk(r)
    ensures ChangeInstant(r.(change := ChangeInstant(r, y)), y) == ChangeInstant(r, y)
  {
  }

  /**
   * Whatever happens to the rules, a daylight name makes the daylight
   * offset the scanned one, or the standard offset less an hour when no
   * offset follows the name.
   */
  lemma DaylightOffsetAfterName(st: TzState, s: string, p: nat)
    requires StateOk(st)
    ensures var r := DaylightRules(st, s, p);
      && r.rules[0].offset == st.rules[0].offset
      && r.rules[1].offset == (if ScanOffset(s, p).count <= 0 then st.rules[0].offset - SecsPerHour
                               else ScanOffset(s, p).offset)
  {
  }

  // ---- defaults of the rule items -----------------------------------------

  /** A rule item without a number after it: the default rule, M3.2.0 first and M11.1.0 second. */
  lemma MissingRuleDefaults(r: Rule, i: int, s: string, p: nat)
    requires var q := if At(s, p) == ',' then p + 1 else p;
      At(s, q) != 'M' && ScanUnsigned(s, if At(s, q) == 'J' then q + 1 else q).None?
    ensures var o := RuleStep(r, i, s, p);
      && o.Some? && o.value.0.ch == 'M' && o.value.0.d == 0
      && (if i == 0 then o.value.0.m == 3 && o.value.0.n == 2 else o.value.0.m == 11 && o.value.0.n == 1)
  {
  }

  /** A rule without "/time", or with a '/' but no number, changes at 02:00:00. */
  lemma MissingTimeDefault(r: Rule, s: string, p: nat)
    requires At(s, p) != '/' || ScanUnsigned(s, p + 1).None?
    ensures RuleTime(r, s, p).0.s == DefaultTime && RuleTime(r, s, p).1 == p
  {
  }

  /** A month rule with its month, week or day out of range stops the parse. */
  lemma BadMonthRuleStops(r: Rule, i: int, s: string, p: nat)
    requires var q := if At(s, p) == ',' then p + 1 else p;
      && At(s, q) == 'M'
      && var t := ScanTriple(s, q + 1, '.', 0, 0, 0);
         t.count == 3 && (t.a < 1 || t.a > 12 || t.b < 1 || t.b > 5 || t.c > 6)
    ensures RuleStep(r, i, s, p).None?
  {
  }

  // ---- the rule forms on the calendar -------------------------------------

  /** A zero-based day rule "n" names day n of the year, 29 February included. */
  lemma DayRuleOnCalendar(r: Rule, y: int)
    requires r.ch == 'D' && 0 <= r.d < YearLength(y)
    ensures var date := DayOfYear(y, r.d);
      RuleDay(r, y) == DaysFromCivil(date.year, date.mon, date.mday)
  {
  }

  /**
   * A Julian rule "Jn" (1 <= n <= 365) names the n-th day of the year
   * counted without 29 February: never that day itself.
   */
  lemma JulianRuleOnCalendar(r: Rule, y: int)
    requires r.ch == 'J' && 1 <= r.d <= 365
    ensures var doy := r.d - 1 + (if IsLeap(y) && r.d >= 60 then 1 else 0);
      && 0 <= doy < YearLength(y)
      && RuleDay(r, y) == YearStart(y) + doy
      && var date := DayOfYear(y, doy);
         !(date.mon == 1 && date.mday == 29)
  {
    var doy := r.d - 1 + (if IsLeap(y) && r.d >= 60 then 1 else 0);
    var date := DayOfYear(y, doy);
    assert date.yday == doy;
    assert DaysBeforeMonth(y, 1) == 31;
    assert !IsLeap(y) ==> MonthLength(y, 1) == 28;
    assert IsLeap(y) ==> doy != 59;
  }

  // ---- the firmware's default descriptor ----------------------------------

  /** The default TZ value of the firmware: Central European time. */
  const DefaultTz := "CET-1CES-2,M3.5.0/2,M10.5.0/3"

  /** The characters of DefaultTz, and the terminator after them. */
  predicate DefaultTzChars(s: string) {
    DefaultTzHead(s) && DefaultTzTail(s)
  }

  predicate DefaultTzHead(s: string) {
    At(s, 0) == 'C' && At(s, 1) == 'E' && At(s, 2) == 'T' && At(s, 3) == '-' && At(s, 4) == '1' && At(s, 5) == 'C' && At(s, 6) == 'E' && At(s, 7) == 'S' && At(s, 8) == '-' && At(s, 9) == '2' && At(s, 10) == ',' && At(s, 11) == 'M' && At(s, 12) == '3' && At(s, 13) == '.' && At(s, 14) == '5'
  }

  predicate DefaultTzTail(s: string) {
    At(s, 15) == '.' && At(s, 16) == '0' && At(s, 17) == '/' && At(s, 18) == '2' && At(s, 19) == ',' && At(s, 20) == 'M' && At(s, 21) == '1' && At(s, 22) == '0' && At(s, 23) == '.' && At(s, 24) == '5' && At(s, 25) == '.' && At(s, 26) == '0' && At(s, 27) == '/' && At(s, 28) == '3' && At(s, 29) == '\0'
  }

  lemma DefaultTzSpelling()
    ensures DefaultTzChars(DefaultTz)
  {
    DefaultTzHeadSpelling();
    DefaultTzTailSpelling();
  }

  lemma DefaultTzHeadSpelling()
    ensures DefaultTzHead(DefaultTz)
  {
    assert DefaultTz[0] == 'C';
    assert DefaultTz[1] == 'E';
    assert DefaultTz[2] == 'T';
    assert DefaultTz[3] == '-';
    assert DefaultTz[4] == '1';
    assert DefaultTz[5] == 'C';
    assert DefaultTz[6] == 'E';
    assert DefaultTz[7] == 'S';
    assert DefaultTz[8] == '-';
    assert DefaultTz[9] == '2';
    assert DefaultTz[10] == ',';
    assert DefaultTz[11] == 'M';
    assert DefaultTz[12] == '3';
    assert DefaultTz[13] == '.';
    assert DefaultTz[14] == '5';
  }

  lemma DefaultTzTailSpelling()
    ensures DefaultTzTail(DefaultTz)
  {
    assert DefaultTz[15] == '.';
    assert DefaultTz[16] == '0';
    assert DefaultTz[17] == '/';
    assert DefaultTz[18] == '2';
    assert DefaultTz[19] == ',';
    assert DefaultTz[20] == 'M';
    assert DefaultTz[21] == '1';
    assert DefaultTz[22] == '0';
    assert DefaultTz[23] == '.';
    assert DefaultTz[24] == '5';
    assert DefaultTz[25] == '.';
    assert DefaultTz[26] == '0';
    assert DefaultTz[27] == '/';
    assert DefaultTz[28] == '3';
    assert |DefaultTz| == 29;
  }

  lemma DefaultTzNames(s: string)
    requires DefaultTzChars(s)
    ensures ScanName(s, 0) == Some(3) && ScanName(s, 5) == Some(8)
  {
    assert NameRun(s, 3, 7) == 0;
    assert NameRun(s, 8, 7) == 0;
  }

  lemma DefaultTzOffsets(s: string)
    requires DefaultTzChars(s)
    ensures ScanOffset(s, 3) == OffsetScan(1, -3600, 5)
    ensures ScanOffset(s, 8) == OffsetScan(1, -7200, 10)
  {
    assert DigitRun(s, 4) == 1;
    assert ScanUnsigned(s, 4) == Some(Num(1, 5));
    assert DigitRun(s, 9) == 1;
    assert ScanUnsigned(s, 9) == Some(Num(2, 10));
  }

  lemma DefaultTzDigits(s: string)
    requires DefaultTzChars(s)
    ensures ScanUnsigned(s, 12) == Some(Num(3, 13)) && ScanUnsigned(s, 14) == Some(Num(5, 15))
    ensures ScanUnsigned(s, 16) == Some(Num(0, 17)) && ScanUnsigned(s, 18) == Some(Num(2, 19))
  {
  }

  lemma DefaultTzDigits2(s: string)
    requires DefaultTzChars(s)
    ensures ScanUnsigned(s, 21) == Some(Num(10, 23)) && ScanUnsigned(s, 24) == Some(Num(5, 25))
    ensures ScanUnsigned(s, 26) == Some(Num(0, 27)) && ScanUnsigned(s, 28) == Some(Num(3, 29))
  {
    assert DigitRun(s, 21) == 2;
  }

  lemma DefaultTzFirstRule(s: string, r: Rule)
    requires DefaultTzChars(s)
    ensures RuleStep(r, 0, s, 10) == Some((r.(ch := 'M', m := 3, n := 5, d := 0, s := 7200), 19))
  {
    DefaultTzDigits(s);
    assert ScanTriple(s, 12, '.', 0, 0, 0) == Triple(3, 3, 5, 0, 17);
    assert ScanTriple(s, 18, ':', 2, 0, 0) == Triple(1, 2, 0, 0, 19);
  }

  lemma DefaultTzSecondRule(s: string, r: Rule)
    requires DefaultTzChars(s)
    ensures RuleStep(r, 1, s, 19) == Some((r.(ch := 'M', m := 10, n := 5, d := 0, s := 10800), 29))
  {
    DefaultTzDigits2(s);
    assert ScanTriple(s, 21, '.', 0, 0, 0) == Triple(3, 10, 5, 0, 27);
    assert ScanTriple(s, 28, ':', 2, 0, 0) == Triple(1, 3, 0, 0, 29);
  }

  lemma DefaultTzRules(s: string, rules: seq<Rule>)
    requires DefaultTzChars(s) && |rules| == 2
    ensures ParseRules(rules, s, 10, 0) ==
      ([rules[0].(ch := 'M', m := 3, n := 5, d := 0, s := 7200),
        rules[1].(ch := 'M', m := 10, n := 5, d := 0, s := 10800)], true)
  {
    var r0 := rules[0].(ch := 'M', m := 3, n := 5, d := 0, s := 7200);
    var r1 := rules[1].(ch := 'M', m := 10, n := 5, d := 0, s := 10800);
    DefaultTzFirstRule(s, rules[0]);
    DefaultTzSecondRule(s, rules[1]);
    var rules1 := rules[0 := r0];
    assert rules1[1] == rules[1];
    assert ParseRules(rules, s, 10, 0) == ParseRules(rules1, s, 19, 1);
    assert ParseRules(rules1, s, 19, 1) == ParseRules(rules1[1 := r1], s, 29, 2);
    assert rules1[1 := r1] == [r0, r1];
  }

  lemma DefaultTzChanges2021(r0: Rule, r1: Rule)
    requires r0.ch == 'M' && r0.m == 3 && r0.n == 5 && r0.d == 0 && r0.s == 7200 && r0.offset == -3600
    requires r1.ch == 'M' && r1.m == 10 && r1.n == 5 && r1.d == 0 && r1.s == 10800 && r1.offset == -7200
    ensures ChangeInstant(r0, 2021) == 1616893200
    ensures ChangeInstant(r1, 2021) == 1635642000
  {
    assert YearStart(2021) == 18628;
    assert MonthRuleDay(18628 + 59, 31, 5, 0) == 27;
    assert MonthRuleDay(18628 + 273, 31, 5, 0) == 30;
  }

  /**
   * With 2021 cached, the default descriptor puts the change-over instants
   * at 2021-03-28 01:00 UTC and 2021-10-31 01:00 UTC, in a northern zone.
   */
  lemma DefaultTzIn2021(st: TzState)
    requires StateOk(st) && st.year == 2021 && st.prev != Some(DefaultTz)
    ensures var r := TzsetResult(st, Some(DefaultTz));
      && r.rules[0].offset == -3600 && r.rules[1].offset == -7200
      && r.rules[0].change == 1616893200 && r.rules[1].change == 1635642000
      && r.north && r.daylight && r.timezone == -3600 && r.prev == Some(DefaultTz)
  {
    var s := DefaultTz;
    DefaultTzSpelling();
    DefaultTzNames(s);
    DefaultTzOffsets(s);
    var st1 := st.(prev := Some(s));
    var st2 := st1.(rules := SetOffset(st1.rules, 0, -3600));
    assert TzsetResult(st, Some(s)) == ParseDescriptor(st1, s);
    assert ParseDescriptor(st1, s) == ParseDaylight(st2, s, 5);
    var o := OffsetScan(1, -7200, 10);
    assert ParseDaylight(st2, s, 5) == DaylightAfterOffset(st2, s, o);
    var rules3 := SetOffset(st2.rules, 1, -7200);
    DefaultTzRules(s, rules3);
    var r0 := rules3[0].(ch := 'M', m := 3, n := 5, d := 0, s := 7200);
    var r1 := rules3[1].(ch := 'M', m := 10, n := 5, d := 0, s := 10800);
    assert DaylightAfterOffset(st2, s, o) == DaylightFinish(st2, ([r0, r1], true), -7200);
    DefaultTzChanges2021(r0, r1);
  }
}
