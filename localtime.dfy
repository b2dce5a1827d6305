// The patched newlib time-zone code: the POSIX TZ descriptor parser
// (IEEE Std 1003.1-2017, Base Definitions, section 8.3), the computation of
// the two yearly change-over instants, and localtime.
//
// The globals `tzinfo`, `_timezone`, `_internaldaylight` and `prev_tzenv`
// are the fields of one TzInfo object.
module LocalTime {
  import opened Wrappers
  import opened Civil
  import opened CScan

  /** One of the two rules: 'J' Julian day 1..365, 'D' zero-based day, 'M' month.week.day. */
  datatype Rule = Rule(ch: char, m: int, n: int, d: int, s: int, change: int, offset: int)

  /** The fields a month rule must have for the limits computation to stay in its tables. */
  predicate RuleOk(r: Rule) {
    r.ch != 'J' && r.ch != 'D' ==> 1 <= r.m <= 12 && 1 <= r.n <= 5 && 0 <= r.d <= 6
  }

  const InitialRule := Rule('J', 0, 0, 0, 0, 0, 0)

  /** An abstract view of the whole time-zone state. */
  datatype TzState = TzState(north: bool, year: int, rules: seq<Rule>,
                             daylight: bool, timezone: int, prev: Option<string>)

  predicate StateOk(st: TzState) {
    |st.rules| == 2 && RuleOk(st.rules[0]) && RuleOk(st.rules[1])
  }

  const InitialState := TzState(true, 0, [InitialRule, InitialRule], false, 0, None)

  // ---- change-over instants ---------------------------------------------

  /** The C expression for the days from 1970-01-01 to 1 January of `year`. */
  function YearDays(year: int): (r: int)
    requires year >= EpochYear
    ensures r == YearStart(year)
  {
    var years := year - EpochYear;
    assert CDiv(years - 1 + 2, 4) == (year - 1) / 4 - 492;
    assert CDiv(years - 1 + 70, 100) == (year - 1) / 100 - 19;
    assert CDiv(years - 1 + 370, 400) == (year - 1) / 400 - 4;
    years * 365 + CDiv(years - 1 + 2, 4) - CDiv(years - 1 + 70, 100) + CDiv(years - 1 + 370, 400)
  }

  /**
   * The zero-based day of a month on which a month rule falls, for a month
   * whose first day has day number `first` and which has `len` days: the
   * n-th weekday d of the month, or its last one when the month has fewer
   * than n of them.
   */
  function MonthRuleDay(first: int, len: int, n: int, d: int): (r: int)
    requires 7 <= len && 1 <= n && 0 <= d <= 6
    ensures 0 <= r < len
    ensures (first + r + EpochWday) % 7 == d
    ensures r / 7 <= n - 1
    ensures r / 7 == n - 1 || r + 7 >= len
  {
    var w := (first + EpochWday) % 7;
    var diff := (d - w) % 7;
    var k := if diff + 7 * (n - 1) < len then n - 1 else (len - 1 - diff) / 7;
    WeekdayShift(first + EpochWday, diff, k, d);
    diff + 7 * k
  }

  lemma WeekdayShift(a: int, diff: int, k: int, d: int)
    requires 0 <= d < 7 && diff == (d - a % 7) % 7
    ensures (a + diff + 7 * k) % 7 == d
  {
    var w := a % 7;
    assert a == 7 * (a / 7) + w;
    assert a + diff + 7 * k == 7 * (a / 7 + k) + (w + diff);
    assert w + diff == d || w + diff == d + 7;
  }

  /** The day number (from 1970-01-01) on which rule r falls in year y. */
  function RuleDay(r: Rule, y: int): int
    requires RuleOk(r)
  {
    if r.ch == 'J' then YearStart(y) + r.d - 1 + (if IsLeap(y) && r.d >= 60 then 1 else 0)
    else if r.ch == 'D' then YearStart(y) + r.d
    else
      var first := YearStart(y) + DaysBeforeMonth(y, r.m - 1);
      first + MonthRuleDay(first, MonthLength(y, r.m - 1), r.n, r.d)
  }

  /** The change-over instant in UTC: local day start plus the rule time plus the offset. */
  function ChangeInstant(r: Rule, y: int): int
    requires RuleOk(r)
  {
    RuleDay(r, y) * SecsPerDay + r.s + r.offset
  }

  /** The state after computing the limits for year y (unchanged before 1970). */
  function LimitsFor(st: TzState, y: int): (st': TzState)
    requires StateOk(st)
    ensures StateOk(st')
    ensures st'.prev == st.prev && st'.daylight == st.daylight && st'.timezone == st.timezone
    ensures st'.year == if y < EpochYear then st.year else y
  {
    if y < EpochYear then st
    else
      var rules := [st.rules[0].(change := ChangeInstant(st.rules[0], y)),
                    st.rules[1].(change := ChangeInstant(st.rules[1], y))];
      st.(year := y, rules := rules, north := rules[0].change < rules[1].change)
  }

  // ---- the parser, as a function of the old state and the TZ value --------

  const DefaultTime := 2 * SecsPerHour

  /** The rule used when a rule is missing: M3.2.0 for the first, M11.1.0 for the second. */
  function DefaultRule(r: Rule, i: int): Rule {
    if i == 0 then r.(ch := 'M', m := 3, n := 2, d := 0)
    else r.(ch := 'M', m := 11, n := 1, d := 0)
  }

  function HmsSeconds(t: Triple): int {
    t.c + SecsPerMin * t.b + SecsPerHour * t.a
  }

  /** An optional "/hh[:mm[:ss]]" after a rule; 02:00:00 when absent. */
  function RuleTime(r: Rule, s: string, p: nat): (Rule, nat) {
    var t := if At(s, p) == '/' then ScanTriple(s, p + 1, ':', 2, 0, 0) else Triple(0, 2, 0, 0, p);
    (r.(s := HmsSeconds(t)), if t.count > 0 then t.next else p)
  }

  /** "Mm.w.d" at q: None unless all three numbers are there and m, w, d are in range. */
  function MonthRule(r: Rule, s: string, q: nat): (o: Option<(Rule, nat)>)
    ensures o.Some? ==> RuleOk(o.value.0)
    ensures o.Some? ==> o.value.0.offset == r.offset && o.value.0.change == r.change
  {
    var t := ScanTriple(s, q + 1, '.', 0, 0, 0);
    if t.count != 3 || t.a < 1 || t.a > 12 || t.b < 1 || t.b > 5 || t.c > 6 then None
    else Some(RuleTime(r.(ch := 'M', m := t.a, n := t.b, d := t.c), s, t.next))
  }

  /** "Jn" or "n" at q, or the default rule when no number follows. */
  function DayRule(r: Rule, i: int, s: string, q: nat): (o: (Rule, nat))
    ensures RuleOk(o.0) && o.0.offset == r.offset && o.0.change == r.change
  {
    var ch := if At(s, q) == 'J' then 'J' else 'D';
    var q2 := if At(s, q) == 'J' then q + 1 else q;
    match ScanUnsigned(s, q2)
    case None => RuleTime(DefaultRule(r, i), s, q2)
    case Some(u) => RuleTime(r.(ch := ch, d := UShort(u.value)), s, u.next)
  }

  /** One "[,]rule[/time]" item for rule i; None when a month rule is malformed. */
  function RuleStep(r: Rule, i: int, s: string, p: nat): (o: Option<(Rule, nat)>)
    ensures o.Some? ==> RuleOk(o.value.0)
    ensures o.Some? ==> o.value.0.offset == r.offset && o.value.0.change == r.change
  {
    var q := if At(s, p) == ',' then p + 1 else p;
    if At(s, q) == 'M' then MonthRule(r, s, q) else Some(DayRule(r, i, s, q))
  }

  /** Rules i.. of the descriptor; the flag is false when the parser gave up. */
  function ParseRules(rules: seq<Rule>, s: string, p: nat, i: nat): (r: (seq<Rule>, bool))
    requires |rules| == 2 && i <= 2
    ensures |r.0| == 2
    ensures r.0[0].offset == rules[0].offset && r.0[1].offset == rules[1].offset
    ensures r.0[0].change == rules[0].change && r.0[1].change == rules[1].change
    ensures RuleOk(rules[0]) ==> RuleOk(r.0[0])
    ensures RuleOk(rules[1]) ==> RuleOk(r.0[1])
    decreases 2 - i
  {
    if i == 2 then (rules, true)
    else match RuleStep(rules[i], i, s, p)
      case None => (rules, false)
      case Some(step) => ParseRules(rules[i := step.0], s, step.1, i + 1)
  }

  /** A result of scanning "[+|-]hh[:mm[:ss]]": conversions made, signed seconds, next index. */
  datatype OffsetScan = OffsetScan(count: int, offset: int, next: nat)

  /** An offset: an optional sign, then up to three numbers; `next` stays after the sign when none is read. */
  function ScanOffset(s: string, p: nat): (o: OffsetScan)
    ensures o.next >= p
    ensures o.count == 0 <==> ScanUnsigned(s, if At(s, p) == '-' || At(s, p) == '+' then p + 1 else p).None?
  {
    var sign := if At(s, p) == '-' then -1 else 1;
    var q := if At(s, p) == '-' || At(s, p) == '+' then p + 1 else p;
    var t := ScanTriple(s, q, ':', 0, 0, 0);
    OffsetScan(t.count, sign * HmsSeconds(t), if t.count > 0 then t.next else q)
  }

  function SetOffset(rules: seq<Rule>, i: int, offset: int): (r: seq<Rule>)
    requires |rules| == 2 && 0 <= i < 2
    ensures |r| == 2 && r[i].offset == offset && r[1 - i] == rules[1 - i]
    ensures RuleOk(rules[0]) ==> RuleOk(r[0])
    ensures RuleOk(rules[1]) ==> RuleOk(r[1])
  {
    rules[i := rules[i].(offset := offset)]
  }

  /** What tzset_patch makes of the state for the TZ value `env`. */
  function TzsetResult(st: TzState, env: Option<string>): (r: TzState)
    requires StateOk(st)
    ensures StateOk(r) && r.prev == env && r.year == st.year
  {
    match env
    case None => st.(timezone := 0, daylight := false, prev := None)
    case Some(s) =>
      if st.prev == Some(s) then st else ParseDescriptor(st.(prev := Some(s)), s)
  }

  /** The standard-time name and offset; the parse stops when either is missing. */
  function ParseDescriptor(st: TzState, s: string): (r: TzState)
    requires StateOk(st)
    ensures StateOk(r) && r.prev == st.prev && r.year == st.year
  {
    match ScanName(s, if At(s, 0) == ':' then 1 else 0)
    case None => st
    case Some(p1) =>
      var o := ScanOffset(s, p1);
      if o.count < 1 then st
      else ParseDaylight(st.(rules := SetOffset(st.rules, 0, o.offset)), s, o.next)
  }

  /** The optional daylight name, its offset (an hour ahead by default) and the two rules. */
  function ParseDaylight(st: TzState, s: string, p: nat): (r: TzState)
    requires StateOk(st)
    ensures StateOk(r) && r.prev == st.prev && r.year == st.year
  {
    match ScanName(s, p)
    case None => st.(timezone := st.rules[0].offset, daylight := false)
    case Some(p4) => DaylightRules(st, s, p4)
  }

  /** After the daylight name: its offset, then the two rules. */
  function DaylightRules(st: TzState, s: string, p: nat): (r: TzState)
    requires StateOk(st)
    ensures StateOk(r) && r.prev == st.prev && r.year == st.year
  {
    DaylightAfterOffset(st, s, ScanOffset(s, p))
  }

  /** The daylight offset: the scanned one, or one hour ahead of standard time when none is given. */
  function DaylightOffset(st: TzState, o: OffsetScan): int
    requires StateOk(st)
  {
    if o.count <= 0 then st.rules[0].offset - SecsPerHour else o.offset
  }

  function DaylightAfterOffset(st: TzState, s: string, o: OffsetScan): (r: TzState)
    requires StateOk(st)
    ensures StateOk(r) && r.prev == st.prev && r.year == st.year
  {
    DaylightFinish(st, ParseRules(SetOffset(st.rules, 1, DaylightOffset(st, o)), s, o.next, 0), DaylightOffset(st, o))
  }

  /**
   * The state takes the rules parsed so far; with both rules read
   * (parsed.1), the change-over instants of the cached year are recomputed
   * and the flags set.
   */
  function DaylightFinish(st: TzState, parsed: (seq<Rule>, bool), off1: int): (r: TzState)
    requires |parsed.0| == 2 && RuleOk(parsed.0[0]) && RuleOk(parsed.0[1])
    ensures StateOk(r) && r.prev == st.prev && r.year == st.year
  {
    var st' := st.(rules := parsed.0);
    if !parsed.1 then st'
    else LimitsFor(st', st'.year).(timezone := parsed.0[0].offset, daylight := parsed.0[0].offset != off1)
  }

  /**
   * tm_isdst for instant t of year y once the change-over instants are those
   * of state st: 0 without daylight saving, -1 when the instants are not
   * those of y (a year before 1970), otherwise whether t lies in the
   * daylight-saving part of the year.
   */
  function DstFlag(st: TzState, t: int, y: int): (r: int)
    requires StateOk(st)
    ensures -1 <= r <= 1
    ensures !st.daylight ==> r == 0
    ensures st.daylight && st.year != y ==> r == -1
    ensures st.daylight && st.year == y && st.north ==>
      (r == 1 <==> st.rules[0].change <= t < st.rules[1].change)
    ensures st.daylight && st.year == y && !st.north ==>
      (r == 1 <==> t >= st.rules[0].change || t < st.rules[1].change)
  {
    if !st.daylight then 0
    else if st.year != y then -1
    else if st.north then (if st.rules[0].change <= t < st.rules[1].change then 1 else 0)
    else if t >= st.rules[0].change || t < st.rules[1].change then 1 else 0
  }

  // ---- the state object --------------------------------------------------

  class TzInfo {
    var north: bool
    var year: int
    var rules: seq<Rule>
    var daylight: bool
    var timezone: int
    var prevTz: Option<string>

    function State(): TzState
      reads this
    {
      TzState(north, year, rules, daylight, timezone, prevTz)
    }

    ghost predicate Valid()
      reads this
    {
      StateOk(State())
    }

    /** The static initial values of the globals. */
    constructor ()
      ensures Valid() && State() == InitialState
    {
      north, year, rules := true, 0, [InitialRule, InitialRule];
      daylight, timezone, prevTz := false, 0, None;
    }

    /**
     * The per-rule body of _patch_tzcalc_limits: the day of the rule's
     * change in year y, with the month loop and the last-week loop.
     */
    static method TransitionDay(r: Rule, y: int) returns (days: int)
      requires RuleOk(r) && y >= EpochYear
      ensures days == RuleDay(r, y)
    {
      var yearDays := YearDays(y);
      if r.ch == 'J' {
        days := yearDays + r.d + (if IsLeap(y) && r.d >= 60 then 1 else 0);
        days := days - 1;
      } else if r.ch == 'D' {
        days := yearDays + r.d;
      } else {
        var ip := MonthLengths[LeapIndex(y)];
        days := yearDays;
        var j := 1;
        while j < r.m
          invariant 1 <= j <= r.m
          invariant days == YearStart(y) + DaysBeforeMonth(y, j - 1)
        {
          DaysBeforeMonthStep(y, j - 1);
          days := days + ip[j - 1];
          j := j + 1;
        }
        var mDay := WeekInMonth(days, ip[j - 1], r.n, r.d);
        days := days + mDay;
      }
    }

    /**
     * The weekday search of a month rule in a month starting on day number
     * `first` with `len` days: the n-th weekday d, stepped back a week at a
     * time while it lies past the month's end.
     */
    static method WeekInMonth(first: int, len: int, n: int, d: int) returns (mDay: int)
      requires 7 <= len && 1 <= n && 0 <= d <= 6
      ensures mDay == MonthRuleDay(first, len, n, d)
    {
      var mWday := (EpochWday + first) % 7;
      var wdayDiff := d - mWday;
      if wdayDiff < 0 {
        wdayDiff := wdayDiff + 7;
      }
      mDay := (n - 1) * 7 + wdayDiff;
      ghost var start := mDay;
      while mDay >= len
        invariant mDay >= 0 && mDay % 7 == start % 7 && mDay <= start
        invariant mDay >= len - 7 || mDay == start
        decreases mDay
      {
        mDay := mDay - 7;
      }
      MonthDayIsRuleDay(first, len, n, d, start, mDay);
    }

    /** The change-over time of one rule, stored in UTC by adding the rule's offset. */
    static method ChangedRule(r: Rule, y: int) returns (r': Rule)
      requires RuleOk(r) && y >= EpochYear
      ensures r' == r.(change := ChangeInstant(r, y)) && RuleOk(r')
    {
      var days := TransitionDay(r, y);
      r' := r.(change := days * SecsPerDay + r.s + r.offset);
    }

    /** _patch_tzcalc_limits: nothing before 1970, otherwise cache the year and both instants. */
    method CalcLimits(y: int) returns (ok: bool)
      requires Valid()
      modifies this
      ensures Valid()
      ensures ok == (y >= EpochYear)
      ensures State() == LimitsFor(old(State()), y)
    {
      if y < EpochYear {
        return false;
      }
      year := y;
      var i := 0;
      while i < 2
        invariant 0 <= i <= 2 && |rules| == 2
        invariant forall k :: i <= k < 2 ==> rules[k] == old(rules[k])
        invariant forall k :: 0 <= k < i ==>
          rules[k] == old(rules[k]).(change := ChangeInstant(old(rules[k]), y))
        invariant year == y && north == old(north)
        invariant daylight == old(daylight) && timezone == old(timezone) && prevTz == old(prevTz)
      {
        var r := ChangedRule(rules[i], y);
        rules := rules[i := r];
        i := i + 1;
      }
      north := rules[0].change < rules[1].change;
      ok := true;
      assert rules == [rules[0], rules[1]];
    }

    /** One pass of the rule loop of tzset_patch: "[,]rule[/time]" for rule i. */
    static method ParseRuleItem(r0: Rule, i: int, s: string, p0: nat) returns (ok: bool, r: Rule, p: nat)
      ensures ok == RuleStep(r0, i, s, p0).Some?
      ensures ok ==> RuleStep(r0, i, s, p0).value == (r, p)
    {
      p := p0;
      if At(s, p) == ',' {
        p := p + 1;
      }
      r := r0;
      ghost var q := p;
      if At(s, p) == 'M' {
        var t := ScanTriple(s, p + 1, '.', 0, 0, 0);
        if t.count != 3 || t.a < 1 || t.a > 12 || t.b < 1 || t.b > 5 || t.c > 6 {
          return false, r, p;
        }
        r := r.(ch := 'M', m := t.a, n := t.b, d := t.c);
        p := t.next;
        r, p := ParseRuleTime(r, s, p);
      } else {
        var ch := 'D';
        if At(s, p) == 'J' {
          ch := 'J';
          p := p + 1;
        }
        var u := ScanUnsigned(s, p);
        if u.None? {
          if i == 0 {
            r := r.(ch := 'M', m := 3, n := 2, d := 0);
          } else {
            r := r.(ch := 'M', m := 11, n := 1, d := 0);
          }
        } else {
          r := r.(ch := ch, d := UShort(u.value.value));
          p := u.value.next;
        }
        r, p := ParseRuleTime(r, s, p);
      }
      ok := true;
    }

    /** The optional "/hh[:mm[:ss]]" of a rule, 02:00:00 by default. */
    static method ParseRuleTime(r0: Rule, s: string, p0: nat) returns (r: Rule, p: nat)
      ensures (r, p) == RuleTime(r0, s, p0)
      ensures r == r0.(s := r.s)
    {
      p := p0;
      var t := Triple(0, 2, 0, 0, p);
      if At(s, p) == '/' {
        t := ScanTriple(s, p + 1, ':', 2, 0, 0);
      }
      r := r0.(s := HmsSeconds(t));
      if t.count > 0 {
        p := t.next;
      }
    }

    /** The sign and "hh[:mm[:ss]]" of an offset, read with a moving cursor. */
    static method ParseOffset(s: string, p0: nat) returns (o: OffsetScan)
      ensures o == ScanOffset(s, p0)
    {
      var p := p0;
      var sign := 1;
      if At(s, p) == '-' {
        sign := -1;
        p := p + 1;
      } else if At(s, p) == '+' {
        p := p + 1;
      }
      var hms := ScanTriple(s, p, ':', 0, 0, 0);
      if hms.count > 0 {
        p := hms.next;
      }
      o := OffsetScan(hms.count, sign * HmsSeconds(hms), p);
    }

    /** tzset_patch: parse the TZ value with a moving cursor and update the globals. */
    method Tzset(env: Option<string>)
      requires Valid()
      modifies this
      ensures Valid()
      ensures State() == TzsetResult(old(State()), env)
    {
      if env.None? {
        timezone, daylight, prevTz := 0, false, None;
        return;
      }
      var s := env.value;
      if prevTz == Some(s) {
        return;
      }
      prevTz := Some(s);
      var p: nat := 0;
      if At(s, p) == ':' {
        p := p + 1;
      }
      var name := ScanName(s, p);
      if name.None? {
        return;
      }
      var o := ParseOffset(s, name.value);
      if o.count < 1 {
        return;
      }
      rules := rules[0 := rules[0].(offset := o.offset)];
      Daylight(s, o.next);
    }

    /** The loop of tzset_patch over the two ",rule[/time]" items; false when it gave up. */
    method ParseRuleList(s: string, p0: nat) returns (done: bool)
      requires Valid()
      modifies this
      ensures Valid()
      ensures (rules, done) == ParseRules(old(rules), s, p0, 0)
      ensures north == old(north) && year == old(year) && daylight == old(daylight)
      ensures timezone == old(timezone) && prevTz == old(prevTz)
    {
      var p := p0;
      var i := 0;
      while i < 2
        invariant 0 <= i <= 2 && Valid()
        invariant ParseRules(rules, s, p, i) == ParseRules(old(rules), s, p0, 0)
        invariant prevTz == old(prevTz) && timezone == old(timezone) && daylight == old(daylight)
        invariant north == old(north) && year == old(year)
      {
        var ok, r;
        ok, r, p := ParseRuleItem(rules[i], i, s, p);
        if !ok {
          return false;
        }
        rules := rules[i := r];
        i := i + 1;
      }
      done := true;
    }

    /** The part of tzset_patch after the standard offset. */
    method Daylight(s: string, p0: nat)
      requires Valid()
      modifies this
      ensures Valid()
      ensures State() == ParseDaylight(old(State()), s, p0)
    {
      var name := ScanName(s, p0);
      if name.None? {
        timezone := rules[0].offset;
        daylight := false;
        return;
      }
      DaylightAfterName(s, name.value);
    }

    /** The daylight offset and the rules that follow the daylight name. */
    method DaylightAfterName(s: string, p0: nat)
      requires Valid()
      modifies this
      ensures Valid()
      ensures State() == DaylightRules(old(State()), s, p0)
    {
      ghost var st := State();
      var o := ParseOffset(s, p0);
      var off1 := if o.count <= 0 then rules[0].offset - SecsPerHour else o.offset;
      assert off1 == DaylightOffset(st, o);
      rules := SetOffset(rules, 1, off1);
      var done := ParseRuleList(s, o.next);
      assert DaylightRules(st, s, p0) == DaylightFinish(st, (rules, done), off1);
      if done {
        FinishLimits(off1);
      }
    }

    /** The change-over instants of the cached year and the two flags. */
    method FinishLimits(off1: int)
      requires Valid()
      modifies this
      ensures Valid()
      ensures State() == DaylightFinish(old(State()), (old(rules), true), off1)
    {
      var _ := CalcLimits(year);
      timezone := rules[0].offset;
      daylight := rules[0].offset != off1;
    }

    /**
     * localtime_patch: the UTC record of t, the daylight-saving decision and
     * the offset of the chosen rule applied to the fields.
     */
    method Localtime(t: int) returns (tm: Tm)
      requires Valid()
      modifies this
      ensures Valid()
      ensures var y := Gmtime(t).year + YearBase;
        State() == if old(daylight) && old(year) != y then LimitsFor(old(State()), y) else old(State())
      ensures tm.isdst == DstFlag(State(), t, Gmtime(t).year + YearBase)
      ensures var offset := if tm.isdst == 1 then rules[1].offset else rules[0].offset;
        -SecsPerDay < offset < SecsPerDay ==> ValidTm(tm) && TmToEpoch(tm) == t - offset
    {
      var isdst := DecideDst(t, Gmtime(t).year + YearBase);
      var offset := if isdst == 1 then rules[1].offset else rules[0].offset;
      tm := LocalRecord(t, isdst, offset);
    }

    /**
     * The daylight-saving decision for instant t of year y: the change-over
     * instants are recomputed when y is not the cached year.
     */
    method DecideDst(t: int, y: int) returns (isdst: int)
      requires Valid()
      modifies this
      ensures Valid()
      ensures State() == if old(daylight) && old(year) != y then LimitsFor(old(State()), y) else old(State())
      ensures isdst == DstFlag(State(), t, y)
    {
      if daylight {
        var cached := y == year;
        if !cached {
          cached := CalcLimits(y);
        }
        if cached {
          var inDst := if north then t >= rules[0].change && t < rules[1].change
                       else t >= rules[0].change || t < rules[1].change;
          isdst := if inDst then 1 else 0;
        } else {
          isdst := -1;
        }
      } else {
        isdst := 0;
      }
    }
  }

  /** gmtime_r of t, with the flag isdst, shifted by the offset in effect. */
  method LocalRecord(t: int, isdst: int, offset: int) returns (tm: Tm)
    ensures tm.isdst == isdst
    ensures -SecsPerDay < offset < SecsPerDay ==> ValidTm(tm) && TmToEpoch(tm) == t - offset
  {
    var g := GmtimeR(t);
    IsdstIrrelevant(g, isdst);
    tm := ApplyOffset(g.(isdst := isdst), offset);
  }

  /** The C library's gmtime_r, which localtime_patch calls first. */
  method GmtimeR(t: int) returns (tm: Tm)
    ensures tm == Gmtime(t)
    ensures ValidTm(tm) && tm.isdst == 0 && TmToEpoch(tm) == t
  {
    tm := Gmtime(t);
  }

  /**
   * The carry steps of localtime_patch: the offset is subtracted from the
   * time of day of a valid UTC record, and a day carried out of the hour
   * moves the date one day forward or back.
   */
  method ApplyOffset(g: Tm, offset: int) returns (res: Tm)
    requires ValidTm(g)
    ensures res.isdst == g.isdst
    ensures -SecsPerDay < offset < SecsPerDay ==> ValidTm(res) && TmToEpoch(res) == TmToEpoch(g) - offset
  {
    var sec, min, hour := ShiftClock(g.sec, g.min, g.hour, offset);
    ClockIrrelevant(g, sec, min, hour);
    ClockIrrelevant(g, sec, min, hour - 24);
    ClockIrrelevant(g, sec, min, hour + 24);
    if hour >= 24 {
      res := NextDay(g.(sec := sec, min := min, hour := hour - 24));
    } else if hour < 0 {
      res := PreviousDay(g.(sec := sec, min := min, hour := hour + 24));
    } else {
      res := g.(sec := sec, min := min, hour := hour);
    }
  }

  /**
   * The offset split with C's truncating division into hours, minutes and
   * seconds and subtracted field by field, with a carry between seconds,
   * minutes and hours; the hour is left for the caller to bring into range.
   */
  method ShiftClock(sec0: int, min0: int, hour0: int, offset: int) returns (sec: int, min: int, hour: int)
    requires 0 <= sec0 < 60 && 0 <= min0 < 60 && 0 <= hour0 < 24
    ensures hour * SecsPerHour + min * SecsPerMin + sec == hour0 * SecsPerHour + min0 * SecsPerMin + sec0 - offset
    ensures -SecsPerDay < offset < SecsPerDay ==> 0 <= sec < 60 && 0 <= min < 60 && -24 <= hour < 48
  {
    var hours := CDiv(offset, SecsPerHour);
    var rest := CMod(offset, SecsPerHour);
    var mins := CDiv(rest, SecsPerMin);
    var secs := CMod(rest, SecsPerMin);
    sec, min, hour := sec0 - secs, min0 - mins, hour0 - hours;
    if sec >= SecsPerMin {
      min, sec := min + 1, sec - SecsPerMin;
    } else if sec < 0 {
      min, sec := min - 1, sec + SecsPerMin;
    }
    if min >= 60 {
      hour, min := hour + 1, min - 60;
    } else if min < 0 {
      hour, min := hour - 1, min + 60;
    }
  }

  /** The forward day carry: day of year, weekday, day of month, month, year. */
  method NextDay(g: Tm) returns (r: Tm)
    requires ValidTmDate(g)
    ensures ValidTmDate(r) && DateOf(r) == NextDate(DateOf(g))
    ensures TmToEpoch(r) == TmToEpoch(g) + SecsPerDay
    ensures r.sec == g.sec && r.min == g.min && r.hour == g.hour && r.isdst == g.isdst
  {
    var wday := g.wday + 1;
    if wday > 6 {
      wday := 0;
    }
    var mday, mon, year, yday := DateAfter(g.mday, g.mon, g.year, g.yday);
    ghost var e := NextDate(DateOf(g));
    assert e == Date(year + YearBase, mon, mday, yday);
    assert wday == (g.wday + 1) % 7;
    r := g.(mday := mday, mon := mon, year := year, wday := wday, yday := yday);
    DayStepRecord(g, r, e, 1);
  }

  /** The forward carry of the date fields, with the month lengths of the record's year. */
  method DateAfter(mday0: int, mon0: int, year0: int, yday0: int) returns (mday: int, mon: int, year: int, yday: int)
    requires ValidDate(Date(year0 + YearBase, mon0, mday0, yday0))
    ensures Date(year + YearBase, mon, mday, yday) == NextDate(Date(year0 + YearBase, mon0, mday0, yday0))
  {
    var ip := MonthLengths[LeapIndex(year0 + YearBase)];
    mday, mon, year, yday := mday0 + 1, mon0, year0, yday0 + 1;
    if mday > ip[mon] {
      mday := mday - ip[mon];
      mon := mon + 1;
      if mon == 12 {
        mon, year, yday := 0, year + 1, 0;
      }
    }
  }

  /**
   * The backward day carry. Before 1 January it gives 31 December of the
   * prior year, whose day of year is 364 plus one in a leap year.
   */
  method PreviousDay(g: Tm) returns (r: Tm)
    requires ValidTmDate(g)
    ensures ValidTmDate(r) && DateOf(r) == PreviousDate(DateOf(g))
    ensures TmToEpoch(r) == TmToEpoch(g) - SecsPerDay
    ensures r.sec == g.sec && r.min == g.min && r.hour == g.hour && r.isdst == g.isdst
  {
    var wday := g.wday - 1;
    if wday < 0 {
      wday := 6;
    }
    var mday, mon, year, yday := DateBefore(g.mday, g.mon, g.year, g.yday);
    ghost var e := PreviousDate(DateOf(g));
    assert e == Date(year + YearBase, mon, mday, yday);
    assert wday == (g.wday + -1) % 7;
    r := g.(mday := mday, mon := mon, year := year, wday := wday, yday := yday);
    DayStepRecord(g, r, e, -1);
  }

  /** The backward carry of the date fields, with the month lengths of the record's year. */
  method DateBefore(mday0: int, mon0: int, year0: int, yday0: int) returns (mday: int, mon: int, year: int, yday: int)
    requires ValidDate(Date(year0 + YearBase, mon0, mday0, yday0))
    ensures Date(year + YearBase, mon, mday, yday) == PreviousDate(Date(year0 + YearBase, mon0, mday0, yday0))
  {
    var ip := MonthLengths[LeapIndex(year0 + YearBase)];
    mday, mon, year, yday := mday0 - 1, mon0, year0, yday0 - 1;
    if mday == 0 {
      mon := mon - 1;
      if mon < 0 {
        mon, year := 11, year - 1;
        yday := 364 + LeapIndex(year + YearBase);
      }
      mday := ip[mon];
    }
  }

  /** The closing steps of the month-rule computation agree with MonthRuleDay. */
  lemma MonthDayIsRuleDay(first: int, len: int, n: int, d: int, start: int, mDay: int)
    requires 7 <= len && 1 <= n && 0 <= d <= 6
    requires start == (n - 1) * 7
      + (d - (EpochWday + first) % 7 + (if d - (EpochWday + first) % 7 < 0 then 7 else 0))
    requires mDay >= 0 && mDay % 7 == start % 7 && mDay <= start
    requires mDay < len
    requires mDay >= len - 7 || mDay == start
    ensures mDay == MonthRuleDay(first, len, n, d)
  {
    var w := (first + EpochWday) % 7;
    var diff := (d - w) % 7;
    assert start == (n - 1) * 7 + diff;
    assert start % 7 == diff;
    var j := mDay / 7;
    assert mDay == diff + 7 * j;
    if diff + 7 * (n - 1) < len {
      assert mDay == start;
    } else {
      assert 7 * j <= len - 1 - diff < 7 * j + 7;
      assert j == (len - 1 - diff) / 7;
    }
  }
}
