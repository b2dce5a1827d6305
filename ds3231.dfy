// The DS3231 real-time clock driver: binary-coded decimal registers, the
// seven time registers written and read over I2C, and the temperature
// registers. The I2C transfers themselves are left out: the bytes read
// are parameters and the bytes written are results.
module Ds3231 {
  import opened Civil

  const EspOk := 0

  const TwelveHourFlag := 0x40
  const PmFlag := 0x20
  const CenturyFlag := 0x80

  /** A value converted to `uint8_t`. */
  function U8(x: int): (b: int)
    ensures 0 <= b < 256
    ensures 0 <= x < 256 ==> b == x
  {
    x % 256
  }

  /** A value converted to `int8_t` (two's complement). */
  function S8(b: int): (v: int)
    requires 0 <= b < 256
    ensures -128 <= v < 128 && U8(v) == b
  {
    if b < 128 then b else b - 256
  }

  /** Bit k of a non-negative value. */
  predicate HasBit(x: int, bit: int)
    requires bit > 0
  {
    (x / bit) % 2 == 1
  }

  /** bcd2dec: tens in the high nibble, units in the low one. */
  function Bcd2Dec(val: int): (r: int)
    requires 0 <= val < 256
    ensures 0 <= r <= 165
  {
    (val / 16) * 10 + val % 16
  }

  /** dec2bcd, with the `uint8_t` result truncating values of 160 and more. */
  function Dec2Bcd(val: int): (r: int)
    requires 0 <= val < 256
    ensures 0 <= r < 256
  {
    U8((val / 10) * 16 + val % 10)
  }

  predicate IsBcd(b: int) {
    0 <= b < 256 && b / 16 <= 9 && b % 16 <= 9
  }

  /** The byte with high nibble t and low nibble u. */
  lemma Nibbles(t: int, u: int)
    requires 0 <= t <= 15 && 0 <= u <= 15
    ensures (16 * t + u) / 16 == t && (16 * t + u) % 16 == u
  {
  }

  /** A byte with the 12-hour flag, the PM flag when `pm`, and c in the five low bits. */
  lemma FlagBits(c: int, pm: bool)
    requires 0 <= c < 32
    ensures var b := TwelveHourFlag + (if pm then PmFlag else 0) + c;
      && b < CenturyFlag && b % 32 == c
      && HasBit(b, TwelveHourFlag) && (HasBit(b, PmFlag) <==> pm)
  {
    var b := TwelveHourFlag + (if pm then PmFlag else 0) + c;
    if pm {
      assert b / 64 == 1 && b / 32 == 3 && b % 32 == c;
    } else {
      assert b / 64 == 1 && b / 32 == 2 && b % 32 == c;
    }
  }

  /** Two decimal digits survive the encoding, and the encoding is valid BCD. */
  lemma BcdRoundTrip(v: int)
    requires 0 <= v <= 99
    ensures Dec2Bcd(v) == 16 * (v / 10) + v % 10
    ensures IsBcd(Dec2Bcd(v)) && Bcd2Dec(Dec2Bcd(v)) == v
  {
    Nibbles(v / 10, v % 10);
  }

  /** Every valid BCD byte is the encoding of its value. */
  lemma DecimalRoundTrip(b: int)
    requires IsBcd(b)
    ensures 0 <= Bcd2Dec(b) <= 99 && Dec2Bcd(Bcd2Dec(b)) == b
  {
    var t, u := b / 16, b % 16;
    var v := 10 * t + u;
    assert v / 10 == t && v % 10 == u;
  }

  // ---- the time registers -------------------------------------------------

  /**
   * The seven registers ds3231_set_time writes: seconds, minutes, hours,
   * weekday 1..7 from Sunday, day of month, month 1..12 with the century
   * flag, and the year within the century.
   */
  function TimeRegisters(time: Tm): (data: seq<int>)
    ensures |data| == 7 && forall i :: 0 <= i < 7 ==> 0 <= data[i] < 256
  {
    [Dec2Bcd(U8(time.sec)), Dec2Bcd(U8(time.min)), Dec2Bcd(U8(time.hour)),
     Dec2Bcd(U8(time.wday + 1)), Dec2Bcd(U8(time.mday)),
     MonthRegister(time.mon, time.year),
     Dec2Bcd(U8(if time.year < 100 then time.year else time.year - 100))]
  }

  /** ds3231_set_time: the register bytes sent, and ESP_OK whatever the bus did. */
  method SetTime(time: Tm) returns (data: seq<int>, err: int)
    ensures data == TimeRegisters(time) && err == EspOk
  {
    var buf := new int[7];
    buf[0] := Dec2Bcd(U8(time.sec));
    buf[1] := Dec2Bcd(U8(time.min));
    buf[2] := Dec2Bcd(U8(time.hour));
    buf[3] := Dec2Bcd(U8(time.wday + 1));
    buf[4] := Dec2Bcd(U8(time.mday));
    buf[5] := Dec2Bcd(U8(time.mon + 1));
    if time.year < 100 {
      buf[6] := Dec2Bcd(U8(time.year));
    } else {
      buf[5] := U8(buf[5] + CenturyFlag);
      buf[6] := Dec2Bcd(U8(time.year - 100));
    }
    data := buf[..];
    err := EspOk;
  }

  /**
   * The hour register as the driver reads it: in 12-hour mode the hour
   * 1..12 less one, plus 12 after noon, so that 1 AM reads as 0 and 12 AM
   * as 11.
   */
  function HourAsWritten(b: int): int
    requires 0 <= b < 256
  {
    if HasBit(b, TwelveHourFlag) then
      Bcd2Dec(b % 32) - 1 + (if HasBit(b, PmFlag) then 12 else 0)
    else Bcd2Dec(b)
  }

  /** The hour register read as the chip defines 12-hour mode: 12 AM is hour 0, 12 PM hour 12. */
  function Hour(b: int): (h: int)
    requires 0 <= b < 256
    ensures !HasBit(b, TwelveHourFlag) ==> h == Bcd2Dec(b)
  {
    if HasBit(b, TwelveHourFlag) then
      Bcd2Dec(b % 32) % 12 + (if HasBit(b, PmFlag) then 12 else 0)
    else Bcd2Dec(b)
  }

  /** Hour h (0..23) on a 12-hour dial, 1..12. */
  function Hour12(h: int): (h12: int)
    requires 0 <= h < 24
    ensures 1 <= h12 <= 12 && h12 % 12 + (if h >= 12 then 12 else 0) == h
  {
    if h == 0 || h == 12 then 12 else if h > 12 then h - 12 else h
  }

  /** The register byte the chip holds for hour h (0..23) in 12-hour mode. */
  function TwelveHourRegister(h: int): (b: int)
    requires 0 <= h < 24
    ensures 0 <= b < 256
  {
    var h12 := Hour12(h);
    TwelveHourFlag + (if h >= 12 then PmFlag else 0) + Dec2Bcd(h12)
  }

  /** The flags and the hour digits of a 12-hour register byte. */
  lemma TwelveHourFields(h: int)
    requires 0 <= h < 24
    ensures var b := TwelveHourRegister(h);
      && HasBit(b, TwelveHourFlag) && (HasBit(b, PmFlag) <==> h >= 12)
      && Bcd2Dec(b % 32) == Hour12(h)
  {
    var h12 := Hour12(h);
    LowDigits(h12);
    FlagBits(Dec2Bcd(h12), h >= 12);
  }

  /** Values below 20 fit the five low bits of a register. */
  lemma LowDigits(v: int)
    requires 0 <= v < 20
    ensures Dec2Bcd(v) < 32 && Bcd2Dec(Dec2Bcd(v)) == v
  {
    BcdRoundTrip(v);
    assert v / 10 <= 1 && v % 10 <= 9;
  }

  /** The driver's reading of 1 AM and 12 noon in 12-hour mode is off by an hour. */
  lemma HourAsWrittenOffByOne()
    ensures HourAsWritten(TwelveHourRegister(1)) == 0
    ensures HourAsWritten(TwelveHourRegister(12)) == 23
  {
    TwelveHourFields(1);
    TwelveHourFields(12);
  }

  /** The corrected reading returns every hour the chip may hold, in either mode. */
  lemma HourReadsBack(h: int)
    requires 0 <= h < 24
    ensures Hour(TwelveHourRegister(h)) == h
    ensures Hour(Dec2Bcd(h)) == h
  {
    TwelveHourReadsBack(h);
    TwentyFourHourReadsBack(h);
  }

  lemma TwelveHourReadsBack(h: int)
    requires 0 <= h < 24
    ensures Hour(TwelveHourRegister(h)) == h
  {
    TwelveHourFields(h);
  }

  lemma TwentyFourHourReadsBack(h: int)
    requires 0 <= h < 24
    ensures Hour(Dec2Bcd(h)) == h
  {
    BcdRoundTrip(h);
    HourBelowFlags(h);
  }

  /** The BCD hours 0..23 stay below the 12-hour flag. */
  lemma HourBelowFlags(h: int)
    requires 0 <= h < 24
    ensures !HasBit(Dec2Bcd(h), TwelveHourFlag)
  {
    BcdRoundTrip(h);
    assert Dec2Bcd(h) < 64 by {
      assert h / 10 <= 2 && h % 10 <= 9;
    }
  }

  /**
   * The broken-down time ds3231_get_time makes of the seven registers:
   * weekday and month one less than stored, 100 added to the year when the
   * century flag is set, no daylight saving; the day of the year is not
   * touched.
   */
  function TimeOfRegisters(data: seq<int>, time: Tm): (r: Tm)
    requires |data| == 7 && forall i :: 0 <= i < 7 ==> 0 <= data[i] < 256
    ensures r.yday == time.yday && r.isdst == 0
  {
    Tm(Bcd2Dec(data[0]), Bcd2Dec(data[1]), Hour(data[2]), Bcd2Dec(data[4]),
       Bcd2Dec(data[5] % 32) - 1,
       if data[5] < CenturyFlag then Bcd2Dec(data[6]) else Bcd2Dec(data[6]) + 100,
       Bcd2Dec(data[3]) - 1, time.yday, 0)
  }

  /** ds3231_get_time on the bytes read: the fields set one by one, and ESP_OK. */
  method GetTime(data: seq<int>, time0: Tm) returns (time: Tm, err: int)
    requires |data| == 7 && forall i :: 0 <= i < 7 ==> 0 <= data[i] < 256
    ensures time == TimeOfRegisters(data, time0) && err == EspOk
  {
    time := time0;
    time := time.(sec := Bcd2Dec(data[0]));
    time := time.(min := Bcd2Dec(data[1]));
    if HasBit(data[2], TwelveHourFlag) {
      var hour := Bcd2Dec(data[2] % 32) % 12;
      if HasBit(data[2], PmFlag) {
        hour := hour + 12;
      }
      time := time.(hour := hour);
    } else {
      time := time.(hour := Bcd2Dec(data[2]));
    }
    time := time.(wday := Bcd2Dec(data[3]) - 1);
    time := time.(mday := Bcd2Dec(data[4]));
    time := time.(mon := Bcd2Dec(data[5] % 32) - 1);
    if data[5] < CenturyFlag {
      time := time.(year := Bcd2Dec(data[6]));
    } else {
      time := time.(year := Bcd2Dec(data[6]) + 100);
    }
    time := time.(isdst := 0);
    err := EspOk;
  }

  /** The clock fields the chip can hold: years 1900..2099. */
  predicate StorableTime(time: Tm) {
    && 0 <= time.sec <= 59 && 0 <= time.min <= 59 && 0 <= time.hour <= 23
    && 0 <= time.wday <= 6 && 1 <= time.mday <= 31 && 0 <= time.mon <= 11
    && 0 <= time.year <= 199
  }

  /**
   * Reading back what was written gives the time again, without the
   * daylight flag: the hour byte never has the 12-hour flag set, and the
   * month byte has the century flag exactly for the years from 2000.
   */
  lemma TimeRoundTrip(time: Tm, time0: Tm)
    requires StorableTime(time)
    ensures TimeOfRegisters(TimeRegisters(time), time0) ==
      time.(yday := time0.yday, isdst := 0)
  {
    RegisterRoundTrip(time.sec);
    RegisterRoundTrip(time.min);
    TwentyFourHourReadsBack(time.hour);
    RegisterRoundTrip(time.wday + 1);
    RegisterRoundTrip(time.mday);
    MonthRoundTrip(time.mon, time.year);
    RegisterRoundTrip(if time.year < 100 then time.year else time.year - 100);
  }

  /** One register field written from a struct tm value and read back. */
  lemma RegisterRoundTrip(v: int)
    requires 0 <= v <= 99
    ensures Bcd2Dec(Dec2Bcd(U8(v))) == v
  {
    BcdRoundTrip(v);
  }

  /** The month byte: the month 1..12 in its low five bits, the century flag above them. */
  function MonthRegister(mon: int, year: int): (b: int)
    ensures 0 <= b < 256
  {
    var month := Dec2Bcd(U8(mon + 1));
    if year < 100 then month else U8(month + CenturyFlag)
  }

  lemma MonthRoundTrip(mon: int, year: int)
    requires 0 <= mon <= 11
    ensures Bcd2Dec(MonthRegister(mon, year) % 32) - 1 == mon
    ensures MonthRegister(mon, year) < CenturyFlag <==> year < 100
  {
    LowDigits(mon + 1);
    CenturyBit(Dec2Bcd(mon + 1), year >= 100);
  }

  /** A byte with the century flag when `century` and c in the five low bits. */
  lemma CenturyBit(c: int, century: bool)
    requires 0 <= c < 32
    ensures var b := (if century then CenturyFlag else 0) + c;
      && U8(b) == b && b % 32 == c && (b < CenturyFlag <==> !century)
  {
    var b := (if century then CenturyFlag else 0) + c;
    if century {
      assert b / 32 == 4;
    }
  }

  // ---- temperature --------------------------------------------------------

  /**
   * The temperature in quarter degrees from the two temperature registers:
   * the signed whole degrees shifted left by two, with the two top bits of
   * the fraction register in the low bits (the OR of a multiple of four and
   * a value below four is their sum).
   */
  function RawTemp(d0: int, d1: int): (r: int)
    requires 0 <= d0 < 256 && 0 <= d1 < 256
    ensures -512 <= r < 512
    ensures r / 4 == S8(d0) && r % 4 == d1 / 64
  {
    S8(d0) * 4 + d1 / 64
  }

  /** ds3231_get_temp_integer: the raw value shifted right by two (arithmetic shift). */
  function TempInteger(raw: int): (t: int)
    requires -512 <= raw < 512
    ensures -128 <= t < 128
    ensures 4 * t <= raw < 4 * t + 4
  {
    raw / 4
  }

  /** The whole degrees are the signed top register, whatever the fraction. */
  lemma TempIntegerOfRegisters(d0: int, d1: int)
    requires 0 <= d0 < 256 && 0 <= d1 < 256
    ensures TempInteger(RawTemp(d0, d1)) == S8(d0)
    ensures U8(TempInteger(RawTemp(d0, d1))) == d0
  {
  }
}
