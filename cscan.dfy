// The C library's string scanning as the time-zone parser uses it:
// characters of a NUL-terminated string, `strtoul` in base 10 and the
// `sscanf` conversions `%hu` and `%N[^set]`, with the truncation of the
// converted value to `unsigned long` (32 bits on the ESP32) and to
// `unsigned short`.
module CScan {
  import opened Wrappers

  const ULongMax := 0xFFFF_FFFF
  const UShortModulus := 0x1_0000

  /** The character at index i of a C string; reading past the end gives the terminator. */
  function At(s: string, i: nat): char {
    if i < |s| then s[i] else '\0'
  }

  predicate IsDigit(c: char) {
    '0' <= c <= '9'
  }

  /** isspace in the C locale: blank, tab, newline, vertical tab, form feed, return. */
  predicate IsSpace(c: char) {
    c == ' ' || c == '\t' || c == '\n' || c == '\r' || c as int == 11 || c as int == 12
  }

  /** The value of a decimal digit (0 for any other character). */
  function DigitValue(c: char): (v: int)
    ensures 0 <= v <= 9
    ensures IsDigit(c) ==> v == c as int - '0' as int
  {
    if IsDigit(c) then c as int - '0' as int else 0
  }

  /** Number of consecutive digits starting at p. */
  function DigitRun(s: string, p: nat): (k: nat)
    ensures k == 0 || p + k <= |s|
    ensures k > 0 ==> IsDigit(At(s, p)) && IsDigit(At(s, p + k - 1))
    ensures !IsDigit(At(s, p + k))
    decreases |s| - p
  {
    if p < |s| && IsDigit(s[p]) then 1 + DigitRun(s, p + 1) else 0
  }

  /** Every character of a digit run is a digit. */
  lemma {:induction false} DigitRunDigits(s: string, p: nat, i: nat)
    requires p <= i < p + DigitRun(s, p)
    ensures IsDigit(At(s, i))
    decreases |s| - p
  {
    if i > p {
      DigitRunDigits(s, p + 1, i);
    }
  }

  /** Number of consecutive white-space characters starting at p. */
  function SpaceRun(s: string, p: nat): (k: nat)
    ensures k > 0 ==> IsSpace(At(s, p))
    ensures !IsSpace(At(s, p + k))
    decreases |s| - p
  {
    if p < |s| && IsSpace(s[p]) then 1 + SpaceRun(s, p + 1) else 0
  }

  /** The decimal value of the k digits starting at p. */
  function DecimalValue(s: string, p: nat, k: nat): (v: nat)
    decreases k
  {
    if k == 0 then 0 else 10 * DecimalValue(s, p, k - 1) + DigitValue(At(s, p + k - 1))
  }

  /** strtoul's result: saturated on overflow, negated modulo 2^32 after a '-'. */
  function ULongOf(v: nat, negative: bool): (r: int)
    ensures 0 <= r <= ULongMax
    ensures !negative && v <= ULongMax ==> r == v
  {
    if v > ULongMax then ULongMax
    else if negative then (ULongMax + 1 - v) % (ULongMax + 1)
    else v
  }

  /** Conversion to unsigned short. */
  function UShort(v: int): (r: int)
    ensures 0 <= r < UShortModulus
    ensures 0 <= v < UShortModulus ==> r == v
  {
    v % UShortModulus
  }

  datatype Num = Num(value: int, next: nat)

  /**
   * strtoul(s + p, &end, 10) and scanf's %u: leading white space, an optional
   * sign, then at least one digit. None when no digit follows; `next` is the
   * index just after the last digit.
   */
  function ScanUnsigned(s: string, p: nat): (r: Option<Num>)
    ensures r.Some? ==> 0 <= r.value.value <= ULongMax && p < r.value.next
    ensures r.Some? ==> IsDigit(At(s, r.value.next - 1)) && !IsDigit(At(s, r.value.next))
    ensures IsDigit(At(s, p)) ==> r.Some? && r.value.value == ULongOf(DecimalValue(s, p, DigitRun(s, p)), false)
  {
    var q := p + SpaceRun(s, p);
    var negative := At(s, q) == '-';
    var q2 := if At(s, q) == '-' || At(s, q) == '+' then q + 1 else q;
    var k := DigitRun(s, q2);
    if k == 0 then None
    else Some(Num(ULongOf(DecimalValue(s, q2, k), negative), q2 + k))
  }

  /** The outcome of sscanf with format "%hu%n<sep>%hu%n<sep>%hu%n". */
  datatype Triple = Triple(count: int, a: int, b: int, c: int, next: nat)

  /**
   * Up to three unsigned shorts separated by `sep`. Variables not converted
   * keep their previous values a0, b0, c0; `next` is the index after the last
   * converted number (p when none was).
   */
  function ScanTriple(s: string, p: nat, sep: char, a0: int, b0: int, c0: int): (r: Triple)
    ensures 0 <= r.count <= 3
    ensures r.count == 0 <==> ScanUnsigned(s, p).None?
    ensures r.count == 0 ==> r.a == a0 && r.next == p
    ensures r.count >= 1 ==> 0 <= r.a < UShortModulus && p < r.next
    ensures r.count < 2 ==> r.b == b0
    ensures r.count >= 2 ==> 0 <= r.b < UShortModulus
    ensures r.count < 3 ==> r.c == c0
    ensures r.count == 3 ==> 0 <= r.c < UShortModulus
  {
    match ScanUnsigned(s, p)
    case None => Triple(0, a0, b0, c0, p)
    case Some(x) =>
      if At(s, x.next) != sep then Triple(1, UShort(x.value), b0, c0, x.next)
      else match ScanUnsigned(s, x.next + 1)
        case None => Triple(1, UShort(x.value), b0, c0, x.next)
        case Some(y) =>
          if At(s, y.next) != sep then Triple(2, UShort(x.value), UShort(y.value), c0, y.next)
          else match ScanUnsigned(s, y.next + 1)
            case None => Triple(2, UShort(x.value), UShort(y.value), c0, y.next)
            case Some(z) => Triple(3, UShort(x.value), UShort(y.value), UShort(z.value), z.next)
  }

  /** A character of a time-zone name: the scanset [^0-9,+-] of the parser. */
  predicate NameChar(c: char) {
    c != '\0' && !IsDigit(c) && c != ',' && c != '+' && c != '-'
  }

  function NameRun(s: string, p: nat, width: nat): (k: nat)
    ensures k <= width
    ensures k > 0 ==> NameChar(At(s, p))
    ensures k < width ==> !NameChar(At(s, p + k))
    decreases width
  {
    if width > 0 && NameChar(At(s, p)) then 1 + NameRun(s, p + 1, width - 1) else 0
  }

  /**
   * sscanf "%10[^0-9,+-]%n": None when the first character is not a name
   * character (sscanf returns 0 or EOF), otherwise the index after the at
   * most ten characters taken.
   */
  function ScanName(s: string, p: nat): (r: Option<nat>)
    ensures r.None? <==> !NameChar(At(s, p))
    ensures r.Some? ==> p < r.value <= p + 10
    ensures r.Some? && r.value < p + 10 ==> !NameChar(At(s, r.value))
  {
    var k := NameRun(s, p, 10);
    if k == 0 then None else Some(p + k)
  }

  /** Every character a name scan takes is a name character. */
  lemma {:induction false} NameRunChars(s: string, p: nat, width: nat, i: nat)
    requires p <= i < p + NameRun(s, p, width)
    ensures NameChar(At(s, i))
    decreases width
  {
    if i > p {
      NameRunChars(s, p + 1, width - 1, i);
    }
  }
}
