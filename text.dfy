// The length of a text as the C code sees it. cJSON hands the firmware its
// strings UTF-8 encoded, and the character buffers of the settings hold the
// same bytes, so strlen counts the bytes of the encoding, not the characters.
module Text {

  /** Bytes of the UTF-8 encoding of one character. */
  function CharBytes(c: char): (n: nat)
    ensures 1 <= n <= 4
    ensures n == 1 <==> (c as int) < 0x80
  {
    if (c as int) < 0x80 then 1
    else if (c as int) < 0x800 then 2
    else if (c as int) < 0x10000 then 3
    else 4
  }

  /** strlen of the UTF-8 encoding of s. */
  function Utf8Length(s: string): (n: nat)
    ensures |s| <= n <= 4 * |s|
    ensures n == 0 <==> s == []
    decreases |s|
  {
    if s == [] then 0 else CharBytes(s[0]) + Utf8Length(s[1..])
  }

  /** Every character is ASCII. */
  predicate Ascii(s: string) {
    forall i :: 0 <= i < |s| ==> (s[i] as int) < 0x80
  }

  /** An ASCII text has one byte per character. */
  lemma {:induction false} AsciiLength(s: string)
    requires Ascii(s)
    ensures Utf8Length(s) == |s|
    decreases |s|
  {
    if s != [] {
      assert Ascii(s[1..]) by {
        forall i | 0 <= i < |s[1..]|
          ensures (s[1..][i] as int) < 0x80
        {
          assert s[1..][i] == s[i + 1];
        }
      }
      AsciiLength(s[1..]);
    }
  }

  /** n copies of one character take n times its bytes. */
  lemma {:induction false} RepeatLength(c: char, n: nat)
    ensures Utf8Length(seq(n, _ => c)) == n * CharBytes(c)
    decreases n
  {
    if n > 0 {
      assert seq(n, _ => c)[1..] == seq(n - 1, _ => c);
      RepeatLength(c, n - 1);
    }
  }
}
