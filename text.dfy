/**
 * The Go standard-library string helpers the balance engine relies on:
 * `strings.ToUpper`, `strings.TrimSuffix`, decimal formatting of `%d`, and
 * `hex.EncodeToString`. Case mapping is modelled for ASCII letters only.
 */
module Text {

  predicate IsLowerAscii(c: char) {
    'a' <= c <= 'z'
  }

  function UpperChar(c: char): (u: char)
    ensures IsLowerAscii(c) ==> u as int == c as int - 32
    ensures !IsLowerAscii(c) ==> u == c
    ensures !IsLowerAscii(u)
  {
    if IsLowerAscii(c) then (c as int - 32) as char else c
  }

  /** `strings.ToUpper`: every lower-case ASCII letter is replaced by its capital, all else is kept. */
  function Upper(s: string): (r: string)
    ensures |r| == |s|
    ensures forall i :: 0 <= i < |s| ==> r[i] == UpperChar(s[i])
  {
    seq(|s|, i requires 0 <= i < |s| => UpperChar(s[i]))
  }

  /** Upper-casing twice is upper-casing once: keys built from upper-cased symbols are stable. */
  lemma UpperIdempotent(s: string)
    ensures Upper(Upper(s)) == Upper(s)
  {
    var once := Upper(s);
    forall i | 0 <= i < |s|
      ensures Upper(once)[i] == once[i]
    {
      assert !IsLowerAscii(once[i]);
    }
  }

  lemma UpperConcat(a: string, b: string)
    ensures Upper(a + b) == Upper(a) + Upper(b)
  {
    assert forall i :: 0 <= i < |a + b| ==> Upper(a + b)[i] == (Upper(a) + Upper(b))[i];
  }

  predicate HasSuffix(s: string, suffix: string) {
    |suffix| <= |s| && s[|s| - |suffix|..] == suffix
  }

  /** `strings.TrimSuffix`: drops `suffix` once if `s` ends with it (case-sensitively), else returns `s`. */
  function TrimSuffix(s: string, suffix: string): (r: string)
    ensures HasSuffix(s, suffix) ==> r + suffix == s
    ensures !HasSuffix(s, suffix) ==> r == s
  {
    if HasSuffix(s, suffix) then s[..|s| - |suffix|] else s
  }

  /** Trimming undoes appending the suffix. */
  lemma TrimAppendedSuffix(s: string, suffix: string)
    ensures TrimSuffix(s + suffix, suffix) == s
  {
    assert (s + suffix)[|s|..] == suffix;
    assert (s + suffix)[..|s|] == s;
  }

  function DigitChar(d: nat): (c: char)
    requires d < 10
    ensures '0' <= c <= '9'
  {
    ('0' as int + d) as char
  }

  /** The number a string of decimal digits denotes, most significant digit first. */
  function DecimalValue(s: string): nat
    requires forall i :: 0 <= i < |s| ==> '0' <= s[i] <= '9'
  {
    if s == [] then 0 else DecimalValue(s[..|s| - 1]) * 10 + (s[|s| - 1] as int - '0' as int)
  }

  /** Go's `%d` for a non-negative integer: decimal digits, most significant first, with no leading zero. */
  function DecimalString(n: nat): (r: string)
    ensures |r| >= 1
    ensures forall i :: 0 <= i < |r| ==> '0' <= r[i] <= '9'
    ensures |r| > 1 ==> r[0] != '0'
    ensures DecimalValue(r) == n
  {
    if n < 10 then [DigitChar(n)]
    else
      var r := DecimalString(n / 10) + [DigitChar(n % 10)];
      assert r[..|r| - 1] == DecimalString(n / 10);
      r
  }

  /** Distinct numbers print as distinct texts, so the index in a message identifies the child. */
  lemma DecimalStringInjective(m: nat, n: nat)
    requires DecimalString(m) == DecimalString(n)
    ensures m == n
  {
  }

  function HexDigit(d: nat): (c: char)
    requires d < 16
    ensures ('0' <= c <= '9') || ('a' <= c <= 'f')
  {
    if d < 10 then DigitChar(d) else ('a' as int + d - 10) as char
  }

  /** The hex digit of a byte's high nibble. */
  function HighDigit(b: bv8): char {
    HexDigit(b as nat / 16)
  }

  /** The hex digit of a byte's low nibble. */
  function LowDigit(b: bv8): char {
    HexDigit(b as nat % 16)
  }

  /** `hex.EncodeToString`: two lower-case hex digits per byte, high nibble first. */
  function HexEncode(bytes: seq<bv8>): (r: string)
    ensures |r| == 2 * |bytes|
    ensures forall k :: 0 <= k < |bytes| ==> r[2 * k] == HighDigit(bytes[k]) && r[2 * k + 1] == LowDigit(bytes[k])
  {
    if bytes == [] then []
    else
      var rest := HexEncode(bytes[1..]);
      var r := [HighDigit(bytes[0]), LowDigit(bytes[0])] + rest;
      assert forall k :: 0 <= k < |bytes| ==> r[2 * k] == HighDigit(bytes[k]) && r[2 * k + 1] == LowDigit(bytes[k])
      by {
        forall k | 1 <= k < |bytes|
          ensures r[2 * k] == HighDigit(bytes[k]) && r[2 * k + 1] == LowDigit(bytes[k])
        {
          var j := k - 1;
          assert bytes[1..][j] == bytes[k];
          assert r[2 * k] == rest[2 * j] && r[2 * k + 1] == rest[2 * j + 1];
        }
      }
      r
  }
}
