/**
 * The parts of Python's string built-ins that the interviewer relies on:
 * `str.isspace`, `str.strip`, `str.find`/`str.split` on a literal separator,
 * `str(n)` for a non-negative integer and `int(s)` on decimal text.
 */
module Text {
  import opened Wrappers

  /** Python's `str.isspace`; it is also the class `\s` of `re` on `str` patterns. */
  predicate IsSpace(c: char) {
    var n := c as int;
    || (0x09 <= n <= 0x0D) || (0x1C <= n <= 0x20) || n == 0x85 || n == 0xA0 || n == 0x1680
    || (0x2000 <= n <= 0x200A) || n == 0x2028 || n == 0x2029 || n == 0x202F || n == 0x205F
    || n == 0x3000
  }

  predicate IsDigit(c: char) {
    '0' <= c <= '9'
  }

  predicate AllDigits(s: string) {
    forall i :: 0 <= i < |s| ==> IsDigit(s[i])
  }

  function DigitValue(c: char): (d: nat)
    requires IsDigit(c)
    ensures d < 10
  {
    c as int - '0' as int
  }

  function DigitChar(d: nat): (c: char)
    requires d < 10
    ensures IsDigit(c) && DigitValue(c) == d
  {
    ('0' as int + d) as char
  }

  /** The number a string of decimal digits denotes (most significant digit first). */
  function DigitsValue(s: string): nat
    requires AllDigits(s)
  {
    if s == [] then 0 else DigitsValue(s[..|s| - 1]) * 10 + DigitValue(s[|s| - 1])
  }

  function Pow10(k: nat): (p: nat)
    ensures p >= 1
  {
    if k == 0 then 1 else 10 * Pow10(k - 1)
  }

  /** Python's `str(n)` for `n >= 0`: decimal digits without leading zeros. */
  function NatToDigits(n: nat): (s: string)
    ensures |s| > 0 && AllDigits(s)
    ensures s[0] == '0' ==> n == 0
    decreases n
  {
    if n < 10 then [DigitChar(n)] else NatToDigits(n / 10) + [DigitChar(n % 10)]
  }

  /** Python's `str(n)` for any integer. */
  function IntToString(n: int): string {
    if n < 0 then "-" + NatToDigits(-n) else NatToDigits(n)
  }

  /** Reading back what `str(n)` wrote gives `n`. */
  lemma {:induction false} DigitsRoundTrip(n: nat)
    ensures DigitsValue(NatToDigits(n)) == n
    decreases n
  {
    if n >= 10 {
      var s := NatToDigits(n);
      assert s[..|s| - 1] == NatToDigits(n / 10);
      DigitsRoundTrip(n / 10);
    }
  }

  /** `pat` occurs in `s` starting at index `i`. */
  predicate OccursAt(s: string, pat: string, i: int) {
    0 <= i && i + |pat| <= |s| && s[i..i + |pat|] == pat
  }

  /** Python's `s.find(pat, start)`: the first occurrence of `pat` at or after `start`. */
  function IndexFrom(s: string, pat: string, start: nat): (r: Option<nat>)
    ensures r.Some? ==> start <= r.value && OccursAt(s, pat, r.value)
    ensures r.Some? ==> forall i :: start <= i < r.value ==> !OccursAt(s, pat, i)
    ensures r.None? ==> forall i :: start <= i ==> !OccursAt(s, pat, i)
    decreases |s| - start
  {
    if start + |pat| > |s| then None
    else if s[start..start + |pat|] == pat then Some(start)
    else IndexFrom(s, pat, start + 1)
  }

  /** Python's `s.find(pat)`: the first occurrence of `pat` anywhere in `s`. */
  function IndexOf(s: string, pat: string): (r: Option<nat>)
    ensures r.Some? ==> OccursAt(s, pat, r.value)
    ensures r.Some? ==> forall i :: 0 <= i < r.value ==> !OccursAt(s, pat, i)
    ensures r.None? ==> forall i :: !OccursAt(s, pat, i)
  {
    IndexFrom(s, pat, 0)
  }

  /** An occurrence with no earlier one is the one `IndexOf` finds. */
  lemma IndexOfIsFirstOccurrence(s: string, pat: string, k: nat)
    requires OccursAt(s, pat, k)
    requires forall i :: 0 <= i < k ==> !OccursAt(s, pat, i)
    ensures IndexOf(s, pat) == Some(k)
  {
    var r := IndexOf(s, pat);
    assert r.Some?;
    assert !(r.value < k);
  }

  /** A string without the first character of `pat` does not contain `pat`. */
  lemma AbsentWithoutFirstChar(s: string, pat: string)
    requires pat != []
    requires forall i :: 0 <= i < |s| ==> s[i] != pat[0]
    ensures forall i :: !OccursAt(s, pat, i)
  {
    forall i ensures !OccursAt(s, pat, i) {
      if 0 <= i && i + |pat| <= |s| {
        assert s[i..i + |pat|][0] == s[i];
      }
    }
  }

  /** Python's `s.split(sep)[0]`: the text before the first `sep`, or all of `s`. */
  function SplitFirst(s: string, sep: string): (r: string)
    requires sep != []
    ensures r <= s
    ensures forall i :: 0 <= i < |r| ==> !OccursAt(s, sep, i)
    ensures r == s || OccursAt(s, sep, |r|)
  {
    match IndexOf(s, sep)
    case None => s
    case Some(k) => s[..k]
  }

  /**
   * Python's `s.split(sep)[1]`: the text between the first `sep` and the
   * next one (or the end); `None` where Python raises `IndexError`.
   */
  function SplitSecond(s: string, sep: string): (r: Option<string>)
    requires sep != []
    ensures r.None? <==> forall i :: !OccursAt(s, sep, i)
    ensures r.Some? ==>
      var from := IndexOf(s, sep).value + |sep|;
      && from + |r.value| <= |s| && r.value == s[from..from + |r.value|]
      && (forall i :: from <= i < from + |r.value| ==> !OccursAt(s, sep, i))
      && (from + |r.value| == |s| || OccursAt(s, sep, from + |r.value|))
  {
    match IndexOf(s, sep)
    case None => None
    case Some(k) =>
      var from := k + |sep|;
      match IndexFrom(s, sep, from)
      case None => Some(s[from..])
      case Some(j) => Some(s[from..j])
  }

  /** Python's `str.lstrip()`. */
  function LStrip(s: string): (r: string)
    ensures |r| <= |s| && r == s[|s| - |r|..]
    ensures r == [] || !IsSpace(r[0])
    ensures forall i :: 0 <= i < |s| - |r| ==> IsSpace(s[i])
    decreases |s|
  {
    if s != [] && IsSpace(s[0]) then LStrip(s[1..]) else s
  }

  /** Python's `str.rstrip()`. */
  function RStrip(s: string): (r: string)
    ensures r <= s
    ensures r == [] || !IsSpace(r[|r| - 1])
    ensures forall i :: |r| <= i < |s| ==> IsSpace(s[i])
    decreases |s|
  {
    if s != [] && IsSpace(s[|s| - 1]) then RStrip(s[..|s| - 1]) else s
  }

  /**
   * Python's `str.strip()`: what is left of `LStrip(s)` (leading whitespace
   * gone) once its trailing whitespace is removed.
   */
  function Strip(s: string): (r: string)
    ensures r == [] || (!IsSpace(r[0]) && !IsSpace(r[|r| - 1]))
    ensures r <= LStrip(s)
    ensures forall i :: |r| <= i < |LStrip(s)| ==> IsSpace(LStrip(s)[i])
  {
    RStrip(LStrip(s))
  }

  /** A leading space is stripped. */
  lemma LStripSpace(s: string)
    ensures LStrip([' '] + s) == LStrip(s)
  {
    var t := [' '] + s;
    assert t[0] == ' ' && IsSpace(t[0]);
    assert t[1..] == s;
  }

  /** Left-stripping stops at once on a leading non-space. */
  lemma LStripStops(s: string)
    requires s != [] && !IsSpace(s[0])
    ensures LStrip(s) == s
  {
  }

  /** Right-stripping never reaches back past a non-space character. */
  lemma {:induction false} RStripAfterNonSpace(x: string, y: string)
    requires x != [] && !IsSpace(x[|x| - 1])
    ensures RStrip(x + y) == x + RStrip(y)
    decreases |y|
  {
    if y == [] {
      assert x + y == x;
    } else if IsSpace(y[|y| - 1]) {
      assert (x + y)[..|x + y| - 1] == x + y[..|y| - 1];
      RStripAfterNonSpace(x, y[..|y| - 1]);
    } else {
      assert (x + y)[|x + y| - 1] == y[|y| - 1];
    }
  }

  /** Stripping leaves a string that starts and ends with non-space characters unchanged. */
  lemma StripTrimmed(s: string)
    requires s != [] && !IsSpace(s[0]) && !IsSpace(s[|s| - 1])
    ensures Strip(s) == s
  {
  }

  /**
   * CPython's default limit on the number of digits `int()` converts
   * (`sys.int_info.default_max_str_digits`); longer text raises `ValueError`.
   */
  const MaxStrDigits: nat := 4300

  /** Digits `int()` accepts: at least one, and no more than the limit. */
  predicate IntDigits(d: string) {
    d != [] && AllDigits(d) && |d| <= MaxStrDigits
  }

  /**
   * Python's `int(s)` on decimal text: surrounding whitespace, an optional
   * sign, ASCII digits; `None` where Python raises `ValueError`.
   */
  function ParseInt(s: string): Option<int> {
    var t := Strip(s);
    if t != [] && (t[0] == '+' || t[0] == '-') then
      if IntDigits(t[1..]) then
        var v: int := DigitsValue(t[1..]);
        Some(if t[0] == '-' then -v else v)
      else None
    else if IntDigits(t) then Some(DigitsValue(t) as int)
    else None
  }

  /** `int(str(n)) == n` for every `n` whose decimal text is within the digit limit. */
  lemma ParseIntOfDigits(n: nat)
    requires |NatToDigits(n)| <= MaxStrDigits
    ensures ParseInt(NatToDigits(n)) == Some(n)
  {
    var d := NatToDigits(n);
    StripTrimmed(d);
    DigitsRoundTrip(n);
  }

  /** `int(str(n)) == n` for negative numbers as well. */
  lemma ParseIntOfIntToString(n: int)
    requires |NatToDigits(if n < 0 then -n else n)| <= MaxStrDigits
    ensures ParseInt(IntToString(n)) == Some(n)
  {
    if n < 0 {
      var d := NatToDigits(-n);
      var t := "-" + d;
      assert t == IntToString(n);
      StripTrimmed(t);
      assert t[0] == '-' && t[1..] == d && IntDigits(d);
      DigitsRoundTrip(-n);
      assert DigitsValue(t[1..]) == -n;
    } else {
      ParseIntOfDigits(n);
    }
  }

  /** Digit text longer than the limit is refused, whatever its value. */
  lemma ParseIntRefusesLongDigits(d: string)
    requires AllDigits(d) && |d| > MaxStrDigits
    ensures ParseInt(d) == None
  {
    StripTrimmed(d);
  }
}
