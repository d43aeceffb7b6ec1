/**
 * `normalize_answer` (app.py:133-139): delete every `$`, `,` and whitespace
 * character, then read what is left with Python's `float`. The model reads
 * decimal literals only: an optional sign, digits and at most one point.
 */
module AnswerNormalization {
  import opened Wrappers
  import opened Text

  /** The characters of the class `[$,\s]` that `re.sub` deletes. */
  predicate IsStripped(c: char) {
    c == '$' || c == ',' || IsSpace(c)
  }

  /** `re.sub(r'[$,\s]', '', s)`. */
  function StripChars(s: string): (r: string)
    ensures |r| <= |s|
    ensures forall i :: 0 <= i < |r| ==> !IsStripped(r[i])
    ensures (forall i :: 0 <= i < |s| ==> !IsStripped(s[i])) ==> r == s
  {
    if s == [] then []
    else
      assert forall i :: 0 <= i < |s| - 1 ==> s[1..][i] == s[i + 1];
      (if IsStripped(s[0]) then [] else [s[0]]) + StripChars(s[1..])
  }

  /** Deleting characters works piece by piece. */
  lemma {:induction false} StripAppend(a: string, b: string)
    ensures StripChars(a + b) == StripChars(a) + StripChars(b)
  {
    if a == [] {
      assert a + b == b;
    } else {
      assert (a + b)[1..] == a[1..] + b;
      StripAppend(a[1..], b);
    }
  }

  /** `float(t)` without exponent, infinity or underscores: an exact decimal value. */
  function ParseUnsignedDecimal(t: string): Option<real> {
    match IndexOf(t, ".")
    case None =>
      if t != [] && AllDigits(t) then Some(DigitsValue(t) as real) else None
    case Some(k) =>
      var whole, fraction := t[..k], t[k + 1..];
      if AllDigits(whole) && AllDigits(fraction) && (whole != [] || fraction != []) then
        Some(DigitsValue(whole) as real + DigitsValue(fraction) as real / Pow10(|fraction|) as real)
      else None
  }

  function ParseDecimal(t: string): Option<real> {
    if t != [] && (t[0] == '+' || t[0] == '-') then
      match ParseUnsignedDecimal(t[1..])
      case None => None
      case Some(v) => Some(if t[0] == '-' then -v else v)
    else ParseUnsignedDecimal(t)
  }

  /** `normalize_answer(s)`; `None` where `float` raises `ValueError`. */
  function NormalizeAnswer(s: string): Option<real> {
    ParseDecimal(StripChars(s))
  }

  /** Inserting a `$`, a `,` or a whitespace character anywhere does not change the normalized value. */
  lemma NormalizeIgnoresStrippedChar(a: string, c: char, b: string)
    requires IsStripped(c)
    ensures NormalizeAnswer(a + [c] + b) == NormalizeAnswer(a + b)
  {
    StripAppend(a + [c], b);
    StripAppend(a, [c]);
    StripAppend(a, b);
    assert StripChars([c]) == [];
    assert StripChars(a) + [] == StripChars(a);
  }

  /** Strings that agree once the deleted characters are gone normalize alike. */
  lemma NormalizeDependsOnlyOnKeptChars(s: string, t: string)
    requires StripChars(s) == StripChars(t)
    ensures NormalizeAnswer(s) == NormalizeAnswer(t)
  {
  }

  /** `float(str(n)) == n` and `float('-' + str(n)) == -n`. */
  lemma {:induction false} ParseDecimalOfDigits(n: nat)
    ensures ParseDecimal(NatToDigits(n)) == Some(n as real)
    ensures ParseDecimal("-" + NatToDigits(n)) == Some(-(n as real))
  {
    var d := NatToDigits(n);
    AbsentWithoutFirstChar(d, ".");
    DigitsRoundTrip(n);
    assert ("-" + d)[1..] == d;
  }

  /** The digits of a number normalize to that number. */
  lemma NormalizeDigits(n: nat)
    ensures NormalizeAnswer(NatToDigits(n)) == Some(n as real)
  {
    ParseDecimalOfDigits(n);
  }

  /** `"2000"` normalizes to 2000. */
  lemma NormalizePlainNumber()
    ensures NormalizeAnswer("2000") == Some(2000.0)
  {
    assert NatToDigits(2) == "2";
    assert NatToDigits(20) == "20";
    assert NatToDigits(200) == "200";
    assert NatToDigits(2000) == "2000";
    NormalizeDigits(2000);
  }

  /** `"1,350"` normalizes to 1350. */
  lemma NormalizeThousandsSeparator()
    ensures NormalizeAnswer("1,350") == Some(1350.0)
  {
    assert NatToDigits(1) == "1";
    assert NatToDigits(13) == "13";
    assert NatToDigits(135) == "135";
    assert NatToDigits(1350) == "1350";
    NormalizeDigits(1350);
    assert "1,350" == "1" + [','] + "350" && "1" + "350" == "1350";
    NormalizeIgnoresStrippedChar("1", ',', "350");
  }

  /** `"$2,000"` normalizes as `"2000"` does. */
  lemma NormalizeCurrency()
    ensures NormalizeAnswer("$2,000") == NormalizeAnswer("2000")
  {
    assert StripChars("$2,000") == "2000" == StripChars("2000");
    NormalizeDependsOnlyOnKeptChars("$2,000", "2000");
  }

  /** `" 2000 "` normalizes as `"2000"` does. */
  lemma NormalizeSurroundingSpaces()
    ensures NormalizeAnswer(" 2000 ") == NormalizeAnswer("2000")
  {
    assert StripChars(" 2000 ") == "2000" == StripChars("2000");
    NormalizeDependsOnlyOnKeptChars(" 2000 ", "2000");
  }

  /** The characters a decimal literal is made of. */
  predicate IsNumeral(c: char) {
    IsDigit(c) || c == '.' || c == '+' || c == '-'
  }

  /** What `ParseUnsignedDecimal` accepts holds digits and points only. */
  lemma UnsignedDecimalChars(t: string)
    requires ParseUnsignedDecimal(t).Some?
    ensures forall i :: 0 <= i < |t| ==> IsDigit(t[i]) || t[i] == '.'
  {
    match IndexOf(t, ".")
    case None =>
    case Some(k) =>
      assert t[k..k + 1] == ".";
      forall i | 0 <= i < |t| ensures IsDigit(t[i]) || t[i] == '.' {
        if i < k {
          assert t[..k][i] == t[i];
        } else if i == k {
          assert t[k..k + 1][0] == t[i];
        } else {
          assert t[k + 1..][i - k - 1] == t[i];
        }
      }
  }

  /** What `ParseDecimal` accepts is made of numerals only. */
  lemma DecimalChars(t: string)
    requires ParseDecimal(t).Some?
    ensures forall i :: 0 <= i < |t| ==> IsNumeral(t[i])
  {
    if t != [] && (t[0] == '+' || t[0] == '-') {
      UnsignedDecimalChars(t[1..]);
      forall i | 1 <= i < |t| ensures IsNumeral(t[i]) {
        assert t[1..][i - 1] == t[i];
      }
    } else {
      UnsignedDecimalChars(t);
    }
  }

  /** An answer that keeps any character other than digits, signs and points normalizes to `None`. */
  lemma UnparsableIsNone(s: string, i: nat)
    requires i < |StripChars(s)| && !IsNumeral(StripChars(s)[i])
    ensures NormalizeAnswer(s) == None
  {
    if NormalizeAnswer(s).Some? {
      DecimalChars(StripChars(s));
    }
  }
}
