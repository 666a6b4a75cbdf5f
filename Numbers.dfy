/**
  Which tokens the planner reads as hours. Python's `float()` is modelled by a
  decimal recogniser: an optional sign, then digits with at most one decimal
  point and at least one digit.
 */
module Numbers {
  import opened Wrappers
  import opened Text

  predicate IsDigit(c: char) {
    '0' <= c <= '9'
  }

  predicate AllDigits(s: string) {
    forall i :: 0 <= i < |s| ==> IsDigit(s[i])
  }

  function DigitValue(c: char): nat
    requires IsDigit(c)
  {
    c as int - '0' as int
  }

  /** The value of a string of decimal digits, most significant first. */
  function DigitsValue(s: string): nat
    requires AllDigits(s)
  {
    if s == [] then 0 else DigitsValue(s[..|s| - 1]) * 10 + DigitValue(s[|s| - 1])
  }

  function Pow10(k: nat): (p: nat)
    ensures p >= 1
  {
    if k == 0 then 1 else 10 * Pow10(k - 1)
  }

  /** The value of a decimal written as whole digits, a point and fraction digits. */
  function DecimalValue(whole: string, fraction: string): real
    requires AllDigits(whole) && AllDigits(fraction)
  {
    DigitsValue(whole) as real + DigitsValue(fraction) as real / Pow10(|fraction|) as real
  }

  lemma DecimalChars(body: string, k: nat)
    requires MatchAt(body, ".", k)
    requires AllDigits(body[..k]) && AllDigits(body[k + 1..])
    ensures forall i :: 0 <= i < |body| ==> IsDigit(body[i]) || body[i] == '.'
  {
    assert body[k] == body[k..k + 1][0];
    forall i | 0 <= i < |body| ensures IsDigit(body[i]) || body[i] == '.' {
      if i < k {
        assert body[i] == body[..k][i];
      } else if i > k {
        assert body[i] == body[k + 1..][i - k - 1];
      }
    }
  }

  /** A token without sign: `12`, `12.`, `.5` or `12.5`. */
  function Unsigned(body: string): (r: Option<real>)
    ensures r.Some? ==> body != [] && r.value >= 0.0
    ensures r.Some? ==> forall i :: 0 <= i < |body| ==> IsDigit(body[i]) || body[i] == '.'
  {
    match IndexOf(body, ".")
    case None =>
      if body != [] && AllDigits(body) then Some(DigitsValue(body) as real) else None
    case Some(k) =>
      var whole, fraction := body[..k], body[k + 1..];
      if AllDigits(whole) && AllDigits(fraction) && |whole| + |fraction| > 0 then
        DecimalChars(body, k);
        Some(DecimalValue(whole, fraction))
      else None
  }

  /** The hours a token stands for, when it reads as a number. */
  function ParseNumber(token: string): (r: Option<real>)
    ensures r.Some? ==> token != [] && NoSpace(token)
    ensures r.Some? ==> IsDigit(token[0]) || token[0] in "+-."
  {
    if token != [] && (token[0] == '+' || token[0] == '-') then
      match Unsigned(token[1..])
      case Some(v) => Some(if token[0] == '-' then -v else v)
      case None => None
    else
      Unsigned(token)
  }

  /** The decimal numeral of `n`, the inverse of reading it back. */
  function NatToString(n: nat): (s: string)
    ensures s != [] && AllDigits(s)
  {
    var last := ['0' + (n % 10) as char];
    if n < 10 then last else NatToString(n / 10) + last
  }

  lemma {:induction false} DigitsValueOfNatToString(n: nat)
    ensures DigitsValue(NatToString(n)) == n
  {
    var s := NatToString(n);
    if n >= 10 {
      DigitsValueOfNatToString(n / 10);
      assert s[..|s| - 1] == NatToString(n / 10);
    }
  }

  /** A string of digits reads as its own value. */
  lemma ParseDigits(d: string)
    requires d != [] && AllDigits(d)
    ensures ParseNumber(d) == Some(DigitsValue(d) as real)
  {
    AbsentChar(d, '.');
  }

  /** Writing a count of hours and reading it back gives the same hours. */
  lemma NatRoundTrip(n: nat)
    ensures ParseNumber(NatToString(n)) == Some(n as real)
  {
    DigitsValueOfNatToString(n);
    ParseDigits(NatToString(n));
  }

  /** A minus sign before digits negates their value. */
  lemma ParseNegative(d: string)
    requires d != [] && AllDigits(d)
    ensures ParseNumber("-" + d) == Some(-(DigitsValue(d) as real))
  {
    assert ("-" + d)[1..] == d;
    AbsentChar(d, '.');
  }

  /** In digits, a point and digits, the first point is the one after the whole part. */
  lemma PointAfterDigits(w: string, f: string)
    requires AllDigits(w)
    ensures IndexOf(w + "." + f, ".") == Some(|w|)
  {
    var t := w + "." + f;
    assert t[|w|..|w| + 1] == ".";
    assert MatchAt(t, ".", |w|);
    forall j: nat | j < |w| ensures !MatchAt(t, ".", j) {
      assert t[j..j + 1][0] == w[j];
    }
  }

  /** A token without a sign is read as unsigned. */
  lemma UnsignedOnly(t: string)
    requires t != [] && t[0] != '+' && t[0] != '-'
    ensures ParseNumber(t) == Unsigned(t)
  {
  }

  /** A token whose first point is at `k` reads as the parts around it. */
  lemma UnsignedAt(body: string, k: nat)
    requires IndexOf(body, ".") == Some(k)
    requires AllDigits(body[..k]) && AllDigits(body[k + 1..]) && |body[..k]| + |body[k + 1..]| > 0
    ensures Unsigned(body) == Some(DecimalValue(body[..k], body[k + 1..]))
  {
  }

  lemma UnsignedDecimal(w: string, f: string)
    requires AllDigits(w) && AllDigits(f) && |w| + |f| > 0
    ensures Unsigned(w + "." + f) == Some(DecimalValue(w, f))
  {
    var t := w + "." + f;
    PointAfterDigits(w, f);
    var whole, fraction := t[..|w|], t[|w| + 1..];
    assert whole == w;
    assert fraction == f;
    UnsignedAt(t, |w|);
  }

  /** Digits, a point and digits: the whole part plus the fraction over its power of ten. */
  lemma ParseDecimal(w: string, f: string)
    requires AllDigits(w) && AllDigits(f) && |w| + |f| > 0
    ensures ParseNumber(w + "." + f) == Some(DecimalValue(w, f))
  {
    var t := w + "." + f;
    assert t[0] == if w == [] then '.' else w[0];
    UnsignedOnly(t);
    UnsignedDecimal(w, f);
  }

  /**
    The tokens `float()` reads without a sign, in the modelled grammar: digits and
    points only, at most one point, and at least one digit.
   */
  predicate DecimalNumeral(body: string) {
    && (forall i :: 0 <= i < |body| ==> IsDigit(body[i]) || body[i] == '.')
    && (forall i, j :: 0 <= i < |body| && 0 <= j < |body| && body[i] == '.' && body[j] == '.' ==> i == j)
    && (exists i :: 0 <= i < |body| && IsDigit(body[i]))
  }

  /** When `IndexOf` finds no point, no character is a point. */
  lemma NoPoint(body: string)
    requires IndexOf(body, ".") == None
    ensures forall i :: 0 <= i < |body| ==> body[i] != '.'
  {
    forall i | 0 <= i < |body| ensures body[i] != '.' {
      assert !MatchAt(body, ".", i);
      assert body[i..i + 1] == [body[i]];
    }
  }

  /** In a decimal numeral, every character but its point is a digit. */
  lemma OnlyPoint(body: string, k: nat)
    requires DecimalNumeral(body) && k < |body| && body[k] == '.'
    ensures forall i :: 0 <= i < |body| && i != k ==> IsDigit(body[i])
  {
  }

  /** Every decimal numeral is read by `Unsigned`. */
  lemma NumeralIsUnsigned(body: string)
    requires DecimalNumeral(body)
    ensures Unsigned(body).Some?
  {
    match IndexOf(body, ".")
    case None =>
      NoPoint(body);
    case Some(k) =>
      var whole, fraction := body[..k], body[k + 1..];
      assert body[k] == body[k..k + 1][0];
      OnlyPoint(body, k);
      assert forall i :: 0 <= i < |whole| ==> whole[i] == body[i];
      assert forall i :: 0 <= i < |fraction| ==> fraction[i] == body[k + 1 + i];
      var d :| 0 <= d < |body| && IsDigit(body[d]);
      assert d != k;
  }

  /** Whatever `Unsigned` reads is a decimal numeral. */
  lemma UnsignedIsNumeral(body: string)
    requires Unsigned(body).Some?
    ensures DecimalNumeral(body)
  {
    match IndexOf(body, ".")
    case None =>
      NoPoint(body);
      assert IsDigit(body[0]);
    case Some(k) =>
      var whole, fraction := body[..k], body[k + 1..];
      assert forall i :: 0 <= i < k ==> body[i] == whole[i];
      assert forall i :: k < i < |body| ==> body[i] == fraction[i - k - 1];
      if whole != [] {
        assert body[0] == whole[0];
      } else {
        assert body[k + 1] == fraction[0];
      }
  }

  /** `Unsigned` accepts exactly the decimal numerals. */
  lemma UnsignedAccepts(body: string)
    ensures Unsigned(body).Some? <==> DecimalNumeral(body)
  {
    if DecimalNumeral(body) {
      NumeralIsUnsigned(body);
    }
    if Unsigned(body).Some? {
      UnsignedIsNumeral(body);
    }
  }

  /** A plus sign changes nothing: `+b` reads as `b` does. */
  lemma ParsePlus(b: string)
    ensures ParseNumber("+" + b) == Unsigned(b)
  {
    assert ("+" + b)[1..] == b;
  }

  /** A minus sign negates: `-b` is a number exactly when `b` is, of the opposite value. */
  lemma ParseMinus(b: string)
    ensures ParseNumber("-" + b) == if Unsigned(b).Some? then Some(-Unsigned(b).value) else None
  {
    assert ("-" + b)[1..] == b;
  }

  /** Which tokens are numbers: an optional sign before a decimal numeral. */
  lemma ParseNumberAccepts(token: string)
    ensures ParseNumber(token).Some?
        <==> if token != [] && token[0] in "+-" then DecimalNumeral(token[1..]) else DecimalNumeral(token)
  {
    if token != [] && token[0] in "+-" {
      UnsignedAccepts(token[1..]);
    } else {
      UnsignedAccepts(token);
    }
  }

  /** A point alone is not a number: it has no digit. */
  lemma LonePointNotNumber(t: string)
    requires t == "."
    ensures ParseNumber(t) == None
  {
    ParseNumberAccepts(t);
    assert !IsDigit(t[0]);
  }

  /** A token with two points is not a number. */
  lemma TwoPointsNotNumber(t: string)
    requires t == "1.2.3"
    ensures ParseNumber(t) == None
  {
    ParseNumberAccepts(t);
    assert t[1] == '.' && t[3] == '.';
  }

  /** A token that starts with a letter (or any non-numeral character) is never hours. */
  lemma NotNumber(token: string)
    requires token != [] && !IsDigit(token[0]) && token[0] !in "+-."
    ensures ParseNumber(token) == None
  {
  }
}
