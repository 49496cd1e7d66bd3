/** Numbers: what the scanner takes is the longest prefix that the grammar prints as a number, which is what the
    greedy match of the pattern takes. */
module JsonNumbers {
  import opened JsonGrammar
  import opened JsonScan
  import opened JsonTheorems

  /** The first `n` units are a number. */
  ghost predicate NumberAt(s: Text, n: int) {
    0 <= n <= |s| && exists v :: Spells(v, s[..n])
  }

  /** The number that ends at `n` is the longest one. */
  ghost predicate LongestNumber(s: Text, n: int) {
    NumberAt(s, n) && forall m | NumberAt(s, m) :: m <= n
  }

  ghost predicate NoNumber(s: Text) { forall n :: !NumberAt(s, n) }

  ghost predicate Spells(v: Json, s: Text) { v.Number? && Fits(v) && Printed(v) == s }

  lemma {:induction false} DigitsGoOn(digits: Text, rest: Text)
    requires Digits(digits)
    ensures SkipDigits(digits + rest) == SkipDigits(rest)
  {
    if digits == [] {
      assert digits + rest == rest;
    } else {
      DigitsGoOn(digits[1..], rest);
      assert (digits + rest)[1..] == digits[1..] + rest;
    }
  }

  lemma ExponentReaches(x: Exponent, rest: Text)
    requires ExponentFits(x) && x.Exponent?
    ensures |SkipExponent(ExponentText(x) + rest)| <= |rest|
  {
    var s := ExponentText(x) + rest;
    assert s[1..] == x.sign + (x.digits + rest);
    SignIsTaken(x.sign, x.digits + rest);
    DigitsGoOn(x.digits, rest);
  }

  lemma SignIsTaken(sign: Text, tail: Text)
    requires sign == [] || sign == ['+' as int] || sign == [MINUS]
    requires tail != [] && IsDigit(tail[0])
    ensures SkipSign(sign + tail) == tail
  {
    if sign == [] {
      assert sign + tail == tail;
    }
  }

  lemma FractionIsTaken(fraction: Text, tail: Text)
    requires fraction != [] && Digits(fraction)
    ensures SkipFraction(FractionText(fraction) + tail) == SkipDigits(tail)
  {
    assert (FractionText(fraction) + tail)[1..] == fraction + tail;
    DigitsGoOn(fraction, tail);
  }

  /** An exponent stops digits and fractions; without one they shorten what follows. */
  lemma TailReaches(x: Exponent, rest: Text)
    requires ExponentFits(x)
    ensures var tail := ExponentText(x) + rest;
      |SkipExponent(SkipFraction(tail))| <= |rest| && |SkipExponent(SkipDigits(tail))| <= |rest|
  {
    var tail := ExponentText(x) + rest;
    if x.NoExponent? {
      assert tail == rest;
    } else {
      assert tail[0] == x.e;
      assert SkipFraction(tail) == tail && SkipDigits(tail) == tail;
      ExponentReaches(x, rest);
    }
  }

  lemma FractionReaches(fraction: Text, x: Exponent, rest: Text)
    requires Digits(fraction) && ExponentFits(x)
    ensures |SkipExponent(SkipFraction(FractionText(fraction) + (ExponentText(x) + rest)))| <= |rest|
  {
    var tail := ExponentText(x) + rest;
    TailReaches(x, rest);
    if fraction == [] {
      assert FractionText(fraction) + tail == tail;
    } else {
      FractionIsTaken(fraction, tail);
    }
  }

  lemma WholeReaches(whole: Text, fraction: Text, x: Exponent, rest: Text)
    requires whole != [] && Digits(whole) && (whole[0] == '0' as int ==> |whole| == 1)
    requires Digits(fraction) && ExponentFits(x)
    ensures var s := whole + (FractionText(fraction) + (ExponentText(x) + rest));
      var after := if s[0] == '0' as int then s[1..] else SkipDigits(s[1..]);
      |SkipExponent(SkipFraction(after))| <= |rest|
  {
    var tail := FractionText(fraction) + (ExponentText(x) + rest);
    assert (whole + tail)[1..] == whole[1..] + tail;
    DigitsGoOn(whole[1..], tail);
    FractionReaches(fraction, x, rest);
    if whole[0] == '0' as int {
      assert whole[1..] + tail == tail;
    } else if fraction == [] && x.NoExponent? {
      assert tail == rest;
    } else {
      assert SkipDigits(tail) == tail;
    }
  }

  /** A number at the start of the text is taken at least as far as it goes. */
  lemma NumberReaches(v: Json, rest: Text)
    requires v.Number? && Fits(v)
    ensures ScanNumber(Printed(v) + rest).Done? && |ScanNumber(Printed(v) + rest).rest| <= |rest|
  {
    NumberParts(v, rest);
    WholeReaches(v.whole, v.fraction, v.exponent, rest);
  }

  /** The scanner takes the longest number that the text begins with, and refuses exactly when there is none. */
  lemma NumberIsLongest(s: Text)
    ensures match ScanNumber(s)
      case Done(rest) => LongestNumber(s, |s| - |rest|)
      case _ => NoNumber(s)
  {
    forall n | NumberAt(s, n) ensures ScanNumber(s).Done? && n <= |s| - |ScanNumber(s).rest| {
      var v :| Spells(v, s[..n]);
      NumberReaches(v, s[n..]);
      assert s == s[..n] + s[n..];
    }
    if ScanNumber(s).Done? {
      var v := NumberWasPrinted(s);
      assert s[..|Printed(v)|] == Printed(v);
      assert Spells(v, s[..|s| - |ScanNumber(s).rest|]);
    }
  }
}
