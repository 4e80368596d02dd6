/** Amounts the report prints, read again by the function that reads amounts out of text. */
module ReadBack {
  import opened Wrappers
  import opened SessionModels
  import opened Numerals
  import opened NumberFormat
  import opened Deltas

  lemma {:induction false} GroupedIsOneRun(s: string)
    requires forall i :: 0 <= i < |s| ==> IsDigit(s[i]) || s[i] == ','
    ensures GroupRun(IsDigit, s) == |s|
  {
    if s != "" { GroupedIsOneRun(s[1..]); }
  }

  /** The sign stands apart from the digits, so the reader recovers the rounded amount without it. */
  lemma PrintedAmountReadsBack(x: NumberFormat.Decimal, s: string, grouped: string)
    requires s == Sign(x) + RUPEE + grouped && IsGrouped(grouped, Digits(Quantized(x, 0)))
    ensures NormalizeValue(s, AsStated) == Some(Amount(Quantized(x, 0) as real))
  {
    hide Digits, Quantized, Parse;
    var n := Quantized(x, 0);
    GroupedIsOneRun(grouped);
    assert MatchLength(IsDigit, grouped) == |grouped| && grouped[..|grouped|] == grouped;
    assert FirstNumeral(grouped) == Some(grouped);
    assert (RUPEE + grouped)[1..] == grouped;
    assert FirstNumeral(RUPEE + grouped) == Some(grouped);
    if x.m < 0 {
      assert s[1..] == RUPEE + grouped;
    } else {
      assert s == RUPEE + grouped;
    }
    assert FirstNumeral(s) == Some(grouped);
    DigitsAreOneRun(Digits(n));
    ParseDigits(n);
  }

  /** A printed amount is read back as itself exactly when it is not negative or rounds to nothing. */
  lemma SignIsKeptExactlyWhenNotNegative(x: NumberFormat.Decimal, s: string, grouped: string)
    requires s == Sign(x) + RUPEE + grouped && IsGrouped(grouped, Digits(Quantized(x, 0)))
    ensures (InrDenotes(s).Some? && NormalizeValue(s, AsStated) == Some(Amount(InrDenotes(s).value as real))) <==>
              x.m >= 0 || Quantized(x, 0) == 0
  {
    hide Digits, Quantized, Parse, NormalizeValue, InrDenotes;
    PrintedAmountReadsBack(x, s, grouped);
    PrintedDenotes(x, s, grouped, Quantized(x, 0));
  }

  // ---- amounts with a fraction ----

  lemma {:induction false} PowersMultiply(a: nat, b: nat)
    ensures Pow10(a + b) == Pow10(a) * Pow10(b)
  {
    if a > 0 { PowersMultiply(a - 1, b); }
  }

  /** The reader's decimal is what the printed digits denote, in units of the last place. */
  lemma DecimalReadsBack(whole: string, frac: string, k: nat)
    requires AllDigits(whole) && whole != "" && AllDigits(frac) && |frac| <= k
    ensures UnsignedOf(WithFraction(whole, frac)) * Pow10(k) as real == Denotes(whole, frac, k) as real
  {
    hide Parse, Pow10;
    var s, f := WithFraction(whole, frac), |frac|;
    DigitsAreOneRun(whole);
    PowersMultiply(f, k - f);
    var p, q := Pow10(f) as real, Pow10(k - f) as real;
    assert Pow10(k) as real == p * q;
    if frac == "" {
      assert s == whole;
      NothingIsZero();
    } else {
      DigitRunStops(IsDigit, whole, "." + frac);
      assert s[..|whole|] == whole && s[|whole| + 1..] == frac && |s| - |whole| - 1 == f;
      FractionScales(Parse(whole) as real, Parse(frac) as real, p, q);
    }
  }

  lemma NothingIsZero()
    ensures Parse("") == 0 && Pow10(0) == 1
  {
  }

  lemma FractionScales(w: real, f: real, p: real, q: real)
    requires p > 0.0
    ensures (w + f / p) * (p * q) == w * (p * q) + f * q
  {
    assert f / p * p == f;
    assert (f / p) * (p * q) == (f / p * p) * q;
  }

  /** The match takes the point and the digits after it. */
  lemma MatchTakesFraction(grouped: string, frac: string)
    requires grouped != "" && IsDigit(grouped[0]) && AllDigits(frac) && frac != ""
    requires forall i :: 0 <= i < |grouped| ==> IsDigit(grouped[i]) || grouped[i] == ','
    ensures var s := grouped + "." + frac; MatchLength(IsDigit, s) == |s|
  {
    var s := grouped + "." + frac;
    GroupedIsOneRun(grouped);
    GroupRunStops(IsDigit, grouped, "." + frac);
    assert s == grouped + ("." + frac);
    DigitsAreOneRun(frac);
    assert s[|grouped| + 1..] == frac;
  }

  /** An amount printed with paise is read back to the paisa, without its sign. */
  lemma PrintedPaiseReadBack(x: NumberFormat.Decimal, s: string, grouped: string)
    requires var q := Quantized(x, 2);
             && IsGrouped(grouped, Digits(WholePart(q, Pow10(2))))
             && s == Sign(x) + RUPEE + (grouped + "." + Fixed(FractionPart(q, Pow10(2)), 2))
    ensures NormalizeValue(s, AsStated) == Some(Amount(Quantized(x, 2) as real / 100.0))
  {
    hide Digits, Quantized, Parse, UnsignedOf, MatchLength, Fixed, StripCommas;
    var q := Quantized(x, 2);
    var whole, frac := Digits(WholePart(q, Pow10(2))), Fixed(FractionPart(q, Pow10(2)), 2);
    var body := grouped + "." + frac;
    MatchTakesFraction(grouped, frac);
    assert body[..|body|] == body && body[0] == grouped[0];
    assert FirstNumeral(body) == Some(body);
    assert (RUPEE + body)[1..] == body;
    assert FirstNumeral(RUPEE + body) == Some(body);
    if x.m < 0 { assert s[1..] == RUPEE + body; } else { assert s == RUPEE + body; }
    assert FirstNumeral(s) == Some(body);
    StripPaise(grouped, whole, frac);
    PointStays(whole, frac);
    DecimalReadsBack(whole, frac, 2);
    PaiseValue(q);
    assert Pow10(2) == 100;
    assert WithFraction(whole, frac)[0] == whole[0];
  }

  /** A printed percentage is read back as the ratio it stands for, sign and all. */
  lemma PrintedPercentageReadsBack(x: NumberFormat.Decimal, k: nat, s: string, whole: string, frac: string)
    requires s == Sign(x) + WithFraction(whole, frac) + "%" && AllDigits(whole) && AllDigits(frac) && whole != ""
    requires |frac| <= k && Denotes(whole, frac, k) == Quantized(x, k)
    ensures exists ratio: real :: NormalizeValue(s, PercentToRatio) == Some(Amount(ratio))
              && ratio * 100.0 * Pow10(k) as real == (if x.m < 0 then -1.0 else 1.0) * Quantized(x, k) as real
  {
    hide Digits, Quantized, Parse, UnsignedOf, MatchLength, Denotes, Pow10;
    var body := WithFraction(whole, frac);
    BodyIsNumeral(whole, frac);
    DecimalReadsBack(whole, frac, k);
    var unsigned := UnsignedOf(body);
    if x.m < 0 {
      assert s[1..] == body + "%" && s[0] == '-' && s[1] == whole[0];
      assert s[..1 + |body|] == "-" + body;
      assert FirstNumeral(s) == Some("-" + body);
      StripSigned(body);
      assert ("-" + body)[1..] == body;
      assert NormalizeValue(s, PercentToRatio) == Some(Amount(-unsigned / 100.0));
      assert (-unsigned / 100.0) * 100.0 == -unsigned;
    } else {
      assert s == body + "%" && s[0] == whole[0];
      assert s[..|body|] == body;
      assert FirstNumeral(s) == Some(body);
      assert body[0] == whole[0];
      assert NormalizeValue(s, PercentToRatio) == Some(Amount(unsigned / 100.0));
      assert (unsigned / 100.0) * 100.0 == unsigned;
    }
  }

  lemma BodyIsNumeral(whole: string, frac: string)
    requires AllDigits(whole) && AllDigits(frac) && whole != ""
    ensures var body := WithFraction(whole, frac);
            && body != "" && IsDigit(body[0]) && MatchLength(IsDigit, body + "%") == |body| && StripCommas(body) == body
  {
    hide MatchLength;
    var body := WithFraction(whole, frac);
    MatchStops(IsDigit, body, "%");
    if frac == "" {
      assert body == whole;
      WholeIsMatched(whole);
    } else {
      assert body == whole + "." + frac;
      MatchTakesFraction(whole, frac);
    }
    DigitsHaveNoComma(whole);
    DigitsHaveNoComma(frac);
    StripPlain(body);
  }

  lemma WholeIsMatched(whole: string)
    requires AllDigits(whole) && whole != ""
    ensures MatchLength(IsDigit, whole) == |whole|
  {
    GroupedIsOneRun(whole);
  }

  lemma StripSigned(body: string)
    requires StripCommas(body) == body
    ensures StripCommas("-" + body) == "-" + body
  {
    assert ("-" + body)[1..] == body;
  }
}
