/** Numbers as the report prints them: Indian digit grouping, whole rupees, trimmed percentages. */
module NumberFormat {
  import opened Wrappers
  import opened Numerals

  const RUPEE := "\U{20B9}"
  const NOT_AVAILABLE := "Not available from current evidence"

  // ---- digits ----

  predicate IsDigit(c: char) { '0' <= c <= '9' }

  predicate AllDigits(s: string) { forall i :: 0 <= i < |s| ==> IsDigit(s[i]) }

  function DigitOf(n: nat): (c: char)
    requires n < 10
    ensures IsDigit(c) && ValueOf(c) == n
  {
    ('0' as int + n) as char
  }

  function ValueOf(c: char): int { c as int - '0' as int }

  function Digits(n: nat): (s: string)
    ensures |s| > 0 && AllDigits(s) && (s[0] == '0' ==> n == 0)
  {
    if n < 10 then [DigitOf(n)] else Digits(n / 10) + [DigitOf(n % 10)]
  }

  function Parse(s: string): int {
    if s == "" then 0 else 10 * Parse(s[..|s| - 1]) + ValueOf(s[|s| - 1])
  }

  lemma {:induction false} ParseDigits(n: nat)
    ensures Parse(Digits(n)) == n
  {
    var s := Digits(n);
    if n < 10 {
      assert s[..0] == "";
    } else {
      ParseDigits(n / 10);
      assert s[..|s| - 1] == Digits(n / 10);
    }
  }

  function Pow10(n: nat): (p: nat)
    ensures p > 0
  {
    if n == 0 then 1 else 10 * Pow10(n - 1)
  }

  // ---- Indian grouping ----

  function Concat(parts: seq<string>): string {
    if parts == [] then "" else parts[0] + Concat(parts[1..])
  }

  /** `",".join(parts)`, with a comma after the last part too. */
  function JoinCommas(parts: seq<string>): string {
    if parts == [] then "" else parts[0] + "," + JoinCommas(parts[1..])
  }

  /** One or two digits, then twos, then a final three. */
  ghost predicate IsGrouping(digits: string, parts: seq<string>, tail: string) {
    && digits == Concat(parts) + tail && |tail| == 3
    && |parts| > 0 && 1 <= |parts[0]| <= 2
    && forall i :: 0 < i < |parts| ==> |parts[i]| == 2
  }

  method GroupIndian(digits: string) returns (grouped: string, ghost parts: seq<string>)
    ensures |digits| <= 3 ==> grouped == digits
    ensures |digits| > 3 ==>
              IsGrouping(digits, parts, digits[|digits| - 3..]) && grouped == JoinCommas(parts) + digits[|digits| - 3..]
  {
    parts := [];
    if |digits| <= 3 {
      return digits, [];
    }
    var head, tail := digits[..|digits| - 3], digits[|digits| - 3..];
    var groups: seq<string> := [];
    while |head| > 2
      invariant 0 < |head| <= |digits| - 3 && digits[..|digits| - 3] == head + Concat(groups)
      invariant forall i :: 0 <= i < |groups| ==> |groups[i]| == 2
    {
      assert head == head[..|head| - 2] + head[|head| - 2..];
      groups := [head[|head| - 2..]] + groups;
      head := head[..|head| - 2];
    }
    if |head| > 0 {
      groups := [head] + groups;
    }
    assert digits == digits[..|digits| - 3] + tail;
    grouped, parts := JoinCommas(groups) + tail, groups;
  }

  lemma {:induction false} StripJoin(a: string, b: string)
    ensures StripCommas(a + b) == StripCommas(a) + StripCommas(b)
  {
    if a == "" {
      assert a + b == b;
    } else {
      StripJoin(a[1..], b);
      var ab := a + b;
      assert ab[1..] == a[1..] + b;
      var first := if a[0] == ',' then "" else [a[0]];
      assert StripCommas(ab) == first + StripCommas(ab[1..]);
      assert first + (StripCommas(a[1..]) + StripCommas(b)) == (first + StripCommas(a[1..])) + StripCommas(b);
    }
  }

  lemma {:induction false} StripPlain(s: string)
    requires ',' !in s
    ensures StripCommas(s) == s
  {
    if s != "" {
      StripPlain(s[1..]);
      assert s == [s[0]] + s[1..];
    }
  }

  lemma {:induction false} StripGroups(parts: seq<string>)
    requires ',' !in Concat(parts)
    ensures StripCommas(JoinCommas(parts)) == Concat(parts)
  {
    if parts != [] {
      assert forall c :: c in parts[0] || c in Concat(parts[1..]) ==> c in Concat(parts);
      StripGroups(parts[1..]);
      assert JoinCommas(parts) == (parts[0] + ",") + JoinCommas(parts[1..]);
      StripJoin(parts[0] + ",", JoinCommas(parts[1..]));
      StripPart(parts[0]);
    }
  }

  lemma StripPart(part: string)
    requires ',' !in part
    ensures StripCommas(part + ",") == part
  {
    StripJoin(part, ",");
    StripPlain(part);
    assert ","[1..] == "";
  }

  /** Deleting the commas gives the digits back. */
  lemma GroupingRoundTrips(digits: string, parts: seq<string>, tail: string)
    requires IsGrouping(digits, parts, tail) && ',' !in digits
    ensures StripCommas(JoinCommas(parts) + tail) == digits
  {
    assert forall c :: c in Concat(parts) || c in tail ==> c in digits;
    StripJoin(JoinCommas(parts), tail);
    StripGroups(parts);
    StripPlain(tail);
  }

  lemma {:induction false} ConcatLength(parts: seq<string>)
    requires forall i :: 0 <= i < |parts| ==> |parts[i]| == 2
    ensures |Concat(parts)| == 2 * |parts|
  {
    if parts != [] { ConcatLength(parts[1..]); }
  }

  lemma {:induction false} PairsUnique(a: seq<string>, b: seq<string>)
    requires forall i :: 0 <= i < |a| ==> |a[i]| == 2
    requires forall i :: 0 <= i < |b| ==> |b[i]| == 2
    requires Concat(a) == Concat(b)
    ensures a == b
  {
    ConcatLength(a);
    ConcatLength(b);
    if a != [] {
      assert Concat(a)[..2] == a[0] && Concat(b)[..2] == b[0];
      assert Concat(a)[2..] == Concat(a[1..]) && Concat(b)[2..] == Concat(b[1..]);
      PairsUnique(a[1..], b[1..]);
      assert a == [a[0]] + a[1..] && b == [b[0]] + b[1..];
    }
  }

  /** The shape leaves no choice: a digit string has one Indian grouping. */
  lemma GroupingIsUnique(digits: string, a: seq<string>, s: string, b: seq<string>, t: string)
    requires IsGrouping(digits, a, s) && IsGrouping(digits, b, t)
    ensures a == b && s == t
  {
    assert s == digits[|digits| - 3..] == t;
    assert Concat(a) == digits[..|digits| - 3] == Concat(b);
    ConcatLength(a[1..]);
    ConcatLength(b[1..]);
    assert |a[0]| == |b[0]|;
    assert Concat(a)[..|a[0]|] == a[0] && Concat(b)[..|b[0]|] == b[0];
    assert Concat(a)[|a[0]|..] == Concat(a[1..]) && Concat(b)[|b[0]|..] == Concat(b[1..]);
    PairsUnique(a[1..], b[1..]);
    assert a == [a[0]] + a[1..] && b == [b[0]] + b[1..];
  }

  // ---- decimals and their rounding ----

  /** `m / 10^e`. */
  datatype Decimal = Decimal(m: int, e: nat)

  function Abs(n: int): nat { if n < 0 then -n else n }

  /** `exact / unit` to the nearest integer, ties upwards. */
  function NearestUp(exact: nat, unit: nat): (q: nat)
    requires unit > 0
  {
    (2 * exact + unit) / (2 * unit)
  }

  function Product(a: nat, b: nat): nat { a * b }

  /** `|x|` quantized half-up to `k` places, as a count of units of the last place. */
  function Quantized(x: Decimal, k: nat): nat {
    NearestUp(Product(Abs(x.m), Pow10(k)), Pow10(x.e))
  }

  /** Rounding moves a value by at most half a unit, and a tie upwards. */
  lemma QuantizedIsNearest(x: Decimal, k: nat)
    ensures var exact, unit, q := (if x.m < 0 then -x.m else x.m) * Pow10(k), Pow10(x.e), Quantized(x, k);
            2 * q * unit - unit <= 2 * exact < 2 * q * unit + unit
  {
    HalfUp(Abs(x.m) * Pow10(k), Pow10(x.e));
  }

  lemma HalfUp(exact: nat, unit: nat)
    requires unit > 0
    ensures var q := NearestUp(exact, unit); 2 * q * unit - unit <= 2 * exact < 2 * q * unit + unit
  {
  }

  /** A value that already has `k` places is not moved. */
  lemma QuantizedIsExact(x: Decimal, k: nat)
    requires x.e == k
    ensures Quantized(x, k) == if x.m < 0 then -x.m else x.m
  {
    var a, p := Abs(x.m), Pow10(k);
    assert 2 * (a * p) + p == a * (2 * p) + p;
    UniqueQuotient(a * (2 * p) + p, 2 * p, a, p);
  }

  lemma UniqueQuotient(n: nat, d: nat, q: nat, r: nat)
    requires d > 0 && r < d && n == q * d + r
    ensures n / d == q
  {
    var p := n / d;
    assert n == p * d + n % d;
    Multiples(p, q, d);
    Multiples(q, p, d);
  }

  lemma {:induction false} Multiples(p: nat, q: nat, d: nat)
    ensures p < q ==> p * d + d <= q * d
  {
    if p < q {
      Multiples(p, q - 1, d);
      assert q * d == (q - 1) * d + d;
    }
  }

  // ---- rupees ----

  function Sign(x: Decimal): string { if x.m < 0 then "-" else "" }

  /** Digits with commas between some of them. */
  predicate IsGrouped(grouped: string, whole: string) {
    && grouped != "" && IsDigit(grouped[0]) && StripCommas(grouped) == whole
    && forall i :: 0 <= i < |grouped| ==> IsDigit(grouped[i]) || grouped[i] == ','
  }

  /** Counted from the right, a comma stands in every third place, and nowhere else. */
  ghost predicate IndianCommas(grouped: string) {
    forall r :: 0 <= r < |grouped| ==> (grouped[|grouped| - 1 - r] == ',' <==> r >= 3 && r % 3 == 0)
  }

  lemma {:induction false} PairsTakeThrees(parts: seq<string>)
    requires forall i :: 0 <= i < |parts| ==> |parts[i]| == 2
    ensures |JoinCommas(parts)| == 3 * |parts|
  {
    if parts != [] { PairsTakeThrees(parts[1..]); }
  }

  lemma {:induction false} GroupsStandInThrees(parts: seq<string>, tail: string)
    requires |tail| == 3 && ',' !in tail
    requires forall i :: 0 <= i < |parts| ==> ',' !in parts[i] && 1 <= |parts[i]| <= 2 && (i > 0 ==> |parts[i]| == 2)
    ensures IndianCommas(JoinCommas(parts) + tail)
  {
    hide IndianCommas;
    if parts == [] {
      assert JoinCommas(parts) + tail == tail;
      NoCommaInThree(tail);
    } else {
      GroupsStandInThrees(parts[1..], tail);
      PairsTakeThrees(parts[1..]);
      assert JoinCommas(parts) + tail == (parts[0] + ",") + (JoinCommas(parts[1..]) + tail);
      CommaInFront(parts[0], JoinCommas(parts[1..]) + tail, |parts|);
    }
  }

  lemma NoCommaInThree(tail: string)
    requires |tail| == 3 && ',' !in tail
    ensures IndianCommas(tail)
  {
  }

  lemma CommaInFront(part: string, rest: string, n: nat)
    requires 1 <= |part| <= 2 && ',' !in part && IndianCommas(rest) && |rest| == 3 * n > 0
    ensures IndianCommas((part + ",") + rest)
  {
    var grouped := (part + ",") + rest;
    forall r | 0 <= r < |grouped| ensures grouped[|grouped| - 1 - r] == ',' <==> r >= 3 && r % 3 == 0 {
      if r < |rest| {
        assert grouped[|grouped| - 1 - r] == rest[|rest| - 1 - r];
      } else if r == |rest| {
        assert grouped[|grouped| - 1 - r] == ',' && r % 3 == 0;
      } else {
        var k := |part| - (r - |rest|);
        assert grouped[|grouped| - 1 - r] == part[k] && part[k] in part;
        assert r % 3 != 0;
      }
    }
  }

  lemma {:induction false} PartsHaveNoComma(parts: seq<string>)
    requires ',' !in Concat(parts)
    ensures forall i :: 0 <= i < |parts| ==> ',' !in parts[i]
  {
    if parts != [] {
      assert forall c :: c in parts[0] || c in Concat(parts[1..]) ==> c in Concat(parts);
      PartsHaveNoComma(parts[1..]);
      assert forall i :: 0 < i < |parts| ==> parts[i] == parts[1..][i - 1];
    }
  }

  /** `group_indian`. */
  method Grouped(whole: string) returns (grouped: string)
    requires AllDigits(whole) && whole != ""
    ensures IsGrouped(grouped, whole) && IndianCommas(grouped)
  {
    ghost var parts;
    grouped, parts := GroupIndian(whole);
    DigitsHaveNoComma(whole);
    if |whole| > 3 {
      GroupingRoundTrips(whole, parts, whole[|whole| - 3..]);
      GroupsAreGrouped(whole, parts, whole[|whole| - 3..]);
      assert forall c :: c in Concat(parts) || c in whole[|whole| - 3..] ==> c in whole;
      PartsHaveNoComma(parts);
      GroupsStandInThrees(parts, whole[|whole| - 3..]);
    } else {
      StripPlain(whole);
    }
  }

  /** What `FormatInr` prints after the sign and the currency: Indian grouping, and no zero in front. */
  ghost predicate PrintsAmount(x: Decimal, paise: bool, grouped: string, body: string) {
    IndianCommas(grouped) &&
    if paise then
      var q := Quantized(x, 2);
      && IsGrouped(grouped, Digits(WholePart(q, Pow10(2))))
      && body == grouped + "." + Fixed(FractionPart(q, Pow10(2)), 2)
    else
      IsGrouped(grouped, Digits(Quantized(x, 0))) && body == grouped
  }

  /** The printed amount denotes the amount rounded half-up to the rupee or, with `paise`, to the paisa. */
  method FormatInr(value: Option<Decimal>, paise: bool) returns (s: string, ghost grouped: string, ghost body: string)
    ensures value.None? ==> s == NOT_AVAILABLE
    ensures value.Some? ==> s == Sign(value.value) + RUPEE + body && PrintsAmount(value.value, paise, grouped, body)
    ensures value.Some? && !paise ==>
              InrDenotes(s) == Some((if value.value.m < 0 then -1 else 1) * Quantized(value.value, 0))
    ensures value.Some? && paise ==>
              PaiseDenotes(s) == Some((if value.value.m < 0 then -1 else 1) * Quantized(value.value, 2))
  {
    hide InrDenotes, PaiseDenotes, Digits, Fixed;
    grouped, body := "", "";
    if value.None? {
      return NOT_AVAILABLE, "", "";
    }
    var x := value.value;
    var printed;
    if paise {
      var q := Quantized(x, 2);
      printed := Grouped(Digits(WholePart(q, Pow10(2))));
      var frac := Fixed(FractionPart(q, Pow10(2)), 2);
      s := Sign(x) + RUPEE + printed + "." + frac;
      grouped, body := printed, printed + "." + frac;
      assert s == Sign(x) + RUPEE + body;
      PaiseRead(x, s, grouped, q);
    } else {
      printed := Grouped(Digits(Quantized(x, 0)));
      s := Sign(x) + RUPEE + printed;
      grouped, body := printed, printed;
      PrintedDenotes(x, s, grouped, Quantized(x, 0));
    }
  }

  /** How a reader takes an amount printed with paise. */
  function PaiseDenotes(s: string): Option<int> {
    if s != "" && s[0] == '-' then
      if RUPEE <= s[1..] then Negated(DecimalDenotes(StripCommas(s[1..][|RUPEE|..]), 2)) else None
    else if RUPEE <= s then DecimalDenotes(StripCommas(s[|RUPEE|..]), 2) else None
  }

  lemma PaiseRead(x: Decimal, s: string, grouped: string, q: nat)
    requires IsGrouped(grouped, Digits(WholePart(q, Pow10(2))))
    requires s == Sign(x) + RUPEE + (grouped + "." + Fixed(FractionPart(q, Pow10(2)), 2))
    ensures PaiseDenotes(s) == Some((if x.m < 0 then -1 else 1) * q)
  {
    hide Digits, Fixed, Parse, StripCommas, DecimalDenotes, Denotes, Pow10;
    var whole, frac := Digits(WholePart(q, Pow10(2))), Fixed(FractionPart(q, Pow10(2)), 2);
    var body := grouped + "." + frac;
    StripPaise(grouped, whole, frac);
    PointStays(whole, frac);
    DecimalReads(whole, frac, 2);
    PaiseValue(q);
    if x.m < 0 {
      assert s[1..] == RUPEE + body;
      assert s[1..][|RUPEE|..] == body;
    } else {
      assert s == RUPEE + body;
      assert s[|RUPEE|..] == body;
    }
  }

  lemma StripPaise(grouped: string, whole: string, frac: string)
    requires StripCommas(grouped) == whole && AllDigits(frac)
    ensures StripCommas(grouped + "." + frac) == whole + "." + frac
  {
    DigitsHaveNoComma(frac);
    StripJoin(grouped + ".", frac);
    StripJoin(grouped, ".");
    StripPlain(frac);
    StripPlain(".");
  }

  lemma PointStays(whole: string, frac: string)
    requires |frac| == 2
    ensures WithFraction(whole, frac) == whole + "." + frac
  {
  }

  lemma PaiseValue(q: nat)
    ensures Denotes(Digits(WholePart(q, Pow10(2))), Fixed(FractionPart(q, Pow10(2)), 2), 2) == q
  {
    hide Digits, Fixed, Parse;
    ParseDigits(WholePart(q, Pow10(2)));
    ParseFixed(FractionPart(q, Pow10(2)), 2);
    QuotientAndRest(q, Pow10(2));
    assert Pow10(0) == 1;
  }

  lemma PrintedDenotes(x: Decimal, s: string, grouped: string, n: nat)
    requires s == Sign(x) + RUPEE + grouped && StripCommas(grouped) == Digits(n)
    ensures InrDenotes(s) == Some((if x.m < 0 then -1 else 1) * n)
  {
    hide Digits, Parse, StripCommas;
    ParseDigits(n);
    if x.m < 0 {
      assert s[1..] == RUPEE + grouped;
      assert s[1..][|RUPEE|..] == grouped;
    } else {
      assert s == RUPEE + grouped;
      assert s[|RUPEE|..] == grouped;
    }
  }

  lemma {:induction false} JoinIsGrouped(parts: seq<string>, i: nat)
    requires AllDigits(Concat(parts)) && i < |JoinCommas(parts)|
    ensures IsDigit(JoinCommas(parts)[i]) || JoinCommas(parts)[i] == ','
  {
    assert AllDigits(parts[0]) by { assert forall k :: 0 <= k < |parts[0]| ==> Concat(parts)[k] == parts[0][k]; }
    assert AllDigits(Concat(parts[1..])) by {
      assert forall k :: 0 <= k < |Concat(parts[1..])| ==> Concat(parts)[|parts[0]| + k] == Concat(parts[1..])[k];
    }
    var front := parts[0] + ",";
    assert JoinCommas(parts) == front + JoinCommas(parts[1..]);
    if i >= |front| { JoinIsGrouped(parts[1..], i - |front|); }
  }

  lemma GroupsAreGrouped(digits: string, parts: seq<string>, tail: string)
    requires IsGrouping(digits, parts, tail) && AllDigits(digits)
    requires StripCommas(JoinCommas(parts) + tail) == digits
    ensures IsGrouped(JoinCommas(parts) + tail, digits)
  {
    var grouped := JoinCommas(parts) + tail;
    assert AllDigits(Concat(parts)) by { assert forall k :: 0 <= k < |Concat(parts)| ==> digits[k] == Concat(parts)[k]; }
    assert AllDigits(tail) by { assert forall k :: 0 <= k < |tail| ==> digits[|Concat(parts)| + k] == tail[k]; }
    assert grouped[0] == parts[0][0] == digits[0];
    forall i | 0 <= i < |grouped| ensures IsDigit(grouped[i]) || grouped[i] == ',' {
      if i < |JoinCommas(parts)| { JoinIsGrouped(parts, i); }
    }
  }

  lemma DigitsHaveNoComma(s: string)
    requires AllDigits(s)
    ensures ',' !in s
  {
  }

  /** How a reader takes a printed amount. */
  function InrDenotes(s: string): Option<int> {
    if s != "" && s[0] == '-' then
      if RUPEE <= s[1..] then Some(-Parse(StripCommas(s[1..][|RUPEE|..]))) else None
    else if RUPEE <= s then Some(Parse(StripCommas(s[|RUPEE|..]))) else None
  }

  // ---- percentages ----

  function Fixed(n: nat, width: nat): (s: string)
    ensures |s| == width && AllDigits(s)
  {
    if width == 0 then "" else Fixed(n / 10, width - 1) + [DigitOf(n % 10)]
  }

  lemma ParseAppend(s: string, d: nat)
    requires d < 10
    ensures Parse(s + [DigitOf(d)]) == 10 * Parse(s) + d
  {
    var t := s + [DigitOf(d)];
    assert t[..|t| - 1] == s;
  }

  lemma {:induction false} ParseFixed(n: nat, width: nat)
    requires n < Pow10(width)
    ensures Parse(Fixed(n, width)) == n
  {
    hide Parse, DigitOf;
    if width == 0 {
      NothingParsed();
    } else {
      ParseFixed(n / 10, width - 1);
      ParseAppend(Fixed(n / 10, width - 1), n % 10);
    }
  }

  lemma NothingParsed()
    ensures Parse("") == 0
  {
  }

  /** `frac.rstrip("0")`. */
  function TrimZeros(s: string): (t: string)
    ensures |t| <= |s| && t == s[..|t|]
    ensures t != "" ==> t[|t| - 1] != '0'
  {
    if s != "" && s[|s| - 1] == '0' then TrimZeros(s[..|s| - 1]) else s
  }

  lemma {:induction false} TrimKeepsValue(s: string)
    ensures Parse(TrimZeros(s)) * Pow10(|s| - |TrimZeros(s)|) == Parse(s)
  {
    if s != "" && s[|s| - 1] == '0' {
      var most := s[..|s| - 1];
      TrimKeepsValue(most);
      var v, p := Parse(TrimZeros(most)), Pow10(|most| - |TrimZeros(most)|);
      assert Pow10(|s| - |TrimZeros(s)|) == 10 * p;
      assert v * (10 * p) == 10 * (v * p);
    }
  }

  /** What `whole.frac` denotes, in units of `10^-k`. */
  function Denotes(whole: string, frac: string, k: nat): int
    requires |frac| <= k
  {
    Parse(whole) * Pow10(k) + Parse(frac) * Pow10(k - |frac|)
  }

  function WholePart(q: nat, unit: nat): nat
    requires unit > 0
  {
    q / unit
  }

  function FractionPart(q: nat, unit: nat): (f: nat)
    requires unit > 0
    ensures f < unit
  {
    q % unit
  }

  /** Cutting a count of units into whole and fraction, and trimming the fraction, keeps its value. */
  lemma SplitDenotes(q: nat, k: nat)
    ensures Denotes(Digits(WholePart(q, Pow10(k))), TrimZeros(Fixed(FractionPart(q, Pow10(k)), k)), k) == q
  {
    hide Digits, Fixed, TrimZeros, Parse, Pow10;
    var p := Pow10(k);
    ParseDigits(WholePart(q, p));
    ParseFixed(FractionPart(q, p), k);
    TrimKeepsValue(Fixed(FractionPart(q, p), k));
    QuotientAndRest(q, p);
  }

  lemma QuotientAndRest(q: nat, unit: nat)
    requires unit > 0
    ensures WholePart(q, unit) * unit + FractionPart(q, unit) == q
  {
  }

  /** `whole.frac` or `whole`, in units of `10^-k`. */
  function DecimalDenotes(s: string, k: nat): Option<int> {
    var w := DigitRun(IsDigit, s);
    if w == |s| then Some(Denotes(s, "", k))
    else if s[w] == '.' && |s| - w - 1 <= k then Some(Denotes(s[..w], s[w + 1..], k))
    else None
  }

  function Negated(n: Option<int>): Option<int> {
    if n.Some? then Some(-n.value) else None
  }

  /** How a reader takes a printed percentage. */
  function PctDenotes(s: string, k: nat): Option<int> {
    if s == "" || s[|s| - 1] != '%' then None
    else if s[0] == '-' then Negated(DecimalDenotes(s[1..|s| - 1], k))
    else DecimalDenotes(s[..|s| - 1], k)
  }

  lemma {:induction false} DigitsAreOneRun(s: string)
    requires AllDigits(s)
    ensures DigitRun(IsDigit, s) == |s|
  {
    if s != "" { DigitsAreOneRun(s[1..]); }
  }

  function WithFraction(whole: string, frac: string): string {
    whole + if frac == "" then "" else "." + frac
  }

  lemma DecimalReads(whole: string, frac: string, k: nat)
    requires AllDigits(whole) && |frac| <= k
    ensures DecimalDenotes(WithFraction(whole, frac), k) == Some(Denotes(whole, frac, k))
  {
    hide Denotes;
    var s := WithFraction(whole, frac);
    DigitsAreOneRun(whole);
    if frac == "" {
      assert s == whole;
    } else {
      DigitRunStops(IsDigit, whole, "." + frac);
      assert s[..|whole|] == whole && s[|whole| + 1..] == frac;
    }
  }

  lemma PctReads(negative: bool, whole: string, frac: string, k: nat)
    requires AllDigits(whole) && whole != "" && |frac| <= k
    ensures PctDenotes((if negative then "-" else "") + WithFraction(whole, frac) + "%", k)
         == Some((if negative then -1 else 1) * Denotes(whole, frac, k))
  {
    hide Denotes, DecimalDenotes, Fixed;
    DecimalReads(whole, frac, k);
    var body := WithFraction(whole, frac);
    var s := (if negative then "-" else "") + body + "%";
    if negative {
      assert s[1..|s| - 1] == body;
    } else {
      assert s[..|s| - 1] == body && s[0] == whole[0];
    }
  }

  /** The printed percentage denotes exactly the quantized value, with no trailing zero in its fraction. */
  method FormatPctValue(x: Decimal, k: nat) returns (s: string, ghost whole: string, ghost frac: string)
    ensures PctDenotes(s, k) == Some((if x.m < 0 then -1 else 1) * Quantized(x, k))
    ensures s == Sign(x) + WithFraction(whole, frac) + "%"
    ensures frac != "" ==> frac[|frac| - 1] != '0'
    ensures AllDigits(whole) && AllDigits(frac) && whole != "" && (whole[0] == '0' ==> |whole| == 1)
    ensures |frac| <= k && Denotes(whole, frac, k) == Quantized(x, k)
  {
    hide PctDenotes;
    var q := Quantized(x, k);
    var w, f := Digits(WholePart(q, Pow10(k))), Fixed(FractionPart(q, Pow10(k)), k);
    var trimmed := TrimZeros(f);
    s := Sign(x) + (w + if trimmed == "" then "" else "." + trimmed) + "%";
    whole, frac := w, trimmed;
    SplitDenotes(q, k);
    PctReads(x.m < 0, w, trimmed, k);
  }
}
