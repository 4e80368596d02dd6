/** Numerals as `\d[\d,]*(?:\.\d+)?` finds them in running text. */
module Numerals {

  /** What counts as a digit: ASCII digits for amounts, every Unicode decimal digit for the grounding check. */
  type DigitClass = char -> bool

  /** Neither the separators inside a numeral nor a blank between words is a digit. */
  predicate Sane(digit: DigitClass) {
    !digit(',') && !digit('.') && !digit(' ')
  }

  function DigitRun(digit: DigitClass, s: string): (n: nat)
    ensures n <= |s|
    ensures forall i :: 0 <= i < n ==> digit(s[i])
    ensures n < |s| ==> !digit(s[n])
  {
    if s == "" || !digit(s[0]) then 0 else 1 + DigitRun(digit, s[1..])
  }

  function GroupRun(digit: DigitClass, s: string): (n: nat)
    ensures n <= |s|
    ensures forall i :: 0 <= i < n ==> digit(s[i]) || s[i] == ','
    ensures n < |s| ==> !digit(s[n]) && s[n] != ','
  {
    if s == "" || (!digit(s[0]) && s[0] != ',') then 0 else 1 + GroupRun(digit, s[1..])
  }

  /** Length of the match at the start of `s`, which starts with a digit. */
  function MatchLength(digit: DigitClass, s: string): (n: nat)
    requires s != "" && digit(s[0])
    ensures 0 < n <= |s|
  {
    var whole := GroupRun(digit, s);
    if whole < |s| && s[whole] == '.' && DigitRun(digit, s[whole + 1..]) > 0
    then whole + 1 + DigitRun(digit, s[whole + 1..])
    else whole
  }

  /** `[m.group(0) for m in finditer(s)]`. */
  function FindNumerals(digit: DigitClass, s: string): seq<string>
    decreases |s|
  {
    if s == "" then []
    else if !digit(s[0]) then FindNumerals(digit, s[1..])
    else var n := MatchLength(digit, s); [s[..n]] + FindNumerals(digit, s[n..])
  }

  function StripCommas(s: string): string {
    if s == "" then "" else (if s[0] == ',' then "" else [s[0]]) + StripCommas(s[1..])
  }

  // ---- what the pattern matches ----

  /** `\d[\d,]*(?:\.\d+)?`, the whole of `n`. */
  ghost predicate Matches(digit: DigitClass, n: string) {
    exists k {:trigger n[..k]} :: 0 < k <= |n| && digit(n[0])
      && (forall i :: 0 <= i < k ==> digit(n[i]) || n[i] == ',')
      && (k < |n| ==> n[k] == '.' && k + 1 < |n| && forall i :: k < i < |n| ==> digit(n[i]))
  }

  /** The match at the start of a text is the longest one there. */
  lemma MatchIsLongest(digit: DigitClass, s: string, n: nat)
    requires Sane(digit) && s != "" && digit(s[0]) && n <= |s|
    ensures Matches(digit, s[..MatchLength(digit, s)])
    ensures Matches(digit, s[..n]) ==> n <= MatchLength(digit, s)
  {
    var m, whole := MatchLength(digit, s), GroupRun(digit, s);
    assert s[..m][..whole] == s[..whole];
    if Matches(digit, s[..n]) {
      var k :| 0 < k <= n && (forall i :: 0 <= i < k ==> digit(s[..n][i]) || s[..n][i] == ',')
               && (k < n ==> s[..n][k] == '.' && k + 1 < n && forall i :: k < i < n ==> digit(s[..n][i]));
      assert forall i :: 0 <= i < k ==> digit(s[i]) || s[i] == ',';
      if k < n {
        assert s[k] == '.' && k == whole;
        assert forall i :: k < i < n ==> digit(s[i]) by { assert forall i :: k < i < n ==> s[i] == s[..n][i]; }
        var run := DigitRun(digit, s[k + 1..]);
      }
    }
  }

  function OnlyDigits(digit: DigitClass, s: string): string {
    if s == "" then ""
    else if digit(s[0]) then [s[0]] + OnlyDigits(digit, s[1..])
    else OnlyDigits(digit, s[1..])
  }

  /** The digits of a text are taken over as often as they occur, and nothing else is. */
  lemma {:induction false} OnlyDigitsAreKept(digit: DigitClass, s: string, c: char)
    ensures multiset(OnlyDigits(digit, s))[c] == if digit(c) then multiset(s)[c] else 0
  {
    if s != "" {
      OnlyDigitsAreKept(digit, s[1..], c);
      assert s == [s[0]] + s[1..];
    }
  }

  function Together(parts: seq<string>): string {
    if parts == [] then "" else parts[0] + Together(parts[1..])
  }

  lemma NoDigits(digit: DigitClass)
    ensures OnlyDigits(digit, "") == ""
  {
  }

  lemma DropsOrKeeps(digit: DigitClass, s: string)
    requires s != ""
    ensures OnlyDigits(digit, s) == (if digit(s[0]) then [s[0]] else "") + OnlyDigits(digit, s[1..])
  {
    assert "" + OnlyDigits(digit, s[1..]) == OnlyDigits(digit, s[1..]);
  }

  lemma {:induction false} OnlyDigitsJoins(digit: DigitClass, a: string, b: string)
    ensures OnlyDigits(digit, a + b) == OnlyDigits(digit, a) + OnlyDigits(digit, b)
  {
    hide OnlyDigits;
    if a == "" {
      assert a + b == b && OnlyDigits(digit, a) == "" by { NoDigits(digit); }
    } else {
      assert (a + b)[0] == a[0] && (a + b)[1..] == a[1..] + b;
      OnlyDigitsJoins(digit, a[1..], b);
      DropsOrKeeps(digit, a);
      DropsOrKeeps(digit, a + b);
    }
  }

  /** The numerals of a text match the pattern and hold all its digits, in order. */
  lemma {:induction false} NumeralsHoldAllDigits(digit: DigitClass, s: string)
    requires Sane(digit)
    ensures forall n :: n in FindNumerals(digit, s) ==> Matches(digit, n)
    ensures OnlyDigits(digit, Together(FindNumerals(digit, s))) == OnlyDigits(digit, s)
    decreases |s|
  {
    hide MatchLength, Matches;
    if s != "" {
      if digit(s[0]) {
        var n := MatchLength(digit, s);
        MatchIsLongest(digit, s, n);
        NumeralsHoldAllDigits(digit, s[n..]);
        assert s == s[..n] + s[n..];
        OnlyDigitsJoins(digit, s[..n], s[n..]);
        OnlyDigitsJoins(digit, s[..n], Together(FindNumerals(digit, s[n..])));
      } else {
        NumeralsHoldAllDigits(digit, s[1..]);
      }
    }
  }

  // ---- a blank ends every numeral ----

  lemma {:induction false} GroupRunStops(digit: DigitClass, a: string, b: string)
    requires b != "" && !digit(b[0]) && b[0] != ','
    ensures GroupRun(digit, a + b) == GroupRun(digit, a)
  {
    if a == "" {
      assert a + b == b;
    } else {
      assert (a + b)[1..] == a[1..] + b;
      GroupRunStops(digit, a[1..], b);
    }
  }

  lemma {:induction false} DigitRunStops(digit: DigitClass, a: string, b: string)
    requires b != "" && !digit(b[0])
    ensures DigitRun(digit, a + b) == DigitRun(digit, a)
  {
    if a == "" {
      assert a + b == b;
    } else {
      assert (a + b)[1..] == a[1..] + b;
      DigitRunStops(digit, a[1..], b);
    }
  }

  lemma MatchStops(digit: DigitClass, a: string, b: string)
    requires a != "" && digit(a[0])
    requires b != "" && !digit(b[0]) && b[0] != ',' && b[0] != '.'
    ensures MatchLength(digit, a + b) == MatchLength(digit, a)
  {
    GroupRunStops(digit, a, b);
    var whole := GroupRun(digit, a);
    if whole < |a| {
      assert (a + b)[whole + 1..] == a[whole + 1..] + b;
      DigitRunStops(digit, a[whole + 1..], b);
    }
  }

  /** No numeral runs across a character that is neither a digit, a comma nor a point. */
  lemma {:induction false} NumeralsSplit(digit: DigitClass, a: string, b: string)
    requires b != "" && !digit(b[0]) && b[0] != ',' && b[0] != '.'
    ensures FindNumerals(digit, a + b) == FindNumerals(digit, a) + FindNumerals(digit, b)
    decreases |a|
  {
    hide MatchLength;
    if a == "" {
      assert a + b == b;
    } else if !digit(a[0]) {
      assert (a + b)[1..] == a[1..] + b;
      NumeralsSplit(digit, a[1..], b);
    } else {
      var n := MatchLength(digit, a);
      MatchStops(digit, a, b);
      assert (a + b)[..n] == a[..n] && (a + b)[n..] == a[n..] + b;
      NumeralsSplit(digit, a[n..], b);
    }
  }

  lemma {:induction false} NoDigitsNoNumerals(digit: DigitClass, s: string)
    requires forall i :: 0 <= i < |s| ==> !digit(s[i])
    ensures FindNumerals(digit, s) == []
  {
    if s != "" { NoDigitsNoNumerals(digit, s[1..]); }
  }
}
