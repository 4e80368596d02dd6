/** Checking that every number in a narrative section comes from the facts the section cites. */
module Grounding {
  import opened Numerals
  import opened Text

  datatype Fact = Fact(key: string, render: string)

  datatype Verdict = Accepted | Banned(phrase: string) | Ungrounded(numeral: string)

  const BANNED_PHRASES: seq<string> := [
    "impossible", "ineligible", "unaffordable", "cannot", "not allowed", "guaranteed", "guarantee", "eligible",
    "sanctioned", "approved", "qualifies", "will earn", "success", "probability", "safe investment", "risk-free"]

  function JoinSpaces(parts: seq<string>): string {
    if parts == [] then ""
    else if |parts| == 1 then parts[0]
    else parts[0] + (" " + JoinSpaces(parts[1..]))
  }

  /** The renders of the cited facts, in bundle order. */
  function CitedRenders(facts: seq<Fact>, cited: set<string>): seq<string> {
    if facts == [] then []
    else (if facts[0].key in cited then [facts[0].render] else []) + CitedRenders(facts[1..], cited)
  }

  function WithoutCommas(numerals: seq<string>): (ns: seq<string>)
    ensures |ns| == |numerals|
    ensures forall i :: 0 <= i < |ns| ==> ns[i] == StripCommas(numerals[i])
  {
    if numerals == [] then [] else [StripCommas(numerals[0])] + WithoutCommas(numerals[1..])
  }

  /** The comma-free numerals of a text. */
  function NumbersIn(digit: DigitClass, text: string): seq<string> {
    WithoutCommas(FindNumerals(digit, text))
  }

  // ---- what the check is for ----

  predicate Clean(lowered: string) {
    forall k :: 0 <= k < |BANNED_PHRASES| ==> !Occurs(BANNED_PHRASES[k], lowered)
  }

  /** Some fact the section cites shows this number. */
  ghost predicate Shown(digit: DigitClass, facts: seq<Fact>, cited: set<string>, number: string) {
    exists k :: 0 <= k < |facts| && facts[k].key in cited && number in NumbersIn(digit, facts[k].render)
  }

  ghost predicate Grounded(digit: DigitClass, text: string, lowered: string, facts: seq<Fact>, cited: set<string>,
                           minDigitRun: int)
  {
    && Clean(lowered)
    && forall n :: n in NumbersIn(digit, text) && |n| >= minDigitRun ==> Shown(digit, facts, cited, n)
  }

  /** Accepts exactly the grounded sections, and names an offender otherwise. */
  method CheckSection(digit: DigitClass, text: string, lowered: string, facts: seq<Fact>, cited: set<string>,
                      minDigitRun: int)
    returns (verdict: Verdict)
    requires Sane(digit)
    ensures verdict.Accepted? <==> Grounded(digit, text, lowered, facts, cited, minDigitRun)
    ensures verdict.Banned? ==> verdict.phrase in BANNED_PHRASES && Occurs(verdict.phrase, lowered)
    ensures verdict.Ungrounded? ==> verdict.numeral in NumbersIn(digit, text) && |verdict.numeral| >= minDigitRun
                                    && !Shown(digit, facts, cited, verdict.numeral)
  {
    hide Occurs, NumbersIn, Shown, CitedRenders, JoinSpaces, BANNED_PHRASES;
    for k := 0 to |BANNED_PHRASES|
      invariant forall j :: 0 <= j < k ==> !Occurs(BANNED_PHRASES[j], lowered)
    {
      if Occurs(BANNED_PHRASES[k], lowered) { return Banned(BANNED_PHRASES[k]); }
    }
    var renders := CitedRenders(facts, cited);
    var allowed := NumbersIn(digit, JoinSpaces(renders));
    AllowedExactlyWhenShown(digit, facts, cited);
    var numbers := NumbersIn(digit, text);
    for k := 0 to |numbers|
      invariant forall n :: n in numbers[..k] && |n| >= minDigitRun ==> Shown(digit, facts, cited, n)
    {
      if |numbers[k]| >= minDigitRun && numbers[k] !in allowed { return Ungrounded(numbers[k]); }
      assert numbers[..k + 1] == numbers[..k] + [numbers[k]];
    }
    assert numbers[..|numbers|] == numbers;
    return Accepted;
  }

  // ---- the renders are joined into one text before they are tokenized ----

  lemma {:induction false} WithoutCommasJoins(a: seq<string>, b: seq<string>)
    ensures WithoutCommas(a + b) == WithoutCommas(a) + WithoutCommas(b)
  {
  }

  /** The blank between two parts belongs to no numeral. */
  lemma NumbersSplit(digit: DigitClass, a: string, b: string)
    requires Sane(digit)
    ensures NumbersIn(digit, a + (" " + b)) == NumbersIn(digit, a) + NumbersIn(digit, b)
  {
    NumeralsSplit(digit, a, " " + b);
    assert (" " + b)[1..] == b;
    WithoutCommasJoins(FindNumerals(digit, a), FindNumerals(digit, " " + b));
  }

  /** The numbers of the joined text are exactly the numbers of its parts. */
  lemma {:induction false} NumbersOfJoin(digit: DigitClass, parts: seq<string>, n: string)
    requires Sane(digit)
    ensures n in NumbersIn(digit, JoinSpaces(parts)) <==> exists k :: 0 <= k < |parts| && n in NumbersIn(digit, parts[k])
  {
    if |parts| > 1 {
      NumbersSplit(digit, parts[0], JoinSpaces(parts[1..]));
      NumbersOfJoin(digit, parts[1..], n);
      assert forall k :: 1 <= k < |parts| ==> parts[k] == parts[1..][k - 1];
      assert forall k :: 0 <= k < |parts| - 1 ==> parts[1..][k] == parts[k + 1];
    }
  }

  lemma {:induction false} CitedIsListed(facts: seq<Fact>, cited: set<string>, render: string)
    ensures render in CitedRenders(facts, cited) <==>
              exists k :: 0 <= k < |facts| && facts[k].key in cited && facts[k].render == render
  {
    if facts != [] { CitedIsListed(facts[1..], cited, render); }
  }

  lemma AllowedExactlyWhenShown(digit: DigitClass, facts: seq<Fact>, cited: set<string>)
    requires Sane(digit)
    ensures forall n :: n in NumbersIn(digit, JoinSpaces(CitedRenders(facts, cited))) <==> Shown(digit, facts, cited, n)
  {
    var renders := CitedRenders(facts, cited);
    forall n ensures n in NumbersIn(digit, JoinSpaces(renders)) <==> Shown(digit, facts, cited, n) {
      NumbersOfJoin(digit, renders, n);
      if k :| 0 <= k < |renders| && n in NumbersIn(digit, renders[k]) { CitedIsListed(facts, cited, renders[k]); }
      if k :| 0 <= k < |facts| && facts[k].key in cited && n in NumbersIn(digit, facts[k].render) {
        CitedIsListed(facts, cited, facts[k].render);
      }
    }
  }

  // ---- consequences ----

  /** Citing more, or a bundle with more facts, never turns an accepted section away. */
  lemma AcceptanceIsMonotone(digit: DigitClass, text: string, lowered: string, minDigitRun: int,
                             facts: seq<Fact>, cited: set<string>, facts': seq<Fact>, cited': set<string>)
    requires Grounded(digit, text, lowered, facts, cited, minDigitRun)
    requires cited <= cited' && forall x :: x in facts ==> x in facts'
    ensures Grounded(digit, text, lowered, facts', cited', minDigitRun)
  {
    forall n | n in NumbersIn(digit, text) && |n| >= minDigitRun ensures Shown(digit, facts', cited', n) {
      var k :| 0 <= k < |facts| && facts[k].key in cited && n in NumbersIn(digit, facts[k].render);
      assert facts[k] in facts';
    }
  }

  predicate DigitFree(digit: DigitClass, s: string) {
    forall i :: 0 <= i < |s| ==> !digit(s[i])
  }

  /** Text put together from cited renders and digit-free words, with blanks between, passes at every threshold. */
  lemma CitedProseIsGrounded(digit: DigitClass, pieces: seq<string>, lowered: string, facts: seq<Fact>,
                             cited: set<string>, minDigitRun: int)
    requires Sane(digit) && Clean(lowered)
    requires forall p :: p in pieces ==> DigitFree(digit, p) || p in CitedRenders(facts, cited)
    ensures Grounded(digit, JoinSpaces(pieces), lowered, facts, cited, minDigitRun)
  {
    forall n | n in NumbersIn(digit, JoinSpaces(pieces)) ensures Shown(digit, facts, cited, n) {
      NumbersOfJoin(digit, pieces, n);
      var k :| 0 <= k < |pieces| && n in NumbersIn(digit, pieces[k]);
      if DigitFree(digit, pieces[k]) { NoDigitsNoNumerals(digit, pieces[k]); }
      CitedIsListed(facts, cited, pieces[k]);
    }
  }

  /** A section that cites nothing may show no number at all. */
  lemma UncitedMeansDigitFree(digit: DigitClass, text: string, lowered: string, facts: seq<Fact>, minDigitRun: int)
    requires minDigitRun <= 1 && Sane(digit)
    ensures Grounded(digit, text, lowered, facts, {}, minDigitRun) <==> Clean(lowered) && DigitFree(digit, text)
  {
    if DigitFree(digit, text) {
      NoDigitsNoNumerals(digit, text);
    } else {
      var n := SomeNumber(digit, text);
      assert !Shown(digit, facts, {}, n);
    }
  }

  lemma {:induction false} SomeNumber(digit: DigitClass, text: string) returns (n: string)
    requires !DigitFree(digit, text) && Sane(digit)
    ensures n in NumbersIn(digit, text) && n != ""
    decreases |text|
  {
    if digit(text[0]) {
      var numeral := text[..MatchLength(digit, text)];
      n := StripCommas(numeral);
      assert numeral[0] == text[0] != ',';
      assert FindNumerals(digit, text)[0] == numeral;
      assert NumbersIn(digit, text)[0] == n;
    } else {
      n := SomeNumber(digit, text[1..]);
    }
  }
}
