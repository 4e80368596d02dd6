/** The loan schedule month by month, and its regrouping into quarters. Money is counted in paise. */
module Repayment {

  datatype MoratoriumPeriod = MoratoriumPeriod(period: int, opening: int, accrued: int, paid: int, closing: int)

  datatype AmortisationPeriod = AmortisationPeriod(period: int, opening: int, interest: int, principal: int, closing: int)

  /** `lump` is the interest accrued during the moratorium and settled when instalments begin. */
  datatype Debt = Debt(
    moratoriumMonths: int,
    moratorium: seq<MoratoriumPeriod>,
    amortisation: seq<AmortisationPeriod>,
    lump: int)

  datatype Month = Month(calendar: int, inMoratorium: bool, opening: int, principal: int, interest: int, closing: int,
                         noted: bool)

  datatype Status = Moratorium | Repaying | Mixed

  datatype Quarter = Quarter(number: nat, firstMonth: int, lastMonth: int, status: Status, opening: int,
                             principal: int, interest: int, total: int, closing: int, noted: bool)

  // ---- sums ----

  function Principal(ms: seq<Month>): int {
    if ms == [] then 0 else ms[0].principal + Principal(ms[1..])
  }

  function Interest(ms: seq<Month>): int {
    if ms == [] then 0 else ms[0].interest + Interest(ms[1..])
  }

  function QuarterPrincipal(qs: seq<Quarter>): int {
    if qs == [] then 0 else QuarterPrincipal(qs[..|qs| - 1]) + qs[|qs| - 1].principal
  }

  function QuarterInterest(qs: seq<Quarter>): int {
    if qs == [] then 0 else QuarterInterest(qs[..|qs| - 1]) + qs[|qs| - 1].interest
  }

  function PaidDuringMoratorium(ps: seq<MoratoriumPeriod>): int {
    if ps == [] then 0 else ps[0].paid + PaidDuringMoratorium(ps[1..])
  }

  function Amortised(ps: seq<AmortisationPeriod>): int {
    if ps == [] then 0 else ps[0].principal + Amortised(ps[1..])
  }

  function AmortisedInterest(ps: seq<AmortisationPeriod>): int {
    if ps == [] then 0 else ps[0].interest + AmortisedInterest(ps[1..])
  }

  lemma {:induction false} SumsJoin(a: seq<Month>, b: seq<Month>)
    ensures Principal(a + b) == Principal(a) + Principal(b)
    ensures Interest(a + b) == Interest(a) + Interest(b)
  {
    if a == [] {
      assert a + b == b;
    } else {
      SumsJoin(a[1..], b);
      assert (a + b)[1..] == a[1..] + b;
    }
  }

  // ---- month rows ----

  function MoratoriumMonth(p: MoratoriumPeriod): Month {
    Month(p.period, true, p.opening, 0, p.paid, p.closing, false)
  }

  function RepaymentMonth(d: Debt, i: nat): Month
    requires i < |d.amortisation|
  {
    var p, lump := d.amortisation[i], if i == 0 then d.lump else 0;
    Month(d.moratoriumMonths + p.period, false, p.opening, p.principal, p.interest + lump, p.closing, lump > 0)
  }

  ghost predicate AreMonths(d: Debt, rows: seq<Month>) {
    && |rows| == |d.moratorium| + |d.amortisation|
    && (forall i :: 0 <= i < |d.moratorium| ==> rows[i] == MoratoriumMonth(d.moratorium[i]))
    && forall i :: |d.moratorium| <= i < |rows| ==> rows[i] == RepaymentMonth(d, i - |d.moratorium|)
  }

  method MonthRows(d: Debt) returns (rows: seq<Month>)
    ensures AreMonths(d, rows)
  {
    rows := [];
    for i := 0 to |d.moratorium|
      invariant |rows| == i && forall k :: 0 <= k < i ==> rows[k] == MoratoriumMonth(d.moratorium[k])
    {
      rows := rows + [MoratoriumMonth(d.moratorium[i])];
    }
    for i := 0 to |d.amortisation|
      invariant |rows| == |d.moratorium| + i
      invariant forall k :: 0 <= k < |d.moratorium| ==> rows[k] == MoratoriumMonth(d.moratorium[k])
      invariant forall k :: |d.moratorium| <= k < |rows| ==> rows[k] == RepaymentMonth(d, k - |d.moratorium|)
    {
      rows := rows + [RepaymentMonth(d, i)];
    }
  }

  lemma {:induction false} MoratoriumSums(ps: seq<MoratoriumPeriod>, rows: seq<Month>)
    requires |rows| == |ps| && forall i :: 0 <= i < |ps| ==> rows[i] == MoratoriumMonth(ps[i])
    ensures Principal(rows) == 0 && Interest(rows) == PaidDuringMoratorium(ps)
  {
    if ps != [] { MoratoriumSums(ps[1..], rows[1..]); }
  }

  lemma {:induction false} RepaymentSums(ps: seq<AmortisationPeriod>, rows: seq<Month>, lump: int)
    requires |rows| == |ps|
    requires forall i :: 0 <= i < |ps| ==>
               rows[i].principal == ps[i].principal && rows[i].interest == ps[i].interest + if i == 0 then lump else 0
    ensures Principal(rows) == Amortised(ps)
    ensures Interest(rows) == AmortisedInterest(ps) + if ps == [] then 0 else lump
  {
    if ps != [] { RepaymentSums(ps[1..], rows[1..], 0); }
  }

  /** The deferred interest is counted once, in the first repayment month, and only if there is one. */
  lemma MonthsCarryEverything(d: Debt, rows: seq<Month>)
    requires AreMonths(d, rows)
    ensures Principal(rows) == Amortised(d.amortisation)
    ensures Interest(rows) == PaidDuringMoratorium(d.moratorium) + AmortisedInterest(d.amortisation)
                              + if d.amortisation == [] then 0 else d.lump
  {
    var k := |d.moratorium|;
    assert rows == rows[..k] + rows[k..];
    SumsJoin(rows[..k], rows[k..]);
    MoratoriumSums(d.moratorium, rows[..k]);
    RepaymentSums(d.amortisation, rows[k..], d.lump);
  }

  // ---- quarters ----

  function CountMoratorium(ms: seq<Month>): nat {
    if ms == [] then 0 else (if ms[0].inMoratorium then 1 else 0) + CountMoratorium(ms[1..])
  }

  function StatusOf(chunk: seq<Month>): Status {
    if CountMoratorium(chunk) == |chunk| then Moratorium
    else if CountMoratorium(chunk) == 0 then Repaying
    else Mixed
  }

  lemma {:induction false} CountIs(ms: seq<Month>)
    ensures CountMoratorium(ms) <= |ms|
    ensures CountMoratorium(ms) == |ms| <==> forall i :: 0 <= i < |ms| ==> ms[i].inMoratorium
    ensures CountMoratorium(ms) == 0 <==> forall i :: 0 <= i < |ms| ==> !ms[i].inMoratorium
  {
    if ms != [] {
      CountIs(ms[1..]);
      assert ms == [ms[0]] + ms[1..];
    }
  }

  /** A quarter is a moratorium quarter if all its months are, a repayment quarter if none is, and mixed otherwise. */
  lemma StatusIs(chunk: seq<Month>)
    requires chunk != []
    ensures StatusOf(chunk) == Moratorium <==> forall i :: 0 <= i < |chunk| ==> chunk[i].inMoratorium
    ensures StatusOf(chunk) == Repaying <==> forall i :: 0 <= i < |chunk| ==> !chunk[i].inMoratorium
    ensures StatusOf(chunk) == Mixed <==>
              (exists i :: 0 <= i < |chunk| && chunk[i].inMoratorium) && exists i :: 0 <= i < |chunk| && !chunk[i].inMoratorium
  {
    CountIs(chunk);
    assert chunk[0].inMoratorium || !chunk[0].inMoratorium;
  }

  function Least(a: int, b: int): int { if a < b then a else b }

  /** The months of quarter `k`. */
  function Chunk(rows: seq<Month>, k: nat): seq<Month>
    requires 3 * k < |rows|
  {
    rows[3 * k..Least(3 * k + 3, |rows|)]
  }

  ghost predicate IsQuarter(rows: seq<Month>, k: nat, q: Quarter) {
    3 * k < |rows| && Summarises(Chunk(rows, k), k + 1, q)
  }

  ghost predicate Summarises(chunk: seq<Month>, number: nat, q: Quarter)
    requires |chunk| > 0
  {
    && q.number == number
    && q.firstMonth == chunk[0].calendar && q.lastMonth == chunk[|chunk| - 1].calendar
    && q.status == StatusOf(chunk)
    && q.opening == chunk[0].opening && q.closing == chunk[|chunk| - 1].closing
    && q.principal == Principal(chunk) && q.interest == Interest(chunk) && q.total == q.principal + q.interest
    && (q.noted <==> exists i :: 0 <= i < |chunk| && chunk[i].noted)
  }

  /** One quarter from its months. */
  method QuarterOf(chunk: seq<Month>, number: nat) returns (q: Quarter)
    requires |chunk| > 0
    ensures Summarises(chunk, number, q)
  {
    var principal, interest, noted := 0, 0, false;
    for i := 0 to |chunk|
      invariant principal == Principal(chunk[..i]) && interest == Interest(chunk[..i])
      invariant noted <==> exists j :: 0 <= j < i && chunk[j].noted
    {
      assert chunk[..i + 1] == chunk[..i] + [chunk[i]];
      SumsJoin(chunk[..i], [chunk[i]]);
      principal, interest := principal + chunk[i].principal, interest + chunk[i].interest;
      noted := noted || chunk[i].noted;
    }
    assert chunk[..|chunk|] == chunk;
    var first, last := chunk[0], chunk[|chunk| - 1];
    q := Quarter(number, first.calendar, last.calendar, StatusOf(chunk), first.opening,
                 principal, interest, principal + interest, last.closing, noted);
  }

  method Quarters(d: Debt) returns (quarters: seq<Quarter>, ghost rows: seq<Month>)
    ensures AreMonths(d, rows)
    ensures |quarters| == (|rows| + 2) / 3
    ensures forall k :: 0 <= k < |quarters| ==> IsQuarter(rows, k, quarters[k])
    ensures QuarterPrincipal(quarters) == Amortised(d.amortisation)
    ensures QuarterInterest(quarters) == PaidDuringMoratorium(d.moratorium) + AmortisedInterest(d.amortisation)
                                         + if d.amortisation == [] then 0 else d.lump
  {
    var months := MonthRows(d);
    rows := months;
    MonthsCarryEverything(d, rows);
    quarters := [];
    var start := 0;
    while start < |months|
      invariant start == 3 * |quarters| && 3 * |quarters| < |months| + 3
      invariant forall k :: 0 <= k < |quarters| ==> IsQuarter(rows, k, quarters[k])
    {
      var q := QuarterOf(Chunk(months, |quarters|), |quarters| + 1);
      assert IsQuarter(rows, |quarters|, q);
      quarters := quarters + [q];
      start := start + 3;
    }
    QuartersConserve(rows, quarters);
    assert rows[..|rows|] == rows;
  }

  /** Regrouping changes no total. */
  lemma {:induction false} QuartersConserve(rows: seq<Month>, quarters: seq<Quarter>)
    requires |quarters| <= (|rows| + 2) / 3
    requires forall k :: 0 <= k < |quarters| ==> IsQuarter(rows, k, quarters[k])
    ensures QuarterPrincipal(quarters) == Principal(rows[..Least(3 * |quarters|, |rows|)])
    ensures QuarterInterest(quarters) == Interest(rows[..Least(3 * |quarters|, |rows|)])
  {
    if quarters != [] {
      var n := |quarters| - 1;
      QuartersConserve(rows, quarters[..n]);
      assert IsQuarter(rows, n, quarters[n]);
      NextChunk(rows, n);
    }
  }

  lemma NextChunk(rows: seq<Month>, k: nat)
    requires 3 * k < |rows|
    ensures Principal(rows[..Least(3 * k + 3, |rows|)]) == Principal(rows[..3 * k]) + Principal(Chunk(rows, k))
    ensures Interest(rows[..Least(3 * k + 3, |rows|)]) == Interest(rows[..3 * k]) + Interest(Chunk(rows, k))
  {
    assert rows[..Least(3 * k + 3, |rows|)] == rows[..3 * k] + Chunk(rows, k);
    SumsJoin(rows[..3 * k], Chunk(rows, k));
  }

  // ---- what the reader sees ----

  ghost predicate Chains(rows: seq<Month>) {
    forall i, j :: 0 <= i && j == i + 1 && j < |rows| ==> rows[j].opening == rows[i].closing
  }

  /** Balances carry over from quarter to quarter whenever they do from month to month. */
  lemma QuartersChain(rows: seq<Month>, quarters: seq<Quarter>, k: nat)
    requires Chains(rows) && k + 1 < |quarters|
    requires forall k :: 0 <= k < |quarters| ==> IsQuarter(rows, k, quarters[k])
    ensures quarters[k + 1].opening == quarters[k].closing
  {
  }

  /** Moratorium quarters come first, then at most one mixed one, then repayment. */
  lemma StatusesAreInOrder(d: Debt, rows: seq<Month>, quarters: seq<Quarter>, k: nat, l: nat)
    requires AreMonths(d, rows) && k < l < |quarters|
    requires forall k :: 0 <= k < |quarters| ==> IsQuarter(rows, k, quarters[k])
    ensures quarters[l].status == Moratorium ==> quarters[k].status == Moratorium
    ensures quarters[k].status != Moratorium ==> quarters[l].status == Repaying
  {
    assert IsQuarter(rows, k, quarters[k]) && IsQuarter(rows, l, quarters[l]);
    var a, b := Chunk(rows, k), Chunk(rows, l);
    CountIs(a);
    CountIs(b);
    assert forall i :: 0 <= i < |rows| ==> (rows[i].inMoratorium <==> i < |d.moratorium|);
    assert forall i :: 0 <= i < |a| ==> a[i] == rows[3 * k + i];
    assert forall i :: 0 <= i < |b| ==> b[i] == rows[3 * l + i];
    if quarters[k].status != Moratorium {
      var i :| 0 <= i < |a| && !a[i].inMoratorium;
      assert 3 * k + i >= |d.moratorium|;
    } else if quarters[l].status == Moratorium {
      assert b[0].inMoratorium;
    }
  }

  // ---- the schedule the engine hands over ----

  datatype Treatment = Serviced | Capitalised | AccruedPaidOnStart

  /** `q_money(balance * monthly_rate)`, left as a parameter. */
  type InterestRule = int -> int

  function Moratoria(rule: InterestRule, treatment: Treatment, balance: int, period: nat, months: nat)
    : (seq<MoratoriumPeriod>, int)
    decreases months
  {
    if months == 0 then ([], balance) else
      var interest := rule(balance);
      var closing := if treatment == Capitalised then balance + interest else balance;
      var p := MoratoriumPeriod(period, balance, interest, if treatment == Serviced then interest else 0, closing);
      var (rest, end) := Moratoria(rule, treatment, closing, period + 1, months - 1);
      ([p] + rest, end)
  }

  function Instalments(rule: InterestRule, emi: int, balance: int, period: nat, months: nat): seq<AmortisationPeriod>
    decreases months
  {
    if months == 0 then [] else
      var interest := rule(balance);
      var principal := if months > 1 then emi - interest else balance;
      [AmortisationPeriod(period, balance, interest, principal, balance - principal)]
      + Instalments(rule, emi, balance - principal, period + 1, months - 1)
  }

  function Accrued(ps: seq<MoratoriumPeriod>): int {
    if ps == [] then 0 else ps[0].accrued + Accrued(ps[1..])
  }

  function Schedule(rule: InterestRule, emi: int, treatment: Treatment, principal: int, moratorium: nat, tenure: nat): Debt
  {
    var (ps, start) := Moratoria(rule, treatment, principal, 1, moratorium);
    Debt(moratorium, ps, Instalments(rule, emi, start, 1, tenure), if treatment == AccruedPaidOnStart then Accrued(ps) else 0)
  }

  lemma {:induction false} MoratoriaFacts(rule: InterestRule, treatment: Treatment, balance: int, period: nat, months: nat)
    ensures var (ps, end) := Moratoria(rule, treatment, balance, period, months);
            && |ps| == months
            && (ps != [] ==> ps[0].opening == balance && ps[|ps| - 1].closing == end)
            && (ps == [] ==> end == balance)
            && (treatment == Capitalised ==> end == balance + Accrued(ps))
            && (treatment != Capitalised ==> end == balance)
            && PaidDuringMoratorium(ps) == if treatment == Serviced then Accrued(ps) else 0
    decreases months
  {
    if months > 0 {
      var closing := if treatment == Capitalised then balance + rule(balance) else balance;
      MoratoriaFacts(rule, treatment, closing, period + 1, months - 1);
    }
  }

  lemma {:induction false} MoratoriaChain(rule: InterestRule, treatment: Treatment, balance: int, period: nat,
                                          months: nat, i: nat)
    requires i < months
    ensures var ps := Moratoria(rule, treatment, balance, period, months).0;
            && |ps| == months && ps[i].period == period + i
            && (i == 0 ==> ps[i].opening == balance) && (i > 0 ==> ps[i].opening == ps[i - 1].closing)
    decreases months
  {
    var closing := if treatment == Capitalised then balance + rule(balance) else balance;
    MoratoriaFacts(rule, treatment, closing, period + 1, months - 1);
    if i > 0 { MoratoriaChain(rule, treatment, closing, period + 1, months - 1, i - 1); }
  }

  lemma {:induction false} InstalmentFacts(rule: InterestRule, emi: int, balance: int, period: nat, months: nat)
    ensures var ps := Instalments(rule, emi, balance, period, months);
            && |ps| == months
            && (ps != [] ==> ps[0].opening == balance && ps[|ps| - 1].closing == 0 && Amortised(ps) == balance)
    decreases months
  {
    if months > 0 {
      var principal := if months > 1 then emi - rule(balance) else balance;
      InstalmentFacts(rule, emi, balance - principal, period + 1, months - 1);
      var rest := Instalments(rule, emi, balance - principal, period + 1, months - 1);
      var ps := Instalments(rule, emi, balance, period, months);
      assert ps[1..] == rest;
      if months > 1 { assert ps[|ps| - 1] == rest[|rest| - 1]; }
    }
  }

  lemma {:induction false} InstalmentChain(rule: InterestRule, emi: int, balance: int, period: nat, months: nat, i: nat)
    requires i < months
    ensures var ps := Instalments(rule, emi, balance, period, months);
            && |ps| == months && ps[i].period == period + i
            && (i == 0 ==> ps[i].opening == balance) && (i > 0 ==> ps[i].opening == ps[i - 1].closing)
    decreases months
  {
    var principal := if months > 1 then emi - rule(balance) else balance;
    InstalmentFacts(rule, emi, balance - principal, period + 1, months - 1);
    var rest := Instalments(rule, emi, balance - principal, period + 1, months - 1);
    var ps := Instalments(rule, emi, balance, period, months);
    assert ps[1..] == rest;
    if i > 0 {
      InstalmentChain(rule, emi, balance - principal, period + 1, months - 1, i - 1);
      assert ps[i] == rest[i - 1];
      if i > 1 { assert ps[i - 1] == rest[i - 2]; }
    }
  }

  /**
   Over any loan: the quarters repay exactly what was lent plus what was capitalised, no accrued interest is lost
   whatever the treatment, months are numbered without gaps, balances chain, and the last one closes at zero.
   */
  lemma ScheduleIsComplete(rule: InterestRule, emi: int, treatment: Treatment, principal: int, moratorium: nat, tenure: nat,
                           rows: seq<Month>)
    requires tenure > 0
    requires AreMonths(Schedule(rule, emi, treatment, principal, moratorium, tenure), rows)
    ensures var d := Schedule(rule, emi, treatment, principal, moratorium, tenure);
            && |rows| == moratorium + tenure
            && (forall i :: 0 <= i < |rows| ==> rows[i].calendar == i + 1)
            && Chains(rows) && rows[0].opening == principal && rows[|rows| - 1].closing == 0
            && Principal(rows) == principal + (if treatment == Capitalised then Accrued(d.moratorium) else 0)
            && Principal(rows) + Interest(rows) == principal + Accrued(d.moratorium) + AmortisedInterest(d.amortisation)
  {
    var d := Schedule(rule, emi, treatment, principal, moratorium, tenure);
    var start := Moratoria(rule, treatment, principal, 1, moratorium).1;
    MoratoriaFacts(rule, treatment, principal, 1, moratorium);
    InstalmentFacts(rule, emi, start, 1, tenure);
    MonthsCarryEverything(d, rows);
    forall j | 0 <= j < |rows| ensures MonthFollows(principal, rows, j) {
      MonthFollowsAt(rule, emi, treatment, principal, moratorium, tenure, rows, j);
    }
    FollowingChains(principal, rows);
    assert rows[|rows| - 1] == RepaymentMonth(d, tenure - 1);
  }

  lemma FollowingChains(principal: int, rows: seq<Month>)
    requires |rows| > 0 && forall j :: 0 <= j < |rows| ==> MonthFollows(principal, rows, j)
    ensures Chains(rows) && rows[0].opening == principal && forall i :: 0 <= i < |rows| ==> rows[i].calendar == i + 1
  {
    forall i | 0 <= i < |rows| ensures rows[i].calendar == i + 1 { assert MonthFollows(principal, rows, i); }
    forall i, j | 0 <= i && j == i + 1 && j < |rows| ensures rows[j].opening == rows[i].closing {
      assert MonthFollows(principal, rows, j);
    }
    assert MonthFollows(principal, rows, 0);
  }

  /** Row `j` is numbered `j + 1` and opens where the previous one closed. */
  ghost predicate MonthFollows(principal: int, rows: seq<Month>, j: nat)
    requires j < |rows|
  {
    rows[j].calendar == j + 1 && rows[j].opening == if j == 0 then principal else rows[j - 1].closing
  }

  lemma MonthFollowsAt(rule: InterestRule, emi: int, treatment: Treatment, principal: int, moratorium: nat, tenure: nat,
                       rows: seq<Month>, j: nat)
    requires tenure > 0 && j < |rows|
    requires AreMonths(Schedule(rule, emi, treatment, principal, moratorium, tenure), rows)
    ensures MonthFollows(principal, rows, j)
  {
    hide Moratoria, Instalments, Accrued;
    var start := Moratoria(rule, treatment, principal, 1, moratorium).1;
    MoratoriaFacts(rule, treatment, principal, 1, moratorium);
    InstalmentFacts(rule, emi, start, 1, tenure);
    if j < moratorium {
      MoratoriaChain(rule, treatment, principal, 1, moratorium, j);
    } else {
      InstalmentChain(rule, emi, start, 1, tenure, j - moratorium);
    }
  }

  lemma {:induction false} MoratoriumRow(rule: InterestRule, treatment: Treatment, balance: int, period: nat, months: nat,
                                         i: nat)
    requires i < months
    ensures var ps := Moratoria(rule, treatment, balance, period, months).0;
            && |ps| == months && ps[i].accrued == rule(ps[i].opening)
            && ps[i].paid == (if treatment == Serviced then rule(ps[i].opening) else 0)
            && ps[i].closing == ps[i].opening + if treatment == Capitalised then rule(ps[i].opening) else 0
    decreases months
  {
    var closing := if treatment == Capitalised then balance + rule(balance) else balance;
    MoratoriaFacts(rule, treatment, closing, period + 1, months - 1);
    if i > 0 { MoratoriumRow(rule, treatment, closing, period + 1, months - 1, i - 1); }
  }

  lemma {:induction false} InstalmentRow(rule: InterestRule, emi: int, balance: int, period: nat, months: nat, i: nat)
    requires i < months
    ensures var ps := Instalments(rule, emi, balance, period, months);
            && |ps| == months && ps[i].interest == rule(ps[i].opening)
            && ps[i].principal == (if i < months - 1 then emi - rule(ps[i].opening) else ps[i].opening)
            && ps[i].closing == ps[i].opening - ps[i].principal
    decreases months
  {
    var principal := if months > 1 then emi - rule(balance) else balance;
    InstalmentFacts(rule, emi, balance - principal, period + 1, months - 1);
    if i > 0 { InstalmentRow(rule, emi, balance - principal, period + 1, months - 1, i - 1); }
  }

  /**
   Row by row: in the moratorium nothing is repaid, and interest is paid, added to the balance or deferred; afterwards
   every instalment but the last is level, the last one clears the balance, and what was deferred is settled and noted
   in the first.
   */
  lemma RowsAreAsAgreed(rule: InterestRule, emi: int, treatment: Treatment, principal: int, moratorium: nat, tenure: nat,
                        rows: seq<Month>, j: nat)
    requires tenure > 0 && j < |rows|
    requires AreMonths(Schedule(rule, emi, treatment, principal, moratorium, tenure), rows)
    ensures var deferred := if treatment == AccruedPaidOnStart && j == moratorium
                            then Accrued(Schedule(rule, emi, treatment, principal, moratorium, tenure).moratorium) else 0;
            var row, due := rows[j], rule(rows[j].opening);
            && (row.inMoratorium <==> j < moratorium)
            && (j < moratorium ==>
                  && row.principal == 0 && row.interest == (if treatment == Serviced then due else 0) && !row.noted
                  && row.closing == row.opening + if treatment == Capitalised then due else 0)
            && (j >= moratorium ==>
                  && row.interest == due + deferred && (row.noted <==> deferred > 0)
                  && row.closing == row.opening - row.principal
                  && if j < |rows| - 1 then row.principal + due == emi else row.principal == row.opening)
  {
    hide Moratoria, Instalments, Accrued;
    var start := Moratoria(rule, treatment, principal, 1, moratorium).1;
    MoratoriaFacts(rule, treatment, principal, 1, moratorium);
    InstalmentFacts(rule, emi, start, 1, tenure);
    if j < moratorium {
      MoratoriumRow(rule, treatment, principal, 1, moratorium, j);
    } else {
      InstalmentRow(rule, emi, start, 1, tenure, j - moratorium);
    }
  }
}
