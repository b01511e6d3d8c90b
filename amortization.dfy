/** The month-by-month amortization simulator of the loan calculator
    (generateAmortizationSchedule and calculateMonthlyInterest in
    src/utils/loanMath.js). Money amounts are exact reals; a row's date is
    its offset in calendar months from the loan's start date. */
module Amortization {

  datatype Option<T> = None | Some(value: T)

  /** The defensive bound on simulated months (100 years). */
  const MaxIterations: nat := 1200

  /** A remaining debt at or below this amount counts as paid off. */
  const PaidOffThreshold: real := 0.01

  /** The error conditions of the calculator, one per error string it returns. */
  datatype LoanError =
    | TermExceeded
    | PaymentBelowInterest
    | IterationLimitExceeded
    | PaymentNotFound
    | MaxLoanNotFound

  /** One schedule row: `month` is 1-based, `date` is the month offset from the start date. */
  datatype Row = Row(
    month: nat,
    date: nat,
    interest: real,
    principal: real,
    extraPayment: real,
    remainingDebt: real)

  /** The simulator's inputs that stay fixed for the whole run; `maxMonths`
      is the optional term cap (None when the caller passes null). */
  datatype Terms = Terms(
    interestRate: real,
    monthlyPayment: real,
    annualExtraPayment: real,
    maxMonths: Option<int>)

  /** The simulator's result record; `error` is None exactly on success. */
  datatype ScheduleResult = ScheduleResult(
    schedule: seq<Row>,
    totalPayment: real,
    totalInterest: real,
    months: nat,
    error: Option<LoanError>)

  /** The record every failure returns. */
  function Failed(e: LoanError): ScheduleResult
  {
    ScheduleResult([], 0.0, 0.0, 0, Some(e))
  }

  function Max(a: real, b: real): real
  {
    if a >= b then a else b
  }

  /** Simple monthly interest on the current balance (annual rate in percent). */
  function MonthlyInterest(debt: real, annualRate: real): real
  {
    debt * annualRate / 100.0 / 12.0
  }

  /** The monthly interest is a twelfth of the annual percentage, and never
      negative on a non-negative debt at a non-negative rate. */
  lemma MonthlyInterestFacts(debt: real, annualRate: real)
    ensures MonthlyInterest(debt, annualRate) * 1200.0 == debt * annualRate
    ensures debt >= 0.0 && annualRate >= 0.0 ==> MonthlyInterest(debt, annualRate) >= 0.0
  {
  }

  /** The extra payment scheduled for 0-based month `month` before clamping:
      the annual amount at the end of each loan year, if it is positive. */
  function PlannedExtra(t: Terms, month: nat): real
  {
    if (month + 1) % 12 == 0 && t.annualExtraPayment > 0.0 then t.annualExtraPayment else 0.0
  }

  /** Within loan year `y` (0-based months 12y to 12y + 11) the extra
      payment is planned once, in the year's last month, and only when it
      is positive. */
  lemma PlannedExtraYearly(t: Terms, y: nat)
    ensures PlannedExtra(t, 12 * y + 11) == Max(0.0, t.annualExtraPayment)
    ensures forall m: nat :: 12 * y <= m < 12 * y + 11 ==> PlannedExtra(t, m) == 0.0
  {
    assert (12 * y + 11 + 1) % 12 == 0 by {
      assert 12 * y + 11 + 1 == 12 * (y + 1);
    }
    forall m: nat | 12 * y <= m < 12 * y + 11
      ensures PlannedExtra(t, m) == 0.0
    {
      assert m + 1 == 12 * y + (m + 1 - 12 * y) && 0 < m + 1 - 12 * y < 12;
      assert (m + 1) % 12 == m + 1 - 12 * y;
    }
  }

  /** What a single month does with `debt` outstanding: it charges the
      monthly interest, pays an extra payment only in full and only at a
      year end, never pays more than the outstanding debt, and records the
      debt it leaves, which is never negative. Either the regular split
      applies, or the month is the final one and absorbs exactly the whole
      balance, dropping the extra payment. */
  ghost predicate RowFollows(t: Terms, debt: real, row: Row)
  {
    && row.interest == MonthlyInterest(debt, t.interestRate)
    && (row.extraPayment == 0.0
        || (row.extraPayment == t.annualExtraPayment && t.annualExtraPayment > 0.0 && row.month % 12 == 0))
    && row.principal + row.extraPayment <= debt
    && row.remainingDebt == debt - (row.principal + row.extraPayment)
    && row.remainingDebt >= 0.0
    && (|| (row.principal == t.monthlyPayment - row.interest && row.extraPayment == PlannedExtra(t, row.date))
        || (row.principal == debt && row.extraPayment == 0.0 && row.remainingDebt == 0.0
            && t.monthlyPayment - row.interest + PlannedExtra(t, row.date) > debt))
  }

  /** The row produced for 0-based month `month` when `debt` is outstanding:
      numbered from 1, dated by its month offset, and following from the debt. */
  function MonthRow(t: Terms, debt: real, month: nat): (row: Row)
    ensures row.month == month + 1 && row.date == month
    ensures RowFollows(t, debt, row)
  {
    var interest := MonthlyInterest(debt, t.interestRate);
    var regular := t.monthlyPayment - interest;
    var extra := PlannedExtra(t, month);
    var clamped := regular + extra > debt;
    var principal := if clamped then debt else regular;
    var extraPayment := if clamped then 0.0 else extra;
    Row(month + 1, month, interest, principal, extraPayment, Max(0.0, debt - (principal + extraPayment)))
  }

  /** Puts one month in front of the rest of a run; a failure stays as it is. */
  function Prepend(row: Row, monthlyPayment: real, rest: ScheduleResult): ScheduleResult
  {
    if rest.error.Some? then rest
    else rest.(schedule := [row] + rest.schedule,
               totalPayment := monthlyPayment + row.extraPayment + rest.totalPayment,
               totalInterest := row.interest + rest.totalInterest)
  }

  /** The result of running the simulation from 0-based month `month` with
      `debt` outstanding: the rows from that month on, their totals, the
      month count at which the run ends, or the error that stops it. */
  function Amortize(t: Terms, debt: real, month: nat): (r: ScheduleResult)
    // `t` never changes; naming it keeps the verifier from unrolling a run
    // whose month count is a literal unless its terms are literal too
    decreases MaxIterations - month, t
    ensures r.error.Some? ==> r.schedule == [] && r.totalPayment == 0.0 && r.totalInterest == 0.0 && r.months == 0
    ensures r.schedule != [] ==> debt > PaidOffThreshold
  {
    if debt > PaidOffThreshold && month < MaxIterations then
      if t.maxMonths.Some? && month >= t.maxMonths.value then
        Failed(TermExceeded)
      else if t.monthlyPayment < MonthlyInterest(debt, t.interestRate) && t.annualExtraPayment == 0.0 then
        Failed(PaymentBelowInterest)
      else
        var row := MonthRow(t, debt, month);
        Prepend(row, t.monthlyPayment, Amortize(t, debt - (row.principal + row.extraPayment), month + 1))
    else if month >= MaxIterations then
      Failed(IterationLimitExceeded)
    else
      ScheduleResult([], 0.0, 0.0, month, None)
  }

  /** The whole simulation of a loan of `loanAmount`. */
  function Simulate(loanAmount: real, t: Terms): ScheduleResult
  {
    Amortize(t, loanAmount, 0)
  }

  /** The rows already produced, followed by the rest of the run. */
  ghost function Join(done: seq<Row>, paid: real, interest: real, rest: ScheduleResult): ScheduleResult
  {
    if rest.error.Some? then rest
    else rest.(schedule := done + rest.schedule,
               totalPayment := paid + rest.totalPayment,
               totalInterest := interest + rest.totalInterest)
  }

  lemma JoinPrepend(done: seq<Row>, paid: real, interest: real, row: Row, monthlyPayment: real, rest: ScheduleResult)
    ensures Join(done, paid, interest, Prepend(row, monthlyPayment, rest))
         == Join(done + [row], paid + (monthlyPayment + row.extraPayment), interest + row.interest, rest)
  {
    if rest.error.None? {
      assert done + ([row] + rest.schedule) == (done + [row]) + rest.schedule;
    }
  }

  /** One month of the run, when it neither hits the cap nor fails the interest check. */
  lemma AmortizeStep(t: Terms, debt: real, month: nat)
    requires Steps(t, debt, month)
    ensures var row := MonthRow(t, debt, month);
      Amortize(t, debt, month)
      == Prepend(row, t.monthlyPayment, Amortize(t, debt - (row.principal + row.extraPayment), month + 1))
  {
  }

  /** A run that does not take another month produces no rows; if it
      succeeds, the debt is already paid off and it ends at this month. */
  lemma AmortizeEnds(t: Terms, debt: real, month: nat)
    requires !Steps(t, debt, month)
    ensures var r := Amortize(t, debt, month);
      && r.schedule == []
      && (r.error.None? ==> r.months == month && month < MaxIterations && debt <= PaidOffThreshold)
  {
  }

  /** The loop invariant of GenerateAmortizationSchedule: the rows produced so
      far, followed by the rest of the run, make up the whole run. */
  ghost predicate Continues(t: Terms, full: ScheduleResult, done: seq<Row>, paid: real, interest: real,
                            debt: real, month: nat)
  {
    full == Join(done, paid, interest, Amortize(t, debt, month))
  }

  /** The loop invariant survives one month. */
  lemma LoopStep(t: Terms, full: ScheduleResult, done: seq<Row>, paid: real, interest: real,
                 debt: real, month: nat, row: Row,
                 done': seq<Row>, paid': real, interest': real, debt': real, month': nat)
    requires Continues(t, full, done, paid, interest, debt, month)
    requires Steps(t, debt, month)
    requires row == MonthRow(t, debt, month)
    requires done' == done + [row] && month' == month + 1
    requires paid' == paid + (t.monthlyPayment + row.extraPayment)
    requires interest' == interest + row.interest
    requires debt' == debt - (row.principal + row.extraPayment)
    ensures Continues(t, full, done', paid', interest', debt', month')
  {
    AmortizeStep(t, debt, month);
    JoinPrepend(done, paid, interest, row, t.monthlyPayment, Amortize(t, debt', month'));
  }

  lemma JoinNothing(rest: ScheduleResult)
    ensures Join([], 0.0, 0.0, rest) == rest
  {
    if rest.error.None? {
      assert [] + rest.schedule == rest.schedule;
    }
  }

  /** The simulator itself: a loop that charges interest, applies the annual
      extra payment, clamps the final month and accumulates the totals. */
  method GenerateAmortizationSchedule(
    loanAmount: real, interestRate: real, monthlyPayment: real,
    annualExtraPayment: real, maxMonths: Option<int>)
    returns (r: ScheduleResult)
    ensures r == Simulate(loanAmount, Terms(interestRate, monthlyPayment, annualExtraPayment, maxMonths))
  {
    ghost var t := Terms(interestRate, monthlyPayment, annualExtraPayment, maxMonths);
    var schedule: seq<Row> := [];
    var remainingDebt := loanAmount;
    var totalPayment := 0.0;
    var totalInterest := 0.0;
    var month: nat := 0;
    ghost var full := Simulate(loanAmount, t);
    JoinNothing(full);
    while remainingDebt > PaidOffThreshold && month < MaxIterations
      invariant month <= MaxIterations
      invariant Continues(t, full, schedule, totalPayment, totalInterest, remainingDebt, month)
      decreases MaxIterations - month
    {
      if maxMonths.Some? && month >= maxMonths.value {
        assert Amortize(t, remainingDebt, month) == Failed(TermExceeded);
        return Failed(TermExceeded);
      }
      var interest := MonthlyInterest(remainingDebt, interestRate);
      if monthlyPayment < interest && annualExtraPayment == 0.0 {
        assert Amortize(t, remainingDebt, month) == Failed(PaymentBelowInterest);
        return Failed(PaymentBelowInterest);
      }
      var principal := monthlyPayment - interest;
      var extraPayment := 0.0;
      if (month + 1) % 12 == 0 && annualExtraPayment > 0.0 {
        extraPayment := annualExtraPayment;
      }
      var totalMonthPayment := principal + extraPayment;
      if totalMonthPayment > remainingDebt {
        principal := remainingDebt;
        extraPayment := 0.0;
      }
      var row := Row(month + 1, month, interest, principal, extraPayment,
                     Max(0.0, remainingDebt - (principal + extraPayment)));
      assert row == MonthRow(t, remainingDebt, month);
      ghost var done, paid, charged, debt, elapsed := schedule, totalPayment, totalInterest, remainingDebt, month;
      remainingDebt := remainingDebt - (principal + extraPayment);
      totalPayment := totalPayment + (monthlyPayment + extraPayment);
      totalInterest := totalInterest + interest;
      schedule := schedule + [row];
      month := month + 1;
      LoopStep(t, full, done, paid, charged, debt, elapsed, row,
               schedule, totalPayment, totalInterest, remainingDebt, month);
    }
    if month >= MaxIterations {
      return Failed(IterationLimitExceeded);
    }
    return ScheduleResult(schedule, totalPayment, totalInterest, month, None);
  }

  // ---------------------------------------------------------------------
  // What a run produces

  /** The debt outstanding before row `i`: the opening debt for the first row,
      the debt the previous row left after that. */
  function DebtBefore(opening: real, rows: seq<Row>, i: nat): real
    requires i <= |rows|
  {
    if i == 0 then opening else rows[i - 1].remainingDebt
  }

  /** Each row follows from the debt the previous row left. */
  ghost predicate Chained(t: Terms, opening: real, rows: seq<Row>)
  {
    forall i {:trigger DebtBefore(opening, rows, i)} :: 0 <= i < |rows| ==> RowFollows(t, DebtBefore(opening, rows, i), rows[i])
  }

  /** Every month starts above the paid-off threshold, and the run stops
      as soon as the debt is at or below it. */
  ghost predicate RunsToPayoff(opening: real, rows: seq<Row>)
  {
    && (forall i {:trigger DebtBefore(opening, rows, i)} :: 0 <= i < |rows| ==> DebtBefore(opening, rows, i) > PaidOffThreshold)
    && DebtBefore(opening, rows, |rows|) <= PaidOffThreshold
  }

  /** Sum of the interest charged over the rows. */
  function SumInterest(rows: seq<Row>): real
  {
    if rows == [] then 0.0 else rows[0].interest + SumInterest(rows[1..])
  }

  /** Sum of what was paid over the rows: the regular payment plus each row's extra payment. */
  function SumPaid(monthlyPayment: real, rows: seq<Row>): real
  {
    if rows == [] then 0.0 else monthlyPayment + rows[0].extraPayment + SumPaid(monthlyPayment, rows[1..])
  }

  /** Sum of the extra payments over the rows. */
  function SumExtra(rows: seq<Row>): real
  {
    if rows == [] then 0.0 else rows[0].extraPayment + SumExtra(rows[1..])
  }

  /** Rows numbered consecutively from 0-based month `first`, each dated by its month offset. */
  ghost predicate Numbered(rows: seq<Row>, first: nat)
  {
    forall i :: 0 <= i < |rows| ==> rows[i].month == first + i + 1 && rows[i].date == first + i
  }

  /** The shape of a successful run from month `first`: it ends below the
      safety bound with one row per elapsed month, numbered consecutively,
      and within the term cap whenever it produced a row. */
  ghost predicate WellNumbered(t: Terms, first: nat, r: ScheduleResult)
  {
    r.error.None? ==>
      && first <= r.months < MaxIterations
      && |r.schedule| == r.months - first
      && Numbered(r.schedule, first)
      && (t.maxMonths.Some? && r.schedule != [] ==> r.months <= t.maxMonths.value)
  }

  lemma PrependNumbered(t: Terms, first: nat, row: Row, rest: ScheduleResult)
    requires WellNumbered(t, first + 1, rest)
    requires row.month == first + 1 && row.date == first
    requires !(t.maxMonths.Some? && first >= t.maxMonths.value)
    ensures WellNumbered(t, first, Prepend(row, t.monthlyPayment, rest))
  {
    var r := Prepend(row, t.monthlyPayment, rest);
    if r.error.None? {
      assert r.schedule == [row] + rest.schedule;
      forall i | 0 <= i < |r.schedule|
        ensures r.schedule[i].month == first + i + 1 && r.schedule[i].date == first + i
      {
        if i > 0 {
          assert r.schedule[i] == rest.schedule[i - 1];
        }
      }
    }
  }

  /** Every successful run is well numbered. */
  lemma {:induction false} SuccessNumbering(t: Terms, debt: real, month: nat)
    ensures WellNumbered(t, month, Amortize(t, debt, month))
    decreases MaxIterations - month
  {
    if Steps(t, debt, month) {
      var row := MonthRow(t, debt, month);
      var next := debt - (row.principal + row.extraPayment);
      SuccessNumbering(t, next, month + 1);
      NumberedStep(t, debt, month, row, next);
    } else {
      AmortizeEnds(t, debt, month);
    }
  }

  /** A month that steps keeps the shape of the rest of the run. */
  lemma NumberedStep(t: Terms, debt: real, month: nat, row: Row, next: real)
    requires Steps(t, debt, month)
    requires row == MonthRow(t, debt, month) && next == debt - (row.principal + row.extraPayment)
    requires WellNumbered(t, month + 1, Amortize(t, next, month + 1))
    ensures WellNumbered(t, month, Amortize(t, debt, month))
  {
    AmortizeStep(t, debt, month);
    PrependNumbered(t, month, row, Amortize(t, next, month + 1));
  }

  /** Every month of the rows passed the interest check. */
  ghost predicate Admitted(t: Terms, rows: seq<Row>)
  {
    forall i :: 0 <= i < |rows| ==> !(t.monthlyPayment < rows[i].interest && t.annualExtraPayment == 0.0)
  }

  /** The contents of a successful run from `debt` at month `first`. */
  ghost predicate WellChained(t: Terms, debt: real, first: nat, r: ScheduleResult)
  {
    r.error.None? ==>
      Chained(t, debt, r.schedule) && RunsToPayoff(debt, r.schedule) && Admitted(t, r.schedule)
  }

  lemma PrependChained(t: Terms, debt: real, first: nat, row: Row, rest: ScheduleResult)
    requires row == MonthRow(t, debt, first)
    requires WellChained(t, debt - (row.principal + row.extraPayment), first + 1, rest)
    requires debt > PaidOffThreshold
    requires !(t.monthlyPayment < MonthlyInterest(debt, t.interestRate) && t.annualExtraPayment == 0.0)
    ensures WellChained(t, debt, first, Prepend(row, t.monthlyPayment, rest))
  {
    var r := Prepend(row, t.monthlyPayment, rest);
    if r.error.None? {
      var next := debt - (row.principal + row.extraPayment);
      assert r.schedule == [row] + rest.schedule;
      assert row.remainingDebt == next;
      ConsChained(t, debt, row, rest.schedule);
      ConsPayoff(debt, row, rest.schedule);
      assert Admitted(t, r.schedule) by {
        forall i | 0 <= i < |r.schedule|
          ensures !(t.monthlyPayment < r.schedule[i].interest && t.annualExtraPayment == 0.0)
        {
          if i > 0 {
            assert r.schedule[i] == rest.schedule[i - 1];
          }
        }
      }
    }
  }

  lemma ConsChained(t: Terms, debt: real, row: Row, rest: seq<Row>)
    requires RowFollows(t, debt, row)
    requires Chained(t, row.remainingDebt, rest)
    ensures Chained(t, debt, [row] + rest)
  {
    forall i | 0 <= i < |[row] + rest|
      ensures RowFollows(t, DebtBefore(debt, [row] + rest, i), ([row] + rest)[i])
    {
      ConsChainedAt(t, debt, row, rest, i);
    }
  }

  lemma ConsChainedAt(t: Terms, debt: real, row: Row, rest: seq<Row>, i: nat)
    requires RowFollows(t, debt, row)
    requires Chained(t, row.remainingDebt, rest)
    requires i < |[row] + rest|
    ensures RowFollows(t, DebtBefore(debt, [row] + rest, i), ([row] + rest)[i])
  {
    var rows := [row] + rest;
    if i > 0 {
      assert rows[i] == rest[i - 1];
      assert DebtBefore(debt, rows, i) == DebtBefore(row.remainingDebt, rest, i - 1);
    }
  }

  lemma ConsPayoff(debt: real, row: Row, rest: seq<Row>)
    requires debt > PaidOffThreshold
    requires RunsToPayoff(row.remainingDebt, rest)
    ensures RunsToPayoff(debt, [row] + rest)
  {
    var rows := [row] + rest;
    forall i | 0 <= i <= |rows|
      ensures DebtBefore(debt, rows, i) == if i == 0 then debt else DebtBefore(row.remainingDebt, rest, i - 1)
    {
      if i > 1 {
        assert rows[i - 1] == rest[i - 2];
      }
    }
  }

  /** A month that passes both checks keeps the contents of the rest of the run. */
  lemma ChainedStep(t: Terms, debt: real, month: nat, row: Row, next: real)
    requires Steps(t, debt, month)
    requires row == MonthRow(t, debt, month) && next == debt - (row.principal + row.extraPayment)
    requires WellChained(t, next, month + 1, Amortize(t, next, month + 1))
    ensures WellChained(t, debt, month, Amortize(t, debt, month))
  {
    AmortizeStep(t, debt, month);
    PrependChained(t, debt, month, row, Amortize(t, next, month + 1));
  }

  /** In a successful run every row is the month computed from the debt the
      previous row left, every month passed the interest check, and the run
      stops exactly when the debt is paid off. */
  lemma {:induction false} SuccessChained(t: Terms, debt: real, month: nat)
    ensures WellChained(t, debt, month, Amortize(t, debt, month))
    decreases MaxIterations - month
  {
    if Steps(t, debt, month) {
      var row := MonthRow(t, debt, month);
      var next := debt - (row.principal + row.extraPayment);
      SuccessChained(t, next, month + 1);
      ChainedStep(t, debt, month, row, next);
    } else {
      AmortizeEnds(t, debt, month);
    }
  }

  /** Every successful run, from any month, has the sums over its rows as its totals. */
  lemma {:induction false} SuccessTotals(t: Terms, debt: real, month: nat)
    ensures SumsMatch(t, Amortize(t, debt, month))
    decreases MaxIterations - month
  {
    if Steps(t, debt, month) {
      var row := MonthRow(t, debt, month);
      var next := debt - (row.principal + row.extraPayment);
      SuccessTotals(t, next, month + 1);
      TotalsStep(t, debt, month, row, next);
    } else {
      AmortizeEnds(t, debt, month);
    }
  }

  /** A successful run's totals are the sums over its rows. */
  ghost predicate SumsMatch(t: Terms, r: ScheduleResult)
  {
    r.error.None? ==>
      && r.totalInterest == SumInterest(r.schedule)
      && r.totalPayment == SumPaid(t.monthlyPayment, r.schedule)
  }

  /** A month that steps adds its interest and payment to both the totals and the sums. */
  lemma TotalsStep(t: Terms, debt: real, month: nat, row: Row, next: real)
    requires Steps(t, debt, month)
    requires row == MonthRow(t, debt, month) && next == debt - (row.principal + row.extraPayment)
    requires SumsMatch(t, Amortize(t, next, month + 1))
    ensures SumsMatch(t, Amortize(t, debt, month))
  {
    AmortizeStep(t, debt, month);
    var r, rest := Amortize(t, debt, month), Amortize(t, next, month + 1);
    if r.error.None? {
      assert r.schedule == [row] + rest.schedule;
      assert r.schedule[1..] == rest.schedule;
    }
  }

  /** The total paid is one regular payment per row plus the extra payments. */
  lemma {:induction false} PaidSplits(monthlyPayment: real, rows: seq<Row>)
    ensures SumPaid(monthlyPayment, rows) == (|rows| as real) * monthlyPayment + SumExtra(rows)
  {
    if rows != [] {
      PaidSplits(monthlyPayment, rows[1..]);
    }
  }

  /** What a successful simulation promises: one row per month, numbered
      from 1 and dated from offset 0; each row follows from the debt the
      previous one left and passed the interest check; the run stops
      exactly when the debt reaches the paid-off threshold, below the safety
      bound and within the term cap; and the totals are the sums over the rows. */
  lemma SimulationSucceeds(loanAmount: real, t: Terms)
    ensures var r := Simulate(loanAmount, t);
      r.error.None? ==>
        && r.months == |r.schedule| < MaxIterations
        && Numbered(r.schedule, 0)
        && Chained(t, loanAmount, r.schedule)
        && Admitted(t, r.schedule)
        && RunsToPayoff(loanAmount, r.schedule)
        && (r.schedule == [] <==> loanAmount <= PaidOffThreshold)
        && (r.schedule != [] ==> r.schedule[|r.schedule| - 1].remainingDebt <= PaidOffThreshold)
        && (t.maxMonths.Some? && r.schedule != [] ==> |r.schedule| <= t.maxMonths.value)
        && r.totalInterest == SumInterest(r.schedule)
        && r.totalPayment == SumPaid(t.monthlyPayment, r.schedule)
  {
    var r := Amortize(t, loanAmount, 0);
    SuccessNumbering(t, loanAmount, 0);
    SuccessChained(t, loanAmount, 0);
    SuccessTotals(t, loanAmount, 0);
  }

  /** A corollary of SimulationSucceeds, the form the solvers use: a
      successful simulation that produced rows started above the paid-off
      threshold, kept within the term cap, and ended with a recorded debt
      between 0 and the threshold. */
  lemma SimulationShape(loanAmount: real, t: Terms)
    ensures var r := Simulate(loanAmount, t);
      r.error.None? && r.schedule != [] ==>
        && loanAmount > PaidOffThreshold
        && (t.maxMonths.Some? ==> |r.schedule| <= t.maxMonths.value)
        && 0.0 <= r.schedule[|r.schedule| - 1].remainingDebt <= PaidOffThreshold
  {
    SimulationSucceeds(loanAmount, t);
    var r := Simulate(loanAmount, t);
    if r.error.None? && r.schedule != [] {
      LastRow(t, loanAmount, r.schedule);
    }
  }

  /** The last row of a chained run that stops at payoff records a debt between 0 and the threshold. */
  lemma LastRow(t: Terms, opening: real, rows: seq<Row>)
    requires rows != [] && Chained(t, opening, rows) && RunsToPayoff(opening, rows)
    ensures 0.0 <= rows[|rows| - 1].remainingDebt <= PaidOffThreshold
  {
    var n := |rows|;
    assert RowFollows(t, DebtBefore(opening, rows, n - 1), rows[n - 1]);
    assert DebtBefore(opening, rows, n) == rows[n - 1].remainingDebt;
  }

  /** Which condition each failure comes from: the term cap can only be hit
      when it lies below the safety bound, the interest check only fails when
      there is no extra payment, and the safety bound only when no smaller
      cap applies. The simulator never reports a solver's error. */
  lemma {:induction false} FailureCauses(t: Terms, debt: real, month: nat)
    requires month < MaxIterations
    ensures var r := Amortize(t, debt, month);
      && (r.error == Some(TermExceeded) ==> t.maxMonths.Some? && t.maxMonths.value < MaxIterations)
      && (r.error == Some(PaymentBelowInterest) ==> t.annualExtraPayment == 0.0)
      && (r.error == Some(IterationLimitExceeded) ==> t.maxMonths.None? || t.maxMonths.value >= MaxIterations)
      && r.error != Some(PaymentNotFound) && r.error != Some(MaxLoanNotFound)
    decreases MaxIterations - month
  {
    if Steps(t, debt, month) {
      var row := MonthRow(t, debt, month);
      AmortizeStep(t, debt, month);
      if month + 1 < MaxIterations {
        FailureCauses(t, debt - (row.principal + row.extraPayment), month + 1);
      } else {
        assert t.maxMonths.None? || t.maxMonths.value >= MaxIterations;
      }
    }
  }

  /** Whether a month of the run charges interest and takes a payment: the
      loop condition holds and neither the cap nor the interest check stops it. */
  ghost predicate Steps(t: Terms, debt: real, month: nat)
  {
    && debt > PaidOffThreshold && month < MaxIterations
    && !(t.maxMonths.Some? && month >= t.maxMonths.value)
    && !(t.monthlyPayment < MonthlyInterest(debt, t.interestRate) && t.annualExtraPayment == 0.0)
  }

  /** The debt and the 0-based month at which the run from `debt` at `month`
      stops taking payments: the first month that does not step. */
  ghost function StopPoint(t: Terms, debt: real, month: nat): (stop: (real, nat))
    ensures stop.1 >= month
    decreases MaxIterations - month
  {
    if Steps(t, debt, month) then
      var row := MonthRow(t, debt, month);
      StopPoint(t, debt - (row.principal + row.extraPayment), month + 1)
    else (debt, month)
  }

  /** The outcome of a run is decided by the month where it stops. It fails
      on the term cap exactly when that month is at or past the cap with
      debt above the threshold; on the interest check exactly when that
      month's interest exceeds the payment, with no extra payment and no cap
      in the way; on the safety bound exactly when the run got to month
      1200; and it succeeds exactly when it stopped on a paid-off debt
      before then. */
  ghost predicate StopDecidesOutcome(r: ScheduleResult, t: Terms, stop: (real, nat))
  {
    var (d, m) := stop;
    && (r.error == Some(TermExceeded) <==>
          d > PaidOffThreshold && m < MaxIterations && t.maxMonths.Some? && m >= t.maxMonths.value)
    && (r.error == Some(PaymentBelowInterest) <==>
          && d > PaidOffThreshold && m < MaxIterations && !(t.maxMonths.Some? && m >= t.maxMonths.value)
          && t.monthlyPayment < MonthlyInterest(d, t.interestRate) && t.annualExtraPayment == 0.0)
    && (r.error == Some(IterationLimitExceeded) <==> m >= MaxIterations)
    && (r.error.None? <==> d <= PaidOffThreshold && m < MaxIterations)
  }

  /** Every run's outcome is decided by its stopping point. */
  lemma {:induction false} StopDecides(t: Terms, debt: real, month: nat)
    ensures StopDecidesOutcome(Amortize(t, debt, month), t, StopPoint(t, debt, month))
    decreases MaxIterations - month
  {
    if Steps(t, debt, month) {
      var row := MonthRow(t, debt, month);
      var next := debt - (row.principal + row.extraPayment);
      StopDecides(t, next, month + 1);
      StopStep(t, debt, month, row, next);
    } else {
      AmortizeEnds(t, debt, month);
    }
  }

  /** A month that steps hands both the outcome and the stopping point to the rest of the run. */
  lemma StopStep(t: Terms, debt: real, month: nat, row: Row, next: real)
    requires Steps(t, debt, month)
    requires row == MonthRow(t, debt, month) && next == debt - (row.principal + row.extraPayment)
    ensures Amortize(t, debt, month).error == Amortize(t, next, month + 1).error
    ensures StopPoint(t, debt, month) == StopPoint(t, next, month + 1)
    ensures StopDecidesOutcome(Amortize(t, next, month + 1), t, StopPoint(t, next, month + 1))
        ==> StopDecidesOutcome(Amortize(t, debt, month), t, StopPoint(t, debt, month))
  {
    AmortizeStep(t, debt, month);
  }

  /** The term cap only cuts a run short. If the uncapped run from the same
      state succeeds, the run capped at `c` months is the same run when it
      ends within `c` months (or adds no row), and otherwise fails with the
      term error. If the uncapped run fails, so does the capped one, with
      the same error unless the cap stops it first. */
  ghost predicate CapAgrees(t: Terms, c: int, debt: real, month: nat)
  {
    var u := Amortize(t.(maxMonths := None), debt, month);
    var k := Amortize(t.(maxMonths := Some(c)), debt, month);
    && (u.error.None? ==> k == if u.schedule == [] || u.months <= c then u else Failed(TermExceeded))
    && (u.error.Some? ==> k.error.Some? && (k.error != Some(TermExceeded) ==> k.error == u.error))
  }

  /** The cap agreement holds from every state of the run. */
  lemma {:induction false} CapAgreement(t: Terms, c: int, debt: real, month: nat)
    ensures CapAgrees(t, c, debt, month)
    decreases MaxIterations - month
  {
    var ut := t.(maxMonths := None);
    if Steps(ut, debt, month) {
      var row := MonthRow(ut, debt, month);
      var next := debt - (row.principal + row.extraPayment);
      CapAgreement(t, c, next, month + 1);
      CapStep(t, c, debt, month, row, next);
    }
  }

  /** A month the uncapped run takes carries the agreement back from the next month. */
  lemma CapStep(t: Terms, c: int, debt: real, month: nat, row: Row, next: real)
    requires Steps(t.(maxMonths := None), debt, month)
    requires row == MonthRow(t.(maxMonths := None), debt, month)
    requires next == debt - (row.principal + row.extraPayment)
    requires CapAgrees(t, c, next, month + 1)
    ensures CapAgrees(t, c, debt, month)
  {
    var ut := t.(maxMonths := None);
    AmortizeStep(ut, debt, month);
    SuccessNumbering(ut, next, month + 1);
    if month < c {
      CapStepWithin(t, c, debt, month, row, next);
    }
  }

  /** Below the cap, the capped run takes the same month as the uncapped one. */
  lemma CapStepWithin(t: Terms, c: int, debt: real, month: nat, row: Row, next: real)
    requires Steps(t.(maxMonths := None), debt, month) && month < c
    requires row == MonthRow(t.(maxMonths := None), debt, month)
    requires next == debt - (row.principal + row.extraPayment)
    ensures Amortize(t.(maxMonths := Some(c)), debt, month)
         == Prepend(row, t.monthlyPayment, Amortize(t.(maxMonths := Some(c)), next, month + 1))
  {
    var kt := t.(maxMonths := Some(c));
    assert MonthRow(kt, debt, month) == row;
    AmortizeStep(kt, debt, month);
  }

  /** The term error in the capped simulation means the uncapped
      simulation does not end within the cap; when the uncapped one
      succeeds, the term error comes exactly from its needing more than
      `c` months. */
  lemma TermExceededMeansTooLong(loanAmount: real, t: Terms, c: int)
    ensures var u := Simulate(loanAmount, t.(maxMonths := None));
      var k := Simulate(loanAmount, t.(maxMonths := Some(c)));
      && (k.error == Some(TermExceeded) ==> !(u.error.None? && u.months <= c))
      && (u.error.None? ==> (k.error == Some(TermExceeded) <==> u.schedule != [] && u.months > c))
  {
    CapAgreement(t, c, loanAmount, 0);
  }

  /** How the first month decides the outcome: a loan already at or below the
      threshold succeeds with no rows; otherwise a cap of zero or less fails
      at once, and so does a payment below the first month's interest when
      there is no extra payment. */
  lemma FirstMonthOutcomes(loanAmount: real, t: Terms)
    ensures loanAmount <= PaidOffThreshold ==> Simulate(loanAmount, t) == ScheduleResult([], 0.0, 0.0, 0, None)
    ensures loanAmount > PaidOffThreshold && t.maxMonths.Some? && t.maxMonths.value <= 0
            ==> Simulate(loanAmount, t) == Failed(TermExceeded)
    ensures && loanAmount > PaidOffThreshold && (t.maxMonths.None? || t.maxMonths.value > 0)
            && t.monthlyPayment < MonthlyInterest(loanAmount, t.interestRate) && t.annualExtraPayment == 0.0
            ==> Simulate(loanAmount, t) == Failed(PaymentBelowInterest)
  {
  }

  /** With no extra payment, every month of a successful run pays off
      principal: the debt never grows. */
  lemma NoExtraDebtNonIncreasing(loanAmount: real, t: Terms)
    requires t.annualExtraPayment == 0.0
    ensures var r := Simulate(loanAmount, t);
      r.error.None? ==>
        forall i :: 0 <= i < |r.schedule| ==>
          0.0 <= r.schedule[i].principal && r.schedule[i].remainingDebt <= DebtBefore(loanAmount, r.schedule, i)
  {
    var r := Simulate(loanAmount, t);
    if r.error.None? {
      SimulationSucceeds(loanAmount, t);
      forall i | 0 <= i < |r.schedule|
        ensures 0.0 <= r.schedule[i].principal && r.schedule[i].remainingDebt <= DebtBefore(loanAmount, r.schedule, i)
      {
        assert RowFollows(t, DebtBefore(loanAmount, r.schedule, i), r.schedule[i]);
        assert !(t.monthlyPayment < r.schedule[i].interest);
        assert DebtBefore(loanAmount, r.schedule, i) > PaidOffThreshold;
      }
    }
  }

  /** With a non-zero extra payment the interest check is skipped, so a
      payment below the interest makes the principal negative and the debt grow. */
  lemma ExtraAllowsDebtGrowth()
    ensures var row := MonthRow(Terms(12.0, 0.5, 1000.0, None), 100.0, 0);
      row.interest == 1.0 && row.principal == -0.5 && row.extraPayment == 0.0 && row.remainingDebt == 100.5
  {
    var t := Terms(12.0, 0.5, 1000.0, None);
    assert PlannedExtra(t, 0) == 0.0;
  }
}
