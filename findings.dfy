/** Two places where the bisection solvers of src/utils/loanMath.js accept a
    candidate the documentation rules out, each shown on concrete inputs,
    and the searches as documented, with the promise they keep. */
module Findings {
  import opened Amortization
  import opened Metrics
  import opened Solvers

  /** A monthly payment equal to the whole loan of 200000 at 5% pays it off
      in the second month, inside any term of 2 months or more: the first
      month leaves the interest of 833.33 unpaid, the second is clamped. */
  lemma OverpaymentRun(loanTermMonths: int)
    requires loanTermMonths >= 2
    ensures var sim := Simulate(200000.0, CappedTerms(5.0, 200000.0, loanTermMonths, 0.0));
      && sim.error.None? && |sim.schedule| == 2 && FinalDebt(sim.schedule) == 0.0
  {
    var t := CappedTerms(5.0, 200000.0, loanTermMonths, 0.0);
    var d1 := 2500.0 / 3.0;
    OverpaymentFirstMonth(t, d1);
    OverpaymentSecondMonth(t, d1);
    var rest := Amortize(t, d1, 1);
    assert Simulate(200000.0, t).schedule == [MonthRow(t, 200000.0, 0)] + rest.schedule;
  }

  /** The first month of the overpayment run leaves the interest unpaid. */
  lemma OverpaymentFirstMonth(t: Terms, d1: real)
    requires t.interestRate == 5.0 && t.monthlyPayment == 200000.0 && t.annualExtraPayment == 0.0
    requires t.maxMonths.Some? && t.maxMonths.value >= 2
    requires d1 == 2500.0 / 3.0
    ensures Amortize(t, 200000.0, 0) == Prepend(MonthRow(t, 200000.0, 0), 200000.0, Amortize(t, d1, 1))
  {
    assert MonthlyInterest(200000.0, 5.0) == d1;
    assert Steps(t, 200000.0, 0);
    AmortizeStep(t, 200000.0, 0);
    var row := MonthRow(t, 200000.0, 0);
    assert PlannedExtra(t, 0) == 0.0;
    assert 200000.0 - (row.principal + row.extraPayment) == d1;
  }

  /** The second month of the overpayment run is clamped to the unpaid interest and ends the run. */
  lemma OverpaymentSecondMonth(t: Terms, d1: real)
    requires t.interestRate == 5.0 && t.monthlyPayment == 200000.0 && t.annualExtraPayment == 0.0
    requires t.maxMonths.Some? && t.maxMonths.value >= 2
    requires d1 == 2500.0 / 3.0
    ensures var r := Amortize(t, d1, 1);
      r.error.None? && |r.schedule| == 1 && r.schedule[0].remainingDebt == 0.0
  {
    AmortizeStep(t, d1, 1);
    var row1 := MonthRow(t, d1, 1);
    assert row1.principal == d1 && row1.extraPayment == 0.0;
    AmortizeEnds(t, 0.0, 2);
  }

  /** The payment search accepts its very first midpoint, 200000, for a
      200000 loan over any term of 2 months or more (such as the 240 months
      of the test file): every successful run ends within the tolerance, so
      an early payoff passes for an exact one. */
  lemma OverpaymentAccepted(loanTermMonths: int)
    requires loanTermMonths >= 2
    ensures var r := MonthlyPaymentFor(200000.0, 5.0, loanTermMonths, 0.0);
      r.PaymentFound? && r.monthlyPayment == 200000.0 && |r.schedule| == 2
  {
    var run := PaymentRunner(200000.0, 5.0, loanTermMonths, 0.0);
    assert RunsPayment(run, 200000.0, 200000.0, 5.0, loanTermMonths, 0.0);
    var sim := run(200000.0);
    OverpaymentRun(loanTermMonths);
    assert sim.error.None? && |sim.schedule| == 2 && FinalDebt(sim.schedule) == 0.0;
    PaymentRound(run, 200000.0, 0.0, PaymentCeiling(200000.0), 0, 200000.0, sim);
  }

  /** A loan of k million at 0% with a payment of one million a month is
      paid off in exactly k months when the cap leaves room for them. */
  lemma {:induction false} MillionAMonth(cap: int, k: nat, m: nat)
    requires m + k <= cap && m + k < MaxIterations
    ensures var r := Amortize(Terms(0.0, 1000000.0, 0.0, Some(cap)), (k as real) * 1000000.0, m);
      && r.error.None? && |r.schedule| == k && (k > 0 ==> FinalDebt(r.schedule) == 0.0)
    decreases k
  {
    if k > 0 {
      var t := Terms(0.0, 1000000.0, 0.0, Some(cap));
      MillionStep(t, cap, k, m);
      MillionAMonth(cap, k - 1, m + 1);
      var row := MonthRow(t, (k as real) * 1000000.0, m);
      var rest := Amortize(t, ((k - 1) as real) * 1000000.0, m + 1);
      assert Amortize(t, (k as real) * 1000000.0, m).schedule == [row] + rest.schedule;
    }
  }

  /** One month of that run pays off exactly one million. */
  lemma MillionStep(t: Terms, cap: int, k: nat, m: nat)
    requires t == Terms(0.0, 1000000.0, 0.0, Some(cap))
    requires 0 < k && m + k <= cap && m + k < MaxIterations
    ensures var row := MonthRow(t, (k as real) * 1000000.0, m);
      && row.remainingDebt == ((k - 1) as real) * 1000000.0
      && Amortize(t, (k as real) * 1000000.0, m)
         == Prepend(row, 1000000.0, Amortize(t, ((k - 1) as real) * 1000000.0, m + 1))
  {
    var debt := (k as real) * 1000000.0;
    AmortizeStep(t, debt, m);
    var row := MonthRow(t, debt, m);
    assert row.principal == 1000000.0 && row.extraPayment == 0.0;
    assert debt - (row.principal + row.extraPayment) == ((k - 1) as real) * 1000000.0;
  }

  /** The loan search reports 5000000 for a payment of 1000000 at 0% over
      any term of 6 months or more, a loan the simulator repays in 5 months,
      although a loan of 6000000 is repaid within the same term. */
  lemma MaxLoanNotMaximal(loanTermMonths: int)
    requires loanTermMonths >= 6
    ensures var r := MaxLoanAmountFor(1000000.0, 0.0, loanTermMonths, 0.0);
      && r.MaxLoanFound? && r.maxLoanAmount == 5000000.0 && |r.schedule| == 5
    ensures var sim := Simulate(6000000.0, CappedTerms(0.0, 1000000.0, loanTermMonths, 0.0));
      sim.error.None? && |sim.schedule| == 6
  {
    var run := LoanRunner(1000000.0, 0.0, loanTermMonths, 0.0);
    assert RunsLoan(run, 5000000.0, 1000000.0, 0.0, loanTermMonths, 0.0);
    var sim := run(5000000.0);
    MillionAMonth(loanTermMonths, 5, 0);
    assert sim.error.None? && |sim.schedule| == 5 && FinalDebt(sim.schedule) == 0.0;
    MaxLoanRound(run, 0.0, MaxLoanCeiling, 0, 5000000.0, sim);
    MillionAMonth(loanTermMonths, 6, 0);
  }

  // ---------------------------------------------------------------------
  // The searches as the documentation describes them: a candidate that
  // pays the loan off before the term ends is a payment that is too high,
  // or a loan that is too small.

  /** The payment search with the early payoff treated as an overpayment:
      only a payment whose schedule runs the whole term is accepted. */
  function FullTermPaymentSearch(run: real -> ScheduleResult, loanAmount: real, loanTermMonths: int,
                                 low: real, high: real, iterations: nat): PaymentResult
    decreases SearchLimit - iterations, run(high).months
  {
    if iterations >= SearchLimit then PaymentFailed(PaymentNotFound)
    else
      var mid := (low + high) / 2.0;
      var sim := run(mid);
      if sim.error.Some? || sim.schedule == [] then
        FullTermPaymentSearch(run, loanAmount, loanTermMonths, mid, high, iterations + 1)
      else if |sim.schedule| < loanTermMonths then
        FullTermPaymentSearch(run, loanAmount, loanTermMonths, low, mid, iterations + 1)
      else if Abs(FinalDebt(sim.schedule)) < PaymentTolerance then
        PaymentFound(sim.schedule, mid, sim.totalPayment, sim.totalInterest,
                     RepaymentRate(FirstPrincipal(sim.schedule), loanAmount))
      else if FinalDebt(sim.schedule) > PaymentTolerance then
        FullTermPaymentSearch(run, loanAmount, loanTermMonths, mid, high, iterations + 1)
      else
        FullTermPaymentSearch(run, loanAmount, loanTermMonths, low, mid, iterations + 1)
  }

  /** The documented payment: the full-term search over [0, 2 * loanAmount]. */
  function FullTermPaymentFor(loanAmount: real, interestRate: real, loanTermMonths: int,
                              annualExtraPayment: real): PaymentResult
  {
    FullTermPaymentSearch(PaymentRun(loanAmount, interestRate, loanTermMonths, annualExtraPayment),
                          loanAmount, loanTermMonths, 0.0, PaymentCeiling(loanAmount), 0)
  }

  /** A payment the full-term search accepts runs at least the whole term. */
  lemma {:induction false} FullTermPaymentSearchSound(run: real -> ScheduleResult, loanAmount: real,
                                                      loanTermMonths: int, low: real, high: real, iterations: nat)
    ensures var r := FullTermPaymentSearch(run, loanAmount, loanTermMonths, low, high, iterations);
      && (r.PaymentFailed? ==> r.error == PaymentNotFound)
      && (r.PaymentFound? ==>
            var sim := run(r.monthlyPayment);
            && sim.error.None? && r.schedule == sim.schedule && r.schedule != []
            && r.totalPayment == sim.totalPayment && r.totalInterest == sim.totalInterest
            && |r.schedule| >= loanTermMonths
            && Abs(FinalDebt(r.schedule)) < PaymentTolerance)
    decreases SearchLimit - iterations
  {
    if iterations < SearchLimit {
      var mid := (low + high) / 2.0;
      var sim := run(mid);
      assert FullTermPaymentSearch(run, loanAmount, loanTermMonths, low, high, iterations)
          == if sim.error.Some? || sim.schedule == [] then
               FullTermPaymentSearch(run, loanAmount, loanTermMonths, mid, high, iterations + 1)
             else if |sim.schedule| < loanTermMonths then
               FullTermPaymentSearch(run, loanAmount, loanTermMonths, low, mid, iterations + 1)
             else if Abs(FinalDebt(sim.schedule)) < PaymentTolerance then
               PaymentFound(sim.schedule, mid, sim.totalPayment, sim.totalInterest,
                            RepaymentRate(FirstPrincipal(sim.schedule), loanAmount))
             else if FinalDebt(sim.schedule) > PaymentTolerance then
               FullTermPaymentSearch(run, loanAmount, loanTermMonths, mid, high, iterations + 1)
             else
               FullTermPaymentSearch(run, loanAmount, loanTermMonths, low, mid, iterations + 1);
      FullTermPaymentSearchSound(run, loanAmount, loanTermMonths, mid, high, iterations + 1);
      FullTermPaymentSearchSound(run, loanAmount, loanTermMonths, low, mid, iterations + 1);
    }
  }

  /** The corrected payment promise: a found payment's simulation succeeds
      and its schedule runs exactly the loan term. */
  lemma FullTermPaymentSound(loanAmount: real, interestRate: real, loanTermMonths: int, annualExtraPayment: real)
    ensures var r := FullTermPaymentFor(loanAmount, interestRate, loanTermMonths, annualExtraPayment);
      && (r.PaymentFailed? ==> r.error == PaymentNotFound)
      && (r.PaymentFound? ==>
            var sim := Simulate(loanAmount, CappedTerms(interestRate, r.monthlyPayment, loanTermMonths, annualExtraPayment));
            && sim.error.None? && r.schedule == sim.schedule
            && 0 < |r.schedule| == loanTermMonths
            && Abs(FinalDebt(r.schedule)) < PaymentTolerance)
  {
    var run := PaymentRun(loanAmount, interestRate, loanTermMonths, annualExtraPayment);
    var r := FullTermPaymentSearch(run, loanAmount, loanTermMonths, 0.0, PaymentCeiling(loanAmount), 0);
    FullTermPaymentSearchSound(run, loanAmount, loanTermMonths, 0.0, PaymentCeiling(loanAmount), 0);
    if r.PaymentFound? {
      var t := CappedTerms(interestRate, r.monthlyPayment, loanTermMonths, annualExtraPayment);
      assert run(r.monthlyPayment) == Simulate(loanAmount, t);
      SimulationShape(loanAmount, t);
    }
  }

  /** The corrected search cannot report the overpayment of the example for
      any term longer than 2 months. */
  lemma FullTermPaymentRejectsOverpayment(loanTermMonths: int)
    requires loanTermMonths > 2
    ensures var r := FullTermPaymentFor(200000.0, 5.0, loanTermMonths, 0.0);
      r.PaymentFound? ==> r.monthlyPayment != 200000.0 && |r.schedule| == loanTermMonths
  {
    FullTermPaymentSound(200000.0, 5.0, loanTermMonths, 0.0);
    OverpaymentRun(loanTermMonths);
  }

  /** The loan search with the early payoff treated as a loan that is too
      small: only a loan whose schedule runs the whole term is accepted. */
  function FullTermMaxLoanSearch(run: real -> ScheduleResult, loanTermMonths: int,
                                 low: real, high: real, iterations: nat): MaxLoanResult
    decreases SearchLimit - iterations, run(high).months
  {
    if iterations >= SearchLimit then MaxLoanFailed(MaxLoanNotFound)
    else
      var mid := (low + high) / 2.0;
      var sim := run(mid);
      if sim.error.Some? || sim.schedule == [] then
        FullTermMaxLoanSearch(run, loanTermMonths, low, mid, iterations + 1)
      else if |sim.schedule| < loanTermMonths then
        FullTermMaxLoanSearch(run, loanTermMonths, mid, high, iterations + 1)
      else if Abs(FinalDebt(sim.schedule)) < MaxLoanTolerance then
        MaxLoanFound(sim.schedule, mid, sim.totalPayment, sim.totalInterest,
                     RepaymentRate(FirstPrincipal(sim.schedule), mid))
      else if FinalDebt(sim.schedule) > MaxLoanTolerance then
        FullTermMaxLoanSearch(run, loanTermMonths, mid, high, iterations + 1)
      else
        FullTermMaxLoanSearch(run, loanTermMonths, low, mid, iterations + 1)
  }

  /** The documented maximum loan: the full-term search over [0, 10000000]. */
  function FullTermMaxLoanFor(monthlyPayment: real, interestRate: real, loanTermMonths: int,
                              annualExtraPayment: real): MaxLoanResult
  {
    FullTermMaxLoanSearch(MaxLoanRun(monthlyPayment, interestRate, loanTermMonths, annualExtraPayment),
                          loanTermMonths, 0.0, MaxLoanCeiling, 0)
  }

  /** An amount the full-term loan search accepts runs at least the whole term. */
  lemma {:induction false} FullTermMaxLoanSearchSound(run: real -> ScheduleResult, loanTermMonths: int,
                                                      low: real, high: real, iterations: nat)
    ensures var r := FullTermMaxLoanSearch(run, loanTermMonths, low, high, iterations);
      && (r.MaxLoanFailed? ==> r.error == MaxLoanNotFound)
      && (r.MaxLoanFound? ==>
            var sim := run(r.maxLoanAmount);
            && sim.error.None? && r.schedule == sim.schedule && r.schedule != []
            && r.totalPayment == sim.totalPayment && r.totalInterest == sim.totalInterest
            && |r.schedule| >= loanTermMonths
            && Abs(FinalDebt(r.schedule)) < MaxLoanTolerance)
    decreases SearchLimit - iterations
  {
    if iterations < SearchLimit {
      var mid := (low + high) / 2.0;
      var sim := run(mid);
      assert FullTermMaxLoanSearch(run, loanTermMonths, low, high, iterations)
          == if sim.error.Some? || sim.schedule == [] then
               FullTermMaxLoanSearch(run, loanTermMonths, low, mid, iterations + 1)
             else if |sim.schedule| < loanTermMonths then
               FullTermMaxLoanSearch(run, loanTermMonths, mid, high, iterations + 1)
             else if Abs(FinalDebt(sim.schedule)) < MaxLoanTolerance then
               MaxLoanFound(sim.schedule, mid, sim.totalPayment, sim.totalInterest,
                            RepaymentRate(FirstPrincipal(sim.schedule), mid))
             else if FinalDebt(sim.schedule) > MaxLoanTolerance then
               FullTermMaxLoanSearch(run, loanTermMonths, mid, high, iterations + 1)
             else
               FullTermMaxLoanSearch(run, loanTermMonths, low, mid, iterations + 1);
      FullTermMaxLoanSearchSound(run, loanTermMonths, mid, high, iterations + 1);
      FullTermMaxLoanSearchSound(run, loanTermMonths, low, mid, iterations + 1);
    }
  }

  /** The corrected loan promise: a found amount's simulation succeeds and
      its schedule runs exactly the loan term. */
  lemma FullTermMaxLoanSound(monthlyPayment: real, interestRate: real, loanTermMonths: int, annualExtraPayment: real)
    ensures var r := FullTermMaxLoanFor(monthlyPayment, interestRate, loanTermMonths, annualExtraPayment);
      && (r.MaxLoanFailed? ==> r.error == MaxLoanNotFound)
      && (r.MaxLoanFound? ==>
            var sim := Simulate(r.maxLoanAmount, CappedTerms(interestRate, monthlyPayment, loanTermMonths, annualExtraPayment));
            && sim.error.None? && r.schedule == sim.schedule
            && 0 < |r.schedule| == loanTermMonths
            && Abs(FinalDebt(r.schedule)) < MaxLoanTolerance)
  {
    var run := MaxLoanRun(monthlyPayment, interestRate, loanTermMonths, annualExtraPayment);
    var r := FullTermMaxLoanSearch(run, loanTermMonths, 0.0, MaxLoanCeiling, 0);
    FullTermMaxLoanSearchSound(run, loanTermMonths, 0.0, MaxLoanCeiling, 0);
    if r.MaxLoanFound? {
      var t := CappedTerms(interestRate, monthlyPayment, loanTermMonths, annualExtraPayment);
      assert run(r.maxLoanAmount) == Simulate(r.maxLoanAmount, t);
      SimulationShape(r.maxLoanAmount, t);
    }
  }

  /** The corrected search cannot report the five-month loan of the example. */
  lemma FullTermMaxLoanRejectsShortLoan()
    ensures var r := FullTermMaxLoanFor(1000000.0, 0.0, 6, 0.0);
      r.MaxLoanFound? ==> r.maxLoanAmount != 5000000.0 && |r.schedule| == 6
  {
    FullTermMaxLoanSound(1000000.0, 0.0, 6, 0.0);
    MillionAMonth(6, 5, 0);
  }
}
