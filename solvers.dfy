/** The two bisection solvers of the loan calculator (calculateMonthlyPayment
    and calculateMaxLoanAmount in src/utils/loanMath.js): each halves an
    interval for at most 100 rounds, runs the simulator at the midpoint with
    the loan term as its cap, and accepts the first midpoint whose final
    debt lies within its tolerance. */
module Solvers {
  import opened Amortization
  import opened Metrics

  /** The number of bisection rounds each solver allows. */
  const SearchLimit: nat := 100

  /** How close to zero the final debt must be for a monthly payment. */
  const PaymentTolerance: real := 0.01

  /** How close to zero the final debt must be for a maximum loan amount. */
  const MaxLoanTolerance: real := 1.0

  /** The upper end of the search interval for the maximum loan amount. */
  const MaxLoanCeiling: real := 10000000.0

  function Abs(x: real): real
  {
    if x < 0.0 then -x else x
  }

  /** The debt recorded in the last row of a non-empty schedule. */
  function FinalDebt(schedule: seq<Row>): real
    requires schedule != []
  {
    schedule[|schedule| - 1].remainingDebt
  }

  /** The simulator's terms both solvers use: the term in months is the cap. */
  function CappedTerms(interestRate: real, monthlyPayment: real, loanTermMonths: int, annualExtraPayment: real): Terms
  {
    Terms(interestRate, monthlyPayment, annualExtraPayment, Some(loanTermMonths))
  }

  datatype PaymentResult =
    | PaymentFound(schedule: seq<Row>, monthlyPayment: real, totalPayment: real,
                   totalInterest: real, repaymentRate: Option<real>)
    | PaymentFailed(error: LoanError)

  datatype MaxLoanResult =
    | MaxLoanFound(schedule: seq<Row>, maxLoanAmount: real, totalPayment: real,
                   totalInterest: real, repaymentRate: Option<real>)
    | MaxLoanFailed(error: LoanError)

  // ---------------------------------------------------------------------
  // Solving for the monthly payment

  /** The simulation the payment solver runs for a candidate payment. */
  function PaymentRun(loanAmount: real, interestRate: real, loanTermMonths: int, annualExtraPayment: real)
    : real -> ScheduleResult
  {
    payment => Simulate(loanAmount, CappedTerms(interestRate, payment, loanTermMonths, annualExtraPayment))
  }

  /** Bisection for the monthly payment from round `iterations` on, with the
      payment searched in [low, high] and `run` simulating a candidate. A
      failed or empty simulation means the payment is too low; otherwise the
      final debt decides. */
  function PaymentSearch(run: real -> ScheduleResult, loanAmount: real, low: real, high: real, iterations: nat)
    : PaymentResult
    // the second component never decides termination; naming `run` in it keeps
    // the verifier from unrolling all rounds when the round count is a literal
    decreases SearchLimit - iterations, run(high).months
  {
    if iterations >= SearchLimit then PaymentFailed(PaymentNotFound)
    else
      var mid := (low + high) / 2.0;
      var sim := run(mid);
      if sim.error.Some? || sim.schedule == [] then
        PaymentSearch(run, loanAmount, mid, high, iterations + 1)
      else if Abs(FinalDebt(sim.schedule)) < PaymentTolerance then
        PaymentFound(sim.schedule, mid, sim.totalPayment, sim.totalInterest,
                     RepaymentRate(FirstPrincipal(sim.schedule), loanAmount))
      else if FinalDebt(sim.schedule) > PaymentTolerance then
        PaymentSearch(run, loanAmount, mid, high, iterations + 1)
      else
        PaymentSearch(run, loanAmount, low, mid, iterations + 1)
  }

  /** The upper end of the payment search: twice the loan amount. */
  function PaymentCeiling(loanAmount: real): real
  {
    loanAmount * 2.0
  }

  /** The monthly payment the calculator reports: the search over [0, 2 * loanAmount]. */
  function MonthlyPaymentFor(loanAmount: real, interestRate: real, loanTermMonths: int,
                             annualExtraPayment: real): PaymentResult
  {
    PaymentSearch(PaymentRun(loanAmount, interestRate, loanTermMonths, annualExtraPayment),
                  loanAmount, 0.0, PaymentCeiling(loanAmount), 0)
  }

  /** One round of the payment search, with its midpoint and simulation named. */
  lemma PaymentRound(run: real -> ScheduleResult, loanAmount: real, low: real, high: real, iterations: nat,
                     mid: real, sim: ScheduleResult)
    requires iterations < SearchLimit
    requires mid == (low + high) / 2.0
    requires sim == run(mid)
    ensures PaymentSearch(run, loanAmount, low, high, iterations)
         == if sim.error.Some? || sim.schedule == [] then PaymentSearch(run, loanAmount, mid, high, iterations + 1)
            else if Abs(FinalDebt(sim.schedule)) < PaymentTolerance then
              PaymentFound(sim.schedule, mid, sim.totalPayment, sim.totalInterest,
                           RepaymentRate(FirstPrincipal(sim.schedule), loanAmount))
            else if FinalDebt(sim.schedule) > PaymentTolerance then
              PaymentSearch(run, loanAmount, mid, high, iterations + 1)
            else
              PaymentSearch(run, loanAmount, low, mid, iterations + 1)
  {
  }

  /** `run` gives the simulation of a monthly payment of `x` under the
      payment solver's terms. */
  ghost predicate RunsPayment(run: real -> ScheduleResult, x: real, loanAmount: real, interestRate: real,
                              loanTermMonths: int, annualExtraPayment: real)
  {
    run(x) == Simulate(loanAmount, CappedTerms(interestRate, x, loanTermMonths, annualExtraPayment))
  }

  /** PaymentRun, handed out through what it does at each payment only, so
      that proofs about the search see one simulation at a time. */
  lemma PaymentRunner(loanAmount: real, interestRate: real, loanTermMonths: int, annualExtraPayment: real)
    returns (run: real -> ScheduleResult)
    ensures forall x :: RunsPayment(run, x, loanAmount, interestRate, loanTermMonths, annualExtraPayment)
    ensures PaymentSearch(run, loanAmount, 0.0, PaymentCeiling(loanAmount), 0)
         == MonthlyPaymentFor(loanAmount, interestRate, loanTermMonths, annualExtraPayment)
  {
    run := PaymentRun(loanAmount, interestRate, loanTermMonths, annualExtraPayment);
  }

  /** The payment solver: at most 100 simulations, bisecting [0, 2 * loanAmount]. */
  method CalculateMonthlyPayment(loanAmount: real, interestRate: real, loanTermMonths: int,
                                 annualExtraPayment: real)
    returns (r: PaymentResult, ghost simulations: nat)
    ensures r == MonthlyPaymentFor(loanAmount, interestRate, loanTermMonths, annualExtraPayment)
    ensures simulations <= SearchLimit
  {
    ghost var run := PaymentRunner(loanAmount, interestRate, loanTermMonths, annualExtraPayment);
    r, simulations := BisectPayment(loanAmount, interestRate, loanTermMonths, annualExtraPayment, run);
  }

  /** The simulator run on one candidate monthly payment. */
  method SimulatePaymentCandidate(monthlyPayment: real, loanAmount: real, interestRate: real,
                                  loanTermMonths: int, annualExtraPayment: real, ghost run: real -> ScheduleResult)
    returns (result: ScheduleResult)
    requires forall x :: RunsPayment(run, x, loanAmount, interestRate, loanTermMonths, annualExtraPayment)
    ensures result == run(monthlyPayment)
  {
    assert RunsPayment(run, monthlyPayment, loanAmount, interestRate, loanTermMonths, annualExtraPayment);
    result := GenerateAmortizationSchedule(loanAmount, interestRate, monthlyPayment, annualExtraPayment,
                                           Some(loanTermMonths));
  }

  /** The bisection loop of the payment solver. */
  method BisectPayment(loanAmount: real, interestRate: real, loanTermMonths: int,
                       annualExtraPayment: real, ghost run: real -> ScheduleResult)
    returns (r: PaymentResult, ghost simulations: nat)
    requires forall x :: RunsPayment(run, x, loanAmount, interestRate, loanTermMonths, annualExtraPayment)
    ensures r == PaymentSearch(run, loanAmount, 0.0, PaymentCeiling(loanAmount), 0)
    ensures simulations <= SearchLimit
  {
    var low := 0.0;
    var high := PaymentCeiling(loanAmount);
    var iterations: nat := 0;
    simulations := 0;
    while iterations < SearchLimit
      invariant iterations <= SearchLimit && simulations == iterations
      // the interval only shrinks, inside [0, 2 * loanAmount]
      invariant loanAmount >= 0.0 ==> 0.0 <= low <= high <= PaymentCeiling(loanAmount)
      invariant PaymentSearch(run, loanAmount, low, high, iterations)
             == PaymentSearch(run, loanAmount, 0.0, PaymentCeiling(loanAmount), 0)
      decreases SearchLimit - iterations
    {
      var mid := (low + high) / 2.0;
      var result := SimulatePaymentCandidate(mid, loanAmount, interestRate, loanTermMonths, annualExtraPayment, run);
      simulations := simulations + 1;
      PaymentRound(run, loanAmount, low, high, iterations, mid, result);
      if result.error.Some? || |result.schedule| == 0 {
        low := mid;
        iterations := iterations + 1;
        continue;
      }
      var finalDebt := result.schedule[|result.schedule| - 1].remainingDebt;
      if Abs(finalDebt) < PaymentTolerance {
        var firstMonthPrincipal := result.schedule[0].principal;
        var repaymentRate := RepaymentRate(firstMonthPrincipal, loanAmount);
        return PaymentFound(result.schedule, mid, result.totalPayment, result.totalInterest, repaymentRate), simulations;
      }
      if finalDebt > PaymentTolerance {
        low := mid;
      } else {
        high := mid;
      }
      iterations := iterations + 1;
    }
    return PaymentFailed(PaymentNotFound), simulations;
  }

  /** What the payment search promises: a found payment lies in the searched
      interval, comes with exactly the simulation's schedule and totals at that
      payment, and leaves a final debt within the tolerance; otherwise the
      fixed error is reported. */
  lemma {:induction false} PaymentSearchSound(run: real -> ScheduleResult, loanAmount: real,
                                              low: real, high: real, iterations: nat)
    ensures var r := PaymentSearch(run, loanAmount, low, high, iterations);
      && (r.PaymentFailed? ==> r.error == PaymentNotFound)
      && (r.PaymentFound? ==>
            var sim := run(r.monthlyPayment);
            && (low <= r.monthlyPayment <= high || high <= r.monthlyPayment <= low)
            && sim.error.None? && r.schedule == sim.schedule && r.schedule != []
            && r.totalPayment == sim.totalPayment && r.totalInterest == sim.totalInterest
            && Abs(FinalDebt(r.schedule)) < PaymentTolerance
            && r.repaymentRate == RepaymentRate(FirstPrincipal(r.schedule), loanAmount))
    decreases SearchLimit - iterations
  {
    if iterations < SearchLimit {
      var mid := (low + high) / 2.0;
      PaymentRound(run, loanAmount, low, high, iterations, mid, run(mid));
      PaymentSearchSound(run, loanAmount, mid, high, iterations + 1);
      PaymentSearchSound(run, loanAmount, low, mid, iterations + 1);
    }
  }

  /** The calculator's payment promise: a found payment lies in
      [0, 2 * loanAmount] and comes with the simulation at that payment, which
      succeeds within the term cap and leaves a final debt within the
      tolerance; such a loan is above the paid-off threshold, so its
      repayment rate exists. Otherwise the fixed error is reported. */
  lemma MonthlyPaymentSound(loanAmount: real, interestRate: real, loanTermMonths: int, annualExtraPayment: real)
    ensures var r := MonthlyPaymentFor(loanAmount, interestRate, loanTermMonths, annualExtraPayment);
      && (r.PaymentFailed? ==> r.error == PaymentNotFound)
      && (r.PaymentFound? ==>
            var sim := Simulate(loanAmount, CappedTerms(interestRate, r.monthlyPayment, loanTermMonths, annualExtraPayment));
            && 0.0 <= r.monthlyPayment <= 2.0 * loanAmount
            && sim.error.None? && r.schedule == sim.schedule
            && r.totalPayment == sim.totalPayment && r.totalInterest == sim.totalInterest
            && 0 < |r.schedule| <= loanTermMonths
            && Abs(FinalDebt(r.schedule)) < PaymentTolerance
            && loanAmount > PaidOffThreshold
            && r.repaymentRate.Some?)
  {
    var run := PaymentRun(loanAmount, interestRate, loanTermMonths, annualExtraPayment);
    var ceiling := PaymentCeiling(loanAmount);
    var r := PaymentSearch(run, loanAmount, 0.0, ceiling, 0);
    if r.PaymentFound? {
      var t := CappedTerms(interestRate, r.monthlyPayment, loanTermMonths, annualExtraPayment);
      PaymentSearchSound(run, loanAmount, 0.0, ceiling, 0);
      assert run(r.monthlyPayment) == Simulate(loanAmount, t);
      SimulationShape(loanAmount, t);
    } else {
      PaymentSearchSound(run, loanAmount, 0.0, ceiling, 0);
    }
  }

  // ---------------------------------------------------------------------
  // Solving for the maximum loan amount

  /** The simulation the loan solver runs for a candidate loan amount. */
  function MaxLoanRun(monthlyPayment: real, interestRate: real, loanTermMonths: int, annualExtraPayment: real)
    : real -> ScheduleResult
  {
    loanAmount => Simulate(loanAmount, CappedTerms(interestRate, monthlyPayment, loanTermMonths, annualExtraPayment))
  }

  /** Bisection for the maximum loan amount from round `iterations` on,
      searched in [low, high] with `run` simulating a candidate. A failed or
      empty simulation means the loan is too large; otherwise the final debt
      decides. */
  function MaxLoanSearch(run: real -> ScheduleResult, low: real, high: real, iterations: nat): MaxLoanResult
    // the second component never decides termination; naming `run` in it keeps
    // the verifier from unrolling all rounds when the round count is a literal
    decreases SearchLimit - iterations, run(high).months
  {
    if iterations >= SearchLimit then MaxLoanFailed(MaxLoanNotFound)
    else
      var mid := (low + high) / 2.0;
      var sim := run(mid);
      if sim.error.Some? || sim.schedule == [] then
        MaxLoanSearch(run, low, mid, iterations + 1)
      else if Abs(FinalDebt(sim.schedule)) < MaxLoanTolerance then
        MaxLoanFound(sim.schedule, mid, sim.totalPayment, sim.totalInterest,
                     RepaymentRate(FirstPrincipal(sim.schedule), mid))
      else if FinalDebt(sim.schedule) > MaxLoanTolerance then
        MaxLoanSearch(run, mid, high, iterations + 1)
      else
        MaxLoanSearch(run, low, mid, iterations + 1)
  }

  /** The maximum loan amount the calculator reports: the search over [0, 10000000]. */
  function MaxLoanAmountFor(monthlyPayment: real, interestRate: real, loanTermMonths: int,
                            annualExtraPayment: real): MaxLoanResult
  {
    MaxLoanSearch(MaxLoanRun(monthlyPayment, interestRate, loanTermMonths, annualExtraPayment),
                  0.0, MaxLoanCeiling, 0)
  }

  /** One round of the loan search, with its midpoint and simulation named. */
  lemma MaxLoanRound(run: real -> ScheduleResult, low: real, high: real, iterations: nat,
                     mid: real, sim: ScheduleResult)
    requires iterations < SearchLimit
    requires mid == (low + high) / 2.0
    requires sim == run(mid)
    ensures MaxLoanSearch(run, low, high, iterations)
         == if sim.error.Some? || sim.schedule == [] then MaxLoanSearch(run, low, mid, iterations + 1)
            else if Abs(FinalDebt(sim.schedule)) < MaxLoanTolerance then
              MaxLoanFound(sim.schedule, mid, sim.totalPayment, sim.totalInterest,
                           RepaymentRate(FirstPrincipal(sim.schedule), mid))
            else if FinalDebt(sim.schedule) > MaxLoanTolerance then
              MaxLoanSearch(run, mid, high, iterations + 1)
            else
              MaxLoanSearch(run, low, mid, iterations + 1)
  {
  }

  /** `run` gives the simulation of a loan of `x` under the loan solver's terms. */
  ghost predicate RunsLoan(run: real -> ScheduleResult, x: real, monthlyPayment: real, interestRate: real,
                           loanTermMonths: int, annualExtraPayment: real)
  {
    run(x) == Simulate(x, CappedTerms(interestRate, monthlyPayment, loanTermMonths, annualExtraPayment))
  }

  /** MaxLoanRun, handed out through what it does at each loan amount only,
      so that proofs about the search see one simulation at a time. */
  lemma LoanRunner(monthlyPayment: real, interestRate: real, loanTermMonths: int, annualExtraPayment: real)
    returns (run: real -> ScheduleResult)
    ensures forall x :: RunsLoan(run, x, monthlyPayment, interestRate, loanTermMonths, annualExtraPayment)
    ensures MaxLoanSearch(run, 0.0, MaxLoanCeiling, 0)
         == MaxLoanAmountFor(monthlyPayment, interestRate, loanTermMonths, annualExtraPayment)
  {
    run := MaxLoanRun(monthlyPayment, interestRate, loanTermMonths, annualExtraPayment);
  }

  /** The loan solver: at most 100 simulations, bisecting [0, 10000000]. */
  method CalculateMaxLoanAmount(monthlyPayment: real, interestRate: real, loanTermMonths: int,
                                annualExtraPayment: real)
    returns (r: MaxLoanResult, ghost simulations: nat)
    ensures r == MaxLoanAmountFor(monthlyPayment, interestRate, loanTermMonths, annualExtraPayment)
    ensures simulations <= SearchLimit
  {
    ghost var run := LoanRunner(monthlyPayment, interestRate, loanTermMonths, annualExtraPayment);
    r, simulations := BisectMaxLoan(monthlyPayment, interestRate, loanTermMonths, annualExtraPayment, run);
  }

  /** The simulator run on one candidate loan amount. */
  method SimulateLoanCandidate(loanAmount: real, monthlyPayment: real, interestRate: real, loanTermMonths: int,
                           annualExtraPayment: real, ghost run: real -> ScheduleResult)
    returns (result: ScheduleResult)
    requires forall x :: RunsLoan(run, x, monthlyPayment, interestRate, loanTermMonths, annualExtraPayment)
    ensures result == run(loanAmount)
  {
    assert RunsLoan(run, loanAmount, monthlyPayment, interestRate, loanTermMonths, annualExtraPayment);
    result := GenerateAmortizationSchedule(loanAmount, interestRate, monthlyPayment, annualExtraPayment,
                                           Some(loanTermMonths));
  }

  /** The bisection loop of the loan solver. */
  method BisectMaxLoan(monthlyPayment: real, interestRate: real, loanTermMonths: int,
                       annualExtraPayment: real, ghost run: real -> ScheduleResult)
    returns (r: MaxLoanResult, ghost simulations: nat)
    requires forall x :: RunsLoan(run, x, monthlyPayment, interestRate, loanTermMonths, annualExtraPayment)
    ensures r == MaxLoanSearch(run, 0.0, MaxLoanCeiling, 0)
    ensures simulations <= SearchLimit
  {
    var low := 0.0;
    var high := MaxLoanCeiling;
    var iterations: nat := 0;
    simulations := 0;
    while iterations < SearchLimit
      invariant iterations <= SearchLimit && simulations == iterations
      // the interval only shrinks, inside [0, 10000000]
      invariant 0.0 <= low <= high <= MaxLoanCeiling
      invariant MaxLoanSearch(run, low, high, iterations) == MaxLoanSearch(run, 0.0, MaxLoanCeiling, 0)
      decreases SearchLimit - iterations
    {
      var mid := (low + high) / 2.0;
      var result := SimulateLoanCandidate(mid, monthlyPayment, interestRate, loanTermMonths, annualExtraPayment, run);
      simulations := simulations + 1;
      MaxLoanRound(run, low, high, iterations, mid, result);
      if result.error.Some? || |result.schedule| == 0 {
        high := mid;
        iterations := iterations + 1;
        continue;
      }
      var finalDebt := result.schedule[|result.schedule| - 1].remainingDebt;
      if Abs(finalDebt) < MaxLoanTolerance {
        var firstMonthPrincipal := result.schedule[0].principal;
        var repaymentRate := RepaymentRate(firstMonthPrincipal, mid);
        return MaxLoanFound(result.schedule, mid, result.totalPayment, result.totalInterest, repaymentRate), simulations;
      }
      if finalDebt > MaxLoanTolerance {
        low := mid;
      } else {
        high := mid;
      }
      iterations := iterations + 1;
    }
    return MaxLoanFailed(MaxLoanNotFound), simulations;
  }

  /** What the loan search promises: a found amount lies in the searched
      interval, comes with exactly the simulation's schedule and totals at
      that amount, and leaves a final debt within the tolerance; otherwise the
      fixed error is reported. */
  lemma {:induction false} MaxLoanSearchSound(run: real -> ScheduleResult, low: real, high: real, iterations: nat)
    requires low <= high
    ensures var r := MaxLoanSearch(run, low, high, iterations);
      && (r.MaxLoanFailed? ==> r.error == MaxLoanNotFound)
      && (r.MaxLoanFound? ==>
            var sim := run(r.maxLoanAmount);
            && low <= r.maxLoanAmount <= high
            && sim.error.None? && r.schedule == sim.schedule && r.schedule != []
            && r.totalPayment == sim.totalPayment && r.totalInterest == sim.totalInterest
            && Abs(FinalDebt(r.schedule)) < MaxLoanTolerance
            && r.repaymentRate == RepaymentRate(FirstPrincipal(r.schedule), r.maxLoanAmount))
    decreases SearchLimit - iterations
  {
    if iterations < SearchLimit {
      var mid := (low + high) / 2.0;
      MaxLoanRound(run, low, high, iterations, mid, run(mid));
      MaxLoanSearchSound(run, low, mid, iterations + 1);
      MaxLoanSearchSound(run, mid, high, iterations + 1);
    }
  }

  /** Every successful, non-empty run ends with a recorded debt between 0
      and the paid-off threshold. */
  ghost predicate EndsPaidOff(run: real -> ScheduleResult)
  {
    forall x :: run(x).error.None? && run(x).schedule != [] ==>
      0.0 <= FinalDebt(run(x).schedule) <= PaidOffThreshold
  }

  /** The search that accepts the first midpoint whose simulation succeeds
      with at least one row, halving the interval from above until then. */
  function FirstSuccess(run: real -> ScheduleResult, low: real, high: real, iterations: nat): MaxLoanResult
    decreases SearchLimit - iterations
  {
    if iterations >= SearchLimit then MaxLoanFailed(MaxLoanNotFound)
    else
      var mid := (low + high) / 2.0;
      var sim := run(mid);
      if sim.error.None? && sim.schedule != [] then
        MaxLoanFound(sim.schedule, mid, sim.totalPayment, sim.totalInterest,
                     RepaymentRate(FirstPrincipal(sim.schedule), mid))
      else
        FirstSuccess(run, low, mid, iterations + 1)
  }

  /** Because a successful simulation always ends at or below 0.01, which is
      within the tolerance of 1, the loan search accepts the first midpoint
      that succeeds, and so it never raises its lower end. */
  lemma {:induction false} MaxLoanAcceptsFirstSuccess(run: real -> ScheduleResult, low: real, high: real,
                                                      iterations: nat)
    requires EndsPaidOff(run)
    ensures MaxLoanSearch(run, low, high, iterations) == FirstSuccess(run, low, high, iterations)
    decreases SearchLimit - iterations
  {
    if iterations < SearchLimit {
      var mid := (low + high) / 2.0;
      var sim := run(mid);
      MaxLoanRound(run, low, high, iterations, mid, sim);
      if sim.error.None? && sim.schedule != [] {
        assert 0.0 <= FinalDebt(sim.schedule) <= PaidOffThreshold;
      } else {
        MaxLoanAcceptsFirstSuccess(run, low, mid, iterations + 1);
      }
    }
  }

  /** The simulator's runs end paid off. */
  lemma SimulationEndsPaidOff(run: real -> ScheduleResult, monthlyPayment: real, interestRate: real,
                              loanTermMonths: int, annualExtraPayment: real)
    requires forall x :: RunsLoan(run, x, monthlyPayment, interestRate, loanTermMonths, annualExtraPayment)
    ensures EndsPaidOff(run)
  {
    var t := CappedTerms(interestRate, monthlyPayment, loanTermMonths, annualExtraPayment);
    forall x | run(x).error.None? && run(x).schedule != []
      ensures 0.0 <= FinalDebt(run(x).schedule) <= PaidOffThreshold
    {
      assert RunsLoan(run, x, monthlyPayment, interestRate, loanTermMonths, annualExtraPayment);
      SimulationShape(x, t);
    }
  }

  /** x halved k times, that is x divided by 2 to the power k. */
  function Halved(x: real, k: nat): real
    decreases k
  {
    if k == 0 then x else Halved(x / 2.0, k - 1)
  }

  /** One round of the first-success search from a lower end of 0. */
  lemma FirstSuccessRound(run: real -> ScheduleResult, high: real, iterations: nat)
    requires iterations < SearchLimit
    ensures var sim := run(high / 2.0);
      FirstSuccess(run, 0.0, high, iterations)
      == if sim.error.None? && sim.schedule != [] then
           MaxLoanFound(sim.schedule, high / 2.0, sim.totalPayment, sim.totalInterest,
                        RepaymentRate(FirstPrincipal(sim.schedule), high / 2.0))
         else FirstSuccess(run, 0.0, high / 2.0, iterations + 1)
  {
    assert (0.0 + high) / 2.0 == high / 2.0;
  }

  /** Starting from a lower end of 0, every amount the first-success search
      can report is the upper end divided by a power of two. */
  lemma {:induction false} FirstSuccessHalves(run: real -> ScheduleResult, high: real, iterations: nat)
    ensures var r := FirstSuccess(run, 0.0, high, iterations);
      r.MaxLoanFound? ==> exists k: nat :: 0 < k <= SearchLimit - iterations && r.maxLoanAmount == Halved(high, k)
    decreases SearchLimit - iterations
  {
    var r := FirstSuccess(run, 0.0, high, iterations);
    if iterations < SearchLimit && r.MaxLoanFound? {
      var mid := high / 2.0;
      var sim := run(mid);
      FirstSuccessRound(run, high, iterations);
      if sim.error.None? && sim.schedule != [] {
        assert r.maxLoanAmount == Halved(high, 1);
      } else {
        FirstSuccessHalves(run, mid, iterations + 1);
        var k: nat :| 0 < k <= SearchLimit - (iterations + 1) && r.maxLoanAmount == Halved(mid, k);
        assert Halved(high, k + 1) == Halved(mid, k);
      }
    }
  }

  /** What the calculator promises about a loan-search result `r`: a found
      amount lies in (0.01, 10000000] and comes with the simulation of that
      loan, which succeeds within the term cap with a final debt at or below
      0.01, and the amount is 10000000 divided by a power of two; a failure
      reports the fixed error. */
  ghost predicate MaxLoanPromise(r: MaxLoanResult, monthlyPayment: real, interestRate: real,
                                 loanTermMonths: int, annualExtraPayment: real)
  {
    && (r.MaxLoanFailed? ==> r.error == MaxLoanNotFound)
    && (r.MaxLoanFound? ==>
          var sim := Simulate(r.maxLoanAmount, CappedTerms(interestRate, monthlyPayment, loanTermMonths, annualExtraPayment));
          && PaidOffThreshold < r.maxLoanAmount <= MaxLoanCeiling
          && sim.error.None? && r.schedule == sim.schedule
          && r.totalPayment == sim.totalPayment && r.totalInterest == sim.totalInterest
          && 0 < |r.schedule| <= loanTermMonths
          && 0.0 <= FinalDebt(r.schedule) <= PaidOffThreshold
          && r.repaymentRate.Some?
          && (exists k: nat :: 0 < k <= SearchLimit && r.maxLoanAmount == Halved(MaxLoanCeiling, k)))
  }

  /** A found amount of the loan search run on the simulator is a loan the
      simulator pays off within the term cap, and its result is that run's. */
  lemma BisectMaxLoanFits(run: real -> ScheduleResult, monthlyPayment: real, interestRate: real,
                          loanTermMonths: int, annualExtraPayment: real)
    requires forall x :: RunsLoan(run, x, monthlyPayment, interestRate, loanTermMonths, annualExtraPayment)
    ensures var r := MaxLoanSearch(run, 0.0, MaxLoanCeiling, 0);
      && (r.MaxLoanFailed? ==> r.error == MaxLoanNotFound)
      && (r.MaxLoanFound? ==>
            var sim := Simulate(r.maxLoanAmount, CappedTerms(interestRate, monthlyPayment, loanTermMonths, annualExtraPayment));
            && PaidOffThreshold < r.maxLoanAmount <= MaxLoanCeiling
            && sim.error.None? && r.schedule == sim.schedule
            && r.totalPayment == sim.totalPayment && r.totalInterest == sim.totalInterest
            && 0 < |r.schedule| <= loanTermMonths
            && 0.0 <= FinalDebt(r.schedule) <= PaidOffThreshold
            && r.repaymentRate.Some?)
  {
    var r := MaxLoanSearch(run, 0.0, MaxLoanCeiling, 0);
    MaxLoanSearchSound(run, 0.0, MaxLoanCeiling, 0);
    if r.MaxLoanFound? {
      var t := CappedTerms(interestRate, monthlyPayment, loanTermMonths, annualExtraPayment);
      assert RunsLoan(run, r.maxLoanAmount, monthlyPayment, interestRate, loanTermMonths, annualExtraPayment);
      SimulationShape(r.maxLoanAmount, t);
    }
  }

  /** The amount the loan search run on the simulator reports is 10000000
      divided by a power of two: the first such fraction whose simulation
      succeeds. */
  lemma BisectMaxLoanHalves(run: real -> ScheduleResult, monthlyPayment: real, interestRate: real,
                            loanTermMonths: int, annualExtraPayment: real)
    requires forall x :: RunsLoan(run, x, monthlyPayment, interestRate, loanTermMonths, annualExtraPayment)
    ensures var r := MaxLoanSearch(run, 0.0, MaxLoanCeiling, 0);
      r.MaxLoanFound? ==> exists k: nat :: 0 < k <= SearchLimit && r.maxLoanAmount == Halved(MaxLoanCeiling, k)
  {
    SimulationEndsPaidOff(run, monthlyPayment, interestRate, loanTermMonths, annualExtraPayment);
    MaxLoanAcceptsFirstSuccess(run, 0.0, MaxLoanCeiling, 0);
    FirstSuccessHalves(run, MaxLoanCeiling, 0);
  }

  /** The loan search run on the simulator keeps the promise. */
  lemma BisectMaxLoanSound(run: real -> ScheduleResult, monthlyPayment: real, interestRate: real,
                           loanTermMonths: int, annualExtraPayment: real)
    requires forall x :: RunsLoan(run, x, monthlyPayment, interestRate, loanTermMonths, annualExtraPayment)
    ensures MaxLoanPromise(MaxLoanSearch(run, 0.0, MaxLoanCeiling, 0),
                           monthlyPayment, interestRate, loanTermMonths, annualExtraPayment)
  {
    BisectMaxLoanFits(run, monthlyPayment, interestRate, loanTermMonths, annualExtraPayment);
    BisectMaxLoanHalves(run, monthlyPayment, interestRate, loanTermMonths, annualExtraPayment);
  }

  /** The calculator's loan promise. */
  lemma MaxLoanAmountSound(monthlyPayment: real, interestRate: real, loanTermMonths: int, annualExtraPayment: real)
    ensures MaxLoanPromise(MaxLoanAmountFor(monthlyPayment, interestRate, loanTermMonths, annualExtraPayment),
                           monthlyPayment, interestRate, loanTermMonths, annualExtraPayment)
  {
    var run := LoanRunner(monthlyPayment, interestRate, loanTermMonths, annualExtraPayment);
    BisectMaxLoanSound(run, monthlyPayment, interestRate, loanTermMonths, annualExtraPayment);
  }
}
