/** The repayment rate and the loan-term calculation (calculateRepaymentRate
    and calculateLoanTerm in src/utils/loanMath.js). */
module Metrics {
  import opened Amortization

  /** The annual repayment rate in percent: twelve times the first month's
      principal as a share of the loan. There is no finite rate for a loan
      of zero, which is the one case where the division has no value. */
  function RepaymentRate(firstMonthPrincipal: real, loanAmount: real): (rate: Option<real>)
    ensures rate.None? <==> loanAmount == 0.0
    ensures rate.Some? ==> rate.value * loanAmount == firstMonthPrincipal * 1200.0
  {
    if loanAmount == 0.0 then None else Some(firstMonthPrincipal * 12.0 / loanAmount * 100.0)
  }

  /** The principal of the first row, or 0 when there is no row. */
  function FirstPrincipal(schedule: seq<Row>): real
  {
    if schedule == [] then 0.0 else schedule[0].principal
  }

  /** The first principal of a successful run is what the regular payment
      leaves after the first month's interest, unless that exceeds the loan,
      in which case the first month clears the whole loan; an empty schedule
      gives 0. (The first month is never a year end, so no extra payment
      takes part.) */
  lemma FirstPrincipalOfRun(loanAmount: real, t: Terms)
    ensures var r := Simulate(loanAmount, t);
      r.error.None? ==>
        if r.schedule == [] then FirstPrincipal(r.schedule) == 0.0
        else
          var regular := t.monthlyPayment - MonthlyInterest(loanAmount, t.interestRate);
          FirstPrincipal(r.schedule) == if regular > loanAmount then loanAmount else regular
  {
    SimulationSucceeds(loanAmount, t);
    var r := Simulate(loanAmount, t);
    if r.error.None? && r.schedule != [] {
      assert RowFollows(t, DebtBefore(loanAmount, r.schedule, 0), r.schedule[0]);
      assert r.schedule[0].date == 0;
      assert PlannedExtra(t, 0) == 0.0;
    }
  }

  /** The outcome of the loan-term calculation. */
  datatype LoanTermResult =
    | LoanTerm(schedule: seq<Row>, totalPayment: real, totalInterest: real,
               loanTermYears: nat, loanTermMonths: nat, repaymentRate: Option<real>)
    | LoanTermFailed(error: LoanError)

  /** The simulator's terms for the loan-term calculation: no term cap. */
  function Uncapped(interestRate: real, monthlyPayment: real, annualExtraPayment: real): Terms
  {
    Terms(interestRate, monthlyPayment, annualExtraPayment, None)
  }

  /** Runs the simulation without a term cap and reports how long the loan
      runs, in whole years and remaining months. */
  function CalculateLoanTerm(loanAmount: real, interestRate: real, monthlyPayment: real,
                             annualExtraPayment: real): (r: LoanTermResult)
    ensures var sim := Simulate(loanAmount, Uncapped(interestRate, monthlyPayment, annualExtraPayment));
      && (r.LoanTermFailed? <==> sim.error.Some?)
      && (r.LoanTermFailed? ==> Some(r.error) == sim.error)
      // with no cap the run can only fail on the interest check or the safety bound
      && (r.LoanTermFailed? ==> r.error == PaymentBelowInterest || r.error == IterationLimitExceeded)
      && (r.LoanTerm? ==>
            && r.schedule == sim.schedule
            && r.totalPayment == sim.totalPayment
            && r.totalInterest == sim.totalInterest
            && r.loanTermYears * 12 + r.loanTermMonths == |r.schedule| < MaxIterations
            && r.loanTermMonths < 12
            && r.repaymentRate == RepaymentRate(FirstPrincipal(r.schedule), loanAmount))
  {
    var t := Uncapped(interestRate, monthlyPayment, annualExtraPayment);
    var sim := Simulate(loanAmount, t);
    if sim.error.Some? then
      FailureCauses(t, loanAmount, 0);
      LoanTermFailed(sim.error.value)
    else
      SimulationSucceeds(loanAmount, t);
      var months := sim.months;
      LoanTerm(sim.schedule, sim.totalPayment, sim.totalInterest, months / 12, months % 12,
               RepaymentRate(FirstPrincipal(sim.schedule), loanAmount))
  }

  /** A payment of 500 on 200000 at 5% is below the first month's interest
      of about 833.33, so the loan term cannot be computed. */
  lemma PaymentBelowInterestExample()
    ensures CalculateLoanTerm(200000.0, 5.0, 500.0, 0.0) == LoanTermFailed(PaymentBelowInterest)
  {
    FirstMonthOutcomes(200000.0, Uncapped(5.0, 500.0, 0.0));
  }
}
