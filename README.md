# Loan calculator amortization engine, in Dafny

This project models the amortization engine of a loan calculator, `src/utils/loanMath.js`, whose three query modes share one simulator:

- **The simulator** (`generateAmortizationSchedule`) runs the loan month by month.
  - Each month it charges simple monthly interest on the remaining debt and applies the regular payment.
  - At the end of every loan year it adds the annual extra payment.
  - It clamps the final month so the balance is never overpaid.
  - It fails in three ways:
    - debt remains when the term cap is reached;
    - the payment is below the interest and there is no extra payment;
    - the 1200-month safety bound is hit.
- **The loan term** (`calculateLoanTerm`) runs the simulator without a cap. It reports the duration in years and months, and the repayment rate (`calculateRepaymentRate`).
- **The monthly payment** (`calculateMonthlyPayment`) bisects the payment over `[0, 2 * loanAmount]`, with tolerance 0.01 and at most 100 rounds.
- **The maximum loan amount** (`calculateMaxLoanAmount`) bisects the principal over `[0, 10000000]`, with tolerance 1 and at most 100 rounds.

Modelling choices:

- Money amounts are exact `real`s.
- A row's date is its month offset from the start date.
- The term cap is an `Option<int>`, with `None` where the source passes `null`.

Files:

- **`amortization.dfy`** (`module Amortization`) covers the simulator.
  - `Amortize` is a recursive specification of the simulation from a given month and debt.
  - `GenerateAmortizationSchedule` is the source's `while` loop. It is proved equal to `Simulate` through a loop invariant saying that the rows so far, followed by the rest of the run, make up the whole run.
  - Lemmas state what every successful run and every failure looks like.
- **`metrics.dfy`** (`module Metrics`) covers the repayment rate and the loan-term query.
- **`solvers.dfy`** (`module Solvers`) covers the two bisection solvers.
  - Each is a `while` loop over `low`, `high` and `iterations`.
  - Each loop is proved equal to a recursive search function (`PaymentSearch`, `MaxLoanSearch`).
  - Lemmas then state what a found result promises.
- **`findings.dfy`** (`module Findings`) holds two places where the solvers accept a candidate their documentation rules out. Each is shown on concrete inputs and has a corrected search.

## Model

| member | source | states |
|---|---|---|
| Amortization.MonthlyInterest | src/utils/loanMath.js:9-11 | the monthly interest of a debt at an annual percentage rate, exactly as written; it has no contract of its own, and `MonthlyInterestFacts` states its properties |
| Amortization.MonthlyInterestFacts | src/utils/loanMath.js:9-11 | the monthly interest times 1200 equals debt times annual rate; it is non-negative for a non-negative debt and rate |
| Amortization.PlannedExtraYearly | src/utils/loanMath.js:64-70 | within each loan year the extra payment is planned once, in the year's twelfth month, and only when it is positive; the other eleven months plan 0 |
| Amortization.MonthRow | src/utils/loanMath.js:50-92 | the row of 0-based month m is numbered m + 1 and dated at offset m, and follows from its opening debt. The interest is the monthly interest of that debt. The extra payment is 0, or exactly the annual amount on a month divisible by 12. Principal plus extra never exceeds the debt. The recorded debt is the debt minus both, and never negative. Either the regular split applies, or the month absorbs the whole balance |
| Amortization.Amortize | src/utils/loanMath.js:38-113 | a failed run has an empty schedule, zero totals and zero months; a run with rows started above the 0.01 threshold |
| Amortization.Prepend | src/utils/loanMath.js:79-92 | puts one month's row in front of the rest of the run and adds its payment and interest to the totals; it has no contract of its own, and `SuccessChained` and `SuccessTotals` state what it contributes to a run |
| Amortization.AmortizeEnds | src/utils/loanMath.js:38-113 | a run that stops adds no row; when it succeeds, the debt is at or below 0.01 and the month count is where it stopped, below 1200 |
| Amortization.Simulate | src/utils/loanMath.js:23-114 | the whole run from month 0; it has no contract of its own, and `SimulationSucceeds`, `StopDecides` and `CapAgreement` state what it promises |
| Amortization.GenerateAmortizationSchedule | src/utils/loanMath.js:23-114 | the loop returns exactly the simulation of its inputs |
| Amortization.SuccessNumbering | src/utils/loanMath.js:83-112 | on success, `months` is below 1200; there is one row per elapsed month, numbered consecutively; within a term cap whenever there is a row |
| Amortization.SuccessChained | src/utils/loanMath.js:38-94 | on success, every row follows from the debt the previous row left, every month passed the interest check, and the run stops exactly when the debt reaches 0.01 |
| Amortization.SuccessTotals | src/utils/loanMath.js:79-112 | on success, total interest is the sum of row interests; total payment is the sum of the regular payment plus each row's extra payment |
| Amortization.PaidSplits | src/utils/loanMath.js:80 | the total paid is the number of rows times the regular payment plus the sum of the extra payments |
| Amortization.SimulationSucceeds | src/utils/loanMath.js:23-114 | on success: `months` equals the schedule length and is below 1200; rows are numbered from 1 and dated from offset 0. Every row follows from the previous debt and passed the interest check. The run stops exactly at payoff. The schedule is empty exactly when the loan is at most 0.01. The last debt is at most 0.01, the length is within the cap, and the totals are the row sums |
| Amortization.SimulationShape | src/utils/loanMath.js:38-113 | a corollary of `SimulationSucceeds`: a successful run with rows started above 0.01, stayed within the cap and ends with a recorded debt between 0 and 0.01 |
| Amortization.FailureCauses | src/utils/loanMath.js:39-105 | a term-exceeded error implies a cap below 1200; the payment-below-interest error implies no extra payment; the iteration-limit error implies no smaller cap; the simulator never reports a solver error |
| Amortization.StopDecides | src/utils/loanMath.js:38-105 | the outcome is decided by the month where the run stops taking payments. It fails on the term cap exactly when that month is at or past the cap with debt above 0.01; on the interest check exactly when that month's interest exceeds the payment, with no extra payment and the cap not reached; on the safety bound exactly when the run reached month 1200; and it succeeds exactly when it stopped on a debt of at most 0.01 before then |
| Amortization.CapAgreement | src/utils/loanMath.js:38-48 | against the same run without a cap: when the uncapped run succeeds, the run capped at c is that run if it ends within c months or adds no row, and otherwise the term error; when the uncapped run fails, the capped run fails too, with the same error unless it is the term error |
| Amortization.TermExceededMeansTooLong | src/utils/loanMath.js:39-48 | the term error under a cap of c means the uncapped run fails or needs more than c months; when the uncapped run succeeds, the term error occurs exactly when it has rows and needs more than c months |
| Amortization.FirstMonthOutcomes | src/utils/loanMath.js:38-113 | a loan at or below 0.01 succeeds with nothing; otherwise a cap of 0 or less fails at once with term-exceeded, and a payment below the first interest with no extra payment fails with payment-below-interest |
| Amortization.NoExtraDebtNonIncreasing | src/utils/loanMath.js:53-79 | with no extra payment, every row of a successful run has a non-negative principal and a debt no larger than the month before |
| Amortization.ExtraAllowsDebtGrowth | src/utils/loanMath.js:63-79 | on a concrete month with an extra payment of 1000 configured (not due in the first month), a rate of 12% on a debt of 100 and a payment of 0.5 below the interest of 1: the row has principal -0.5, no extra payment, and a debt of 100.5 |
| Metrics.RepaymentRate | src/utils/loanMath.js:123-125 | the rate is absent exactly for a zero loan; otherwise rate times loan equals 1200 times the first principal |
| Metrics.FirstPrincipal | src/utils/loanMath.js:152 | the first row's principal, or 0 for an empty schedule; it has no contract of its own, and `FirstPrincipalOfRun` states what it is for a run |
| Metrics.FirstPrincipalOfRun | src/utils/loanMath.js:152-153 | for a successful run with rows, the first principal is the regular payment minus the first month's interest, or the whole loan when that amount exceeds the loan; it is 0 when there is no row |
| Metrics.CalculateLoanTerm | src/utils/loanMath.js:132-167 | fails exactly when the uncapped simulation fails, passing its error through, which can only be payment-below-interest or the iteration limit. Otherwise it reports the simulation's schedule and totals, years * 12 + months equal to the schedule length with months below 12, and the repayment rate of the first principal, with 0 for an empty schedule |
| Metrics.PaymentBelowInterestExample | src/utils/loanMath.test.js:60-70 | 200000 at 5% with a payment of 500 fails with payment-below-interest |
| Solvers.BisectPayment | src/utils/loanMath.js:177-238 | the loop keeps the interval inside [0, 2 * loanAmount] for a non-negative loan and returns the result of the payment search over that interval, after at most 100 simulations |
| Solvers.CalculateMonthlyPayment | src/utils/loanMath.js:175-239 | the solver returns the search result over [0, 2 * loanAmount] after at most 100 simulations |
| Solvers.PaymentSearch | src/utils/loanMath.js:183-238 | the payment bisection as a recursive function of the interval and the rounds used; it has no contract of its own, and `PaymentSearchSound` states what a result promises |
| Solvers.MonthlyPaymentFor | src/utils/loanMath.js:175-239 | the payment search over [0, 2 * loanAmount] on the capped simulator; it has no contract of its own, and `MonthlyPaymentSound` states what it promises |
| Solvers.PaymentSearchSound | src/utils/loanMath.js:183-238 | a found payment lies in the interval and carries exactly the simulation's schedule and totals at that payment, which succeeded with at least one row and a final debt within 0.01; the repayment rate is of the first principal; a failure is the payment-not-found error |
| Solvers.MonthlyPaymentSound | src/utils/loanMath.js:175-239 | a found payment lies in [0, 2 * loanAmount]. The simulation at it succeeds with 1 to `loanTermMonths` rows, and its schedule and totals are returned. The final debt is within 0.01, the loan is above 0.01 and the repayment rate exists. A failure is the payment-not-found error |
| Solvers.BisectMaxLoan | src/utils/loanMath.js:249-311 | the loop keeps the interval inside [0, 10000000] and returns the result of the loan search over it, after at most 100 simulations |
| Solvers.CalculateMaxLoanAmount | src/utils/loanMath.js:247-312 | the solver returns the search result over [0, 10000000] after at most 100 simulations |
| Solvers.MaxLoanSearch | src/utils/loanMath.js:255-311 | the loan bisection as a recursive function of the interval and the rounds used; it has no contract of its own, and `MaxLoanSearchSound` states what a result promises |
| Solvers.MaxLoanAmountFor | src/utils/loanMath.js:247-312 | the loan search over [0, 10000000] on the capped simulator; it has no contract of its own, and `MaxLoanAmountSound` states what it promises |
| Solvers.MaxLoanSearchSound | src/utils/loanMath.js:255-311 | a found amount lies in the interval and carries exactly the simulation's schedule and totals at that amount, which succeeded with at least one row and a final debt within 1; a failure is the max-loan-not-found error |
| Solvers.MaxLoanAcceptsFirstSuccess | src/utils/loanMath.js:268-283 | when every successful run ends at or below 0.01, the loan search is the search that accepts the first midpoint that succeeds |
| Solvers.SimulationEndsPaidOff | src/utils/loanMath.js:38-113 | every successful run with rows that the loan solver makes ends with a recorded debt between 0 and 0.01 |
| Solvers.FirstSuccessHalves | src/utils/loanMath.js:256-270 | from a lower end of 0, a found amount is the upper end halved k times, with k between 1 and the rounds left |
| Solvers.BisectMaxLoanFits | src/utils/loanMath.js:247-312 | a found amount lies in (0.01, 10000000]. The simulation of that loan succeeds with 1 to `loanTermMonths` rows and a final debt between 0 and 0.01, and its schedule and totals are returned. The repayment rate exists |
| Solvers.BisectMaxLoanHalves | src/utils/loanMath.js:256-283 | a found amount is 10000000 halved k times, for some k from 1 to 100 |
| Solvers.BisectMaxLoanSound | src/utils/loanMath.js:247-312 | the loan search run on the simulator keeps the whole loan promise, which combines the two lemmas above |
| Solvers.MaxLoanAmountSound | src/utils/loanMath.js:247-312 | the solver keeps the loan promise. A found amount lies in (0.01, 10000000] and is 10000000 halved 1 to 100 times. The simulation of that loan succeeds within the term cap, ending between 0 and 0.01, and its schedule and totals are returned. A failure is the max-loan-not-found error |
| Findings.OverpaymentRun | src/utils/loanMath.js:38-94 | a payment of 200000 on 200000 at 5%, under any cap of 2 months or more (240 among them), succeeds in 2 rows and ends at 0 |
| Findings.OverpaymentAccepted | src/utils/loanMath.js:186-215 | the payment solver reports 200000 for a loan of 200000 at 5% with no extra payment over any term of 2 months or more (240 among them), with a 2-row schedule |
| Findings.MillionAMonth | src/utils/loanMath.js:38-94 | at 0% and a payment of 1000000, a loan of k million is repaid in exactly k rows ending at 0, when the cap allows it |
| Findings.MaxLoanNotMaximal | src/utils/loanMath.js:256-283 | for a payment of 1000000 at 0% over any term of 6 months or more, the loan solver reports 5000000 with 5 rows, yet a loan of 6000000 is repaid in 6 rows within the same term |
| Findings.FullTermPaymentSearchSound | src/utils/loanMath.js:183-238 | the corrected payment search only accepts a successful run at least as long as the term, with a final debt within 0.01 |
| Findings.FullTermPaymentSound | src/utils/loanMath.js:175-239 | a payment the corrected solver finds gives a simulation that succeeds with exactly `loanTermMonths` rows, within 0.01 |
| Findings.FullTermPaymentRejectsOverpayment | src/utils/loanMath.test.js:74-94 | for a loan of 200000 at 5% over any term above 2 months (240 among them), the corrected solver never reports 200000, and a payment it reports runs the whole term |
| Findings.FullTermMaxLoanSearchSound | src/utils/loanMath.js:255-311 | the corrected loan search only accepts a successful run at least as long as the term, with a final debt within 1 |
| Findings.FullTermMaxLoanSound | src/utils/loanMath.js:247-312 | an amount the corrected solver finds gives a simulation that succeeds with exactly `loanTermMonths` rows, within 1 |
| Findings.FullTermMaxLoanRejectsShortLoan | src/utils/loanMath.js:255-311 | the corrected solver never reports 5000000 for a payment of 1000000 at 0% over 6 months; an amount it reports runs 6 rows |

## Left out

- The start date and `addMonths` (src/utils/loanMath.js:1, 83) are not modelled. A row's date is its month offset from the start; calendar arithmetic lives in a date library that is not part of this model.
- The error messages (src/utils/loanMath.js:46, 59, 103, 237, 310) are represented by the five `LoanError` kinds, one kind per message; the strings themselves are not modelled.
- IEEE-754 double arithmetic is not modelled: amounts are exact reals. In particular:
  - rounding does not affect the bisection;
  - `RepaymentRate` answers `None` for a loan of 0 where JavaScript would produce `NaN` or an infinity;
  - `|| 0` falls back to 0 only for a missing row, as no amount is ever `NaN`.
- The user interface (src/App.jsx), input parsing and `formatCurrency` (src/utils/constants.js) are not part of this model. The term is taken as an integer, as `parseInt` delivers it.
- Convergence and monotonicity are not modelled. Examples are that an extra payment lowers the solved payment or raises the maximum loan, and that a larger payment never lengthens the loan. They depend on the numbers, not on the code's structure.
- Amortization.NoExtraDebtNonIncreasing: a non-increasing debt and a non-negative principal are proved only for runs without an extra payment. With any non-zero extra payment configured the interest check is skipped and the code allows a negative principal, as `ExtraAllowsDebtGrowth` shows; a negative extra payment is never paid, yet it still skips the check.
- CalculateMonthlyPayment, CalculateMaxLoanAmount: each solver's single loop is split into a method that sets up a ghost handle on the simulator (`PaymentRunner`, `LoanRunner`) and the loop method itself. A helper method performs each round's simulator call (`SimulatePaymentCandidate`, `SimulateLoanCandidate`). The `simulations` count out-parameter is ghost.
- PaymentSearch, MaxLoanSearch: the second component of their `decreases` clauses never decides termination. It only keeps the verifier from unrolling every round when the arguments are constants.

## Findings

| source | as written | input that shows it | evidently intended | confidence | as-written member | corrected member |
|---|---|---|---|---|---|---|
| src/utils/loanMath.js:197-215 | the search accepts the first candidate whose simulation succeeds with a final debt within 0.01. A successful simulation always ends at or below 0.01, because the final month is clamped, so a payment that clears the loan long before the term ends is accepted | loan 200000, 5%, 240 months, no extra payment: the first midpoint, a payment of 200000, is reported with a 2-row schedule | only a payment whose schedule runs the whole term counts (its documentation says the debt reaches 0 at the end of the term; its test at src/utils/loanMath.test.js:86 expects 240 rows); an early payoff means the payment is too high | high, not executed | Findings.OverpaymentAccepted | Findings.FullTermPaymentSound |
| src/utils/loanMath.js:268-283 | the search accepts the first candidate whose simulation succeeds, so it never raises its lower end. It reports 10000000 halved k times, even when a larger loan also fits the term | payment 1000000, 0%, 6 months, no extra payment: 5000000 is reported with a 5-row schedule, yet 6000000 is repaid within 6 months | the maximum loan repaid within the term (its test at src/utils/loanMath.test.js:142 expects 240 rows); a loan repaid early means a larger loan fits | high, not executed | Findings.MaxLoanNotMaximal | Findings.FullTermMaxLoanSound |

Where the code's intent and its behaviour part ways, the model follows the behaviour:

- A non-negative principal and a non-increasing debt hold only for runs without an extra payment (`Amortization.NoExtraDebtNonIncreasing`). With an extra payment the interest check is skipped, and a month can raise the debt (`Amortization.ExtraAllowsDebtGrowth`).
- The test file expects 240-row schedules from both solvers (src/utils/loanMath.test.js:86 and :142). The code accepts early payoffs (the two findings above).
- Both solvers keep the code's behaviour in `MonthlyPaymentFor` and `MaxLoanAmountFor`. The corrected searches stand beside them in `module Findings`.
