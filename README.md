# Velocity-limit evaluation engine, modelled in Dafny

The model covers the core of a cash-load evaluator. The evaluator reads a stream of load attempts, each
with an id, a customer id, an amount and a timestamp. For each attempt it decides accept or reject
against three per-customer velocity limits:

- at most 5000 loaded per calendar day;
- at most 20000 loaded per Monday-based calendar week;
- at most 3 accepted loads per calendar day.

It keeps a ledger that maps each customer id to a record. The record holds:

- every attempt id seen for that customer;
- once something has been accepted, the daily total, the weekly total, the daily count and the time
  of the last accepted attempt.

An attempt whose id the customer has already used gets no response at all. Any other attempt has its
id recorded whether it is accepted or not. Its counters are then rolled over: a date or week
different from the last accepted attempt zeroes the matching counters, and this reset stays even
when the attempt is then rejected. Only after that are the limits checked. For an accepted attempt
the amount goes into both totals, the count goes up by one and the time is recorded.

Files and modules:

- `velocity_helpers.dfy`, module `VelocityHelpers`: the pure helpers. These are the limit predicates
  and the calendar functions (start of day, start of week, the date-crossing and week-crossing
  tests). The module also holds their lemmas.
- `velocity_ledger.dfy`, module `VelocityLedger`: the ledger as values. It has the customer record,
  the ledger operations as functions, the step function `Evaluate` and the batch fold `Run`. It also
  has reference definitions that do not depend on the step function, and the lemmas: suppression,
  recording, rollover, accept and reject effects, per-customer independence, the safety invariant
  and the batch output.
- `velocity_compile.dfy`, module `VelocityCompile`: the class `VelocityLimitCompiler`. It owns a
  `customerBase` map and updates it in place. Its methods follow the source's structure, including
  the three branches of `evaluate_transaction`. Each method is proved to produce exactly the state
  and result of the corresponding function in `VelocityLedger`.
- `velocity_scenarios.dfy`, module `VelocityScenarios`: concrete batches run from an empty ledger.
  Most come from the evaluator's tests. One crosses a date and a Monday to show the rollover.

Modelling choices:

- **Timestamps.** A timestamp is a proleptic Gregorian day ordinal plus the second within that day.
  Ordinal 1 is 0001-01-01 and 3652059 is 9999-12-31. The weekday is `(ordinal + 6) % 7`, with
  Monday = 0, as Python's `date.weekday()` gives it. Start of day is then `(ordinal, 0)`. Start of
  week steps back `weekday` days and truncates to midnight, as the source does. Because ordinals
  start at a Monday, stepping back never leaves the valid range, and the types prove this.
- **Amounts.** Amounts are exact `real` numbers.
- **Absent counters.** A customer with no acceptance has no counter entries in the source's
  dictionary. The model gives such a record `totals == None`, and reading an absent counter gives
  zero, matching the source's `.get(key, 0.0)`.
- **One step function.** The source's first two branches, "new customer" and "known customer
  without an acceptance", both check against zero counters. `Evaluate` states them as one case.
  `EvaluateTransaction` keeps the three branches and is proved equal to `Evaluate`.
- **Fresh ledger.** Every `VelocityLimitCompiler` starts with a fresh, empty ledger and already-parsed
  attempts.

Where the code's own comments and its behaviour differ, the model follows the behaviour:

- The docstring of `evaluate_transaction` (velocity_compile.py:110-112) mentions updating
  `customer_base` only on acceptance. But the id is appended on every non-duplicate attempt
  (velocity_compile.py:126, 152, 169). Also, the rollover reset (velocity_compile.py:129) runs
  before the limit check. It zeroes the counters of a crossed boundary and keeps them zeroed when
  the attempt is rejected, and the last accepted time is not updated. `RejectedSpec` states this,
  and `RejectionAfterRolloverPersists` replays it on a concrete batch.
- The seen ids are a list that is appended to (velocity_compile.py:207, 210). The model keeps them
  as a sequence.

## Model

| member | source | states |
|---|---|---|
| `VelocityHelpers.Weekday` | velocity_lim/velocity_helpers.py:150 | The weekday of a timestamp is between 0 (Monday) and 6 (Sunday). |
| `VelocityHelpers.PassAllLimitsMeaning` | velocity_lim/velocity_helpers.py:6-111 | Passing all limits is exactly amount + daily ≤ 5000, amount + weekly ≤ 20000 and count < 3. Each check includes its threshold: 5000 passes and 5001 fails; 20000 passes and 20000.01 fails; count 2 passes and 3 fails. |
| `VelocityHelpers.PassAllLimitsExamples` | tests/test_velocity_helpers.py:13-29 | The expected results of the limit-test table. |
| `VelocityHelpers.PassAllLimitsAntitone` | velocity_lim/velocity_helpers.py:83-111 | Lowering any counter never turns a pass into a failure, so a rollover reset can only admit more. |
| `VelocityHelpers.StartOfDayProperties` | velocity_lim/velocity_helpers.py:114-130 | Start of day has the same date at 00:00:00. It is not after t, it is the earliest moment of t's date, and it is idempotent. |
| `VelocityHelpers.BlockStart` | velocity_lim/velocity_helpers.py:150-152 | Stepping back `weekday` days from an ordinal lands on the first ordinal of its 7-day block, 7k + 1. |
| `VelocityHelpers.MondaysAreBlockStarts` | velocity_lim/velocity_helpers.py:150 | An ordinal is a Monday exactly when it has the form 7k + 1. |
| `VelocityHelpers.StartOfWeekDay` | velocity_lim/velocity_helpers.py:133-152 | Start of week is midnight of day 7 × weekIndex(t) + 1. |
| `VelocityHelpers.StartOfWeekIsMondayMidnight` | velocity_lim/velocity_helpers.py:133-152 | Start of week is a Monday at 00:00:00, 0 to 6 days before t's date, and not after t. |
| `VelocityHelpers.StartOfWeekIsLatestMonday` | velocity_lim/velocity_helpers.py:133-152 | Every Monday midnight not after t is not after start of week, so start of week is the latest such Monday. |
| `VelocityHelpers.StartOfWeekIdempotent` | velocity_lim/velocity_helpers.py:133-152 | Start of week is idempotent, and applying start of day first gives the same start of week. |
| `VelocityHelpers.CheckDiffStartDateMeaning` | velocity_lim/velocity_helpers.py:155-180 | The date-crossing test is true exactly when the two day ordinals differ. It is symmetric. |
| `VelocityHelpers.CheckDiffStartWeekMeaning` | velocity_lim/velocity_helpers.py:183-208 | The week-crossing test is true exactly when the Monday-based week indices differ. It is symmetric. |
| `VelocityHelpers.WeekCrossingIsDayCrossing` | velocity_lim/velocity_helpers.py:155-208 | Crossing a week boundary implies crossing a day boundary. |
| `VelocityHelpers.NextDayCrossesWeekOnMonday` | velocity_lim/velocity_helpers.py:183-208 | From one date to the next, the week is crossed exactly when the later date is a Monday. |
| `VelocityHelpers.SevenDaysApartCrossWeek` | velocity_lim/velocity_helpers.py:183-208 | Dates at least seven days apart are always in different weeks. |
| `VelocityHelpers.DateCrossingExamples` | tests/test_velocity_helpers.py:32-44 | The four date-test cases. One of them is 23:59:59 against 00:00:00 the next day, which is a crossing. |
| `VelocityHelpers.SundayToMondayCrossesWeek` | tests/test_velocity_helpers.py:50 | Sunday 23:59:59 to Monday 00:00:00 crosses the week. |
| `VelocityHelpers.SundayToLaterMondayCrossesWeek` | tests/test_velocity_helpers.py:51 | Sunday 2021-04-25 23:59:59 to Monday 2021-05-17 01:00:00 (ordinals 737905 and 737927) crosses the week. |
| `VelocityHelpers.TuesdayToSaturdaySameWeek` | tests/test_velocity_helpers.py:52 | Tuesday to Saturday of the same week does not cross it. |
| `VelocityLedger.SavedLoadIdSpec` | velocity_lim/velocity_compile.py:182-210 | Recording an id creates the customer's record if it is absent and appends the id to that customer's list. The counters stay as they were and no other customer changes. |
| `VelocityLedger.UpdatedSpec` | velocity_lim/velocity_compile.py:212-242 | On acceptance both totals grow by the amount and the count by one, with absent counters read as zero. The time is recorded and the ids are unchanged. |
| `VelocityLedger.ResetTotalsSpec` | velocity_lim/velocity_compile.py:244-273 | A week change zeroes only the weekly total. A date change zeroes only the daily total and the daily count. The last accepted time never changes. |
| `VelocityLedger.RolledSpec` | velocity_lim/velocity_compile.py:117-129 | Rollover happens only when the customer has a last acceptance. It never changes the ids or whether counters exist. |
| `VelocityLedger.DuplicateSuppressed` | velocity_lim/velocity_compile.py:117-164 | An id the customer already used gets no response and leaves the whole ledger unchanged. |
| `VelocityLedger.NewAttemptRecorded` | velocity_lim/velocity_compile.py:123-180 | A non-duplicate gets a response with its own id and customer. Its id is appended to that customer's list, accepted or not. |
| `VelocityLedger.ReplaySuppressed` | velocity_lim/velocity_compile.py:123-169 | Right after any evaluation, the same customer's same id is suppressed, even when the first attempt was rejected. |
| `VelocityLedger.OtherCustomersUntouched` | velocity_lim/velocity_compile.py:204-273 | Every other customer's record is unchanged. |
| `VelocityLedger.EvaluationIsPerCustomer` | velocity_lim/velocity_compile.py:117-180 | Response and new record depend only on that customer's own record, so the same id under another customer is evaluated independently. |
| `VelocityLedger.BaselineSpec` | velocity_lim/velocity_compile.py:126-134 | The counters the limit check reads are the reference baselines. Each is zero without a prior acceptance or when the date (or week) changed, and otherwise the stored value. |
| `VelocityLedger.DecisionSpec` | velocity_lim/velocity_compile.py:129-180 | A non-duplicate is accepted if and only if the amount fits all three limits over the baselines. |
| `VelocityLedger.AcceptedSpec` | velocity_lim/velocity_compile.py:133-139 | On acceptance the counters are exactly baseline + amount for both totals, baseline + 1 for the count, and the attempt time as last accepted time. |
| `VelocityLedger.RejectedSpec` | velocity_lim/velocity_compile.py:141-180 | On rejection nothing is added. A customer without an acceptance keeps no counters. One with an acceptance keeps the rolled-over baselines and its old last accepted time. |
| `VelocityLedger.RejectionNeverIncreases` | velocity_lim/velocity_compile.py:141-163 | For non-negative balances, a rejection leaves every counter at or below its prior value. |
| `VelocityLedger.EvaluatePreservesLimits` | velocity_lim/velocity_compile.py:133-180 | One evaluation keeps every customer within 5000 daily, 20000 weekly and 3 per day. |
| `VelocityLedger.EvaluatePreservesOrder` | velocity_lim/velocity_compile.py:129-180 | With a non-negative amount, one evaluation keeps 0 ≤ daily total ≤ weekly total for every customer. |
| `VelocityLedger.RunPreservesLimits` | velocity_lim/velocity_compile.py:84-90 | Safety: after any sequence of evaluations, no customer exceeds any of the three limits. |
| `VelocityLedger.RunPreservesOrder` | velocity_lim/velocity_compile.py:84-90 | With non-negative amounts, after any sequence every daily total lies between 0 and the weekly total. |
| `VelocityLedger.EvaluateRecordsOnlyItsId` | velocity_lim/velocity_compile.py:204-210 | One evaluation adds exactly its own (customer, id) pair to the ids on file. |
| `VelocityLedger.RunKnownIds` | velocity_lim/velocity_compile.py:84-90 | After a batch, a customer has an id on file exactly when the initial ledger or some attempt of the batch had it. |
| `VelocityLedger.RunResponses` | velocity_lim/velocity_compile.py:84-90 | The batch emits one response per non-duplicate attempt, in input order, with that attempt's id and customer. The count is the number of attempts minus the same-customer duplicates. |
| `VelocityCompile.VelocityLimitCompiler.constructor` | velocity_lim/velocity_compile.py:24-31 | A new engine owns an empty ledger, which is within the limits, and holds the parsed attempts. |
| `VelocityCompile.VelocityLimitCompiler.SaveLoadId` | velocity_lim/velocity_compile.py:182-210 | The new ledger is exactly the one `SavedLoadId` describes. |
| `VelocityCompile.VelocityLimitCompiler.UpdateCustomerInfo` | velocity_lim/velocity_compile.py:212-242 | Only the customer's record changes, to `Updated` of its old value. |
| `VelocityCompile.VelocityLimitCompiler.ResetDailyWeeklyLoadAmt` | velocity_lim/velocity_compile.py:244-273 | Only the customer's record changes, to its rolled-over value. |
| `VelocityCompile.VelocityLimitCompiler.EvaluateTransaction` | velocity_lim/velocity_compile.py:93-180 | New ledger and response (None for a duplicate) are exactly `Evaluate` of the old ledger. The limits invariant is kept. |
| `VelocityCompile.VelocityLimitCompiler.OutputResponses` | velocity_lim/velocity_compile.py:64-90 | The responses and the final ledger are exactly `Run` over the parsed attempts. There is one response per non-duplicate, and the limits invariant is kept. |
| `VelocityScenarios.FirstStep` | velocity_lim/velocity_compile.py:166-180 | A customer not on file is checked against zero counters. The ledger then holds just that customer, with the id and, if accepted, counters equal to the amount, 1 and the time. |
| `VelocityScenarios.SameDayStep` | velocity_lim/velocity_compile.py:117-143 | A same-date attempt by a customer with an acceptance is checked against the stored counters unreset. |
| `VelocityScenarios.NewDayStep` | velocity_lim/velocity_compile.py:117-143 | An attempt on a later date than the last acceptance is checked against a zero daily total and count. The weekly total is the stored one when the week is the same and zero otherwise. If rejected, those rolled-over counters stay, with the old last accepted time. |
| `VelocityScenarios.SaturdayRejectionStep` | velocity_lim/velocity_compile.py:129-143 | After 4000 on Friday, a 6000 on Saturday is rejected. The record then holds both ids and counters (0, 4000, 0) with Friday's time. |
| `VelocityScenarios.RejectionAfterRolloverPersists` | velocity_lim/velocity_compile.py:84-90 | The Friday-then-Saturday batch answers true, false and leaves exactly that one-customer ledger. The day reset of the rejected attempt persists. |
| `VelocityScenarios.MondayAfterRejectionStartsFresh` | velocity_lim/velocity_compile.py:84-90 | Continuing that batch, 1500 on the next Monday resets the week as well and is accepted, giving true, false, true and counters (1500, 1500, 1). |
| `VelocityScenarios.DuplicateOfAcceptedIsSuppressed` | tests/test_velocity_compile.py:28-45 | Accepted 3318.47, then its duplicate, then 150 and 1000 give true, (nothing), true, true. |
| `VelocityScenarios.DuplicateOfRejectedIsSuppressed` | tests/test_velocity_compile.py:47-67 | A rejected 6000.47 leaves no counters. Its duplicate is suppressed, and three later loads of 150 are all accepted. |
| `VelocityScenarios.FourthAttemptOfTheDayIsRejected` | tests/test_velocity_compile.py:75-81 | After three same-day acceptances, a fourth attempt that day is rejected. |

## Left out

- Parsing the input file is not modelled: reading lines, evaluating them as literals, `strptime` on
  the timestamp and `float` on the `$`-prefixed amount (velocity_compile.py:33-61). These are I/O and
  library calls. The model takes already-parsed attempts.
- File output is not modelled: opening the file, `json.dump` and writing newlines
  (velocity_compile.py:82-90). `OutputResponses` returns the sequence of responses instead.
- The command-line wrapper (process_load_requests.py) is not modelled. It only parses arguments.
- Floating point is not modelled. Amounts are exact reals, so rounding in sums such as
  3318.47 + 150.0 is not captured.
- Gregorian year/month/day conversion, `datetime` internals and time zones are not modelled. A
  timestamp is an already-computed day ordinal and second of day.
- The shared mutable default `customer_base={}` (velocity_compile.py:27) is not modelled. It makes
  instances constructed without a ledger share one. Each model instance owns a fresh ledger.
- Out-of-order timestamps get no special treatment. The model does only what the step function
  literally does with them, and no property assumes or asserts an order.
- The default-argument thresholds of the three helper predicates are not a separate feature. The
  model passes them explicitly, and `PassAllLimits` uses the defaults 5000, 20000 and 3, as the
  source's only caller does.
- `FourthAttemptOfTheDayIsRejected` uses amounts and times of its own choosing. The test's input
  file is not part of this model, only its expected output. The tests for a day over the amount
  limit and a week over the amount limit are not restated, because their input files are not part
  of this model either.
