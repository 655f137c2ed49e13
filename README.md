# Payment store and statistics, verified in Dafny

This project models the core of a personal finance tracker. The tracker keeps
two in-memory lists, payments (income or expense transactions) and categories,
plus a loading flag. It changes them only through a reducer that maps a state
and an action to a new state. It also derives six dashboard figures from the
payment list: lifetime income, lifetime expenses, balance, and the same three
figures for the current calendar month.

Modules:

- `PaymentTypes` (`payment_types.dfy`): the records `Payment`, `Category` and
  `PaymentStats`, the two-valued `Kind`, and a `Date` reduced to the
  `(year, month)` pair the core reads. Months are numbered from 0, as
  `Date.getMonth` does.
- `Seqs` (`seqs.dfy`): `Filter` and `Map`, the `Array.prototype.filter` and
  `.map` the core is written with. Also the order-preserving subsequence
  relation, and lemmas about filtering: what it keeps, concatenation, nested
  filters, complementary filters, and uniqueness of the result.
- `PaymentReducer` (`payment_reducer.dfy`): `PaymentState`, the nine-case
  `PaymentAction`, `InitialState`, update- and delete-by-id, the reducer
  `Step`, a `Replay` of a list of actions, and one lemma per action on what
  that action changes and what it leaves alone, the three setters sharing
  `StepSetters`.
- `PaymentStatistics` (`payment_statistics.dfy`): the left-fold `Sum` of
  amounts, the four filtered sums, `Stats`, and the partition, sub-filter,
  additivity, add-payment and delete-payment lemmas.
- `PaymentScenarios` (`scenarios.dfy`): an income of 50 and an expense of 20
  recorded from the initial state, summarised in the same month and in the
  following one.

Amounts are exact `real`s. The current date, which the application reads from
the clock, is passed in as a year and a month.

Two points about deletion:

- The reducer deletes a category without looking at the payments
  (`contexts/PaymentContext.tsx:57-61`). The refusal to delete a category
  still in use is a guard in the category screen
  (`app/(tabs)/categories.tsx:83-93`) and is not modelled.
- `DELETE_PAYMENT`'s `filter` removes every payment with the id, not only
  the first (`contexts/PaymentContext.tsx:48`), and so does `RemoveById`.

## Model

| member | source | states |
|---|---|---|
| `Seqs.Filter` | contexts/PaymentContext.tsx:48 | the result is no longer than the input, every kept element passes the test, and when every element passes the input comes back unchanged |
| `Seqs.FilterMembers` | contexts/PaymentContext.tsx:48 | every element of the result occurs in the input, and every input element that passes the test occurs in the result |
| `Seqs.FilterIsSubsequence` | contexts/PaymentContext.tsx:48 | the result of a filter is an order-preserving subsequence of its input |
| `Seqs.FilterUnique` | contexts/PaymentContext.tsx:48 | any subsequence of the input made of passing elements and as long as the filter's result is that result, so the filter is determined by order, the test and the length |
| `Seqs.FilterAppend` | contexts/PaymentContext.tsx:118-120 | filtering a concatenation is concatenating the filtered parts |
| `Seqs.FilterFilter` | contexts/PaymentContext.tsx:126-130 | filtering by one test and then another equals filtering once by their conjunction |
| `Seqs.FilterComplementLength` | contexts/PaymentContext.tsx:45-49 | the lengths of two complementary filters add up to the input's length |
| `Seqs.KeptSubsequenceLength` | contexts/PaymentContext.tsx:48 | a subsequence whose elements all pass the test is at most as long as the filter's result |
| `Seqs.Map` | contexts/PaymentContext.tsx:43 | the result has the input's length and holds the function's value at every index |
| `PaymentReducer.ReplaceById` | contexts/PaymentContext.tsx:43 | length kept; an element with the payload's id becomes the payload and every other element is unchanged; the id sequence is unchanged; with no id match the list is unchanged |
| `PaymentReducer.RemoveById` | contexts/PaymentContext.tsx:48 | no element with the id remains; every other element is kept; the result is a subsequence of the input; the length drops by the number of matches; with no match the list is unchanged |
| `PaymentReducer.RemoveByIdExactly` | contexts/PaymentContext.tsx:45-49 | a subsequence of the list without the id and of the length above is exactly the removal result |
| `PaymentReducer.RemoveByIdIdempotent` | contexts/PaymentContext.tsx:45-49 | removing the same id twice equals removing it once |
| `PaymentReducer.ReplaceByIdIdempotent` | contexts/PaymentContext.tsx:40-44 | replacing by the same record twice equals replacing once |
| `PaymentReducer.Step` | contexts/PaymentContext.tsx:36-71 | every action may change only its own field (see `Target`); the other two fields of the state are carried over unchanged |
| `PaymentReducer.StepAddPayment` | contexts/PaymentContext.tsx:38-39 | `ADD_PAYMENT p` makes the payments `old + [p]`; categories and loading flag unchanged |
| `PaymentReducer.StepAddCategory` | contexts/PaymentContext.tsx:50-51 | `ADD_CATEGORY c` makes the categories `old + [c]`; payments and loading flag unchanged |
| `PaymentReducer.StepUpdatePayment` | contexts/PaymentContext.tsx:40-44 | `UPDATE_PAYMENT p` keeps length and order, puts `p` at every index whose id equals `p.id` and leaves the rest; no match means no change; other fields unchanged |
| `PaymentReducer.StepUpdateCategory` | contexts/PaymentContext.tsx:52-56 | `UPDATE_CATEGORY c`, the same for categories |
| `PaymentReducer.StepDeletePayment` | contexts/PaymentContext.tsx:45-49 | `DELETE_PAYMENT id` leaves no payment with that id and keeps all others in order; length drops by the matches; applying it twice equals once; other fields unchanged |
| `PaymentReducer.StepDeleteCategory` | contexts/PaymentContext.tsx:57-61 | `DELETE_CATEGORY id`, the same for categories; it is unconditional and does not look at the payments |
| `PaymentReducer.StepSetters` | contexts/PaymentContext.tsx:62-67 | `SET_PAYMENTS`, `SET_CATEGORIES` and `SET_LOADING` replace their own field with the payload and keep the other two |
| `PaymentReducer.AddThenDeletePayment` | contexts/PaymentContext.tsx:38-49 | deleting by the id of a payment just added gives the earlier payments without that id |
| `PaymentReducer.ReplayAddPayments` | contexts/PaymentContext.tsx:87-91 | dispatching one `ADD_PAYMENT` per element of a list appends that list in order, with categories and loading flag unchanged |
| `PaymentReducer.InitialStateShape` | contexts/PaymentContext.tsx:21-34 | the initial state has no payments, is not loading, and holds eight categories with distinct ids: five expense, then three income |
| `PaymentStatistics.Stats` | contexts/PaymentContext.tsx:113-146 | balance is income minus expenses and monthly balance is monthly income minus monthly expenses; lifetime income plus expenses is the sum of all amounts; monthly income plus expenses is the sum over the month's payments |
| `PaymentStatistics.SumAppend` | contexts/PaymentContext.tsx:120 | the reduce-sum of a concatenation is the sum of the parts' sums |
| `PaymentStatistics.SumPartition` | contexts/PaymentContext.tsx:118-124 | the sums of two complementary filters add up to the total sum |
| `PaymentStatistics.SumNonNegative` | contexts/PaymentContext.tsx:120 | a sum of non-negative amounts is non-negative |
| `PaymentStatistics.FilteredSumBounded` | contexts/PaymentContext.tsx:126-130 | with non-negative amounts a filtered sum is at most the full sum |
| `PaymentStatistics.IncomeExpensePartition` | contexts/PaymentContext.tsx:118-124 | total income plus total expenses equals the sum of all amounts, since every payment is exactly one of the two kinds |
| `PaymentStatistics.MonthlyNarrowsLifetime` | contexts/PaymentContext.tsx:126-136 | each monthly filter equals its lifetime filter followed by the month test, and the month test followed by the kind test |
| `PaymentStatistics.MonthlyPartition` | contexts/PaymentContext.tsx:126-136 | monthly income plus monthly expenses is the sum over payments dated in that year and month |
| `PaymentStatistics.MonthlyWithinLifetime` | contexts/PaymentContext.tsx:118-136 | the payments behind each monthly figure are an ordered sub-list of those behind its lifetime figure; with non-negative amounts each monthly figure is at most its lifetime figure |
| `PaymentStatistics.StatsAdditive` | contexts/PaymentContext.tsx:118-145 | every one of the six figures of a concatenation is the sum of the two parts' figures |
| `PaymentStatistics.StatsOfOne` | contexts/PaymentContext.tsx:118-136 | a single payment's amount lands in its kind's lifetime bucket, and in the monthly bucket only when dated in that month |
| `PaymentStatistics.AddPaymentStats` | contexts/PaymentContext.tsx:118-136 | after `ADD_PAYMENT p`, the lifetime figure of `p`'s kind grows by `p.amount` and the other is unchanged; the monthly figures grow likewise only when `p` is in the month |
| `PaymentStatistics.DeletePaymentStats` | contexts/PaymentContext.tsx:118-136 | after `DELETE_PAYMENT id`, the figures of what remains plus those of the removed payments give the figures from before |
| `PaymentStatistics.InitialStats` | contexts/PaymentContext.tsx:21-22 | with the initial (empty) payment list every figure is zero |
| `PaymentScenarios.RecordTwo` | contexts/PaymentContext.tsx:38-39 | two `ADD_PAYMENT` dispatches from the initial state leave exactly those two payments, in order |
| `PaymentScenarios.SameMonthScenario` | contexts/PaymentContext.tsx:113-146 | income 50 and expense 20 in May 2024, evaluated in May 2024, give 50, 20, 30 for both the lifetime and the monthly figures |
| `PaymentScenarios.NextMonthScenario` | contexts/PaymentContext.tsx:126-136 | the same two payments evaluated in June 2024 give lifetime 50, 20, 30 and monthly 0, 0, 0 |

## Left out

- React plumbing is not modelled: the context object, `PaymentProvider`, `useReducer` and `dispatch`, the wrapper callbacks (`contexts/PaymentContext.tsx:84-111`, `148-162`), and the `usePayments` hook with its error for a missing provider (`164-170`). These are framework glue. `Replay` stands in for a series of dispatches.
- The reducer's `default: return state` branch has no counterpart. `PaymentAction` is a closed datatype, so every action matches one of the nine cases.
- The clock is a parameter. `new Date()`, `getMonth`, `getFullYear` and time zones (`contexts/PaymentContext.tsx:114-116`, `128-129`, `134-135`) are replaced by the `year` and `month` arguments and by a payment's abstract `(year, month)`.
- IEEE-754 floating point is not modelled. Amounts and figures are exact reals, so rounding in the sums is not captured.
- Display fields are kept only as opaque values: `description`, `tags`, `icon` and `color`. No operation reads them.
- `DashboardData` (`types/payment.ts:28-36`) is not modelled. Nothing in the core computes it.
- Caller-side validation is not modelled: empty-field checks, duplicate-name checks, and the category screen's refusal to delete a category still in use. None of it is in the reducer, which accepts every payload.
- Uniqueness of ids is not assumed. The screens derive ids from `Date.now()`, but the reducer does not enforce uniqueness. The update and delete lemmas therefore speak of every element with a matching id.
- Amounts are not assumed non-negative. Only the bounds "monthly at most lifetime" in `MonthlyWithinLifetime` and `FilteredSumBounded` take that as a hypothesis. The store does not enforce it. The add screen, the only place that creates payments, keeps only digits and `.` of the typed amount (`app/(tabs)/add.tsx:24-27`), so a minus sign is dropped and no negative amount can be entered. It then reformats the value with `parseFloat(...).toFixed(2)`, which can yield `NaN` (for an input such as `.`); `NaN` is not modelled, since amounts are reals.
