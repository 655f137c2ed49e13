/** The figures of `getPaymentStats`: the six dashboard figures, each a
    filter-then-sum over the payment list. The current date, which the
    application reads from the clock, is a pair of parameters here. */
module PaymentStatistics {
  import opened PaymentTypes
  import opened Seqs
  import opened PaymentReducer

  predicate IsIncome(p: Payment) { p.kind == Income }
  predicate IsExpense(p: Payment) { p.kind == Expense }

  /** The payment's date falls in the given calendar month of the given year. */
  predicate InMonth(p: Payment, year: int, month: int)
  {
    p.date.month == month && p.date.year == year
  }

  /** The test `p => InMonth(p, year, month)`. */
  function InMonthTest(year: int, month: int): Payment -> bool
  {
    (p: Payment) => InMonth(p, year, month)
  }

  /** The filter behind `monthlyIncome`. */
  function MonthlyIncomeTest(year: int, month: int): Payment -> bool
  {
    (p: Payment) => IsIncome(p) && InMonth(p, year, month)
  }

  /** The filter behind `monthlyExpenses`. */
  function MonthlyExpenseTest(year: int, month: int): Payment -> bool
  {
    (p: Payment) => IsExpense(p) && InMonth(p, year, month)
  }

  /** `ps.reduce((sum, p) => sum + p.amount, 0)`, a fold from the left. */
  function Sum(ps: seq<Payment>): real
    decreases |ps|
  {
    if ps == [] then 0.0 else Sum(ps[..|ps| - 1]) + ps[|ps| - 1].amount
  }

  function TotalIncome(ps: seq<Payment>): real { Sum(Filter(ps, IsIncome)) }
  function TotalExpenses(ps: seq<Payment>): real { Sum(Filter(ps, IsExpense)) }

  function MonthlyIncome(ps: seq<Payment>, year: int, month: int): real
  {
    Sum(Filter(ps, MonthlyIncomeTest(year, month)))
  }

  function MonthlyExpenses(ps: seq<Payment>, year: int, month: int): real
  {
    Sum(Filter(ps, MonthlyExpenseTest(year, month)))
  }

  /** All six figures, for a list of payments and the current year and month.
      The two balances are income minus expenses, and each income/expense pair
      splits the sum over all payments it looks at. */
  function Stats(ps: seq<Payment>, year: int, month: int): (r: PaymentStats)
    ensures r.balance == r.totalIncome - r.totalExpenses
    ensures r.monthlyBalance == r.monthlyIncome - r.monthlyExpenses
    ensures r.totalIncome + r.totalExpenses == Sum(ps)
    ensures r.monthlyIncome + r.monthlyExpenses == Sum(Filter(ps, InMonthTest(year, month)))
  {
    IncomeExpensePartition(ps);
    MonthlyPartition(ps, year, month);
    var totalIncome := TotalIncome(ps);
    var totalExpenses := TotalExpenses(ps);
    var monthlyIncome := MonthlyIncome(ps, year, month);
    var monthlyExpenses := MonthlyExpenses(ps, year, month);
    PaymentStats(
      totalIncome,
      totalExpenses,
      totalIncome - totalExpenses,
      monthlyIncome,
      monthlyExpenses,
      monthlyIncome - monthlyExpenses)
  }

  // ---------------------------------------------------------------------
  // Sums

  /** The sum is additive over concatenation. */
  lemma {:induction false} SumAppend(a: seq<Payment>, b: seq<Payment>)
    ensures Sum(a + b) == Sum(a) + Sum(b)
    decreases |b|
  {
    if b == [] {
      assert a + b == a;
    } else {
      var n := |b| - 1;
      assert (a + b)[..|a + b| - 1] == a + b[..n];
      SumAppend(a, b[..n]);
    }
  }

  /** Two complementary filters split the sum. */
  lemma {:induction false} SumPartition(ps: seq<Payment>, p: Payment -> bool, q: Payment -> bool)
    requires forall x :: q(x) == !p(x)
    ensures Sum(Filter(ps, p)) + Sum(Filter(ps, q)) == Sum(ps)
    decreases |ps|
  {
    if ps != [] {
      var x, rest := ps[0], ps[1..];
      SumPartition(rest, p, q);
      assert Sum([x]) == x.amount;
      assert ps == [x] + rest;
      SumAppend([x], rest);
      if p(x) {
        SumAppend([x], Filter(rest, p));
      } else {
        SumAppend([x], Filter(rest, q));
      }
    }
  }

  /** A sum of non-negative amounts is non-negative. */
  lemma {:induction false} SumNonNegative(ps: seq<Payment>)
    requires forall i :: 0 <= i < |ps| ==> ps[i].amount >= 0.0
    ensures Sum(ps) >= 0.0
    decreases |ps|
  {
    if ps != [] {
      SumNonNegative(ps[..|ps| - 1]);
    }
  }

  /** With non-negative amounts, a filtered sum is at most the full sum. */
  lemma FilteredSumBounded(ps: seq<Payment>, p: Payment -> bool)
    requires forall i :: 0 <= i < |ps| ==> ps[i].amount >= 0.0
    ensures Sum(Filter(ps, p)) <= Sum(ps)
  {
    var q := (x: Payment) => !p(x);
    SumPartition(ps, p, q);
    var rest := Filter(ps, q);
    FilterMembers(ps, q);
    forall i | 0 <= i < |rest| ensures rest[i].amount >= 0.0 {
      assert rest[i] in ps;
    }
    SumNonNegative(rest);
  }

  // ---------------------------------------------------------------------
  // Properties of the figures

  /** Every payment is income or expense and never both, so the two lifetime
      figures add up to the sum of all amounts. */
  lemma IncomeExpensePartition(ps: seq<Payment>)
    ensures TotalIncome(ps) + TotalExpenses(ps) == Sum(ps)
  {
    SumPartition(ps, IsIncome, IsExpense);
  }

  /** The monthly filters are the lifetime filters narrowed to the month. */
  lemma {:induction false} MonthlyNarrowsLifetime(ps: seq<Payment>, year: int, month: int)
    ensures Filter(ps, MonthlyIncomeTest(year, month)) == Filter(Filter(ps, IsIncome), InMonthTest(year, month))
    ensures Filter(ps, MonthlyExpenseTest(year, month)) == Filter(Filter(ps, IsExpense), InMonthTest(year, month))
    ensures Filter(ps, MonthlyIncomeTest(year, month)) == Filter(Filter(ps, InMonthTest(year, month)), IsIncome)
    ensures Filter(ps, MonthlyExpenseTest(year, month)) == Filter(Filter(ps, InMonthTest(year, month)), IsExpense)
  {
    FilterFilter(ps, IsIncome, InMonthTest(year, month), MonthlyIncomeTest(year, month));
    FilterFilter(ps, IsExpense, InMonthTest(year, month), MonthlyExpenseTest(year, month));
    FilterFilter(ps, InMonthTest(year, month), IsIncome, MonthlyIncomeTest(year, month));
    FilterFilter(ps, InMonthTest(year, month), IsExpense, MonthlyExpenseTest(year, month));
  }

  /** Restricted to the payments of the month, income and expenses again
      split the sum. */
  lemma MonthlyPartition(ps: seq<Payment>, year: int, month: int)
    ensures MonthlyIncome(ps, year, month) + MonthlyExpenses(ps, year, month)
         == Sum(Filter(ps, InMonthTest(year, month)))
  {
    MonthlyNarrowsLifetime(ps, year, month);
    SumPartition(Filter(ps, InMonthTest(year, month)), IsIncome, IsExpense);
  }

  /** Each monthly figure sums an order-preserving sub-list of the payments
      its lifetime figure sums; with non-negative amounts it is therefore at
      most the lifetime figure. */
  lemma MonthlyWithinLifetime(ps: seq<Payment>, year: int, month: int)
    ensures IsSubsequence(Filter(ps, MonthlyIncomeTest(year, month)), Filter(ps, IsIncome))
    ensures IsSubsequence(Filter(ps, MonthlyExpenseTest(year, month)), Filter(ps, IsExpense))
    ensures (forall i :: 0 <= i < |ps| ==> ps[i].amount >= 0.0) ==>
      MonthlyIncome(ps, year, month) <= TotalIncome(ps) &&
      MonthlyExpenses(ps, year, month) <= TotalExpenses(ps)
  {
    MonthlyNarrowsLifetime(ps, year, month);
    FilterIsSubsequence(Filter(ps, IsIncome), InMonthTest(year, month));
    FilterIsSubsequence(Filter(ps, IsExpense), InMonthTest(year, month));
    if forall i :: 0 <= i < |ps| ==> ps[i].amount >= 0.0 {
      var inc, exp := Filter(ps, IsIncome), Filter(ps, IsExpense);
      FilterMembers(ps, IsIncome);
      FilterMembers(ps, IsExpense);
      forall i | 0 <= i < |inc| ensures inc[i].amount >= 0.0 {
        assert inc[i] in ps;
      }
      forall i | 0 <= i < |exp| ensures exp[i].amount >= 0.0 {
        assert exp[i] in ps;
      }
      FilteredSumBounded(inc, InMonthTest(year, month));
      FilteredSumBounded(exp, InMonthTest(year, month));
    }
  }

  /** Every figure is additive over a concatenation of payment lists. */
  lemma StatsAdditive(a: seq<Payment>, b: seq<Payment>, year: int, month: int)
    ensures var sa, sb, sab := Stats(a, year, month), Stats(b, year, month), Stats(a + b, year, month);
      && sab.totalIncome == sa.totalIncome + sb.totalIncome
      && sab.totalExpenses == sa.totalExpenses + sb.totalExpenses
      && sab.balance == sa.balance + sb.balance
      && sab.monthlyIncome == sa.monthlyIncome + sb.monthlyIncome
      && sab.monthlyExpenses == sa.monthlyExpenses + sb.monthlyExpenses
      && sab.monthlyBalance == sa.monthlyBalance + sb.monthlyBalance
  {
    FilterAppend(a, b, IsIncome);
    SumAppend(Filter(a, IsIncome), Filter(b, IsIncome));
    FilterAppend(a, b, IsExpense);
    SumAppend(Filter(a, IsExpense), Filter(b, IsExpense));
    FilterAppend(a, b, MonthlyIncomeTest(year, month));
    SumAppend(Filter(a, MonthlyIncomeTest(year, month)), Filter(b, MonthlyIncomeTest(year, month)));
    FilterAppend(a, b, MonthlyExpenseTest(year, month));
    SumAppend(Filter(a, MonthlyExpenseTest(year, month)), Filter(b, MonthlyExpenseTest(year, month)));
  }

  /** The figures of a single payment: its amount lands in the bucket of its
      kind, and in the monthly bucket only when it is dated in that month. */
  lemma StatsOfOne(p: Payment, year: int, month: int)
    ensures var s := Stats([p], year, month);
      && s.totalIncome == (if p.kind == Income then p.amount else 0.0)
      && s.totalExpenses == (if p.kind == Expense then p.amount else 0.0)
      && s.monthlyIncome == (if p.kind == Income && InMonth(p, year, month) then p.amount else 0.0)
      && s.monthlyExpenses == (if p.kind == Expense && InMonth(p, year, month) then p.amount else 0.0)
  {
    assert Sum([p]) == p.amount;
    assert [p][1..] == [];
  }

  /** After `ADD_PAYMENT p` the lifetime figure of `p`'s kind grows by exactly
      `p.amount` and the other one stays; the monthly figures do the same
      when `p` is dated in the current month and stay otherwise. */
  lemma AddPaymentStats(s: PaymentState, p: Payment, year: int, month: int)
    ensures var before, after := Stats(s.payments, year, month), Stats(Step(s, AddPayment(p)).payments, year, month);
      && after.totalIncome == before.totalIncome + (if p.kind == Income then p.amount else 0.0)
      && after.totalExpenses == before.totalExpenses + (if p.kind == Expense then p.amount else 0.0)
      && after.monthlyIncome == before.monthlyIncome + (if p.kind == Income && InMonth(p, year, month) then p.amount else 0.0)
      && after.monthlyExpenses == before.monthlyExpenses + (if p.kind == Expense && InMonth(p, year, month) then p.amount else 0.0)
  {
    StatsAdditive(s.payments, [p], year, month);
    StatsOfOne(p, year, month);
  }

  /** Deleting payments by id takes their amounts out of the figures: what
      remains plus what was removed gives the figures from before. */
  lemma DeletePaymentStats(s: PaymentState, id: string, year: int, month: int)
    ensures var before, after, removed :=
        Stats(s.payments, year, month),
        Stats(Step(s, DeletePayment(id)).payments, year, month),
        Stats(Filter(s.payments, KeyIs(PaymentId, id)), year, month);
      && before.totalIncome == after.totalIncome + removed.totalIncome
      && before.totalExpenses == after.totalExpenses + removed.totalExpenses
      && before.monthlyIncome == after.monthlyIncome + removed.monthlyIncome
      && before.monthlyExpenses == after.monthlyExpenses + removed.monthlyExpenses
  {
    var ps := s.payments;
    var gone, kept := KeyIs(PaymentId, id), KeyIsNot(PaymentId, id);
    assert Step(s, DeletePayment(id)).payments == Filter(ps, kept);
    SplitFigure(ps, gone, kept, IsIncome);
    SplitFigure(ps, gone, kept, IsExpense);
    SplitFigure(ps, gone, kept, MonthlyIncomeTest(year, month));
    SplitFigure(ps, gone, kept, MonthlyExpenseTest(year, month));
  }

  /** A figure (a sum filtered by `f`) splits along complementary filters. */
  lemma SplitFigure(ps: seq<Payment>, p: Payment -> bool, q: Payment -> bool, f: Payment -> bool)
    requires forall x :: q(x) == !p(x)
    ensures Sum(Filter(ps, f)) == Sum(Filter(Filter(ps, q), f)) + Sum(Filter(Filter(ps, p), f))
  {
    var fp := (x: Payment) => p(x) && f(x);
    var fq := (x: Payment) => q(x) && f(x);
    FilterFilter(ps, p, f, fp);
    FilterFilter(ps, q, f, fq);
    FilterFilter(ps, f, p, fp);
    FilterFilter(ps, f, q, fq);
    SumPartition(Filter(ps, f), p, q);
  }

  /** With no payments, such as in the initial state, every figure is zero. */
  lemma InitialStats(year: int, month: int)
    ensures Stats(InitialState.payments, year, month) == PaymentStats(0.0, 0.0, 0.0, 0.0, 0.0, 0.0)
  {
  }
}
