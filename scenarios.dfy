/** Two worked examples: an income of 50 and an expense of 20, both dated
    May 2024, recorded through the store from its initial state and then
    summarised in May and in June 2024. `Date.getMonth` numbers months from
    0, so May is month 4 and June month 5. */
module PaymentScenarios {
  import opened PaymentTypes
  import opened PaymentReducer
  import opened PaymentStatistics

  /** The payment list after dispatching `ADD_PAYMENT` for `a`, then for `b`. */
  lemma RecordTwo(a: Payment, b: Payment)
    ensures Replay(InitialState, AddPayments([a, b])).payments == [a] + [b]
  {
    ReplayAddPayments(InitialState, [a, b]);
  }

  /** Evaluated in May 2024, both payments count for the month too. */
  lemma SameMonthScenario(wage: Payment, lunch: Payment)
    requires wage.kind == Income && wage.amount == 50.0 && wage.date == Date(2024, 4)
    requires lunch.kind == Expense && lunch.amount == 20.0 && lunch.date == Date(2024, 4)
    ensures Stats(Replay(InitialState, AddPayments([wage, lunch])).payments, 2024, 4)
         == PaymentStats(50.0, 20.0, 30.0, 50.0, 20.0, 30.0)
  {
    RecordTwo(wage, lunch);
    assert InMonth(wage, 2024, 4) && InMonth(lunch, 2024, 4);
    StatsOfOne(wage, 2024, 4);
    StatsOfOne(lunch, 2024, 4);
    var w, l := Stats([wage], 2024, 4), Stats([lunch], 2024, 4);
    assert w == PaymentStats(50.0, 0.0, 50.0, 50.0, 0.0, 50.0);
    assert l == PaymentStats(0.0, 20.0, -20.0, 0.0, 20.0, -20.0);
    StatsAdditive([wage], [lunch], 2024, 4);
  }

  /** Evaluated in June 2024, the lifetime figures are the same and the
      monthly ones are zero. */
  lemma NextMonthScenario(wage: Payment, lunch: Payment)
    requires wage.kind == Income && wage.amount == 50.0 && wage.date == Date(2024, 4)
    requires lunch.kind == Expense && lunch.amount == 20.0 && lunch.date == Date(2024, 4)
    ensures Stats(Replay(InitialState, AddPayments([wage, lunch])).payments, 2024, 5)
         == PaymentStats(50.0, 20.0, 30.0, 0.0, 0.0, 0.0)
  {
    RecordTwo(wage, lunch);
    assert !InMonth(wage, 2024, 5) && !InMonth(lunch, 2024, 5);
    StatsOfOne(wage, 2024, 5);
    StatsOfOne(lunch, 2024, 5);
    var w, l := Stats([wage], 2024, 5), Stats([lunch], 2024, 5);
    assert w == PaymentStats(50.0, 0.0, 50.0, 0.0, 0.0, 0.0);
    assert l == PaymentStats(0.0, 20.0, -20.0, 0.0, 0.0, 0.0);
    StatsAdditive([wage], [lunch], 2024, 5);
  }
}
