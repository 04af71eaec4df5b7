/** The monthly budget rollover: once per calendar month, carry the previous
    month's surplus or deficit into the budget record. */
module BudgetService {
  import opened Seqs
  import opened Dates
  import opened Types

  /** The notice shown after a rollover; the amounts are the ones the text
      prints. */
  datatype RolloverMessage =
    | ExtraFromLastMonth(extra: int)
    | OverspendingDeducted(overspent: int)
    | ResetToBase(base: int)

  datatype RolloverResult = RolloverResult(updatedBudget: BudgetData, message: RolloverMessage)

  /** Selects the expenses dated in month `key` (date prefix "YYYY-MM" equal to it). */
  function SpentIn(key: MonthKey): Transaction -> bool
  {
    t => IsExpense(t) && MonthOf(t.date) == key
  }

  /** The total of the expenses dated in month `key`. */
  function MonthExpenses(txs: seq<Transaction>, key: MonthKey): int
  {
    SumWhere(txs, SpentIn(key), AmountOf)
  }

  /** `checkAndProcessRollover`: `None` is the source's `null` (nothing to do). */
  function CheckAndProcessRollover(budget: BudgetData, txs: seq<Transaction>, today: Date)
    : (r: Option<RolloverResult>)
    ensures r.None? <==> budget.lastRolloverMonth == MonthOf(today)
    ensures r.Some? ==>
              var b := r.value.updatedBudget;
              && b.rolloverAmount
                 == budget.monthlyLimit - MonthExpenses(txs, PrevMonth(MonthOf(today)))
              && Consistent(b)
              && b.baseAmount == budget.baseAmount
              && b.lastRolloverMonth == MonthOf(today)
    ensures r.Some? ==>
              var rollover := r.value.updatedBudget.rolloverAmount;
              match r.value.message
              case ExtraFromLastMonth(x) => rollover > 0 && x == rollover
              case OverspendingDeducted(x) => rollover < 0 && x == -rollover
              case ResetToBase(x) => rollover == 0 && x == budget.baseAmount
  {
    var currentMonthKey := MonthOf(today);
    if budget.lastRolloverMonth == currentMonthKey then None
    else
      var prevMonthKey := PrevMonth(currentMonthKey);
      var prevMonthExpenses := MonthExpenses(txs, prevMonthKey);
      var surplus := budget.monthlyLimit - prevMonthExpenses;
      var newRollover := surplus;
      var updatedBudget := BudgetData(
        budget.baseAmount + newRollover, budget.baseAmount, newRollover, currentMonthKey);
      var message :=
        if newRollover > 0 then ExtraFromLastMonth(newRollover)
        else if newRollover < 0 then OverspendingDeducted(-newRollover)
        else ResetToBase(budget.baseAmount);
      Some(RolloverResult(updatedBudget, message))
  }

  /** Running the check again in the same month, on the record it returned,
      does nothing, whatever transactions have been added since. */
  lemma RolloverIdempotent(budget: BudgetData, txs: seq<Transaction>, later: seq<Transaction>, today: Date)
    requires CheckAndProcessRollover(budget, txs, today).Some?
    ensures CheckAndProcessRollover(
              CheckAndProcessRollover(budget, txs, today).value.updatedBudget, later, today).None?
  {
  }

  /** The month total of a concatenation is the sum of the month totals. */
  lemma MonthExpensesAppend(a: seq<Transaction>, b: seq<Transaction>, key: MonthKey)
    ensures MonthExpenses(a + b, key) == MonthExpenses(a, key) + MonthExpenses(b, key)
  {
    FilterAppend(a, b, SpentIn(key));
    SumAppend(Filter(a, SpentIn(key)), Filter(b, SpentIn(key)), AmountOf);
  }

  /** One more transaction changes the month total by its amount exactly when
      it is an expense dated in that month, and not at all otherwise: income is
      never counted. */
  lemma MonthExpensesOfOne(txs: seq<Transaction>, t: Transaction, key: MonthKey)
    ensures MonthExpenses([t] + txs, key) == MonthExpenses(txs + [t], key)
            == MonthExpenses(txs, key) + (if IsExpense(t) && MonthOf(t.date) == key then t.amount else 0)
  {
    MonthExpensesAppend([t], txs, key);
    MonthExpensesAppend(txs, [t], key);
    assert [t][..0] == [];
  }

  /** With non-negative amounts a month's expenses are never negative. */
  lemma MonthExpensesNonNegative(txs: seq<Transaction>, key: MonthKey)
    requires forall t :: t in txs ==> t.amount >= 0
    ensures MonthExpenses(txs, key) >= 0
  {
    SumNonNegative(Filter(txs, SpentIn(key)), AmountOf);
  }

  /** Only the month just before today's is reconciled: recording an income,
      or an expense from any other month, leaves the rollover unchanged. */
  lemma RolloverIgnoresOtherMonths(budget: BudgetData, txs: seq<Transaction>, t: Transaction, today: Date)
    requires !IsExpense(t) || MonthOf(t.date) != PrevMonth(MonthOf(today))
    ensures CheckAndProcessRollover(budget, [t] + txs, today)
            == CheckAndProcessRollover(budget, txs, today)
  {
    MonthExpensesOfOne(txs, t, PrevMonth(MonthOf(today)));
  }

  /** The worked examples: in January, a limit of 1000 against 800 spent in
      December carries 200 over; against 1200 it deducts 200. A salary in
      December is not an expense and is not counted. Amounts in cents. */
  lemma {:induction false} RolloverExamples(base: int, rent: Transaction, salary: Transaction)
    requires rent == Transaction("a", Date(2024, 12, 3), "Rent", 80000, Housing,
                                 TransactionType.Expense, false, true, false)
    requires salary == Transaction("b", Date(2024, 12, 1), "Salary", 500000, Category.Income,
                                   TransactionType.Income, false, true, false)
    ensures
      var budget := BudgetData(100000, base, 100000 - base, MonthKey(2024, 12));
      && CheckAndProcessRollover(budget, [rent, salary], Date(2025, 1, 15))
         == Some(RolloverResult(BudgetData(base + 20000, base, 20000, MonthKey(2025, 1)),
                                ExtraFromLastMonth(20000)))
      && CheckAndProcessRollover(budget, [rent.(amount := 120000)], Date(2025, 1, 15))
         == Some(RolloverResult(BudgetData(base - 20000, base, -20000, MonthKey(2025, 1)),
                                OverspendingDeducted(20000)))
  {
    assert PrevMonth(MonthOf(Date(2025, 1, 15))) == MonthKey(2024, 12);
    DecemberExpenses(rent, salary);
  }

  /** December's expenses in the examples: the rent, not the salary. */
  lemma DecemberExpenses(rent: Transaction, salary: Transaction)
    requires rent.date == Date(2024, 12, 3) && rent.kind == TransactionType.Expense
    requires salary.date == Date(2024, 12, 1) && salary.kind == TransactionType.Income
    ensures MonthExpenses([rent, salary], MonthKey(2024, 12)) == rent.amount
    ensures MonthExpenses([rent.(amount := 120000)], MonthKey(2024, 12)) == 120000
  {
    var key := MonthKey(2024, 12);
    var rent' := rent.(amount := 120000);
    MonthExpensesOfOne([], salary, key);
    MonthExpensesOfOne([salary], rent, key);
    MonthExpensesOfOne([], rent', key);
    assert MonthExpenses([], key) == 0;
    assert [rent] + [salary] == [rent, salary];
    assert [rent'] + [] == [rent'];
  }
}
