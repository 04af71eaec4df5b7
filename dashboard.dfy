/** The dashboard's derived figures and its two pieces of local state: the
    spending totals and per-category chart, the remaining budget, the
    shopping list, the widget order, and the year-over-year colour rule. */
module Dashboard {
  import opened Seqs
  import opened Dates
  import opened Types
  import opened BudgetService
  import opened AnalysisService

  // ---------------------------------------------------------------- totals

  function Expenses(): Transaction -> bool
  {
    t => IsExpense(t)
  }

  function NotExpenses(): Transaction -> bool
  {
    t => !IsExpense(t)
  }

  /** Selects the expenses of category `c`. */
  function ExpenseIn(c: Category): Transaction -> bool
  {
    t => IsExpense(t) && t.category == c
  }

  /** What the chart shows for category `c`. */
  function CategoryTotal(txs: seq<Transaction>, c: Category): int
  {
    SumWhere(txs, ExpenseIn(c), AmountOf)
  }

  /** Some expense in `txs` is of category `c`. */
  predicate SpentOn(txs: seq<Transaction>, c: Category)
  {
    exists i :: 0 <= i < |txs| && IsExpense(txs[i]) && txs[i].category == c
  }

  lemma SpentOnSnoc(txs: seq<Transaction>, t: Transaction, c: Category)
    ensures SpentOn(txs + [t], c) <==> SpentOn(txs, c) || (IsExpense(t) && t.category == c)
  {
    var s := txs + [t];
    if SpentOn(s, c) && !(IsExpense(t) && t.category == c) {
      var i :| 0 <= i < |s| && IsExpense(s[i]) && s[i].category == c;
      assert i < |txs| && txs[i] == s[i];
    }
    if SpentOn(txs, c) {
      var i :| 0 <= i < |txs| && IsExpense(txs[i]) && txs[i].category == c;
      assert s[i] == txs[i];
    }
    if IsExpense(t) && t.category == c {
      assert s[|txs|] == t;
    }
  }

  /** The categories of the expenses, in order of first occurrence: the key
      order of the category record. */
  function ExpenseCategories(txs: seq<Transaction>): (r: seq<Category>)
    ensures Distinct(r)
    ensures forall c :: c in r <==> SpentOn(txs, c)
  {
    if txs == [] then []
    else
      var init, t := txs[..|txs| - 1], txs[|txs| - 1];
      assert txs == init + [t];
      var before := ExpenseCategories(init);
      forall c
        ensures SpentOn(txs, c) <==> SpentOn(init, c) || (IsExpense(t) && t.category == c)
      {
        SpentOnSnoc(init, t, c);
      }
      if IsExpense(t) && t.category !in before then before + [t.category] else before
  }

  /** A slice of the category chart. */
  datatype ChartEntry = ChartEntry(name: string, value: int)

  function ChartOver(cs: seq<Category>, txs: seq<Transaction>): (r: seq<ChartEntry>)
    ensures |r| == |cs|
    ensures forall i :: 0 <= i < |cs| ==> r[i] == ChartEntry(CategoryName(cs[i]), CategoryTotal(txs, cs[i]))
  {
    seq(|cs|, i requires 0 <= i < |cs| => ChartEntry(CategoryName(cs[i]), CategoryTotal(txs, cs[i])))
  }

  /** The chart: one slice per category spent on, in first-occurrence order,
      each with that category's expense total. */
  function ChartOf(txs: seq<Transaction>): seq<ChartEntry>
  {
    ChartOver(ExpenseCategories(txs), txs)
  }

  /** The category record holds exactly the categories spent on, each with
      its total. */
  ghost predicate Tallied(catMap: map<Category, int>, txs: seq<Transaction>)
  {
    && (forall c :: c in catMap <==> SpentOn(txs, c))
    && (forall c :: c in catMap ==> catMap[c] == CategoryTotal(txs, c))
  }

  lemma CategoryTotalSnoc(txs: seq<Transaction>, t: Transaction, c: Category)
    ensures CategoryTotal(txs + [t], c)
            == CategoryTotal(txs, c) + if IsExpense(t) && t.category == c then t.amount else 0
  {
    SumWhereSnoc(txs, t, ExpenseIn(c), AmountOf);
  }

  lemma {:induction false} NotSpentTotal(txs: seq<Transaction>, c: Category)
    requires !SpentOn(txs, c)
    ensures CategoryTotal(txs, c) == 0
  {
    if txs != [] {
      var init := txs[..|txs| - 1];
      assert txs == init + [txs[|txs| - 1]];
      SpentOnSnoc(init, txs[|txs| - 1], c);
      CategoryTotalSnoc(init, txs[|txs| - 1], c);
      NotSpentTotal(init, c);
    }
  }

  /** Adding an expense's amount under its category keeps the record tallied. */
  lemma TalliedSnoc(catMap: map<Category, int>, txs: seq<Transaction>, t: Transaction)
    requires Tallied(catMap, txs)
    requires IsExpense(t)
    ensures Tallied(catMap[t.category := (if t.category in catMap then catMap[t.category] else 0) + t.amount],
                    txs + [t])
  {
    var bumped := catMap[t.category := (if t.category in catMap then catMap[t.category] else 0) + t.amount];
    TalliedSnocKeys(catMap, txs, t);
    forall c | c in bumped
      ensures bumped[c] == CategoryTotal(txs + [t], c)
    {
      TalliedSnocAt(catMap, txs, t, c);
    }
  }

  /** The bumped record's keys are the categories spent on, the new one included. */
  lemma TalliedSnocKeys(catMap: map<Category, int>, txs: seq<Transaction>, t: Transaction)
    requires forall c :: c in catMap <==> SpentOn(txs, c)
    requires IsExpense(t)
    ensures forall c :: c in catMap[t.category := (if t.category in catMap then catMap[t.category] else 0) + t.amount]
                        <==> SpentOn(txs + [t], c)
  {
    forall c
      ensures SpentOn(txs + [t], c) <==> SpentOn(txs, c) || c == t.category
    {
      SpentOnSnoc(txs, t, c);
    }
  }

  /** `TalliedSnoc` for one category `c` of the bumped record. */
  lemma TalliedSnocAt(catMap: map<Category, int>, txs: seq<Transaction>, t: Transaction, c: Category)
    requires c in catMap ==> catMap[c] == CategoryTotal(txs, c)
    requires c !in catMap ==> !SpentOn(txs, c)
    requires IsExpense(t) && (c in catMap || c == t.category)
    ensures catMap[t.category := (if t.category in catMap then catMap[t.category] else 0) + t.amount][c]
            == CategoryTotal(txs + [t], c)
  {
    var bumped := catMap[t.category := (if t.category in catMap then catMap[t.category] else 0) + t.amount];
    CategoryTotalSnoc(txs, t, c);
    if c != t.category {
      assert bumped[c] == catMap[c];
    } else if c in catMap {
      assert bumped[c] == catMap[c] + t.amount;
    } else {
      NotSpentTotal(txs, c);
      assert bumped[c] == t.amount;
    }
  }

  /** An income leaves the record as it is. */
  lemma TalliedSkip(catMap: map<Category, int>, txs: seq<Transaction>, t: Transaction)
    requires Tallied(catMap, txs)
    requires !IsExpense(t)
    ensures Tallied(catMap, txs + [t])
  {
    forall c
      ensures SpentOn(txs + [t], c) <==> SpentOn(txs, c)
    {
      SpentOnSnoc(txs, t, c);
    }
    forall c | c in catMap
      ensures catMap[c] == CategoryTotal(txs + [t], c)
    {
      CategoryTotalSnoc(txs, t, c);
    }
  }

  /** What the totals pass has built after reading `seen`. */
  ghost predicate TotalsSoFar(exp: int, inc: int, order: seq<Category>, catMap: map<Category, int>,
                              seen: seq<Transaction>)
  {
    && exp == SumWhere(seen, Expenses(), AmountOf)
    && inc == SumWhere(seen, NotExpenses(), AmountOf)
    && order == ExpenseCategories(seen)
    && Tallied(catMap, seen)
  }

  /** One transaction read: an expense goes to the expense total and its
      category, anything else to the income total. */
  lemma TotalsStep(exp: int, inc: int, order: seq<Category>, catMap: map<Category, int>,
                   seen: seq<Transaction>, t: Transaction)
    requires TotalsSoFar(exp, inc, order, catMap, seen)
    ensures IsExpense(t) ==>
              TotalsSoFar(exp + t.amount, inc, if t.category !in order then order + [t.category] else order,
                          catMap[t.category := (if t.category in catMap then catMap[t.category] else 0) + t.amount],
                          seen + [t])
    ensures !IsExpense(t) ==> TotalsSoFar(exp, inc + t.amount, order, catMap, seen + [t])
  {
    SumWhereSnoc(seen, t, Expenses(), AmountOf);
    SumWhereSnoc(seen, t, NotExpenses(), AmountOf);
    ExpenseCategoriesSnoc(seen, t);
    if IsExpense(t) {
      TalliedSnoc(catMap, seen, t);
    } else {
      TalliedSkip(catMap, seen, t);
    }
  }

  /** The category record read in the order `order`, one slice per key. */
  function ChartFrom(order: seq<Category>, catMap: map<Category, int>): (r: seq<ChartEntry>)
    requires forall c :: c in order ==> c in catMap
    ensures |r| == |order|
    ensures forall k :: 0 <= k < |order| ==> r[k] == ChartEntry(CategoryName(order[k]), catMap[order[k]])
  {
    seq(|order|, k requires 0 <= k < |order| => ChartEntry(CategoryName(order[k]), catMap[order[k]]))
  }

  /** The totals `useMemo`: one pass adding each expense to the expense total
      and to its category, and everything else to the income total. */
  method Totals(txs: seq<Transaction>) returns (totalExpenses: int, totalIncome: int, chart: seq<ChartEntry>)
    ensures totalExpenses == SumWhere(txs, Expenses(), AmountOf)
    ensures totalIncome == SumWhere(txs, NotExpenses(), AmountOf)
    ensures chart == ChartOf(txs)
  {
    var exp, inc := 0, 0;
    var order: seq<Category> := [];
    var catMap: map<Category, int> := map[];
    ghost var seen: seq<Transaction> := [];
    for i := 0 to |txs|
      invariant seen == txs[..i]
      invariant TotalsSoFar(exp, inc, order, catMap, seen)
    {
      var t := txs[i];
      TotalsStep(exp, inc, order, catMap, seen, t);
      PrefixSnoc(txs, i);
      seen := seen + [t];
      if t.kind == TransactionType.Expense {
        exp := exp + t.amount;
        if t.category !in order {
          order := order + [t.category];
        }
        catMap := catMap[t.category := (if t.category in catMap then catMap[t.category] else 0) + t.amount];
      } else {
        inc := inc + t.amount;
      }
    }
    assert seen == txs;
    ChartFromRecord(catMap, txs);
    chart := ChartFrom(order, catMap);
    totalExpenses, totalIncome := exp, inc;
  }

  lemma ExpenseCategoriesSnoc(txs: seq<Transaction>, t: Transaction)
    ensures ExpenseCategories(txs + [t])
            == if IsExpense(t) && t.category !in ExpenseCategories(txs)
               then ExpenseCategories(txs) + [t.category] else ExpenseCategories(txs)
  {
    assert (txs + [t])[..|txs|] == txs;
  }

  /** Reading the record in key order gives the chart. */
  lemma ChartFromRecord(catMap: map<Category, int>, txs: seq<Transaction>)
    requires Tallied(catMap, txs)
    ensures forall c :: c in ExpenseCategories(txs) ==> c in catMap
    ensures ChartFrom(ExpenseCategories(txs), catMap) == ChartOf(txs)
  {
  }

  function EntryValue(e: ChartEntry): int
  {
    e.value
  }

  /** The expense totals of categories `cs`, added up. */
  function TotalOver(cs: seq<Category>, txs: seq<Transaction>): int
  {
    if cs == [] then 0 else TotalOver(cs[..|cs| - 1], txs) + CategoryTotal(txs, cs[|cs| - 1])
  }

  lemma {:induction false} ChartOverSum(cs: seq<Category>, txs: seq<Transaction>)
    ensures Sum(ChartOver(cs, txs), EntryValue) == TotalOver(cs, txs)
  {
    if cs != [] {
      assert ChartOver(cs, txs)[..|cs| - 1] == ChartOver(cs[..|cs| - 1], txs);
      ChartOverSum(cs[..|cs| - 1], txs);
    }
  }

  /** One more transaction adds its amount once to the categories' sum when
      it is an expense of one of them, since they are distinct. */
  lemma {:induction false} TotalOverSnoc(cs: seq<Category>, txs: seq<Transaction>, t: Transaction)
    requires Distinct(cs)
    ensures TotalOver(cs, txs + [t])
            == TotalOver(cs, txs) + if IsExpense(t) && t.category in cs then t.amount else 0
  {
    if cs != [] {
      var init, c := cs[..|cs| - 1], cs[|cs| - 1];
      assert cs == init + [c];
      TotalOverSnoc(init, txs, t);
      CategoryTotalSnoc(txs, t, c);
      assert t.category in cs <==> t.category in init || t.category == c;
      assert c !in init;
    }
  }

  /** Over distinct categories covering every expense, the category totals
      add up to the expense total. */
  lemma {:induction false} CategoriesCoverExpenses(cs: seq<Category>, txs: seq<Transaction>)
    requires Distinct(cs)
    requires forall c :: SpentOn(txs, c) ==> c in cs
    ensures TotalOver(cs, txs) == SumWhere(txs, Expenses(), AmountOf)
  {
    if txs == [] {
      ZeroTotals(cs, txs);
    } else {
      var init, t := txs[..|txs| - 1], txs[|txs| - 1];
      assert txs == init + [t];
      forall c | SpentOn(init, c)
        ensures c in cs
      {
        SpentOnSnoc(init, t, c);
      }
      CategoriesCoverExpenses(cs, init);
      TotalOverSnoc(cs, init, t);
      if IsExpense(t) {
        SpentOnSnoc(init, t, t.category);
      }
    }
  }

  lemma {:induction false} ZeroTotals(cs: seq<Category>, txs: seq<Transaction>)
    requires txs == []
    ensures TotalOver(cs, txs) == 0
  {
    if cs != [] {
      ZeroTotals(cs[..|cs| - 1], txs);
    }
  }

  /** The chart's slices add up to the expense total, and only categories
      some expense carries appear in it. */
  lemma ChartSumsToExpenses(txs: seq<Transaction>)
    ensures Sum(ChartOf(txs), EntryValue) == SumWhere(txs, Expenses(), AmountOf)
    ensures forall i :: 0 <= i < |ExpenseCategories(txs)| ==> SpentOn(txs, ExpenseCategories(txs)[i])
  {
    var cs := ExpenseCategories(txs);
    ChartOverSum(cs, txs);
    CategoriesCoverExpenses(cs, txs);
  }

  /** Every amount is counted once, as expense or as income. */
  lemma TotalsCoverAll(txs: seq<Transaction>)
    ensures SumWhere(txs, Expenses(), AmountOf) + SumWhere(txs, NotExpenses(), AmountOf)
            == Sum(txs, AmountOf)
  {
    SumWhereSplit(txs, Expenses(), NotExpenses(), AmountOf);
  }

  /** `remaining` and `isOverBudget`. */
  datatype BudgetStatus = BudgetStatus(remaining: int, isOverBudget: bool)

  function Status(budget: BudgetData, totalExpenses: int): (r: BudgetStatus)
    ensures r.remaining + totalExpenses == budget.monthlyLimit
    ensures r.isOverBudget <==> totalExpenses > budget.monthlyLimit
  {
    var remaining := budget.monthlyLimit - totalExpenses;
    BudgetStatus(remaining, remaining < 0)
  }

  // --------------------------------------------------------- shopping list

  /** `addToShoppingList`: appended unless already listed. */
  function AddToShoppingList(list: seq<string>, item: string): (r: seq<string>)
    ensures item in r
    ensures item in list ==> r == list
    ensures item !in list ==> r == list + [item]
  {
    if item in list then list else list + [item]
  }

  function Other(item: string): string -> bool
  {
    i => i != item
  }

  /** `removeFromShoppingList`: every occurrence dropped. */
  function RemoveFromShoppingList(list: seq<string>, item: string): (r: seq<string>)
  {
    Filter(list, Other(item))
  }

  /** Adding never creates a duplicate, and adding twice is adding once. */
  lemma AddKeepsDistinct(list: seq<string>, item: string)
    ensures Distinct(list) ==> Distinct(AddToShoppingList(list, item))
    ensures AddToShoppingList(AddToShoppingList(list, item), item) == AddToShoppingList(list, item)
    ensures forall x :: x in AddToShoppingList(list, item) <==> x in list || x == item
  {
  }

  /** Removing drops the item and keeps everything else, in order: the
      result is the list with the item's occurrences cut out. */
  lemma RemoveDropsOnlyItem(list: seq<string>, item: string)
    ensures item !in RemoveFromShoppingList(list, item)
    ensures forall x :: x != item ==> (x in RemoveFromShoppingList(list, item) <==> x in list)
    ensures forall x :: x != item ==> multiset(RemoveFromShoppingList(list, item))[x] == multiset(list)[x]
    ensures RemoveFromShoppingList(RemoveFromShoppingList(list, item), item) == RemoveFromShoppingList(list, item)
  {
    KeepCounts(list, item);
    FilterAll(RemoveFromShoppingList(list, item), Other(item));
  }

  lemma {:induction false} KeepCounts(list: seq<string>, item: string)
    ensures forall x :: x != item ==> multiset(Filter(list, Other(item)))[x] == multiset(list)[x]
  {
    if list != [] {
      var init := list[..|list| - 1];
      assert list == init + [list[|list| - 1]];
      KeepCounts(init, item);
    }
  }

  /** Removing an item just added gives back the list it was added to. */
  lemma RemoveUndoesAdd(list: seq<string>, item: string)
    requires item !in list
    ensures RemoveFromShoppingList(AddToShoppingList(list, item), item) == list
  {
    FilterAppend(list, [item], Other(item));
    FilterAll(list, Other(item));
    assert Filter([item], Other(item)) == [] by {
      assert [item][..0] == [];
    }
  }

  // ---------------------------------------------------------- widget order

  datatype WidgetId = Budget | Spent | Remaining | Savings | Chart | Shopping | Transactions | YoY

  const DefaultWidgetOrder: seq<WidgetId> :=
    [Budget, Spent, Remaining, YoY, Savings, Chart, WidgetId.Shopping, Transactions]

  /** The default order lists every widget once. */
  lemma DefaultOrderComplete(w: WidgetId)
    ensures Distinct(DefaultWidgetOrder) && w in DefaultWidgetOrder
  {
  }

  /** `items.indexOf(x)` for an `x` that is present. */
  function IndexOf<T(==)>(s: seq<T>, x: T): (i: nat)
    requires x in s
    ensures i < |s| && s[i] == x && x !in s[..i]
  {
    if s[0] == x then 0 else 1 + IndexOf(s[1..], x)
  }

  /** `arrayMove`: take the element at `from` out, then insert it at `to`. */
  function ArrayMove<T>(s: seq<T>, from: nat, to: nat): (r: seq<T>)
    requires from < |s| && to < |s|
    ensures |r| == |s| && r[to] == s[from]
    ensures multiset(r) == multiset(s)
  {
    var removed := s[..from] + s[from + 1..];
    assert s == s[..from] + [s[from]] + s[from + 1..];
    assert multiset(s) == multiset(removed) + multiset{s[from]};
    assert removed == removed[..to] + removed[to..];
    assert multiset(removed[..to] + [s[from]] + removed[to..])
        == multiset(removed[..to]) + multiset{s[from]} + multiset(removed[to..]);
    removed[..to] + [s[from]] + removed[to..]
  }

  /** Moving back undoes a move. */
  lemma ArrayMoveBack<T>(s: seq<T>, from: nat, to: nat)
    requires from < |s| && to < |s|
    ensures ArrayMove(ArrayMove(s, from, to), to, from) == s
  {
    var x := s[from];
    var removed := s[..from] + s[from + 1..];
    var moved := ArrayMove(s, from, to);
    assert moved[..to] + moved[to + 1..] == removed;
    assert removed[..from] + [x] + removed[from..] == s;
  }

  /** `handleDragEnd`: a drop outside every widget, or on the dragged widget
      itself, changes nothing; otherwise the dragged widget moves to the
      target's place. The drag library reports only ids of listed widgets. */
  function DragEnd(order: seq<WidgetId>, active: WidgetId, over: Option<WidgetId>): (r: seq<WidgetId>)
    requires active in order
    requires over.Some? ==> over.value in order
    ensures over.None? || over.value == active ==> r == order
    ensures |r| == |order| && multiset(r) == multiset(order)
    ensures over.Some? ==> r[IndexOf(order, over.value)] == active
  {
    if over.Some? && active != over.value then
      ArrayMove(order, IndexOf(order, active), IndexOf(order, over.value))
    else order
  }

  /** A rearranged order still lists every widget exactly once. */
  lemma DragKeepsWidgets(order: seq<WidgetId>, active: WidgetId, over: Option<WidgetId>)
    requires active in order
    requires over.Some? ==> over.value in order
    requires Distinct(order)
    ensures Distinct(DragEnd(order, active, over))
    ensures forall w :: w in DragEnd(order, active, over) <==> w in order
  {
    var r := DragEnd(order, active, over);
    forall w
      ensures w in r <==> w in order
    {
      assert w in r <==> w in multiset(r);
    }
    DistinctByCounts(order, r);
  }

  /** A permutation of a sequence without repeats has none either. */
  lemma DistinctByCounts<T>(s: seq<T>, r: seq<T>)
    requires Distinct(s) && multiset(r) == multiset(s)
    ensures Distinct(r)
  {
    forall i, j | 0 <= i < j < |r|
      ensures r[i] != r[j]
    {
      AtMostOnce(s, r[i]);
      RepeatCounts(r, i, j);
    }
  }

  lemma {:induction false} AtMostOnce<T>(s: seq<T>, x: T)
    requires Distinct(s)
    ensures multiset(s)[x] <= 1
  {
    if s != [] {
      var init := s[..|s| - 1];
      assert s == init + [s[|s| - 1]];
      AtMostOnce(init, x);
      if s[|s| - 1] == x {
        assert x !in init;
      }
    }
  }

  lemma RepeatCounts<T>(r: seq<T>, i: nat, j: nat)
    requires i < j < |r|
    ensures r[i] == r[j] ==> multiset(r)[r[i]] >= 2
  {
    assert r == r[..i] + [r[i]] + r[i + 1..j] + [r[j]] + r[j + 1..];
  }

  // ------------------------------------------------------------- the year

  /** The year-over-year card is green exactly when spending did not grow. */
  predicate IsBetter(stats: YoYStats)
  {
    stats.variance <= 0
  }

  lemma IsBetterIffNotMore(txs: seq<Transaction>, today: Date)
    ensures IsBetter(CalculateYoYComparison(txs, today))
            <==> MonthExpenses(txs, MonthOf(today)) <= MonthExpenses(txs, MonthKey(today.year - 1, today.month))
  {
  }
}
