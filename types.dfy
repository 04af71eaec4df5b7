/** The records the tracker keeps: transactions, the budget record, the
    savings goal, and the derived analytics records. Amounts are whole cents. */
module Types {
  import opened Seqs
  import opened Dates

  datatype Option<T> = None | Some(value: T)

  datatype TransactionType = Expense | Income

  datatype Category =
    | Housing | Food | Transport | Utilities | Entertainment
    | Healthcare | Personal | Shopping | Income | Other

  /** The enum's values in declaration order (`Object.values(Category)`). */
  const AllCategories: seq<Category> :=
    [Housing, Food, Transport, Utilities, Entertainment,
     Healthcare, Personal, Shopping, Category.Income, Other]

  /** The string value of each category. */
  function CategoryName(c: Category): string
  {
    match c
    case Housing => "Housing"
    case Food => "Food"
    case Transport => "Transport"
    case Utilities => "Utilities"
    case Entertainment => "Entertainment"
    case Healthcare => "Healthcare"
    case Personal => "Personal"
    case Shopping => "Shopping"
    case Income => "Income"
    case Other => "Other"
  }

  /** The string value of each transaction type. */
  function TypeName(t: TransactionType): string
  {
    match t
    case Expense => "expense"
    case Income => "income"
  }

  /** `isRecurring`, `isPaid` and `reminderSent` are optional in the source and
      read as false when absent; here absent is `false`. */
  datatype Transaction = Transaction(
    id: string,
    date: Date,
    description: string,
    amount: int,
    category: Category,
    kind: TransactionType,
    isRecurring: bool,
    isPaid: bool,
    reminderSent: bool)

  datatype BudgetData = BudgetData(
    monthlyLimit: int,
    baseAmount: int,
    rolloverAmount: int,
    lastRolloverMonth: MonthKey)

  /** The budget record's invariant: `monthlyLimit` is the effective limit,
      the base plan plus the carried-over surplus or deficit. */
  predicate Consistent(b: BudgetData)
  {
    b.monthlyLimit == b.baseAmount + b.rolloverAmount
  }

  datatype SavingsGoal = SavingsGoal(name: string, targetAmount: int, currentAmount: int)

  /** What a receipt scan may return; each field is optional. */
  datatype OcrResult = OcrResult(
    amount: Option<int>,
    date: Option<Date>,
    description: Option<string>,
    category: Option<string>)

  /** A forecast purchase. Dates are day numbers (`DayNumber`). */
  datatype PredictedItem = PredictedItem(
    name: string,
    lastBoughtDate: int,
    daysAgo: int,
    predictedDate: int,
    avgFrequencyDays: int)

  datatype YoYStats = YoYStats(
    currentMonthTotal: int,
    lastYearMonthTotal: int,
    variance: int,
    percentageChange: real,
    hasHistory: bool)

  predicate IsExpense(t: Transaction)
  {
    t.kind == TransactionType.Expense
  }

  function AmountOf(t: Transaction): int
  {
    t.amount
  }

  /** The ids of a list of transactions, in order. */
  function Ids(ts: seq<Transaction>): (r: seq<string>)
    ensures |r| == |ts| && forall i :: 0 <= i < |ts| ==> r[i] == ts[i].id
  {
    seq(|ts|, i requires 0 <= i < |ts| => ts[i].id)
  }

  lemma IdsAppend(a: seq<Transaction>, b: seq<Transaction>)
    ensures Ids(a + b) == Ids(a) + Ids(b)
  {
    assert forall i :: 0 <= i < |b| ==> (a + b)[|a| + i] == b[i];
  }

  /** An id is listed exactly when some transaction carries it. */
  lemma IdsMembers(ts: seq<Transaction>, id: string)
    ensures id in Ids(ts) <==> exists t :: t in ts && t.id == id
  {
    if id in Ids(ts) {
      var i :| 0 <= i < |ts| && Ids(ts)[i] == id;
      assert ts[i] in ts;
    }
    if exists t :: t in ts && t.id == id {
      var t :| t in ts && t.id == id;
      var i :| 0 <= i < |ts| && ts[i] == t;
      assert Ids(ts)[i] == id;
    }
  }

  lemma TransactionTypeHasTwoValues(t: TransactionType)
    ensures t == TransactionType.Expense || t == TransactionType.Income
    ensures TransactionType.Expense != TransactionType.Income
  {
  }

  lemma CategoryHasTenValues(c: Category)
    ensures |AllCategories| == 10 && Distinct(AllCategories)
    ensures c in AllCategories
    ensures Category.Income in AllCategories
  {
  }

  /** The string values are distinct, so a category is known by its name. */
  lemma CategoryNamesDistinct(a: Category, b: Category)
    ensures CategoryName(a) == CategoryName(b) ==> a == b
  {
  }
}
