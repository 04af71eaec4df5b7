/** The constant tables and initial records of the tracker. */
module Constants {
  import opened Seqs
  import opened Strings
  import opened Dates
  import opened Types

  /** The chart colour of each category (`CATEGORY_COLORS`); a total function,
      so every category has one. */
  function CategoryColor(c: Category): (r: string)
    ensures |r| == 7 && r[0] == '#'
  {
    match c
    case Housing => "#a78bfa"
    case Food => "#f472b6"
    case Transport => "#34d399"
    case Utilities => "#60a5fa"
    case Entertainment => "#fbbf24"
    case Healthcare => "#f87171"
    case Personal => "#c084fc"
    case Shopping => "#2dd4bf"
    case Income => "#a3e635"
    case Other => "#9ca3af"
  }

  lemma CategoryColorsDistinct(a: Category, b: Category)
    ensures CategoryColor(a) == CategoryColor(b) ==> a == b
  {
  }

  /** `INITIAL_BUDGET`: 2000, in cents. */
  const InitialBudget: int := 200000

  /** `INITIAL_SAVINGS_GOAL`, amounts in cents. */
  const InitialSavingsGoal: SavingsGoal := SavingsGoal("Dream Vacation", 500000, 125000)

  lemma InitialSavingsGoalUnderTarget()
    ensures 0 <= InitialSavingsGoal.currentAmount <= InitialSavingsGoal.targetAmount
    ensures InitialBudget == 2000 * 100
  {
  }

  /** `SAMPLE_DATA`: the transactions shown before anything is saved. Two of
      them are dated today and the electric bill two days later. */
  function SampleData(today: Date): seq<Transaction>
    requires ValidDate(today)
  {
    [ Transaction("1", today, "Grocery Store", 8550, Food,
                  TransactionType.Expense, false, true, false),
      Transaction("2", NextDay(NextDay(today)), "Electric Bill", 12000, Utilities,
                  TransactionType.Expense, true, false, false),
      Transaction("3", today, "Monthly Salary", 350000, Category.Income,
                  TransactionType.Income, false, true, false) ]
  }

  lemma SampleDataShape(today: Date)
    requires ValidDate(today)
    ensures var s := SampleData(today);
            Distinct(Ids(s))
            && (forall t :: t in s && t.kind == TransactionType.Income ==> t.category == Category.Income)
            && (forall t :: t in s && t.kind == TransactionType.Expense ==> t.category != Category.Income)
            && DayNumber(s[1].date) == DayNumber(today) + 2
  {
    NextDayCounts(today);
    NextDayCounts(NextDay(today));
  }

  /** `CATEGORY_KEYWORDS`: keyword -> category, in insertion order, which is
      the order the auto-suggest searches it in. */
  const CategoryKeywords: seq<(string, Category)> := [
    ("grocery", Food),
    ("supermarket", Food),
    ("market", Food),
    ("food", Food),
    ("restaurant", Food),
    ("cafe", Food),
    ("coffee", Food),
    ("pizza", Food),
    ("burger", Food),
    ("uber", Transport),
    ("lyft", Transport),
    ("gas", Transport),
    ("fuel", Transport),
    ("shell", Transport),
    ("chevron", Transport),
    ("parking", Transport),
    ("electric", Utilities),
    ("water", Utilities),
    ("internet", Utilities),
    ("wifi", Utilities),
    ("mobile", Utilities),
    ("phone", Utilities),
    ("cinema", Entertainment),
    ("movie", Entertainment),
    ("netflix", Entertainment),
    ("spotify", Entertainment),
    ("hulu", Entertainment),
    ("doctor", Healthcare),
    ("pharmacy", Healthcare),
    ("cvs", Healthcare),
    ("walgreens", Healthcare),
    ("gym", Personal),
    ("fitness", Personal),
    ("hair", Personal),
    ("salon", Personal),
    ("amazon", Shopping),
    ("target", Shopping),
    ("walmart", Shopping),
    ("clothes", Shopping),
    ("shoes", Shopping),
    ("rent", Housing),
    ("mortgage", Housing)
  ]

  /** The table checked a third at a time: food and transport, */
  lemma FirstKeywordsLower()
    ensures forall i :: 0 <= i < 14 ==> IsLower(CategoryKeywords[i].0) && CategoryKeywords[i].0 != []
  {
  }

  /** utilities, entertainment and health care, */
  lemma MiddleKeywordsLower()
    ensures forall i :: 14 <= i < 28 ==> IsLower(CategoryKeywords[i].0) && CategoryKeywords[i].0 != []
  {
  }

  /** personal care, shopping and housing. */
  lemma LastKeywordsLower()
    ensures forall i :: 28 <= i < 42 ==> IsLower(CategoryKeywords[i].0) && CategoryKeywords[i].0 != []
  {
  }

  /** Every keyword is lower-case and non-empty, so matching it against a
      lower-cased description is meaningful. */
  lemma KeywordsLowerCase()
    ensures |CategoryKeywords| == 42
    ensures forall i :: 0 <= i < |CategoryKeywords| ==>
              IsLower(CategoryKeywords[i].0) && CategoryKeywords[i].0 != []
  {
    FirstKeywordsLower();
    MiddleKeywordsLower();
    LastKeywordsLower();
  }

  /** No keyword suggests the Income category. */
  lemma NoIncomeKeyword()
    ensures forall i :: 0 <= i < |CategoryKeywords| ==> CategoryKeywords[i].1 != Category.Income
  {
  }
}
