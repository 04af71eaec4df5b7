/** The add-transaction form: its state cells, the keyword auto-suggest of a
    category, the normalisation on submit, and the update a receipt scan
    makes. */
module ExpenseForm {
  import opened Strings
  import opened Dates
  import opened Types
  import opened Constants

  /** A transaction as the form hands it on, before it has an id. */
  datatype NewTransaction = NewTransaction(
    date: Date,
    description: string,
    amount: int,
    category: Category,
    kind: TransactionType,
    isRecurring: bool)

  /** The category of the first keyword, in table order, that `lowerDesc`
      contains. */
  function FirstMatch(lowerDesc: string, table: seq<(string, Category)>): (r: Option<Category>)
    ensures r.Some? ==> exists i :: 0 <= i < |table| && table[i].1 == r.value && Includes(lowerDesc, table[i].0)
    ensures r.None? ==> forall i :: 0 <= i < |table| ==> !Includes(lowerDesc, table[i].0)
  {
    if table == [] then None
    else if Includes(lowerDesc, table[0].0) then Some(table[0].1)
    else
      var r := FirstMatch(lowerDesc, table[1..]);
      assert forall i :: 1 <= i < |table| ==> table[i] == table[1..][i - 1];
      r
  }

  /** The category the form shows after the description becomes `lowerDesc`
      (lower-cased): the suggestion, or the current one when no keyword
      occurs. */
  function Suggest(lowerDesc: string, current: Category): Category
  {
    match FirstMatch(lowerDesc, CategoryKeywords)
    case Some(c) => c
    case None => current
  }

  /** The winner is the earliest keyword that occurs: every keyword before
      it is absent from the description. */
  lemma {:induction false} FirstMatchIsEarliest(lowerDesc: string, table: seq<(string, Category)>, i: int)
    requires 0 <= i < |table| && Includes(lowerDesc, table[i].0)
    requires forall j :: 0 <= j < i ==> !Includes(lowerDesc, table[j].0)
    ensures FirstMatch(lowerDesc, table) == Some(table[i].1)
  {
    if i > 0 {
      assert !Includes(lowerDesc, table[0].0);
      assert forall j :: 0 <= j < i - 1 ==> table[1..][j] == table[j + 1];
      FirstMatchIsEarliest(lowerDesc, table[1..], i - 1);
    }
  }

  /** No keyword suggests Income, so a suggestion never turns an expense
      into Income. */
  lemma SuggestNeverIncome(lowerDesc: string, current: Category)
    requires current != Category.Income
    ensures Suggest(lowerDesc, current) != Category.Income
  {
    NoIncomeKeyword();
  }

  /** Lower-casing is idempotent, so lower-casing an already lower-cased
      description again leaves the suggestion unchanged. */
  lemma SuggestLowerIdempotent(description: string, current: Category)
    ensures Suggest(ToLower(ToLower(description)), current) == Suggest(ToLower(description), current)
  {
    LowerIsLower(description);
    LowerOfLower(ToLower(description));
  }

  /** The first candidate whose lower-cased name is `lowerName`
      (`Object.values(Category).find(...)`). */
  function FindByName(candidates: seq<Category>, lowerName: string): (r: Option<Category>)
    ensures r.Some? ==> r.value in candidates && ToLower(CategoryName(r.value)) == lowerName
    ensures r.None? ==> forall c :: c in candidates ==> ToLower(CategoryName(c)) != lowerName
  {
    if candidates == [] then None
    else if ToLower(CategoryName(candidates[0])) == lowerName then Some(candidates[0])
    else
      var r := FindByName(candidates[1..], lowerName);
      assert forall c :: c in candidates ==> c == candidates[0] || c in candidates[1..];
      r
  }

  /** The category a receipt scan names, matched case-insensitively against
      the enum's values. */
  function MatchCategory(name: string): Option<Category>
  {
    FindByName(AllCategories, ToLower(name))
  }

  /** The ten lower-cased names differ: their first letters and lengths
      already tell them apart. */
  lemma LowerNamesDistinct(a: Category, b: Category)
    ensures ToLower(CategoryName(a)) == ToLower(CategoryName(b)) ==> a == b
  {
    var na, nb := CategoryName(a), CategoryName(b);
    if ToLower(na) == ToLower(nb) {
      assert |na| == |nb|;
      assert LowerChar(na[0]) == ToLower(na)[0] == ToLower(nb)[0] == LowerChar(nb[0]);
    }
  }

  /** A scanned category is accepted exactly when it spells a category's
      name up to case, and then it is that category. */
  lemma MatchCategoryIff(name: string, c: Category)
    ensures MatchCategory(name) == Some(c) <==> ToLower(CategoryName(c)) == ToLower(name)
  {
    CategoryHasTenValues(c);
    var r := MatchCategory(name);
    if r.Some? {
      LowerNamesDistinct(r.value, c);
    }
  }

  /** The keyword step of a scan: a scanned, non-empty description suggests
      a category, as typing it would. */
  function ScanSuggestion(description: Option<string>, current: Category): Category
  {
    if description.Some? && description.value != [] then Suggest(ToLower(description.value), current)
    else current
  }

  /** The category step of a scan: a scanned, non-empty name that matches a
      category replaces the current one. */
  function ScanMatch(name: Option<string>, current: Category): Category
  {
    if name.Some? && name.value != [] && MatchCategory(name.value).Some? then MatchCategory(name.value).value
    else current
  }

  /** The category the form holds after a scan: the keyword suggestion for a
      scanned description, then the scanned category when it matches one. */
  function ScannedCategory(result: OcrResult, current: Category): Category
  {
    ScanMatch(result.category, ScanSuggestion(result.description, current))
  }

  /** A scan names Income only by spelling it: otherwise an expense's
      category stays off Income, as the category select keeps it. */
  lemma ScanKeepsExpenseCategory(result: OcrResult, current: Category)
    requires current != Category.Income
    requires result.category.Some? ==> ToLower(result.category.value) != ToLower(CategoryName(Category.Income))
    ensures ScannedCategory(result, current) != Category.Income
  {
    if result.description.Some? && result.description.value != [] {
      SuggestNeverIncome(ToLower(result.description.value), current);
    }
    if result.category.Some? {
      MatchCategoryIff(result.category.value, Category.Income);
    }
  }

  /** A scan that reports "income" files an expense under Income, which the
      category select never offers for an expense. */
  lemma ScanCanNameIncome(current: Category)
    ensures ScannedCategory(OcrResult(None, None, None, Some("income")), current) == Category.Income
  {
    MatchCategoryIff("income", Category.Income);
  }

  /** The form's state cells. `amount` is the text typed into the amount
      field; it becomes a number only on submit. */
  class Form {
    var amount: string
    var description: string
    var category: Category
    var date: Date
    var kind: TransactionType
    var isRecurring: bool

    /** An expense's category is never Income: the select leaves it out. */
    predicate ExpenseCategory()
      reads this
    {
      category != Category.Income
    }

    /** The form as it opens: an expense in Food, dated `today`. */
    constructor (today: Date)
      ensures amount == [] && description == [] && category == Food && date == today
      ensures kind == TransactionType.Expense && !isRecurring
      ensures ExpenseCategory()
    {
      amount := [];
      description := [];
      category := Food;
      date := today;
      kind := TransactionType.Expense;
      isRecurring := false;
    }

    /** The type toggle. */
    method SelectType(k: TransactionType)
      modifies this
      ensures kind == k
      ensures amount == old(amount) && description == old(description) && category == old(category)
      ensures date == old(date) && isRecurring == old(isRecurring)
    {
      kind := k;
    }

    /** The category select, which offers every category but Income. */
    method SelectCategory(c: Category)
      requires c != Category.Income
      modifies this
      ensures category == c && ExpenseCategory()
      ensures amount == old(amount) && description == old(description) && kind == old(kind)
      ensures date == old(date) && isRecurring == old(isRecurring)
    {
      category := c;
    }

    /** The keyword search over `table` (the keyword table, in its order):
        the first keyword `lowerDesc` contains sets the category, and the
        search stops there. */
    method ApplyKeywords(lowerDesc: string, table: seq<(string, Category)>)
      modifies this
      ensures category == match FirstMatch(lowerDesc, table)
                          case Some(c) => c
                          case None => old(category)
      ensures amount == old(amount) && description == old(description) && kind == old(kind)
      ensures date == old(date) && isRecurring == old(isRecurring)
    {
      var i := 0;
      while i < |table|
        invariant 0 <= i <= |table|
        invariant FirstMatch(lowerDesc, table) == FirstMatch(lowerDesc, table[i..])
        invariant category == old(category)
        invariant amount == old(amount) && description == old(description) && kind == old(kind)
        invariant date == old(date) && isRecurring == old(isRecurring)
      {
        var (keyword, cat) := table[i];
        if Includes(lowerDesc, keyword) {
          category := cat;
          break;
        }
        assert table[i..][1..] == table[i + 1..];
        i := i + 1;
      }
    }

    /** `handleDescriptionChange`: the description is stored, and for an
        expense the category follows the first keyword it contains. */
    method HandleDescriptionChange(val: string)
      modifies this
      ensures description == val
      ensures category == (if old(kind) == TransactionType.Expense then Suggest(ToLower(val), old(category))
                           else old(category))
      ensures old(ExpenseCategory()) ==> ExpenseCategory()
      ensures amount == old(amount) && kind == old(kind) && date == old(date) && isRecurring == old(isRecurring)
    {
      description := val;
      if kind == TransactionType.Expense {
        ApplyKeywords(ToLower(val), CategoryKeywords);
        if old(category) != Category.Income {
          SuggestNeverIncome(ToLower(val), old(category));
        }
      }
    }

    /** `handleSubmit`: nothing with an empty amount or description;
        otherwise the record, with Income's category forced to Income and its
        recurring flag cleared. Turning the amount text into a number is the
        `parse` parameter. */
    method HandleSubmit(parse: string -> int) returns (submitted: Option<NewTransaction>)
      ensures submitted.None? <==> amount == [] || description == []
      ensures submitted.Some? ==>
                && submitted.value.amount == parse(amount)
                && submitted.value.description == description
                && submitted.value.date == date
                && submitted.value.kind == kind
      ensures submitted.Some? && kind == TransactionType.Income ==>
                submitted.value.category == Category.Income && !submitted.value.isRecurring
      ensures submitted.Some? && kind == TransactionType.Expense ==>
                submitted.value.category == category && submitted.value.isRecurring == isRecurring
      ensures submitted.Some? && ExpenseCategory() ==>
                (submitted.value.category == Category.Income <==> submitted.value.kind == TransactionType.Income)
    {
      if amount == [] || description == [] {
        return None;
      }
      submitted := Some(NewTransaction(
        date,
        description,
        parse(amount),
        if kind == TransactionType.Income then Category.Income else category,
        kind,
        if kind == TransactionType.Expense then isRecurring else false));
    }

    /** The update after a receipt scan. Only fields the scan filled in (a
        non-zero amount, a non-empty text) are taken; a scanned description
        runs the keyword search whatever the type; a scanned category is
        taken when it matches one; the type becomes expense. Rendering the
        amount as text is the `show` parameter. */
    method ApplyOcrResult(result: OcrResult, show: int -> string)
      modifies this
      ensures amount == (if result.amount.Some? && result.amount.value != 0 then show(result.amount.value)
                         else old(amount))
      ensures description == (if result.description.Some? && result.description.value != [] then
                                result.description.value
                              else old(description))
      ensures date == (if result.date.Some? then result.date.value else old(date))
      ensures category == ScanMatch(result.category, ScanSuggestion(result.description, old(category)))
      ensures kind == TransactionType.Expense
      ensures isRecurring == old(isRecurring)
    {
      if result.amount.Some? && result.amount.value != 0 {
        amount := show(result.amount.value);
      }
      ApplyScannedDescription(result.description);
      if result.date.Some? {
        date := result.date.value;
      }
      ApplyScannedCategory(result.category);
      kind := TransactionType.Expense;
    }

    /** A scanned description is taken when it is not empty, and then runs
        the keyword search whatever the type. */
    method ApplyScannedDescription(scanned: Option<string>)
      modifies this
      ensures description == (if scanned.Some? && scanned.value != [] then scanned.value else old(description))
      ensures category == ScanSuggestion(scanned, old(category))
      ensures amount == old(amount) && kind == old(kind)
      ensures date == old(date) && isRecurring == old(isRecurring)
    {
      if scanned.Some? && scanned.value != [] {
        description := scanned.value;
        ApplyKeywords(ToLower(scanned.value), CategoryKeywords);
      }
    }

    /** A scanned category is taken when it is not empty and names one of
        the categories, up to case. */
    method ApplyScannedCategory(scanned: Option<string>)
      modifies this
      ensures category == ScanMatch(scanned, old(category))
      ensures amount == old(amount) && description == old(description) && kind == old(kind)
      ensures date == old(date) && isRecurring == old(isRecurring)
    {
      if scanned.Some? && scanned.value != [] {
        var matchedCat := MatchCategory(scanned.value);
        if matchedCat.Some? {
          category := matchedCat.value;
        }
      }
    }
  }
}
