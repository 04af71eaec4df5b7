/** The report export of the settings screen: the time-range filter, the
    newest-first order, the CSV text, the totals of the PDF summary, and the
    refusal to export nothing. */
module Settings {
  import opened Seqs
  import opened Strings
  import opened Dates
  import opened Types
  import opened Csv

  datatype TimeRange = Month | Year | All

  datatype ExportFormat = CsvFormat | PdfFormat

  /** `month` keeps today's month of today's year, `year` today's year, and
      `all` everything. */
  predicate InRangeOf(range: TimeRange, now: Date, t: Transaction)
  {
    match range
    case Month => t.date.month == now.month && t.date.year == now.year
    case Year => t.date.year == now.year
    case All => true
  }

  function InRange(range: TimeRange, now: Date): Transaction -> bool
  {
    t => InRangeOf(range, now, t)
  }

  /** The sort key: the date's day number. */
  function DateKey(): Transaction -> int
  {
    (t: Transaction) => DayNumber(t.date)
  }

  /** Descending by `key`: the newest first. */
  predicate NewestFirst<T>(s: seq<T>, key: T -> int)
  {
    forall i, j :: 0 <= i < j < |s| ==> key(s[i]) >= key(s[j])
  }

  /** Puts `x` before the first element strictly older than it, so after
      the ones as new as it. */
  function Insert<T>(x: T, s: seq<T>, key: T -> int): (r: seq<T>)
    requires NewestFirst(s, key)
    ensures NewestFirst(r, key)
    ensures multiset(r) == multiset(s) + multiset{x}
  {
    if s == [] then [x]
    else if key(x) > key(s[0]) then
      HeadIsNewest(s, key);
      ConsNewestFirst(x, s, key);
      [x] + s
    else
      var rest := Insert(x, s[1..], key);
      InsertAfterHead(x, s, rest, key);
      [s[0]] + rest
  }

  /** The head of a newest-first list is as new as any of its elements. */
  lemma HeadIsNewest<T>(s: seq<T>, key: T -> int)
    requires s != [] && NewestFirst(s, key)
    ensures forall z :: z in s ==> key(s[0]) >= key(z)
  {
    forall z | z in s
      ensures key(s[0]) >= key(z)
    {
      var j :| 0 <= j < |s| && s[j] == z;
      if j > 0 {
        assert key(s[0]) >= key(s[j]);
      }
    }
  }

  /** An element as new as all of a newest-first list can go in front. */
  lemma ConsNewestFirst<T>(y: T, s: seq<T>, key: T -> int)
    requires NewestFirst(s, key) && forall z :: z in s ==> key(y) >= key(z)
    ensures NewestFirst([y] + s, key)
  {
    var ys := [y] + s;
    forall i, j | 0 <= i < j < |ys|
      ensures key(ys[i]) >= key(ys[j])
    {
      assert ys[j] == s[j - 1] && ys[j] in s;
      if i > 0 {
        assert ys[i] == s[i - 1];
      }
    }
  }

  /** The recursive case of `Insert`: the head stays in front of the rest
      with `x` inserted. */
  lemma InsertAfterHead<T>(x: T, s: seq<T>, rest: seq<T>, key: T -> int)
    requires s != [] && NewestFirst(s, key) && key(x) <= key(s[0])
    requires NewestFirst(rest, key) && multiset(rest) == multiset(s[1..]) + multiset{x}
    ensures NewestFirst([s[0]] + rest, key)
    ensures multiset([s[0]] + rest) == multiset(s) + multiset{x}
  {
    assert s == [s[0]] + s[1..];
    HeadIsNewest(s, key);
    forall z | z in rest
      ensures key(s[0]) >= key(z)
    {
      assert z in multiset(rest);
      if z != x {
        assert z in multiset(s[1..]);
        assert z in s;
      }
    }
    ConsNewestFirst(s[0], rest, key);
  }

  /** The stable sort by `key`, newest first. */
  function SortNewestFirst<T>(s: seq<T>, key: T -> int): (r: seq<T>)
    ensures NewestFirst(r, key)
    ensures multiset(r) == multiset(s)
  {
    if s == [] then []
    else
      assert s == s[..|s| - 1] + [s[|s| - 1]];
      Insert(s[|s| - 1], SortNewestFirst(s[..|s| - 1], key), key)
  }

  /** `getFilteredTransactions`. */
  function FilteredTransactions(txs: seq<Transaction>, range: TimeRange, now: Date): seq<Transaction>
  {
    SortNewestFirst(Filter(txs, InRange(range, now)), DateKey())
  }

  /** The export holds exactly the transactions in the range, each as often
      as in the list, newest first. */
  lemma FilteredShape(txs: seq<Transaction>, range: TimeRange, now: Date)
    ensures var r := FilteredTransactions(txs, range, now);
            && NewestFirst(r, DateKey())
            && multiset(r) == multiset(Filter(txs, InRange(range, now)))
            && forall t :: t in r <==> t in txs && InRangeOf(range, now, t)
  {
    var r := FilteredTransactions(txs, range, now);
    var kept := Filter(txs, InRange(range, now));
    forall t
      ensures t in r <==> t in kept
    {
      assert t in r <==> t in multiset(r);
      assert t in kept <==> t in multiset(kept);
    }
  }

  /** A transaction of this month is in this year's export, and the `all`
      export is the whole list. */
  lemma RangesNest(txs: seq<Transaction>, now: Date, t: Transaction)
    ensures InRangeOf(Month, now, t) ==> InRangeOf(Year, now, t)
    ensures multiset(FilteredTransactions(txs, All, now)) == multiset(txs)
  {
    var p := InRange(All, now);
    assert forall i :: 0 <= i < |txs| ==> p(txs[i]);
    FilterAll(txs, p);
  }

  /** `n.toFixed(2)` for an amount of `cents` hundredths. */
  function AmountText(cents: int): (r: string)
    ensures forall i :: 0 <= i < |r| ==> IsDigit(r[i]) || r[i] == '-' || r[i] == '.'
  {
    var size := if cents < 0 then -cents else cents;
    (if cents < 0 then "-" else "") + NatText(size / 100) + "." + PadNat(size % 100, 2)
  }

  /** Reads "[-]digits.dd" back as a number of cents. */
  function ReadAmount(s: string): Option<int>
  {
    if |s| < 4 || s[|s| - 3] != '.' then None
    else
      var head := s[..|s| - 3];
      var negative := head[0] == '-';
      match ReadDigits(if negative then head[1..] else head, s[|s| - 2..])
      case None => None
      case Some(size) =>
        var cents: int := if negative then -(size as int) else size;
        Some(cents)
  }

  /** The cents written by whole digits and fraction digits around a point. */
  function ReadDigits(whole: string, fraction: string): Option<nat>
  {
    if whole == [] || !AllDigits(whole) || !AllDigits(fraction) then None
    else Some(100 * ParseNat(whole) + ParseNat(fraction))
  }

  /** Below 100 a number takes at most two digits. */
  lemma TwoDigits(n: nat)
    requires n < 100
    ensures |NatText(n)| <= 2
  {
    if n >= 10 {
      assert NatText(n) == NatText(n / 10) + [DigitChar(n % 10)];
    }
  }

  lemma HundredsAndCents(n: nat)
    ensures 100 * (n / 100) + n % 100 == n
  {
  }

  /** A text made of a sign, digits, a point and two digits reads back as
      its sign times its digits. */
  lemma ReadSignedAmount(r: string, negative: bool, whole: string, fraction: string)
    requires whole != [] && AllDigits(whole) && AllDigits(fraction)
    requires |r| >= 4 && r[|r| - 3] == '.' && r[|r| - 2..] == fraction
    requires r[..|r| - 3] == (if negative then "-" else "") + whole
    ensures var size := 100 * ParseNat(whole) + ParseNat(fraction);
            ReadAmount(r) == Some(if negative then -size else size)
  {
    var head := r[..|r| - 3];
    var size := 100 * ParseNat(whole) + ParseNat(fraction);
    assert ReadDigits(whole, fraction) == Some(size);
    if negative {
      assert head[0] == '-' && head[1..] == whole;
      assert ReadAmount(r) == Some(-size);
    } else {
      assert head == whole && IsDigit(whole[0]);
      assert ReadAmount(r) == Some(size);
    }
  }

  /** Where the point of the amount text falls, and what lies on each side. */
  lemma AmountParts(cents: int)
    ensures var r := AmountText(cents);
            var size := if cents < 0 then -cents else cents;
            && |r| >= 4 && r[|r| - 3] == '.' && IsDigit(r[|r| - 2]) && IsDigit(r[|r| - 1])
            && r[..|r| - 3] == (if cents < 0 then "-" else "") + NatText(size / 100)
            && r[|r| - 2..] == PadNat(size % 100, 2)
  {
    var size := if cents < 0 then -cents else cents;
    var sign := if cents < 0 then "-" else "";
    var whole, fraction := NatText(size / 100), PadNat(size % 100, 2);
    TwoDigits(size % 100);
    var r := AmountText(cents);
    assert r == (sign + whole) + "." + fraction;
    assert r[..|r| - 3] == sign + whole && r[|r| - 2..] == fraction;
    assert r[|r| - 2] == fraction[0] && r[|r| - 1] == fraction[1];
  }

  /** The amount always has exactly two decimals, and they and the whole
      part read back as the amount. */
  lemma AmountRoundTrip(cents: int)
    ensures var r := AmountText(cents);
            |r| >= 4 && r[|r| - 3] == '.' && IsDigit(r[|r| - 2]) && IsDigit(r[|r| - 1])
    ensures ReadAmount(AmountText(cents)) == Some(cents)
  {
    var size := if cents < 0 then -cents else cents;
    AmountParts(cents);
    ReadSignedAmount(AmountText(cents), cents < 0, NatText(size / 100), PadNat(size % 100, 2));
    NatTextRoundTrip(size / 100);
    HundredsAndCents(size);
  }

  /** The PDF's money text. */
  function Money(cents: int): string
  {
    "$" + AmountText(cents)
  }

  /** The header's field names, in export order. */
  const HeaderNames: seq<string> := ["Date", "Category", "Description", "Type", "Amount"]

  const HeaderCells: seq<Cell> :=
    [Bare("Date"), Bare("Category"), Bare("Description"), Bare("Type"), Bare("Amount")]

  /** One CSV row: the description quoted with its quotes doubled, the
      other fields bare. */
  function RowCells(t: Transaction): seq<Cell>
  {
    [Bare(IsoText(t.date)), Bare(CategoryName(t.category)), Quoted(t.description),
     Bare(TypeName(t.kind)), Bare(AmountText(t.amount))]
  }

  /** What a reader gets back for one row. */
  function RowValues(t: Transaction): seq<string>
  {
    [IsoText(t.date), CategoryName(t.category), t.description, TypeName(t.kind), AmountText(t.amount)]
  }

  function Rows(data: seq<Transaction>): (r: seq<seq<Cell>>)
    ensures |r| == |data| && forall i :: 0 <= i < |data| ==> r[i] == RowCells(data[i])
  {
    seq(|data|, i requires 0 <= i < |data| => RowCells(data[i]))
  }

  /** The header record, then one record per transaction. */
  function Records(data: seq<Transaction>): seq<seq<Cell>>
  {
    [HeaderCells] + Rows(data)
  }

  /** `generateCSV`'s text: the header line and one line per transaction,
      joined with "\n". */
  function CsvText(data: seq<Transaction>): string
  {
    DocumentText(Records(data))
  }

  /** Five fields joined with commas are never an empty line. */
  lemma FiveCellsNotEmpty(cells: seq<Cell>)
    requires |cells| == 5
    ensures RecordText(cells) != []
  {
    assert |Texts(cells)| > 1;
    assert RecordText(cells) == Texts(cells)[0] + "," + Join(Texts(cells)[1..], ",");
  }

  /** Digits, signs and points need no quoting. */
  lemma NumericPlain(s: string)
    requires forall i :: 0 <= i < |s| ==> IsDigit(s[i]) || s[i] == '-' || s[i] == '.'
    ensures Writable(Bare(s))
  {
  }

  lemma CategoryNamePlain(c: Category)
    ensures Writable(Bare(CategoryName(c)))
  {
    var name := CategoryName(c);
    assert forall ch :: ch in name ==> PlainChar(ch) by {
      CategoryNameChars(c);
    }
    assert forall i :: 0 <= i < |name| ==> name[i] in name;
  }

  lemma CategoryNameChars(c: Category)
    ensures forall ch :: ch in CategoryName(c) ==> PlainChar(ch)
  {
    match c
    case Housing =>
    case Food =>
    case Transport =>
    case Utilities =>
    case Entertainment =>
    case Healthcare =>
    case Personal =>
    case Shopping =>
    case Income =>
    case Other =>
  }

  lemma TypeNamePlain(k: TransactionType)
    ensures Writable(Bare(TypeName(k)))
  {
    match k
    case Expense =>
    case Income =>
  }

  lemma RowWellFormed(t: Transaction)
    ensures WellFormed(RowCells(t))
  {
    FiveCellsNotEmpty(RowCells(t));
    RowCellsWritable(t);
  }

  lemma RowCellsWritable(t: Transaction)
    ensures forall i :: 0 <= i < |RowCells(t)| ==> Writable(RowCells(t)[i])
  {
    DateCellPlain(t.date);
    CategoryNamePlain(t.category);
    TypeNamePlain(t.kind);
    AmountCellPlain(t.amount);
  }

  lemma DateCellPlain(d: Date)
    ensures Writable(Bare(IsoText(d)))
  {
    NumericPlain(IsoText(d));
  }

  lemma AmountCellPlain(cents: int)
    ensures Writable(Bare(AmountText(cents)))
  {
    NumericPlain(AmountText(cents));
  }

  /** The header line can be written and reads back as the five column names. */
  lemma HeaderWellFormed()
    ensures WellFormed(HeaderCells)
    ensures Values(HeaderCells) == HeaderNames
  {
    FiveCellsNotEmpty(HeaderCells);
    forall i | 0 <= i < 5
      ensures Writable(HeaderCells[i])
    {
      HeaderNamePlain(HeaderCells[i].text);
    }
  }

  lemma HeaderNamePlain(name: string)
    requires name in HeaderNames
    ensures Writable(Bare(name))
  {
    assert forall ch :: ch in name ==> PlainChar(ch);
    assert forall j :: 0 <= j < |name| ==> name[j] in name;
  }

  /** Every record of the export can be written and read back. */
  lemma RecordsWellFormed(data: seq<Transaction>)
    ensures forall i :: 0 <= i < |Records(data)| ==> WellFormed(Records(data)[i])
  {
    var records := Records(data);
    HeaderWellFormed();
    forall i | 0 <= i < |records|
      ensures WellFormed(records[i])
    {
      if i > 0 {
        RowWellFormed(data[i - 1]);
      }
    }
  }

  lemma RowValuesRead(t: Transaction)
    ensures Values(RowCells(t)) == RowValues(t)
  {
  }

  /** The values of one record per transaction, in export order. */
  function DataValues(data: seq<Transaction>): (r: seq<seq<string>>)
    ensures |r| == |data| && forall i :: 0 <= i < |data| ==> r[i] == RowValues(data[i])
  {
    seq(|data|, i requires 0 <= i < |data| => RowValues(data[i]))
  }

  /** What a reader should get back from the export: the column names, then
      each transaction's five values, in export order. */
  function ExportValues(data: seq<Transaction>): (r: seq<seq<string>>)
    ensures |r| == |data| + 1 && r[0] == HeaderNames
    ensures r[1..] == DataValues(data)
  {
    [HeaderNames] + DataValues(data)
  }

  /** The header record reads back as the header's names. */
  lemma HeaderValue()
    ensures DocumentValues([HeaderCells]) == [HeaderNames]
  {
    HeaderWellFormed();
  }

  /** The transactions' records read back as their values. */
  lemma RowsValues(data: seq<Transaction>)
    ensures DocumentValues(Rows(data)) == DataValues(data)
  {
    forall i | 0 <= i < |data|
      ensures DocumentValues(Rows(data))[i] == DataValues(data)[i]
    {
      RowValuesRead(data[i]);
    }
  }

  /** The values of the written records are the export's values. */
  lemma RecordValues(data: seq<Transaction>)
    ensures DocumentValues(Records(data)) == ExportValues(data)
  {
    DocumentValuesAppend([HeaderCells], Rows(data));
    HeaderValue();
    RowsValues(data);
  }

  /** Reading the CSV back gives the header, then exactly one record per
      transaction in export order, with each description recovered from its
      quoting, whatever commas, quotes or line breaks it holds. */
  lemma CsvRoundTrip(data: seq<Transaction>)
    ensures ReadDocument(CsvText(data)) == ExportValues(data)
  {
    RecordsWellFormed(data);
    DocumentRoundTrip(Records(data));
    RecordValues(data);
  }

  function IsIncomeRow(): Transaction -> bool
  {
    (t: Transaction) => t.kind == TransactionType.Income
  }

  function NotIncomeRow(): Transaction -> bool
  {
    (t: Transaction) => t.kind != TransactionType.Income
  }

  /** The totals loop of `generatePDF`: income rows on one side, every other
      row on the other. */
  method SummaryTotals(data: seq<Transaction>) returns (totalIncome: int, totalExpense: int)
    ensures totalIncome == SumWhere(data, IsIncomeRow(), AmountOf)
    ensures totalExpense == SumWhere(data, NotIncomeRow(), AmountOf)
  {
    totalIncome, totalExpense := 0, 0;
    ghost var seen: seq<Transaction> := [];
    for i := 0 to |data|
      invariant seen == data[..i]
      invariant SummarySoFar(totalIncome, totalExpense, seen)
    {
      var t := data[i];
      SummaryStep(totalIncome, totalExpense, seen, t);
      if t.kind == TransactionType.Income {
        totalIncome := totalIncome + t.amount;
      } else {
        totalExpense := totalExpense + t.amount;
      }
      PrefixSnoc(data, i);
      seen := seen + [t];
    }
    assert data[..|data|] == data;
  }

  /** The loop's totals after the rows `seen`. */
  predicate SummarySoFar(totalIncome: int, totalExpense: int, seen: seq<Transaction>)
  {
    totalIncome == SumWhere(seen, IsIncomeRow(), AmountOf)
    && totalExpense == SumWhere(seen, NotIncomeRow(), AmountOf)
  }

  /** One more row adds its amount to the income total or to the expense
      total, by its type. */
  lemma SummaryStep(totalIncome: int, totalExpense: int, seen: seq<Transaction>, t: Transaction)
    requires SummarySoFar(totalIncome, totalExpense, seen)
    ensures t.kind == TransactionType.Income ==> SummarySoFar(totalIncome + t.amount, totalExpense, seen + [t])
    ensures t.kind != TransactionType.Income ==> SummarySoFar(totalIncome, totalExpense + t.amount, seen + [t])
  {
    SumWhereSnoc(seen, t, IsIncomeRow(), AmountOf);
    SumWhereSnoc(seen, t, NotIncomeRow(), AmountOf);
  }

  /** Income and expense totals together account for every amount once. */
  lemma TotalsCoverAll(data: seq<Transaction>)
    ensures SumWhere(data, IsIncomeRow(), AmountOf) + SumWhere(data, NotIncomeRow(), AmountOf)
            == Sum(data, AmountOf)
  {
    SumWhereSplit(data, IsIncomeRow(), NotIncomeRow(), AmountOf);
  }

  /** The summary row for given totals: income, expenses, and their
      difference. */
  function SummaryRow(income: int, expense: int): seq<string>
  {
    [Money(income), Money(expense), Money(income - expense)]
  }

  /** The summary row of the exported data. */
  function PdfSummary(data: seq<Transaction>): (r: seq<string>)
    ensures |r| == 3
  {
    SummaryRow(SumWhere(data, IsIncomeRow(), AmountOf), SumWhere(data, NotIncomeRow(), AmountOf))
  }

  /** Each cell of the summary is a dollar sign and an amount that reads back
      as, in turn, the income total, the expense total and their difference,
      the net. */
  lemma PdfSummaryTotals(data: seq<Transaction>)
    ensures var r := PdfSummary(data);
            var income := SumWhere(data, IsIncomeRow(), AmountOf);
            var expense := SumWhere(data, NotIncomeRow(), AmountOf);
            SummaryReads(r, income, expense)
  {
    SummaryRowReads(SumWhere(data, IsIncomeRow(), AmountOf), SumWhere(data, NotIncomeRow(), AmountOf));
  }

  /** Three money cells that read back as an income, an expense and the net. */
  predicate SummaryReads(r: seq<string>, income: int, expense: int)
  {
    && |r| == 3
    && r[0] != [] && r[0][0] == '$' && ReadAmount(r[0][1..]) == Some(income)
    && r[1] != [] && r[1][0] == '$' && ReadAmount(r[1][1..]) == Some(expense)
    && r[2] != [] && r[2][0] == '$' && ReadAmount(r[2][1..]) == Some(income - expense)
  }

  lemma SummaryRowReads(income: int, expense: int)
    ensures SummaryReads(SummaryRow(income, expense), income, expense)
  {
    MoneyReads(income);
    MoneyReads(expense);
    MoneyReads(income - expense);
  }

  /** Money text is a dollar sign and the amount, which reads back. */
  lemma MoneyReads(cents: int)
    ensures |Money(cents)| > 0 && Money(cents)[0] == '$'
    ensures ReadAmount(Money(cents)[1..]) == Some(cents)
  {
    AmountRoundTrip(cents);
    assert Money(cents)[1..] == AmountText(cents);
  }

  function PdfRow(t: Transaction): seq<string>
  {
    [IsoText(t.date), CategoryName(t.category), t.description, TypeName(t.kind), Money(t.amount)]
  }

  function PdfRows(data: seq<Transaction>): (r: seq<seq<string>>)
    ensures |r| == |data| && forall i :: 0 <= i < |data| ==> r[i] == PdfRow(data[i])
  {
    seq(|data|, i requires 0 <= i < |data| => PdfRow(data[i]))
  }

  function RangeName(range: TimeRange): string
  {
    match range
    case Month => "month"
    case Year => "year"
    case All => "all"
  }

  function ReportTitle(range: TimeRange): string
  {
    "Butterfly Budget Report - "
    + match range
      case Month => "Current Month"
      case Year => "Current Year"
      case All => "All Time"
  }

  function FileName(range: TimeRange, extension: string): string
  {
    "butterfly_budget_report_" + RangeName(range) + "." + extension
  }

  const NoDataMessage := "No data found for the selected time range."

  /** What an export hands to the browser; the layout of the PDF page is left
      out, its title, summary row and detail rows are kept. */
  datatype ExportOutcome =
    | NoData(error: string)
    | CsvFile(fileName: string, content: string)
    | PdfFile(fileName: string, title: string, summary: seq<string>, rows: seq<seq<string>>)

  /** `handleExport`: nothing in range is an error and no file; otherwise
      the file in the chosen format. */
  method HandleExport(txs: seq<Transaction>, range: TimeRange, format: ExportFormat, now: Date)
    returns (outcome: ExportOutcome)
    ensures outcome.NoData? <==> FilteredTransactions(txs, range, now) == []
    ensures outcome.NoData? ==> outcome.error == NoDataMessage
    ensures var data := FilteredTransactions(txs, range, now);
            data != [] && format == CsvFormat ==>
              outcome == CsvFile(FileName(range, "csv"), CsvText(data))
    ensures var data := FilteredTransactions(txs, range, now);
            data != [] && format == PdfFormat ==>
              outcome == PdfFile(FileName(range, "pdf"), ReportTitle(range), PdfSummary(data), PdfRows(data))
  {
    var data := FilteredTransactions(txs, range, now);
    if |data| == 0 {
      return NoData(NoDataMessage);
    }
    if format == CsvFormat {
      outcome := CsvFile(FileName(range, "csv"), CsvText(data));
    } else {
      var totalIncome, totalExpense := SummaryTotals(data);
      var summary := SummaryRow(totalIncome, totalExpense);
      outcome := PdfFile(FileName(range, "pdf"), ReportTitle(range), summary, PdfRows(data));
    }
  }
}
