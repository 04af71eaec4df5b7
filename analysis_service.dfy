/** Spending analytics: the shopping-list forecast, which predicts the next
    purchase of regularly bought groceries, and the year-over-year comparison
    of this month's spending. */
module AnalysisService {
  import opened Seqs
  import opened Strings
  import opened Dates
  import opened Types
  import opened BudgetService

  // ---------------------------------------------------------------------
  // Candidates and their grouping by normalised description
  // ---------------------------------------------------------------------

  /** Selects the expenses in Food or Shopping whose date, read as its
      midnight, is no earlier than the same instant one calendar year before
      `now`. */
  function FoodCandidate(now: Instant): Transaction -> bool
  {
    t => IsExpense(t) && (t.category == Food || t.category == Shopping)
         && DayNumber(t.date) as real >= DayNumber(OneYearBefore(now.day)) as real + now.elapsed
  }

  /** A purchase made on the day one year back counts only when the clock
      reads exactly midnight; any later day always counts, any earlier day
      never. */
  lemma FoodCandidateCutoff(now: Instant, t: Transaction)
    ensures FoodCandidate(now)(t)
            <==> && IsExpense(t) && (t.category == Food || t.category == Shopping)
                 && (|| DayNumber(t.date) > DayNumber(OneYearBefore(now.day))
                     || (DayNumber(t.date) == DayNumber(OneYearBefore(now.day)) && now.elapsed == 0.0))
  {
  }

  /** The normalised item name: `description.trim().toLowerCase()`. */
  function NameKey(description: string): string
  {
    ToLower(Trim(description))
  }

  function Key(t: Transaction): string
  {
    NameKey(t.description)
  }

  /** Descriptions naming a shop rather than an item. */
  const GenericKeys: seq<string> := ["grocery", "groceries", "supermarket", "market", "food"]

  /** The purchases of one normalised item: the description it was first
      seen under and its purchase dates, in the order seen. */
  datatype Group = Group(name: string, dates: seq<Date>)

  /** The grouping record: its keys in insertion order and the group of each. */
  datatype Grouping = Grouping(order: seq<string>, groups: map<string, Group>)

  /** Files one transaction, whose normalised name is `key`, into the
      grouping: one pass of the grouping loop. */
  function AddPurchase(g: Grouping, t: Transaction, key: string): Grouping
  {
    if key in GenericKeys then g
    else if key !in g.groups then
      Grouping(g.order + [key], g.groups[key := Group(t.description, [t.date])])
    else
      Grouping(g.order, g.groups[key := g.groups[key].(dates := g.groups[key].dates + [t.date])])
  }

  /** The grouping after the loop has seen all of `s`, naming each transaction
      by `keyOf` (which is `Key`; the facts below hold for any naming). */
  function GroupsOf(s: seq<Transaction>, keyOf: Transaction -> string): Grouping
  {
    if |s| == 0 then Grouping([], map[])
    else AddPurchase(GroupsOf(s[..|s| - 1], keyOf), s[|s| - 1], keyOf(s[|s| - 1]))
  }

  /** The names a plain object already answers from its prototype once
      lower-cased: `itemDates[key]` is then an inherited member, not a group. */
  const InheritedKeys: seq<string> := ["constructor", "__proto__"]

  /** The grouping loop as written over a plain object: for an inherited
      name the "not yet seen" test fails, no group is made, and pushing onto
      the missing `dates` throws (`None`). */
  function AddPurchaseAsWritten(g: Option<Grouping>, t: Transaction, key: string): Option<Grouping>
  {
    if g.None? then None
    else if key in GenericKeys then g
    else if key !in g.value.groups && key in InheritedKeys then None
    else Some(AddPurchase(g.value, t, key))
  }

  function GroupsOfAsWritten(s: seq<Transaction>, keyOf: Transaction -> string): Option<Grouping>
  {
    if |s| == 0 then Some(Grouping([], map[]))
    else AddPurchaseAsWritten(GroupsOfAsWritten(s[..|s| - 1], keyOf), s[|s| - 1], keyOf(s[|s| - 1]))
  }

  /** The loop as written throws as soon as one candidate has an inherited
      name. */
  lemma {:induction false} InheritedKeyThrows(s: seq<Transaction>, keyOf: Transaction -> string, i: int)
    requires 0 <= i < |s| && keyOf(s[i]) in InheritedKeys
    ensures GroupsOfAsWritten(s, keyOf) == None
  {
    if i < |s| - 1 {
      assert s[..|s| - 1][i] == s[i];
      InheritedKeyThrows(s[..|s| - 1], keyOf, i);
    } else {
      GroupsAvoidInherited(s[..|s| - 1], keyOf);
    }
  }

  /** The loop never files a group under an inherited name. */
  lemma {:induction false} GroupsAvoidInherited(s: seq<Transaction>, keyOf: Transaction -> string)
    ensures GroupsOfAsWritten(s, keyOf).Some? ==>
              forall k :: k in InheritedKeys ==> k !in GroupsOfAsWritten(s, keyOf).value.groups
  {
    if |s| > 0 {
      GroupsAvoidInherited(s[..|s| - 1], keyOf);
    }
  }

  /** Without inherited names the loop as written builds the grouping the
      model uses. */
  lemma {:induction false} GroupsAsWrittenAgree(s: seq<Transaction>, keyOf: Transaction -> string)
    requires forall i :: 0 <= i < |s| ==> keyOf(s[i]) !in InheritedKeys
    ensures GroupsOfAsWritten(s, keyOf) == Some(GroupsOf(s, keyOf))
  {
    if |s| > 0 {
      GroupsAsWrittenAgree(s[..|s| - 1], keyOf);
    }
  }

  /** A single grocery purchase described "constructor" makes the forecast
      as written throw. */
  lemma ConstructorPurchaseThrows(t: Transaction, now: Instant)
    requires FoodCandidate(now)(t) && t.description == "constructor"
    ensures GroupsOfAsWritten(Filter([t], FoodCandidate(now)), Key) == None
  {
    ConstructorIsInherited(t.description);
    InheritedCandidateThrows(t, now);
  }

  lemma ConstructorIsInherited(s: string)
    requires s == "constructor"
    ensures NameKey(s) in InheritedKeys
  {
    ConstructorLowered(s);
  }

  /** One candidate under an inherited name is enough for the loop as
      written to throw. */
  lemma InheritedCandidateThrows(t: Transaction, now: Instant)
    requires FoodCandidate(now)(t) && Key(t) in InheritedKeys
    ensures GroupsOfAsWritten(Filter([t], FoodCandidate(now)), Key) == None
  {
    assert Filter([t], FoodCandidate(now)) == [t];
    InheritedKeyThrows([t], Key, 0);
  }

  /** Selects the transactions named `k`. */
  function HasKey(keyOf: Transaction -> string, k: string): Transaction -> bool
  {
    t => keyOf(t) == k
  }

  /** The dates of a list of transactions, in order. */
  function DatesOf(ts: seq<Transaction>): (r: seq<Date>)
    ensures |r| == |ts| && forall i :: 0 <= i < |ts| ==> r[i] == ts[i].date
  {
    seq(|ts|, i requires 0 <= i < |ts| => ts[i].date)
  }

  /** `s[i]` is the first transaction of `s` named `k`. */
  predicate FirstWithKey(s: seq<Transaction>, keyOf: Transaction -> string, k: string, i: int)
  {
    0 <= i < |s| && keyOf(s[i]) == k && forall j :: 0 <= j < i ==> keyOf(s[j]) != k
  }

  /** Some transaction of `s` is named `k`. */
  ghost predicate Occurs(s: seq<Transaction>, keyOf: Transaction -> string, k: string)
  {
    exists i :: 0 <= i < |s| && keyOf(s[i]) == k
  }

  /** The keys of the grouping: listed once each, in `order` and in `groups`
      alike, and exactly the non-generic names that occur in `s`. */
  ghost predicate KeysOf(g: Grouping, s: seq<Transaction>, keyOf: Transaction -> string)
  {
    && Distinct(g.order)
    && (forall k :: k in g.groups <==> k in g.order)
    && (forall k :: k in g.groups <==> k !in GenericKeys && Occurs(s, keyOf, k))
  }

  /** Each group holds the dates of all the transactions with its name, in order. */
  ghost predicate DatesCollected(g: Grouping, s: seq<Transaction>, keyOf: Transaction -> string)
  {
    forall k :: k in g.groups ==> g.groups[k].dates == DatesOf(Filter(s, HasKey(keyOf, k)))
  }

  /** Each group is named after the first transaction with its name. */
  ghost predicate FirstNamed(g: Grouping, s: seq<Transaction>, keyOf: Transaction -> string)
  {
    forall k :: k in g.groups ==>
      exists i :: FirstWithKey(s, keyOf, k, i) && s[i].description == g.groups[k].name
  }

  /** What the grouping holds, stated without the loop. */
  ghost predicate GroupedBy(g: Grouping, s: seq<Transaction>, keyOf: Transaction -> string)
  {
    KeysOf(g, s, keyOf) && DatesCollected(g, s, keyOf) && FirstNamed(g, s, keyOf)
  }

  lemma OccursSnoc(s: seq<Transaction>, keyOf: Transaction -> string, t: Transaction, k: string)
    ensures Occurs(s + [t], keyOf, k) <==> Occurs(s, keyOf, k) || keyOf(t) == k
  {
    var s' := s + [t];
    if Occurs(s', keyOf, k) {
      var i :| 0 <= i < |s'| && keyOf(s'[i]) == k;
      if i < |s| { assert s'[i] == s[i]; } else { assert s'[i] == t; }
    }
    if Occurs(s, keyOf, k) {
      var i :| 0 <= i < |s| && keyOf(s[i]) == k;
      assert keyOf(s'[i]) == k;
    }
    assert keyOf(s'[|s|]) == keyOf(t);
  }

  lemma AddPurchaseKeys(g: Grouping, s: seq<Transaction>, keyOf: Transaction -> string, t: Transaction)
    requires KeysOf(g, s, keyOf)
    ensures KeysOf(AddPurchase(g, t, keyOf(t)), s + [t], keyOf)
  {
    forall k {
      OccursSnoc(s, keyOf, t, k);
    }
    var key := keyOf(t);
    if key !in GenericKeys && key !in g.groups {
      assert key !in g.order;
    }
  }

  lemma AddPurchaseDatesAt(g: Grouping, s: seq<Transaction>, keyOf: Transaction -> string, t: Transaction, k: string)
    requires k in g.groups ==> k !in GenericKeys && g.groups[k].dates == DatesOf(Filter(s, HasKey(keyOf, k)))
    requires k !in g.groups ==> !Occurs(s, keyOf, k)
    requires k in AddPurchase(g, t, keyOf(t)).groups
    ensures AddPurchase(g, t, keyOf(t)).groups[k].dates == DatesOf(Filter(s + [t], HasKey(keyOf, k)))
  {
    var s' := s + [t];
    assert s'[..|s'| - 1] == s;
    var f := Filter(s, HasKey(keyOf, k));
    assert Filter(s', HasKey(keyOf, k)) == f + (if keyOf(t) == k then [t] else []);
    if keyOf(t) == k {
      assert DatesOf(f + [t]) == DatesOf(f) + [t.date];
      if k !in g.groups {
        FilterNone(s, HasKey(keyOf, k));
        assert k !in GenericKeys;
        assert AddPurchase(g, t, k).groups[k] == Group(t.description, [t.date]);
        assert Filter(s', HasKey(keyOf, k)) == [t];
        assert DatesOf([t]) == [t.date];
      }
    } else {
      assert f + [] == f;
    }
  }

  lemma AddPurchaseDates(g: Grouping, s: seq<Transaction>, keyOf: Transaction -> string, t: Transaction)
    requires KeysOf(g, s, keyOf) && DatesCollected(g, s, keyOf)
    ensures DatesCollected(AddPurchase(g, t, keyOf(t)), s + [t], keyOf)
  {
    forall k | k in AddPurchase(g, t, keyOf(t)).groups
      ensures AddPurchase(g, t, keyOf(t)).groups[k].dates == DatesOf(Filter(s + [t], HasKey(keyOf, k)))
    {
      AddPurchaseDatesAt(g, s, keyOf, t, k);
    }
  }

  lemma AddPurchaseFirstAt(g: Grouping, s: seq<Transaction>, keyOf: Transaction -> string, t: Transaction, k: string)
    requires k in g.groups ==> exists i :: FirstWithKey(s, keyOf, k, i) && s[i].description == g.groups[k].name
    requires k !in g.groups ==> !Occurs(s, keyOf, k)
    requires k in AddPurchase(g, t, keyOf(t)).groups
    ensures exists i :: FirstWithKey(s + [t], keyOf, k, i)
                        && (s + [t])[i].description == AddPurchase(g, t, keyOf(t)).groups[k].name
  {
    var s' := s + [t];
    if k in g.groups {
      var i :| FirstWithKey(s, keyOf, k, i) && s[i].description == g.groups[k].name;
      assert FirstWithKey(s', keyOf, k, i);
    } else {
      forall j | 0 <= j < |s| ensures keyOf(s'[j]) != k {
        assert s'[j] == s[j];
      }
      assert FirstWithKey(s', keyOf, k, |s|);
    }
  }

  lemma AddPurchaseFirst(g: Grouping, s: seq<Transaction>, keyOf: Transaction -> string, t: Transaction)
    requires KeysOf(g, s, keyOf) && FirstNamed(g, s, keyOf)
    ensures FirstNamed(AddPurchase(g, t, keyOf(t)), s + [t], keyOf)
  {
    forall k | k in AddPurchase(g, t, keyOf(t)).groups
      ensures exists i :: FirstWithKey(s + [t], keyOf, k, i)
                          && (s + [t])[i].description == AddPurchase(g, t, keyOf(t)).groups[k].name
    {
      AddPurchaseFirstAt(g, s, keyOf, t, k);
    }
  }

  lemma {:induction false} GroupsOfShape(s: seq<Transaction>, keyOf: Transaction -> string)
    ensures GroupedBy(GroupsOf(s, keyOf), s, keyOf)
  {
    if |s| > 0 {
      var init, t := s[..|s| - 1], s[|s| - 1];
      GroupsOfShape(init, keyOf);
      assert s == init + [t];
      AddPurchaseKeys(GroupsOf(init, keyOf), init, keyOf, t);
      AddPurchaseDates(GroupsOf(init, keyOf), init, keyOf, t);
      AddPurchaseFirst(GroupsOf(init, keyOf), init, keyOf, t);
    }
  }

  /** Every key in the order has a group. */
  lemma OrderKeyed(s: seq<Transaction>, keyOf: Transaction -> string)
    ensures var g := GroupsOf(s, keyOf);
            forall j :: 0 <= j < |g.order| ==> g.order[j] in g.groups
  {
    GroupsOfShape(s, keyOf);
  }

  // ---------------------------------------------------------------------
  // Purchase cadence and the forecast of one item
  // ---------------------------------------------------------------------

  /** The day numbers of a list of dates, in order. */
  function DayNumbers(ds: seq<Date>): (r: seq<int>)
    ensures |r| == |ds| && forall i :: 0 <= i < |ds| ==> r[i] == DayNumber(ds[i])
  {
    seq(|ds|, i requires 0 <= i < |ds| => DayNumber(ds[i]))
  }

  function Abs(x: int): int
  {
    if x < 0 then -x else x
  }

  /** The total of the whole-day gaps between consecutive elements, as the
      averaging loop adds them up. Dates are whole days, so rounding each gap
      up changes nothing. */
  function GapSum(a: seq<int>): int
  {
    if |a| <= 1 then 0 else GapSum(a[..|a| - 1]) + Abs(a[|a| - 1] - a[|a| - 2])
  }

  /** On sorted days the gaps add up to the span from first to last. */
  lemma {:induction false} GapSumOfSorted(a: seq<int>)
    requires |a| >= 1 && Sorted(a)
    ensures GapSum(a) == a[|a| - 1] - a[0]
  {
    if |a| > 1 {
      var init := a[..|a| - 1];
      assert Sorted(init);
      GapSumOfSorted(init);
    }
  }

  /** The average number of days between purchases, stated without sorting:
      the span of the purchase days over the number of gaps. */
  function Cadence(days: seq<int>): (avg: real)
    requires |days| >= 2
    ensures avg >= 0.0
  {
    (Max(days) - Min(days)) as real / (|days| - 1) as real
  }

  /** Averaging the gaps of the sorted days, as the source does, gives the
      cadence, and the last sorted day is the latest purchase. */
  lemma CadenceIsMeanGap(a: seq<int>, days: seq<int>)
    requires |days| >= 2 && Sorted(a) && multiset(a) == multiset(days)
    ensures |a| == |days|
    ensures GapSum(a) as real / (|a| - 1) as real == Cadence(days)
    ensures a[|a| - 1] == Max(days)
  {
    SortedEnds(a, days);
    GapSumOfSorted(a);
    CadenceOfSpan(days, GapSum(a), |a|);
  }

  /** A span equal to the days' and a count equal to theirs give their cadence. */
  lemma CadenceOfSpan(days: seq<int>, span: int, count: int)
    requires |days| >= 2 && span == Max(days) - Min(days) && count == |days|
    ensures span as real / (count - 1) as real == Cadence(days)
  {
  }

  /** `Math.round`: halves round up. */
  function Round(x: real): (n: int)
    ensures n as real - 0.5 <= x < n as real + 0.5
  {
    (x + 0.5).Floor
  }

  /** The forecast for an item last bought on day `last` and bought every
      `avg` days on average, at instant `at` of the day count: an item
      exactly when the next purchase, one average gap after the last, falls
      within the week either side of `at`. It is dated on the day that
      purchase falls on, counts the whole days since the last purchase and
      gives the cadence rounded to a whole number of days. */
  function WindowPrediction(name: string, last: int, avg: real, at: real): (r: Option<PredictedItem>)
    requires avg >= 0.0
    ensures r.Some? <==> at - 7.0 <= last as real + avg <= at + 7.0
    ensures r.Some? ==>
              && r.value.name == name
              && r.value.lastBoughtDate == last
              && r.value.daysAgo as real <= at - last as real < r.value.daysAgo as real + 1.0
              && r.value.predictedDate as real <= last as real + avg < r.value.predictedDate as real + 1.0
              && r.value.avgFrequencyDays as real - 0.5 <= avg < r.value.avgFrequencyDays as real + 0.5
              && r.value.avgFrequencyDays >= 0
  {
    var next := last as real + avg;
    if at - 7.0 <= next <= at + 7.0 then
      Some(PredictedItem(name, last, (at - last as real).Floor, next.Floor, Round(avg)))
    else None
  }

  /** The forecast for one group of purchases: none for fewer than three
      purchases; otherwise an item exactly when the latest purchase plus the
      cadence falls within the week either side of now. The item is dated on
      that day, counts the whole days since the latest purchase and gives
      the cadence rounded. */
  function Prediction(g: Group, now: Instant): (r: Option<PredictedItem>)
    ensures r.Some? <==>
              && |g.dates| >= 3
              && Timestamp(now) - 7.0 <= Max(DayNumbers(g.dates)) as real + Cadence(DayNumbers(g.dates))
                                      <= Timestamp(now) + 7.0
    ensures r.Some? ==>
              && r.value.name == g.name
              && r.value.lastBoughtDate == Max(DayNumbers(g.dates))
              && (exists d :: d in g.dates && DayNumber(d) == r.value.lastBoughtDate)
              && (forall d :: d in g.dates ==> DayNumber(d) <= r.value.lastBoughtDate)
              && r.value.daysAgo == DayNumber(now.day) - r.value.lastBoughtDate
              && r.value.predictedDate == (r.value.lastBoughtDate as real + Cadence(DayNumbers(g.dates))).Floor
              && r.value.avgFrequencyDays == Round(Cadence(DayNumbers(g.dates)))
              && DayNumber(now.day) - 7 <= r.value.predictedDate <= DayNumber(now.day) + 7
  {
    if |g.dates| < 3 then None
    else
      var days := DayNumbers(g.dates);
      DayNumbersCover(g.dates);
      WindowPrediction(g.name, Max(days), Cadence(days), Timestamp(now))
  }

  lemma DayNumbersCover(ds: seq<Date>)
    ensures forall d :: d in ds ==> DayNumber(d) in DayNumbers(ds)
    ensures forall x :: x in DayNumbers(ds) ==> exists d :: d in ds && DayNumber(d) == x
  {
    var days := DayNumbers(ds);
    forall d | d in ds ensures DayNumber(d) in days {
      var i :| 0 <= i < |ds| && ds[i] == d;
      assert days[i] == DayNumber(d);
    }
    forall x | x in days ensures exists d :: d in ds && DayNumber(d) == x {
      var i :| 0 <= i < |days| && days[i] == x;
      assert ds[i] in ds;
    }
  }

  /** Three purchases a week apart, the last a week ago: due today at any
      time of day, every 7 days. */
  lemma WeeklyPurchaseExample(g: Group, now: Instant)
    requires |g.dates| == 3
    requires DayNumber(g.dates[1]) == DayNumber(g.dates[0]) + 7
    requires DayNumber(g.dates[2]) == DayNumber(g.dates[1]) + 7
    requires DayNumber(now.day) == DayNumber(g.dates[2]) + 7
    ensures Prediction(g, now)
            == Some(PredictedItem(g.name, DayNumber(g.dates[2]), 7, DayNumber(now.day), 7))
  {
    var d := DayNumber(g.dates[0]);
    var days := DayNumbers(g.dates);
    assert days == [d, d + 7, d + 14];
    WeeklyCadence(d);
    assert Round(7.0) == 7;
    assert ((d + 14) as real + 7.0).Floor == d + 21;
    var at := Timestamp(now);
    assert at == (d + 21) as real + now.elapsed;
    assert (at - (d + 14) as real).Floor == 7;
  }

  /** Days a week apart have a cadence of seven days. */
  lemma WeeklyCadence(d: int)
    ensures Max([d, d + 7, d + 14]) == d + 14
    ensures Cadence([d, d + 7, d + 14]) == 7.0
  {
    var days := [d, d + 7, d + 14];
    assert Max(days) == d + 14 && Min(days) == d;
    CadenceOfSpan(days, 14, 3);
  }

  /** Sorts `a` in place into ascending order (`dates.sort`), by insertion
      with adjacent swaps. */
  method SortAscending(a: array<int>)
    modifies a
    ensures Sorted(a[..])
    ensures multiset(a[..]) == multiset(old(a[..]))
  {
    var i := 0;
    while i < a.Length
      invariant 0 <= i <= a.Length
      invariant Sorted(a[..i])
      invariant multiset(a[..]) == multiset(old(a[..]))
    {
      InsertLast(a, i);
      i := i + 1;
    }
    assert a[..a.Length] == a[..];
  }

  /** One insertion step: `a[i]` moves down past every larger element of
      the sorted prefix `a[..i]`. */
  method InsertLast(a: array<int>, i: int)
    requires 0 <= i < a.Length && Sorted(a[..i])
    modifies a
    ensures Sorted(a[..i + 1])
    ensures multiset(a[..]) == multiset(old(a[..]))
  {
    forall p, q | 0 <= p < q < i
      ensures a[p] <= a[q]
    {
      assert a[..i][p] == a[p] && a[..i][q] == a[q];
    }
    var j := i;
    while j > 0 && a[j - 1] > a[j]
      invariant 0 <= j <= i
      invariant forall p, q :: 0 <= p < q <= i && p != j && q != j ==> a[p] <= a[q]
      invariant forall q :: j < q <= i ==> a[j] <= a[q]
      invariant multiset(a[..]) == multiset(old(a[..]))
    {
      SwapAdjacent(a, j);
      j := j - 1;
    }
  }

  /** Exchanges `a[j - 1]` and `a[j]`. */
  method SwapAdjacent(a: array<int>, j: int)
    requires 0 < j < a.Length
    modifies a
    ensures a[j - 1] == old(a[j]) && a[j] == old(a[j - 1])
    ensures forall k :: 0 <= k < a.Length && k != j - 1 && k != j ==> a[k] == old(a[k])
    ensures multiset(a[..]) == multiset(old(a[..]))
  {
    a[j - 1], a[j] := a[j], a[j - 1];
  }

  /** The average whole-day gap between consecutive days of `dates`. */
  method MeanGap(dates: array<int>) returns (avg: real)
    requires dates.Length >= 2
    ensures avg == GapSum(dates[..]) as real / (dates.Length - 1) as real
  {
    var totalDiffDays := 0;
    for i := 1 to dates.Length
      invariant totalDiffDays == GapSum(dates[..i])
    {
      assert dates[..i + 1][..i] == dates[..i];
      totalDiffDays := totalDiffDays + Abs(dates[i] - dates[i - 1]);
    }
    assert dates[..dates.Length] == dates[..];
    avg := totalDiffDays as real / (dates.Length - 1) as real;
  }

  /** One pass of the forecast loop: sorts the item's purchase days, averages
      the gaps between them and checks the window. */
  method ForecastGroup(g: Group, now: Instant) returns (item: Option<PredictedItem>)
    ensures item == Prediction(g, now)
  {
    var days := DayNumbers(g.dates);
    var dates := new int[|days|](i requires 0 <= i < |days| => days[i]);
    assert dates[..] == days;
    SortAscending(dates);
    if dates.Length < 3 {
      return None;
    }
    var avgFrequency := MeanGap(dates);
    CadenceIsMeanGap(dates[..], days);
    var lastPurchase := dates[dates.Length - 1];
    item := WindowPrediction(g.name, lastPurchase, avgFrequency, Timestamp(now));
  }

  // ---------------------------------------------------------------------
  // The forecast over all items
  // ---------------------------------------------------------------------

  /** The forecast of each group as a function value. */
  function Predictor(now: Instant): Group -> Option<PredictedItem>
  {
    g => Prediction(g, now)
  }

  /** The forecasts by `predict` of the groups listed in `order`, in that order. */
  function Forecast(order: seq<string>, groups: map<string, Group>, predict: Group -> Option<PredictedItem>)
    : (r: seq<PredictedItem>)
    requires forall i :: 0 <= i < |order| ==> order[i] in groups
    ensures |r| <= |order|
  {
    if |order| == 0 then []
    else
      Forecast(order[..|order| - 1], groups, predict)
      + match predict(groups[order[|order| - 1]])
        case Some(p) => [p]
        case None => []
  }

  /** `predictShoppingItems`, stated without loops. */
  function ShoppingForecast(txs: seq<Transaction>, now: Instant): (r: seq<PredictedItem>)
  {
    var g := GroupsOf(Filter(txs, FoodCandidate(now)), Key);
    GroupsOfShape(Filter(txs, FoodCandidate(now)), Key);
    Forecast(g.order, g.groups, Predictor(now))
  }

  /** The grouping loop: files each candidate under its name by `keyOf`
      (the normalised description, `Key`), skipping the generic ones. */
  method GroupPurchases(food: seq<Transaction>, keyOf: Transaction -> string)
    returns (order: seq<string>, groups: map<string, Group>)
    ensures Grouping(order, groups) == GroupsOf(food, keyOf)
  {
    order, groups := [], map[];
    for i := 0 to |food|
      invariant Grouping(order, groups) == GroupsOf(food[..i], keyOf)
    {
      assert food[..i + 1][..i] == food[..i];
      var t := food[i];
      var key := keyOf(t);
      ghost var before := Grouping(order, groups);
      assert GroupsOf(food[..i + 1], keyOf) == AddPurchase(before, t, key);
      if key !in GenericKeys {
        if key !in groups {
          groups := groups[key := Group(t.description, [])];
          order := order + [key];
        }
        groups := groups[key := groups[key].(dates := groups[key].dates + [t.date])];
        assert [] + [t.date] == [t.date];
      }
    }
    assert food[..|food|] == food;
  }

  /** One more group in the order adds its forecast, if it has one, at the end. */
  lemma ForecastSnoc(order: seq<string>, groups: map<string, Group>,
                     predict: Group -> Option<PredictedItem>, i: int)
    requires 0 <= i < |order| && forall j :: 0 <= j < |order| ==> order[j] in groups
    ensures Forecast(order[..i + 1], groups, predict)
            == Forecast(order[..i], groups, predict)
               + match predict(groups[order[i]])
                 case Some(p) => [p]
                 case None => []
  {
    assert order[..i + 1][..i] == order[..i];
  }

  /** `predictShoppingItems`: the food candidates of the last year, grouped
      by normalised description, and a forecast for each group due within a
      week either side of `now`. The one-year cut-off and both ends of the
      window keep the clock's time of day. */
  method PredictShoppingItems(txs: seq<Transaction>, now: Instant) returns (predictions: seq<PredictedItem>)
    ensures predictions == ShoppingForecast(txs, now)
  {
    var foodTransactions := Filter(txs, FoodCandidate(now));
    var order, groups := GroupPurchases(foodTransactions, Key);
    OrderKeyed(foodTransactions, Key);
    predictions := [];
    for i := 0 to |order|
      invariant predictions == Forecast(order[..i], groups, Predictor(now))
    {
      ForecastSnoc(order, groups, Predictor(now), i);
      var item := ForecastGroup(groups[order[i]], now);
      if item.Some? {
        predictions := predictions + [item.value];
      }
    }
    assert order[..|order|] == order;
  }

  /** Each item of `r` is the forecast by `predict` of the group in `order`
      that its name belongs to, by `nameKey`. */
  ghost predicate ItemsOfGroups(r: seq<PredictedItem>, order: seq<string>, groups: map<string, Group>,
                                predict: Group -> Option<PredictedItem>, nameKey: string -> string)
  {
    forall i :: 0 <= i < |r| ==>
      var k := nameKey(r[i].name);
      k in order && k in groups && predict(groups[k]) == Some(r[i])
  }

  /** No two items of `r` belong to the same group. */
  ghost predicate OnePerGroup(r: seq<PredictedItem>, nameKey: string -> string)
  {
    forall i, j :: 0 <= i < j < |r| ==> nameKey(r[i].name) != nameKey(r[j].name)
  }

  /** The forecast has one item at most per group, each the group's own
      forecast, and leaves out no group that has one. Items are told apart by
      `nameKey`, which recovers a group's key from its name. */
  lemma {:induction false} ForecastItems(order: seq<string>, groups: map<string, Group>,
                                         predict: Group -> Option<PredictedItem>, nameKey: string -> string)
    requires forall i :: 0 <= i < |order| ==> order[i] in groups
    requires Distinct(order)
    requires forall k :: k in groups ==> nameKey(groups[k].name) == k
    requires forall g :: predict(g).Some? ==> predict(g).value.name == g.name
    ensures ItemsOfGroups(Forecast(order, groups, predict), order, groups, predict, nameKey)
    ensures OnePerGroup(Forecast(order, groups, predict), nameKey)
    ensures forall k :: k in order && predict(groups[k]).Some? ==>
              predict(groups[k]).value in Forecast(order, groups, predict)
  {
    if |order| > 0 {
      var init, last := order[..|order| - 1], order[|order| - 1];
      assert Distinct(init);
      ForecastItems(init, groups, predict, nameKey);
      var prev := Forecast(init, groups, predict);
      var r := Forecast(order, groups, predict);
      assert last !in init;
      assert forall k :: k in order <==> k in init || k == last;
      var tail := match predict(groups[last]) case Some(p) => [p] case None => [];
      assert r == prev + tail;
      if tail != [] {
        var p := predict(groups[last]).value;
        assert tail == [p] && r[|prev|] == p;
        assert nameKey(p.name) == last;
      }
      forall i | 0 <= i < |r|
        ensures var k := nameKey(r[i].name); k in order && k in groups && predict(groups[k]) == Some(r[i])
      {
        if i < |prev| {
          assert r[i] == prev[i];
        }
      }
      forall i, j | 0 <= i < j < |r| ensures nameKey(r[i].name) != nameKey(r[j].name) {
        assert r[i] == prev[i];
        if j < |prev| {
          assert r[j] == prev[j];
        }
      }
    }
  }

  /** A group's name normalises to its key. */
  lemma GroupNamesKeyed(food: seq<Transaction>)
    ensures forall k :: k in GroupsOf(food, Key).groups ==> NameKey(GroupsOf(food, Key).groups[k].name) == k
  {
    var g := GroupsOf(food, Key);
    GroupsOfShape(food, Key);
    forall k | k in g.groups ensures NameKey(g.groups[k].name) == k {
      var j :| FirstWithKey(food, Key, k, j) && food[j].description == g.groups[k].name;
    }
  }

  /** The group of a non-generic name is named after its first transaction
      and holds the dates of all its transactions. */
  lemma GroupOfName(food: seq<Transaction>, k: string, j: int)
    requires k !in GenericKeys && FirstWithKey(food, Key, k, j)
    ensures k in GroupsOf(food, Key).groups
    ensures GroupsOf(food, Key).groups[k] == Group(food[j].description, DatesOf(Filter(food, HasKey(Key, k))))
  {
    var g := GroupsOf(food, Key);
    GroupsOfShape(food, Key);
    assert Occurs(food, Key, k);
    var j' :| FirstWithKey(food, Key, k, j') && food[j'].description == g.groups[k].name;
    assert j' == j;
  }

  /** Each item is the forecast of one non-generic name among the
      candidates `food`: named after the first candidate with that name and
      computed from the dates of all candidates with that name. */
  ghost predicate ItemsFromCandidates(r: seq<PredictedItem>, food: seq<Transaction>, now: Instant)
  {
    forall i :: 0 <= i < |r| ==>
      var k := NameKey(r[i].name);
      && k !in GenericKeys
      && (exists j :: FirstWithKey(food, Key, k, j) && food[j].description == r[i].name)
      && Prediction(Group(r[i].name, DatesOf(Filter(food, HasKey(Key, k)))), now) == Some(r[i])
  }

  /** Every non-generic name among the candidates whose forecast is due has
      an item. */
  ghost predicate NoneMissing(r: seq<PredictedItem>, food: seq<Transaction>, now: Instant)
  {
    forall k, j :: k !in GenericKeys && FirstWithKey(food, Key, k, j) ==>
      var p := Prediction(Group(food[j].description, DatesOf(Filter(food, HasKey(Key, k)))), now);
      p.Some? ==> p.value in r
  }

  /** The grouping facts the forecast lemmas below start from. */
  lemma ForecastGroups(txs: seq<Transaction>, now: Instant)
    ensures var g := GroupsOf(Filter(txs, FoodCandidate(now)), Key);
            && (forall k :: k in g.groups <==> k in g.order)
            && ItemsOfGroups(ShoppingForecast(txs, now), g.order, g.groups, Predictor(now), NameKey)
            && OnePerGroup(ShoppingForecast(txs, now), NameKey)
            && (forall k :: k in g.order && Predictor(now)(g.groups[k]).Some? ==>
                  Predictor(now)(g.groups[k]).value in ShoppingForecast(txs, now))
  {
    var food := Filter(txs, FoodCandidate(now));
    var g := GroupsOf(food, Key);
    GroupsOfShape(food, Key);
    GroupNamesKeyed(food);
    ForecastItems(g.order, g.groups, Predictor(now), NameKey);
  }

  lemma ForecastItemAt(txs: seq<Transaction>, now: Instant, i: int)
    requires 0 <= i < |ShoppingForecast(txs, now)|
    ensures var food, r := Filter(txs, FoodCandidate(now)), ShoppingForecast(txs, now);
            var k := NameKey(r[i].name);
            && k !in GenericKeys
            && (exists j :: FirstWithKey(food, Key, k, j) && food[j].description == r[i].name)
            && Prediction(Group(r[i].name, DatesOf(Filter(food, HasKey(Key, k)))), now) == Some(r[i])
  {
    var food := Filter(txs, FoodCandidate(now));
    var g := GroupsOf(food, Key);
    var r := ShoppingForecast(txs, now);
    ForecastGroups(txs, now);
    GroupsOfShape(food, Key);
    var k := NameKey(r[i].name);
    assert k in g.groups && Predictor(now)(g.groups[k]) == Some(r[i]);
    var j :| FirstWithKey(food, Key, k, j) && food[j].description == g.groups[k].name;
    GroupOfName(food, k, j);
  }

  lemma ForecastCovers(txs: seq<Transaction>, now: Instant, k: string, j: int)
    requires k !in GenericKeys && FirstWithKey(Filter(txs, FoodCandidate(now)), Key, k, j)
    ensures var food := Filter(txs, FoodCandidate(now));
            var p := Prediction(Group(food[j].description, DatesOf(Filter(food, HasKey(Key, k)))), now);
            p.Some? ==> p.value in ShoppingForecast(txs, now)
  {
    var food := Filter(txs, FoodCandidate(now));
    ForecastGroups(txs, now);
    GroupOfName(food, k, j);
  }

  /** What the forecast holds, stated without the loops: one item at most per
      normalised name, each computed from all the candidates with that name,
      and none missing. */
  lemma ShoppingForecastShape(txs: seq<Transaction>, now: Instant)
    ensures ItemsFromCandidates(ShoppingForecast(txs, now), Filter(txs, FoodCandidate(now)), now)
    ensures OnePerGroup(ShoppingForecast(txs, now), NameKey)
    ensures NoneMissing(ShoppingForecast(txs, now), Filter(txs, FoodCandidate(now)), now)
  {
    ForecastGroups(txs, now);
    forall i | 0 <= i < |ShoppingForecast(txs, now)| {
      ForecastItemAt(txs, now, i);
    }
    forall k, j | k !in GenericKeys && FirstWithKey(Filter(txs, FoodCandidate(now)), Key, k, j) {
      ForecastCovers(txs, now, k, j);
    }
  }

  /** A transaction that is not a candidate (an income, another category, a
      purchase older than a year), or whose description is a generic one,
      changes no forecast. */
  lemma ForecastIgnores(txs: seq<Transaction>, t: Transaction, now: Instant)
    requires !FoodCandidate(now)(t) || Key(t) in GenericKeys
    ensures ShoppingForecast(txs + [t], now) == ShoppingForecast(txs, now)
  {
    var p := FoodCandidate(now);
    FilterAppend(txs, [t], p);
    var food := Filter(txs, p);
    if p(t) {
      assert Filter(txs + [t], p) == food + [t];
      assert (food + [t])[..|food|] == food;
    } else {
      assert Filter(txs + [t], p) == food;
    }
  }

  // ---------------------------------------------------------------------
  // Year-over-year comparison
  // ---------------------------------------------------------------------

  /** A change of `change` on `base` is `pct` percent of it. */
  predicate IsPercentOf(pct: real, change: int, base: int)
  {
    pct * base as real == change as real * 100.0
  }

  /** The comparison record for the two month totals. */
  function YoYFromTotals(currentMonthTotal: int, lastYearMonthTotal: int): (r: YoYStats)
    ensures r.currentMonthTotal == currentMonthTotal && r.lastYearMonthTotal == lastYearMonthTotal
    ensures r.variance == currentMonthTotal - lastYearMonthTotal
    ensures r.hasHistory <==> lastYearMonthTotal > 0
    ensures lastYearMonthTotal > 0 ==> IsPercentOf(r.percentageChange, r.variance, lastYearMonthTotal)
    ensures lastYearMonthTotal == 0 && currentMonthTotal > 0 ==> r.percentageChange == 100.0
    ensures lastYearMonthTotal == 0 && currentMonthTotal <= 0 ==> r.percentageChange == 0.0
    ensures lastYearMonthTotal < 0 ==> r.percentageChange == 0.0
  {
    var variance := currentMonthTotal - lastYearMonthTotal;
    var percentageChange :=
      if lastYearMonthTotal > 0 then variance as real / lastYearMonthTotal as real * 100.0
      else if currentMonthTotal > 0 && lastYearMonthTotal == 0 then 100.0
      else 0.0;
    YoYStats(currentMonthTotal, lastYearMonthTotal, variance, percentageChange, lastYearMonthTotal > 0)
  }

  /** With totals that are not negative the percentage has the sign of the
      variance (a rise reads as a rise, no change as 0%), and spending cannot
      fall by more than 100%. */
  lemma YoYPercentageSign(currentMonthTotal: int, lastYearMonthTotal: int)
    requires currentMonthTotal >= 0 && lastYearMonthTotal >= 0
    ensures var r := YoYFromTotals(currentMonthTotal, lastYearMonthTotal);
            && (r.percentageChange > 0.0 <==> r.variance > 0)
            && (r.percentageChange == 0.0 <==> r.variance == 0)
            && r.percentageChange >= -100.0
  {
    if lastYearMonthTotal > 0 {
      RatioSign((currentMonthTotal - lastYearMonthTotal) as real, lastYearMonthTotal as real);
    }
  }

  /** With history, growing last year's total by the percentage gives this
      month's total back. */
  lemma YoYRestoresCurrent(currentMonthTotal: int, lastYearMonthTotal: int)
    requires lastYearMonthTotal > 0
    ensures var r := YoYFromTotals(currentMonthTotal, lastYearMonthTotal);
            lastYearMonthTotal as real * (1.0 + r.percentageChange / 100.0) == currentMonthTotal as real
  {
    var r := YoYFromTotals(currentMonthTotal, lastYearMonthTotal);
    var l := lastYearMonthTotal as real;
    assert r.percentageChange * l == (currentMonthTotal as real - l) * 100.0;
    assert l * (1.0 + r.percentageChange / 100.0) == l + r.percentageChange * l / 100.0;
  }

  /** Dividing by a positive amount keeps the sign, and a fall no larger
      than the amount is no more than 100%. */
  lemma RatioSign(v: real, l: real)
    requires l > 0.0
    ensures v / l > 0.0 <==> v > 0.0
    ensures v / l == 0.0 <==> v == 0.0
    ensures v >= -l ==> v / l >= -1.0
  {
    var q := v / l;
    assert q * l == v;
    if v >= -l {
      assert (q + 1.0) * l == v + l;
    }
  }

  /** `calculateYoYComparison`: this month's expenses against those of the
      same calendar month one year earlier (each total is `getMonthlyTotal`,
      the expenses whose month and year match). */
  function CalculateYoYComparison(txs: seq<Transaction>, today: Date): (r: YoYStats)
    ensures r.currentMonthTotal == MonthExpenses(txs, MonthOf(today))
    ensures r.lastYearMonthTotal == MonthExpenses(txs, MonthKey(today.year - 1, today.month))
    ensures r.variance == r.currentMonthTotal - r.lastYearMonthTotal
    ensures r.hasHistory <==> r.lastYearMonthTotal > 0
    ensures r.lastYearMonthTotal > 0 ==> IsPercentOf(r.percentageChange, r.variance, r.lastYearMonthTotal)
    ensures r.lastYearMonthTotal == 0 && r.currentMonthTotal > 0 ==> r.percentageChange == 100.0
    ensures r.lastYearMonthTotal == 0 && r.currentMonthTotal <= 0 ==> r.percentageChange == 0.0
    ensures r.lastYearMonthTotal < 0 ==> r.percentageChange == 0.0
  {
    var current := MonthExpenses(txs, MonthOf(today));
    var lastYear := MonthExpenses(txs, MonthKey(today.year - 1, today.month));
    var r := YoYFromTotals(current, lastYear);
    assert r.currentMonthTotal == current && r.lastYearMonthTotal == lastYear;
    r
  }

  /** With non-negative amounts both totals are non-negative, so the sign
      rules above apply to every comparison. */
  lemma YoYOfNonNegative(txs: seq<Transaction>, today: Date)
    requires forall t :: t in txs ==> t.amount >= 0
    ensures var r := CalculateYoYComparison(txs, today);
            && (r.percentageChange > 0.0 <==> r.variance > 0)
            && (r.percentageChange == 0.0 <==> r.variance == 0)
            && r.percentageChange >= -100.0
            && (r.lastYearMonthTotal == 0 && r.currentMonthTotal > 0 ==> r.percentageChange == 100.0 && !r.hasHistory)
  {
    var c, l := MonthExpenses(txs, MonthOf(today)), MonthExpenses(txs, MonthKey(today.year - 1, today.month));
    MonthExpensesNonNegative(txs, MonthOf(today));
    MonthExpensesNonNegative(txs, MonthKey(today.year - 1, today.month));
    YoYPercentageSign(c, l);
  }

  /** Incomes, and expenses outside the two months compared, change nothing. */
  lemma YoYIgnoresOtherMonths(txs: seq<Transaction>, t: Transaction, today: Date)
    requires !IsExpense(t) || (MonthOf(t.date) != MonthOf(today)
                               && MonthOf(t.date) != MonthKey(today.year - 1, today.month))
    ensures CalculateYoYComparison([t] + txs, today) == CalculateYoYComparison(txs, today)
  {
    MonthExpensesOfOne(txs, t, MonthOf(today));
    MonthExpensesOfOne(txs, t, MonthKey(today.year - 1, today.month));
  }
}
