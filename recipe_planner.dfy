/** The meal planner's ingredient inventory: the food and shopping expenses
    of the last 30 days, tallied by normalised description and rendered as
    one comma-separated line for the recipe generator. */
module RecipePlanner {
  import opened Seqs
  import opened Strings
  import opened Dates
  import opened Types

  /** Expenses in Food or Shopping whose date, read as its midnight, is no
      earlier than 30 days before the current moment. */
  function Relevant(now: Instant): Transaction -> bool
  {
    (t: Transaction) => DayNumber(t.date) as real >= Timestamp(now) - 30.0
         && (t.category == Food || t.category == Shopping)
         && IsExpense(t)
  }

  /** The description lower-cased, then trimmed. */
  function InventoryKey(t: Transaction): string
  {
    Trim(ToLower(t.description))
  }

  /** The key of each transaction, in order. */
  function KeysOf(ts: seq<Transaction>, keyOf: Transaction -> string): (r: seq<string>)
    ensures |r| == |ts| && forall i :: 0 <= i < |ts| ==> r[i] == keyOf(ts[i])
  {
    seq(|ts|, i requires 0 <= i < |ts| => keyOf(ts[i]))
  }

  /** The distinct keys in order of first occurrence: the insertion order of
      the tally map. */
  function FirstOccurrences(ks: seq<string>): (r: seq<string>)
    ensures Distinct(r)
    ensures forall k :: k in r <==> k in ks
  {
    if ks == [] then []
    else
      var before := FirstOccurrences(ks[..|ks| - 1]);
      var k := ks[|ks| - 1];
      if k in before then before else before + [k]
  }

  function WithKey(keyOf: Transaction -> string, k: string): Transaction -> bool
  {
    t => keyOf(t) == k
  }

  /** The number of transactions whose key is `k`. */
  function Matches(ts: seq<Transaction>, keyOf: Transaction -> string, k: string): nat
  {
    |Filter(ts, WithKey(keyOf, k))|
  }

  /** One entry of the list: the item, followed by its count in parentheses
      when it was bought more than once. */
  function Entry(item: string, count: nat): (r: string)
    ensures count <= 1 ==> r == item
    ensures count > 1 ==> r == item + " (" + NatText(count) + ")"
    ensures |r| >= |item| && r[..|item|] == item
  {
    if count > 1 then item + " (" + NatText(count) + ")" else item
  }

  /** The tally line, stated without a map: one entry per distinct key in
      order of first occurrence, each with the number of transactions
      carrying that key, joined with ", ". */
  function TallyText(ts: seq<Transaction>, keyOf: Transaction -> string): string
  {
    var order := FirstOccurrences(KeysOf(ts, keyOf));
    Join(seq(|order|, i requires 0 <= i < |order| => Entry(order[i], Matches(ts, keyOf, order[i]))), ", ")
  }

  /** The inventory line the recipe generator receives. */
  function InventoryText(txs: seq<Transaction>, now: Instant): string
  {
    TallyText(Filter(txs, Relevant(now)), InventoryKey)
  }

  /** The map rendered in key order: each entry, joined with ", ". */
  function Render(order: seq<string>, counts: map<string, nat>): string
    requires forall k :: k in order ==> k in counts
  {
    Join(seq(|order|, i requires 0 <= i < |order| => Entry(order[i], counts[order[i]])), ", ")
  }

  /** The tally map holds exactly the keys of `ts`, each with its number of
      transactions. */
  ghost predicate Counted(counts: map<string, nat>, ts: seq<Transaction>, keyOf: Transaction -> string)
  {
    KeyedBy(counts, ts, keyOf) && CountsMatch(counts, ts, keyOf)
  }

  /** The map's keys are the keys of `ts`. */
  ghost predicate KeyedBy(counts: map<string, nat>, ts: seq<Transaction>, keyOf: Transaction -> string)
  {
    forall k :: k in counts <==> k in KeysOf(ts, keyOf)
  }

  /** Each key of the map holds the number of transactions of `ts` with it. */
  ghost predicate CountsMatch(counts: map<string, nat>, ts: seq<Transaction>, keyOf: Transaction -> string)
  {
    forall k :: k in counts ==> counts[k] == Matches(ts, keyOf, k)
  }

  /** One pass of the `forEach`: a key not seen yet goes to the end of the
      map's key order, and its count goes up by one, starting from zero. */
  function Bump(order: seq<string>, counts: map<string, nat>, k: string): (seq<string>, map<string, nat>)
  {
    (if k in order then order else order + [k], counts[k := (if k in counts then counts[k] else 0) + 1])
  }

  /** The map's key order and contents after the `forEach` has seen `ts`. */
  function Tally(ts: seq<Transaction>, keyOf: Transaction -> string): (seq<string>, map<string, nat>)
  {
    if ts == [] then ([], map[])
    else
      var before := Tally(ts[..|ts| - 1], keyOf);
      Bump(before.0, before.1, keyOf(ts[|ts| - 1]))
  }

  lemma TallySnocStep(ts: seq<Transaction>, x: Transaction, keyOf: Transaction -> string)
    ensures Tally(ts + [x], keyOf) == Bump(Tally(ts, keyOf).0, Tally(ts, keyOf).1, keyOf(x))
  {
    assert (ts + [x])[..|ts|] == ts;
  }

  /** The tally lists the keys in order of first occurrence. */
  lemma {:induction false} TallyOrder(ts: seq<Transaction>, keyOf: Transaction -> string)
    ensures Tally(ts, keyOf).0 == FirstOccurrences(KeysOf(ts, keyOf))
  {
    if ts != [] {
      var init, x := ts[..|ts| - 1], ts[|ts| - 1];
      assert ts == init + [x];
      TallyOrder(init, keyOf);
      TallySnocStep(init, x, keyOf);
      OrderSnoc(init, x, keyOf);
    }
  }

  /** The tally map holds exactly the keys of `ts`, each with its number of
      transactions. */
  lemma {:induction false} TallyCounted(ts: seq<Transaction>, keyOf: Transaction -> string)
    ensures Counted(Tally(ts, keyOf).1, ts, keyOf)
  {
    if ts == [] {
      assert KeysOf(ts, keyOf) == [];
    } else {
      var init, x := ts[..|ts| - 1], ts[|ts| - 1];
      assert ts == init + [x];
      TallyCounted(init, keyOf);
      TallySnocStep(init, x, keyOf);
      CountedSnoc(Tally(init, keyOf).1, init, x, keyOf);
    }
  }

  /** The `forEach` that fills the tally map: `order` is the map's key order
      and `counts` its contents. */
  method CountItems(relevant: seq<Transaction>, keyOf: Transaction -> string)
    returns (order: seq<string>, counts: map<string, nat>)
    ensures (order, counts) == Tally(relevant, keyOf)
    ensures order == FirstOccurrences(KeysOf(relevant, keyOf))
    ensures forall k :: k in counts <==> k in order
    ensures forall k :: k in counts ==> counts[k] == Matches(relevant, keyOf, k)
  {
    order, counts := [], map[];
    ghost var seen: seq<Transaction> := [];
    for i := 0 to |relevant|
      invariant seen == relevant[..i]
      invariant (order, counts) == Tally(seen, keyOf)
    {
      var desc := keyOf(relevant[i]);
      var previous := if desc in counts then counts[desc] else 0;
      if desc !in order {
        order := order + [desc];
      }
      counts := counts[desc := previous + 1];
      TallySnocStep(seen, relevant[i], keyOf);
      PrefixSnoc(relevant, i);
      seen := seen + [relevant[i]];
    }
    assert seen == relevant;
    TallyOrder(relevant, keyOf);
    TallyCounted(relevant, keyOf);
    CountedKeys(order, counts, relevant, keyOf);
  }

  /** The map's keys are exactly the keys listed in its insertion order. */
  lemma CountedKeys(order: seq<string>, counts: map<string, nat>, ts: seq<Transaction>, keyOf: Transaction -> string)
    requires order == FirstOccurrences(KeysOf(ts, keyOf)) && Counted(counts, ts, keyOf)
    ensures forall k :: k in counts <==> k in order
  {
  }

  /** One more transaction adds one to the count of its own key, starting
      from zero, and changes no other. */
  lemma MatchesSnoc(ts: seq<Transaction>, x: Transaction, keyOf: Transaction -> string, k: string)
    ensures Matches(ts + [x], keyOf, k) == Matches(ts, keyOf, k) + if keyOf(x) == k then 1 else 0
  {
    FilterAppend(ts, [x], WithKey(keyOf, k));
    assert [x][..0] == [];
  }

  lemma KeysOfSnoc(ts: seq<Transaction>, x: Transaction, keyOf: Transaction -> string)
    ensures KeysOf(ts + [x], keyOf) == KeysOf(ts, keyOf) + [keyOf(x)]
  {
    assert KeysOf(ts + [x], keyOf) == KeysOf(ts, keyOf) + [keyOf(x)];
  }

  /** A new key goes to the end of the insertion order; a known one changes
      nothing. */
  lemma OrderSnoc(ts: seq<Transaction>, x: Transaction, keyOf: Transaction -> string)
    ensures var order := FirstOccurrences(KeysOf(ts, keyOf));
            FirstOccurrences(KeysOf(ts + [x], keyOf))
            == if keyOf(x) in order then order else order + [keyOf(x)]
  {
    var ks := KeysOf(ts, keyOf);
    KeysOfSnoc(ts, x, keyOf);
    assert (ks + [keyOf(x)])[..|ks|] == ks;
  }

  /** Bumping the new transaction's key keeps the map counted. */
  lemma CountedSnoc(counts: map<string, nat>, ts: seq<Transaction>, x: Transaction, keyOf: Transaction -> string)
    requires Counted(counts, ts, keyOf)
    ensures Counted(counts[keyOf(x) := (if keyOf(x) in counts then counts[keyOf(x)] else 0) + 1],
                    ts + [x], keyOf)
  {
    CountedSnocKeys(counts, ts, x, keyOf);
    CountedSnocValues(counts, ts, x, keyOf);
  }

  /** The bumped map counts every one of its keys in the longer list. */
  lemma CountedSnocValues(counts: map<string, nat>, ts: seq<Transaction>, x: Transaction, keyOf: Transaction -> string)
    requires Counted(counts, ts, keyOf)
    ensures CountsMatch(counts[keyOf(x) := (if keyOf(x) in counts then counts[keyOf(x)] else 0) + 1], ts + [x], keyOf)
  {
    var k := keyOf(x);
    var bumped := counts[k := (if k in counts then counts[k] else 0) + 1];
    forall y | y in bumped
      ensures bumped[y] == Matches(ts + [x], keyOf, y)
    {
      CountedSnocAt(counts, ts, x, keyOf, y);
    }
  }

  /** The bumped map's keys are the keys of the longer list. */
  lemma CountedSnocKeys(counts: map<string, nat>, ts: seq<Transaction>, x: Transaction, keyOf: Transaction -> string)
    requires KeyedBy(counts, ts, keyOf)
    ensures KeyedBy(counts[keyOf(x) := (if keyOf(x) in counts then counts[keyOf(x)] else 0) + 1], ts + [x], keyOf)
  {
    KeysOfSnoc(ts, x, keyOf);
  }

  /** `CountedSnoc` for one key `y` of the bumped map. */
  lemma CountedSnocAt(counts: map<string, nat>, ts: seq<Transaction>, x: Transaction, keyOf: Transaction -> string,
                      y: string)
    requires Counted(counts, ts, keyOf)
    requires y in counts || y == keyOf(x)
    ensures var k := keyOf(x);
            counts[k := (if k in counts then counts[k] else 0) + 1][y] == Matches(ts + [x], keyOf, y)
  {
    var k := keyOf(x);
    MatchesSnoc(ts, x, keyOf, y);
    if y == k && k !in counts {
      FilterNone(ts, WithKey(keyOf, k));
    }
  }

  /** Rendering the filled map in key order gives the tally line. */
  lemma RenderTally(ts: seq<Transaction>, keyOf: Transaction -> string, counts: map<string, nat>)
    requires forall k :: k in counts <==> k in FirstOccurrences(KeysOf(ts, keyOf))
    requires forall k :: k in counts ==> counts[k] == Matches(ts, keyOf, k)
    ensures Render(FirstOccurrences(KeysOf(ts, keyOf)), counts) == TallyText(ts, keyOf)
  {
    var order := FirstOccurrences(KeysOf(ts, keyOf));
    assert seq(|order|, i requires 0 <= i < |order| => Entry(order[i], counts[order[i]]))
        == seq(|order|, i requires 0 <= i < |order| => Entry(order[i], Matches(ts, keyOf, order[i])));
  }

  /** `inventoryList`: filter, tally, render. */
  method InventoryList(txs: seq<Transaction>, now: Instant) returns (inventory: string)
    ensures inventory == InventoryText(txs, now)
  {
    var relevantTransactions := Filter(txs, Relevant(now));
    var order, counts := CountItems(relevantTransactions, InventoryKey);
    RenderTally(relevantTransactions, InventoryKey, counts);
    inventory := Render(order, counts);
  }

  /** A key is listed exactly when some transaction carries it, and only once. */
  lemma TallyKeys(ts: seq<Transaction>, keyOf: Transaction -> string, k: string)
    ensures Distinct(FirstOccurrences(KeysOf(ts, keyOf)))
    ensures k in FirstOccurrences(KeysOf(ts, keyOf)) <==> exists t :: t in ts && keyOf(t) == k
  {
    var ks := KeysOf(ts, keyOf);
    if k in ks {
      var i :| 0 <= i < |ks| && ks[i] == k;
      assert ts[i] in ts;
    }
    if exists t :: t in ts && keyOf(t) == k {
      var t :| t in ts && keyOf(t) == k;
      var i :| 0 <= i < |ts| && ts[i] == t;
      assert ks[i] == k;
    }
  }

  /** Every part of a joined list is at most as long as the whole. */
  lemma {:induction false} JoinCovers(parts: seq<string>, sep: string, i: nat)
    requires i < |parts|
    ensures |Join(parts, sep)| >= |parts[i]|
  {
    if |parts| > 1 && i > 0 {
      JoinCovers(parts[1..], sep, i - 1);
    }
  }

  /** Nothing counted gives the empty line; a key that is not blank gives a
      line that is not empty. */
  lemma TallyEmpty(ts: seq<Transaction>, keyOf: Transaction -> string)
    ensures ts == [] ==> TallyText(ts, keyOf) == ""
    ensures (exists t :: t in ts && keyOf(t) != "") ==> TallyText(ts, keyOf) != ""
  {
    if exists t :: t in ts && keyOf(t) != "" {
      var t :| t in ts && keyOf(t) != "";
      var order := FirstOccurrences(KeysOf(ts, keyOf));
      TallyKeys(ts, keyOf, keyOf(t));
      var i :| 0 <= i < |order| && order[i] == keyOf(t);
      var entries := seq(|order|, i requires 0 <= i < |order| => Entry(order[i], Matches(ts, keyOf, order[i])));
      JoinCovers(entries, ", ", i);
    }
  }

  /** The inventory lists each normalised description of a relevant purchase
      once, and nothing else. */
  lemma InventoryKeys(txs: seq<Transaction>, now: Instant, k: string)
    ensures Distinct(FirstOccurrences(KeysOf(Filter(txs, Relevant(now)), InventoryKey)))
    ensures k in FirstOccurrences(KeysOf(Filter(txs, Relevant(now)), InventoryKey))
            <==> exists t :: t in txs && Relevant(now)(t) && InventoryKey(t) == k
  {
    TallyKeys(Filter(txs, Relevant(now)), InventoryKey, k);
  }

  /** With no relevant purchase the inventory is empty; once a relevant
      purchase has a description that is not blank, it is not. */
  lemma InventoryEmpty(txs: seq<Transaction>, now: Instant)
    ensures Filter(txs, Relevant(now)) == [] ==> InventoryText(txs, now) == ""
    ensures (exists t :: t in txs && Relevant(now)(t) && InventoryKey(t) != "")
            ==> InventoryText(txs, now) != ""
  {
    TallyEmpty(Filter(txs, Relevant(now)), InventoryKey);
  }

  /** A purchase dated 30 days back counts only when the clock reads exactly
      midnight; a later one always counts, an earlier one never. */
  lemma RelevantCutoff(now: Instant, t: Transaction)
    ensures Relevant(now)(t)
            <==> && (t.category == Food || t.category == Shopping) && IsExpense(t)
                 && (|| DayNumber(t.date) > DayNumber(now.day) - 30
                     || (DayNumber(t.date) == DayNumber(now.day) - 30 && now.elapsed == 0.0))
  {
  }

  /** Adding a transaction the filter rejects leaves the inventory as it was. */
  lemma InventoryIgnores(txs: seq<Transaction>, t: Transaction, now: Instant)
    requires !Relevant(now)(t)
    ensures InventoryText(txs + [t], now) == InventoryText(txs, now)
  {
    FilterAppend(txs, [t], Relevant(now));
    FilterNone([t], Relevant(now));
    assert Filter(txs + [t], Relevant(now)) == Filter(txs, Relevant(now));
  }

  /** The outcome of asking for a meal plan. */
  datatype GenerateOutcome = Refused(error: string) | Requested(inventory: string)

  const NoFoodMessage := "No food expenses found in the last 30 days to analyze."

  /** `handleGenerate`'s guard: an empty inventory is refused with an error;
      otherwise the inventory goes to the recipe generator. */
  function Generate(inventory: string): (r: GenerateOutcome)
    ensures r.Refused? <==> inventory == ""
    ensures r.Refused? ==> r.error == NoFoodMessage
    ensures r.Requested? ==> r.inventory == inventory
  {
    if inventory == "" then Refused(NoFoodMessage) else Requested(inventory)
  }

  /** Without a relevant purchase no plan is requested. */
  lemma GenerateNeedsPurchases(txs: seq<Transaction>, now: Instant)
    requires Filter(txs, Relevant(now)) == []
    ensures Generate(InventoryText(txs, now)).Refused?
  {
    InventoryEmpty(txs, now);
  }
}
