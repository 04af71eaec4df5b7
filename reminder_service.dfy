/** Payment reminders: which unpaid expenses fall due within the next two
    days and have not been reminded of yet. */
module ReminderService {
  import opened Seqs
  import opened Dates
  import opened Types

  /** An expense neither paid nor already reminded of (absent flags read as
      false). */
  predicate IsPending(t: Transaction)
  {
    IsExpense(t) && !t.isPaid && !t.reminderSent
  }

  function Pending(): Transaction -> bool
  {
    t => IsPending(t)
  }

  /** Whole days from `today` to the expense's date, its due date. */
  function DaysUntilDue(t: Transaction, today: Date): int
  {
    DayNumber(t.date) - DayNumber(today)
  }

  /** Due today, tomorrow or the day after. */
  function DueSoon(today: Date): Transaction -> bool
  {
    t => 0 <= DaysUntilDue(t, today) <= 2
  }

  /** The ids the reminder pass sends, stated without the loop. */
  function DueReminders(txs: seq<Transaction>, today: Date): seq<string>
  {
    Ids(Filter(Filter(txs, Pending()), DueSoon(today)))
  }

  /** `checkReminders`. Whether the notification service exists and whether
      the user granted it are parameters; the notification itself is left out. */
  method CheckReminders(txs: seq<Transaction>, today: Date, supported: bool, granted: bool)
    returns (remindedIds: seq<string>)
    ensures !supported || !granted ==> remindedIds == []
    ensures supported && granted ==> remindedIds == DueReminders(txs, today)
  {
    remindedIds := [];
    if !supported {
      return [];
    }
    if !granted {
      return [];
    }
    var pendingExpenses := Filter(txs, Pending());
    ghost var seen: seq<Transaction> := [];
    for i := 0 to |pendingExpenses|
      invariant seen == pendingExpenses[..i]
      invariant remindedIds == Ids(Filter(seen, DueSoon(today)))
    {
      var expense := pendingExpenses[i];
      var diffDays := DayNumber(expense.date) - DayNumber(today);
      ghost var remindedIds0 := remindedIds;
      if diffDays >= 0 && diffDays <= 2 {
        remindedIds := remindedIds + [expense.id];
      }
      ReminderStep(remindedIds0, remindedIds, seen, expense, today);
      PrefixSnoc(pendingExpenses, i);
      seen := seen + [expense];
    }
    assert seen == pendingExpenses;
  }

  /** One more pending expense adds its id exactly when it is due soon. */
  lemma ReminderStep(ids: seq<string>, ids': seq<string>, seen: seq<Transaction>, t: Transaction, today: Date)
    requires ids == Ids(Filter(seen, DueSoon(today)))
    requires ids' == if 0 <= DaysUntilDue(t, today) <= 2 then ids + [t.id] else ids
    ensures ids' == Ids(Filter(seen + [t], DueSoon(today)))
  {
    assert (seen + [t])[..|seen|] == seen;
    var before := Filter(seen, DueSoon(today));
    if DueSoon(today)(t) {
      IdsAppend(before, [t]);
    }
  }

  /** An id is reminded of exactly when it belongs to a pending expense due
      within two days. */
  lemma DueRemindersMembers(txs: seq<Transaction>, today: Date, id: string)
    ensures id in DueReminders(txs, today)
            <==> exists t :: t in txs && t.id == id && IsPending(t) && 0 <= DaysUntilDue(t, today) <= 2
  {
    var due := Filter(Filter(txs, Pending()), DueSoon(today));
    IdsMembers(due, id);
    assert forall t :: t in due <==> t in txs && IsPending(t) && 0 <= DaysUntilDue(t, today) <= 2;
  }

  /** Ids that are distinct in the list stay distinct among the kept ones. */
  lemma {:induction false} IdsOfFilterDistinct(s: seq<Transaction>, p: Transaction -> bool)
    requires Distinct(Ids(s))
    ensures Distinct(Ids(Filter(s, p)))
  {
    if |s| > 0 {
      var init, t := s[..|s| - 1], s[|s| - 1];
      assert Ids(init) == Ids(s)[..|s| - 1];
      IdsOfFilterDistinct(init, p);
      var f := Filter(init, p);
      if p(t) {
        assert Ids(f + [t]) == Ids(f) + [t.id];
        forall i | 0 <= i < |f| ensures f[i].id != t.id {
          assert f[i] in init;
          var j :| 0 <= j < |init| && init[j] == f[i];
          assert Ids(s)[j] == f[i].id && Ids(s)[|s| - 1] == t.id;
        }
      } else {
        assert Filter(s, p) == f;
      }
    }
  }

  /** With distinct transaction ids, no id is reminded of twice. */
  lemma DueRemindersDistinct(txs: seq<Transaction>, today: Date)
    requires Distinct(Ids(txs))
    ensures Distinct(DueReminders(txs, today))
  {
    IdsOfFilterDistinct(txs, Pending());
    IdsOfFilterDistinct(Filter(txs, Pending()), DueSoon(today));
  }
}
