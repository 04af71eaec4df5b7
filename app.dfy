/** The application shell: the `transactions` and `budget` state cells, how
    they start out (with the migration of a legacy budget record), and the
    updaters the pages call. Storage, the clock and the notification service
    are parameters. */
module App {
  import opened Seqs
  import opened Dates
  import opened Types
  import opened Constants
  import opened BudgetService
  import opened ReminderService
  import opened ExpenseForm

  /** A budget record read back from storage: a legacy record has only the
      limit, a current one every field. */
  datatype SavedBudget = Legacy(limit: int) | Current(record: BudgetData)

  /** The budget cell's first value. A legacy record is migrated: its limit
      becomes the base, the rollover is zero, and the current month counts
      as already reconciled. With nothing saved, the initial budget. */
  function InitialBudgetState(saved: Option<SavedBudget>, today: Date): (r: BudgetData)
    ensures saved.None? ==> r.monthlyLimit == InitialBudget && r.baseAmount == InitialBudget
    ensures saved.Some? && saved.value.Legacy? ==> r.monthlyLimit == r.baseAmount == saved.value.limit
    ensures saved.None? || saved.value.Legacy? ==>
              Consistent(r) && r.rolloverAmount == 0 && r.lastRolloverMonth == MonthOf(today)
    ensures saved.Some? && saved.value.Current? ==> r == saved.value.record
  {
    match saved
    case None => BudgetData(InitialBudget, InitialBudget, 0, MonthOf(today))
    case Some(Legacy(limit)) => BudgetData(limit, limit, 0, MonthOf(today))
    case Some(Current(record)) => record
  }

  /** A fresh or migrated record is not rolled over on the first load. */
  lemma NoRolloverOnFirstLoad(saved: Option<SavedBudget>, txs: seq<Transaction>, today: Date)
    requires saved.None? || saved.value.Legacy?
    ensures CheckAndProcessRollover(InitialBudgetState(saved, today), txs, today).None?
  {
  }

  /** The record `addTransaction` prepends: the form's fields, the new id,
      not paid and not reminded of. */
  function Recorded(t: NewTransaction, id: string): (r: Transaction)
    ensures r.id == id && !r.isPaid && !r.reminderSent
    ensures r.date == t.date && r.description == t.description && r.amount == t.amount
    ensures r.category == t.category && r.kind == t.kind && r.isRecurring == t.isRecurring
  {
    Transaction(id, t.date, t.description, t.amount, t.category, t.kind, t.isRecurring, false, false)
  }

  /** `addTransaction`'s updater: the new record first, the rest as it was. */
  function Prepended(txs: seq<Transaction>, t: NewTransaction, id: string): (r: seq<Transaction>)
    ensures |r| == |txs| + 1 && r[0] == Recorded(t, id) && r[1..] == txs
  {
    [Recorded(t, id)] + txs
  }

  /** Keeps the records whose id is not `id`. */
  function OtherId(id: string): Transaction -> bool
  {
    (t: Transaction) => t.id != id
  }

  /** `deleteTransaction`'s updater. */
  function WithoutId(txs: seq<Transaction>, id: string): seq<Transaction>
  {
    Filter(txs, OtherId(id))
  }

  /** Deleting removes exactly the records with that id, in place order. */
  lemma WithoutIdMembers(txs: seq<Transaction>, id: string)
    ensures forall t :: t in WithoutId(txs, id) <==> t in txs && t.id != id
    ensures id !in Ids(WithoutId(txs, id))
    ensures (forall t :: t in txs ==> t.id != id) ==> WithoutId(txs, id) == txs
  {
    var r := WithoutId(txs, id);
    forall i | 0 <= i < |r|
      ensures Ids(r)[i] != id
    {
      assert r[i] in r;
    }
    if forall t :: t in txs ==> t.id != id {
      assert forall i :: 0 <= i < |txs| ==> txs[i] in txs;
      FilterAll(txs, OtherId(id));
    }
  }

  /** Deleting a record just added, under a new id, gives back the list it
      was added to. */
  lemma DeleteUndoesAdd(txs: seq<Transaction>, t: NewTransaction, id: string)
    requires id !in Ids(txs)
    ensures WithoutId(Prepended(txs, t, id), id) == txs
  {
    forall i | 0 <= i < |txs|
      ensures OtherId(id)(txs[i])
    {
      assert Ids(txs)[i] == txs[i].id;
    }
    FilterAll(txs, OtherId(id));
    FilterNone([Recorded(t, id)], OtherId(id));
    FilterAppend([Recorded(t, id)], txs, OtherId(id));
  }

  lemma PrependedIds(txs: seq<Transaction>, t: NewTransaction, id: string)
    ensures Ids(Prepended(txs, t, id)) == [id] + Ids(txs)
  {
    IdsAppend([Recorded(t, id)], txs);
    assert Ids([Recorded(t, id)]) == [id];
  }

  /** A new id keeps the ids distinct, and deleting keeps them distinct. */
  lemma IdsStayDistinct(txs: seq<Transaction>, t: NewTransaction, id: string, gone: string)
    requires Distinct(Ids(txs))
    ensures id !in Ids(txs) ==> Distinct(Ids(Prepended(txs, t, id)))
    ensures Distinct(Ids(WithoutId(txs, gone)))
  {
    IdsOfFilterDistinct(txs, OtherId(gone));
    if id !in Ids(txs) {
      PrependedIds(txs, t, id);
      DistinctCons(id, Ids(txs));
    }
  }

  /** `markAsPaid`'s updater. */
  function MarkedPaid(txs: seq<Transaction>, id: string): (r: seq<Transaction>)
    ensures |r| == |txs| && Ids(r) == Ids(txs)
    ensures forall i :: 0 <= i < |txs| ==>
              (r[i].isPaid <==> txs[i].isPaid || txs[i].id == id) && r[i].(isPaid := txs[i].isPaid) == txs[i]
  {
    seq(|txs|, i requires 0 <= i < |txs| => if txs[i].id == id then txs[i].(isPaid := true) else txs[i])
  }

  /** Marking twice is marking once. */
  lemma MarkedPaidIdempotent(txs: seq<Transaction>, id: string)
    ensures MarkedPaid(MarkedPaid(txs, id), id) == MarkedPaid(txs, id)
  {
  }

  /** A record marked paid is never reminded of again. */
  lemma PaidNotReminded(txs: seq<Transaction>, id: string, today: Date)
    ensures id !in DueReminders(MarkedPaid(txs, id), today)
  {
    var r := MarkedPaid(txs, id);
    DueRemindersMembers(r, today, id);
    forall t | t in r && t.id == id
      ensures t.isPaid
    {
      var i :| 0 <= i < |r| && r[i] == t;
      assert Ids(r)[i] == id;
    }
  }

  /** The reminder effect's updater: records whose id was sent are flagged. */
  function MarkedReminded(txs: seq<Transaction>, sentIds: seq<string>): (r: seq<Transaction>)
    ensures |r| == |txs| && Ids(r) == Ids(txs)
    ensures forall i :: 0 <= i < |txs| ==>
              (r[i].reminderSent <==> txs[i].reminderSent || txs[i].id in sentIds)
              && r[i].(reminderSent := txs[i].reminderSent) == txs[i]
  {
    seq(|txs|, i requires 0 <= i < |txs| =>
      if txs[i].id in sentIds then txs[i].(reminderSent := true) else txs[i])
  }

  /** A record still pending after the flags are set was not due. */
  lemma FlaggedNotDue(txs: seq<Transaction>, today: Date, i: int)
    requires 0 <= i < |txs|
    ensures var t := MarkedReminded(txs, DueReminders(txs, today))[i];
            IsPending(t) ==> !(0 <= DaysUntilDue(t, today) <= 2)
  {
    var t := MarkedReminded(txs, DueReminders(txs, today))[i];
    var u := txs[i];
    assert t.(reminderSent := u.reminderSent) == u;
    DueRemindersMembers(txs, today, u.id);
  }

  /** Once the ids sent are flagged, a second pass on the same day sends
      nothing: the effect that re-runs on the changed list does not remind
      anyone twice. */
  lemma RemindedOnce(txs: seq<Transaction>, today: Date)
    ensures DueReminders(MarkedReminded(txs, DueReminders(txs, today)), today) == []
  {
    var r := MarkedReminded(txs, DueReminders(txs, today));
    forall i | 0 <= i < |r|
      ensures IsPending(r[i]) ==> !(0 <= DaysUntilDue(r[i], today) <= 2)
    {
      FlaggedNotDue(txs, today, i);
    }
    NothingDue(r, today);
  }

  /** No reminder goes out when no pending record is due. */
  lemma NothingDue(r: seq<Transaction>, today: Date)
    requires forall i :: 0 <= i < |r| ==> IsPending(r[i]) ==> !(0 <= DaysUntilDue(r[i], today) <= 2)
    ensures DueReminders(r, today) == []
  {
    forall t | t in r && IsPending(t)
      ensures !(0 <= DaysUntilDue(t, today) <= 2)
    {
      var i :| 0 <= i < |r| && r[i] == t;
    }
    var pending := Filter(r, Pending());
    assert forall j :: 0 <= j < |pending| ==> pending[j] in pending;
    FilterNone(pending, DueSoon(today));
  }

  /** `updateBudget`'s updater: the base becomes `n`, the limit follows it,
      and the rollover and its month stay. */
  function UpdatedBudget(b: BudgetData, n: int): (r: BudgetData)
    ensures Consistent(r) && r.baseAmount == n
    ensures r.rolloverAmount == b.rolloverAmount && r.lastRolloverMonth == b.lastRolloverMonth
  {
    b.(baseAmount := n, monthlyLimit := n + b.rolloverAmount)
  }

  /** Only the last update counts, and an update on a consistent record that
      restates its base changes nothing. */
  lemma UpdatedBudgetLastWins(b: BudgetData, m: int, n: int)
    ensures UpdatedBudget(UpdatedBudget(b, m), n) == UpdatedBudget(b, n)
    ensures Consistent(b) ==> UpdatedBudget(b, b.baseAmount) == b
  {
  }

  /** The state cells of the application. */
  class App {
    var transactions: seq<Transaction>
    var budget: BudgetData
    var notificationsEnabled: bool

    /** The cells' first values: the saved list or the sample data, the
        migrated budget, and notifications as saved (off by default). */
    constructor (savedTransactions: Option<seq<Transaction>>, savedBudget: Option<SavedBudget>,
                 savedNotifications: Option<bool>, today: Date)
      requires ValidDate(today)
      ensures transactions == (if savedTransactions.Some? then savedTransactions.value else SampleData(today))
      ensures budget == InitialBudgetState(savedBudget, today)
      ensures notificationsEnabled == (savedNotifications.Some? && savedNotifications.value)
    {
      transactions := if savedTransactions.Some? then savedTransactions.value else SampleData(today);
      budget := InitialBudgetState(savedBudget, today);
      notificationsEnabled := savedNotifications.Some? && savedNotifications.value;
    }

    /** The rollover check run once on mount; it returns the notice to show. */
    method RolloverOnMount(today: Date) returns (message: Option<RolloverMessage>)
      modifies this
      ensures var result := CheckAndProcessRollover(old(budget), old(transactions), today);
              && budget == (if result.Some? then result.value.updatedBudget else old(budget))
              && message == (if result.Some? then Some(result.value.message) else None)
      ensures old(Consistent(budget)) ==> Consistent(budget)
      ensures transactions == old(transactions) && notificationsEnabled == old(notificationsEnabled)
    {
      var result := CheckAndProcessRollover(budget, transactions, today);
      if result.Some? {
        budget := result.value.updatedBudget;
        message := Some(result.value.message);
      } else {
        message := None;
      }
    }

    /** The reminder effect: with notifications on, run the reminder pass and
        flag the records it reminded of. */
    method CheckRemindersEffect(today: Date, supported: bool, granted: bool) returns (sentIds: seq<string>)
      modifies this
      ensures sentIds == (if old(notificationsEnabled) && supported && granted then
                            DueReminders(old(transactions), today) else [])
      ensures transactions == (if sentIds != [] then MarkedReminded(old(transactions), sentIds)
                               else old(transactions))
      ensures budget == old(budget) && notificationsEnabled == old(notificationsEnabled)
    {
      sentIds := [];
      if notificationsEnabled {
        sentIds := CheckReminders(transactions, today, supported, granted);
        if |sentIds| > 0 {
          transactions := MarkedReminded(transactions, sentIds);
        }
      }
    }

    /** `addTransaction`, with the new id as a parameter. */
    method AddTransaction(t: NewTransaction, id: string)
      modifies this
      ensures transactions == Prepended(old(transactions), t, id)
      ensures budget == old(budget) && notificationsEnabled == old(notificationsEnabled)
    {
      transactions := [Recorded(t, id)] + transactions;
    }

    /** `deleteTransaction`; the confirmation dialog's answer is a parameter. */
    method DeleteTransaction(id: string, confirmed: bool)
      modifies this
      ensures transactions == (if confirmed then WithoutId(old(transactions), id) else old(transactions))
      ensures budget == old(budget) && notificationsEnabled == old(notificationsEnabled)
    {
      if confirmed {
        transactions := Filter(transactions, OtherId(id));
      }
    }

    /** `markAsPaid`. */
    method MarkAsPaid(id: string)
      modifies this
      ensures transactions == MarkedPaid(old(transactions), id)
      ensures budget == old(budget) && notificationsEnabled == old(notificationsEnabled)
    {
      transactions := MarkedPaid(transactions, id);
    }

    /** `updateBudget`: whatever the record was, afterwards it is consistent. */
    method UpdateBudget(newLimit: int)
      modifies this
      ensures budget == UpdatedBudget(old(budget), newLimit) && Consistent(budget)
      ensures transactions == old(transactions) && notificationsEnabled == old(notificationsEnabled)
    {
      budget := budget.(baseAmount := newLimit, monthlyLimit := newLimit + budget.rolloverAmount);
    }
  }
}
