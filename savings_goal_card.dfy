/** The savings-goal card: the progress percentage, saving the edited goal,
    and the "Add Funds" update. Amounts are whole cents; the percentage is a
    real. */
module SavingsGoalCard {
  import opened Types

  /** `Math.min(100, Math.max(0, x))` on a finite `x`. */
  function Clamp(x: real): (r: real)
    ensures 0.0 <= r <= 100.0
    ensures 0.0 <= x <= 100.0 ==> r == x
  {
    if x < 0.0 then 0.0 else if x > 100.0 then 100.0 else x
  }

  /** The percentage as written. With a zero target the quotient is an
      infinity, which the clamp turns into 100 or 0, or, when nothing is
      saved either, NaN, which passes through both `min` and `max`; `None`
      stands for that NaN. */
  function PercentageAsWritten(goal: SavingsGoal): (r: Option<real>)
    ensures r.None? <==> goal.targetAmount == 0 && goal.currentAmount == 0
    ensures r.Some? ==> 0.0 <= r.value <= 100.0
  {
    if goal.targetAmount == 0 then
      if goal.currentAmount > 0 then Some(100.0)
      else if goal.currentAmount < 0 then Some(0.0)
      else None
    else Some(Clamp(goal.currentAmount as real / goal.targetAmount as real * 100.0))
  }

  /** A goal with nothing to reach and nothing saved has no percentage: the
      progress bar gets the width "NaN%". */
  lemma EmptyGoalHasNoPercentage(name: string)
    ensures PercentageAsWritten(SavingsGoal(name, 0, 0)) == None
  {
  }

  /** The percentage as the comment above it promises, clamped to [0, 100]:
      the NaN case reads as 0, every other case is the one written. */
  function Percentage(goal: SavingsGoal): (r: real)
    ensures 0.0 <= r <= 100.0
    ensures PercentageAsWritten(goal).Some? ==> r == PercentageAsWritten(goal).value
  {
    match PercentageAsWritten(goal)
    case Some(p) => p
    case None => 0.0
  }

  /** With a positive target, a goal reached is 100 and nothing saved is 0. */
  lemma PercentageEnds(goal: SavingsGoal)
    requires goal.targetAmount > 0
    ensures goal.currentAmount >= goal.targetAmount ==> Percentage(goal) == 100.0
    ensures goal.currentAmount <= 0 ==> Percentage(goal) == 0.0
  {
    var t, c := goal.targetAmount as real, goal.currentAmount as real;
    if c >= t {
      assert c / t >= 1.0 by {
        assert c / t * t == c;
      }
    }
    if c <= 0.0 {
      assert c / t <= 0.0 by {
        assert c / t * t == c;
      }
    }
  }

  /** Against a positive target, more savings never show less progress. */
  lemma PercentageMonotone(goal: SavingsGoal, more: int)
    requires goal.targetAmount > 0 && goal.currentAmount <= more
    ensures Percentage(goal) <= Percentage(goal.(currentAmount := more))
  {
    var t := goal.targetAmount as real;
    var c, d := goal.currentAmount as real, more as real;
    assert c / t <= d / t by {
      assert c / t * t == c && d / t * t == d;
    }
  }

  /** `handleSave`: the edited goal. The model's form already holds the
      amounts as numbers, so the `Number(...)` conversions change nothing.
      Where the form's contents come from is the card's business, below. */
  function SaveGoal(editForm: SavingsGoal): (r: SavingsGoal)
    ensures r.name == editForm.name
    ensures r.targetAmount == editForm.targetAmount && r.currentAmount == editForm.currentAmount
  {
    editForm
  }

  /** The edit form's three inputs. */
  function EditName(editForm: SavingsGoal, name: string): SavingsGoal
  {
    editForm.(name := name)
  }

  function EditTarget(editForm: SavingsGoal, target: int): SavingsGoal
  {
    editForm.(targetAmount := target)
  }

  function EditCurrent(editForm: SavingsGoal, current: int): SavingsGoal
  {
    editForm.(currentAmount := current)
  }

  /** Whatever the form held before, saving after filling in all three
      inputs gives exactly what was entered. */
  lemma SaveAfterEdits(goal: SavingsGoal, name: string, target: int, current: int)
    ensures SaveGoal(EditCurrent(EditTarget(EditName(goal, name), target), current))
            == SavingsGoal(name, target, current)
  {
  }

  /** "Add Funds". The prompt's answer is `None` when it was cancelled, empty
      or not a number; then nothing is updated. */
  function AddFunds(goal: SavingsGoal, entry: Option<int>): (r: Option<SavingsGoal>)
    ensures r.Some? <==> entry.Some?
    ensures r.Some? ==> r.value.currentAmount == goal.currentAmount + entry.value
    ensures r.Some? ==> r.value.name == goal.name && r.value.targetAmount == goal.targetAmount
  {
    match entry
    case None => None
    case Some(amount) => Some(goal.(currentAmount := goal.currentAmount + amount))
  }

  /** Two deposits are one deposit of their sum. */
  lemma AddFundsTwice(goal: SavingsGoal, a: int, b: int)
    ensures AddFunds(AddFunds(goal, Some(a)).value, Some(b)) == AddFunds(goal, Some(a + b))
  {
  }

  /** A withdrawal of what was deposited restores the goal. */
  lemma AddFundsUndo(goal: SavingsGoal, a: int)
    ensures AddFunds(AddFunds(goal, Some(a)).value, Some(-a)) == Some(goal)
  {
  }

  /** Against a positive target, a deposit never lowers the progress shown. */
  lemma AddFundsRaisesPercentage(goal: SavingsGoal, amount: int)
    requires goal.targetAmount > 0 && amount >= 0
    ensures Percentage(goal) <= Percentage(AddFunds(goal, Some(amount)).value)
  {
    PercentageMonotone(goal, goal.currentAmount + amount);
    assert AddFunds(goal, Some(amount)).value == goal.(currentAmount := goal.currentAmount + amount);
  }

  /** The card's cells: the goal it shows (the parent's cell, which
      `onUpdate` replaces), the editing flag and the edit form. The form is
      seeded from the goal once, when the card mounts. */
  datatype Card = Card(goal: SavingsGoal, isEditing: bool, editForm: SavingsGoal)

  /** The card as it mounts: not editing, the form a copy of the goal. */
  function Mount(goal: SavingsGoal): (r: Card)
    ensures r.goal == goal && r.editForm == goal && !r.isEditing
  {
    Card(goal, false, goal)
  }

  /** The settings button as written: it only sets the flag, so the form
      keeps whatever it held, however the goal has changed since. */
  function OpenEditor(c: Card): (r: Card)
    ensures r.isEditing && r.goal == c.goal && r.editForm == c.editForm
  {
    c.(isEditing := true)
  }

  /** The settings button as evidently intended: the form opens on the goal
      shown. */
  function OpenEditorReseeded(c: Card): (r: Card)
    ensures r.isEditing && r.goal == c.goal && r.editForm == c.goal
  {
    Card(c.goal, true, c.goal)
  }

  /** Typing a new name in the open editor. */
  function Rename(c: Card, name: string): (r: Card)
    ensures r.editForm == c.editForm.(name := name)
    ensures r.goal == c.goal && r.isEditing == c.isEditing
  {
    c.(editForm := EditName(c.editForm, name))
  }

  /** Save: the parent's goal becomes the saved form and the editor closes;
      the form itself is left as it is. */
  function Save(c: Card): (r: Card)
    ensures r.goal == SaveGoal(c.editForm) && !r.isEditing && r.editForm == c.editForm
  {
    Card(SaveGoal(c.editForm), false, c.editForm)
  }

  /** Cancel: the editor closes and nothing is saved; the form keeps the
      cancelled edits, which the editor shows again when reopened. */
  function Cancel(c: Card): (r: Card)
    ensures !r.isEditing && r.goal == c.goal && r.editForm == c.editForm
  {
    c.(isEditing := false)
  }

  /** "Add Funds" on the card: the parent's goal becomes the deposit's
      result; the form is not touched. */
  function Deposit(c: Card, entry: Option<int>): (r: Card)
    ensures entry.Some? ==> r.goal == AddFunds(c.goal, entry).value
    ensures entry.None? ==> r.goal == c.goal
    ensures r.isEditing == c.isEditing && r.editForm == c.editForm
  {
    match AddFunds(c.goal, entry)
    case Some(g) => c.(goal := g)
    case None => c
  }

  /** As written, saving an untouched editor writes back the form as it
      was, not the goal shown: every change of the goal since the form was
      last written is undone. */
  lemma SaveUntouchedAsWritten(c: Card)
    ensures Save(OpenEditor(c)).goal == c.editForm
  {
  }

  /** As written, a deposit followed by a rename loses the deposit: the
      saved amount is the one the card mounted with. */
  lemma DepositLostOnSave(goal: SavingsGoal, amount: int, name: string)
    requires amount != 0
    ensures Save(Rename(OpenEditor(Deposit(Mount(goal), Some(amount))), name)).goal
            == goal.(name := name)
    ensures Save(Rename(OpenEditor(Deposit(Mount(goal), Some(amount))), name)).goal.currentAmount
            != Deposit(Mount(goal), Some(amount)).goal.currentAmount
  {
  }

  /** With the form re-seeded on opening, saving an untouched editor keeps
      the goal shown. */
  lemma SaveUntouchedKeepsGoal(c: Card)
    ensures Save(OpenEditorReseeded(c)).goal == c.goal
  {
  }

  /** With the form re-seeded on opening, a deposit survives a rename: the
      saved goal has the new name and the deposited amount. */
  lemma DepositKeptOnSave(c: Card, amount: int, name: string)
    ensures Save(Rename(OpenEditorReseeded(Deposit(c, Some(amount))), name)).goal
            == c.goal.(name := name, currentAmount := c.goal.currentAmount + amount)
  {
  }
}
