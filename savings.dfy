/**
 * The savings-goals page: the progress shown for each goal, the search over
 * goal names, and the create, edit, delete and add-to-goal handlers with
 * their checks.  The savings service's calls are given their outcomes; a
 * reload after a change is given the list it fetches.
 */
module SavingsGoals {
  import opened Wrappers
  import opened Text
  import opened JsNum
  import opened Collections
  import opened AmountInput

  /** A savings goal as the service lists it. */
  datatype Goal = Goal(id: string, name: string, targetAmount: real, currentAmount: real, deadline: Option<string>)

  const InvalidTarget := "Enter a valid target amount."
  const NegativeCurrent := "Current amount cannot be negative."
  const InvalidAddition := "Enter a valid amount to add."
  const DefaultName := "New goal"

  // ---------------------------------------------------------------- progress

  /** `getProgressColor(pct)`. */
  function ProgressColor(pct: real): (color: string)
    ensures pct >= 100.0 ==> color == "bg-green-500"
    ensures 66.0 <= pct < 100.0 ==> color == "bg-green-400"
    ensures 33.0 <= pct < 66.0 ==> color == "bg-amber-500"
    ensures pct < 33.0 ==> color == "bg-red-500"
  {
    if pct >= 100.0 then "bg-green-500"
    else if pct >= 66.0 then "bg-green-400"
    else if pct >= 33.0 then "bg-amber-500"
    else "bg-red-500"
  }

  /** A larger percentage never gets a colour of a lower band. */
  lemma ProgressColorMonotone(p: real, q: real)
    requires p <= q
    ensures ProgressColor(p) == "bg-green-500" ==> ProgressColor(q) == "bg-green-500"
    ensures ProgressColor(p) != "bg-red-500" ==> ProgressColor(q) != "bg-red-500"
  {
  }

  /** The percentage shown in the list: `min(100, current / target * 100)`, or 0 without a positive target. */
  function ListPct(g: Goal): (pct: real)
    ensures pct <= 100.0
    ensures g.targetAmount <= 0.0 ==> pct == 0.0
    ensures g.targetAmount > 0.0 && g.currentAmount >= 0.0 ==> pct >= 0.0
    ensures g.targetAmount > 0.0 ==> (pct == 100.0 <==> g.currentAmount >= g.targetAmount)
  {
    if g.targetAmount > 0.0 then
      var raw := g.currentAmount / g.targetAmount * 100.0;
      assert raw >= 100.0 <==> g.currentAmount >= g.targetAmount by {
        assert raw == g.currentAmount * (100.0 / g.targetAmount);
        assert 100.0 / g.targetAmount > 0.0;
        assert 100.0 * (g.currentAmount / g.targetAmount) == raw;
        Ratio(g.currentAmount, g.targetAmount);
      }
      if raw < 100.0 then raw else 100.0
    else 0.0
  }

  /** Scaling by a positive target keeps the comparison with it. */
  lemma Ratio(a: real, b: real)
    requires b > 0.0
    ensures a / b * 100.0 >= 100.0 <==> a >= b
  {
    var q := a / b;
    assert q * b == a;
    if q >= 1.0 {
      assert q * b >= b;
    } else {
      assert q * b < b;
    }
  }

  // ---------------------------------------------------------------- search

  function NameContains(q: string): Goal -> bool
  {
    (g: Goal) => Contains(Lower(g.name), q)
  }

  /** `filteredGoals`. */
  function FilteredGoals(goals: seq<Goal>, search: string): seq<Goal>
  {
    Filter(goals, NameContains(Lower(search)))
  }

  /** A goal is listed exactly when it is one of the page's and its lower-cased name contains the lower-cased query. */
  lemma FilteredGoalsExactly(goals: seq<Goal>, search: string, g: Goal)
    ensures g in FilteredGoals(goals, search) <==> g in goals && Contains(Lower(g.name), Lower(search))
  {
    if g in FilteredGoals(goals, search) {
      FilterMember(goals, NameContains(Lower(search)), g);
    }
    if g in goals && NameContains(Lower(search))(g) {
      FilterKeeps(goals, NameContains(Lower(search)), g);
    }
  }

  /** An empty search lists every goal, in order. */
  lemma FilteredGoalsEmpty(goals: seq<Goal>)
    ensures FilteredGoals(goals, "") == goals
  {
    assert Lower("") == [];
    forall i | 0 <= i < |goals| ensures NameContains([])(goals[i]) {
      ContainsEmpty(Lower(goals[i].name));
    }
    FilterAll(goals, NameContains([]));
  }

  // ---------------------------------------------------------------- checks

  /** What `create` is given. */
  datatype CreateInput = CreateInput(userId: string, name: string, targetAmount: real, deadline: Option<string>)

  /**
   * `handleSubmit`'s check and the input it sends: the target must be a
   * positive number; a blank name becomes `New goal`; an empty deadline is
   * left out.
   */
  function PrepareCreate(userId: string, name: string, targetText: string, deadline: string)
    : (r: Result<CreateInput>)
    ensures !IsPositive(JsNumber(targetText)) <==> r == Err(InvalidTarget)
    ensures r.Ok? ==> r.value.userId == userId && r.value.targetAmount == JsNumber(targetText).value > 0.0
    ensures r.Ok? && Trim(name) != "" ==> r.value.name == Trim(name)
    ensures r.Ok? && Trim(name) == "" ==> r.value.name == DefaultName
    ensures r.Ok? ==> (r.value.deadline.None? <==> deadline == "")
    ensures r.Ok? && deadline != "" ==> r.value.deadline == Some(deadline)
  {
    var num := JsNumber(targetText);
    if !IsPositive(num) then Err(InvalidTarget)
    else
      Ok(CreateInput(userId, if Trim(name) != "" then Trim(name) else DefaultName, num.value,
                     if deadline != "" then Some(deadline) else None))
  }

  /**
   * The fields an `update` sends; `None` leaves a field out.  The current
   * amount is the result of `Number`, which may be NaN.
   */
  datatype GoalPatch = GoalPatch(
    name: Option<string>, targetAmount: Option<real>, currentAmount: Option<Num>, deadline: Field<string>)

  /** `Number(text) < 0`: false for NaN. */
  predicate BelowZero(n: Num)
  {
    n.Finite? && n.value < 0.0
  }

  /**
   * `handleEdit`'s checks and the patch it sends: the target must be a
   * positive number and the current amount must not be below zero; a blank
   * name keeps the goal's name; an empty deadline is cleared.
   */
  function PrepareEdit(goal: Goal, name: string, targetText: string, currentText: string, deadline: string)
    : (r: Result<GoalPatch>)
    ensures !IsPositive(JsNumber(targetText)) ==> r == Err(InvalidTarget)
    ensures IsPositive(JsNumber(targetText)) && BelowZero(JsNumber(currentText)) ==> r == Err(NegativeCurrent)
    ensures r.Ok? <==> IsPositive(JsNumber(targetText)) && !BelowZero(JsNumber(currentText))
    ensures r.Ok? ==> r.value.targetAmount == Some(JsNumber(targetText).value)
                      && r.value.currentAmount == Some(JsNumber(currentText))
    ensures r.Ok? ==> r.value.name == Some(if Trim(name) != "" then Trim(name) else goal.name)
    ensures r.Ok? ==> (r.value.deadline.Null? <==> deadline == "") && !r.value.deadline.Undefined?
    ensures r.Ok? && deadline != "" ==> r.value.deadline == Defined(deadline)
  {
    var targetNum := JsNumber(targetText);
    var currentNum := JsNumber(currentText);
    if !IsPositive(targetNum) then Err(InvalidTarget)
    else if BelowZero(currentNum) then Err(NegativeCurrent)
    else
      Ok(GoalPatch(Some(if Trim(name) != "" then Trim(name) else goal.name), Some(targetNum.value),
                   Some(currentNum), if deadline != "" then Defined(deadline) else Null))
  }

  /**
   * `handleAddToGoal`'s check and the new current amount: the amount read
   * from the field must be positive, and it is added to the goal's.
   */
  function PrepareAddition(goal: Goal, addAmount: string): (r: Result<real>)
    ensures ParseAmountFromDisplay(addAmount) <= 0.0 <==> r == Err(InvalidAddition)
    ensures r.Ok? ==> r.value == goal.currentAmount + ParseAmountFromDisplay(addAmount) > goal.currentAmount
  {
    var num := ParseAmountFromDisplay(addAmount);
    if num <= 0.0 then Err(InvalidAddition) else Ok(goal.currentAmount + num)
  }

  // ---------------------------------------------------------------- the page

  /** What a (re)load fetched: the goals and the currency setting, possibly empty. */
  datatype Fetched = Fetched(goals: seq<Goal>, currency: string)

  class SavingsPage {
    var goals: seq<Goal>
    var currency: string
    var search: string
    var error: Option<string>
    // the create form
    var open: bool
    var name: string
    var targetAmount: string
    var deadline: string
    // the detail dialog
    var selected: Option<Goal>
    var editMode: bool
    var editName: string
    var editTargetAmount: string
    var editCurrentAmount: string
    var editDeadline: string
    var deleteTarget: Option<Goal>
    var addAmount: string

    constructor()
      ensures goals == [] && currency == "USD" && search == "" && error.None? && !open
      ensures name == "" && targetAmount == "" && deadline == "" && selected.None? && deleteTarget.None?
      ensures addAmount == ""
    {
      goals, currency, search, error := [], "USD", "", None;
      open, name, targetAmount, deadline := false, "", "", "";
      selected, editMode, editName, editTargetAmount, editCurrentAmount, editDeadline := None, false, "", "", "", "";
      deleteTarget, addAmount := None, "";
    }

    /** `load`: a failure is swallowed; otherwise the goals are replaced and a non-empty currency taken. */
    method Load(fetched: Result<Fetched>)
      modifies this
      ensures fetched.Err? ==> goals == old(goals) && currency == old(currency)
      ensures fetched.Ok? ==> goals == fetched.value.goals
      ensures fetched.Ok? && fetched.value.currency != "" ==> currency == fetched.value.currency
      ensures fetched.Ok? && fetched.value.currency == "" ==> currency == old(currency)
      ensures error == old(error) && selected == old(selected) && deleteTarget == old(deleteTarget)
      ensures open == old(open) && name == old(name) && targetAmount == old(targetAmount)
      ensures deadline == old(deadline) && addAmount == old(addAmount)
    {
      if fetched.Ok? {
        goals := fetched.value.goals;
        if fetched.value.currency != "" {
          currency := fetched.value.currency;
        }
      }
    }

    /**
     * `handleSubmit`.  `created` is the outcome of `create`, `reloaded` that
     * of the reload that follows it; `sent` is the input when `create` was called.
     */
    method HandleSubmit(userId: string, created: Result<()>, reloaded: Result<Fetched>)
      returns (sent: Option<CreateInput>)
      modifies this
      ensures var p := PrepareCreate(userId, old(name), old(targetAmount), old(deadline));
              (p.Err? ==> error == Some(p.message) && sent.None?) && (p.Ok? ==> sent == Some(p.value))
      ensures sent.None? || created.Err? ==>
                goals == old(goals) && open == old(open) && name == old(name)
                && targetAmount == old(targetAmount) && deadline == old(deadline)
      ensures sent.Some? && created.Err? ==> error == Some(created.message)
      ensures sent.Some? && created.Ok? ==>
                error.None? && !open && name == "" && targetAmount == "" && deadline == ""
                && (reloaded.Ok? ==> goals == reloaded.value.goals)
                && (reloaded.Err? ==> goals == old(goals))
      ensures selected == old(selected)
    {
      error := None;
      var prepared := PrepareCreate(userId, name, targetAmount, deadline);
      if prepared.Err? {
        error := Some(prepared.message);
        return None;
      }
      sent := Some(prepared.value);
      if created.Err? {
        error := Some(created.message);
        return;
      }
      open, name, targetAmount, deadline := false, "", "", "";
      Load(reloaded);
    }

    /** `openDetail(g)`; `targetText` and `currentText` are `String` of the goal's amounts. */
    method OpenDetail(g: Goal, targetText: string, currentText: string)
      modifies this
      ensures selected == Some(g) && !editMode && editName == g.name
      ensures editTargetAmount == targetText && editCurrentAmount == currentText
      ensures editDeadline == (if g.deadline.Some? then g.deadline.value else "")
      ensures goals == old(goals) && error == old(error)
    {
      selected, editMode, editName := Some(g), false, g.name;
      editTargetAmount, editCurrentAmount := targetText, currentText;
      editDeadline := if g.deadline.Some? then g.deadline.value else "";
    }

    /**
     * `handleEdit`.  `updated` is the outcome of `update`, `reloaded` that of
     * the reload; `patch` is what `update` was sent.
     */
    method HandleEdit(updated: Result<()>, reloaded: Result<Fetched>) returns (patch: Option<GoalPatch>)
      modifies this
      ensures old(selected).None? ==> patch.None? && goals == old(goals) && error == old(error) && selected.None?
      ensures old(selected).Some? ==>
                var p := PrepareEdit(old(selected).value, old(editName), old(editTargetAmount),
                                     old(editCurrentAmount), old(editDeadline));
                (p.Err? ==> error == Some(p.message) && patch.None? && selected == old(selected))
                && (p.Ok? ==> patch == Some(p.value))
      ensures patch.None? || updated.Err? ==> goals == old(goals)
      ensures patch.Some? && updated.Err? ==> error == Some(updated.message) && selected == old(selected)
      ensures patch.Some? && updated.Ok? ==>
                error.None? && selected.None?
                && (reloaded.Ok? ==> goals == reloaded.value.goals) && (reloaded.Err? ==> goals == old(goals))
    {
      patch := None;
      if selected.None? {
        return;
      }
      error := None;
      var prepared := PrepareEdit(selected.value, editName, editTargetAmount, editCurrentAmount, editDeadline);
      if prepared.Err? {
        error := Some(prepared.message);
        return;
      }
      patch := Some(prepared.value);
      if updated.Err? {
        error := Some(updated.message);
        return;
      }
      Load(reloaded);
      selected := None;
    }

    /** `handleDelete`; `deleted` is the outcome of the delete call. */
    method HandleDelete(deleted: Result<()>, reloaded: Result<Fetched>)
      modifies this
      ensures old(deleteTarget).None? ==> goals == old(goals) && selected == old(selected) && deleteTarget.None?
      ensures old(deleteTarget).Some? && deleted.Err? ==>
                error == Some(deleted.message) && goals == old(goals) && deleteTarget == old(deleteTarget)
                && selected == old(selected)
      ensures old(deleteTarget).Some? && deleted.Ok? ==>
                deleteTarget.None? && selected.None? && error == old(error)
                && (reloaded.Ok? ==> goals == reloaded.value.goals) && (reloaded.Err? ==> goals == old(goals))
    {
      if deleteTarget.None? {
        return;
      }
      if deleted.Err? {
        error := Some(deleted.message);
        return;
      }
      Load(reloaded);
      deleteTarget, selected := None, None;
    }

    /**
     * Typing into the add-to-goal field, as wired: the handler gets the
     * field's current text, so an empty field stays empty and the field only
     * ever shows a handler fixed point.
     */
    method TypeAddAmount(typed: string)
      modifies this
      ensures addAmount == AmountFieldAsWritten(old(addAmount), typed)
      ensures old(addAmount) == "" ==> addAmount == ""
      ensures HandleAmountInputChange(addAmount) == addAmount
      ensures goals == old(goals) && selected == old(selected) && error == old(error)
    {
      addAmount := AmountFieldAsWritten(addAmount, typed);
      AmountFieldAsWrittenIgnoresTyping(old(addAmount), typed);
      HandleIdempotent(old(addAmount));
    }

    /** The add-to-goal field with the typed text passed on: it shows the sanitised typed text. */
    method TypeAddAmountIntended(typed: string)
      modifies this
      ensures addAmount == AmountField(typed)
      ensures ParseAmountFromDisplay(addAmount) >= 0.0
      ensures goals == old(goals) && selected == old(selected) && error == old(error)
    {
      addAmount := AmountField(typed);
      HandleParseNonNegative(typed);
    }

    /**
     * `handleAddToGoal`.  `updated` is the outcome of the update of the
     * current amount, `reloaded` that of the reload; `sent` is the new
     * current amount when the update was called.  On success the selected
     * goal shows the new amount and keeps every other field.
     */
    method HandleAddToGoal(updated: Result<()>, reloaded: Result<Fetched>) returns (sent: Option<real>)
      modifies this
      ensures old(selected).None? ==> sent.None? && goals == old(goals) && error == old(error) && selected.None?
      ensures old(selected).Some? ==>
                var p := PrepareAddition(old(selected).value, old(addAmount));
                (p.Err? ==> error == Some(p.message) && sent.None? && selected == old(selected))
                && (p.Ok? ==> sent == Some(p.value))
      ensures sent.None? || updated.Err? ==> goals == old(goals) && addAmount == old(addAmount)
      ensures sent.Some? && updated.Err? ==> error == Some(updated.message) && selected == old(selected)
      ensures sent.Some? && updated.Ok? ==>
                error.None? && addAmount == "" && old(selected).Some?
                && selected == Some(old(selected).value.(currentAmount := sent.value))
                && (reloaded.Ok? ==> goals == reloaded.value.goals) && (reloaded.Err? ==> goals == old(goals))
    {
      sent := None;
      if selected.None? {
        return;
      }
      var prepared := PrepareAddition(selected.value, addAmount);
      if prepared.Err? {
        error := Some(prepared.message);
        return;
      }
      error := None;
      sent := Some(prepared.value);
      if updated.Err? {
        error := Some(updated.message);
        return;
      }
      addAmount := "";
      Load(reloaded);
      selected := Some(selected.value.(currentAmount := prepared.value));
    }
  }
}
