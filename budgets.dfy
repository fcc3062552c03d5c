/**
 * The budgets page: the expense categories it offers, the category it
 * preselects, the checks of the create and edit forms and what they send,
 * and the total of the listed budgets.  Service calls are given their
 * outcomes; a reload after a change is given what it fetches.
 */
module Budgets {
  import opened Wrappers
  import opened JsNum
  import opened TransactionType
  import opened Collections
  import opened BudgetService
  import CS = CategoryService

  const InvalidAmount := "Enter a valid amount."
  const Added := "Budget successfully added"
  /** Every budget the page creates is monthly. */
  const Monthly := "monthly"

  // ---------------------------------------------------------------- categories

  /** `cats.filter((c) => c.type === 'expense')`. */
  function ExpenseCategories(cats: seq<CS.Category>): seq<CS.Category>
  {
    Filter(cats, CS.IsOfType(Expense))
  }

  /** The page offers exactly the expense categories of the list, in its order. */
  lemma ExpenseCategoriesExactly(cats: seq<CS.Category>, c: CS.Category)
    ensures c in ExpenseCategories(cats) <==> c in cats && c.kind == Expense
    ensures forall i :: 0 <= i < |ExpenseCategories(cats)| ==> ExpenseCategories(cats)[i].kind == Expense
  {
    if c in cats && c.kind == Expense {
      FilterKeeps(cats, CS.IsOfType(Expense), c);
    }
  }

  /**
   * The load's choice of category: an already chosen one stays; with none
   * chosen, the first expense category of the list, when there is one.
   */
  function Preselected(current: string, cats: seq<CS.Category>): (id: string)
    ensures current != "" ==> id == current
    ensures current == "" && FindIndex(cats, CS.IsOfType(Expense)) < |cats| ==>
              id == cats[FindIndex(cats, CS.IsOfType(Expense))].id
    ensures current == "" && FindIndex(cats, CS.IsOfType(Expense)) == |cats| ==> id == ""
  {
    FilterHead(cats, CS.IsOfType(Expense));
    var expense := ExpenseCategories(cats);
    if current == "" && |expense| > 0 then expense[0].id else current
  }

  // ---------------------------------------------------------------- checks

  /**
   * `handleSubmit`'s check and the input it sends: the amount must be a
   * positive number; with no category chosen, the first offered one, or
   * none; a monthly period over the form's dates, without a description.
   */
  function PrepareCreate(userId: string, amountText: string, categoryId: string, offered: seq<CS.Category>,
                         startDate: string, endDate: string): (r: Result<CreateInput>)
    ensures !IsPositive(JsNumber(amountText)) <==> r == Err(InvalidAmount)
    ensures r.Ok? ==> r.value.amount == JsNumber(amountText).value > 0.0
    ensures r.Ok? ==> r.value.userId == userId && r.value.period == Monthly && r.value.description.None?
    ensures r.Ok? ==> r.value.startDate == startDate && r.value.endDate == endDate
    ensures r.Ok? && categoryId != "" ==> r.value.categoryId == categoryId
    ensures r.Ok? && categoryId == "" && offered != [] ==> r.value.categoryId == offered[0].id
    ensures r.Ok? && categoryId == "" && offered == [] ==> r.value.categoryId == ""
  {
    var num := JsNumber(amountText);
    if !IsPositive(num) then Err(InvalidAmount)
    else
      var chosen := if categoryId != "" then categoryId else if offered != [] then offered[0].id else "";
      Ok(CreateInput(userId, chosen, num.value, Monthly, startDate, endDate, None))
  }

  /**
   * `handleEdit`'s check and the input it sends: the amount must be a
   * positive number; category, amount and dates are all sent, the
   * description is left as it is.
   */
  function PrepareEdit(amountText: string, categoryId: string, startDate: string, endDate: string)
    : (r: Result<UpdateInput>)
    ensures !IsPositive(JsNumber(amountText)) <==> r == Err(InvalidAmount)
    ensures r.Ok? ==> r.value.amount == Defined(JsNumber(amountText).value) && JsNumber(amountText).value > 0.0
    ensures r.Ok? ==> r.value.categoryId == Defined(categoryId)
    ensures r.Ok? ==> r.value.startDate == Defined(startDate) && r.value.endDate == Defined(endDate)
    ensures r.Ok? ==> r.value.description.Undefined?
  {
    var num := JsNumber(amountText);
    if !IsPositive(num) then Err(InvalidAmount)
    else Ok(UpdateInput(Defined(categoryId), Defined(num.value), Defined(startDate), Defined(endDate), Undefined))
  }

  // ---------------------------------------------------------------- total

  function BudgetAmount(b: ListedBudget): real
  {
    b.budget.amount
  }

  /** `totalBudget`: the sum of the listed budgets' amounts. */
  function TotalBudget(budgets: seq<ListedBudget>): real
  {
    Sum(budgets, BudgetAmount)
  }

  /**
   * The total of budgets the forms let through (positive amounts) is
   * positive as soon as there is one, and at least each one's amount.
   */
  lemma {:induction false} TotalBudgetBounds(budgets: seq<ListedBudget>)
    requires forall i :: 0 <= i < |budgets| ==> budgets[i].budget.amount > 0.0
    ensures budgets == [] ==> TotalBudget(budgets) == 0.0
    ensures budgets != [] ==> TotalBudget(budgets) > 0.0
    ensures forall i :: 0 <= i < |budgets| ==> TotalBudget(budgets) >= budgets[i].budget.amount
  {
    if budgets != [] {
      var init := budgets[..|budgets| - 1];
      TotalBudgetBounds(init);
      forall i | 0 <= i < |budgets| ensures TotalBudget(budgets) >= budgets[i].budget.amount {
        if i < |budgets| - 1 {
          assert budgets[i] == init[i];
        }
      }
    }
  }

  /** The total does not depend on the order of the list, and adding a budget adds its amount. */
  lemma TotalBudgetOfList(budgets: seq<ListedBudget>, reordered: seq<ListedBudget>, b: ListedBudget)
    requires multiset(reordered) == multiset(budgets)
    ensures TotalBudget(reordered) == TotalBudget(budgets)
    ensures TotalBudget(budgets + [b]) == TotalBudget(budgets) + b.budget.amount
  {
    SumPermutation(reordered, budgets, BudgetAmount);
    SumAppend(budgets, [b], BudgetAmount);
  }

  // ---------------------------------------------------------------- the page

  /** What a (re)load fetched: the budgets, all categories and the currency setting, possibly empty. */
  datatype Fetched = Fetched(budgets: seq<ListedBudget>, categories: seq<CS.Category>, currency: string)

  class BudgetsPage {
    var budgets: seq<ListedBudget>
    var categories: seq<CS.Category>
    var currency: string
    var error: Option<string>
    // the create form
    var open: bool
    var amount: string
    var categoryId: string
    var startDate: string
    var endDate: string
    // the detail dialog
    var selected: Option<ListedBudget>
    var editMode: bool
    var editAmount: string
    var editCategoryId: string
    var editStartDate: string
    var editEndDate: string
    var deleteTarget: Option<ListedBudget>

    /** The form starts on the current month, `monthStart` to `monthEnd`. */
    constructor(monthStart: string, monthEnd: string)
      ensures budgets == [] && categories == [] && currency == "USD" && error.None? && !open
      ensures amount == "" && categoryId == "" && startDate == monthStart && endDate == monthEnd
      ensures selected.None? && deleteTarget.None?
    {
      budgets, categories, currency, error := [], [], "USD", None;
      open, amount, categoryId, startDate, endDate := false, "", "", monthStart, monthEnd;
      selected, editMode, editAmount, editCategoryId, editStartDate, editEndDate := None, false, "", "", "", "";
      deleteTarget := None;
    }

    /**
     * `load`: a failure is swallowed; otherwise the budgets are replaced,
     * only the expense categories are kept, a non-empty currency is taken
     * and, with no category chosen, the first expense category is.
     */
    method Load(fetched: Result<Fetched>)
      modifies this
      ensures fetched.Err? ==>
                budgets == old(budgets) && categories == old(categories) && currency == old(currency)
                && categoryId == old(categoryId)
      ensures fetched.Ok? ==>
                budgets == fetched.value.budgets && categories == ExpenseCategories(fetched.value.categories)
                && categoryId == Preselected(old(categoryId), fetched.value.categories)
      ensures fetched.Ok? && fetched.value.currency != "" ==> currency == fetched.value.currency
      ensures fetched.Ok? && fetched.value.currency == "" ==> currency == old(currency)
      ensures error == old(error) && selected == old(selected) && deleteTarget == old(deleteTarget)
      ensures open == old(open) && amount == old(amount)
    {
      if fetched.Err? {
        return;
      }
      budgets := fetched.value.budgets;
      categories := ExpenseCategories(fetched.value.categories);
      if fetched.value.currency != "" {
        currency := fetched.value.currency;
      }
      categoryId := Preselected(categoryId, fetched.value.categories);
    }

    /**
     * `handleSubmit`.  `created` is the outcome of `create`, `reloaded` that
     * of the reload after it; `sent` is the input when `create` was called.
     */
    method HandleSubmit(userId: string, created: Result<()>, reloaded: Result<Fetched>)
      returns (sent: Option<CreateInput>, notice: Option<string>)
      modifies this
      ensures var p := PrepareCreate(userId, old(amount), old(categoryId), old(categories), old(startDate), old(endDate));
              (p.Err? ==> error == Some(p.message) && sent.None?) && (p.Ok? ==> sent == Some(p.value))
      ensures sent.None? || created.Err? ==>
                budgets == old(budgets) && open == old(open) && amount == old(amount) && notice.None?
      ensures sent.Some? && created.Err? ==> error == Some(created.message)
      ensures sent.Some? && created.Ok? ==>
                error.None? && !open && amount == "" && notice == Some(Added)
                && (reloaded.Ok? ==> budgets == reloaded.value.budgets)
                && (reloaded.Err? ==> budgets == old(budgets))
      ensures selected == old(selected)
    {
      error, notice := None, None;
      var prepared := PrepareCreate(userId, amount, categoryId, categories, startDate, endDate);
      if prepared.Err? {
        error := Some(prepared.message);
        return None, None;
      }
      sent := Some(prepared.value);
      if created.Err? {
        error := Some(created.message);
        return;
      }
      open, amount := false, "";
      notice := Some(Added);
      Load(reloaded);
    }

    /** `openDetail(b)`; `amountText` is `String(b.amount)`. */
    method OpenDetail(b: ListedBudget, amountText: string)
      modifies this
      ensures selected == Some(b) && !editMode && editAmount == amountText
      ensures editCategoryId == b.budget.categoryId
      ensures editStartDate == b.budget.startDate && editEndDate == b.budget.endDate
      ensures budgets == old(budgets) && error == old(error)
    {
      selected, editMode, editAmount := Some(b), false, amountText;
      editCategoryId, editStartDate, editEndDate := b.budget.categoryId, b.budget.startDate, b.budget.endDate;
    }

    /**
     * `handleEdit`.  `updated` is the outcome of `update`, `reloaded` that of
     * the reload; `sent` is what `update` was given for the selected budget.
     */
    method HandleEdit(updated: Result<()>, reloaded: Result<Fetched>) returns (sent: Option<UpdateInput>)
      modifies this
      ensures old(selected).None? ==> sent.None? && budgets == old(budgets) && error == old(error) && selected.None?
      ensures old(selected).Some? ==>
                var p := PrepareEdit(old(editAmount), old(editCategoryId), old(editStartDate), old(editEndDate));
                (p.Err? ==> error == Some(p.message) && sent.None? && selected == old(selected))
                && (p.Ok? ==> sent == Some(p.value))
      ensures sent.None? || updated.Err? ==> budgets == old(budgets)
      ensures sent.Some? && updated.Err? ==> error == Some(updated.message) && selected == old(selected)
      ensures sent.Some? && updated.Ok? ==>
                error.None? && selected.None?
                && (reloaded.Ok? ==> budgets == reloaded.value.budgets) && (reloaded.Err? ==> budgets == old(budgets))
    {
      sent := None;
      if selected.None? {
        return;
      }
      error := None;
      var prepared := PrepareEdit(editAmount, editCategoryId, editStartDate, editEndDate);
      if prepared.Err? {
        error := Some(prepared.message);
        return;
      }
      sent := Some(prepared.value);
      if updated.Err? {
        error := Some(updated.message);
        return;
      }
      Load(reloaded);
      selected := None;
    }

    /** `handleDelete`; `deleted` is the outcome of the delete call. */
    method HandleDelete(deleted: Result<()>, reloaded: Result<Fetched>)
      modifies this
      ensures old(deleteTarget).None? ==> budgets == old(budgets) && selected == old(selected) && deleteTarget.None?
      ensures old(deleteTarget).Some? && deleted.Err? ==>
                error == Some(deleted.message) && budgets == old(budgets) && deleteTarget == old(deleteTarget)
                && selected == old(selected)
      ensures old(deleteTarget).Some? && deleted.Ok? ==>
                deleteTarget.None? && selected.None? && error == old(error)
                && (reloaded.Ok? ==> budgets == reloaded.value.budgets) && (reloaded.Err? ==> budgets == old(budgets))
    {
      if deleteTarget.None? {
        return;
      }
      if deleted.Err? {
        error := Some(deleted.message);
        return;
      }
      Load(reloaded);
      deleteTarget, selected := None, None;
    }
  }
}
