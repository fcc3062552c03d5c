/**
 * The transactions page: the loaded list of transactions, its totals and
 * red-line flag, the search, and the add, edit and delete handlers that
 * change the list.  Backend calls are given their outcomes; the clock is
 * a parameter (`today`, `now`).
 */
module TransactionList {
  import opened Wrappers
  import opened Text
  import opened TransactionType
  import opened Collections
  import opened Ordering
  import opened AmountInput
  import CS = CategoryService
  import TS = TransactionService

  const Uncategorized := "Uncategorized"
  const InvalidAmount := "Enter a valid amount."
  const Added := "Transaction added"

  /** A transaction as the page holds it. */
  datatype UiTransaction = UiTransaction(
    id: string, date: string, description: Option<string>, amount: real, kind: TxType,
    categoryId: string, categoryName: string, receiptUrl: Option<string>)

  /** The page's form of a listed transaction: no category gives an empty id and the name `Uncategorized`. */
  function FromListed(t: TS.ListedTransaction): (u: UiTransaction)
    ensures u.id == t.id && u.date == t.date && u.description == t.description && u.amount == t.amount
    ensures u.kind == t.kind && u.receiptUrl == t.receiptUrl
    ensures t.category.None? ==> u.categoryId == "" && u.categoryName == Uncategorized
    ensures t.category.Some? ==> u.categoryId == t.category.value.id && u.categoryName == t.category.value.name
  {
    UiTransaction(t.id, t.date, t.description, t.amount, t.kind,
                  if t.category.Some? then t.category.value.id else "",
                  if t.category.Some? then t.category.value.name else Uncategorized,
                  t.receiptUrl)
  }

  function FromListedAll(txs: seq<TS.ListedTransaction>): (r: seq<UiTransaction>)
    ensures |r| == |txs| && forall i :: 0 <= i < |txs| ==> r[i] == FromListed(txs[i])
  {
    seq(|txs|, i requires 0 <= i < |txs| => FromListed(txs[i]))
  }

  // ---------------------------------------------------------------- totals

  function AmountOf(t: UiTransaction): real { t.amount }

  function OfKind(k: TxType): UiTransaction -> bool
  {
    (t: UiTransaction) => t.kind == k
  }

  /** The amounts of the transactions of kind `k`, summed. */
  function KindTotal(txs: seq<UiTransaction>, k: TxType): real
  {
    Sum(Filter(txs, OfKind(k)), AmountOf)
  }

  datatype Totals = Totals(
    totalExpenses: real, totalIncomeTx: real, totalIncome: real, remaining: real, isRedLine: bool)

  /** The memoised totals of the page. */
  function ComputeTotals(txs: seq<UiTransaction>, grossIncome: Option<real>, redLine: Option<real>): (r: Totals)
    ensures r.totalExpenses == KindTotal(txs, Expense) && r.totalIncomeTx == KindTotal(txs, Income)
    ensures r.remaining == (if grossIncome.Some? then grossIncome.value else 0.0) + r.totalIncomeTx - r.totalExpenses
    ensures r.isRedLine <==> redLine.Some? && r.remaining <= redLine.value
  {
    var expenses := KindTotal(txs, Expense);
    var incomeTx := KindTotal(txs, Income);
    var income := (if grossIncome.Some? then grossIncome.value else 0.0) + incomeTx;
    var rem := income - expenses;
    Totals(expenses, incomeTx, income, rem, redLine.Some? && rem <= redLine.value)
  }

  /** Every transaction is income or expense: the two totals add up to the sum of all amounts. */
  lemma TotalsCoverAll(txs: seq<UiTransaction>, grossIncome: Option<real>, redLine: Option<real>)
    ensures ComputeTotals(txs, grossIncome, redLine).totalIncomeTx
          + ComputeTotals(txs, grossIncome, redLine).totalExpenses == Sum(txs, AmountOf)
  {
    SumSplit(txs, OfKind(Income), OfKind(Expense), AmountOf);
  }

  /** The total of a kind depends only on which transactions there are, not on their order. */
  lemma KindTotalPermutation(a: seq<UiTransaction>, b: seq<UiTransaction>, k: TxType)
    requires multiset(a) == multiset(b)
    ensures KindTotal(a, k) == KindTotal(b, k)
  {
    SumFilter(a, OfKind(k), AmountOf);
    SumFilter(b, OfKind(k), AmountOf);
    SumPermutation(a, b, Masked(OfKind(k), AmountOf));
  }

  /** One more transaction adds its amount to the total of its kind only. */
  lemma KindTotalCons(t: UiTransaction, s: seq<UiTransaction>, k: TxType)
    ensures KindTotal([t] + s, k) == KindTotal(s, k) + (if t.kind == k then t.amount else 0.0)
  {
    assert Filter([t] + s, OfKind(k)) == (if t.kind == k then [t] else []) + Filter(s, OfKind(k)) by {
      assert ([t] + s)[1..] == s;
    }
    SumAppend(if t.kind == k then [t] else [], Filter(s, OfKind(k)), AmountOf);
    assert Sum([t], AmountOf) == t.amount by { assert [t][..0] == []; }
  }

  // ---------------------------------------------------------------- search

  /** The search test for the lower-cased query `q`. */
  function MatchesQuery(q: string): UiTransaction -> bool
  {
    (t: UiTransaction) =>
      (t.description.Some? && Contains(Lower(t.description.value), q)) || Contains(Lower(t.categoryName), q)
  }

  /** `filteredTransactions`. */
  function Search(txs: seq<UiTransaction>, search: string): seq<UiTransaction>
  {
    Filter(txs, MatchesQuery(Lower(search)))
  }

  /**
   * A transaction is listed exactly when it is one of the page's and its
   * lower-cased description or category name contains the lower-cased query.
   */
  lemma SearchExactly(txs: seq<UiTransaction>, search: string, t: UiTransaction)
    ensures t in Search(txs, search) <==>
      t in txs && ((t.description.Some? && Contains(Lower(t.description.value), Lower(search)))
                   || Contains(Lower(t.categoryName), Lower(search)))
  {
    if t in Search(txs, search) {
      FilterMember(txs, MatchesQuery(Lower(search)), t);
    }
    if t in txs && MatchesQuery(Lower(search))(t) {
      FilterKeeps(txs, MatchesQuery(Lower(search)), t);
    }
  }

  /** An empty search lists every transaction, in order. */
  lemma SearchEmpty(txs: seq<UiTransaction>)
    ensures Search(txs, "") == txs
  {
    assert Lower("") == [];
    forall i | 0 <= i < |txs| ensures MatchesQuery([])(txs[i]) {
      ContainsEmpty(Lower(txs[i].categoryName));
    }
    FilterAll(txs, MatchesQuery([]));
  }

  // ---------------------------------------------------------------- categories

  function IsKind(k: TxType): CS.Category -> bool
  {
    (c: CS.Category) => c.kind == k
  }

  function HasId(id: string): CS.Category -> bool
  {
    (c: CS.Category) => c.id == id
  }

  predicate IsOfKindWithId(cats: seq<CS.Category>, k: TxType, id: string)
  {
    exists i :: 0 <= i < |cats| && cats[i].id == id && cats[i].kind == k
  }

  /**
   * The selection the category effects settle on: a selection that is a
   * category of kind `k` is kept; otherwise the first category of that kind
   * is selected, if there is one.
   */
  function SyncCategory(cats: seq<CS.Category>, k: TxType, current: string): (id: string)
    ensures IsOfKindWithId(cats, k, current) ==> id == current
    ensures !IsOfKindWithId(cats, k, current) && FindIndex(cats, IsKind(k)) < |cats| ==>
              id == cats[FindIndex(cats, IsKind(k))].id
    ensures FindIndex(cats, IsKind(k)) == |cats| ==> id == current
  {
    var first := FindIndex(cats, IsKind(k));
    if !IsOfKindWithId(cats, k, current) && first < |cats| then cats[first].id else current
  }

  /** Once some category has kind `k`, the settled selection is one of them, and a second run keeps it. */
  lemma SyncCategorySettles(cats: seq<CS.Category>, k: TxType, current: string, i: nat)
    requires i < |cats| && cats[i].kind == k
    ensures IsOfKindWithId(cats, k, SyncCategory(cats, k, current))
    ensures SyncCategory(cats, k, SyncCategory(cats, k, current)) == SyncCategory(cats, k, current)
  {
    var first := FindIndex(cats, IsKind(k));
    assert first <= i;
  }

  /**
   * The category `handleEdit` saves: the selection when it is of the edit
   * kind, else the first category of that kind, else the transaction's own.
   */
  function EditCategory(cats: seq<CS.Category>, k: TxType, selected: string, original: string): (id: string)
    ensures IsOfKindWithId(cats, k, selected) ==> id == selected
    ensures !IsOfKindWithId(cats, k, selected) && FindIndex(cats, IsKind(k)) < |cats| ==>
              id == cats[FindIndex(cats, IsKind(k))].id
    ensures FindIndex(cats, IsKind(k)) == |cats| ==> id == original
  {
    var typeCats := Filter(cats, IsKind(k));
    FilterHead(cats, IsKind(k));
    if exists i :: 0 <= i < |typeCats| && typeCats[i].id == selected then selected
    else if typeCats != [] then typeCats[0].id
    else original
  }

  /** The name shown for category `id`: the name of the first category with that id, else `Uncategorized`. */
  function CategoryNameOf(cats: seq<CS.Category>, id: string): (name: string)
    ensures FindIndex(cats, HasId(id)) < |cats| ==> name == cats[FindIndex(cats, HasId(id))].name
    ensures FindIndex(cats, HasId(id)) == |cats| ==> name == Uncategorized
  {
    var k := FindIndex(cats, HasId(id));
    if k < |cats| then cats[k].name else Uncategorized
  }

  function IsUncategorizedExpense(c: CS.Category): bool
  {
    c.name == Uncategorized && c.kind == Expense
  }

  /**
   * The selection after loading: with categories and no selection, the
   * `Uncategorized` expense category, else the first category.
   */
  function LoadedCategory(cats: seq<CS.Category>, current: string): (id: string)
    ensures cats == [] || current != "" ==> id == current
    ensures cats != [] && current == "" && FindIndex(cats, IsUncategorizedExpense) < |cats| ==>
              id == cats[FindIndex(cats, IsUncategorizedExpense)].id
    ensures cats != [] && current == "" && FindIndex(cats, IsUncategorizedExpense) == |cats| ==>
              id == cats[0].id
  {
    var u := FindIndex(cats, IsUncategorizedExpense);
    if cats != [] && current == "" then (if u < |cats| then cats[u].id else cats[0].id) else current
  }

  // ---------------------------------------------------------------- list updates

  /**
   * `(a, b) => b.date.localeCompare(a.date)`: `a` goes first when its date is
   * later, with dates compared code unit by code unit.
   */
  function NewerFirst(): (UiTransaction, UiTransaction) -> bool
  {
    (a: UiTransaction, b: UiTransaction) => LexLess(b.date, a.date)
  }

  lemma NewerFirstIsStrict()
    ensures StrictOrder(NewerFirst())
  {
    forall a: UiTransaction ensures !NewerFirst()(a, a) {
      LexLessIrreflexive(a.date);
    }
    forall a: UiTransaction, b: UiTransaction, c: UiTransaction | NewerFirst()(a, b) && NewerFirst()(b, c)
      ensures NewerFirst()(a, c)
    {
      LexLessTransitive(c.date, b.date, a.date);
    }
  }

  /** The list after an add: the new transaction in front of the old ones, sorted by date, latest first. */
  function WithAdded(t: UiTransaction, txs: seq<UiTransaction>): seq<UiTransaction>
  {
    SortBy([t] + txs, NewerFirst())
  }

  /**
   * After an add the list holds the new transaction and every previous one,
   * sorted by date with the latest first, and the totals move by the new amount.
   */
  lemma WithAddedFacts(t: UiTransaction, txs: seq<UiTransaction>)
    ensures multiset(WithAdded(t, txs)) == multiset(txs) + multiset{t}
    ensures forall i, j :: 0 <= i < j < |WithAdded(t, txs)| ==>
              !LexLess(WithAdded(t, txs)[i].date, WithAdded(t, txs)[j].date)
    ensures forall k :: KindTotal(WithAdded(t, txs), k) == KindTotal(txs, k) + (if t.kind == k then t.amount else 0.0)
  {
    var r := WithAdded(t, txs);
    NewerFirstIsStrict();
    SortBySorted([t] + txs, NewerFirst());
    forall k ensures KindTotal(r, k) == KindTotal(txs, k) + (if t.kind == k then t.amount else 0.0) {
      KindTotalPermutation(r, [t] + txs, k);
      KindTotalCons(t, txs, k);
    }
  }

  /** The fields `handleEdit` writes into the edited transaction. */
  datatype Edit = Edit(
    amount: real, kind: TxType, categoryId: string, categoryName: string, date: string,
    description: Option<string>, receiptUrl: Option<string>)

  function Apply(t: UiTransaction, e: Edit): (u: UiTransaction)
    ensures u.id == t.id
    ensures u == UiTransaction(t.id, e.date, e.description, e.amount, e.kind, e.categoryId, e.categoryName, e.receiptUrl)
  {
    t.(amount := e.amount, kind := e.kind, categoryId := e.categoryId, categoryName := e.categoryName,
       date := e.date, description := e.description, receiptUrl := e.receiptUrl)
  }

  /** `prev.map((t) => t.id === id ? {...t, ...edit} : t)`. */
  function ReplaceById(txs: seq<UiTransaction>, id: string, e: Edit): (r: seq<UiTransaction>)
    ensures |r| == |txs|
    ensures forall i :: 0 <= i < |txs| ==> r[i] == if txs[i].id == id then Apply(txs[i], e) else txs[i]
  {
    seq(|txs|, i requires 0 <= i < |txs| => if txs[i].id == id then Apply(txs[i], e) else txs[i])
  }

  /** An edit keeps every id in its place, and editing an id nobody has changes nothing. */
  lemma ReplaceByIdIds(txs: seq<UiTransaction>, id: string, e: Edit)
    ensures forall i :: 0 <= i < |txs| ==> ReplaceById(txs, id, e)[i].id == txs[i].id
    ensures (forall i :: 0 <= i < |txs| ==> txs[i].id != id) ==> ReplaceById(txs, id, e) == txs
  {
  }

  function NotId(id: string): UiTransaction -> bool
  {
    (t: UiTransaction) => t.id != id
  }

  /** `prev.filter((t) => t.id !== id)`. */
  function WithoutId(txs: seq<UiTransaction>, id: string): seq<UiTransaction>
  {
    Filter(txs, NotId(id))
  }

  /** A delete removes exactly the transactions with that id. */
  lemma WithoutIdExactly(txs: seq<UiTransaction>, id: string, t: UiTransaction)
    ensures t in WithoutId(txs, id) <==> t in txs && t.id != id
  {
    if t in WithoutId(txs, id) {
      FilterMember(txs, NotId(id), t);
    }
    if t in txs && t.id != id {
      FilterKeeps(txs, NotId(id), t);
    }
  }

  /** Deleting an id nobody has leaves the list as it is. */
  lemma WithoutUnknownId(txs: seq<UiTransaction>, id: string)
    requires forall i :: 0 <= i < |txs| ==> txs[i].id != id
    ensures WithoutId(txs, id) == txs
  {
    FilterAll(txs, NotId(id));
  }

  // ---------------------------------------------------------------- adding

  /** The add form: amount text, kind, selected category, description and the chosen receipt's file name. */
  datatype AddFormState = AddFormState(
    amount: string, kind: TxType, categoryId: string, description: string, receiptFile: Option<string>)

  /**
   * The checks and the receipt upload `handleAdd` makes before it inserts,
   * and the insert's input they lead to.  `listed` is the outcome of listing
   * the categories (needed only without a selection), `storage` and
   * `publicUrl` the upload's.  The amount must read as positive, and each
   * failing step stops the handler with its message.
   */
  function PrepareAdd(form: AddFormState, userId: string, listed: Result<seq<CS.Category>>,
                      now: string, storage: Result<()>, publicUrl: string, today: string)
    : (r: Result<TS.CreateInput>)
    ensures ParseAmountFromDisplay(form.amount) <= 0.0 ==> r == Err(InvalidAmount)
    ensures ParseAmountFromDisplay(form.amount) > 0.0 && form.categoryId == "" && listed.Err? ==>
              r == Err(listed.message)
    ensures ParseAmountFromDisplay(form.amount) > 0.0 && (form.categoryId != "" || listed.Ok?)
            && form.receiptFile.Some?
            && TS.UploadReceipt(form.receiptFile.value, userId, now, storage, publicUrl).result.Err? ==>
              r == Err(TS.UploadReceipt(form.receiptFile.value, userId, now, storage, publicUrl).result.message)
    ensures r.Ok? ==>
              var input := r.value;
              input.amount == ParseAmountFromDisplay(form.amount) > 0.0
              && input.userId == userId && input.kind == form.kind && input.date == today
              && (form.categoryId != "" ==> input.categoryId == form.categoryId)
              && (form.categoryId == "" ==> listed.Ok? && input.categoryId == CS.PickUncategorized(listed.value))
              && (input.description.Defined? <==> form.description != "")
              && (input.description.Defined? ==> input.description.value == form.description)
              && (input.receiptUrl.Defined? <==> form.receiptFile.Some?)
              && !input.receiptUrl.Null? && !input.description.Null?
    ensures r.Ok? && form.receiptFile.Some? ==>
              r.value.receiptUrl.value == publicUrl
              && TS.UploadReceipt(form.receiptFile.value, userId, now, storage, publicUrl).result.Ok?
  {
    var amountNumber := ParseAmountFromDisplay(form.amount);
    if amountNumber <= 0.0 then Err(InvalidAmount)
    else if form.categoryId == "" && listed.Err? then Err(listed.message)
    else
      var catId := if form.categoryId != "" then form.categoryId else CS.PickUncategorized(listed.value);
      var attempt :=
        if form.receiptFile.Some? then TS.UploadReceipt(form.receiptFile.value, userId, now, storage, publicUrl).result
        else Ok(TS.StoredReceipt("", ""));
      if attempt.Err? then Err(attempt.message)
      else
        Ok(TS.CreateInput(userId, amountNumber, form.kind, catId, today,
                          if form.description == "" then Undefined else Defined(form.description),
                          if form.receiptFile.Some? then Defined(attempt.value.publicUrl) else Undefined))
  }

  /**
   * The transaction `handleAdd` puts on the page: the inserted row with the
   * id the insert returned and the name of its category.
   */
  function AddedTransaction(input: TS.CreateInput, id: string, cats: seq<CS.Category>): (t: UiTransaction)
    ensures t.id == id && t.amount == input.amount && t.kind == input.kind && t.date == input.date
    ensures t.categoryId == input.categoryId && t.categoryName == CategoryNameOf(cats, input.categoryId)
    ensures t.description.Some? <==> input.description.Defined?
    ensures t.description.Some? ==> t.description.value == input.description.value
    ensures t.receiptUrl.Some? <==> input.receiptUrl.Defined?
    ensures t.receiptUrl.Some? ==> t.receiptUrl.value == input.receiptUrl.value
  {
    var row := TS.CreateRow(input);
    UiTransaction(id, row.date, row.description, row.amount, row.kind,
                  row.categoryId, CategoryNameOf(cats, row.categoryId), row.receiptUrl)
  }

  // ---------------------------------------------------------------- editing

  /**
   * The checks and the receipt upload `handleEdit` makes before it
   * updates, and the update's input they lead to.  `catId` is the category
   * the form resolves to, `receiptFile` a newly chosen receipt and
   * `receiptUrl` the one the transaction already has.  The amount must read
   * as positive and a new receipt must upload; otherwise the handler stops
   * with the message.
   */
  function PrepareEdit(amountText: string, kind: TxType, catId: string, date: string, description: string,
                       receiptFile: Option<string>, receiptUrl: Option<string>,
                       userId: string, now: string, storage: Result<()>, publicUrl: string)
    : (r: Result<TS.UpdateInput>)
    ensures r.Ok? <==>
              ParseAmountFromDisplay(amountText) > 0.0
              && (receiptFile.Some? ==> TS.UploadReceipt(receiptFile.value, userId, now, storage, publicUrl).result.Ok?)
    ensures ParseAmountFromDisplay(amountText) <= 0.0 ==> r == Err(InvalidAmount)
    ensures ParseAmountFromDisplay(amountText) > 0.0 && receiptFile.Some?
            && TS.UploadReceipt(receiptFile.value, userId, now, storage, publicUrl).result.Err? ==>
              r == Err(TS.UploadReceipt(receiptFile.value, userId, now, storage, publicUrl).result.message)
    ensures r.Ok? ==>
              var input := r.value;
              input.amount == Defined(ParseAmountFromDisplay(amountText))
              && input.kind == Defined(kind) && input.categoryId == Defined(catId) && input.date == Defined(date)
              && (input.description.Null? <==> description == "")
              && (description != "" ==> input.description == Defined(description))
              && !input.description.Undefined? && !input.receiptUrl.Undefined?
              && (receiptFile.Some? ==> input.receiptUrl == Defined(publicUrl))
              && (receiptFile.None? ==> OrNull(input.receiptUrl) == receiptUrl)
  {
    var amountNumber := ParseAmountFromDisplay(amountText);
    if amountNumber <= 0.0 then Err(InvalidAmount)
    else
      var attempt :=
        if receiptFile.Some? then TS.UploadReceipt(receiptFile.value, userId, now, storage, publicUrl).result
        else Ok(TS.StoredReceipt("", ""));
      if attempt.Err? then Err(attempt.message)
      else
        var finalUrl := if receiptFile.Some? then Some(attempt.value.publicUrl) else receiptUrl;
        Ok(TS.UpdateInput(
          Defined(amountNumber), Defined(kind), Defined(catId), Defined(date),
          if description == "" then Null else Defined(description),
          if finalUrl.Some? then Defined(finalUrl.value) else Null))
  }

  // ---------------------------------------------------------------- the page

  /** What `load` fetched: the listed transactions, the categories and the non-null settings. */
  datatype Loaded = Loaded(
    txs: seq<TS.ListedTransaction>, cats: seq<CS.Category>,
    grossIncome: Option<real>, redLine: Option<real>, currency: string)

  class TransactionPage {
    var transactions: seq<UiTransaction>
    var categories: seq<CS.Category>
    var grossIncome: Option<real>
    var redLineAmount: Option<real>
    var currency: string
    var search: string
    var error: Option<string>
    // the add form
    var amount: string
    var kind: TxType
    var categoryId: string
    var description: string
    var receiptFile: Option<string>
    // the edit dialog
    var editing: Option<UiTransaction>
    var editAmount: string
    var editType: TxType
    var editCategoryId: string
    var editDate: string
    var editDescription: string
    var editReceiptUrl: Option<string>
    var editReceiptFile: Option<string>
    var deleteTarget: Option<UiTransaction>

    constructor()
      ensures transactions == [] && categories == [] && grossIncome.None? && redLineAmount.None?
      ensures currency == "USD" && search == "" && error.None?
      ensures amount == "" && kind == Expense && categoryId == "" && description == "" && receiptFile.None?
      ensures editing.None? && deleteTarget.None?
    {
      transactions, categories, grossIncome, redLineAmount := [], [], None, None;
      currency, search, error := "USD", "", None;
      amount, kind, categoryId, description, receiptFile := "", Expense, "", "", None;
      editing, editAmount, editType, editCategoryId, editDate := None, "", Expense, "", "";
      editDescription, editReceiptUrl, editReceiptFile, deleteTarget := "", None, None, None;
    }

    /** The totals of the current list. */
    function Totals(): (r: Totals)
      reads this
      ensures r == ComputeTotals(transactions, grossIncome, redLineAmount)
    {
      ComputeTotals(transactions, grossIncome, redLineAmount)
    }

    /** The load effect: a failed fetch shows its message; otherwise the page takes what was fetched. */
    method Load(fetched: Result<Loaded>)
      modifies this
      ensures fetched.Err? ==> error == Some(fetched.message) && transactions == old(transactions)
                               && categories == old(categories) && categoryId == old(categoryId)
      ensures fetched.Ok? ==> error == old(error) && categories == fetched.value.cats
                              && transactions == FromListedAll(fetched.value.txs)
                              && categoryId == LoadedCategory(fetched.value.cats, old(categoryId))
      ensures fetched.Ok? && fetched.value.grossIncome.Some? ==> grossIncome == fetched.value.grossIncome
      ensures fetched.Ok? && fetched.value.grossIncome.None? ==> grossIncome == old(grossIncome)
      ensures fetched.Ok? && fetched.value.redLine.Some? ==> redLineAmount == fetched.value.redLine
      ensures fetched.Ok? && fetched.value.redLine.None? ==> redLineAmount == old(redLineAmount)
      ensures fetched.Ok? && fetched.value.currency != "" ==> currency == fetched.value.currency
      ensures fetched.Err? || fetched.value.currency == "" ==> currency == old(currency)
      ensures fetched.Err? ==> grossIncome == old(grossIncome) && redLineAmount == old(redLineAmount)
    {
      if fetched.Err? {
        error := Some(fetched.message);
        return;
      }
      var loaded := fetched.value;
      categories := loaded.cats;
      if loaded.grossIncome.Some? {
        grossIncome := loaded.grossIncome;
      }
      if loaded.redLine.Some? {
        redLineAmount := loaded.redLine;
      }
      if loaded.currency != "" {
        currency := loaded.currency;
      }
      categoryId := LoadedCategory(loaded.cats, categoryId);
      transactions := FromListedAll(loaded.txs);
    }

    /** The effect on `[type, categories, categoryId]`. */
    method SyncAddCategory()
      modifies this
      ensures categoryId == SyncCategory(categories, kind, old(categoryId))
      ensures transactions == old(transactions) && categories == old(categories) && kind == old(kind)
    {
      categoryId := SyncCategory(categories, kind, categoryId);
    }

    /** The effect on `[editing, editType, categories, editCategoryId]`. */
    method SyncEditCategory()
      modifies this
      ensures editing.Some? ==> editCategoryId == SyncCategory(categories, editType, old(editCategoryId))
      ensures editing.None? ==> editCategoryId == old(editCategoryId)
      ensures editing == old(editing) && categories == old(categories) && editType == old(editType)
    {
      if editing.Some? {
        editCategoryId := SyncCategory(categories, editType, editCategoryId);
      }
    }

    /**
     * Typing into the add form's amount field, as wired: the handler gets the
     * field's current text, so an empty field stays empty and the field only
     * ever shows a handler fixed point.
     */
    method TypeAmount(typed: string)
      modifies this
      ensures amount == AmountFieldAsWritten(old(amount), typed)
      ensures old(amount) == "" ==> amount == ""
      ensures HandleAmountInputChange(amount) == amount
      ensures transactions == old(transactions) && kind == old(kind) && categoryId == old(categoryId)
              && description == old(description) && editAmount == old(editAmount)
    {
      amount := AmountFieldAsWritten(amount, typed);
      AmountFieldAsWrittenIgnoresTyping(old(amount), typed);
      HandleIdempotent(old(amount));
    }

    /** The add form's amount field with the typed text passed on: it shows the sanitised typed text. */
    method TypeAmountIntended(typed: string)
      modifies this
      ensures amount == AmountField(typed)
      ensures ParseAmountFromDisplay(amount) >= 0.0
      ensures transactions == old(transactions) && kind == old(kind) && categoryId == old(categoryId)
              && description == old(description) && editAmount == old(editAmount)
    {
      amount := AmountField(typed);
      HandleParseNonNegative(typed);
    }

    /** Typing into the edit dialog's amount field, as wired (see `TypeAmount`). */
    method TypeEditAmount(typed: string)
      modifies this
      ensures editAmount == AmountFieldAsWritten(old(editAmount), typed)
      ensures old(editAmount) == "" ==> editAmount == ""
      ensures HandleAmountInputChange(editAmount) == editAmount
      ensures transactions == old(transactions) && editing == old(editing) && amount == old(amount)
              && editType == old(editType) && editCategoryId == old(editCategoryId)
    {
      editAmount := AmountFieldAsWritten(editAmount, typed);
      AmountFieldAsWrittenIgnoresTyping(old(editAmount), typed);
      HandleIdempotent(old(editAmount));
    }

    /** The edit dialog's amount field with the typed text passed on: it shows the sanitised typed text. */
    method TypeEditAmountIntended(typed: string)
      modifies this
      ensures editAmount == AmountField(typed)
      ensures ParseAmountFromDisplay(editAmount) >= 0.0
      ensures transactions == old(transactions) && editing == old(editing) && amount == old(amount)
              && editType == old(editType) && editCategoryId == old(editCategoryId)
    {
      editAmount := AmountField(typed);
      HandleParseNonNegative(typed);
    }

    /**
     * `handleAdd`: the checks and the upload, then the insert.
     */
    method HandleAdd(userId: string, listed: Result<seq<CS.Category>>, now: string, storage: Result<()>,
                     publicUrl: string, today: string, inserted: Result<string>)
      returns (added: Option<UiTransaction>, sent: Option<TS.CreateInput>, notice: Option<string>)
      modifies this
      ensures var p := PrepareAdd(AddFormState(old(amount), old(kind), old(categoryId), old(description), old(receiptFile)),
                                  userId, listed, now, storage, publicUrl, today);
              (p.Err? ==> error == Some(p.message) && sent.None? && added.None? && notice.None?
                          && transactions == old(transactions) && amount == old(amount)
                          && description == old(description) && receiptFile == old(receiptFile))
              && (p.Ok? ==> sent == Some(p.value))
      ensures sent.Some? && inserted.Err? ==>
                error == Some(inserted.message) && added.None? && notice.None?
                && transactions == old(transactions) && amount == old(amount)
                && description == old(description) && receiptFile == old(receiptFile)
      ensures sent.Some? && inserted.Ok? ==>
                error.None? && added == Some(AddedTransaction(sent.value, inserted.value, old(categories)))
                && transactions == WithAdded(added.value, old(transactions)) && notice == Some(Added)
                && amount == "" && description == "" && receiptFile.None?
      ensures categories == old(categories) && kind == old(kind) && categoryId == old(categoryId)
    {
      added, sent, notice := None, None, None;
      var prepared := PrepareAdd(AddFormState(amount, kind, categoryId, description, receiptFile),
                                 userId, listed, now, storage, publicUrl, today);
      if prepared.Err? {
        error := Some(prepared.message);
        return;
      }
      sent := Some(prepared.value);
      added, notice := CompleteAdd(prepared.value, inserted);
    }

    /** The insert's outcome: on success the new transaction joins the list and the form is cleared. */
    method CompleteAdd(input: TS.CreateInput, inserted: Result<string>)
      returns (added: Option<UiTransaction>, notice: Option<string>)
      modifies this
      ensures inserted.Err? ==>
                error == Some(inserted.message) && added.None? && notice.None?
                && transactions == old(transactions) && amount == old(amount)
                && description == old(description) && receiptFile == old(receiptFile)
      ensures inserted.Ok? ==>
                error.None? && added == Some(AddedTransaction(input, inserted.value, old(categories)))
                && transactions == WithAdded(added.value, old(transactions)) && notice == Some(Added)
                && amount == "" && description == "" && receiptFile.None?
      ensures categories == old(categories) && kind == old(kind) && categoryId == old(categoryId)
    {
      if inserted.Err? {
        error := Some(inserted.message);
        return None, None;
      }
      var t := AddedTransaction(input, inserted.value, categories);
      transactions := WithAdded(t, transactions);
      error, amount, description, receiptFile := None, "", "", None;
      added, notice := Some(t), Some(Added);
    }

    /** `openEdit(tx)`; `amountText` is the en-US rendering of the amount with at most two decimals. */
    method OpenEdit(tx: UiTransaction, amountText: string)
      modifies this
      ensures editing == Some(tx) && editAmount == amountText && editType == tx.kind
      ensures editCategoryId == tx.categoryId && editDate == tx.date && editReceiptUrl == tx.receiptUrl
      ensures editDescription == (if tx.description.Some? then tx.description.value else "")
      ensures editReceiptFile.None? && transactions == old(transactions)
    {
      editing, editAmount, editType, editCategoryId, editDate := Some(tx), amountText, tx.kind, tx.categoryId, tx.date;
      editDescription := if tx.description.Some? then tx.description.value else "";
      editReceiptUrl, editReceiptFile := tx.receiptUrl, None;
    }

    /**
     * `handleEdit`.  `storage` and `publicUrl` are the outcome of uploading
     * a newly chosen receipt, `updated` that of the update; `patch` is the
     * update's input when it was attempted.
     */
    method HandleEdit(userId: string, now: string, storage: Result<()>, publicUrl: string, updated: Result<()>)
      returns (patch: Option<TS.UpdateInput>)
      modifies this
      ensures old(editing).None? ==> transactions == old(transactions) && error == old(error) && patch.None?
      ensures old(editing).Some? ==>
                var prepared := PrepareEdit(old(editAmount), old(editType),
                                  EditCategory(old(categories), old(editType), old(editCategoryId),
                                               old(editing).value.categoryId),
                                  old(editDate), old(editDescription), old(editReceiptFile), old(editReceiptUrl),
                                  userId, now, storage, publicUrl);
                (prepared.Err? ==> error == Some(prepared.message) && patch.None?)
                && (prepared.Ok? ==> patch == Some(prepared.value))
      ensures patch.Some? && updated.Ok? ==>
                editing.None? && error.None?
                && transactions == ReplaceById(old(transactions), old(editing).value.id,
                     Edit(patch.value.amount.value, patch.value.kind.value, patch.value.categoryId.value,
                          CategoryNameOf(old(categories), patch.value.categoryId.value), patch.value.date.value,
                          OrNull(patch.value.description), OrNull(patch.value.receiptUrl)))
      ensures !(patch.Some? && updated.Ok?) ==> transactions == old(transactions)
      ensures patch.Some? && updated.Err? ==> error == Some(updated.message) && editing == old(editing)
      ensures categories == old(categories)
    {
      patch := None;
      if editing.None? {
        return;
      }
      var catId := EditCategory(categories, editType, editCategoryId, editing.value.categoryId);
      var prepared := PrepareEdit(editAmount, editType, catId, editDate, editDescription,
                                  editReceiptFile, editReceiptUrl, userId, now, storage, publicUrl);
      if prepared.Err? {
        error := Some(prepared.message);
        return;
      }
      var input := prepared.value;
      patch := Some(input);
      if updated.Err? {
        error := Some(updated.message);
        return;
      }
      var e := Edit(input.amount.value, input.kind.value, catId, CategoryNameOf(categories, catId), input.date.value,
                    OrNull(input.description), OrNull(input.receiptUrl));
      transactions := ReplaceById(transactions, editing.value.id, e);
      editing, error := None, None;
    }

    /** `handleDelete`; `deleted` is the outcome of the delete call. */
    method HandleDelete(deleted: Result<()>)
      modifies this
      ensures old(deleteTarget).None? ==> transactions == old(transactions) && deleteTarget.None?
      ensures old(deleteTarget).Some? && deleted.Ok? ==>
                transactions == WithoutId(old(transactions), old(deleteTarget).value.id) && deleteTarget.None?
      ensures old(deleteTarget).Some? && deleted.Err? ==>
                transactions == old(transactions) && error == Some(deleted.message) && deleteTarget == old(deleteTarget)
    {
      if deleteTarget.None? {
        return;
      }
      if deleted.Err? {
        error := Some(deleted.message);
        return;
      }
      transactions := WithoutId(transactions, deleteTarget.value.id);
      deleteTarget := None;
    }
  }
}
