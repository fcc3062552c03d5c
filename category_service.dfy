/**
 * The category service: the built-in default categories, the per-user list
 * (deduplicated by type and normalised name, at most five income and six
 * expense categories, defaults first), the insertion of missing defaults
 * and the choice of the category used for uncategorised transactions.
 * Backend queries are given outcomes; the cache is a field.
 */
module CategoryService {
  import opened Text
  import opened Wrappers
  import opened Sorting
  import opened Collections
  import opened TransactionType

  /** A `categories` row. */
  datatype Category = Category(
    id: string, userId: string, name: string, kind: TxType, budgetLimit: Option<real>, color: string)

  /** An entry of the default table; its budget limit is `null`. */
  datatype DefaultCategory = DefaultCategory(name: string, kind: TxType, color: string)

  /** A row `ensureDefaults` inserts (its budget limit is `null`). */
  datatype NewCategory = NewCategory(userId: string, name: string, kind: TxType, color: string)

  const Defaults: seq<DefaultCategory> := [
    DefaultCategory("Salary / Wages", Income, "#059669"),
    DefaultCategory("Business / Freelance", Income, "#10b981"),
    DefaultCategory("Investments", Income, "#0d9488"),
    DefaultCategory("Gifts / Support", Income, "#34d399"),
    DefaultCategory("Other Income", Income, "#bbf7d0"),
    DefaultCategory("Housing / Rent", Expense, "#a855f7"),
    DefaultCategory("Food / Groceries", Expense, "#f59e0b"),
    DefaultCategory("Transportation", Expense, "#3b82f6"),
    DefaultCategory("Bills & Subscriptions", Expense, "#8b5cf6"),
    DefaultCategory("Health & Personal Care", Expense, "#06b6d4"),
    DefaultCategory("Other Expenses", Expense, "#64748b")
  ]

  /** `name.toLowerCase().trim()`. */
  function Norm(name: string): string
  {
    Trim(Lower(name))
  }

  /**
   * The deduplication key `${type}:${normalised name}`.  The type text
   * holds no colon, so comparing the texts is comparing the pairs.
   */
  function Key(c: Category): (TxType, string)
  {
    (c.kind, Norm(c.name))
  }

  // ---------------------------------------------------------------- dedup

  /** The deduplicated rows (`uniqueRows`): the first row of each key, in order. */
  function Dedup(rows: seq<Category>): seq<Category>
  {
    FirstOfEach(rows, Key, |rows|)
  }

  /** The `seen` map filled by the `forEach` loop; its values, in insertion order, are `uniqueRows`. */
  method DedupRows(rows: seq<Category>) returns (unique: seq<Category>)
    ensures unique == Dedup(rows)
  {
    unique := FirstOfEachByMap(rows, Key);
  }

  /**
   * `uniqueRows`: one row per (type, normalised name), every key of the
   * query's rows is represented, and by the first row the query returned
   * with that key.
   */
  lemma DedupKeepsFirst(rows: seq<Category>)
    ensures KeysDistinct(Dedup(rows), Key)
    ensures forall i :: 0 <= i < |rows| ==> HasKeyOf(Dedup(rows), Key, rows[i])
    ensures forall k :: 0 <= k < |Dedup(rows)| ==> IsFirstAmong(rows, Key, |rows|, Dedup(rows)[k])
  {
    FirstOfEachDistinct(rows, Key, |rows|);
    FirstOfEachCovers(rows, Key, |rows|);
    FirstOfEachFirsts(rows, Key, |rows|);
  }

  // ---------------------------------------------------------------- top five

  function IsDefaultOf(t: TxType): DefaultCategory -> bool
  {
    (d: DefaultCategory) => d.kind == t
  }

  /*
   * The functions below take the default table as `table`; the service
   * passes `Defaults`.  The properties proved about them hold for any table.
   */

  /** The defaults of one type, in table order. */
  function DefaultsOf(table: seq<DefaultCategory>, t: TxType): seq<DefaultCategory>
  {
    Filter(table, IsDefaultOf(t))
  }

  /** `defaultsNames`: the normalised names of the defaults of one type, in table order. */
  function DefaultNames(table: seq<DefaultCategory>, t: TxType): (names: seq<string>)
    ensures |names| == |DefaultsOf(table, t)|
  {
    var ds := DefaultsOf(table, t);
    seq(|ds|, i requires 0 <= i < |ds| => Norm(ds[i].name))
  }

  /** The application's table has five income defaults ... */
  lemma IncomeDefaultCount()
    ensures |DefaultsOf(Defaults, Income)| == 5
  {
  }

  /** ... and six expense defaults. */
  lemma ExpenseDefaultCount()
    ensures |DefaultsOf(Defaults, Expense)| == 6
  {
  }

  /** The normalised name of a default is among the default names of its type. */
  lemma DefaultNameIn(table: seq<DefaultCategory>, d: DefaultCategory)
    requires d in table
    ensures Norm(d.name) in DefaultNames(table, d.kind)
  {
    var ds := DefaultsOf(table, d.kind);
    assert d in ds;
    var k :| 0 <= k < |ds| && ds[k] == d;
    assert DefaultNames(table, d.kind)[k] == Norm(d.name);
  }

  /** `names.indexOf(x)` for a name that is in the list (the list length otherwise). */
  function IndexIn(names: seq<string>, x: string): (k: nat)
    ensures k <= |names|
    ensures k < |names| ==> names[k] == x
    ensures x in names ==> k < |names|
  {
    if names == [] then 0 else if names[0] == x then 0 else 1 + IndexIn(names[1..], x)
  }

  /** The sort key of `requested`: the position of the normalised name among the default names. */
  function RankBy(names: seq<string>): Category -> int
  {
    (c: Category) => IndexIn(names, Norm(c.name))
  }

  function IsOfType(t: TxType): Category -> bool
  {
    (c: Category) => c.kind == t
  }

  function IsNamedIn(names: seq<string>): Category -> bool
  {
    (c: Category) => Norm(c.name) in names
  }

  function NotNamedIn(names: seq<string>): Category -> bool
  {
    (c: Category) => Norm(c.name) !in names
  }

  /** The categories of one type whose normalised name is a default name (`requested`), in list order. */
  function Requested(names: seq<string>, unique: seq<Category>, t: TxType): seq<Category>
  {
    Filter(Filter(unique, IsOfType(t)), IsNamedIn(names))
  }

  /** The other categories of that type (`others`), in list order. */
  function Others(names: seq<string>, unique: seq<Category>, t: TxType): seq<Category>
  {
    Filter(Filter(unique, IsOfType(t)), NotNamedIn(names))
  }

  /** `Math.max(5, defaultsNames.length)`. */
  function Cap(names: seq<string>): nat
  {
    if |names| > 5 then |names| else 5
  }

  /** `getTop5` once the default names of the type are known. */
  function TopByNames(names: seq<string>, unique: seq<Category>, t: TxType): seq<Category>
  {
    Prefix(InsertionSort(Requested(names, unique, t), RankBy(names)) + Others(names, unique, t), Cap(names))
  }

  /** `getTop5(type)`: the requested categories in table order, then the others, cut at the cap. */
  function TopForType(table: seq<DefaultCategory>, unique: seq<Category>, t: TxType): seq<Category>
  {
    TopByNames(DefaultNames(table, t), unique, t)
  }

  /** What `list` returns for the rows a query gives. */
  function Catalogue(table: seq<DefaultCategory>, rows: seq<Category>): seq<Category>
  {
    var unique := Dedup(rows);
    TopForType(table, unique, Income) + TopForType(table, unique, Expense)
  }

  /** After deduplication no two requested categories share a default name, so their ranks differ. */
  lemma RequestedRanksDistinct(names: seq<string>, unique: seq<Category>, t: TxType)
    requires KeysDistinct(unique, Key)
    ensures RanksDistinct(Requested(names, unique, t), RankBy(names))
    ensures forall i :: 0 <= i < |Requested(names, unique, t)| ==>
      0 <= RankBy(names)(Requested(names, unique, t)[i]) < |names|
  {
    var typed := Filter(unique, IsOfType(t));
    var req := Requested(names, unique, t);
    FilterKeysDistinct(unique, IsOfType(t), Key);
    FilterKeysDistinct(typed, IsNamedIn(names), Key);
    forall i | 0 <= i < |req| ensures req[i].kind == t && Norm(req[i].name) in names {
      var k :| 0 <= k < |typed| && typed[k] == req[i];
    }
  }

  /** Sorted by rank, the requested categories have strictly increasing ranks. */
  lemma RequestedSortedStrict(names: seq<string>, unique: seq<Category>, t: TxType)
    requires KeysDistinct(unique, Key)
    ensures StrictlySorted(InsertionSort(Requested(names, unique, t), RankBy(names)), RankBy(names))
  {
    var req := Requested(names, unique, t);
    RequestedRanksDistinct(names, unique, t);
    InsertionSortSorted(req, RankBy(names));
    SortedDistinctStrict(InsertionSort(req, RankBy(names)), req, RankBy(names));
  }

  /** The requested categories sorted by rank: no more of them than default names, each named after one. */
  lemma SortedRequested(names: seq<string>, unique: seq<Category>, t: TxType)
    requires KeysDistinct(unique, Key)
    ensures var sorted := InsertionSort(Requested(names, unique, t), RankBy(names));
      && |sorted| == |Requested(names, unique, t)| <= |names|
      && (forall i :: 0 <= i < |sorted| ==> Norm(sorted[i].name) in names)
  {
    var rank := RankBy(names);
    var req := Requested(names, unique, t);
    var sorted := InsertionSort(req, rank);
    RequestedRanksDistinct(names, unique, t);
    RequestedSortedStrict(names, unique, t);
    assert |sorted| == |multiset(sorted)| == |multiset(req)| == |req|;
    RankBoundMoves(sorted, req, rank, |names|);
    forall i | 0 <= i < |sorted| ensures Norm(sorted[i].name) in names {
      assert rank(sorted[i]) < |names|;
    }
    StrictlySortedBound(sorted, rank, 0, |names|);
  }

  /**
   * `getTop5` on deduplicated categories: the requested categories sorted
   * into table order, none of them cut off, then the others in list order
   * up to the cap.
   */
  lemma TopParts(names: seq<string>, unique: seq<Category>, t: TxType)
    requires KeysDistinct(unique, Key)
    ensures var r := TopByNames(names, unique, t);
      var req := Requested(names, unique, t);
      && |req| <= |r| <= Cap(names)
      && r[..|req|] == InsertionSort(req, RankBy(names))
      && r[|req|..] == Prefix(Others(names, unique, t), |r| - |req|)
  {
    SortedRequested(names, unique, t);
    PrefixOfConcat(InsertionSort(Requested(names, unique, t), RankBy(names)), Others(names, unique, t), Cap(names));
  }

  /** Every category of a top list is a deduplicated category of the type. */
  lemma TopMembers(names: seq<string>, unique: seq<Category>, t: TxType)
    ensures var r := TopByNames(names, unique, t);
      forall i :: 0 <= i < |r| ==> r[i] in unique && r[i].kind == t
  {
    var req := Requested(names, unique, t);
    var sorted := InsertionSort(req, RankBy(names));
    var others := Others(names, unique, t);
    var typed := Filter(unique, IsOfType(t));
    var r := TopByNames(names, unique, t);
    forall i | 0 <= i < |r| ensures r[i] in unique && r[i].kind == t {
      PrefixOfConcatMember(sorted, others, Cap(names), i);
      if r[i] in sorted {
        SortMember(req, RankBy(names), r[i]);
        FilterMember(typed, IsNamedIn(names), r[i]);
      } else {
        FilterMember(typed, NotNamedIn(names), r[i]);
      }
      FilterMember(unique, IsOfType(t), r[i]);
    }
  }

  /** `getTop5` keeps every category of the type named after a default. */
  lemma TopKeepsDefaults(names: seq<string>, unique: seq<Category>, t: TxType, c: Category)
    requires KeysDistinct(unique, Key)
    requires c in unique && c.kind == t && Norm(c.name) in names
    ensures c in TopByNames(names, unique, t)
  {
    var req := Requested(names, unique, t);
    var sorted := InsertionSort(req, RankBy(names));
    var r := TopByNames(names, unique, t);
    FilterKeeps(unique, IsOfType(t), c);
    FilterKeeps(Filter(unique, IsOfType(t)), IsNamedIn(names), c);
    SortMember(req, RankBy(names), c);
    TopParts(names, unique, t);
    var k :| 0 <= k < |sorted| && sorted[k] == c;
    assert r[k] == r[..|req|][k];
  }

  /** Keys of a top list are distinct: distinct ranks first, distinct keys after, and the two parts differ in name. */
  lemma TopKeysDistinct(names: seq<string>, unique: seq<Category>, t: TxType)
    requires KeysDistinct(unique, Key)
    ensures KeysDistinct(TopByNames(names, unique, t), Key)
  {
    PartsKeysDistinct(names, unique, t);
    PrefixKeysDistinct(InsertionSort(Requested(names, unique, t), RankBy(names)) + Others(names, unique, t),
                       Cap(names), Key);
  }

  lemma PartsKeysDistinct(names: seq<string>, unique: seq<Category>, t: TxType)
    requires KeysDistinct(unique, Key)
    ensures KeysDistinct(InsertionSort(Requested(names, unique, t), RankBy(names)) + Others(names, unique, t), Key)
  {
    var rank := RankBy(names);
    var sorted := InsertionSort(Requested(names, unique, t), rank);
    var others := Others(names, unique, t);
    SortedRequested(names, unique, t);
    RequestedSortedStrict(names, unique, t);
    FilterKeysDistinct(unique, IsOfType(t), Key);
    FilterKeysDistinct(Filter(unique, IsOfType(t)), NotNamedIn(names), Key);
    assert KeysDistinct(sorted, Key) by {
      forall i, j | 0 <= i < j < |sorted| ensures Key(sorted[i]) != Key(sorted[j]) {
        assert rank(sorted[i]) < rank(sorted[j]);
      }
    }
    assert forall j :: 0 <= j < |others| ==> Norm(others[j].name) !in names;
    ConcatKeysDistinct(sorted, others, Key);
  }

  /** The list is the income top list followed by the expense top list. */
  lemma CatalogueSplit(table: seq<DefaultCategory>, rows: seq<Category>)
    ensures Catalogue(table, rows)
         == TopForType(table, Dedup(rows), Income) + TopForType(table, Dedup(rows), Expense)
  {
  }

  /** A top list holds at most the cap of its type. */
  lemma TopCap(table: seq<DefaultCategory>, unique: seq<Category>, t: TxType)
    ensures |TopForType(table, unique, t)| <= Cap(DefaultNames(table, t))
  {
  }

  /** A top list of the deduplicated rows holds rows of the query of its type. */
  lemma TopFromRows(table: seq<DefaultCategory>, rows: seq<Category>, t: TxType)
    ensures var top := TopForType(table, Dedup(rows), t);
      forall i :: 0 <= i < |top| ==> top[i] in rows && top[i].kind == t
  {
    var top := TopForType(table, Dedup(rows), t);
    TopMembers(DefaultNames(table, t), Dedup(rows), t);
    forall i | 0 <= i < |top| ensures top[i] in rows {
      FirstOfEachMember(rows, Key, |rows|, top[i]);
      assert rows[..|rows|] == rows;
    }
  }

  /** `list` returns rows of the query, and only those. */
  lemma CatalogueFromRows(table: seq<DefaultCategory>, rows: seq<Category>)
    ensures var r := Catalogue(table, rows);
      forall i :: 0 <= i < |r| ==> r[i] in rows
  {
    CatalogueSplit(table, rows);
    TopFromRows(table, rows, Income);
    TopFromRows(table, rows, Expense);
    ConcatEach(TopForType(table, Dedup(rows), Income), TopForType(table, Dedup(rows), Expense),
               (c: Category) => c in rows);
  }

  lemma ConcatKinds(inc: seq<Category>, exp: seq<Category>)
    requires forall i :: 0 <= i < |inc| ==> inc[i].kind == Income
    requires forall i :: 0 <= i < |exp| ==> exp[i].kind == Expense
    ensures forall i :: 0 <= i < |inc + exp| ==> ((inc + exp)[i].kind == Income <==> i < |inc|)
  {
  }

  /**
   * `list` returns the income categories (at most the income cap) before
   * the expense categories (at most the expense cap).
   */
  lemma CatalogueKinds(table: seq<DefaultCategory>, rows: seq<Category>)
    ensures var r := Catalogue(table, rows);
      var k := |TopForType(table, Dedup(rows), Income)|;
      && k <= Cap(DefaultNames(table, Income)) && |r| - k <= Cap(DefaultNames(table, Expense))
      && (forall i :: 0 <= i < |r| ==> (r[i].kind == Income <==> i < k))
  {
    CatalogueSplit(table, rows);
    TopCap(table, Dedup(rows), Income);
    TopCap(table, Dedup(rows), Expense);
    TopFromRows(table, rows, Income);
    TopFromRows(table, rows, Expense);
    ConcatKinds(TopForType(table, Dedup(rows), Income), TopForType(table, Dedup(rows), Expense));
  }

  /** No two categories `list` returns share a type and normalised name. */
  lemma CatalogueKeysDistinct(table: seq<DefaultCategory>, rows: seq<Category>)
    ensures KeysDistinct(Catalogue(table, rows), Key)
  {
    var unique := Dedup(rows);
    var inc := TopForType(table, unique, Income);
    var exp := TopForType(table, unique, Expense);
    FirstOfEachDistinct(rows, Key, |rows|);
    TopFromRows(table, rows, Income);
    TopFromRows(table, rows, Expense);
    TopKeysDistinct(DefaultNames(table, Income), unique, Income);
    TopKeysDistinct(DefaultNames(table, Expense), unique, Expense);
    assert forall i, j :: 0 <= i < |inc| && 0 <= j < |exp| ==> Key(inc[i]).0 != Key(exp[j]).0;
    ConcatKeysDistinct(inc, exp, Key);
    CatalogueSplit(table, rows);
  }

  /** Two lists with distinct keys, sharing none, make a list with distinct keys. */
  lemma ConcatKeysDistinct<T, K>(a: seq<T>, b: seq<T>, key: T -> K)
    requires KeysDistinct(a, key) && KeysDistinct(b, key)
    requires forall i, j :: 0 <= i < |a| && 0 <= j < |b| ==> key(a[i]) != key(b[j])
    ensures KeysDistinct(a + b, key)
  {
    forall i, j | 0 <= i < j < |a + b| ensures key((a + b)[i]) != key((a + b)[j]) {
      if j < |a| {
        assert (a + b)[i] == a[i] && (a + b)[j] == a[j];
      } else if i >= |a| {
        assert (a + b)[i] == b[i - |a|] && (a + b)[j] == b[j - |a|];
      } else {
        assert (a + b)[i] == a[i] && (a + b)[j] == b[j - |a|];
      }
    }
  }

  /**
   * With a table of at most five income and six expense defaults (as the
   * application's is), `list` returns at most five income and six expense
   * categories.
   */
  lemma CatalogueCaps(table: seq<DefaultCategory>, rows: seq<Category>)
    requires |DefaultsOf(table, Income)| <= 5 && |DefaultsOf(table, Expense)| <= 6
    ensures var r := Catalogue(table, rows);
      var k := |TopForType(table, Dedup(rows), Income)|;
      k <= 5 && |r| - k <= 6
  {
    CatalogueKinds(table, rows);
  }

  // ---------------------------------------------------------------- defaults

  /** `ex` matches the default `d`: same type and same normalised name. */
  predicate Matches(ex: Category, d: DefaultCategory)
  {
    Norm(ex.name) == Norm(d.name) && ex.kind == d.kind
  }

  /** Some existing category matches `d`. */
  predicate HasMatch(existing: seq<Category>, d: DefaultCategory)
  {
    exists i :: 0 <= i < |existing| && Matches(existing[i], d)
  }

  function IsMissingIn(existing: seq<Category>): DefaultCategory -> bool
  {
    (d: DefaultCategory) => !HasMatch(existing, d)
  }

  /** The defaults with no matching existing category, in table order. */
  function Missing(table: seq<DefaultCategory>, existing: seq<Category>): seq<DefaultCategory>
  {
    Filter(table, IsMissingIn(existing))
  }

  function AsNew(d: DefaultCategory, userId: string): NewCategory
  {
    NewCategory(userId, d.name, d.kind, d.color)
  }

  /** `toInsert`: the missing defaults as rows of the user. */
  function ToInsert(table: seq<DefaultCategory>, existing: seq<Category>, userId: string): (rows: seq<NewCategory>)
    ensures |rows| == |Missing(table, existing)|
    ensures forall i :: 0 <= i < |rows| ==> rows[i] == AsNew(Missing(table, existing)[i], userId)
  {
    var m := Missing(table, existing);
    seq(|m|, i requires 0 <= i < |m| => AsNew(m[i], userId))
  }

  /** A default of the table is missing exactly when nothing matches it. */
  lemma MissingIff(table: seq<DefaultCategory>, existing: seq<Category>, d: DefaultCategory)
    requires d in table
    ensures d in Missing(table, existing) <==> !HasMatch(existing, d)
  {
    if d in Missing(table, existing) {
      FilterMember(table, IsMissingIn(existing), d);
    } else if !HasMatch(existing, d) {
      FilterKeeps(table, IsMissingIn(existing), d);
    }
  }

  /** A category of a top list is in the list `list` returns. */
  lemma TopInCatalogue(table: seq<DefaultCategory>, rows: seq<Category>, t: TxType, c: Category)
    requires c in TopForType(table, Dedup(rows), t)
    ensures c in Catalogue(table, rows)
  {
    CatalogueSplit(table, rows);
  }

  /** A row with the type and normalised name of a default puts a match in the list. */
  lemma CatalogueHasDefault(table: seq<DefaultCategory>, rows: seq<Category>, d: DefaultCategory, i: nat)
    requires d in table && i < |rows| && Key(rows[i]) == (d.kind, Norm(d.name))
    ensures HasMatch(Catalogue(table, rows), d)
  {
    var u := DedupKeeps(rows, i);
    DefaultNameIn(table, d);
    TopKeepsDefaults(DefaultNames(table, d.kind), Dedup(rows), d.kind, u);
    TopInCatalogue(table, rows, d.kind, u);
    var r := Catalogue(table, rows);
    var q :| 0 <= q < |r| && r[q] == u;
    assert Matches(r[q], d);
  }

  /** Deduplication keeps a row with the key of every row, and no two rows with one key. */
  lemma DedupKeeps(rows: seq<Category>, i: nat) returns (u: Category)
    requires i < |rows|
    ensures u in Dedup(rows) && Key(u) == Key(rows[i])
    ensures KeysDistinct(Dedup(rows), Key)
  {
    var unique := Dedup(rows);
    FirstOfEachCovers(rows, Key, |rows|);
    FirstOfEachDistinct(rows, Key, |rows|);
    assert HasKeyOf(unique, Key, rows[i]);
    var k :| 0 <= k < |unique| && Key(unique[k]) == Key(rows[i]);
    u := unique[k];
  }

  /** Without such a row nothing in the list matches the default. */
  lemma CatalogueLacksDefault(table: seq<DefaultCategory>, rows: seq<Category>, d: DefaultCategory)
    requires !(exists i :: 0 <= i < |rows| && Key(rows[i]) == (d.kind, Norm(d.name)))
    ensures !HasMatch(Catalogue(table, rows), d)
  {
    var r := Catalogue(table, rows);
    CatalogueFromRows(table, rows);
    forall q | 0 <= q < |r| ensures !Matches(r[q], d) {
      var i :| 0 <= i < |rows| && rows[i] == r[q];
    }
  }

  /**
   * A default is inserted exactly when no row of the query has its type and
   * normalised name: the cut at the cap never hides a default.
   */
  lemma MissingExactly(table: seq<DefaultCategory>, rows: seq<Category>, d: DefaultCategory)
    requires d in table
    ensures d in Missing(table, Catalogue(table, rows))
        <==> !(exists i :: 0 <= i < |rows| && Key(rows[i]) == (d.kind, Norm(d.name)))
  {
    MissingIff(table, Catalogue(table, rows), d);
    if exists i :: 0 <= i < |rows| && Key(rows[i]) == (d.kind, Norm(d.name)) {
      var i :| 0 <= i < |rows| && Key(rows[i]) == (d.kind, Norm(d.name));
      CatalogueHasDefault(table, rows, d, i);
    } else {
      CatalogueLacksDefault(table, rows, d);
    }
  }

  /**
   * After the missing defaults are inserted, none is missing any more: if
   * the new rows carry the key of every missing default, listing the old
   * and new rows together misses nothing.
   */
  lemma NothingMissingAfterInsert(table: seq<DefaultCategory>, rows: seq<Category>, added: seq<Category>)
    requires forall d :: d in Missing(table, Catalogue(table, rows)) ==>
      exists i :: 0 <= i < |added| && Key(added[i]) == (d.kind, Norm(d.name))
    ensures Missing(table, Catalogue(table, rows + added)) == []
  {
    var all := rows + added;
    forall j | 0 <= j < |table| ensures !IsMissingIn(Catalogue(table, all))(table[j]) {
      var d := table[j];
      MissingExactly(table, all, d);
      MissingExactly(table, rows, d);
      if d in Missing(table, Catalogue(table, rows)) {
        var i :| 0 <= i < |added| && Key(added[i]) == (d.kind, Norm(d.name));
        assert all[|rows| + i] == added[i];
      } else {
        var i :| 0 <= i < |rows| && Key(rows[i]) == (d.kind, Norm(d.name));
        assert all[i] == rows[i];
      }
    }
    FilterNone(table, IsMissingIn(Catalogue(table, all)));
  }

  // ---------------------------------------------------------------- uncategorised

  /** `c.name.includes('Housing') && c.type === 'expense'`. */
  predicate IsMainExpense(c: Category)
  {
    Contains(c.name, "Housing") && c.kind == Expense
  }

  function FirstMainExpense(cats: seq<Category>): (k: nat)
    ensures k <= |cats| && (k < |cats| ==> IsMainExpense(cats[k]))
    ensures forall j :: 0 <= j < k ==> !IsMainExpense(cats[j])
  {
    if cats == [] then 0 else if IsMainExpense(cats[0]) then 0 else 1 + FirstMainExpense(cats[1..])
  }

  function FirstExpense(cats: seq<Category>): (k: nat)
    ensures k <= |cats| && (k < |cats| ==> cats[k].kind == Expense)
    ensures forall j :: 0 <= j < k ==> cats[j].kind != Expense
  {
    if cats == [] then 0 else if cats[0].kind == Expense then 0 else 1 + FirstExpense(cats[1..])
  }

  /**
   * The id `getUncategorizedId` picks: the first housing expense, else the
   * first expense, else the first category, else the empty text.
   */
  function PickUncategorized(cats: seq<Category>): (id: string)
    ensures (exists i :: 0 <= i < |cats| && IsMainExpense(cats[i])) ==>
      exists i :: 0 <= i < |cats| && IsMainExpense(cats[i]) && id == cats[i].id
        && forall j :: 0 <= j < i ==> !IsMainExpense(cats[j])
    ensures (forall i :: 0 <= i < |cats| ==> !IsMainExpense(cats[i]))
            && (exists i :: 0 <= i < |cats| && cats[i].kind == Expense) ==>
      exists i :: 0 <= i < |cats| && cats[i].kind == Expense && id == cats[i].id
        && forall j :: 0 <= j < i ==> cats[j].kind != Expense
    ensures (forall i :: 0 <= i < |cats| ==> cats[i].kind != Expense) && cats != [] ==> id == cats[0].id
    ensures cats == [] ==> id == ""
  {
    var m := FirstMainExpense(cats);
    var e := FirstExpense(cats);
    if m < |cats| then cats[m].id
    else if e < |cats| then cats[e].id
    else if cats != [] then cats[0].id
    else ""
  }

  /**
   * Once no default of a table holding an expense default is missing, the
   * pick is an expense category of the list.
   */
  lemma PickAfterDefaults(table: seq<DefaultCategory>, cats: seq<Category>, e: nat)
    requires e < |table| && table[e].kind == Expense
    requires Missing(table, cats) == []
    ensures exists i :: 0 <= i < |cats| && cats[i].kind == Expense && PickUncategorized(cats) == cats[i].id
  {
    var d := table[e];
    assert !IsMissingIn(cats)(d);
    var i :| 0 <= i < |cats| && Matches(cats[i], d);
    var m := FirstMainExpense(cats);
    if m >= |cats| {
      assert FirstExpense(cats) <= i;
    }
  }

  /** The application's table has an expense default (`Housing / Rent`). */
  lemma HousingIsExpense()
    ensures 5 < |Defaults| && Defaults[5].kind == Expense
  {
  }

  // ---------------------------------------------------------------- the service

  /** What `list` gives for a user: the cached list, the query's error, or the list of the rows. */
  function Listed(table: seq<DefaultCategory>, cache: map<string, seq<Category>>, userId: string,
                  fetched: Result<seq<Category>>): Result<seq<Category>>
  {
    if userId in cache then Ok(cache[userId])
    else match fetched
      case Err(m) => Err(m)
      case Ok(rows) => Ok(Catalogue(table, rows))
  }

  /**
   * The outcome of `ensureDefaults` from the cache before and after: the
   * result, the rows inserted, and the cache left behind.
   */
  predicate EnsuredDefaults(
    table: seq<DefaultCategory>, before: map<string, seq<Category>>, after: map<string, seq<Category>>,
    userId: string, fetched: Result<seq<Category>>, insertion: Result<()>, refetched: Result<seq<Category>>,
    r: Result<seq<Category>>, inserted: seq<NewCategory>)
  {
    var e := Listed(table, before, userId, fetched);
    var afterList := CacheAfterList(before, userId, e);
    if e.Err? then r == e && inserted == [] && after == afterList
    else if ToInsert(table, e.value, userId) == [] then r == e && inserted == [] && after == afterList
    else
      inserted == ToInsert(table, e.value, userId)
      && if insertion.Err? then r == Err(insertion.message) && after == afterList
         else r == Listed(table, map[], userId, refetched)
              && after == CacheAfterList(before - {userId}, userId, r)
  }

  /** The cache `list` leaves behind when it succeeds with `e` or fails. */
  function CacheAfterList(before: map<string, seq<Category>>, userId: string, e: Result<seq<Category>>)
    : map<string, seq<Category>>
  {
    if userId in before || e.Err? then before else before[userId := e.value]
  }

  lemma EnsuredListFailed(
    table: seq<DefaultCategory>, before: map<string, seq<Category>>,
    userId: string, fetched: Result<seq<Category>>, insertion: Result<()>, refetched: Result<seq<Category>>)
    requires Listed(table, before, userId, fetched).Err?
    ensures EnsuredDefaults(table, before, before, userId, fetched, insertion, refetched,
                            Listed(table, before, userId, fetched), [])
  {
  }

  lemma EnsuredNothingToInsert(
    table: seq<DefaultCategory>, before: map<string, seq<Category>>,
    userId: string, fetched: Result<seq<Category>>, insertion: Result<()>, refetched: Result<seq<Category>>,
    e: Result<seq<Category>>)
    requires e == Listed(table, before, userId, fetched) && e.Ok?
    requires ToInsert(table, e.value, userId) == []
    ensures EnsuredDefaults(table, before, CacheAfterList(before, userId, e), userId, fetched, insertion, refetched, e, [])
  {
  }

  lemma EnsuredInsertFailed(
    table: seq<DefaultCategory>, before: map<string, seq<Category>>,
    userId: string, fetched: Result<seq<Category>>, insertion: Result<()>, refetched: Result<seq<Category>>,
    e: Result<seq<Category>>)
    requires e == Listed(table, before, userId, fetched) && e.Ok?
    requires ToInsert(table, e.value, userId) != [] && insertion.Err?
    ensures EnsuredDefaults(table, before, CacheAfterList(before, userId, e), userId, fetched, insertion, refetched,
                            Err(insertion.message), ToInsert(table, e.value, userId))
  {
  }

  lemma EnsuredRelisted(
    table: seq<DefaultCategory>, before: map<string, seq<Category>>,
    userId: string, fetched: Result<seq<Category>>, insertion: Result<()>, refetched: Result<seq<Category>>,
    e: Result<seq<Category>>, r: Result<seq<Category>>)
    requires e == Listed(table, before, userId, fetched) && e.Ok?
    requires ToInsert(table, e.value, userId) != [] && insertion.Ok?
    requires r == Listed(table, CacheAfterList(before, userId, e) - {userId}, userId, refetched)
    ensures EnsuredDefaults(table, before,
                            CacheAfterList(CacheAfterList(before, userId, e) - {userId}, userId, r),
                            userId, fetched, insertion, refetched, r, ToInsert(table, e.value, userId))
  {
    var mid := CacheAfterList(before, userId, e) - {userId};
    DropAfterList(before, userId, e);
    ListedUncached(table, mid, userId, refetched);
  }

  /** Dropping the user's entry after `list` gives the cache before it without that entry. */
  lemma DropAfterList(before: map<string, seq<Category>>, userId: string, e: Result<seq<Category>>)
    ensures CacheAfterList(before, userId, e) - {userId} == before - {userId}
  {
  }

  /** Without a cached entry, `list` does not depend on the rest of the cache. */
  lemma ListedUncached(table: seq<DefaultCategory>, cache: map<string, seq<Category>>, userId: string,
                       fetched: Result<seq<Category>>)
    requires userId !in cache
    ensures Listed(table, cache, userId, fetched) == Listed(table, map[], userId, fetched)
  {
  }

  /** The per-user category cache, with the default table the service uses. */
  class CategoryStore {
    const table: seq<DefaultCategory>
    var cache: map<string, seq<Category>>

    constructor()
      ensures table == Defaults && cache == map[]
    {
      table := Defaults;
      cache := map[];
    }

    /** `getTop5(type)` with the in-place sort of `requested`. */
    static method SelectTop(names: seq<string>, unique: seq<Category>, t: TxType) returns (top: seq<Category>)
      requires KeysDistinct(unique, Key)
      ensures top == TopByNames(names, unique, t)
    {
      var rank := RankBy(names);
      var requested := Requested(names, unique, t);
      var others := Others(names, unique, t);
      var a := new Category[|requested|](i requires 0 <= i < |requested| => requested[i]);
      assert a[..] == requested;
      SortArray(a, rank);
      RequestedRanksDistinct(names, unique, t);
      SortedDistinctStrict(a[..], requested, rank);
      InsertionSortSorted(requested, rank);
      SortedDistinctStrict(InsertionSort(requested, rank), requested, rank);
      StrictlySortedUnique(a[..], InsertionSort(requested, rank), rank);
      top := Prefix(a[..] + others, Cap(names));
    }

    /**
     * `list(userId)`: a cached list is returned as it is; otherwise a failed
     * query fails, and a list built from the rows is cached and returned.
     */
    method List(userId: string, fetched: Result<seq<Category>>) returns (r: Result<seq<Category>>)
      modifies this
      ensures r == Listed(table, old(cache), userId, fetched)
      ensures cache == CacheAfterList(old(cache), userId, r)
    {
      if userId in cache {
        return Ok(cache[userId]);
      }
      if fetched.Err? {
        return Err(fetched.message);
      }
      var unique := DedupRows(fetched.value);
      DedupKeepsFirst(fetched.value);
      var income := SelectTop(DefaultNames(table, Income), unique, Income);
      var expense := SelectTop(DefaultNames(table, Expense), unique, Expense);
      var result := income + expense;
      cache := cache[userId := result];
      r := Ok(result);
    }

    /**
     * `ensureDefaults(userId)`: lists the categories, inserts the missing
     * defaults (if any), and then drops the cached list and lists again.
     */
    method EnsureDefaults(userId: string, fetched: Result<seq<Category>>, insertion: Result<()>,
                          refetched: Result<seq<Category>>)
      returns (r: Result<seq<Category>>, inserted: seq<NewCategory>)
      modifies this
      ensures EnsuredDefaults(table, old(cache), cache, userId, fetched, insertion, refetched, r, inserted)
    {
      inserted := [];
      ghost var before := cache;
      var existing := List(userId, fetched);
      if existing.Err? {
        EnsuredListFailed(table, before, userId, fetched, insertion, refetched);
        return existing, inserted;
      }
      var toInsert := ToInsert(table, existing.value, userId);
      if |toInsert| > 0 {
        inserted := toInsert;
        if insertion.Err? {
          EnsuredInsertFailed(table, before, userId, fetched, insertion, refetched, existing);
          return Err(insertion.message), inserted;
        }
        cache := cache - {userId};
        r := List(userId, refetched);
        EnsuredRelisted(table, before, userId, fetched, insertion, refetched, existing, r);
        return r, inserted;
      }
      r := existing;
      EnsuredNothingToInsert(table, before, userId, fetched, insertion, refetched, r);
    }

    /** `getUncategorizedId(userId)`: the pick among the categories after the defaults are ensured. */
    method GetUncategorizedId(userId: string, fetched: Result<seq<Category>>, insertion: Result<()>,
                              refetched: Result<seq<Category>>)
      returns (r: Result<string>, categories: Result<seq<Category>>, inserted: seq<NewCategory>)
      modifies this
      ensures EnsuredDefaults(table, old(cache), cache, userId, fetched, insertion, refetched, categories, inserted)
      ensures categories.Err? ==> r == Err(categories.message)
      ensures categories.Ok? ==> r == Ok(PickUncategorized(categories.value))
    {
      categories, inserted := EnsureDefaults(userId, fetched, insertion, refetched);
      if categories.Err? {
        return Err(categories.message), categories, inserted;
      }
      r := Ok(PickUncategorized(categories.value));
    }
  }
}
