/**
 * Totals over listed transactions: the income and expense sums, and the
 * amounts grouped by category name (a record filled in one pass, whose
 * entries are then sorted by value, largest first).  The dashboard and the
 * analytics page both use these.
 */
module CategoryTotals {
  import opened Wrappers
  import opened TransactionType
  import opened Collections
  import opened Ordering
  import opened TransactionService

  const Uncategorized := "Uncategorized"

  /** `t.category?.name ?? 'Uncategorized'`. */
  function NameOf(t: ListedTransaction): string
  {
    if t.category.Some? then t.category.value.name else Uncategorized
  }

  function AmountOf(t: ListedTransaction): real { t.amount }

  function OfKind(k: TxType): ListedTransaction -> bool
  {
    (t: ListedTransaction) => t.kind == k
  }

  function NamedAs(name: string): ListedTransaction -> bool
  {
    (t: ListedTransaction) => NameOf(t) == name
  }

  /** `txs.filter((t) => t.type === k).reduce((s, t) => s + t.amount, 0)`. */
  function Total(txs: seq<ListedTransaction>, k: TxType): real
  {
    Sum(Filter(txs, OfKind(k)), AmountOf)
  }

  /** Every transaction is income or expense, so the two totals make up the whole sum. */
  lemma TotalsPartition(txs: seq<ListedTransaction>)
    ensures Total(txs, Income) + Total(txs, Expense) == Sum(txs, AmountOf)
  {
    SumSplit(txs, OfKind(Income), OfKind(Expense), AmountOf);
  }

  /** One entry of a grouped chart: a category name and its amount. */
  datatype Slice = Slice(name: string, value: real)

  function SliceName(s: Slice): string { s.name }

  function SliceValue(s: Slice): real { s.value }

  /** Whether some entry is named `name`. */
  predicate Named(entries: seq<Slice>, name: string)
  {
    exists i :: 0 <= i < |entries| && entries[i].name == name
  }

  /** `byCat[name] = (byCat[name] ?? 0) + amount` on the record's entries, in insertion order. */
  function AddTo(entries: seq<Slice>, name: string, amount: real): (r: seq<Slice>)
  {
    if entries == [] then [Slice(name, amount)]
    else if entries[0].name == name then [Slice(name, entries[0].value + amount)] + entries[1..]
    else [entries[0]] + AddTo(entries[1..], name, amount)
  }

  /** Adding to a name already present adds to that entry and changes nothing else. */
  lemma {:induction false} AddToPresent(entries: seq<Slice>, name: string, amount: real, i: nat)
    requires KeysDistinct(entries, SliceName)
    requires i < |entries| && entries[i].name == name
    ensures AddTo(entries, name, amount) == entries[i := Slice(name, entries[i].value + amount)]
  {
    if i > 0 {
      assert entries[0].name != name by { assert SliceName(entries[0]) != SliceName(entries[i]); }
      AddToPresent(entries[1..], name, amount, i - 1);
    }
  }

  /** Adding a new name appends an entry for it. */
  lemma {:induction false} AddToAbsent(entries: seq<Slice>, name: string, amount: real)
    requires !Named(entries, name)
    ensures AddTo(entries, name, amount) == entries + [Slice(name, amount)]
  {
    if entries != [] {
      assert entries[0].name != name;
      assert !Named(entries[1..], name) by {
        forall k | 0 <= k < |entries[1..]| ensures entries[1..][k].name != name {
          assert entries[1..][k] == entries[k + 1];
        }
      }
      AddToAbsent(entries[1..], name, amount);
    }
  }

  /** The record's entries after the `forEach` over `txs`. */
  function Grouped(txs: seq<ListedTransaction>): seq<Slice>
  {
    if txs == [] then []
    else
      var t := txs[|txs| - 1];
      AddTo(Grouped(txs[..|txs| - 1]), NameOf(t), t.amount)
  }

  /** One step of the `forEach`: the grouping of `txs + [t]`. */
  lemma GroupedStep(txs: seq<ListedTransaction>, t: ListedTransaction)
    ensures Grouped(txs + [t]) == AddTo(Grouped(txs), NameOf(t), t.amount)
  {
    assert (txs + [t])[..|txs|] == txs;
  }

  /** The `forEach` after one more transaction of `txs`. */
  lemma GroupedPrefix(txs: seq<ListedTransaction>, i: nat)
    requires i < |txs|
    ensures Grouped(txs[..i + 1]) == AddTo(Grouped(txs[..i]), NameOf(txs[i]), txs[i].amount)
  {
    assert txs[..i + 1][..i] == txs[..i];
  }

  /** Some transaction carries the category name `name`. */
  predicate Occurs(txs: seq<ListedTransaction>, name: string)
  {
    exists k :: 0 <= k < |txs| && NameOf(txs[k]) == name
  }

  /** The sum of the amounts of the transactions named `name`. */
  function ValueFor(txs: seq<ListedTransaction>, name: string): real
  {
    Sum(Filter(txs, NamedAs(name)), AmountOf)
  }

  lemma OccursStep(txs: seq<ListedTransaction>, t: ListedTransaction, name: string)
    ensures Occurs(txs + [t], name) <==> Occurs(txs, name) || NameOf(t) == name
  {
    var all := txs + [t];
    if Occurs(txs, name) {
      var k :| 0 <= k < |txs| && NameOf(txs[k]) == name;
      assert all[k] == txs[k];
    }
    if Occurs(all, name) {
      var k :| 0 <= k < |all| && NameOf(all[k]) == name;
      if k < |txs| {
        assert all[k] == txs[k];
      }
    }
    assert all[|txs|] == t;
  }

  lemma ValueForStep(txs: seq<ListedTransaction>, t: ListedTransaction, name: string)
    ensures ValueFor(txs + [t], name) == ValueFor(txs, name) + (if NameOf(t) == name then t.amount else 0.0)
  {
    FilterAppend(txs, [t], NamedAs(name));
    SumAppend(Filter(txs, NamedAs(name)), Filter([t], NamedAs(name)), AmountOf);
    assert [t][..0] == [];
  }

  /** No transaction named `name` sums to nothing. */
  lemma ValueForAbsent(txs: seq<ListedTransaction>, name: string)
    requires !Occurs(txs, name)
    ensures ValueFor(txs, name) == 0.0
  {
    FilterNone(txs, NamedAs(name));
  }

  /** Raising one entry's value keeps every name where it was. */
  lemma NamedUpdate(g: seq<Slice>, i: nat, v: real, name: string)
    requires i < |g|
    ensures Named(g[i := Slice(g[i].name, v)], name) <==> Named(g, name)
  {
    var r := g[i := Slice(g[i].name, v)];
    if Named(g, name) {
      var j :| 0 <= j < |g| && g[j].name == name;
      assert r[j].name == name;
    }
    if Named(r, name) {
      var j :| 0 <= j < |r| && r[j].name == name;
      assert g[j].name == name;
    }
  }

  lemma NamedAppend(g: seq<Slice>, e: Slice, name: string)
    ensures Named(g + [e], name) <==> Named(g, name) || e.name == name
  {
    var r := g + [e];
    if Named(g, name) {
      var j :| 0 <= j < |g| && g[j].name == name;
      assert r[j].name == name;
    }
    if Named(r, name) {
      var j :| 0 <= j < |r| && r[j].name == name;
      if j < |g| {
        assert g[j].name == name;
      }
    }
    assert r[|g|] == e;
  }

  /** The record never holds a name twice. */
  lemma {:induction false} GroupedDistinct(txs: seq<ListedTransaction>)
    ensures KeysDistinct(Grouped(txs), SliceName)
  {
    if txs != [] {
      var prev := txs[..|txs| - 1];
      var t := txs[|txs| - 1];
      var g := Grouped(prev);
      GroupedDistinct(prev);
      if Named(g, NameOf(t)) {
        var i :| 0 <= i < |g| && g[i].name == NameOf(t);
        AddToPresent(g, NameOf(t), t.amount, i);
      } else {
        AddToAbsent(g, NameOf(t), t.amount);
        forall j | 0 <= j < |g| ensures g[j].name != NameOf(t) {
          assert !(g[j].name == NameOf(t));
        }
      }
    }
  }

  /** The record has an entry for a name exactly when some transaction carries it. */
  lemma {:induction false} GroupedNames(txs: seq<ListedTransaction>, name: string)
    ensures Named(Grouped(txs), name) <==> Occurs(txs, name)
  {
    if txs != [] {
      var prev := txs[..|txs| - 1];
      var t := txs[|txs| - 1];
      assert txs == prev + [t];
      GroupedNames(prev, name);
      GroupedStep(prev, t);
      GroupedDistinct(prev);
      AddToNamed(Grouped(prev), NameOf(t), t.amount, name);
      OccursStep(prev, t, name);
    }
  }

  /** Adding to the record names what it named and the name added to. */
  lemma AddToNamed(g: seq<Slice>, added: string, amount: real, name: string)
    requires KeysDistinct(g, SliceName)
    ensures Named(AddTo(g, added, amount), name) <==> Named(g, name) || added == name
  {
    if Named(g, added) {
      var i :| 0 <= i < |g| && g[i].name == added;
      AddToPresent(g, added, amount, i);
      NamedUpdate(g, i, g[i].value + amount, name);
    } else {
      AddToAbsent(g, added, amount);
      NamedAppend(g, Slice(added, amount), name);
    }
  }

  /** Each entry of the record holds the sum of the amounts of its name. */
  lemma {:induction false} GroupedValues(txs: seq<ListedTransaction>)
    ensures forall i :: 0 <= i < |Grouped(txs)| ==> Grouped(txs)[i].value == ValueFor(txs, Grouped(txs)[i].name)
  {
    if txs != [] {
      var prev := txs[..|txs| - 1];
      var t := txs[|txs| - 1];
      assert txs == prev + [t];
      var g := Grouped(prev);
      var r := Grouped(txs);
      GroupedValues(prev);
      GroupedDistinct(prev);
      if Named(g, NameOf(t)) {
        var i :| 0 <= i < |g| && g[i].name == NameOf(t);
        AddToPresent(g, NameOf(t), t.amount, i);
        forall j | 0 <= j < |r| ensures r[j].value == ValueFor(txs, r[j].name) {
          ValueForStep(prev, t, r[j].name);
          if j != i {
            assert SliceName(g[j]) != SliceName(g[i]);
          }
        }
      } else {
        AddToAbsent(g, NameOf(t), t.amount);
        forall j | 0 <= j < |r| ensures r[j].value == ValueFor(txs, r[j].name) {
          ValueForStep(prev, t, r[j].name);
          if j == |g| {
            GroupedNames(prev, NameOf(t));
            ValueForAbsent(prev, NameOf(t));
          } else {
            assert r[j] == g[j] && g[j].name != NameOf(t);
          }
        }
      }
    }
  }

  /** Adding an amount to the record adds it to the sum of the entries. */
  lemma {:induction false} SumAddTo(entries: seq<Slice>, name: string, amount: real)
    ensures Sum(AddTo(entries, name, amount), SliceValue) == Sum(entries, SliceValue) + amount
  {
    var r := AddTo(entries, name, amount);
    if entries == [] {
      assert r[..0] == [];
    } else {
      assert entries == [entries[0]] + entries[1..];
      SumAppend([entries[0]], entries[1..], SliceValue);
      var head := if entries[0].name == name then Slice(name, entries[0].value + amount) else entries[0];
      var tail := if entries[0].name == name then entries[1..] else AddTo(entries[1..], name, amount);
      assert r == [head] + tail;
      SumAppend([head], tail, SliceValue);
      assert [head][..0] == [] && [entries[0]][..0] == [];
      if entries[0].name != name {
        SumAddTo(entries[1..], name, amount);
      }
    }
  }

  /** The entries of the record sum to the sum of all the amounts. */
  lemma {:induction false} GroupedSum(txs: seq<ListedTransaction>)
    ensures Sum(Grouped(txs), SliceValue) == Sum(txs, AmountOf)
  {
    if txs != [] {
      var t := txs[|txs| - 1];
      GroupedSum(txs[..|txs| - 1]);
      SumAddTo(Grouped(txs[..|txs| - 1]), NameOf(t), t.amount);
    }
  }

  /** The entries of the record `byCat`: its keys in insertion order with their values. */
  function Entries(order: seq<string>, byCat: map<string, real>): (r: seq<Slice>)
    requires forall k :: 0 <= k < |order| ==> order[k] in byCat
    ensures |r| == |order|
    ensures forall k :: 0 <= k < |order| ==> r[k] == Slice(order[k], byCat[order[k]])
  {
    seq(|order|, k requires 0 <= k < |order| => Slice(order[k], byCat[order[k]]))
  }

  /** The record `byCat`, with key order `order`, has the entries `g`. */
  predicate Filled(order: seq<string>, byCat: map<string, real>, g: seq<Slice>)
  {
    |order| == |g|
    && forall k :: 0 <= k < |order| ==> order[k] in byCat && g[k] == Slice(order[k], byCat[order[k]])
  }

  /** `pos` gives the place of each key of `byCat` in the key order. */
  ghost predicate Indexed(order: seq<string>, byCat: map<string, real>, pos: map<string, nat>)
  {
    forall name :: name in byCat ==> name in pos && pos[name] < |order| && order[pos[name]] == name
  }

  /** A new key is found at the end of the key order. */
  lemma IndexedAdd(order: seq<string>, byCat: map<string, real>, pos: map<string, nat>, name: string, v: real)
    requires Indexed(order, byCat, pos)
    ensures Indexed(order + [name], byCat[name := v], pos[name := |order|])
  {
    var order', byCat', pos' := order + [name], byCat[name := v], pos[name := |order|];
    forall nm | nm in byCat' ensures nm in pos' && pos'[nm] < |order'| && order'[pos'[nm]] == nm {
      if nm != name {
        assert order'[pos[nm]] == order[pos[nm]];
      }
    }
  }

  /** Adding to a key the record has updates its entry as `AddTo` does. */
  lemma FillPresent(order: seq<string>, byCat: map<string, real>, g: seq<Slice>, j: nat, name: string,
                    amount: real)
    requires Filled(order, byCat, g) && KeysDistinct(g, SliceName) && j < |order| && order[j] == name
    ensures Filled(order, byCat[name := byCat[name] + amount], AddTo(g, name, amount))
  {
    AddToPresent(g, name, amount, j);
    forall k | 0 <= k < |order| && k != j ensures order[k] != name {
      assert SliceName(g[k]) != SliceName(g[j]);
    }
  }

  /** Setting a key the record lacks appends its entry, as `AddTo` does. */
  lemma FillAbsent(order: seq<string>, byCat: map<string, real>, g: seq<Slice>, name: string, amount: real)
    requires Filled(order, byCat, g) && name !in byCat
    ensures Filled(order + [name], byCat[name := 0.0 + amount], AddTo(g, name, amount))
  {
    forall k | 0 <= k < |g| ensures g[k].name != name {
      assert g[k].name == order[k] && order[k] in byCat;
    }
    AddToAbsent(g, name, amount);
  }

  /**
   * `byCat[name] = (byCat[name] ?? 0) + amount` on the record `byCat` whose
   * keys were first set in the order `order`: a key it has keeps its place,
   * a new key goes last.  Its entries change as `AddTo` changes `g`.
   */
  method AddToRecord(order: seq<string>, byCat: map<string, real>, name: string, amount: real,
                     ghost g: seq<Slice>, ghost pos: map<string, nat>)
    returns (order': seq<string>, byCat': map<string, real>, ghost pos': map<string, nat>)
    requires Filled(order, byCat, g) && KeysDistinct(g, SliceName) && Indexed(order, byCat, pos)
    ensures Filled(order', byCat', AddTo(g, name, amount)) && Indexed(order', byCat', pos')
    ensures name in byCat ==> order' == order && byCat' == byCat[name := byCat[name] + amount]
    ensures name !in byCat ==> order' == order + [name] && byCat' == byCat[name := 0.0 + amount]
  {
    if name in byCat {
      FillPresent(order, byCat, g, pos[name], name, amount);
      order', byCat', pos' := order, byCat[name := byCat[name] + amount], pos;
    } else {
      FillAbsent(order, byCat, g, name, amount);
      IndexedAdd(order, byCat, pos, name, 0.0 + amount);
      order', byCat', pos' := order + [name], byCat[name := 0.0 + amount], pos[name := |order|];
    }
  }

  /**
   * The `forEach` that fills `byCat`, then `Object.entries(byCat)`: the
   * entries in the order their keys were first set.
   */
  method GroupByName(txs: seq<ListedTransaction>) returns (entries: seq<Slice>)
    ensures entries == Grouped(txs)
  {
    var byCat: map<string, real> := map[];
    var order: seq<string> := [];
    ghost var g: seq<Slice> := [];
    ghost var pos: map<string, nat> := map[];
    for i := 0 to |txs|
      invariant Filled(order, byCat, g) && Indexed(order, byCat, pos)
      invariant g == Grouped(txs[..i])
    {
      var t := txs[i];
      GroupedPrefix(txs, i);
      GroupedDistinct(txs[..i]);
      order, byCat, pos := AddToRecord(order, byCat, NameOf(t), t.amount, g, pos);
      g := AddTo(g, NameOf(t), t.amount);
    }
    entries := Entries(order, byCat);
    assert txs[..|txs|] == txs;
  }

  /** `(a, b) => b.value - a.value`: `a` goes first when its value is larger. */
  function LargerFirst(): (Slice, Slice) -> bool
  {
    (a: Slice, b: Slice) => a.value > b.value
  }

  lemma LargerFirstIsStrict()
    ensures StrictOrder(LargerFirst())
  {
  }

  /** The entries of the grouping sorted by value, largest first. */
  function Ranked(txs: seq<ListedTransaction>): seq<Slice>
  {
    SortBy(Grouped(txs), LargerFirst())
  }

  /**
   * The ranked grouping: values never increase along it, each name occurs
   * once and exactly when a transaction carries it, each value is the sum
   * of that name's amounts, and the values sum to the sum of all amounts.
   */
  lemma RankedFacts(txs: seq<ListedTransaction>)
    ensures forall i, j :: 0 <= i < j < |Ranked(txs)| ==> Ranked(txs)[i].value >= Ranked(txs)[j].value
    ensures KeysDistinct(Ranked(txs), SliceName)
    ensures forall i :: 0 <= i < |Ranked(txs)| ==> Ranked(txs)[i].value == ValueFor(txs, Ranked(txs)[i].name)
    ensures Sum(Ranked(txs), SliceValue) == Sum(txs, AmountOf)
  {
    var g := Grouped(txs);
    var r := Ranked(txs);
    LargerFirstIsStrict();
    SortBySorted(g, LargerFirst());
    GroupedDistinct(txs);
    GroupedValues(txs);
    GroupedSum(txs);
    SumPermutation(r, g, SliceValue);
    KeysDistinctPermutation(r, g, SliceName);
    forall i | 0 <= i < |r| ensures r[i].value == ValueFor(txs, r[i].name) {
      SortByMember(g, LargerFirst(), r[i]);
      var j :| 0 <= j < |g| && g[j] == r[i];
    }
  }

  /** The ranking has an entry for a name exactly when some transaction carries it. */
  lemma RankedNames(txs: seq<ListedTransaction>, name: string)
    ensures Named(Ranked(txs), name) <==> Occurs(txs, name)
  {
    var g := Grouped(txs);
    var r := Ranked(txs);
    GroupedNames(txs, name);
    if Named(r, name) {
      var i :| 0 <= i < |r| && r[i].name == name;
      SortByMember(g, LargerFirst(), r[i]);
      var j :| 0 <= j < |g| && g[j] == r[i];
    }
    if Named(g, name) {
      var j :| 0 <= j < |g| && g[j].name == name;
      SortByMember(g, LargerFirst(), g[j]);
      var i :| 0 <= i < |r| && r[i] == g[j];
    }
  }
}
