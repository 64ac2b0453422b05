/**
  The aggregator: the two `reduce` folds that the analysis endpoint and the
  report generator run over a list of expenses. Both folds go left to right,
  so each function here is defined on the list without its last element.
 */
module Aggregate {
  import opened Records

  /** The categories that occur in `s`. */
  function Categories(s: seq<Expense>): set<string>
  {
    set e | e in s :: e.category
  }

  /**
    The grand total: `sum + expense.amount`, folded from 0. Amounts are not
    checked for sign, so only a list without negative amounts has a
    non-negative total.
   */
  function TotalAmount(s: seq<Expense>): (r: Amount)
    ensures s == [] ==> r == 0.0
    ensures (forall i :: 0 <= i < |s| ==> s[i].amount >= 0.0) ==> r >= 0.0
  {
    if s == [] then 0.0 else TotalAmount(s[..|s| - 1]) + s[|s| - 1].amount
  }

  /** One step of the category fold: the entry for `e`'s category, or 0, plus `e.amount`. */
  function AddToCategory(acc: map<string, Amount>, e: Expense): map<string, Amount>
  {
    acc[e.category := (if e.category in acc then acc[e.category] else 0.0) + e.amount]
  }

  /** The per-category totals; a category has an entry exactly when some expense has it. */
  function TotalByCategory(s: seq<Expense>): (r: map<string, Amount>)
    ensures r.Keys == Categories(s)
  {
    if s == [] then map[]
    else
      var init := s[..|s| - 1];
      assert Categories(s) == Categories(init) + {s[|s| - 1].category} by {
        assert s == init + [s[|s| - 1]];
      }
      AddToCategory(TotalByCategory(init), s[|s| - 1])
  }

  /** The expenses of category `c`, in their original order. */
  function OfCategory(s: seq<Expense>, c: string): (r: seq<Expense>)
    ensures forall e :: e in r <==> e in s && e.category == c
  {
    if s == [] then []
    else
      var init := s[..|s| - 1];
      assert s == init + [s[|s| - 1]];
      OfCategory(init, c) + (if s[|s| - 1].category == c then [s[|s| - 1]] else [])
  }

  /** The sum of the values of a map, taken in no particular order. */
  ghost function SumValues(m: map<string, Amount>): Amount
    decreases |m|
  {
    if m.Keys == {} then 0.0
    else
      var k :| k in m.Keys;
      assert |m - {k}| < |m| by {
        assert (m - {k}).Keys == m.Keys - {k};
      }
      m[k] + SumValues(m - {k})
  }

  /** The aggregator over a list of expenses: the per-category totals and the grand total. */
  function Summarize(s: seq<Expense>): (r: Summary)
    ensures r.totalByCategory.Keys == Categories(s)
    ensures forall c :: c in r.totalByCategory ==> r.totalByCategory[c] == TotalAmount(OfCategory(s, c))
    ensures r.totalAmount == TotalAmount(s)
    ensures r.totalAmount == SumValues(r.totalByCategory)
    ensures s == [] ==> r == Summary(map[], 0.0)
  {
    TotalAmountIsSumOfCategoryTotals(s);
    assert forall c :: c in TotalByCategory(s) ==> TotalByCategory(s)[c] == TotalAmount(OfCategory(s, c)) by {
      forall c | c in TotalByCategory(s) {
        CategoryTotal(s, c);
      }
    }
    Summary(TotalByCategory(s), TotalAmount(s))
  }

  /** The grand total of a concatenation is the sum of the two grand totals. */
  lemma {:induction false} TotalAmountConcat(a: seq<Expense>, b: seq<Expense>)
    ensures TotalAmount(a + b) == TotalAmount(a) + TotalAmount(b)
    decreases |b|
  {
    if b == [] {
      assert a + b == a;
    } else {
      var b' := b[..|b| - 1];
      assert (a + b)[..|a + b| - 1] == a + b';
      TotalAmountConcat(a, b');
    }
  }

  /**
    The entry of category `c` (0 when it has none) is the grand total of the
    expenses of that category.
   */
  lemma {:induction false} CategoryTotal(s: seq<Expense>, c: string)
    ensures (if c in TotalByCategory(s) then TotalByCategory(s)[c] else 0.0)
            == TotalAmount(OfCategory(s, c))
  {
    if s != [] {
      var init, last := s[..|s| - 1], s[|s| - 1];
      CategoryTotal(init, c);
      var tail := if last.category == c then [last] else [];
      TotalAmountConcat(OfCategory(init, c), tail);
      assert TotalAmount(tail) == if last.category == c then last.amount else 0.0 by {
        if last.category == c {
          assert tail[..0] == [];
        }
      }
    }
  }

  /** Removing any one key takes exactly its value out of the sum. */
  lemma {:induction false} SumValuesRemove(m: map<string, Amount>, k: string)
    requires k in m
    ensures SumValues(m) == m[k] + SumValues(m - {k})
    decreases |m|
  {
    var j :| j in m.Keys && SumValues(m) == m[j] + SumValues(m - {j});
    if j != k {
      assert (m - {j}).Keys == m.Keys - {j};
      assert (m - {k}).Keys == m.Keys - {k};
      SumValuesRemove(m - {j}, k);
      SumValuesRemove(m - {k}, j);
      assert m - {j} - {k} == m - {k} - {j};
    }
  }

  /** Overwriting the entry of `k` with `v` changes the sum by `v` minus the old entry. */
  lemma SumValuesUpdate(m: map<string, Amount>, k: string, v: Amount)
    ensures SumValues(m[k := v]) == SumValues(m) - (if k in m then m[k] else 0.0) + v
  {
    SumValuesRemove(m[k := v], k);
    assert m[k := v] - {k} == m - {k};
    if k in m {
      SumValuesRemove(m, k);
    } else {
      assert m - {k} == m;
    }
  }

  /** The per-category totals add up to the grand total. */
  lemma {:induction false} TotalAmountIsSumOfCategoryTotals(s: seq<Expense>)
    ensures TotalAmount(s) == SumValues(TotalByCategory(s))
  {
    if s == [] {
      assert TotalByCategory(s) == map[];
      assert SumValues(map[]) == 0.0;
    } else {
      var init, last := s[..|s| - 1], s[|s| - 1];
      TotalAmountIsSumOfCategoryTotals(init);
      var acc := TotalByCategory(init);
      var prior := if last.category in acc then acc[last.category] else 0.0;
      assert TotalByCategory(s) == acc[last.category := prior + last.amount];
      SumValuesUpdate(acc, last.category, prior + last.amount);
    }
  }

  /** Two food expenses of 10 and 5 aggregate to food: 15 and a total of 15. */
  lemma FoodExample(d1: Timestamp, d2: Timestamp)
    ensures Summarize([Expense(1, "food", 10.0, d1), Expense(2, "food", 5.0, d2)])
            == Summary(map["food" := 15.0], 15.0)
  {
    var s := [Expense(1, "food", 10.0, d1), Expense(2, "food", 5.0, d2)];
    var first := s[..1];
    assert first[..0] == [];
    assert TotalByCategory(first) == map["food" := 10.0];
    assert TotalAmount(first) == 10.0;
    assert s[..|s| - 1] == first;
    assert TotalByCategory(s) == AddToCategory(map["food" := 10.0], s[1]) == map["food" := 15.0];
    assert TotalAmount(s) == 15.0;
    assert Summarize(s) == Summary(TotalByCategory(s), TotalAmount(s));
  }
}
