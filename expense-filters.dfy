/** The filter selection of components/expense-filters.tsx: the lists of checked
    category and source ids, and the amount bounds given to the range slider. */
module ExpenseFilters {
  import opened Js
  import opened Records

  // ---------------------------------------------------------------------------
  // Selection lists

  /** `[...ids, id]`: checking an item appends its id, duplicates and all. */
  function WithId(ids: seq<string>, id: string): (r: seq<string>)
    ensures |r| == |ids| + 1 && r[..|ids|] == ids && r[|ids|] == id
  {
    ids + [id]
  }

  /** `ids.filter((x) => x !== id)`: unchecking an item drops every occurrence of its id. */
  function WithoutId(ids: seq<string>, id: string): (r: seq<string>)
    ensures forall x :: x in r <==> x in ids && x != id
    ensures |r| <= |ids|
  {
    if ids == [] then []
    else if ids[0] == id then WithoutId(ids[1..], id)
    else [ids[0]] + WithoutId(ids[1..], id)
  }

  /** Every other id keeps its number of occurrences; `id` has none left. */
  lemma {:induction false} WithoutIdCounts(ids: seq<string>, id: string)
    ensures multiset(WithoutId(ids, id)) == multiset(ids)[id := 0]
  {
    if ids != [] {
      WithoutIdCounts(ids[1..], id);
      assert ids == [ids[0]] + ids[1..];
    }
  }

  /** Removal works piece by piece, so the remaining ids keep their order. */
  lemma {:induction false} WithoutIdConcat(a: seq<string>, b: seq<string>, id: string)
    ensures WithoutId(a + b, id) == WithoutId(a, id) + WithoutId(b, id)
  {
    if a == [] {
      assert a + b == b;
    } else {
      assert (a + b)[0] == a[0] && (a + b)[1..] == a[1..] + b;
      WithoutIdConcat(a[1..], b, id);
    }
  }

  lemma {:induction false} WithoutAbsentId(ids: seq<string>, id: string)
    requires id !in ids
    ensures WithoutId(ids, id) == ids
  {
    if ids != [] {
      WithoutAbsentId(ids[1..], id);
    }
  }

  /** Checking then unchecking the same item leaves no trace of it. */
  lemma CheckThenUncheck(ids: seq<string>, id: string)
    ensures WithoutId(WithId(ids, id), id) == WithoutId(ids, id)
  {
    WithoutIdConcat(ids, [id], id);
  }

  datatype FilterKind = CategoryKind | SourceKind

  /** The `currentFilters` state cell. A list that was never set is `undefined` and
      reads as `[]`. */
  class FilterState {
    var selectedCategoryIds: Option<seq<string>>
    var selectedSourceIds: Option<seq<string>>

    constructor (categoryIds: Option<seq<string>>, sourceIds: Option<seq<string>>)
      ensures selectedCategoryIds == categoryIds && selectedSourceIds == sourceIds
    {
      selectedCategoryIds := categoryIds;
      selectedSourceIds := sourceIds;
    }

    /** `currentFilters?.selectedCategoryIds || []`. */
    function CategoryIds(): seq<string>
      reads this
    {
      selectedCategoryIds.GetOr([])
    }

    /** `currentFilters?.selectedSourceIds || []`. */
    function SourceIds(): seq<string>
      reads this
    {
      selectedSourceIds.GetOr([])
    }

    /** `setCurrentFilters((prev) => ({ ...prev, selectedCategoryIds }))`. */
    method SetCategoryFilter(ids: seq<string>)
      modifies this
      ensures selectedCategoryIds == Some(ids) && selectedSourceIds == old(selectedSourceIds)
    {
      selectedCategoryIds := Some(ids);
    }

    /** `setCurrentFilters((prev) => ({ ...prev, selectedSourceIds }))`. */
    method SetSourceFilter(ids: seq<string>)
      modifies this
      ensures selectedSourceIds == Some(ids) && selectedCategoryIds == old(selectedCategoryIds)
    {
      selectedSourceIds := Some(ids);
    }

    /** handleItemChange: a checkbox of the given kind was checked or unchecked. */
    method HandleItemChange(checked: bool, id: string, kind: FilterKind)
      modifies this
      ensures kind == CategoryKind ==>
        && selectedCategoryIds == Some(if checked then WithId(old(CategoryIds()), id) else WithoutId(old(CategoryIds()), id))
        && selectedSourceIds == old(selectedSourceIds)
      ensures kind == SourceKind ==>
        && selectedSourceIds == Some(if checked then WithId(old(SourceIds()), id) else WithoutId(old(SourceIds()), id))
        && selectedCategoryIds == old(selectedCategoryIds)
      ensures !checked ==> id !in (if kind == CategoryKind then CategoryIds() else SourceIds())
    {
      if checked {
        if kind == CategoryKind {
          SetCategoryFilter(WithId(CategoryIds(), id));
        }
        if kind == SourceKind {
          SetSourceFilter(WithId(SourceIds(), id));
        }
      } else {
        if kind == CategoryKind {
          SetCategoryFilter(WithoutId(CategoryIds(), id));
        }
        if kind == SourceKind {
          SetSourceFilter(WithoutId(SourceIds(), id));
        }
      }
    }

    /** The Reset Filters button. */
    method Reset()
      modifies this
      ensures selectedCategoryIds == Some([]) && selectedSourceIds == Some([])
    {
      selectedCategoryIds, selectedSourceIds := Some([]), Some([]);
    }
  }

  // ---------------------------------------------------------------------------
  // Amount bounds

  /** A JavaScript number that may be infinite: `Math.min()` of nothing is +Infinity
      and `Math.max()` of nothing is -Infinity. */
  datatype Bound = NegativeInfinity | Finite(value: real) | PositiveInfinity

  /** `expenses.map((expense) => expense.amount)`. */
  function Amounts(expenses: seq<Expense>): (amounts: seq<real>)
    ensures |amounts| == |expenses|
    ensures forall i :: 0 <= i < |expenses| ==> amounts[i] == expenses[i].amount
  {
    if expenses == [] then [] else [expenses[0].amount] + Amounts(expenses[1..])
  }

  /** `Math.min(...xs)`. */
  function MathMin(xs: seq<real>): (b: Bound)
    ensures xs == [] ==> b == PositiveInfinity
    ensures xs != [] ==> (
      && b.Finite?
      && (forall i :: 0 <= i < |xs| ==> b.value <= xs[i])
      && (exists i :: 0 <= i < |xs| && xs[i] == b.value))
  {
    if xs == [] then PositiveInfinity
    else if |xs| == 1 then Finite(xs[0])
    else
      var m := MathMin(xs[1..]).value;
      if m < xs[0] then Finite(m) else Finite(xs[0])
  }

  /** `Math.max(...xs)`. */
  function MathMax(xs: seq<real>): (b: Bound)
    ensures xs == [] ==> b == NegativeInfinity
    ensures xs != [] ==> (
      && b.Finite?
      && (forall i :: 0 <= i < |xs| ==> xs[i] <= b.value)
      && (exists i :: 0 <= i < |xs| && xs[i] == b.value))
  {
    if xs == [] then NegativeInfinity
    else if |xs| == 1 then Finite(xs[0])
    else
      var m := MathMax(xs[1..]).value;
      if m > xs[0] then Finite(m) else Finite(xs[0])
  }

  function MinAmount(expenses: seq<Expense>): Bound {
    MathMin(Amounts(expenses))
  }

  function MaxAmount(expenses: seq<Expense>): Bound {
    MathMax(Amounts(expenses))
  }

  /** For a non-empty list both bounds are finite, enclose every amount and are
      amounts of some expense; for an empty list they are the infinities. */
  lemma AmountBounds(expenses: seq<Expense>)
    ensures expenses == [] ==> MinAmount(expenses) == PositiveInfinity && MaxAmount(expenses) == NegativeInfinity
    ensures expenses != [] ==> MinAmount(expenses).Finite? && MaxAmount(expenses).Finite?
    ensures expenses != [] ==> forall e :: e in expenses ==> MinAmount(expenses).value <= e.amount <= MaxAmount(expenses).value
    ensures expenses != [] ==> exists e :: e in expenses && e.amount == MinAmount(expenses).value
    ensures expenses != [] ==> exists e :: e in expenses && e.amount == MaxAmount(expenses).value
  {
    var a := Amounts(expenses);
    if expenses != [] {
      var lo := MinAmount(expenses).value;
      var hi := MaxAmount(expenses).value;
      forall e | e in expenses ensures lo <= e.amount <= hi {
        var i :| 0 <= i < |expenses| && expenses[i] == e;
        assert a[i] == e.amount;
      }
      var i :| 0 <= i < |a| && a[i] == lo;
      assert expenses[i] in expenses;
      var j :| 0 <= j < |a| && a[j] == hi;
      assert expenses[j] in expenses;
    }
  }
}
