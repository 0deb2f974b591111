/**
 * The filter engine behind the transaction list view: the type filter, the
 * case-insensitive description search, the derived filtered list and the
 * category icon lookup.
 */
module Adapter {
  import opened Transactions
  import opened Text
  import opened Store

  datatype FilterType = All | IncomeOnly | ExpenseOnly

  /** The type predicate of a filter. */
  predicate MatchesType(t: Transaction, filter: FilterType) {
    match filter
    case All => true
    case IncomeOnly => t.isIncome
    case ExpenseOnly => !t.isIncome
  }

  /**
   * The search predicate for a stored (already lower-cased) query: an empty
   * query matches everything, otherwise the lower-cased description must
   * contain it. The category is not consulted.
   */
  predicate MatchesSearch(t: Transaction, query: string) {
    |query| == 0 || Contains(Lower(t.description), query)
  }

  predicate Keep(t: Transaction, query: string, filter: FilterType) {
    MatchesType(t, filter) && MatchesSearch(t, query)
  }

  /**
   * The filtered view of `s`: the kept transactions, in the order of `s`.
   * Every kept element of `s` appears, and nothing else does.
   */
  function Filtered(s: seq<Transaction>, query: string, filter: FilterType): (r: seq<Transaction>)
    ensures |r| <= |s|
  {
    if s == [] then []
    else (if Keep(s[0], query, filter) then [s[0]] else []) + Filtered(s[1..], query, filter)
  }

  /** A transaction is in the view exactly when it is in the list and is kept. */
  lemma {:induction false} FilteredMembership(s: seq<Transaction>, query: string, filter: FilterType)
    ensures forall x :: x in Filtered(s, query, filter) <==> x in s && Keep(x, query, filter)
  {
    if s != [] {
      FilteredMembership(s[1..], query, filter);
      assert s == [s[0]] + s[1..];
    }
  }

  /** Filtering distributes over concatenation: the pass is one ordered scan. */
  lemma {:induction false} FilteredAppend(a: seq<Transaction>, b: seq<Transaction>, query: string, filter: FilterType)
    ensures Filtered(a + b, query, filter) == Filtered(a, query, filter) + Filtered(b, query, filter)
  {
    if a == [] {
      assert a + b == b;
    } else {
      var head := if Keep(a[0], query, filter) then [a[0]] else [];
      assert (a + b)[0] == a[0] && (a + b)[1..] == a[1..] + b;
      FilteredAppend(a[1..], b, query, filter);
      calc {
        Filtered(a + b, query, filter);
        head + Filtered(a[1..] + b, query, filter);
        head + (Filtered(a[1..], query, filter) + Filtered(b, query, filter));
        (head + Filtered(a[1..], query, filter)) + Filtered(b, query, filter);
      }
    }
  }

  /** The positions `from..|s|` of `s` whose transaction is kept, in increasing order. */
  function KeptIndices(s: seq<Transaction>, query: string, filter: FilterType, from: nat): (idx: seq<nat>)
    requires from <= |s|
    ensures forall k :: 0 <= k < |idx| ==> from <= idx[k] < |s|
    ensures forall k, l :: 0 <= k < l < |idx| ==> idx[k] < idx[l]
    ensures forall j :: from <= j < |s| ==> (j in idx <==> Keep(s[j], query, filter))
    decreases |s| - from
  {
    if from == |s| then []
    else (if Keep(s[from], query, filter) then [from] else []) + KeptIndices(s, query, filter, from + 1)
  }

  lemma {:induction false} FilteredAtKeptIndices(s: seq<Transaction>, query: string, filter: FilterType, from: nat)
    requires from <= |s|
    ensures var idx := KeptIndices(s, query, filter, from);
      |Filtered(s[from..], query, filter)| == |idx| &&
      forall k :: 0 <= k < |idx| ==> Filtered(s[from..], query, filter)[k] == s[idx[k]]
    decreases |s| - from
  {
    if from < |s| {
      FilteredAtKeptIndices(s, query, filter, from + 1);
      assert s[from..][1..] == s[from + 1..];
      var rest, idxRest := Filtered(s[from + 1..], query, filter), KeptIndices(s, query, filter, from + 1);
      var r, idx := Filtered(s[from..], query, filter), KeptIndices(s, query, filter, from);
      if Keep(s[from], query, filter) {
        assert r == [s[from]] + rest && idx == [from] + idxRest;
        forall k | 0 <= k < |idx| ensures r[k] == s[idx[k]] {
          if k > 0 { assert r[k] == rest[k - 1] && idx[k] == idxRest[k - 1]; }
        }
      } else {
        assert r == rest && idx == idxRest;
      }
    }
  }

  /**
   * The filtered view is an ordered subsequence of the list: it is `s` read at
   * strictly increasing positions, and a position is read exactly when its
   * transaction matches the type and the search.
   */
  lemma FilteredIsOrderedSubsequence(s: seq<Transaction>, query: string, filter: FilterType)
    ensures var r, idx := Filtered(s, query, filter), KeptIndices(s, query, filter, 0);
      |r| == |idx| &&
      (forall k :: 0 <= k < |idx| ==> idx[k] < |s| && r[k] == s[idx[k]]) &&
      (forall k, l :: 0 <= k < l < |idx| ==> idx[k] < idx[l]) &&
      (forall j :: 0 <= j < |s| ==> (j in idx <==> Keep(s[j], query, filter)))
  {
    FilteredAtKeptIndices(s, query, filter, 0);
    assert s[0..] == s;
  }

  /** With `All` and an empty query the view is the whole list, in order. */
  lemma {:induction false} FilteredAllEmptyIsIdentity(s: seq<Transaction>)
    ensures Filtered(s, "", All) == s
  {
    if s != [] {
      FilteredAllEmptyIsIdentity(s[1..]);
    }
  }

  /** Under `IncomeOnly` every kept item is income; under `ExpenseOnly` none is. */
  lemma TypeFilterSound(s: seq<Transaction>, query: string)
    ensures forall t :: t in Filtered(s, query, IncomeOnly) ==> t.isIncome
    ensures forall t :: t in Filtered(s, query, ExpenseOnly) ==> !t.isIncome
  {
    FilteredMembership(s, query, IncomeOnly);
    FilteredMembership(s, query, ExpenseOnly);
  }

  /** The view is rebuilt from scratch, so filtering the view again changes nothing. */
  lemma {:induction false} FilteredIdempotent(s: seq<Transaction>, query: string, filter: FilterType)
    ensures Filtered(Filtered(s, query, filter), query, filter) == Filtered(s, query, filter)
  {
    if s != [] {
      FilteredIdempotent(s[1..], query, filter);
      var head := if Keep(s[0], query, filter) then [s[0]] else [];
      FilteredAppend(head, Filtered(s[1..], query, filter), query, filter);
      if head != [] {
        assert head[1..] == [];
      }
    }
  }

  /**
   * The search only looks at the lower-cased description: two transactions of
   * the same kind whose descriptions agree up to case are kept or dropped
   * together, whatever their ids, amounts and categories.
   */
  lemma SearchLooksOnlyAtLowerDescription(t1: Transaction, t2: Transaction, query: string, filter: FilterType)
    requires t1.isIncome == t2.isIncome && Lower(t1.description) == Lower(t2.description)
    ensures Keep(t1, query, filter) == Keep(t2, query, filter)
  {
  }

  /**
   * Case-insensitive search, as the stored query is lower-cased: a record of
   * the right kind whose lower-cased description contains the lower-cased
   * query is shown, whatever the case of either.
   */
  lemma SearchIsCaseInsensitive(s: seq<Transaction>, query: string, filter: FilterType)
    ensures forall t :: t in s && MatchesType(t, filter) && Contains(Lower(t.description), Lower(query)) ==>
      t in Filtered(s, Lower(query), filter)
  {
    FilteredMembership(s, Lower(query), filter);
  }

  /** The worked example: "Coffee Shop" matches "shop" and "SHOP"; its category "Food" does not match. */
  lemma CoffeeShopExample(id: int, amount: real)
    ensures var t := Transaction(id, "Coffee Shop", amount, false, "Food");
      Filtered([t], Lower("shop"), All) == [t] &&
      Filtered([t], Lower("SHOP"), All) == [t] &&
      Filtered([t], Lower("Food"), All) == []
  {
    var t := Transaction(id, "Coffee Shop", amount, false, "Food");
    assert [t][1..] == [];
    CoffeeShopLowered();
    assert Lower("SHOP") == "shop" && Lower("shop") == "shop" && Lower("Food") == "food";
    ShopOccurs();
    FoodDoesNotOccur();
  }

  lemma CoffeeShopLowered()
    ensures Lower("Coffee Shop") == "coffee shop"
  {
    var s := "Coffee Shop";
    assert s[0] == 'C' && s[6] == ' ' && s[7] == 'S';
  }

  lemma ShopOccurs()
    ensures Contains("coffee shop", "shop")
  {
    assert "coffee shop"[7..11] == "shop";
    assert OccursAt("coffee shop", "shop", 7);
  }

  lemma FoodDoesNotOccur()
    ensures !Contains("coffee shop", "food")
  {
    var s := "coffee shop";
    forall i ensures !OccursAt(s, "food", i) {
      if 0 <= i && i + 4 <= |s| {
        assert s[i..i + 4][0] == s[i] && s[i..i + 4][1] == s[i + 1];
        assert !(s[i] == 'f' && s[i + 1] == 'o') by {
          assert s[2] == 'f' && s[3] == 'f' && s[4] == 'e';
          assert s[0] != 'f' && s[1] != 'f' && s[5] != 'f' && s[6] != 'f' && s[7] != 'f';
        }
      }
    }
  }

  /** Presentation icons for categories. */
  datatype Icon = FoodIcon | TransportIcon | ShoppingIcon | BillsIcon | EntertainmentIcon | OthersIcon

  /** The categories that have an icon of their own, with that icon. */
  const CategoryIcons: map<string, Icon> := map[
    "Food" := FoodIcon, "Transport" := TransportIcon, "Shopping" := ShoppingIcon,
    "Bills" := BillsIcon, "Entertainment" := EntertainmentIcon]

  /** Exact, case-sensitive lookup; every other category gets the default icon. */
  function IconForCategory(category: string): (icon: Icon)
    ensures category in CategoryIcons ==> icon == CategoryIcons[category]
    ensures category !in CategoryIcons ==> icon == OthersIcon
  {
    match category
    case "Food" => FoodIcon
    case "Transport" => TransportIcon
    case "Shopping" => ShoppingIcon
    case "Bills" => BillsIcon
    case "Entertainment" => EntertainmentIcon
    case _ => OthersIcon
  }

  /**
   * Each of the five categories has its own icon, distinct from the default
   * and from each other; "Other", "others" and a lower-cased "food" fall back
   * to the default.
   */
  lemma IconLookupDistinguishesKnownCategories(c1: string, c2: string)
    ensures c1 in CategoryIcons ==> IconForCategory(c1) != OthersIcon
    ensures c1 in CategoryIcons && c2 in CategoryIcons && c1 != c2 ==> IconForCategory(c1) != IconForCategory(c2)
    ensures IconForCategory("Other") == IconForCategory("others") == IconForCategory("food") == OthersIcon
  {
  }

  /** The list adapter: its own reference to the full list, the filter criteria and the derived view. */
  class TransactionAdapter {
    const transactionList: TransactionList
    var filteredList: seq<Transaction>
    var currentFilter: FilterType
    var searchQuery: string

    /** The stored query is lower-cased and the view is derived from the list and the criteria. */
    ghost predicate Valid()
      reads this, transactionList
    {
      IsLowerCase(searchQuery) &&
      filteredList == Filtered(transactionList.items, searchQuery, currentFilter)
    }

    /** Initially the view is a copy of the whole list, under `All` and an empty query. */
    constructor (list: TransactionList)
      ensures Valid()
      ensures transactionList == list && currentFilter == All && searchQuery == ""
      ensures filteredList == list.items
    {
      transactionList := list;
      filteredList := list.items;
      currentFilter := All;
      searchQuery := "";
      FilteredAllEmptyIsIdentity(list.items);
    }

    /** `getItemCount()`: the size of the view. */
    method GetItemCount() returns (n: nat)
      requires Valid()
      ensures n == |Filtered(transactionList.items, searchQuery, currentFilter)|
    {
      n := |filteredList|;
    }

    /** `getFilteredCount()`: the size of the view, used for the "no results" message. */
    method GetFilteredCount() returns (n: nat)
      requires Valid()
      ensures n == |Filtered(transactionList.items, searchQuery, currentFilter)|
    {
      n := |filteredList|;
    }

    /** `filter(query, type)`: stores the lower-cased query and the type, then rebuilds the view. */
    method Filter(query: string, filterType: FilterType)
      modifies this
      ensures Valid()
      ensures searchQuery == Lower(query) && currentFilter == filterType
      ensures filteredList == Filtered(transactionList.items, Lower(query), filterType)
      ensures transactionList.items == old(transactionList.items)
    {
      searchQuery := Lower(query);
      currentFilter := filterType;
      LowerIsLowerCase(query);
      ApplyFilters();
    }

    /** `applyFilters()`: clears the view and refills it in one ordered pass over the list. */
    method ApplyFilters()
      modifies this`filteredList
      ensures filteredList == Filtered(transactionList.items, searchQuery, currentFilter)
    {
      filteredList := [];
      var items := transactionList.items;
      var i := 0;
      while i < |items|
        invariant 0 <= i <= |items|
        invariant filteredList == Filtered(items[..i], searchQuery, currentFilter)
      {
        var t := items[i];
        var matchesType := match currentFilter
          case All => true
          case IncomeOnly => t.isIncome
          case ExpenseOnly => !t.isIncome;
        var matchesSearch := |searchQuery| == 0 || Contains(Lower(t.description), searchQuery);
        assert matchesType && matchesSearch <==> Keep(t, searchQuery, currentFilter);
        if matchesType && matchesSearch {
          filteredList := filteredList + [t];
        }
        assert items[..i + 1] == items[..i] + [t];
        FilteredAppend(items[..i], [t], searchQuery, currentFilter);
        assert Filtered([t], searchQuery, currentFilter) == if Keep(t, searchQuery, currentFilter) then [t] else [] by {
          assert [t][1..] == [];
        }
        i := i + 1;
      }
      assert items[..i] == items;
    }

    /**
     * `updateTransactionList(newList)`: clears this adapter's list, appends
     * `newList` and rebuilds the view under the stored criteria. When
     * `newList` is the adapter's own list, the clear empties it first and the
     * list ends up empty.
     */
    method UpdateTransactionList(newList: TransactionList)
      requires IsLowerCase(searchQuery)
      modifies this`filteredList, transactionList
      ensures Valid()
      ensures transactionList.items == if newList == transactionList then [] else old(newList.items)
      ensures filteredList == Filtered(transactionList.items, searchQuery, currentFilter)
    {
      transactionList.Clear();
      transactionList.AddAll(newList);
      ApplyFilters();
    }
  }
}
