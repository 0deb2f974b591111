/**
 * The screen that owns the transaction store: validated insertion at the
 * front, removal of the first equal record, the balance and summary loops,
 * and the search and filter criteria it forwards to the adapter.
 */
module Activity {
  import opened Wrappers
  import opened Transactions
  import opened Text
  import opened Store
  import opened Adapter
  import opened Summary

  /** Why an entered transaction was rejected, one per message the dialog shows. */
  datatype ValidationError = EmptyCategory | EmptyDescriptionOrAmount | InvalidAmount

  /**
   * The checks of the add dialog, in their fixed order, on trimmed inputs:
   * first the category, then description and amount text together, then the
   * parsed amount. A text field that holds no text reads as "". The amount
   * parser is a parameter; it is applied to the trimmed amount text.
   */
  function ValidateInput(categoryText: string, descriptionText: Option<string>, amountText: Option<string>,
                         isIncome: bool, id: int, parseAmount: string -> Option<real>): (r: Result<Transaction, ValidationError>)
    ensures var category, description, amount :=
      Trim(categoryText), Trim(descriptionText.GetOr("")), Trim(amountText.GetOr(""));
      && (r == Failure(EmptyCategory) <==> category == "")
      && (r == Failure(EmptyDescriptionOrAmount) <==> category != "" && (description == "" || amount == ""))
      && (r == Failure(InvalidAmount) <==>
            category != "" && description != "" && amount != "" &&
            (parseAmount(amount).None? || parseAmount(amount).value <= 0.0))
      && (r.Success? ==>
            parseAmount(amount).Some? &&
            r.value == Transaction(id, description, parseAmount(amount).value, isIncome, category))
    ensures r.Success? ==>
      r.value.amount > 0.0 && r.value.description != "" && r.value.category != "" &&
      !IsWhitespace(r.value.description[0]) && !IsWhitespace(r.value.category[0])
  {
    CheckTrimmed(Trim(categoryText), Trim(descriptionText.GetOr("")), Trim(amountText.GetOr("")), isIncome, id, parseAmount)
  }

  /** The three checks, in order, on texts that are already trimmed; then the record. */
  function CheckTrimmed(category: string, description: string, amountTxt: string,
                        isIncome: bool, id: int, parseAmount: string -> Option<real>): Result<Transaction, ValidationError>
  {
    if category == "" then Failure(EmptyCategory)
    else if description == "" || amountTxt == "" then Failure(EmptyDescriptionOrAmount)
    else
      var amount := parseAmount(amountTxt);
      if amount.None? || amount.value <= 0.0 then Failure(InvalidAmount)
      else Success(Transaction(id, description, amount.value, isIncome, category))
  }

  /**
   * Entering an accepted record's own description and category again, with
   * the same amount text, is accepted and yields the same record: the
   * stored texts are already trimmed.
   */
  lemma AcceptedInputIsStable(categoryText: string, descriptionText: Option<string>, amountText: Option<string>,
                              isIncome: bool, id: int, parseAmount: string -> Option<real>)
    requires ValidateInput(categoryText, descriptionText, amountText, isIncome, id, parseAmount).Success?
    ensures var t := ValidateInput(categoryText, descriptionText, amountText, isIncome, id, parseAmount).value;
      ValidateInput(t.category, Some(t.description), amountText, isIncome, id, parseAmount).Success? &&
      ValidateInput(t.category, Some(t.description), amountText, isIncome, id, parseAmount).value == t
  {
    TrimIdempotent(categoryText);
    TrimIdempotent(descriptionText.GetOr(""));
  }

  /**
   * The kind of a transaction is not carried by the sign of its amount: the
   * same input is accepted as income exactly when it is accepted as expense,
   * and the two records differ only in `isIncome`.
   */
  lemma KindDoesNotAffectValidation(categoryText: string, descriptionText: Option<string>, amountText: Option<string>,
                                    id: int, parseAmount: string -> Option<real>)
    ensures var income := ValidateInput(categoryText, descriptionText, amountText, true, id, parseAmount);
      var expense := ValidateInput(categoryText, descriptionText, amountText, false, id, parseAmount);
      income.Success? == expense.Success? &&
      (income.Success? ==>
        income.value.amount == expense.value.amount > 0.0 &&
        income.value == expense.value.(isIncome := true) && income.value.isIncome && !expense.value.isIncome) &&
      (income.Failure? ==> income.error == expense.error)
  {
    KindDoesNotAffectChecks(Trim(categoryText), Trim(descriptionText.GetOr("")), Trim(amountText.GetOr("")), id, parseAmount);
  }

  lemma KindDoesNotAffectChecks(category: string, description: string, amountTxt: string,
                                id: int, parseAmount: string -> Option<real>)
    ensures var income := CheckTrimmed(category, description, amountTxt, true, id, parseAmount);
      var expense := CheckTrimmed(category, description, amountTxt, false, id, parseAmount);
      income.Success? == expense.Success? &&
      (income.Success? ==> income.value == expense.value.(isIncome := true) && !expense.value.isIncome) &&
      (income.Failure? ==> income.error == expense.error)
  {
  }

  /** `removeAt(indexOf(t))` when `t` occurs, and the list itself when it does not. */
  function RemoveFirst(s: seq<Transaction>, t: Transaction): (r: seq<Transaction>)
    ensures |r| == if t in s then |s| - 1 else |s|
  {
    if s == [] then []
    else if s[0] == t then s[1..]
    else [s[0]] + RemoveFirst(s[1..], t)
  }

  /** When `k` is the first position holding `t`, only that position is removed. */
  lemma {:induction false} RemoveFirstAt(s: seq<Transaction>, t: Transaction, k: nat)
    requires k < |s| && s[k] == t && t !in s[..k]
    ensures RemoveFirst(s, t) == s[..k] + s[k + 1..]
  {
    if k > 0 {
      assert s[0] in s[..k];
      assert s[1..][..k - 1] == s[1..k];
      RemoveFirstAt(s[1..], t, k - 1);
      assert s[1..][k..] == s[k + 1..];
      assert s[..k] == [s[0]] + s[1..k];
    }
  }

  /** Removing an absent record leaves the list as it was. */
  lemma {:induction false} RemoveFirstAbsent(s: seq<Transaction>, t: Transaction)
    requires t !in s
    ensures RemoveFirst(s, t) == s
  {
    if s != [] {
      assert s[0] != t;
      RemoveFirstAbsent(s[1..], t);
    }
  }

  /** Removing a present record takes out exactly one copy of it and nothing else. */
  lemma {:induction false} RemoveFirstTakesOneCopy(s: seq<Transaction>, t: Transaction)
    ensures multiset(RemoveFirst(s, t)) == multiset(s) - multiset{t}
  {
    if s != [] {
      assert s == [s[0]] + s[1..];
      if s[0] != t {
        RemoveFirstTakesOneCopy(s[1..], t);
      }
    }
  }

  /** The radio button the filter dialog checks for the current filter. */
  function FilterTypeToIndex(filter: FilterType): (index: int)
    ensures 0 <= index <= 2
  {
    match filter
    case All => 0
    case IncomeOnly => 1
    case ExpenseOnly => 2
  }

  /** The filter a chosen radio button selects; an unexpected index selects `All`. */
  function FilterTypeFromIndex(which: int): (filter: FilterType)
    ensures !(0 <= which <= 2) ==> filter == All
  {
    match which
    case 0 => All
    case 1 => IncomeOnly
    case 2 => ExpenseOnly
    case _ => All
  }

  /** The two mappings are inverse on the three radio buttons. */
  lemma FilterIndexRoundTrip(filter: FilterType, which: int)
    ensures FilterTypeFromIndex(FilterTypeToIndex(filter)) == filter
    ensures 0 <= which <= 2 ==> FilterTypeToIndex(FilterTypeFromIndex(which)) == which
  {
  }

  class MainActivity {
    var transactionList: TransactionList
    var transactionAdapter: TransactionAdapter
    var currentFilterType: FilterType
    var currentSearchQuery: string

    /**
     * The adapter holds a distinct list object with the same contents as the
     * store, the adapter's criteria are the activity's (the query
     * lower-cased), and so the view is the store filtered by them.
     */
    ghost predicate Valid()
      reads this, transactionList, transactionAdapter, transactionAdapter.transactionList
      ensures Valid() ==>
        transactionAdapter.filteredList == Filtered(transactionList.items, Lower(currentSearchQuery), currentFilterType)
    {
      transactionAdapter.Valid() &&
      transactionList != transactionAdapter.transactionList &&
      transactionAdapter.transactionList.items == transactionList.items &&
      transactionAdapter.currentFilter == currentFilterType &&
      transactionAdapter.searchQuery == Lower(currentSearchQuery)
    }

    /** The full store's records. */
    ghost function Items(): seq<Transaction>
      reads this, transactionList
    {
      transactionList.items
    }

    /** The list the screen shows. */
    ghost function View(): seq<Transaction>
      reads this, transactionAdapter
    {
      transactionAdapter.filteredList
    }

    /**
     * Start-up: `init()` builds the adapter over the activity's first, empty
     * list; `loadData()` then replaces the activity's list by a fresh one
     * holding the loaded records (none when nothing was saved) and resets
     * the adapter's list from it. From here on the two lists are distinct.
     */
    constructor (persisted: Option<seq<Transaction>>)
      ensures Valid()
      ensures Items() == persisted.GetOr([]) && View() == Items()
      ensures currentFilterType == All && currentSearchQuery == ""
      ensures fresh(transactionList) && fresh(transactionAdapter) && fresh(transactionAdapter.transactionList)
    {
      var first := new TransactionList.Empty();
      transactionList := first;
      transactionAdapter := new TransactionAdapter(first);
      currentFilterType := All;
      currentSearchQuery := "";
      new;
      transactionList := new TransactionList.FromSeq(persisted.GetOr([]));
      transactionAdapter.UpdateTransactionList(transactionList);
      FilteredAllEmptyIsIdentity(transactionList.items);
    }

    /**
     * `addTransactionFromDialog`: on valid input the new record is put at
     * position 0 of the store and the adapter is reset from the store; on
     * invalid input nothing changes. The id (a clock reading) and the
     * amount parser are parameters.
     */
    method AddTransactionFromDialog(categoryText: string, descriptionText: Option<string>, amountText: Option<string>,
                                    isIncome: bool, id: int, parseAmount: string -> Option<real>)
      returns (outcome: Result<Transaction, ValidationError>)
      requires Valid()
      modifies transactionList, transactionAdapter, transactionAdapter.transactionList
      ensures Valid()
      ensures outcome == ValidateInput(categoryText, descriptionText, amountText, isIncome, id, parseAmount)
      ensures outcome.Failure? ==> Items() == old(Items())
      ensures outcome.Success? ==> Items() == [outcome.value] + old(Items())
      ensures View() == Filtered(Items(), Lower(currentSearchQuery), currentFilterType)
    {
      outcome := ValidateInput(categoryText, descriptionText, amountText, isIncome, id, parseAmount);
      if outcome.Success? {
        Prepend(outcome.value);
      }
    }

    /** `transactionList.add(0, t)` followed by resetting the adapter's list from the store. */
    method Prepend(t: Transaction)
      requires Valid()
      modifies transactionList, transactionAdapter, transactionAdapter.transactionList
      ensures Valid()
      ensures Items() == [t] + old(Items())
    {
      transactionList.Insert(0, t);
      transactionAdapter.UpdateTransactionList(transactionList);
    }

    /**
     * `deleteTransaction(t)`: removes the first record structurally equal
     * to `t` and resets the adapter from the store; does nothing when no
     * record equals `t`.
     */
    method DeleteTransaction(t: Transaction)
      requires Valid()
      modifies transactionList, transactionAdapter, transactionAdapter.transactionList
      ensures Valid()
      ensures Items() == RemoveFirst(old(Items()), t)
      ensures View() == Filtered(Items(), Lower(currentSearchQuery), currentFilterType)
    {
      var ind := transactionList.IndexOf(t);
      if ind >= 0 {
        RemoveFirstAt(transactionList.items, t, ind);
        transactionList.RemoveAt(ind);
        transactionAdapter.UpdateTransactionList(transactionList);
      } else {
        RemoveFirstAbsent(transactionList.items, t);
      }
    }

    /** `updateBalance()`: the balance over the whole store, whatever the view shows. */
    method UpdateBalance() returns (total: real)
      ensures total == Balance(Items())
    {
      var items := transactionList.items;
      total := 0.0;
      var i := 0;
      while i < |items|
        invariant 0 <= i <= |items|
        invariant total == Balance(items[..i])
      {
        var t := items[i];
        total := total + (if t.isIncome then t.amount else -t.amount);
        assert items[..i + 1][..i] == items[..i];
        i := i + 1;
      }
      assert items[..i] == items;
    }

    /** `updateIncomeExpenseSummary()`: income and expense totals and counts over the whole store. */
    method UpdateIncomeExpenseSummary() returns (totalIncome: real, totalExpense: real, incomeCount: nat, expenseCount: nat)
      ensures totalIncome == TotalIncome(Items()) && incomeCount == IncomeCount(Items())
      ensures totalExpense == TotalExpense(Items()) && expenseCount == ExpenseCount(Items())
    {
      var items := transactionList.items;
      totalIncome, totalExpense := 0.0, 0.0;
      incomeCount, expenseCount := 0, 0;
      var i := 0;
      while i < |items|
        invariant 0 <= i <= |items|
        invariant totalIncome == TotalIncome(items[..i]) && incomeCount == IncomeCount(items[..i])
        invariant totalExpense == TotalExpense(items[..i]) && expenseCount == ExpenseCount(items[..i])
      {
        var t := items[i];
        if t.isIncome {
          totalIncome := totalIncome + t.amount;
          incomeCount := incomeCount + 1;
        } else {
          totalExpense := totalExpense + t.amount;
          expenseCount := expenseCount + 1;
        }
        assert items[..i + 1][..i] == items[..i];
        i := i + 1;
      }
      assert items[..i] == items;
    }

    /** `onQueryTextChange(newText)`: a missing text is the empty query; the view is refiltered, the store untouched. */
    method OnQueryTextChange(newText: Option<string>) returns (handled: bool)
      requires Valid()
      modifies this, transactionAdapter
      ensures Valid() && handled
      ensures currentSearchQuery == newText.GetOr("") && currentFilterType == old(currentFilterType)
      ensures transactionList == old(transactionList) && transactionAdapter == old(transactionAdapter)
      ensures Items() == old(Items())
      ensures View() == Filtered(Items(), Lower(currentSearchQuery), currentFilterType)
    {
      currentSearchQuery := newText.GetOr("");
      transactionAdapter.Filter(currentSearchQuery, currentFilterType);
      handled := true;
    }

    /** A choice in the filter dialog: the chosen index selects the filter and the view is refiltered. */
    method OnFilterSelected(which: int)
      requires Valid()
      modifies this, transactionAdapter
      ensures Valid()
      ensures currentFilterType == FilterTypeFromIndex(which) && currentSearchQuery == old(currentSearchQuery)
      ensures transactionList == old(transactionList) && transactionAdapter == old(transactionAdapter)
      ensures Items() == old(Items())
      ensures View() == Filtered(Items(), Lower(currentSearchQuery), currentFilterType)
    {
      currentFilterType := FilterTypeFromIndex(which);
      transactionAdapter.Filter(currentSearchQuery, currentFilterType);
    }

    /** The radio button the filter dialog opens with. */
    method CheckedFilterItem() returns (index: int)
      ensures 0 <= index <= 2 && FilterTypeFromIndex(index) == currentFilterType
    {
      index := FilterTypeToIndex(currentFilterType);
    }
  }
}
