/**
 * The `MutableList<Transaction>` objects the activity and the adapter hold.
 * It is a class because the list is a shared mutable object: the activity
 * first hands its own list to the adapter, and whether two references name
 * the same list decides what `clear()` followed by `addAll()` does.
 */
module Store {
  import opened Transactions

  class TransactionList {
    var items: seq<Transaction>

    /** `mutableListOf()`. */
    constructor Empty()
      ensures items == []
    {
      items := [];
    }

    /** A list holding the given records, in order (the result of a load). */
    constructor FromSeq(s: seq<Transaction>)
      ensures items == s
    {
      items := s;
    }

    /** `clear()`. */
    method Clear()
      modifies this
      ensures items == []
    {
      items := [];
    }

    /** `addAll(other)`: appends a snapshot of `other`, which may be this very list. */
    method AddAll(other: TransactionList)
      modifies this
      ensures items == old(items) + old(other.items)
    {
      items := items + other.items;
    }

    /** `add(index, t)`: inserts `t` so that it ends up at position `index`. */
    method Insert(index: nat, t: Transaction)
      requires index <= |items|
      modifies this
      ensures items == old(items[..index]) + [t] + old(items[index..])
      ensures |items| == |old(items)| + 1 && items[index] == t
    {
      items := items[..index] + [t] + items[index..];
    }

    /** `removeAt(index)`. */
    method RemoveAt(index: nat)
      requires index < |items|
      modifies this
      ensures items == old(items[..index]) + old(items[index + 1..])
    {
      items := items[..index] + items[index + 1..];
    }

    /**
     * `indexOf(t)`: the position of the first element structurally equal to
     * `t`, or -1 when there is none.
     */
    method IndexOf(t: Transaction) returns (index: int)
      ensures -1 <= index < |items|
      ensures index == -1 <==> t !in items
      ensures 0 <= index ==> items[index] == t && t !in items[..index]
    {
      index := 0;
      while index < |items|
        invariant 0 <= index <= |items|
        invariant t !in items[..index]
      {
        if items[index] == t {
          return;
        }
        assert items[..index + 1] == items[..index] + [items[index]];
        index := index + 1;
      }
      assert items[..index] == items;
      index := -1;
    }
  }
}
