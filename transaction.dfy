/** The immutable transaction record (a Kotlin data class). */
module Transactions {

  /** The category a transaction gets when none is supplied. */
  const DefaultCategory: string := "others"

  /**
   * One income or expense record. Every field is immutable; equality of two
   * records is structural over all five fields, as for a Kotlin data class.
   * Whether a record is income or expense is carried by `isIncome`, never by
   * the sign of `amount`. The `Double` amount is modelled as an exact `real`
   * and the `Long` id as an unbounded `int`.
   */
  datatype Transaction = Transaction(
    id: int,
    description: string,
    amount: real,
    isIncome: bool,
    category: string := DefaultCategory)

  /** A record built without a category carries the default one. */
  lemma DefaultCategoryApplies(id: int, description: string, amount: real, isIncome: bool)
    ensures Transaction(id, description, amount, isIncome).category == DefaultCategory == "others"
  {
  }

  /**
   * Structural equality: two records are equal exactly when all five fields
   * agree. In particular a copy with the same fields cannot be told apart
   * from the original, which is what removal by `indexOf` relies on.
   */
  lemma EqualityIsStructural(a: Transaction, b: Transaction)
    ensures a == b <==>
      a.id == b.id && a.description == b.description && a.amount == b.amount &&
      a.isIncome == b.isIncome && a.category == b.category
  {
  }
}
