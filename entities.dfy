/**
 * The persistent entities the core reads. Their classes are not part of
 * this model; only the properties the assembler and the controller read
 * are kept.
 */
module Entities {
  import opened Wrappers
  import opened JavaLong

  /**
   * `Product.CURRENCY`, the system-wide currency. Its value is declared in
   * the entity class, which is not part of this model, so it is left
   * unspecified here: every property holds whatever string it is.
   */
  const CURRENCY: string

  datatype User = User(id: Long, username: string)

  datatype Category = Category(id: Long, name: string)

  /**
   * A stored product. `currency` is what the row holds, which the
   * assembler never reads; `categories` is None when the association is
   * null.
   */
  datatype Product = Product(
    id: Long,
    name: string,
    currency: string,
    price: real,
    categories: Option<seq<Category>>,
    owner: User)
}
