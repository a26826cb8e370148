// The records the front end exchanges with the backend, as plain values.
// Money amounts are exact reals; stock counts and quantities are integers.

module Domain {
  import opened Js

  /** One colour of a product, with its own stock (parseInt may have left NaN). */
  datatype Variant = Variant(color: string, stock: JsInt)

  datatype Category = Category(id: JsId, name: string)

  datatype Brand = Brand(id: JsId, name: string, categoryId: JsId)

  /**
   * A catalog product. `brand` is the brand-name field that older reports read;
   * a product without variants has the empty sequence.
   */
  datatype Product = Product(
    id: JsId,
    name: string,
    price: real,
    stock: int,
    categoryId: JsId,
    brandId: JsId,
    brand: string,
    variants: seq<Variant>)

  /** One sold line; `variantColor` is "" when the line names no variant (the falsy case). */
  datatype SaleItem = SaleItem(productId: JsId, productName: string, quantity: int, variantColor: string)

  /** A sale record; `total` is None when missing, `items` is [] when missing. */
  datatype Sale = Sale(
    id: JsId,
    date: string,
    cashierId: JsId,
    total: Option<real>,
    items: seq<SaleItem>,
    isCancelled: bool)

  datatype User = User(id: JsId, username: string, password: string, role: string)

  /** An open till: `id` is the millisecond clock as text, `startTime` an ISO timestamp. */
  datatype Session = Session(id: string, cashierId: JsId, startTime: string, initialAmount: real)
}
