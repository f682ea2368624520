/** The entities of the point-of-sale front end, shared by the register,
    the checkout calculator, the admin panel and the device panel. Money is
    modelled as `real`: the source keeps prices in JavaScript numbers. */
module Model {

  datatype Option<+T> = None | Some(value: T)

  /** An operator-defined catalog entry, keyed by barcode. */
  datatype Product = Product(barcode: string, name: string, price: real)

  /** What a barcode resolves to: the name and price shown in the cart. */
  datatype Item = Item(name: string, price: real)

  /** One line of the active sale; name and price are captured at first scan. */
  datatype CartLine = CartLine(barcode: string, name: string, price: real, qty: int)

  /** The payload the cart hands to checkout. */
  datatype Totals = Totals(subtotal: real, tax: real, total: real)

  /** A committed sale: `date` is the millisecond timestamp of the commit. */
  datatype Sale = Sale(date: int, items: seq<CartLine>, subtotal: real, tax: real, total: real)
}
