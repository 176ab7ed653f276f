/** Records exchanged with the back-office API, as the order pages see them.
    Only the fields the order-editing workflow reads are kept. */
module Domain {

  /** A value that may be missing: the `null` of a TypeScript `T | null`. */
  datatype Option<+T> = None | Some(value: T)

  /** One (product, quantity) pair of an order; the product is referenced by id only. */
  datatype CartLine = CartLine(productId: string, quantity: int)

  /** A catalog product, reduced to what the order editor displays. */
  datatype Product = Product(id: string, title: string)

  /** A customer; orders refer to it through `customerId`. */
  datatype Customer = Customer(id: string, fullName: string)

  /** An order as fetched from the server. `status` is the server's enum name
      ("New", "ReadyToShip", "Shipped"), kept as text because the page compares it
      with a string literal. */
  datatype Order = Order(
    id: string,
    serialNumber: int,
    customerId: string,
    status: string,
    isPaid: bool,
    cartLines: seq<CartLine>)
}
