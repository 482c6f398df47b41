/**
 * The catalogue data the transaction engine works on: a product is a name and
 * a price in minor currency units (kopecks), a slot pairs a product with the
 * number of units left.
 */
module Inventory {

  /** Only the name and the price of a product matter to the machine. */
  datatype Product = Product(name: string, price: int)

  /** A numbered inventory position; the quantity can never go below zero. */
  datatype Slot = Slot(product: Product, quantity: nat)

  /**
   * Takes one unit out of a slot. The slot's own code is not part of this
   * model; it is assumed to subtract exactly one, and it is only ever called
   * after the stock check has seen a positive quantity.
   */
  function DecreaseQuantity(s: Slot): (r: Slot)
    requires s.quantity > 0
    ensures r.product == s.product
    ensures r.quantity + 1 == s.quantity
  {
    s.(quantity := s.quantity - 1)
  }
}
