/**
 * The cart the menu page adds to and the checkout page reads and clears. The cart
 * service itself is not part of this model; this class stands in for it with the two
 * operations its callers use: append one line (no merging by food) and empty the cart.
 */
module CartStore {
  import opened MenuAdmin

  /** One customised, priced dish in the cart. */
  datatype CartLine = CartLine(
    foodId: int,
    name: string,
    basePrice: int,
    addons: seq<Addon>,
    quantity: int,
    totalPrice: int)

  class Cart {
    var lines: seq<CartLine>

    constructor()
      ensures lines == []
    {
      lines := [];
    }

    /** `addToCart(line)`: the line goes at the end, as a new entry even if the same food is already there. */
    method AddToCart(line: CartLine)
      modifies this
      ensures lines == old(lines) + [line]
    {
      lines := lines + [line];
    }

    /** `clearCart()`. */
    method ClearCart()
      modifies this
      ensures lines == []
    {
      lines := [];
    }
  }
}
