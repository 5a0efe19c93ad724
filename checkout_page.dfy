/**
 * The checkout page: validates the customer's details, totals the cart, records the
 * order at the head of the stored order history, and, one scheduled step later,
 * empties the cart.
 */
module CheckoutPage {
  import opened Wrappers
  import opened JsText
  import opened CartStore

  datatype Customer = Customer(name: string, phone: string, address: string)

  /** A placed order: an id from the clock, an ISO-8601 date, the customer as typed, the cart lines and the total. */
  datatype Order = Order(id: string, date: string, customer: Customer, items: seq<CartLine>, total: int)

  /** The value of one cart line: its price times its quantity. */
  function LineValue(line: CartLine): int {
    line.totalPrice * line.quantity
  }

  /** `items.reduce((sum, item) => sum + item.totalPrice * item.quantity, 0)`, folded from the left. */
  function GrandTotal(items: seq<CartLine>): (total: int)
    ensures items == [] ==> total == 0
    ensures (forall i :: 0 <= i < |items| ==> items[i].totalPrice >= 0 && items[i].quantity >= 0) ==> total >= 0
    decreases |items|
  {
    if items == [] then 0
    else
      var last := items[|items| - 1];
      assert forall i :: 0 <= i < |items| - 1 ==> items[..|items| - 1][i] == items[i];
      GrandTotal(items[..|items| - 1]) + LineValue(last)
  }

  /** The total of a concatenation is the sum of the totals, so each line contributes independently of the others. */
  lemma {:induction false} GrandTotalConcat(a: seq<CartLine>, b: seq<CartLine>)
    ensures GrandTotal(a + b) == GrandTotal(a) + GrandTotal(b)
    decreases |b|
  {
    if b == [] {
      assert a + b == a;
    } else {
      var b' := b[..|b| - 1];
      assert (a + b)[..|a + b| - 1] == a + b';
      GrandTotalConcat(a, b');
    }
  }

  /** A cart of 150 x 2 and 80 x 1 totals 380. */
  lemma GrandTotalExample()
    ensures GrandTotal([CartLine(1, "A", 150, [], 2, 150), CartLine(2, "B", 80, [], 1, 80)]) == 380
  {
    var a := CartLine(1, "A", 150, [], 2, 150);
    var b := CartLine(2, "B", 80, [], 1, 80);
    assert [a, b][..1] == [a];
    assert [a][..0] == [];
  }

  /** `isFormValid()` over given field values: the name and address are not blank, the trimmed phone is at least ten UTF-16 code units long, and the cart has a line. */
  predicate FormValid(name: string, phone: string, address: string, items: seq<CartLine>) {
    Utf16Length(Trim(name)) > 0 &&
    Utf16Length(Trim(phone)) >= 10 &&
    Utf16Length(Trim(address)) > 0 &&
    |items| > 0
  }

  /** Some character of `s` is not whitespace. */
  predicate HasVisibleChar(s: string) {
    exists k :: 0 <= k < |s| && !IsJsWhitespace(s[k])
  }

  /** The form check in terms of the raw fields: a name and an address with a visible character, a trimmed phone of ten or more code units, and a non-empty cart; an empty cart always fails it. */
  lemma FormValidIff(name: string, phone: string, address: string, items: seq<CartLine>)
    ensures FormValid(name, phone, address, items) <==>
              HasVisibleChar(name) && Utf16Length(Trim(phone)) >= 10 && HasVisibleChar(address) && |items| > 0
    ensures items == [] ==> !FormValid(name, phone, address, items)
  {
    TrimEmptyIff(name);
    TrimEmptyIff(address);
  }

  /** A form whose name and address show a character, whose phone is ten or more BMP characters with visible ends, and whose cart has a line passes. */
  lemma FormValidWhenFilled(name: string, phone: string, address: string, items: seq<CartLine>)
    requires HasVisibleChar(name) && HasVisibleChar(address) && |items| > 0
    requires |phone| >= 10 && !IsJsWhitespace(phone[0]) && !IsJsWhitespace(phone[|phone| - 1])
    requires forall k :: 0 <= k < |phone| ==> phone[k] as int <= 0xFFFF
    ensures FormValid(name, phone, address, items)
  {
    FormValidIff(name, phone, address, items);
    TrimKeepsVisibleEnds(phone);
    BmpUtf16Length(phone);
  }

  /** The order id `'ORD-' + Date.now()`. */
  function OrderId(now: nat): string {
    "ORD-" + NatToDecimal(now)
  }

  /** Orders placed at different instants get different ids. */
  lemma OrderIdInjective(m: nat, n: nat)
    requires m != n
    ensures OrderId(m) != OrderId(n)
  {
    DecimalInjective(m, n);
    assert OrderId(m)[4..] == NatToDecimal(m);
    assert OrderId(n)[4..] == NatToDecimal(n);
  }

  /** The `Checkout` page component. Its `items` follow the cart service's stream; here they are read from the cart directly. */
  class Checkout {
    const cart: Cart
    var name: string
    var phone: string
    var address: string
    var isPlacingOrder: bool
    var isBrowser: bool
    /** The `orders` storage key. */
    var storedOrders: Option<seq<Order>>

    constructor(cart: Cart, isBrowser: bool, storedOrders: Option<seq<Order>>)
      ensures this.cart == cart && this.isBrowser == isBrowser && this.storedOrders == storedOrders
      ensures name == "" && phone == "" && address == "" && !isPlacingOrder
    {
      this.cart := cart;
      this.isBrowser := isBrowser;
      this.storedOrders := storedOrders;
      name, phone, address := "", "", "";
      isPlacingOrder := false;
    }

    /** `isFormValid()`. */
    predicate IsFormValid()
      reads this, cart
      ensures IsFormValid() <==>
                HasVisibleChar(name) && Utf16Length(Trim(phone)) >= 10 && HasVisibleChar(address) && |cart.lines| > 0
    {
      FormValidIff(name, phone, address, cart.lines);
      FormValid(name, phone, address, cart.lines)
    }

    /** `getGrandTotal()`. */
    function GetGrandTotal(): (total: int)
      reads this, cart
      ensures cart.lines == [] ==> total == 0
      ensures (forall i :: 0 <= i < |cart.lines| ==> cart.lines[i].totalPrice >= 0 && cart.lines[i].quantity >= 0) ==> total >= 0
    {
      GrandTotal(cart.lines)
    }

    /** `JSON.parse(localStorage.getItem('orders') || '[]')`. */
    function ExistingOrders(): (orders: seq<Order>)
      reads this
      ensures storedOrders.None? ==> orders == []
      ensures storedOrders.Some? ==> orders == storedOrders.value
    {
      storedOrders.GetOr([])
    }

    /**
     * `placeOrder()`, up to the scheduled continuation: outside a browser or with an invalid
     * form nothing happens; otherwise the new order goes to the head of the stored history and
     * the page is marked as placing. `now` and `isoDate` are what the clock gives.
     */
    method PlaceOrder(now: nat, isoDate: string)
      modifies this`isPlacingOrder, this`storedOrders
      ensures !(isBrowser && old(IsFormValid())) ==> unchanged(this)
      ensures isBrowser && old(IsFormValid()) ==>
                isPlacingOrder &&
                storedOrders == Some([Order(OrderId(now), isoDate, Customer(name, phone, address), cart.lines, GetGrandTotal())]
                                     + old(ExistingOrders()))
      ensures isBrowser && old(IsFormValid()) ==> |ExistingOrders()| == |old(ExistingOrders())| + 1
    {
      if !isBrowser || !IsFormValid() {
        return;
      }
      isPlacingOrder := true;
      var order := Order(OrderId(now), isoDate, Customer(name, phone, address), cart.lines, GetGrandTotal());
      var existingOrders := ExistingOrders();
      storedOrders := Some([order] + existingOrders);
    }

    /** The continuation `placeOrder` schedules: leave the placing state and empty the cart. */
    method FinishPlacingOrder()
      modifies this`isPlacingOrder, cart
      ensures !isPlacingOrder && cart.lines == []
    {
      isPlacingOrder := false;
      cart.ClearCart();
    }
  }
}
