/** The order confirmation view (`src/components/OrderConfirmation.tsx`). Its
    cost breakdown is recomputed from the product price, the quantity and the
    delivery zone it is given; the server's order only supplies the address
    block. */
module OrderConfirmation {
  import opened Wrappers
  import opened Catalog
  import opened OrderTypes
  import OrderFormDialog

  /** The breakdown shown: subtotal, shipping and total. The order argument is
      accepted and not consulted. */
  function Breakdown(order: Option<PlacedOrder>, productPrice: int, quantity: int, isInsideDhaka: bool)
    : (s: OrderFormDialog.Summary)
    ensures s.shipping == (if isInsideDhaka then InsideDhakaFee else OutsideDhakaFee)
    ensures s.subtotal == productPrice * quantity
    ensures s.total == s.subtotal + s.shipping
  {
    var shippingCost := if isInsideDhaka then InsideDhakaFee else OutsideDhakaFee;
    var subtotal := productPrice * quantity;
    OrderFormDialog.Summary(subtotal, shippingCost, subtotal + shippingCost)
  }

  /** Given the product's display price, the confirmation shows exactly the
      summary the checkout sheet showed, whatever order the server returned,
      including one whose own amounts differ. */
  lemma SameAsCheckout(order: Option<PlacedOrder>, p: Product, quantity: int, isInsideDhaka: bool)
    ensures Breakdown(order, OrderFormDialog.DisplayPrice(p), quantity, isInsideDhaka)
      == OrderFormDialog.PriceSummary(p, quantity, isInsideDhaka)
  {
  }

  /** The address and phone block is shown only when the order carries its
      shipping details. */
  function ShowsShippingBlock(order: Option<PlacedOrder>): (shown: bool)
    ensures shown <==> order.Some? && order.value.shippingInfo.Some?
  {
    order.Some? && order.value.shippingInfo.Some?
  }
}
