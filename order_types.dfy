/** The order-placement entities and the delivery fees (`src/types/order.ts`). */
module OrderTypes {
  import opened Wrappers

  datatype ShippingInfo = ShippingInfo(
    name: string,
    phone: string,
    address: string,
    city: string,
    isInsideDhaka: bool)

  datatype OrderItem = OrderItem(productId: string, size: string, color: string, quantity: int)

  /** The body of `POST /api/orders`. */
  datatype CreateOrderPayload = CreateOrderPayload(shippingInfo: ShippingInfo, items: seq<OrderItem>)

  /** The order echoed by the server after placement; its shipping block may be
      missing from the response. */
  datatype PlacedOrder = PlacedOrder(
    id: string,
    totalAmount: int,
    shippingCost: int,
    status: string,
    shippingInfo: Option<ShippingInfo>,
    items: seq<OrderItem>)

  /** Delivery fee in taka inside and outside Dhaka. */
  const InsideDhakaFee: int := 70
  const OutsideDhakaFee: int := 120

  /** The HTTP status and body of `POST /api/orders`. */
  datatype OrderResponse = OrderResponse(ok: bool, success: bool, message: Option<string>, order: Option<PlacedOrder>)

  /** `createOrder` (`src/actions/order.action.ts`): a response that is not ok,
      or whose body does not report success, becomes an error carrying the
      server's message or a default; otherwise the body's order is returned. */
  function CreateOrder(res: OrderResponse): (r: Result<Option<PlacedOrder>, string>)
    ensures r.Success? <==> res.ok && res.success
    ensures r.Success? ==> r.value == res.order
    ensures r.Failure? && (res.message.Some? && res.message.value != "") ==> r.error == res.message.value
    ensures r.Failure? && !(res.message.Some? && res.message.value != "") ==> r.error == "Failed to place order. Please try again."
  {
    if !res.ok || !res.success then
      Failure(if res.message.Some? && res.message.value != "" then res.message.value else "Failed to place order. Please try again.")
    else Success(res.order)
  }
}
