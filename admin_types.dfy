/** The admin-side entities (`src/types/admin.ts`). */
module AdminTypes {
  import opened Wrappers
  import opened OrderTypes

  datatype AdminLoginResponse = AdminLoginResponse(
    success: bool,
    message: Option<string>,
    token: Option<string>)

  /** An order as the admin list shows it; `status` is whatever string the
      server sent. */
  datatype AdminOrder = AdminOrder(
    id: string,
    shippingInfo: ShippingInfo,
    items: seq<OrderItem>,
    subtotal: int,
    deliveryCharge: int,
    total: int,
    status: string)

  datatype OrdersResponse = OrdersResponse(
    success: bool,
    orders: seq<AdminOrder>,
    total: int,
    page: int,
    totalPages: int)

  /** The `{ success, message? }` body of an admin mutation. */
  datatype Ack = Ack(success: bool, message: Option<string>)

  const OrderStatuses: seq<string> := ["Pending", "Confirmed", "Processing", "Shipped", "Delivered", "Cancelled"]
}
