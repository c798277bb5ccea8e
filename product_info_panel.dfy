/** The product detail panel's ordering controls
    (`src/components/ProductInfoPanel.tsx`): size and colour choice, the
    quantity stepper, the size gate before ordering, and the hand-over from the
    checkout sheet to the confirmation. */
module ProductInfoPanel {
  import opened Wrappers
  import opened Text
  import opened Catalog
  import opened OrderTypes

  /** One press of the stepper: `−` gives `max(1, q - 1)`, `+` gives
      `min(stock, q + 1)`. */
  function Step(q: int, stock: int, increment: bool): (r: int)
    ensures !increment ==> r == if q - 1 < 1 then 1 else q - 1
    ensures increment ==> r == if stock < q + 1 then stock else q + 1
  {
    if increment then (if stock < q + 1 then stock else q + 1)
    else (if q - 1 < 1 then 1 else q - 1)
  }

  /** A sequence of presses. */
  function Run(q: int, stock: int, presses: seq<bool>): int
    decreases |presses|
  {
    if presses == [] then q else Run(Step(q, stock, presses[0]), stock, presses[1..])
  }

  /** With at least one item in stock the quantity stays between 1 and the
      stock, whatever is pressed. */
  lemma {:induction false} RunStaysInRange(q: int, stock: int, presses: seq<bool>)
    requires 1 <= q <= stock
    ensures 1 <= Run(q, stock, presses) <= stock
    decreases |presses|
  {
    if presses != [] {
      RunStaysInRange(Step(q, stock, presses[0]), stock, presses[1..]);
    }
  }

  /** Out of stock, `+` from any quantity that is not negative yields zero:
      `Math.min(0, q + 1)`. */
  lemma EmptyStockIncrement(q: int)
    requires q >= 0
    ensures Step(q, 0, true) == 0
  {
  }

  /** `inStock`. */
  predicate InStock(p: Product) {
    p.stock > 0
  }

  /** The order button is disabled exactly when nothing is in stock. */
  function OrderButtonDisabled(p: Product): (disabled: bool)
    ensures disabled <==> p.stock <= 0
  {
    !InStock(p)
  }

  /** The initially selected colour: the first one, or none. */
  function InitialColor(p: Product): (c: Option<string>)
    ensures p.colors == [] <==> c.None?
    ensures c.Some? ==> c.value == p.colors[0] && c.value in p.colors
  {
    if p.colors == [] then None else Some(p.colors[0])
  }

  /** The panel's state. */
  class Panel {
    const product: Product
    var selectedSize: Option<string>
    var selectedColor: Option<string>
    var qty: int
    var sizeError: bool
    var orderFormOpen: bool
    var confirmationOpen: bool
    var completedOrder: Option<PlacedOrder>
    var orderInsideDhaka: bool

    constructor(p: Product)
      ensures product == p
      ensures selectedSize == None && selectedColor == InitialColor(p) && qty == 1
      ensures !sizeError && !orderFormOpen && !confirmationOpen
      ensures completedOrder == None && orderInsideDhaka
    {
      product := p;
      selectedSize := None;
      selectedColor := InitialColor(p);
      qty := 1;
      sizeError := false;
      orderFormOpen := false;
      confirmationOpen := false;
      completedOrder := None;
      orderInsideDhaka := true;
    }

    /** Choosing a size selects it and clears the size warning. */
    method SelectSize(size: string)
      modifies this
      ensures selectedSize == Some(size) && !sizeError
      ensures qty == old(qty) && orderFormOpen == old(orderFormOpen) && selectedColor == old(selectedColor)
      ensures confirmationOpen == old(confirmationOpen) && completedOrder == old(completedOrder)
      ensures orderInsideDhaka == old(orderInsideDhaka)
    {
      selectedSize := Some(size);
      sizeError := false;
    }

    method SelectColor(color: string)
      modifies this
      ensures selectedColor == Some(color)
      ensures selectedSize == old(selectedSize) && qty == old(qty) && sizeError == old(sizeError)
      ensures orderFormOpen == old(orderFormOpen) && confirmationOpen == old(confirmationOpen)
      ensures completedOrder == old(completedOrder) && orderInsideDhaka == old(orderInsideDhaka)
    {
      selectedColor := Some(color);
    }

    /** `requireSize`: without a size, the warning is raised and the gate
        stays shut. */
    method RequireSize() returns (ok: bool)
      modifies this
      ensures ok <==> Truthy(selectedSize)
      ensures sizeError == (!ok || old(sizeError))
      ensures selectedSize == old(selectedSize) && qty == old(qty) && orderFormOpen == old(orderFormOpen)
      ensures selectedColor == old(selectedColor) && confirmationOpen == old(confirmationOpen)
      ensures completedOrder == old(completedOrder) && orderInsideDhaka == old(orderInsideDhaka)
    {
      if !Truthy(selectedSize) {
        sizeError := true;
        return false;
      }
      return true;
    }

    /** `handleOrderNow`: the checkout sheet opens only once a size is
        chosen. */
    method OrderNow()
      modifies this
      ensures Truthy(selectedSize) ==> orderFormOpen && sizeError == old(sizeError)
      ensures !Truthy(selectedSize) ==> orderFormOpen == old(orderFormOpen) && sizeError
      ensures selectedSize == old(selectedSize) && qty == old(qty)
      ensures selectedColor == old(selectedColor) && confirmationOpen == old(confirmationOpen)
      ensures completedOrder == old(completedOrder) && orderInsideDhaka == old(orderInsideDhaka)
    {
      var ok := RequireSize();
      if !ok {
        return;
      }
      orderFormOpen := true;
    }

    method Decrement()
      modifies this
      ensures qty == Step(old(qty), product.stock, false)
      ensures selectedSize == old(selectedSize) && sizeError == old(sizeError)
      ensures selectedColor == old(selectedColor) && orderFormOpen == old(orderFormOpen)
      ensures confirmationOpen == old(confirmationOpen) && completedOrder == old(completedOrder)
      ensures orderInsideDhaka == old(orderInsideDhaka)
    {
      qty := if qty - 1 < 1 then 1 else qty - 1;
    }

    method Increment()
      modifies this
      ensures qty == Step(old(qty), product.stock, true)
      ensures selectedSize == old(selectedSize) && sizeError == old(sizeError)
      ensures selectedColor == old(selectedColor) && orderFormOpen == old(orderFormOpen)
      ensures confirmationOpen == old(confirmationOpen) && completedOrder == old(completedOrder)
      ensures orderInsideDhaka == old(orderInsideDhaka)
    {
      qty := if product.stock < qty + 1 then product.stock else qty + 1;
    }

    /** The checkout sheet's close button. */
    method CloseOrderForm()
      modifies this
      ensures !orderFormOpen
      ensures confirmationOpen == old(confirmationOpen) && completedOrder == old(completedOrder)
      ensures selectedSize == old(selectedSize) && selectedColor == old(selectedColor)
      ensures qty == old(qty) && sizeError == old(sizeError) && orderInsideDhaka == old(orderInsideDhaka)
    {
      orderFormOpen := false;
    }

    /** `handleOrderSuccess`: the order and its zone are kept and the
        confirmation opens. */
    method OrderSuccess(order: Option<PlacedOrder>, isInsideDhaka: bool)
      modifies this
      ensures completedOrder == order && orderInsideDhaka == isInsideDhaka && confirmationOpen
      ensures qty == old(qty) && selectedSize == old(selectedSize) && orderFormOpen == old(orderFormOpen)
      ensures selectedColor == old(selectedColor) && sizeError == old(sizeError)
      ensures ConfirmationShown() <==> order.Some?
    {
      completedOrder := order;
      orderInsideDhaka := isInsideDhaka;
      confirmationOpen := true;
    }

    /** The confirmation is mounted only once there is an order to show; a
        successful response without an order never shows it. */
    predicate ConfirmationShown()
      reads this
    {
      completedOrder.Some? && confirmationOpen
    }
  }
}
