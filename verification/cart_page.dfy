/** The shopping-bag page: its shipping rule, its total, the free-shipping hint
    and the guard on the quantity buttons. */
module CartPage {
  import opened Wrappers
  import opened ClientCart
  import CartLines

  /** Shipping is free for a subtotal strictly above this. */
  const FreeShippingAbove: int := 100
  /** The fee charged otherwise. */
  const StandardFee: nat := 10

  /** `calculateShipping`: free exactly when the subtotal is above 100, else 10. */
  function Shipping(lines: seq<ClientLine>): (fee: nat)
    ensures fee == 0 <==> Subtotal(lines) > FreeShippingAbove
    ensures fee != 0 ==> fee == StandardFee
  {
    if Subtotal(lines) > FreeShippingAbove then 0 else StandardFee
  }

  /** `calculateTotal`: never below the subtotal, and above it by exactly the
      standard fee when the subtotal does not exceed 100. */
  function Total(lines: seq<ClientLine>): (r: int)
    ensures r >= Subtotal(lines)
    ensures r == Subtotal(lines) <==> Subtotal(lines) > FreeShippingAbove
    ensures r != Subtotal(lines) ==> r == Subtotal(lines) + StandardFee
  {
    Subtotal(lines) + Shipping(lines)
  }

  /** The "Add $X more for free shipping" hint as the page writes it: the order
      summary holding it is rendered only for a non-empty cart (an empty cart
      shows an empty-cart screen instead), and within it the hint shows only
      while shipping is charged; the amount 100 − subtotal is then not negative. */
  function FreeShippingHint(lines: seq<ClientLine>): (hint: Option<int>)
    ensures hint.Some? <==> |lines| > 0 && Shipping(lines) > 0
    ensures hint.Some? ==> hint.value >= 0 && Subtotal(lines) + hint.value == FreeShippingAbove
  {
    if |lines| > 0 && Shipping(lines) > 0 then Some(FreeShippingAbove - Subtotal(lines)) else None
  }

  /** Adding exactly the hinted amount brings the subtotal to 100, which is not
      above 100: shipping is still charged. */
  lemma HintFallsShort(lines: seq<ClientLine>, more: seq<ClientLine>)
    requires FreeShippingHint(lines).Some?
    requires Subtotal(more) == FreeShippingHint(lines).value
    ensures Shipping(lines + more) == StandardFee
  {
    SubtotalAppend(lines, more);
  }

  /** The amount the hint evidently means: the least whole amount whose addition
      makes shipping free, 101 − subtotal, shown under the same conditions. */
  function FreeShippingGap(lines: seq<ClientLine>): (gap: Option<int>)
    ensures gap.Some? <==> |lines| > 0 && Shipping(lines) > 0
    ensures gap.Some? ==> gap.value >= 1
  {
    if |lines| > 0 && Shipping(lines) > 0 then Some(FreeShippingAbove + 1 - Subtotal(lines)) else None
  }

  /** Adding lines worth at least the gap, and only then, makes shipping free. */
  lemma GapIsExact(lines: seq<ClientLine>, more: seq<ClientLine>)
    requires FreeShippingGap(lines).Some?
    ensures Shipping(lines + more) == 0 <==> Subtotal(more) >= FreeShippingGap(lines).value
  {
    SubtotalAppend(lines, more);
  }

  /** The request `updateQuantity` sends to the server. */
  datatype QuantityUpdate = QuantityUpdate(itemId: CartLines.ItemId, quantity: int)

  /** `updateQuantity`: a quantity below 1 sends nothing; otherwise the
      request carries the item id and the new quantity unchanged. */
  function UpdateQuantity(itemId: CartLines.ItemId, newQuantity: int): (call: Option<QuantityUpdate>)
    ensures call.Some? <==> newQuantity >= 1
    ensures call.Some? ==> call.value.itemId == itemId && call.value.quantity == newQuantity
  {
    if newQuantity < 1 then None else Some(QuantityUpdate(itemId, newQuantity))
  }

  /** The "−" button on a line of quantity 1 sends no update, and the "+" button
      on a line of non-negative quantity always sends one. */
  lemma StepperButtons(line: ClientLine)
    ensures line.quantity == 1 ==> UpdateQuantity(line.id, line.quantity - 1).None?
    ensures line.quantity >= 0 ==> UpdateQuantity(line.id, line.quantity + 1) == Some(QuantityUpdate(line.id, line.quantity + 1))
  {
  }

  /** Updates that pass the page's guard keep every server-side quantity at
      least 1: the guard supplies the lower bound the controller does not check. */
  lemma GuardedUpdateKeepsQuantitiesPositive(items: seq<CartLines.CartItem>, itemId: CartLines.ItemId, newQuantity: int)
    requires forall k :: 0 <= k < |items| ==> items[k].quantity >= 1
    requires UpdateQuantity(itemId, newQuantity).Some?
    ensures var call := UpdateQuantity(itemId, newQuantity).value;
      var r := CartLines.SetQuantity(items, call.itemId, call.quantity);
      forall k :: 0 <= k < |r| ==> r[k].quantity >= 1
  {
  }
}
