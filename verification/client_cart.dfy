/** The cart lines as the storefront's Cart and Checkout pages hold them after
    fetching the cart, and the subtotal both pages compute from them. The
    pages read the price through the line's product reference
    (`item.product?.price || 0`), not the price snapshot the server stores on
    the line. */
module ClientCart {
  import opened Wrappers
  import opened Catalog
  import CartLines

  /** The product a line refers to, as the page receives it; its price may be absent. */
  datatype LineProduct = LineProduct(id: ProductId, price: Option<nat>)

  /** A cart line on the page. `product` is absent when the reference is null. */
  datatype ClientLine = ClientLine(
    id: CartLines.ItemId,
    product: Option<LineProduct>,
    quantity: int,
    size: string,
    color: string)

  /** `item.product?.price || 0`: a missing product or a missing price reads as 0. */
  function UnitPrice(line: ClientLine): nat {
    match line.product
    case None => 0
    case Some(p) => p.price.GetOr(0)
  }

  /** `calculateSubtotal`: the sum of unit price × quantity over the lines. With
      no negative quantities it is not negative. */
  function Subtotal(lines: seq<ClientLine>): (r: int)
    ensures (forall k :: 0 <= k < |lines| ==> lines[k].quantity >= 0) ==> r >= 0
  {
    if lines == [] then 0 else UnitPrice(lines[0]) * lines[0].quantity + Subtotal(lines[1..])
  }

  lemma {:induction false} SubtotalAppend(a: seq<ClientLine>, b: seq<ClientLine>)
    ensures Subtotal(a + b) == Subtotal(a) + Subtotal(b)
  {
    if a == [] {
      assert a + b == b;
    } else {
      assert (a + b)[0] == a[0];
      assert (a + b)[1..] == a[1..] + b;
      SubtotalAppend(a[1..], b);
    }
  }

  /** A line whose product or price is missing contributes nothing: removing it
      from anywhere in the list leaves the subtotal as it was. */
  lemma UnpricedLineAddsNothing(before: seq<ClientLine>, line: ClientLine, after: seq<ClientLine>)
    requires line.product.None? || line.product.value.price.None?
    ensures Subtotal(before + [line] + after) == Subtotal(before + after)
  {
    SubtotalAppend(before + [line], after);
    SubtotalAppend(before, [line]);
    SubtotalAppend(before, after);
    assert Subtotal([line]) == UnitPrice(line) * line.quantity + Subtotal([]);
  }

  /** A list whose lines all lack a product or a price has subtotal 0. */
  lemma {:induction false} UnpricedCartIsFree(lines: seq<ClientLine>)
    requires forall k :: 0 <= k < |lines| ==> UnitPrice(lines[k]) == 0
    ensures Subtotal(lines) == 0
  {
    if lines != [] {
      UnpricedCartIsFree(lines[1..]);
    }
  }
}
