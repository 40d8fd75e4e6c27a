/** The server-side cart's line list and the operations the cart controller
    performs on it, as functions on values. The `Cart` class in module
    CartController applies these to its own fields; the lemmas here state what
    each operation does to the lines, to the cached total and to the cart's
    invariants. */
module CartLines {
  import opened Wrappers
  import opened Catalog

  /** Identifier of a cart line (the sub-document id the store assigns). */
  type ItemId = nat

  /** One cart line: the product reference, the product's name, price and image
      as they were when the line was created, and the requested quantity, size
      and color. Quantities are plain integers: the controller never checks them. */
  datatype CartItem = CartItem(
    id: ItemId,
    product: ProductId,
    name: string,
    price: nat,
    image: string,
    quantity: int,
    size: string,
    color: string)

  /** What one line contributes to the cart total. */
  function LineAmount(item: CartItem): int {
    item.price * item.quantity
  }

  /** The cart total: the sum of price × quantity over the lines. */
  function Total(items: seq<CartItem>): int {
    if items == [] then 0 else LineAmount(items[0]) + Total(items[1..])
  }

  // ---------------------------------------------------------------------------
  // Cart invariants

  /** At most one line per product id. */
  ghost predicate OneLinePerProduct(items: seq<CartItem>) {
    forall i, j :: 0 <= i < j < |items| ==> items[i].product != items[j].product
  }

  /** Line ids are pairwise distinct. */
  ghost predicate UniqueIds(items: seq<CartItem>) {
    forall i, j :: 0 <= i < j < |items| ==> items[i].id != items[j].id
  }

  /** Every line id is below `bound`, the next id the cart will hand out. */
  ghost predicate IdsBelow(items: seq<CartItem>, bound: nat) {
    forall i :: 0 <= i < |items| ==> items[i].id < bound
  }

  /** Line `i` is the one and only line for product `pid`. */
  ghost predicate SingleLineAt(items: seq<CartItem>, pid: ProductId, i: nat) {
    && i < |items|
    && items[i].product == pid
    && forall j :: 0 <= j < |items| && j != i ==> items[j].product != pid
  }

  // ---------------------------------------------------------------------------
  // Lookups

  /** `items.find(item => item.product === pid)`: the index of the first line
      for product `pid`, if any. */
  function FindProduct(items: seq<CartItem>, pid: ProductId): (r: Option<nat>)
    ensures r.Some? ==> r.value < |items| && items[r.value].product == pid
    ensures r.Some? ==> forall j :: 0 <= j < r.value ==> items[j].product != pid
    ensures r.None? <==> forall j :: 0 <= j < |items| ==> items[j].product != pid
  {
    if items == [] then None
    else if items[0].product == pid then Some(0)
    else match FindProduct(items[1..], pid)
      case None => None
      case Some(k) => Some(k + 1)
  }

  /** `items.id(itemId)`: the index of the first line with id `id`, if any. */
  function FindItem(items: seq<CartItem>, id: ItemId): (r: Option<nat>)
    ensures r.Some? ==> r.value < |items| && items[r.value].id == id
    ensures r.Some? ==> forall j :: 0 <= j < r.value ==> items[j].id != id
    ensures r.None? <==> forall j :: 0 <= j < |items| ==> items[j].id != id
  {
    if items == [] then None
    else if items[0].id == id then Some(0)
    else match FindItem(items[1..], id)
      case None => None
      case Some(k) => Some(k + 1)
  }

  /** The quantity on the line for `pid`, or 0 when the cart has no such line. */
  function QuantityOf(items: seq<CartItem>, pid: ProductId): int {
    match FindProduct(items, pid)
    case None => 0
    case Some(i) => items[i].quantity
  }

  // ---------------------------------------------------------------------------
  // The controller's line operations

  /** A new line for product `pid`, snapshotting the catalog's name, price and image. */
  function NewLine(id: ItemId, pid: ProductId, p: Product, quantity: int, size: string, color: string): CartItem {
    CartItem(id, pid, p.name, p.price, p.image, quantity, size, color)
  }

  /** addToCart on the lines: merge into the existing line for `pid` (size and
      color are not part of the key and are dropped), or append a new line with
      id `freshId`. */
  function AddLine(items: seq<CartItem>, pid: ProductId, p: Product, quantity: int,
                   size: string, color: string, freshId: ItemId): seq<CartItem>
  {
    match FindProduct(items, pid)
    case Some(i) => items[i := items[i].(quantity := items[i].quantity + quantity)]
    case None => items + [NewLine(freshId, pid, p, quantity, size, color)]
  }

  /** updateCartItem on the lines: the line with id `id` gets quantity `quantity`;
      without such a line the lines are returned as they are. */
  function SetQuantity(items: seq<CartItem>, id: ItemId, quantity: int): (r: seq<CartItem>)
    ensures |r| == |items|
    ensures forall k :: 0 <= k < |r| ==> r[k].product == items[k].product && r[k].id == items[k].id
  {
    match FindItem(items, id)
    case None => items
    case Some(i) => items[i := items[i].(quantity := quantity)]
  }

  /** removeFromCart on the lines: `items.filter(item => item._id !== id)`. */
  function WithoutItem(items: seq<CartItem>, id: ItemId): (r: seq<CartItem>)
    ensures |r| <= |items|
    ensures (forall j :: 0 <= j < |items| ==> items[j].id != id) ==> r == items
  {
    if items == [] then []
    else (if items[0].id == id then [] else [items[0]]) + WithoutItem(items[1..], id)
  }

  // ---------------------------------------------------------------------------
  // The total

  lemma {:induction false} TotalAppend(a: seq<CartItem>, b: seq<CartItem>)
    ensures Total(a + b) == Total(a) + Total(b)
  {
    if a == [] {
      assert a + b == b;
    } else {
      assert (a + b)[0] == a[0];
      assert (a + b)[1..] == a[1..] + b;
      TotalAppend(a[1..], b);
    }
  }

  /** Replacing one line changes the total by the difference of the two lines' amounts. */
  lemma {:induction false} TotalUpdate(items: seq<CartItem>, i: nat, x: CartItem)
    requires i < |items|
    ensures Total(items[i := x]) == Total(items) - LineAmount(items[i]) + LineAmount(x)
  {
    if i > 0 {
      assert items[i := x][1..] == items[1..][i - 1 := x];
      TotalUpdate(items[1..], i - 1, x);
    }
  }

  /** With no negative quantities the total is not negative. */
  lemma {:induction false} TotalNonNegative(items: seq<CartItem>)
    requires forall k :: 0 <= k < |items| ==> items[k].quantity >= 0
    ensures Total(items) >= 0
  {
    if items != [] {
      TotalNonNegative(items[1..]);
    }
  }

  // ---------------------------------------------------------------------------
  // addToCart

  /** A product that already has a line: that line's quantity grows by `quantity`,
      its size, color and price snapshot stay, the number of lines and every
      other line are unchanged, and the total grows by price × quantity. */
  lemma AddLineMerges(items: seq<CartItem>, pid: ProductId, p: Product, quantity: int,
                      size: string, color: string, freshId: ItemId, i: nat)
    requires FindProduct(items, pid) == Some(i)
    ensures var r := AddLine(items, pid, p, quantity, size, color, freshId);
      && |r| == |items|
      && r[i] == items[i].(quantity := items[i].quantity + quantity)
      && (forall j :: 0 <= j < |items| && j != i ==> r[j] == items[j])
      && Total(r) == Total(items) + items[i].price * quantity
  {
    TotalUpdate(items, i, items[i].(quantity := items[i].quantity + quantity));
  }

  /** A product without a line: exactly one line is appended, carrying the
      catalog's name, price and image and the requested quantity, size and color;
      the existing lines keep their order and contents; the total grows by
      price × quantity. */
  lemma AddLineAppends(items: seq<CartItem>, pid: ProductId, p: Product, quantity: int,
                       size: string, color: string, freshId: ItemId)
    requires FindProduct(items, pid).None?
    ensures var r := AddLine(items, pid, p, quantity, size, color, freshId);
      && |r| == |items| + 1
      && r[..|items|] == items
      && r[|items|] == CartItem(freshId, pid, p.name, p.price, p.image, quantity, size, color)
      && Total(r) == Total(items) + p.price * quantity
  {
    var r := AddLine(items, pid, p, quantity, size, color, freshId);
    assert r == items + [NewLine(freshId, pid, p, quantity, size, color)];
    TotalAppend(items, [NewLine(freshId, pid, p, quantity, size, color)]);
  }

  /** The merge case of addToCart keeps the cart invariants: it touches no
      product and no id, and the merged line stays the product's only line. */
  lemma AddLineMergeKeepsInvariants(items: seq<CartItem>, pid: ProductId, p: Product, quantity: int,
                                    size: string, color: string, freshId: ItemId, i: nat)
    requires OneLinePerProduct(items) && UniqueIds(items) && IdsBelow(items, freshId)
    requires FindProduct(items, pid) == Some(i)
    ensures var r := AddLine(items, pid, p, quantity, size, color, freshId);
      && OneLinePerProduct(r) && UniqueIds(r) && IdsBelow(r, freshId)
      && FindProduct(r, pid) == Some(i)
      && SingleLineAt(r, pid, i)
      && r[i].quantity == items[i].quantity + quantity
  {
    var r := AddLine(items, pid, p, quantity, size, color, freshId);
    assert r == items[i := items[i].(quantity := items[i].quantity + quantity)];
    assert forall j :: 0 <= j < |r| ==> r[j].product == items[j].product && r[j].id == items[j].id;
    assert FindProduct(r, pid) == Some(i);
  }

  /** The append case of addToCart keeps the cart invariants: the new line has
      the fresh id and is the product's only line. */
  lemma AddLineAppendKeepsInvariants(items: seq<CartItem>, pid: ProductId, p: Product, quantity: int,
                                     size: string, color: string, freshId: ItemId)
    requires OneLinePerProduct(items) && UniqueIds(items) && IdsBelow(items, freshId)
    requires FindProduct(items, pid).None?
    ensures var r := AddLine(items, pid, p, quantity, size, color, freshId);
      && OneLinePerProduct(r) && UniqueIds(r) && IdsBelow(r, freshId + 1)
      && FindProduct(r, pid) == Some(|items|)
      && SingleLineAt(r, pid, |items|)
      && r[|items|].quantity == quantity
  {
    var r := AddLine(items, pid, p, quantity, size, color, freshId);
    assert r == items + [NewLine(freshId, pid, p, quantity, size, color)];
    assert forall j :: 0 <= j < |items| ==> r[j] == items[j];
    assert r[|items|].product == pid;
    assert FindProduct(r, pid) == Some(|items|);
  }

  /** addToCart keeps the cart invariants, and afterwards the product has
      exactly one line whose quantity is the old one (0 if none) plus `quantity`. */
  lemma AddLineKeepsInvariants(items: seq<CartItem>, pid: ProductId, p: Product, quantity: int,
                               size: string, color: string, freshId: ItemId)
    requires OneLinePerProduct(items) && UniqueIds(items) && IdsBelow(items, freshId)
    ensures var r := AddLine(items, pid, p, quantity, size, color, freshId);
      && OneLinePerProduct(r)
      && UniqueIds(r)
      && IdsBelow(r, freshId + 1)
      && FindProduct(r, pid).Some?
      && SingleLineAt(r, pid, FindProduct(r, pid).value)
      && QuantityOf(r, pid) == QuantityOf(items, pid) + quantity
  {
    match FindProduct(items, pid)
    case Some(i) =>
      AddLineMergeKeepsInvariants(items, pid, p, quantity, size, color, freshId, i);
    case None =>
      AddLineAppendKeepsInvariants(items, pid, p, quantity, size, color, freshId);
  }

  /** One addToCart request: quantity, size and color. */
  datatype AddRequest = AddRequest(quantity: int, size: string, color: string)

  function SumQuantities(reqs: seq<AddRequest>): int {
    if reqs == [] then 0 else reqs[0].quantity + SumQuantities(reqs[1..])
  }

  /** The lines after a series of addToCart requests for one product, with the
      cart's id counter advancing on every appended line. */
  function AddAll(items: seq<CartItem>, nextId: ItemId, pid: ProductId, p: Product,
                  reqs: seq<AddRequest>): seq<CartItem>
    decreases |reqs|
  {
    if reqs == [] then items
    else
      var next := if FindProduct(items, pid).None? then nextId + 1 else nextId;
      AddAll(AddLine(items, pid, p, reqs[0].quantity, reqs[0].size, reqs[0].color, nextId),
             next, pid, p, reqs[1..])
  }

  /** Adding one product several times, whatever sizes and colors are asked for,
      leaves a single line for it whose quantity is the old quantity (0 if none)
      plus the sum of the requested quantities; lines of other products are
      untouched and at most one line is added. */
  lemma {:induction false} RepeatedAddsMerge(items: seq<CartItem>, nextId: ItemId, pid: ProductId,
                                             p: Product, reqs: seq<AddRequest>)
    decreases |reqs|
    requires OneLinePerProduct(items) && UniqueIds(items) && IdsBelow(items, nextId)
    ensures var r := AddAll(items, nextId, pid, p, reqs);
      && OneLinePerProduct(r)
      && QuantityOf(r, pid) == QuantityOf(items, pid) + SumQuantities(reqs)
      && (|reqs| > 0 ==> FindProduct(r, pid).Some? && SingleLineAt(r, pid, FindProduct(r, pid).value))
      && |r| == |items| + (if |reqs| > 0 && FindProduct(items, pid).None? then 1 else 0)
      && (forall j :: 0 <= j < |items| && items[j].product != pid ==> r[j] == items[j])
  {
    if reqs != [] {
      var q := reqs[0];
      var step := AddLine(items, pid, p, q.quantity, q.size, q.color, nextId);
      match FindProduct(items, pid) {
        case Some(i) =>
          AddLineMerges(items, pid, p, q.quantity, q.size, q.color, nextId, i);
          AddLineMergeKeepsInvariants(items, pid, p, q.quantity, q.size, q.color, nextId, i);
          RepeatedAddsMerge(step, nextId, pid, p, reqs[1..]);
        case None =>
          AddLineAppends(items, pid, p, q.quantity, q.size, q.color, nextId);
          AddLineAppendKeepsInvariants(items, pid, p, q.quantity, q.size, q.color, nextId);
          assert forall j :: 0 <= j < |items| ==> step[j] == items[j];
          RepeatedAddsMerge(step, nextId + 1, pid, p, reqs[1..]);
      }
    }
  }

  // ---------------------------------------------------------------------------
  // updateCartItem

  /** The line with id `id` gets exactly `quantity` (not added to the old one,
      no lower bound), every other line is unchanged, and the total changes by
      price × (new − old quantity). */
  lemma SetQuantityAt(items: seq<CartItem>, id: ItemId, quantity: int, i: nat)
    requires FindItem(items, id) == Some(i)
    ensures var r := SetQuantity(items, id, quantity);
      && |r| == |items|
      && r[i] == items[i].(quantity := quantity)
      && (forall j :: 0 <= j < |items| && j != i ==> r[j] == items[j])
      && Total(r) == Total(items) + items[i].price * (quantity - items[i].quantity)
  {
    TotalUpdate(items, i, items[i].(quantity := quantity));
  }

  /** Setting a quantity never changes products or ids, so the invariants stay. */
  lemma SetQuantityKeepsInvariants(items: seq<CartItem>, id: ItemId, quantity: int, bound: nat)
    requires OneLinePerProduct(items) && UniqueIds(items) && IdsBelow(items, bound)
    ensures var r := SetQuantity(items, id, quantity);
      OneLinePerProduct(r) && UniqueIds(r) && IdsBelow(r, bound)
  {
    var r := SetQuantity(items, id, quantity);
    assert |r| == |items|;
    assert forall j :: 0 <= j < |r| ==> r[j].product == items[j].product && r[j].id == items[j].id;
  }

  // ---------------------------------------------------------------------------
  // removeFromCart

  /** removeFromCart keeps exactly the lines whose id differs from `id`. */
  lemma {:induction false} WithoutItemMembers(items: seq<CartItem>, id: ItemId)
    ensures forall x :: x in WithoutItem(items, id) <==> x in items && x.id != id
  {
    if items != [] {
      WithoutItemMembers(items[1..], id);
      assert items == [items[0]] + items[1..];
    }
  }

  /** With distinct ids, removing a present id deletes exactly that line and
      keeps the others in order. */
  lemma {:induction false} WithoutItemPresent(items: seq<CartItem>, id: ItemId, i: nat)
    requires UniqueIds(items)
    requires FindItem(items, id) == Some(i)
    ensures WithoutItem(items, id) == items[..i] + items[i + 1..]
  {
    var tail := items[1..];
    UniqueIdsTail(items);
    if i == 0 {
      assert forall j :: 0 <= j < |tail| ==> tail[j].id != id by {
        forall j | 0 <= j < |tail| ensures tail[j].id != id {
          assert tail[j] == items[j + 1];
        }
      }
      assert WithoutItem(items, id) == [] + WithoutItem(tail, id);
    } else {
      assert FindItem(tail, id) == Some(i - 1);
      WithoutItemPresent(tail, id, i - 1);
      calc {
        WithoutItem(items, id);
        [items[0]] + WithoutItem(tail, id);
        [items[0]] + (tail[..i - 1] + tail[i..]);
        ([items[0]] + tail[..i - 1]) + tail[i..];
        { assert items[..i] == [items[0]] + tail[..i - 1]; assert items[i + 1..] == tail[i..]; }
        items[..i] + items[i + 1..];
      }
    }
  }

  lemma UniqueIdsTail(items: seq<CartItem>)
    requires items != [] && UniqueIds(items)
    ensures UniqueIds(items[1..])
  {
    var tail := items[1..];
    forall a, b | 0 <= a < b < |tail| ensures tail[a].id != tail[b].id {
      assert tail[a] == items[a + 1] && tail[b] == items[b + 1];
    }
  }

  /** Removing the line at position `i` keeps the cart invariants. */
  lemma RemoveAtKeepsInvariants(items: seq<CartItem>, i: nat, bound: nat)
    requires i < |items|
    requires OneLinePerProduct(items) && UniqueIds(items) && IdsBelow(items, bound)
    ensures var r := items[..i] + items[i + 1..];
      OneLinePerProduct(r) && UniqueIds(r) && IdsBelow(r, bound)
  {
    var r := items[..i] + items[i + 1..];
    assert forall k :: 0 <= k < |r| ==> r[k] == items[if k < i then k else k + 1];
  }

  /** removeFromCart: an absent id leaves lines and total as they are; a present
      id (ids being distinct) removes exactly that line and subtracts its amount
      from the total; the invariants are kept either way. */
  lemma WithoutItemEffect(items: seq<CartItem>, id: ItemId, bound: nat)
    requires OneLinePerProduct(items) && UniqueIds(items) && IdsBelow(items, bound)
    ensures var r := WithoutItem(items, id);
      && OneLinePerProduct(r) && UniqueIds(r) && IdsBelow(r, bound)
      && (FindItem(items, id).None? ==> r == items && Total(r) == Total(items))
      && (FindItem(items, id).Some? ==>
            var i := FindItem(items, id).value;
            r == items[..i] + items[i + 1..] && Total(r) == Total(items) - LineAmount(items[i]))
  {
    match FindItem(items, id)
    case None =>
    case Some(i) =>
      WithoutItemPresent(items, id, i);
      RemoveAtKeepsInvariants(items, i, bound);
      TotalRemoveAt(items, i);
  }

  /** Deleting the line at position `i` lowers the total by that line's amount. */
  lemma TotalRemoveAt(items: seq<CartItem>, i: nat)
    requires i < |items|
    ensures Total(items[..i] + items[i + 1..]) == Total(items) - LineAmount(items[i])
  {
    var before, after := items[..i], items[i + 1..];
    assert items == before + [items[i]] + after;
    calc {
      Total(items);
      { TotalAppend(before + [items[i]], after); }
      Total(before + [items[i]]) + Total(after);
      { TotalAppend(before, [items[i]]); }
      Total(before) + Total([items[i]]) + Total(after);
      { assert [items[i]][1..] == []; }
      Total(before) + LineAmount(items[i]) + Total(after);
      { TotalAppend(before, after); }
      Total(before + after) + LineAmount(items[i]);
    }
  }
}
