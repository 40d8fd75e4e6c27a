/** The cart controller: a store of one mutable cart per user, and the five
    request handlers getCart, addToCart, updateCartItem, removeFromCart and
    clearCart. getCart only returns the user's cart, creating an empty one
    when there is none. addToCart, updateCartItem and removeFromCart change
    the cart object in place and then overwrite its cached total with the
    recomputed sum; clearCart empties the lines and writes 0 to the total.
    HTTP statuses become a `Status` value. */
module CartController {
  import opened Wrappers
  import opened Catalog
  import opened CartLines

  /** Which record a handler could not find. */
  datatype Missing = ProductMissing | CartMissing | ItemMissing

  /** Outcome of a handler: success, or the 404 the controller answers with. */
  datatype Status = Ok | NotFound(what: Missing)

  /** A user's cart: ordered lines, the cached total, and the counter that
      supplies fresh line ids. */
  class Cart {
    const user: UserId
    var items: seq<CartItem>
    var totalPrice: int
    var nextId: nat

    /** The cached total is the sum of the lines, each product has at most one
        line, and line ids are distinct and below the counter. */
    ghost predicate Valid()
      reads this
    {
      && totalPrice == Total(items)
      && OneLinePerProduct(items)
      && UniqueIds(items)
      && IdsBelow(items, nextId)
    }

    /** `Cart.create({ user, items: [], totalPrice: 0 })`. */
    constructor (user: UserId)
      ensures Valid()
      ensures this.user == user && items == [] && totalPrice == 0 && nextId == 0
    {
      this.user := user;
      items := [];
      totalPrice := 0;
      nextId := 0;
    }

    /** Merge `quantity` into the line for `pid`, or append a new line that
        snapshots the product, then recompute the total. */
    method Add(pid: ProductId, p: Product, quantity: int, size: string, color: string)
      requires Valid()
      modifies this
      ensures Valid()
      ensures items == AddLine(old(items), pid, p, quantity, size, color, old(nextId))
      ensures totalPrice == Total(items)
      ensures nextId == if FindProduct(old(items), pid).Some? then old(nextId) else old(nextId) + 1
    {
      AddLineKeepsInvariants(items, pid, p, quantity, size, color, nextId);
      var existing := FindProduct(items, pid);
      if existing.Some? {
        var i := existing.value;
        items := items[i := items[i].(quantity := items[i].quantity + quantity)];
      } else {
        items := items + [NewLine(nextId, pid, p, quantity, size, color)];
        nextId := nextId + 1;
      }
      totalPrice := Total(items);
    }

    /** Set the quantity of line `id` if there is one; report whether there was. */
    method SetLineQuantity(id: ItemId, quantity: int) returns (found: bool)
      requires Valid()
      modifies this
      ensures Valid()
      ensures found <==> FindItem(old(items), id).Some?
      ensures items == SetQuantity(old(items), id, quantity)
      ensures !found ==> totalPrice == old(totalPrice)
    {
      SetQuantityKeepsInvariants(items, id, quantity, nextId);
      var at := FindItem(items, id);
      found := at.Some?;
      if found {
        var i := at.value;
        items := items[i := items[i].(quantity := quantity)];
        totalPrice := Total(items);
      }
    }

    /** Drop every line with id `id` and recompute the total. */
    method Remove(id: ItemId)
      requires Valid()
      modifies this
      ensures Valid()
      ensures items == WithoutItem(old(items), id)
      ensures FindItem(old(items), id).None? ==> items == old(items) && totalPrice == old(totalPrice)
    {
      WithoutItemEffect(items, id, nextId);
      items := WithoutItem(items, id);
      totalPrice := Total(items);
    }

    /** Empty the lines and zero the total. */
    method Clear()
      requires Valid()
      modifies this
      ensures Valid()
      ensures items == [] && totalPrice == 0
    {
      items := [];
      totalPrice := 0;
    }
  }

  /** The persisted carts, one per user. */
  class CartStore {
    var carts: map<UserId, Cart>

    /** Each stored cart belongs to the user it is stored under (so no two users
        share a cart object) and satisfies its own invariant. */
    ghost predicate Valid()
      reads this, carts.Values
    {
      forall u :: u in carts ==> carts[u].user == u && carts[u].Valid()
    }

    constructor ()
      ensures Valid() && carts == map[]
    {
      carts := map[];
    }

    /** The objects a handler for `user` may change: that user's cart, if any. */
    function CartOf(user: UserId): set<Cart>
      reads this
    {
      if user in carts then {carts[user]} else {}
    }

    /** getCart: return the user's cart, creating an empty one if there is none.
        An existing cart is returned as it is, so a second call returns the
        same cart. */
    method GetCart(user: UserId) returns (cart: Cart)
      requires Valid()
      modifies this
      ensures Valid()
      ensures user in carts && cart == carts[user]
      ensures user in old(carts) ==> carts == old(carts)
      ensures user in old(carts) ==> cart.items == old(carts[user].items) && cart.totalPrice == old(carts[user].totalPrice)
      ensures user !in old(carts) ==> fresh(cart) && carts == old(carts)[user := cart]
      ensures user !in old(carts) ==> cart.items == [] && cart.totalPrice == 0 && cart.nextId == 0
    {
      if user in carts {
        cart := carts[user];
      } else {
        cart := new Cart(user);
        carts := carts[user := cart];
      }
    }

    /** addToCart: NotFound for a product missing from the catalog, with no cart
        changed or created; otherwise the user's cart (created if needed) gets
        the line merged or appended, and no other user's cart changes. */
    method AddToCart(user: UserId, catalog: map<ProductId, Product>, pid: ProductId,
                     quantity: int, size: string, color: string) returns (status: Status)
      requires Valid()
      modifies this, CartOf(user)
      ensures Valid()
      ensures pid !in catalog ==> status == NotFound(ProductMissing) && carts == old(carts)
      ensures pid !in catalog && user in carts ==> carts[user].items == old(carts[user].items)
      ensures pid in catalog ==> status == Ok && carts.Keys == old(carts.Keys) + {user}
      ensures pid in catalog && user in old(carts) ==>
        && carts[user] == old(carts[user])
        && carts[user].items == AddLine(old(carts[user].items), pid, catalog[pid], quantity, size, color, old(carts[user].nextId))
      ensures pid in catalog && user !in old(carts) ==>
        && fresh(carts[user])
        && carts[user].items == AddLine([], pid, catalog[pid], quantity, size, color, 0)
      ensures forall u :: u in old(carts) && u != user ==>
        carts[u] == old(carts[u]) && carts[u].items == old(carts[u].items)
    {
      if pid !in catalog {
        return NotFound(ProductMissing);
      }
      var cart := GetCart(user);
      ghost var stored, before, counter := carts, cart.items, cart.nextId;
      assert forall u :: u in carts && u != user ==> carts[u] != cart;
      cart.Add(pid, catalog[pid], quantity, size, color);
      assert carts == stored;
      assert cart.items == AddLine(before, pid, catalog[pid], quantity, size, color, counter);
      status := Ok;
    }

    /** updateCartItem: NotFound when the user has no cart or the cart has no
        line `id`, with nothing changed; otherwise that line's quantity becomes
        `quantity`. No cart is ever created here. */
    method UpdateCartItem(user: UserId, id: ItemId, quantity: int) returns (status: Status)
      requires Valid()
      modifies CartOf(user)
      ensures Valid()
      ensures user !in carts ==> status == NotFound(CartMissing)
      ensures user in carts && FindItem(old(carts[user].items), id).None? ==>
        status == NotFound(ItemMissing) && carts[user].items == old(carts[user].items)
      ensures user in carts && FindItem(old(carts[user].items), id).Some? ==>
        status == Ok && carts[user].items == SetQuantity(old(carts[user].items), id, quantity)
      ensures forall u :: u in carts && u != user ==> carts[u].items == old(carts[u].items)
    {
      if user !in carts {
        return NotFound(CartMissing);
      }
      var cart := carts[user];
      assert forall u :: u in carts && u != user ==> carts[u] != cart;
      var found := cart.SetLineQuantity(id, quantity);
      status := if found then Ok else NotFound(ItemMissing);
    }

    /** removeFromCart: NotFound when the user has no cart; otherwise the lines
        with id `id` are dropped, and an absent id is not an error. */
    method RemoveFromCart(user: UserId, id: ItemId) returns (status: Status)
      requires Valid()
      modifies CartOf(user)
      ensures Valid()
      ensures user !in carts ==> status == NotFound(CartMissing)
      ensures user in carts ==> status == Ok && carts[user].items == WithoutItem(old(carts[user].items), id)
      ensures forall u :: u in carts && u != user ==> carts[u].items == old(carts[u].items)
    {
      if user !in carts {
        return NotFound(CartMissing);
      }
      var cart := carts[user];
      assert forall u :: u in carts && u != user ==> carts[u] != cart;
      cart.Remove(id);
      status := Ok;
    }

    /** clearCart: NotFound when the user has no cart; otherwise its lines are
        emptied and its total zeroed. */
    method ClearCart(user: UserId) returns (status: Status)
      requires Valid()
      modifies CartOf(user)
      ensures Valid()
      ensures user !in carts ==> status == NotFound(CartMissing)
      ensures user in carts ==> status == Ok && carts[user].items == [] && carts[user].totalPrice == 0
      ensures forall u :: u in carts && u != user ==> carts[u].items == old(carts[u].items)
    {
      if user !in carts {
        return NotFound(CartMissing);
      }
      var cart := carts[user];
      assert forall u :: u in carts && u != user ==> carts[u] != cart;
      cart.Clear();
      status := Ok;
    }
  }

  /** The handlers driven the way the storefront drives them: a product missing
      from the catalog is refused and creates no cart, a first add creates the
      cart, and a second add of the same product in another size and color
      merges into the first line. */
  method AddThenMerge(shirt: Product)
    requires shirt.price == 40
  {
    var store := new CartStore();
    var catalog := map["A" := shirt];

    var s := store.AddToCart("u", catalog, "B", 1, "M", "Red");
    assert s == NotFound(ProductMissing) && store.carts == map[];

    s := store.AddToCart("u", catalog, "A", 2, "M", "Red");
    var cart := store.carts["u"];
    var first := NewLine(0, "A", shirt, 2, "M", "Red");
    AddLineAppends([], "A", shirt, 2, "M", "Red", 0);
    assert cart.items == [first] && cart.totalPrice == 80;

    s := store.AddToCart("u", catalog, "A", 1, "L", "Blue");
    assert FindProduct([first], "A") == Some(0);
    AddLineMerges([first], "A", shirt, 1, "L", "Blue", cart.nextId, 0);
    assert cart.items == [first.(quantity := 3)] && cart.totalPrice == 120;
  }

  /** An update sets the quantity outright, and getCart afterwards returns the
      same cart with the new total. */
  method UpdateThenGetAgain(store: CartStore, line: CartItem)
    requires store.Valid() && "u" in store.carts && store.carts["u"].items == [line]
    requires line.id == 0 && line.price == 40
    modifies store, store.CartOf("u")
  {
    var cart := store.carts["u"];
    var s := store.UpdateCartItem("u", 0, 5);
    assert FindItem([line], 0) == Some(0);
    SetQuantityAt([line], 0, 5, 0);
    assert s == Ok && cart.items == [line.(quantity := 5)] && cart.totalPrice == 200;

    var again := store.GetCart("u");
    assert again == cart && again.totalPrice == 200;
  }

  /** Removing an id the cart does not hold changes neither lines nor total and
      is not an error; clearing twice in a row succeeds both times and leaves
      an empty cart with total 0. */
  method RemoveAbsentThenClearTwice(store: CartStore, user: UserId, id: ItemId)
    requires store.Valid() && user in store.carts
    requires FindItem(store.carts[user].items, id).None?
    modifies store.CartOf(user)
  {
    var cart := store.carts[user];
    ghost var items, total := cart.items, cart.totalPrice;
    var s := store.RemoveFromCart(user, id);
    assert s == Ok && cart.items == items && cart.totalPrice == total;
    s := store.ClearCart(user);
    s := store.ClearCart(user);
    assert s == Ok && cart.items == [] && cart.totalPrice == 0;
  }
}
