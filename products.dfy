/** The products page: its catalog state (including the "empty" marker a search
    that found nothing leaves behind), the cart membership check, the guard and
    state replacement of add-to-cart, the cart fetch and the search. */
module Products {
  import opened Common
  import opened Cart

  /** The `products` state: a catalog, or the string "empty" stored after a
      search answered 404. */
  datatype Catalog = Listed(items: seq<Product>) | EmptySentinel

  /** The objects a catalog holds, which the cart join may write. */
  function CatalogObjects(c: Catalog): set<Product>
  {
    if c.Listed? then set p | p in c.items else {}
  }

  /** Handed the string "empty" instead of an array, generateCartItemsFrom scans
      its characters. A character has no `_id`, so an entry lacking `productId`
      or `_id` compares `undefined === undefined`; for the first such entry with a
      positive quantity the assignment of `qty` to a string throws (module code
      is strict). */
  predicate FaultsOnSentinel(e: CartEntry)
  {
    e.qty > 0 && (e.productId.None? || e.id.None?)
  }

  /** What a call of generateCartItemsFrom yields: it threw, or it returned. */
  datatype Reconciled = Threw | Built(items: Option<seq<Product>>)

  /** generateCartItemsFrom applied to whatever the `products` state holds. */
  function ReconcileSpec(cartData: Option<seq<CartEntry>>, catalog: Catalog): Reconciled
  {
    if cartData.None? then Built(None)
    else match catalog
      case Listed(ps) => Built(Some(Join(cartData.value, ps)))
      case EmptySentinel =>
        if exists i :: 0 <= i < |cartData.value| && FaultsOnSentinel(cartData.value[i]) then Threw
        else Built(Some([]))
  }

  /** generateCartItemsFrom on a catalog or on the "empty" marker. */
  method Reconcile(cartData: Option<seq<CartEntry>>, catalog: Catalog) returns (result: Reconciled)
    modifies CatalogObjects(catalog)
    ensures result == ReconcileSpec(cartData, catalog)
    ensures forall p :: p in CatalogObjects(catalog) ==>
      p.qty == if cartData.Some? then QtyAfter(cartData.value, p, old(p.qty)) else old(p.qty)
  {
    match catalog
    case Listed(ps) =>
      var items := GenerateCartItemsFrom(cartData, ps);
      result := Built(items);
    case EmptySentinel =>
      if cartData.None? {
        return Built(None);
      }
      var c := cartData.value;
      for i := 0 to |c|
        invariant forall k :: 0 <= k < i ==> !FaultsOnSentinel(c[k])
      {
        if FaultsOnSentinel(c[i]) {
          return Threw;
        }
      }
      result := Built(Some([]));
  }

  /** Whether some line item has the given `_id`. */
  predicate InCart(items: seq<Product>, productId: string)
  {
    exists k :: 0 <= k < |items| && items[k].id == productId
  }

  /** isItemInCart: a linear scan of the line items' `_id`. */
  method IsItemInCart(items: seq<Product>, productId: string) returns (found: bool)
    ensures found <==> InCart(items, productId)
    ensures items == [] ==> !found
  {
    for i := 0 to |items|
      invariant forall k :: 0 <= k < i ==> items[k].id != productId
    {
      if items[i].id == productId {
        return true;
      }
    }
    return false;
  }

  /** How addToCart's checks end: no token, `isItemInCart` handed `undefined`
      (it throws), the duplicate refusal, or the POST. */
  datatype Guard = NotLoggedIn | ItemsUndefined | AlreadyInCart | Proceed

  /** The checks of addToCart, in source order: the token first, then (only when
      duplicates are to be prevented) the membership scan. */
  function AddGuard(token: Option<string>, items: Option<seq<Product>>, productId: string,
                    preventDuplicate: bool): (g: Guard)
    ensures g == NotLoggedIn <==> !Truthy(token)
    ensures g == ItemsUndefined <==> Truthy(token) && preventDuplicate && items.None?
    ensures g == AlreadyInCart <==>
      Truthy(token) && preventDuplicate && items.Some? && InCart(items.value, productId)
    ensures g == Proceed <==>
      Truthy(token) && (!preventDuplicate || (items.Some? && !InCart(items.value, productId)))
  {
    if !Truthy(token) then NotLoggedIn
    else if !preventDuplicate then Proceed
    else if items.None? then ItemsUndefined
    else if InCart(items.value, productId) then AlreadyInCart
    else Proceed
  }

  const LoginToAdd: Snack := Snack("Login to add item to the Cart", "Warning")
  const AlreadyInCartWarning: Snack :=
    Snack("Item already in cart. Use the cart sidebar to update quantity or remove item.", "warning")

  /** The snackbar each refusal raises; the throw and the POST raise none. */
  function GuardSnack(g: Guard): (s: Option<Snack>)
    ensures s.Some? <==> g == NotLoggedIn || g == AlreadyInCart
  {
    match g
    case NotLoggedIn => Some(LoginToAdd)
    case AlreadyInCart => Some(AlreadyInCartWarning)
    case _ => None
  }

  /** The body of `POST /cart`: set (not add) the product's quantity. */
  datatype CartRequest = CartRequest(productId: string, qty: int)

  /** Whether addToCart replaces the local cart: it posted, the POST answered,
      and the join of the answer against its catalog argument did not throw. */
  predicate AddApplies(g: Guard, catalog: Catalog, response: Reply<seq<CartEntry>>)
  {
    g == Proceed && response.Ok? && ReconcileSpec(Some(response.data), catalog).Built?
  }

  /** What fetchCart produced: whether it issued the GET, the cart it returns
      (`None` for both `undefined` and `null`), and the snackbar it raised. */
  datatype Fetched = Fetched(requested: bool, data: Option<seq<CartEntry>>, snack: Option<Snack>)

  const CartFetchFailure: string :=
    "Could not fetch cart details. Check that the backend is running, reachable and returns valid JSON."

  /** fetchCart: no token returns `undefined` without a request; a failed GET
      raises a snackbar and returns `null`. */
  function FetchCart(token: Option<string>, response: Reply<seq<CartEntry>>): (f: Fetched)
    ensures f.requested <==> Truthy(token)
    ensures f.data.Some? <==> Truthy(token) && response.Ok?
    ensures f.data.Some? ==> f.data.value == response.data
    ensures f.snack.Some? <==> Truthy(token) && !response.Ok?
  {
    if !Truthy(token) then Fetched(false, None, None)
    else if response.Ok? then Fetched(true, Some(response.data), None)
    else Fetched(true, None, Some(ErrorSnack(response, CartFetchFailure)))
  }

  /** The state of the products page that its cart logic reads and replaces. */
  class ProductsPage {
    var products: Catalog
    var cartItemList: Option<seq<Product>>
    var cartItemId: seq<CartEntry>

    constructor ()
      ensures products == Listed([]) && cartItemList == Some([]) && cartItemId == []
    {
      products := Listed([]);
      cartItemList := Some([]);
      cartItemId := [];
    }

    /** What one call of addToCart does to the cart state and the catalog: on
        AddApplies both cart fields are replaced from the answer, otherwise
        neither changes; the catalog objects carry the quantities the join wrote. */
    twostate predicate AddEffect(catalog: Catalog, g: Guard, response: Reply<seq<CartEntry>>)
      reads this, CatalogObjects(catalog)
    {
      && (AddApplies(g, catalog, response) ==>
            cartItemId == response.data &&
            cartItemList == ReconcileSpec(Some(response.data), catalog).items)
      && (!AddApplies(g, catalog, response) ==>
            cartItemId == old(cartItemId) && cartItemList == old(cartItemList))
      && forall p :: p in CatalogObjects(catalog) ==>
           p.qty == if g == Proceed && response.Ok? then QtyAfter(response.data, p, old(p.qty))
                    else old(p.qty)
    }

    /** addToCart: refuse without a token; with `preventDuplicate`, refuse an
        item already present; otherwise POST and replace the local cart with the
        answer and its join against the `catalog` argument. A failed POST changes
        nothing. */
    method AddToCart(token: Option<string>, items: Option<seq<Product>>, catalog: Catalog,
                     productId: string, qty: int, preventDuplicate: bool,
                     response: Reply<seq<CartEntry>>)
      returns (g: Guard, request: Option<CartRequest>, snack: Option<Snack>)
      modifies this`cartItemList, this`cartItemId, CatalogObjects(catalog)
      ensures g == AddGuard(token, items, productId, preventDuplicate)
      ensures snack == GuardSnack(g)
      ensures request == if g == Proceed then Some(CartRequest(productId, qty)) else None
      ensures AddEffect(catalog, g, response)
    {
      if !Truthy(token) {
        return NotLoggedIn, None, Some(LoginToAdd);
      }
      if preventDuplicate {
        if items.None? {
          return ItemsUndefined, None, None;
        }
        var present := IsItemInCart(items.value, productId);
        if present {
          return AlreadyInCart, None, Some(AlreadyInCartWarning);
        }
      }
      g, request, snack := Proceed, Some(CartRequest(productId, qty)), None;
      if response.Ok? {
        var r := Reconcile(Some(response.data), catalog);
        if r.Built? {
          cartItemId := response.data;
          cartItemList := r.items;
        }
      }
    }

    /** The "Add to Cart" button of a product card: one unit, duplicates
        prevented, checked against the current cart list. */
    method AddFromCard(token: Option<string>, item: Product, response: Reply<seq<CartEntry>>)
      returns (g: Guard, request: Option<CartRequest>, snack: Option<Snack>)
      requires products.Listed? && item in products.items
      modifies this`cartItemList, this`cartItemId, CatalogObjects(products)
      ensures g == AddGuard(token, old(cartItemList), item.id, true)
      ensures snack == GuardSnack(g)
      ensures request == if g == Proceed then Some(CartRequest(item.id, 1)) else None
      ensures AddEffect(products, g, response)
    {
      g, request, snack := AddToCart(token, cartItemList, products, item.id, 1, true, response);
    }

    /** The + and - buttons of a cart line: the requested quantity from the line's
        current `qty`, duplicates not prevented. */
    method HandleQuantity(token: Option<string>, item: Product, increment: bool,
                          response: Reply<seq<CartEntry>>)
      returns (g: Guard, request: Option<CartRequest>, snack: Option<Snack>)
      requires cartItemList.Some? && item in cartItemList.value
      modifies this`cartItemList, this`cartItemId, CatalogObjects(products)
      ensures g == (if Truthy(token) then Proceed else NotLoggedIn)
      ensures snack == GuardSnack(g)
      ensures request == if !Truthy(token) then None
        else Some(CartRequest(item.id, if increment then IncrementRequest(old(item.qty))
                                       else DecrementRequest(old(item.qty))))
      ensures AddEffect(products, g, response)
    {
      var qty := if increment then IncrementRequest(item.qty) else DecrementRequest(item.qty);
      g, request, snack := AddToCart(token, cartItemList, products, item.id, qty, false, response);
    }

    /** The effect run whenever `products` changes: fetch the cart and store its
        join against the current `products`; a throwing join stores nothing. */
    method RefreshCart(token: Option<string>, response: Reply<seq<CartEntry>>)
      returns (fetched: Fetched)
      modifies this`cartItemList, CatalogObjects(products)
      ensures fetched == FetchCart(token, response)
      ensures ReconcileSpec(fetched.data, products).Built? ==>
        cartItemList == ReconcileSpec(fetched.data, products).items
      ensures ReconcileSpec(fetched.data, products).Threw? ==> cartItemList == old(cartItemList)
      ensures forall p :: p in CatalogObjects(products) ==>
        p.qty == if fetched.data.Some? then QtyAfter(fetched.data.value, p, old(p.qty)) else old(p.qty)
    {
      fetched := FetchCart(token, response);
      var r := Reconcile(fetched.data, products);
      if r.Built? {
        cartItemList := r.items;
      }
    }

    /** performSearch: a result replaces the catalog, a 404 stores the "empty"
        marker, any other failure leaves the catalog as it was. */
    method PerformSearch(response: Reply<seq<Product>>)
      modifies this`products
      ensures response.Ok? ==> products == Listed(response.data)
      ensures response.Failed? && response.status == 404 ==> products == EmptySentinel
      ensures !response.Ok? && !(response.Failed? && response.status == 404) ==>
        products == old(products)
    {
      match response
      case Ok(data) =>
        products := Listed(data);
      case Failed(status, _) =>
        if status == 404 {
          products := EmptySentinel;
        }
      case NoResponse =>
        // the catch reads `e.response.status` with no response and throws
    }
  }

  // ---------------------------------------------------------------------------
  // Properties

  /** The token check comes first: without a token nothing else is looked at,
      so the duplicate warning is never raised and nothing is posted. */
  lemma TokenCheckFirst(token: Option<string>, items: Option<seq<Product>>, productId: string,
                        preventDuplicate: bool)
    requires !Truthy(token)
    ensures AddGuard(token, items, productId, preventDuplicate) == NotLoggedIn
    ensures GuardSnack(AddGuard(token, items, productId, preventDuplicate)) == Some(LoginToAdd)
  {
  }

  /** The cart +/- path (duplicates not prevented) posts whenever there is a
      token, even for an item already in the cart. */
  lemma QuantityPathAlwaysPosts(token: Option<string>, items: Option<seq<Product>>, productId: string)
    requires Truthy(token)
    ensures AddGuard(token, items, productId, false) == Proceed
  {
  }

  /** The membership check compares the line items' `_id`, the catalog identity:
      over a joined cart it holds exactly when some positive entry names, through
      either identity field, a catalog product with that identity. */
  lemma {:induction false} InCartOfJoin(c: seq<CartEntry>, ps: seq<Product>, productId: string)
    ensures InCart(Join(c, ps), productId) <==>
      exists i, j :: 0 <= i < |c| && 0 <= j < |ps| && ps[j].id == productId && Matches(c[i], ps[j])
  {
    var r := Join(c, ps);
    if InCart(r, productId) {
      var k :| 0 <= k < |r| && r[k].id == productId;
      JoinMembership(c, ps, r[k]);
      var i :| 0 <= i < |c| && Matches(c[i], r[k]);
      var j :| 0 <= j < |ps| && ps[j] == r[k];
      assert ps[j].id == productId && Matches(c[i], ps[j]);
    }
    if exists i, j :: 0 <= i < |c| && 0 <= j < |ps| && ps[j].id == productId && Matches(c[i], ps[j]) {
      var i, j :| 0 <= i < |c| && 0 <= j < |ps| && ps[j].id == productId && Matches(c[i], ps[j]);
      JoinMembership(c, ps, ps[j]);
      var k :| 0 <= k < |r| && r[k] == ps[j];
    }
  }

  /** Without a token the cart list becomes absent (`undefined`), not empty, and
      no request is made. */
  lemma NoTokenLeavesCartAbsent(token: Option<string>, response: Reply<seq<CartEntry>>, catalog: Catalog)
    requires !Truthy(token)
    ensures !FetchCart(token, response).requested
    ensures ReconcileSpec(FetchCart(token, response).data, catalog) == Built(None)
  {
  }

  /** After a failed cart fetch the cart list is absent, and a product card's
      "Add to Cart" then ends in the throw of isItemInCart: no request, no
      snackbar. */
  lemma FailedFetchBreaksCardAdd(token: Option<string>, response: Reply<seq<CartEntry>>,
                                 catalog: Catalog, productId: string)
    requires Truthy(token) && !response.Ok?
    ensures ReconcileSpec(FetchCart(token, response).data, catalog) == Built(None)
    ensures AddGuard(token, None, productId, true) == ItemsUndefined
    ensures GuardSnack(ItemsUndefined) == None
  {
  }

  /** On the "empty" marker a backend cart (entries carry `productId` and no
      `_id`) with a positive entry makes the join throw, so the local cart is not
      replaced; a cart with no positive entry joins to []. */
  lemma SentinelJoin(c: seq<CartEntry>)
    ensures (exists i :: 0 <= i < |c| && c[i].qty > 0 && c[i].productId.Some? && c[i].id.None?) ==>
      ReconcileSpec(Some(c), EmptySentinel) == Threw
    ensures (forall i :: 0 <= i < |c| ==> c[i].qty <= 0) ==>
      ReconcileSpec(Some(c), EmptySentinel) == Built(Some([]))
  {
  }

  /** A quantity-0 request removes the line: when every entry naming `p` has a
      quantity of zero or less (or the backend dropped it), `p` is no line item. */
  lemma ZeroQuantityDropsLine(c: seq<CartEntry>, ps: seq<Product>, p: Product)
    requires forall i :: 0 <= i < |c| && (c[i].productId == Some(p.id) || c[i].id == Some(p.id)) ==>
      c[i].qty <= 0
    ensures p !in Join(c, ps)
  {
    JoinMembership(c, ps, p);
  }
}
