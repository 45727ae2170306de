/** The cart data shaping of the storefront: joining the server's compact cart
    entries against the product catalog, the order total, the line count and the
    quantities requested by the cart's + and - buttons. */
module Cart {
  import opened Common

  /** A catalog product as the backend sends it. Every field but `qty` is fixed;
      `qty` is absent until the cart join first writes it into the object. */
  class Product {
    const id: string
    const name: string
    const category: string
    const cost: int
    const rating: int
    const image: string
    var qty: Option<int>

    constructor (id: string, name: string, category: string, cost: int, rating: int, image: string)
      ensures this.id == id && this.name == name && this.category == category
      ensures this.cost == cost && this.rating == rating && this.image == image
      ensures qty == None
    {
      this.id := id;
      this.name := name;
      this.category := category;
      this.cost := cost;
      this.rating := rating;
      this.image := image;
      qty := None;
    }
  }

  /** One entry of the server cart. Entries from the backend carry `productId`;
      the join also compares an entry's `_id` field (here `id`) when it has one.
      A field the object does not have is `None`. */
  datatype CartEntry = CartEntry(productId: Option<string>, id: Option<string>, qty: int)

  /** The join condition: a positive quantity, and either identity field of the
      entry equal to the product's identity. */
  predicate Matches(e: CartEntry, p: Product)
  {
    e.qty > 0 && (e.productId == Some(p.id) || e.id == Some(p.id))
  }

  /** The products one entry contributes: every catalog slot it matches, in
      catalog order. */
  function Row(e: CartEntry, ps: seq<Product>): seq<Product>
  {
    if ps == [] then []
    else Row(e, ps[..|ps| - 1]) + (if Matches(e, ps[|ps| - 1]) then [ps[|ps| - 1]] else [])
  }

  /** The line items of a cart: the rows of its entries, in entry order. */
  function Join(c: seq<CartEntry>, ps: seq<Product>): seq<Product>
  {
    if c == [] then []
    else Join(c[..|c| - 1], ps) + Row(c[|c| - 1], ps)
  }

  /** The quantity of the last entry that matches `p`, if any entry does. */
  function LastQty(c: seq<CartEntry>, p: Product): (r: Option<int>)
    ensures r.Some? ==> r.value > 0
  {
    if c == [] then None
    else if Matches(c[|c| - 1], p) then Some(c[|c| - 1].qty)
    else LastQty(c[..|c| - 1], p)
  }

  /** The `qty` a catalog object holds after the join over `c`, given the one it
      held before: the last matching entry's, or the old one when none matches. */
  function QtyAfter(c: seq<CartEntry>, p: Product, before: Option<int>): Option<int>
  {
    match LastQty(c, p)
    case Some(q) => Some(q)
    case None => before
  }

  /** The number of entries of `c` that match `p`. */
  function MatchCount(c: seq<CartEntry>, p: Product): (n: nat)
    ensures n <= |c|
  {
    if c == [] then 0
    else MatchCount(c[..|c| - 1], p) + (if Matches(c[|c| - 1], p) then 1 else 0)
  }

  /** generateCartItemsFrom: an absent cart gives an absent result; otherwise a
      nested scan pushes every matched catalog object (the object itself, not a
      copy) and writes the entry's quantity into it. */
  method GenerateCartItemsFrom(cartData: Option<seq<CartEntry>>, productsData: seq<Product>)
    returns (cartItem: Option<seq<Product>>)
    modifies productsData
    ensures cartData.None? ==> cartItem.None?
    ensures cartData.Some? ==> cartItem == Some(Join(cartData.value, productsData))
    ensures cartData.None? ==> forall p :: p in productsData ==> p.qty == old(p.qty)
    ensures cartData.Some? ==>
      forall p :: p in productsData ==> p.qty == QtyAfter(cartData.value, p, old(p.qty))
    ensures cartData.Some? ==>
      forall k :: 0 <= k < |cartItem.value| ==>
        cartItem.value[k].qty == LastQty(cartData.value, cartItem.value[k]) &&
        cartItem.value[k].qty.Some? && cartItem.value[k].qty.value > 0
  {
    if cartData.None? {
      return None;
    }
    var c := cartData.value;
    var items: seq<Product> := [];
    for i := 0 to |c|
      invariant items == Join(c[..i], productsData)
      invariant forall p :: p in productsData ==> p.qty == QtyAfter(c[..i], p, old(p.qty))
    {
      var row := PushMatches(c[i], productsData);
      items := items + row;
      assert c[..i + 1][..i] == c[..i];
    }
    assert c[..|c|] == c;
    forall k | 0 <= k < |items|
      ensures items[k].qty == LastQty(c, items[k]) && LastQty(c, items[k]).Some?
    {
      assert items[k] in Join(c, productsData);
      JoinMembership(c, productsData, items[k]);
    }
    cartItem := Some(items);
  }

  /** The inner scan of generateCartItemsFrom for one entry: every catalog slot
      it matches is pushed, and that object's `qty` is overwritten. */
  method PushMatches(e: CartEntry, productsData: seq<Product>) returns (row: seq<Product>)
    modifies productsData
    ensures row == Row(e, productsData)
    ensures forall p :: p in productsData ==>
      p.qty == if Matches(e, p) then Some(e.qty) else old(p.qty)
  {
    row := [];
    for j := 0 to |productsData|
      invariant row == Row(e, productsData[..j])
      invariant forall p :: p in productsData ==>
        p.qty == if Matches(e, p) && p in productsData[..j] then Some(e.qty) else old(p.qty)
    {
      assert productsData[..j + 1][..j] == productsData[..j];
      assert forall p :: p in productsData[..j + 1] <==> p in productsData[..j] || p == productsData[j];
      if Matches(e, productsData[j]) {
        productsData[j].qty := Some(e.qty);
        row := row + [productsData[j]];
      }
    }
    assert productsData[..|productsData|] == productsData;
  }

  /** The order total of a list of line items, summed left to right as
      `cost * qty`. `None` stands for the NaN JavaScript produces once an item
      has no `qty`; NaN then absorbs every later addition. */
  function Total(items: seq<Product>): Option<int>
    reads items
  {
    if items == [] then Some(0)
    else
      var before := Total(items[..|items| - 1]);
      var last := items[|items| - 1];
      if before.Some? && last.qty.Some? then Some(before.value + last.cost * last.qty.value)
      else None
  }

  /** getTotalCartValue: an `undefined` argument is the empty list. */
  method GetTotalCartValue(items: Option<seq<Product>>) returns (total: Option<int>)
    ensures total == Total(items.GetOr([]))
    ensures total.Some? <==> forall k :: 0 <= k < |items.GetOr([])| ==> items.GetOr([])[k].qty.Some?
  {
    var list := items.GetOr([]);
    total := Some(0);
    for i := 0 to |list|
      invariant total == Total(list[..i])
    {
      assert list[..i + 1][..i] == list[..i];
      var totalQty := list[i].qty;
      var totalCost := list[i].cost;
      if total.Some? && totalQty.Some? {
        total := Some(total.value + totalCost * totalQty.value);
      } else {
        total := None;
      }
    }
    assert list[..|list|] == list;
    TotalDefined(list);
  }

  /** getTotalItems: the number of line items, whatever their quantities; an
      `undefined` argument is the empty list. */
  function TotalItems(items: Option<seq<Product>>): (n: nat)
    ensures items.None? ==> n == 0
    ensures items.Some? ==> n == |items.value|
  {
    |items.GetOr([])|
  }

  /** JavaScript truthiness of a line item's `qty`: `undefined` and 0 are falsy. */
  predicate QtyTruthy(qty: Option<int>)
  {
    qty.Some? && qty.value != 0
  }

  /** The quantity the + button requests: one more than a truthy quantity, and
      1 for an `undefined` or zero one, so a line of non-negative quantity is
      never asked to go below 1. */
  function IncrementRequest(qty: Option<int>): (r: int)
    ensures QtyTruthy(qty) ==> r == qty.value + 1
    ensures !QtyTruthy(qty) ==> r == 1
    ensures (qty.None? || qty.value >= 0) ==> r >= 1
  {
    if QtyTruthy(qty) then qty.value + 1 else 1
  }

  /** The quantity the - button requests: one less than a positive quantity
      (0, which removes the line, for a quantity of 1), and 1 for an
      `undefined` or zero one. */
  function DecrementRequest(qty: Option<int>): (r: int)
    ensures qty.Some? && qty.value > 0 ==> r == qty.value - 1 && 0 <= r < qty.value
    ensures qty.Some? && qty.value < 0 ==> r == qty.value - 1
    ensures !QtyTruthy(qty) ==> r == 1
  {
    if QtyTruthy(qty) then qty.value - 1 else 1
  }

  // ---------------------------------------------------------------------------
  // The join

  /** An absent cart is distinct from an empty one: the empty cart joins to []. */
  lemma JoinEmpty(ps: seq<Product>)
    ensures Join([], ps) == []
  {
  }

  /** Every product one entry contributes is a catalog object that the entry
      matches, and a row is no longer than the catalog. */
  lemma {:induction false} RowElements(e: CartEntry, ps: seq<Product>)
    ensures |Row(e, ps)| <= |ps|
    ensures forall k :: 0 <= k < |Row(e, ps)| ==> Row(e, ps)[k] in ps && Matches(e, Row(e, ps)[k])
  {
    if ps != [] {
      var ps' := ps[..|ps| - 1];
      RowElements(e, ps');
      assert forall x :: x in ps' ==> x in ps;
    }
  }

  /** A row over a concatenated catalog is the concatenation of the rows: each
      entry keeps catalog order. */
  lemma {:induction false} RowAppend(e: CartEntry, ps: seq<Product>, qs: seq<Product>)
    ensures Row(e, ps + qs) == Row(e, ps) + Row(e, qs)
  {
    if qs == [] {
      assert ps + qs == ps;
    } else {
      var qs' := qs[..|qs| - 1];
      assert (ps + qs)[..|ps + qs| - 1] == ps + qs';
      RowAppend(e, ps, qs');
    }
  }

  /** The join over concatenated carts is the concatenation of the joins: the
      output is entry-major. */
  lemma {:induction false} JoinAppend(c: seq<CartEntry>, d: seq<CartEntry>, ps: seq<Product>)
    ensures Join(c + d, ps) == Join(c, ps) + Join(d, ps)
  {
    if d == [] {
      assert c + d == c;
    } else {
      var d' := d[..|d| - 1];
      var e := d[|d| - 1];
      assert (c + d)[..|c + d| - 1] == c + d';
      assert (c + d)[|c + d| - 1] == e;
      calc {
        Join(c + d, ps);
        Join(c + d', ps) + Row(e, ps);
        { JoinAppend(c, d', ps); }
        Join(c, ps) + Join(d', ps) + Row(e, ps);
        Join(c, ps) + (Join(d', ps) + Row(e, ps));
        Join(c, ps) + Join(d, ps);
      }
    }
  }

  /** A row is empty exactly when the entry matches no catalog slot. */
  lemma {:induction false} RowEmptyIff(e: CartEntry, ps: seq<Product>)
    ensures Row(e, ps) == [] <==> forall j :: 0 <= j < |ps| ==> !Matches(e, ps[j])
  {
    if ps != [] {
      var ps' := ps[..|ps| - 1];
      RowEmptyIff(e, ps');
      if Row(e, ps) == [] {
        forall j | 0 <= j < |ps| ensures !Matches(e, ps[j]) {
          if j < |ps| - 1 {
            assert ps[j] == ps'[j];
          }
        }
      } else {
        RowElements(e, ps);
        var k :| 0 <= k < |Row(e, ps)|;
        var x := Row(e, ps)[k];
        var j :| 0 <= j < |ps| && ps[j] == x;
        assert Matches(e, ps[j]);
      }
    }
  }

  /** An entry whose row is empty can be dropped from the cart. */
  lemma JoinDropsEmptyRow(c: seq<CartEntry>, e: CartEntry, d: seq<CartEntry>, ps: seq<Product>)
    requires Row(e, ps) == []
    ensures Join(c + [e] + d, ps) == Join(c + d, ps)
  {
    assert [e][..0] == [];
    assert Join([e], ps) == [];
    calc {
      Join(c + [e] + d, ps);
      { JoinAppend(c + [e], d, ps); }
      Join(c + [e], ps) + Join(d, ps);
      { JoinAppend(c, [e], ps); }
      Join(c, ps) + Join([e], ps) + Join(d, ps);
      Join(c, ps) + Join(d, ps);
      { JoinAppend(c, d, ps); }
      Join(c + d, ps);
    }
  }

  /** An entry with a quantity of zero or less contributes no line item. */
  lemma JoinSkipsNonPositive(c: seq<CartEntry>, e: CartEntry, d: seq<CartEntry>, ps: seq<Product>)
    requires e.qty <= 0
    ensures Join(c + [e] + d, ps) == Join(c + d, ps)
  {
    RowEmptyIff(e, ps);
    JoinDropsEmptyRow(c, e, d, ps);
  }

  /** An entry whose identities name no catalog product contributes nothing. */
  lemma JoinSkipsUnknown(c: seq<CartEntry>, e: CartEntry, d: seq<CartEntry>, ps: seq<Product>)
    requires forall j :: 0 <= j < |ps| ==> e.productId != Some(ps[j].id) && e.id != Some(ps[j].id)
    ensures Join(c + [e] + d, ps) == Join(c + d, ps)
  {
    RowEmptyIff(e, ps);
    JoinDropsEmptyRow(c, e, d, ps);
  }

  /** A row holds every occurrence of a matching object and none of any other. */
  lemma {:induction false} RowMultiplicity(e: CartEntry, ps: seq<Product>, x: Product)
    ensures multiset(Row(e, ps))[x] == if Matches(e, x) then multiset(ps)[x] else 0
  {
    if ps != [] {
      var ps' := ps[..|ps| - 1];
      assert ps == ps' + [ps[|ps| - 1]];
      RowMultiplicity(e, ps', x);
    }
  }

  /** Multiplicity of the join: an object appears once per matching entry per
      catalog slot it occupies, so duplicate matches give duplicate (aliased)
      line items. */
  lemma {:induction false} JoinMultiplicity(c: seq<CartEntry>, ps: seq<Product>, x: Product)
    ensures multiset(Join(c, ps))[x] == MatchCount(c, x) * multiset(ps)[x]
  {
    if c != [] {
      var c' := c[..|c| - 1];
      var e := c[|c| - 1];
      var a := MatchCount(c', x);
      var m := multiset(ps)[x];
      JoinMultiplicity(c', ps, x);
      RowMultiplicity(e, ps, x);
      assert Join(c, ps) == Join(c', ps) + Row(e, ps);
      assert multiset(Join(c, ps))[x] == a * m + multiset(Row(e, ps))[x];
      if Matches(e, x) {
        assert MatchCount(c, x) == a + 1;
        MulSucc(a, m);
      } else {
        assert MatchCount(c, x) == a;
      }
    }
  }

  lemma MulSucc(a: nat, m: nat)
    ensures (a + 1) * m == a * m + m
  {
  }

  /** LastQty is defined exactly for the objects some entry matches. */
  lemma {:induction false} LastQtyDefinedIff(c: seq<CartEntry>, p: Product)
    ensures LastQty(c, p).Some? <==> exists i :: 0 <= i < |c| && Matches(c[i], p)
  {
    if c != [] {
      var c' := c[..|c| - 1];
      LastQtyDefinedIff(c', p);
      if exists i :: 0 <= i < |c'| && Matches(c'[i], p) {
        var i :| 0 <= i < |c'| && Matches(c'[i], p);
        assert c[i] == c'[i];
      }
      if exists i :: 0 <= i < |c| && Matches(c[i], p) {
        var i :| 0 <= i < |c| && Matches(c[i], p);
        if i < |c'| {
          assert c'[i] == c[i];
        }
      }
    }
  }

  /** LastQty is the quantity of the last matching entry: that entry matches and
      no later entry does. */
  lemma {:induction false} LastQtyIsLastMatch(c: seq<CartEntry>, p: Product)
    requires LastQty(c, p).Some?
    ensures exists i :: 0 <= i < |c| && Matches(c[i], p) && c[i].qty == LastQty(c, p).value &&
                        forall i' :: i < i' < |c| ==> !Matches(c[i'], p)
  {
    var n := |c| - 1;
    if Matches(c[n], p) {
      assert Matches(c[n], p) && c[n].qty == LastQty(c, p).value;
    } else {
      var c' := c[..n];
      LastQtyIsLastMatch(c', p);
      var i :| 0 <= i < |c'| && Matches(c'[i], p) && c'[i].qty == LastQty(c', p).value &&
               forall i' :: i < i' < |c'| ==> !Matches(c'[i'], p);
      assert c[i] == c'[i];
      forall i' | i < i' < |c| ensures !Matches(c[i'], p) {
        if i' < n {
          assert c[i'] == c'[i'];
        }
      }
    }
  }

  /** The line items are exactly the catalog objects that some entry matches,
      which are exactly the objects whose `qty` the join writes. */
  lemma {:induction false} JoinMembership(c: seq<CartEntry>, ps: seq<Product>, x: Product)
    ensures x in Join(c, ps) <==> x in ps && exists i :: 0 <= i < |c| && Matches(c[i], x)
    ensures x in Join(c, ps) <==> x in ps && LastQty(c, x).Some?
  {
    LastQtyDefinedIff(c, x);
    if c != [] {
      var n := |c| - 1;
      var c' := c[..n];
      JoinMembership(c', ps, x);
      RowMembership(c[n], ps, x);
      assert Join(c, ps) == Join(c', ps) + Row(c[n], ps);
      assert forall i :: 0 <= i < n ==> c'[i] == c[i];
    }
  }

  /** One entry's row holds exactly the catalog objects it matches. */
  lemma {:induction false} RowMembership(e: CartEntry, ps: seq<Product>, x: Product)
    ensures x in Row(e, ps) <==> x in ps && Matches(e, x)
  {
    if ps != [] {
      var n := |ps| - 1;
      RowMembership(e, ps[..n], x);
      assert ps == ps[..n] + [ps[n]];
    }
  }

  /** A matching entry makes the match count positive. */
  lemma {:induction false} MatchCountPositive(c: seq<CartEntry>, x: Product, i: nat)
    requires i < |c| && Matches(c[i], x)
    ensures MatchCount(c, x) > 0
  {
    var n := |c| - 1;
    if i < n {
      assert c[..n][i] == c[i];
      MatchCountPositive(c[..n], x, i);
    }
  }

  /** When no entry matches, the match count is zero. */
  lemma {:induction false} MatchCountZero(c: seq<CartEntry>, x: Product)
    requires forall i :: 0 <= i < |c| ==> !Matches(c[i], x)
    ensures MatchCount(c, x) == 0
  {
    if c != [] {
      var n := |c| - 1;
      assert forall i :: 0 <= i < n ==> c[..n][i] == c[i];
      MatchCountZero(c[..n], x);
    }
  }

  // ---------------------------------------------------------------------------
  // Totals and counts

  /** The total is a number exactly when every line item carries a quantity. */
  lemma {:induction false} TotalDefined(items: seq<Product>)
    ensures Total(items).Some? <==> forall k :: 0 <= k < |items| ==> items[k].qty.Some?
  {
    if items != [] {
      var n := |items| - 1;
      TotalDefined(items[..n]);
      assert forall k :: 0 <= k < n ==> items[..n][k] == items[k];
    }
  }

  /** The total of a concatenation is the sum of the totals; NaN on either side
      makes the whole NaN. */
  lemma {:induction false} TotalAppend(a: seq<Product>, b: seq<Product>)
    ensures Total(a + b) ==
      if Total(a).Some? && Total(b).Some? then Some(Total(a).value + Total(b).value) else None
  {
    if b == [] {
      assert a + b == a;
    } else {
      var b' := b[..|b| - 1];
      assert (a + b)[..|a + b| - 1] == a + b';
      TotalAppend(a, b');
    }
  }

  /** With non-negative costs and positive quantities the total is non-negative. */
  lemma {:induction false} TotalNonNegative(items: seq<Product>)
    requires forall k :: 0 <= k < |items| ==>
      items[k].cost >= 0 && items[k].qty.Some? && items[k].qty.value > 0
    ensures Total(items).Some? && Total(items).value >= 0
  {
    if items != [] {
      var n := |items| - 1;
      assert forall k :: 0 <= k < n ==> items[..n][k] == items[k];
      TotalNonNegative(items[..n]);
    }
  }

  /** The count of the empty cart, with or without an argument, is 0, and the
      count ignores quantities: two lists of equal length count the same. */
  lemma TotalItemsIgnoresQuantity(a: seq<Product>, b: seq<Product>)
    requires |a| == |b|
    ensures TotalItems(Some(a)) == TotalItems(Some(b))
    ensures TotalItems(None) == 0 && TotalItems(Some([])) == 0
  {
  }

  /** Over a catalog whose identities are distinct, an entry that carries only
      one identity field (as the backend's entries do) makes at most one line, so
      the count never exceeds the number of entries, whatever the quantities. */
  lemma {:induction false} TotalItemsAtMostEntries(c: seq<CartEntry>, ps: seq<Product>)
    requires forall j, k :: 0 <= j < k < |ps| ==> ps[j].id != ps[k].id
    requires forall i :: 0 <= i < |c| ==> c[i].productId.None? || c[i].id.None?
    ensures TotalItems(Some(Join(c, ps))) <= |c|
  {
    if c != [] {
      assert forall i :: 0 <= i < |c| - 1 ==> c[..|c| - 1][i] == c[i];
      TotalItemsAtMostEntries(c[..|c| - 1], ps);
      RowAtMostOne(c[|c| - 1], ps);
    }
  }

  lemma {:induction false} RowAtMostOne(e: CartEntry, ps: seq<Product>)
    requires forall j, k :: 0 <= j < k < |ps| ==> ps[j].id != ps[k].id
    requires e.productId.None? || e.id.None?
    ensures |Row(e, ps)| <= 1
  {
    if ps != [] {
      var n := |ps| - 1;
      var ps' := ps[..n];
      RowAtMostOne(e, ps');
      if Matches(e, ps[n]) {
        RowEmptyIff(e, ps');
        forall j | 0 <= j < |ps'| ensures !Matches(e, ps'[j]) {
          assert ps'[j] == ps[j];
        }
      }
    }
  }

  /** An entry that carries both identity fields can match two different
      products, and then makes two lines. */
  lemma RowTwoIdentities(e: CartEntry, p: Product, q: Product)
    requires e.qty > 0 && e.productId == Some(p.id) && e.id == Some(q.id)
    ensures Row(e, [p, q]) == [p, q]
  {
    assert [p, q][..1] == [p];
    assert [p][..0] == [];
    assert Row(e, [p]) == [p];
    assert Row(e, [p, q]) == Row(e, [p]) + [q];
  }

  // ---------------------------------------------------------------------------
  // The + and - buttons

  /** On a line with a positive quantity the buttons request one more and one
      less; on a falsy quantity both request 1. */
  lemma QuantityRequests(qty: Option<int>)
    ensures QtyTruthy(qty) ==> IncrementRequest(qty) == qty.value + 1
    ensures QtyTruthy(qty) ==> DecrementRequest(qty) == qty.value - 1
    ensures !QtyTruthy(qty) ==> IncrementRequest(qty) == 1 && DecrementRequest(qty) == 1
    ensures DecrementRequest(Some(1)) == 0
  {
  }

  /** For a positive quantity, - undoes + and (above 1) + undoes -. */
  lemma QuantityRoundTrip(q: int)
    requires q > 0
    ensures DecrementRequest(Some(IncrementRequest(Some(q)))) == q
    ensures q > 1 ==> IncrementRequest(Some(DecrementRequest(Some(q)))) == q
  {
  }
}
