/** Client code walking through the storefront's end-to-end cart scenarios,
    using only the contracts of the operations. */
module Scenarios {
  import opened Common
  import opened Cart
  import opened Products

  /** One entry of two units of p1 against a catalog of p1 and p2: one line,
      total 200, count 1. */
  method SingleLineCart() {
    var p1 := new Product("p1", "iPhone XR", "Phones", 100, 4, "p1.jpg");
    var p2 := new Product("p2", "Basketball", "Sports", 50, 5, "p2.jpg");
    var catalog := [p1, p2];
    var entry := CartEntry(Some("p1"), None, 2);
    assert [entry][..0] == [];
    assert catalog[..1] == [p1];
    assert [p1][..0] == [];
    assert !Matches(entry, p2);
    assert Row(entry, [p1]) == [p1];
    assert Row(entry, catalog) == [p1];
    assert Join([entry], catalog) == [p1];
    assert LastQty([entry], p2) == None;
    var items := GenerateCartItemsFrom(Some([entry]), catalog);
    assert items == Some([p1]);
    assert p1.qty == Some(2) && p2.qty == None;
    var total := GetTotalCartValue(items);
    assert [p1][..0] == [];
    assert total == Some(200);
    assert TotalItems(items) == 1;
  }

  /** Two line items priced 100 x 2 and 50 x 1 total 250. */
  method TwoLineTotal() {
    var a := new Product("a", "A", "X", 100, 3, "a.jpg");
    var b := new Product("b", "B", "X", 50, 3, "b.jpg");
    a.qty := Some(2);
    b.qty := Some(1);
    assert [a, b][..1] == [a];
    assert [a][..0] == [];
    assert Total([a]) == Some(200);
    var total := GetTotalCartValue(Some([a, b]));
    assert total == Some(250);
  }

  /** With duplicates prevented, adding an item already in the cart is refused
      with a warning, posts nothing and keeps the cart. */
  method DuplicateAddRefused(page: ProductsPage, item: Product, reply: Reply<seq<CartEntry>>)
    requires page.products.Listed? && item in page.products.items
    requires page.cartItemList == Some([item])
    modifies page, CatalogObjects(page.products)
  {
    var before := page.cartItemList;
    var g, request, snack := page.AddFromCard(Some("token"), item, reply);
    assert [item][0].id == item.id;
    assert InCart([item], item.id);
    assert g == AlreadyInCart && request == None && snack == Some(AlreadyInCartWarning);
    assert page.cartItemList == before;
  }

  /** Decrementing a quantity-1 line requests 0; the backend's answer then omits
      the entry and the line is gone. */
  method DecrementLastUnit(page: ProductsPage, item: Product)
    requires page.products.Listed? && item in page.products.items
    requires page.cartItemList == Some([item]) && item.qty == Some(1)
    modifies page, CatalogObjects(page.products)
  {
    var g, request, snack := page.HandleQuantity(Some("token"), item, false, Ok([]));
    assert request == Some(CartRequest(item.id, 0));
    assert page.cartItemList == Some(Join([], page.products.items)) == Some([]);
  }
}
