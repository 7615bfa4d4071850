/** The cart store as the page holds it: the list of line items, the storage
    slot the list is saved to, and the two panel flags. */
module CartStore {
  import opened CartItems
  import opened CartOps

  /** What the page starts with for a given saved slot:
      `JSON.parse(...) || []`, so a missing slot gives the empty list. */
  function Restored(slot: Option<seq<LineItem>>): (r: seq<LineItem>)
    ensures slot == Some(r) || (slot == None && r == [])
  {
    match slot
    case None => []
    case Some(s) => s
  }

  class Cart {
    /** cartItems */
    var items: seq<LineItem>
    /** The 'cartItems' storage entry; None while nothing has been saved. */
    var slot: Option<seq<LineItem>>
    /** cartOpen: whether the overlay panel is open. */
    var cartOpen: bool
    /** Whether the checkout form is shown in place of the cart content. */
    var checkoutShown: bool

    /** Reloading the page would give back the list in memory. */
    ghost predicate Persisted()
      reads this
    {
      Restored(slot) == items
    }

    ghost predicate Valid()
      reads this
    {
      WellFormed(items)
    }

    /** Page load: the list comes from the storage slot, the panel is closed. */
    constructor (saved: Option<seq<LineItem>>)
      ensures items == Restored(saved) && slot == saved
      ensures !cartOpen && !checkoutShown
      ensures Persisted()
    {
      items := Restored(saved);
      slot := saved;
      cartOpen := false;
      checkoutShown := false;
    }

    /** saveCart */
    method Save()
      modifies this`slot
      ensures slot == Some(items)
      ensures Persisted()
    {
      slot := Some(items);
    }

    /** addToCart, for a product card with the given fields and the id the page generated. */
    method AddToCart(id: string, name: string, price: nat, imgSrc: string)
      modifies this`items, this`slot
      ensures items == Added(old(items), id, name, price, imgSrc)
      ensures TotalItems(items) == TotalItems(old(items)) + 1
      ensures Subtotal(items) == Subtotal(old(items)) + price
      ensures |old(items)| <= |items| <= |old(items)| + 1
      ensures old(AllPositive(items)) ==> AllPositive(items)
      ensures old(Valid()) ==> Valid()
      ensures Persisted()
    {
      ghost var before := items;
      var product := NewItem(id, name, price, imgSrc);
      var i := MatchIndex(items, product);
      if i > -1 {
        items := items[i := items[i].(quantity := items[i].quantity + 1)];
      } else {
        items := items + [product];
      }
      Save();
      AddedTotals(before, id, name, price, imgSrc);
      AddedEntries(before, id, name, price, imgSrc);
      if AllPositive(before) {
        AddedKeepsPositive(before, id, name, price, imgSrc);
      }
      if WellFormed(before) {
        AddedKeepsWellFormed(before, id, name, price, imgSrc);
      }
    }

    /** increaseQuantity: saves only when the id was found. */
    method IncreaseQuantity(id: string)
      modifies this`items, this`slot
      ensures items == Increased(old(items), id)
      ensures !HasId(old(items), id) ==> items == old(items) && slot == old(slot)
      ensures HasId(old(items), id) ==> TotalItems(items) == TotalItems(old(items)) + 1 && slot == Some(items)
      ensures old(AllPositive(items)) ==> AllPositive(items)
      ensures old(Valid()) ==> Valid()
      ensures old(Persisted()) ==> Persisted()
    {
      ghost var before := items;
      var i := IdIndex(items, id);
      if i != -1 {
        items := items[i := items[i].(quantity := items[i].quantity + 1)];
        Save();
        IncreasedTotals(before, id);
      }
      if AllPositive(before) {
        IncreasedKeepsPositive(before, id);
      }
      if WellFormed(before) {
        IncreasedKeepsWellFormed(before, id);
      }
    }

    /** decreaseQuantity: an entry that reaches zero or below is removed through removeItemById. */
    method DecreaseQuantity(id: string)
      modifies this`items, this`slot
      ensures items == Decreased(old(items), id)
      ensures !HasId(old(items), id) ==> items == old(items) && slot == old(slot)
      ensures HasId(old(items), id) ==> slot == Some(items)
      ensures old(AllPositive(items)) ==> AllPositive(items)
      ensures old(Valid()) ==> Valid()
      ensures old(Persisted()) ==> Persisted()
    {
      ghost var before := items;
      var i := IdIndex(items, id);
      if i != -1 {
        var q := items[i].quantity - 1;
        if q <= 0 {
          RemoveItemById(id);
        } else {
          items := items[i := items[i].(quantity := q)];
          Save();
        }
      }
      if AllPositive(before) {
        DecreasedKeepsPositive(before, id);
      }
      if WellFormed(before) {
        DecreasedKeepsWellFormed(before, id);
      }
    }

    /** removeItemById: keeps every entry with another id, in order, and saves. */
    method RemoveItemById(id: string)
      modifies this`items, this`slot
      ensures items == WithoutId(old(items), id)
      ensures !HasId(items, id)
      ensures old(AllPositive(items)) ==> AllPositive(items)
      ensures old(Valid()) ==> Valid()
      ensures slot == Some(items)
    {
      ghost var before := items;
      items := WithoutId(items, id);
      Save();
      if AllPositive(before) {
        WithoutIdKeepsPositive(before, id);
      }
      if WellFormed(before) {
        WithoutIdKeepsWellFormed(before, id);
      }
    }

    /** The clear placeOrder performs once the order is accepted. */
    method PlaceOrder()
      modifies this`items, this`slot
      ensures items == [] && slot == Some([])
      ensures TotalItems(items) == 0 && Subtotal(items) == 0
      ensures Shipping(items) == ShippingFee && Total(items) == ShippingFee
      ensures Valid()
    {
      items := [];
      Save();
      EmptyCartTotals();
    }

    /** toggleCart: flips cartOpen, and closing the panel also hides the checkout form. */
    method ToggleCart()
      modifies this`cartOpen, this`checkoutShown
      ensures cartOpen == !old(cartOpen)
      ensures !cartOpen ==> !checkoutShown
      ensures cartOpen ==> checkoutShown == old(checkoutShown)
    {
      cartOpen := !cartOpen;
      if !cartOpen {
        HideCheckout();
      }
    }

    /** showCheckout: refuses an empty cart. */
    method ShowCheckout()
      modifies this`checkoutShown
      ensures |items| == 0 ==> checkoutShown == old(checkoutShown)
      ensures |items| > 0 ==> checkoutShown
    {
      if |items| == 0 {
        return;
      }
      checkoutShown := true;
    }

    /** hideCheckout */
    method HideCheckout()
      modifies this`checkoutShown
      ensures !checkoutShown
    {
      checkoutShown := false;
    }
  }

  /** Adding a 20.00 shirt and an 85.00 pair of shoes, then placing the order. */
  method OrderScenario()
  {
    var cart := new Cart(None);
    EmptyCartTotals();
    cart.AddToCart("1", "Shirt", 2000, "shirt.jpg");
    assert Subtotal(cart.items) == 2000 && Shipping(cart.items) == 1000;
    assert Total(cart.items) == 3000 && TotalItems(cart.items) == 1;
    cart.AddToCart("2", "Shoes", 8500, "shoes.jpg");
    assert Subtotal(cart.items) == 10500 && Shipping(cart.items) == 0;
    assert Total(cart.items) == 10500 && TotalItems(cart.items) == 2;
    cart.ToggleCart();
    cart.ShowCheckout();
    assert cart.cartOpen && cart.checkoutShown;
    cart.PlaceOrder();
    assert Total(cart.items) == 1000 && TotalItems(cart.items) == 0;
    cart.ShowCheckout();
    cart.ToggleCart();
    assert !cart.cartOpen && !cart.checkoutShown;
  }
}
