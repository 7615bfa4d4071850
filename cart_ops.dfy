/** The mutations of the cart list, as functions from the list before to the
    list after, and what each of them does to the entries and the totals. */
module CartOps {
  import opened CartItems

  /** The record addToCart builds from a product card: quantity 1. */
  function NewItem(id: string, name: string, price: nat, imgSrc: string): (r: LineItem)
    ensures r.id == id && r.name == name && r.price == price && r.imgSrc == imgSrc
    ensures r.quantity == 1
  {
    LineItem(id, name, price, imgSrc, 1)
  }

  /** The list after addToCart: the first entry that is the same product gets
      one more, otherwise the new record goes at the end. */
  function Added(s: seq<LineItem>, id: string, name: string, price: nat, imgSrc: string): (r: seq<LineItem>)
    ensures |s| <= |r| <= |s| + 1
    ensures forall j :: 0 <= j < |s| ==>
      r[j] == s[j] || (SameProduct(s[j], NewItem(id, name, price, imgSrc)) && r[j] == s[j].(quantity := s[j].quantity + 1))
  {
    var product := NewItem(id, name, price, imgSrc);
    var i := MatchIndex(s, product);
    if i > -1 then s[i := s[i].(quantity := s[i].quantity + 1)] else s + [product]
  }

  /** The list after increaseQuantity: the first entry with the id gets one more. */
  function Increased(s: seq<LineItem>, id: string): (r: seq<LineItem>)
    ensures |r| == |s|
    ensures forall j :: 0 <= j < |s| ==> r[j] == s[j].(quantity := r[j].quantity)
    ensures forall j :: 0 <= j < |s| ==> r[j].quantity == s[j].quantity || r[j].quantity == s[j].quantity + 1
  {
    var i := IdIndex(s, id);
    if i == -1 then s else s[i := s[i].(quantity := s[i].quantity + 1)]
  }

  /** The list after decreaseQuantity: the first entry with the id gets one less,
      and when that leaves it at zero or below every entry with the id goes. */
  function Decreased(s: seq<LineItem>, id: string): (r: seq<LineItem>)
    ensures |r| <= |s|
    ensures !HasId(r, id) <==> !HasId(s, id) || s[IdIndex(s, id)].quantity <= 1
  {
    var i := IdIndex(s, id);
    if i == -1 then s
    else if s[i].quantity - 1 <= 0 then WithoutId(s, id)
    else
      var r := s[i := s[i].(quantity := s[i].quantity - 1)];
      assert r[i].id == id;
      r
  }

  /** addToCart grows the list by at most one entry: it appends the new record
      when nothing matches, and otherwise bumps only the first matching entry. */
  lemma AddedEntries(s: seq<LineItem>, id: string, name: string, price: nat, imgSrc: string)
    ensures var r, p := Added(s, id, name, price, imgSrc), NewItem(id, name, price, imgSrc);
      && ((forall j :: 0 <= j < |s| ==> !SameProduct(s[j], p)) <==> r == s + [p])
      && (MatchIndex(s, p) >= 0 ==>
            var i := MatchIndex(s, p);
            r == s[i := s[i].(quantity := s[i].quantity + 1)]
            && forall j :: 0 <= j < |s| && j != i ==> r[j] == s[j])
  {
  }

  /** Because the match includes the id, a product whose id is new to the cart
      is always appended as a separate entry. */
  lemma AddedFreshId(s: seq<LineItem>, id: string, name: string, price: nat, imgSrc: string)
    requires !HasId(s, id)
    ensures Added(s, id, name, price, imgSrc) == s + [NewItem(id, name, price, imgSrc)]
  {
  }

  /** addToCart adds exactly one item to the count and exactly its price to the subtotal. */
  lemma AddedTotals(s: seq<LineItem>, id: string, name: string, price: nat, imgSrc: string)
    ensures TotalItems(Added(s, id, name, price, imgSrc)) == TotalItems(s) + 1
    ensures Subtotal(Added(s, id, name, price, imgSrc)) == Subtotal(s) + price
  {
    var p := NewItem(id, name, price, imgSrc);
    var i := MatchIndex(s, p);
    if i > -1 {
      var old_, new_ := s[i], s[i].(quantity := s[i].quantity + 1);
      SumByUpdate(s, i, new_, Quantity);
      SumByUpdate(s, i, new_, LineTotal);
      assert LineTotal(new_) == LineTotal(old_) + price by {
        assert old_.price == price;
        assert price * (old_.quantity + 1) == price * old_.quantity + price;
      }
    } else {
      SumByAppend(s, p, Quantity);
      SumByAppend(s, p, LineTotal);
    }
  }

  /** addToCart keeps quantities positive and never creates a second entry for the same product. */
  lemma AddedKeepsWellFormed(s: seq<LineItem>, id: string, name: string, price: nat, imgSrc: string)
    requires WellFormed(s)
    ensures WellFormed(Added(s, id, name, price, imgSrc))
  {
  }

  /** addToCart keeps every quantity positive when it was, duplicates or not. */
  lemma AddedKeepsPositive(s: seq<LineItem>, id: string, name: string, price: nat, imgSrc: string)
    requires AllPositive(s)
    ensures AllPositive(Added(s, id, name, price, imgSrc))
  {
  }

  /** Removing the id of a freshly added product gives back the cart from before the add. */
  lemma {:induction false} AddedThenRemoved(s: seq<LineItem>, id: string, name: string, price: nat, imgSrc: string)
    requires !HasId(s, id)
    ensures WithoutId(Added(s, id, name, price, imgSrc), id) == s
  {
    var p := NewItem(id, name, price, imgSrc);
    AddedFreshId(s, id, name, price, imgSrc);
    WithoutIdAppend(s, [p], id);
    WithoutIdAbsent(s, id);
    WithoutIdSingle(p, id);
  }

  /** increaseQuantity changes only the first entry with the id, by one,
      and does nothing for an id not in the cart. */
  lemma IncreasedEntries(s: seq<LineItem>, id: string)
    ensures var r := Increased(s, id);
      && |r| == |s|
      && (!HasId(s, id) ==> r == s)
      && (HasId(s, id) ==>
            var i := IdIndex(s, id);
            r[i] == s[i].(quantity := s[i].quantity + 1)
            && forall j :: 0 <= j < |s| && j != i ==> r[j] == s[j])
  {
  }

  /** increaseQuantity adds one to the item count and one unit price to the subtotal. */
  lemma IncreasedTotals(s: seq<LineItem>, id: string)
    requires HasId(s, id)
    ensures TotalItems(Increased(s, id)) == TotalItems(s) + 1
    ensures Subtotal(Increased(s, id)) == Subtotal(s) + s[IdIndex(s, id)].price
  {
    var i := IdIndex(s, id);
    var old_, new_ := s[i], s[i].(quantity := s[i].quantity + 1);
    SumByUpdate(s, i, new_, Quantity);
    SumByUpdate(s, i, new_, LineTotal);
    assert LineTotal(new_) == LineTotal(old_) + old_.price by {
      assert old_.price * (old_.quantity + 1) == old_.price * old_.quantity + old_.price;
    }
  }

  /** Changing the quantity of one entry keeps the invariant as long as the quantity stays positive. */
  lemma QuantityChangeKeepsWellFormed(s: seq<LineItem>, i: nat, q: int)
    requires WellFormed(s) && i < |s| && q >= 1
    ensures WellFormed(s[i := s[i].(quantity := q)])
  {
  }

  /** increaseQuantity keeps every quantity positive when it was. */
  lemma IncreasedKeepsPositive(s: seq<LineItem>, id: string)
    requires AllPositive(s)
    ensures AllPositive(Increased(s, id))
  {
  }

  /** increaseQuantity keeps the cart invariant. */
  lemma IncreasedKeepsWellFormed(s: seq<LineItem>, id: string)
    requires WellFormed(s)
    ensures WellFormed(Increased(s, id))
  {
  }

  /** decreaseQuantity: an unknown id changes nothing; a first entry at one or
      below takes every entry with the id out of the cart; otherwise only that
      entry loses one, and the item count drops by one. */
  lemma DecreasedEntries(s: seq<LineItem>, id: string)
    ensures var r := Decreased(s, id);
      && (!HasId(s, id) ==> r == s)
      && (HasId(s, id) && s[IdIndex(s, id)].quantity <= 1 ==> r == WithoutId(s, id) && !HasId(r, id))
      && (HasId(s, id) && s[IdIndex(s, id)].quantity > 1 ==>
            var i := IdIndex(s, id);
            |r| == |s| && r[i] == s[i].(quantity := s[i].quantity - 1)
            && (forall j :: 0 <= j < |s| && j != i ==> r[j] == s[j])
            && TotalItems(r) == TotalItems(s) - 1)
  {
    var i := IdIndex(s, id);
    if i != -1 && s[i].quantity > 1 {
      SumByUpdate(s, i, s[i].(quantity := s[i].quantity - 1), Quantity);
    }
  }

  /** decreaseQuantity keeps every quantity positive when it was: an entry
      that would reach zero is removed instead. */
  lemma DecreasedKeepsPositive(s: seq<LineItem>, id: string)
    requires AllPositive(s)
    ensures AllPositive(Decreased(s, id))
  {
    var i := IdIndex(s, id);
    if i != -1 && s[i].quantity - 1 <= 0 {
      WithoutIdKeepsPositive(s, id);
    }
  }

  /** decreaseQuantity keeps the cart invariant. */
  lemma DecreasedKeepsWellFormed(s: seq<LineItem>, id: string)
    requires WellFormed(s)
    ensures WellFormed(Decreased(s, id))
  {
    var i := IdIndex(s, id);
    if i != -1 {
      if s[i].quantity - 1 <= 0 {
        WithoutIdKeepsWellFormed(s, id);
      } else {
        QuantityChangeKeepsWellFormed(s, i, s[i].quantity - 1);
      }
    }
  }

  /** A decrease right after an increase of the same id restores the cart. */
  lemma DecreaseUndoesIncrease(s: seq<LineItem>, id: string)
    requires AllPositive(s)
    ensures Decreased(Increased(s, id), id) == s
  {
  }

  /** An increase right after a decrease that kept the entry restores the cart. */
  lemma IncreaseUndoesDecrease(s: seq<LineItem>, id: string)
    requires HasId(s, id) && s[IdIndex(s, id)].quantity > 1
    ensures Increased(Decreased(s, id), id) == s
  {
  }

  /** An emptied cart, as placeOrder leaves it: no items, nothing to pay but shipping. */
  lemma EmptyCartTotals()
    ensures TotalItems([]) == 0 && Subtotal([]) == 0
    ensures Shipping([]) == ShippingFee && Total([]) == ShippingFee
  {
  }
}
