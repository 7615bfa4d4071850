/** Line items of the shopping cart, the searches and the filter the cart store
    applies to its list, and the totals derived from it.

    Prices are whole cents, so sums and the free-shipping threshold are exact. */
module CartItems {

  datatype Option<T> = None | Some(value: T)

  /** One product entry of the cart: the record built by addToCart. */
  datatype LineItem = LineItem(id: string, name: string, price: nat, imgSrc: string, quantity: int)

  /** Orders whose subtotal is strictly above 100.00 ship for free. */
  const FreeShippingThreshold: int := 10000
  /** Flat shipping fee of 10.00 for every other order. */
  const ShippingFee: int := 1000

  /** The test addToCart uses to decide that a product is already in the cart:
      equal name, equal price and equal id. */
  predicate SameProduct(a: LineItem, b: LineItem)
  {
    a.name == b.name && a.price == b.price && a.id == b.id
  }

  predicate HasId(s: seq<LineItem>, id: string)
  {
    exists i :: 0 <= i < |s| && s[i].id == id
  }

  /** Every entry has a positive quantity. */
  ghost predicate AllPositive(s: seq<LineItem>)
  {
    forall i :: 0 <= i < |s| ==> s[i].quantity >= 1
  }

  /** No two entries are the same product in the sense of SameProduct. */
  ghost predicate NoDuplicates(s: seq<LineItem>)
  {
    forall i, j :: 0 <= i < j < |s| ==> !SameProduct(s[i], s[j])
  }

  /** The invariant the cart keeps once it holds. */
  ghost predicate WellFormed(s: seq<LineItem>)
  {
    AllPositive(s) && NoDuplicates(s)
  }

  /** Array.prototype.findIndex: the first index whose entry satisfies p, or -1. */
  function FindIndex(s: seq<LineItem>, p: LineItem -> bool): (r: int)
    ensures -1 <= r < |s|
    ensures r == -1 <==> forall i :: 0 <= i < |s| ==> !p(s[i])
    ensures r >= 0 ==> p(s[r]) && forall i :: 0 <= i < r ==> !p(s[i])
  {
    if s == [] then -1
    else if p(s[0]) then 0
    else
      var k := FindIndex(s[1..], p);
      if k == -1 then -1 else k + 1
  }

  /** The index addToCart looks for: the first entry that is the same product. */
  function MatchIndex(s: seq<LineItem>, product: LineItem): (r: int)
    ensures -1 <= r < |s|
    ensures r == -1 <==> forall i :: 0 <= i < |s| ==> !SameProduct(s[i], product)
    ensures r >= 0 ==> SameProduct(s[r], product) && forall i :: 0 <= i < r ==> !SameProduct(s[i], product)
  {
    FindIndex(s, (x: LineItem) => SameProduct(x, product))
  }

  /** The entry cartItems.find(item => item.id === id) returns, as an index (-1 for undefined). */
  function IdIndex(s: seq<LineItem>, id: string): (r: int)
    ensures -1 <= r < |s|
    ensures r == -1 <==> !HasId(s, id)
    ensures r >= 0 ==> s[r].id == id && forall i :: 0 <= i < r ==> s[i].id != id
  {
    FindIndex(s, (x: LineItem) => x.id == id)
  }

  /** cartItems.filter(item => item.id !== id). */
  function WithoutId(s: seq<LineItem>, id: string): (r: seq<LineItem>)
    ensures |r| <= |s|
    ensures forall i :: 0 <= i < |r| ==> r[i].id != id
  {
    if s == [] then []
    else
      var last := s[|s| - 1];
      WithoutId(s[..|s| - 1], id) + (if last.id == id then [] else [last])
  }

  /** The entries the filter keeps are exactly those of the list with a different id. */
  lemma {:induction false} WithoutIdMembers(s: seq<LineItem>, id: string)
    ensures forall x :: x in WithoutId(s, id) <==> x in s && x.id != id
  {
    if s != [] {
      var n := |s| - 1;
      WithoutIdMembers(s[..n], id);
      assert s == s[..n] + [s[n]];
    }
  }

  /** Array.prototype.reduce with an accumulator starting at 0, adding f of each entry in order. */
  function SumBy(s: seq<LineItem>, f: LineItem -> int): int
  {
    if s == [] then 0 else SumBy(s[..|s| - 1], f) + f(s[|s| - 1])
  }

  function LineTotal(item: LineItem): int
  {
    item.price * item.quantity
  }

  function Quantity(item: LineItem): int
  {
    item.quantity
  }

  /** calculateSubtotal: the sum of price times quantity. */
  function Subtotal(s: seq<LineItem>): (r: int)
    ensures s == [] ==> r == 0
    ensures (forall i :: 0 <= i < |s| ==> s[i].quantity >= 0) ==> r >= 0
  {
    SumByBounds(s, LineTotal);
    SumBy(s, LineTotal)
  }

  /** getTotalItems: the sum of the quantities. */
  function TotalItems(s: seq<LineItem>): (r: int)
    ensures s == [] ==> r == 0
    ensures AllPositive(s) ==> r >= |s|
  {
    SumByBounds(s, Quantity);
    SumBy(s, Quantity)
  }

  /** calculateShipping: free strictly above the threshold, the flat fee otherwise. */
  function Shipping(s: seq<LineItem>): (r: int)
    ensures r == 0 <==> Subtotal(s) > FreeShippingThreshold
    ensures r == ShippingFee <==> Subtotal(s) <= FreeShippingThreshold
  {
    if Subtotal(s) > FreeShippingThreshold then 0 else ShippingFee
  }

  /** calculateTotal: the subtotal plus shipping. */
  function Total(s: seq<LineItem>): (r: int)
    ensures Subtotal(s) > FreeShippingThreshold ==> r == Subtotal(s)
    ensures Subtotal(s) <= FreeShippingThreshold ==> r == Subtotal(s) + ShippingFee
  {
    Subtotal(s) + Shipping(s)
  }

  /** A fold of non-negative terms is non-negative, and a fold of terms of at
      least 1 is at least the number of entries. */
  lemma {:induction false} SumByBounds(s: seq<LineItem>, f: LineItem -> int)
    ensures (forall i :: 0 <= i < |s| ==> f(s[i]) >= 0) ==> SumBy(s, f) >= 0
    ensures (forall i :: 0 <= i < |s| ==> f(s[i]) >= 1) ==> SumBy(s, f) >= |s|
  {
    if s != [] {
      var n := |s| - 1;
      SumByBounds(s[..n], f);
      assert forall i :: 0 <= i < n ==> s[..n][i] == s[i];
    }
  }

  lemma {:induction false} SumByAppend(s: seq<LineItem>, x: LineItem, f: LineItem -> int)
    ensures SumBy(s + [x], f) == SumBy(s, f) + f(x)
  {
  }

  /** Replacing one entry changes a fold by the difference of the two entries. */
  lemma {:induction false} SumByUpdate(s: seq<LineItem>, i: nat, x: LineItem, f: LineItem -> int)
    requires i < |s|
    ensures SumBy(s[i := x], f) == SumBy(s, f) - f(s[i]) + f(x)
  {
    var n := |s| - 1;
    if i < n {
      assert s[i := x][..n] == s[..n][i := x];
      SumByUpdate(s[..n], i, x, f);
    } else {
      assert s[i := x][..n] == s[..n];
    }
  }

  /** The filter distributes over concatenation, so it keeps the others in their order. */
  lemma {:induction false} WithoutIdAppend(a: seq<LineItem>, b: seq<LineItem>, id: string)
    ensures WithoutId(a + b, id) == WithoutId(a, id) + WithoutId(b, id)
  {
    if b == [] {
      assert a + b == a;
    } else {
      var n := |b| - 1;
      assert (a + b)[..|a + b| - 1] == a + b[..n];
      WithoutIdAppend(a, b[..n], id);
    }
  }

  /** The filter keeps a single entry exactly when its id differs. */
  lemma WithoutIdSingle(x: LineItem, id: string)
    ensures WithoutId([x], id) == if x.id == id then [] else [x]
  {
  }

  /** Filtering an id that no entry has leaves the list as it is. */
  lemma {:induction false} WithoutIdAbsent(s: seq<LineItem>, id: string)
    requires !HasId(s, id)
    ensures WithoutId(s, id) == s
  {
    if s != [] {
      var n := |s| - 1;
      assert !HasId(s[..n], id) by {
        forall i | 0 <= i < n ensures s[..n][i].id != id {
          assert s[..n][i] == s[i];
        }
      }
      WithoutIdAbsent(s[..n], id);
      assert s == s[..n] + [s[n]];
    }
  }

  /** With positive quantities, removing entries never raises the item count,
      and removing at least one entry lowers it. */
  lemma {:induction false} WithoutIdLowersCount(s: seq<LineItem>, id: string)
    requires AllPositive(s)
    ensures TotalItems(WithoutId(s, id)) <= TotalItems(s)
    ensures HasId(s, id) ==> TotalItems(WithoutId(s, id)) < TotalItems(s)
  {
    if s != [] {
      var n := |s| - 1;
      var pre, last := s[..n], s[n];
      assert AllPositive(pre) by {
        forall i | 0 <= i < n ensures pre[i].quantity >= 1 {
          assert pre[i] == s[i];
        }
      }
      WithoutIdLowersCount(pre, id);
      var rest := WithoutId(pre, id);
      assert TotalItems(s) == TotalItems(pre) + last.quantity;
      assert last.quantity >= 1;
      if last.id == id {
        assert WithoutId(s, id) == rest + [];
        assert rest + [] == rest;
      } else {
        assert WithoutId(s, id) == rest + [last];
        SumByAppend(rest, last, Quantity);
        if HasId(s, id) {
          var k :| 0 <= k < |s| && s[k].id == id;
          assert pre[k] == s[k];
        }
      }
    }
  }

  /** The filter keeps every quantity positive when it was. */
  lemma WithoutIdKeepsPositive(s: seq<LineItem>, id: string)
    requires AllPositive(s)
    ensures AllPositive(WithoutId(s, id))
  {
  }

  /** The filter keeps both parts of the cart invariant. */
  lemma {:induction false} WithoutIdKeepsWellFormed(s: seq<LineItem>, id: string)
    requires WellFormed(s)
    ensures WellFormed(WithoutId(s, id))
  {
    if s != [] {
      var n := |s| - 1;
      var last := s[n];
      var pre := s[..n];
      assert WellFormed(pre) by {
        forall i | 0 <= i < n ensures pre[i] == s[i] { }
      }
      WithoutIdKeepsWellFormed(pre, id);
      if last.id != id {
        var r := WithoutId(pre, id);
        WithoutIdMembers(pre, id);
        forall i | 0 <= i < |r| ensures !SameProduct(r[i], last) {
          assert r[i] in pre;
          var j :| 0 <= j < n && pre[j] == r[i];
          assert s[j] == r[i];
        }
      }
    }
  }
}
