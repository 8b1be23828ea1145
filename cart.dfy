/** The CartContext store: an ordered sequence of cart lines. `addToCart`
    merges on the product id `id` (not on the `cartItemId` the pages build),
    `removeFromCart` filters on it, and `total`/`totalQuantity` are folds. */
module Cart {
  import opened Wrappers
  import opened Seqs

  /** One line of `cartItems`; `id` is the product's `_id`. */
  datatype CartLine = CartLine(
    cartItemId: string, id: string, name: string,
    size: nat, price: real, image: string, quantity: int)

  /** The object a page hands to `addToCart`. ProductDetailsPage sends no quantity,
      DiscoverySetPage sends 1; either way the store overwrites it. */
  datatype ItemToAdd = ItemToAdd(
    cartItemId: string, id: string, name: string,
    size: nat, price: real, image: string, quantity: Option<int>)

  /** `{ ...product, quantity: 1 }`: the incoming item's fields with the quantity forced to 1. */
  function NewLine(item: ItemToAdd): (l: CartLine)
    ensures l.quantity == 1
    ensures l.cartItemId == item.cartItemId && l.id == item.id && l.name == item.name
    ensures l.size == item.size && l.price == item.price && l.image == item.image
  {
    CartLine(item.cartItemId, item.id, item.name, item.size, item.price, item.image, 1)
  }

  function Bumped(l: CartLine): CartLine
  {
    l.(quantity := l.quantity + 1)
  }

  /** `prevItems.find(item => item.id === id)` succeeds. */
  predicate HasId(lines: seq<CartLine>, id: string)
  {
    exists i :: 0 <= i < |lines| && lines[i].id == id
  }

  /** The `map` of the merge branch: every line with the id gets one more unit. */
  function Increment(lines: seq<CartLine>, id: string): (r: seq<CartLine>)
    ensures |r| == |lines|
    ensures forall i :: 0 <= i < |lines| ==>
      r[i] == if lines[i].id == id then Bumped(lines[i]) else lines[i]
  {
    if lines == [] then []
    else [if lines[0].id == id then Bumped(lines[0]) else lines[0]] + Increment(lines[1..], id)
  }

  /** `addToCart(product)` as a function of the previous lines. */
  function AddLine(lines: seq<CartLine>, item: ItemToAdd): (r: seq<CartLine>)
    ensures HasId(lines, item.id) ==> |r| == |lines| && forall i :: 0 <= i < |lines| ==>
      r[i] == if lines[i].id == item.id then Bumped(lines[i]) else lines[i]
    ensures !HasId(lines, item.id) ==>
      |r| == |lines| + 1 && r[..|lines|] == lines && r[|lines|] == NewLine(item)
  {
    if HasId(lines, item.id) then Increment(lines, item.id) else lines + [NewLine(item)]
  }

  /** `removeFromCart(productId)`: keeps, in order, every line with another id. */
  function RemoveLines(lines: seq<CartLine>, id: string): (r: seq<CartLine>)
    ensures |r| <= |lines|
    ensures forall l :: l in r <==> l in lines && l.id != id
  {
    Filter(lines, (l: CartLine) => l.id != id)
  }


  /** The amount of one line: unit price times quantity. */
  function LineAmount(l: CartLine): real
  {
    l.price * (l.quantity as real)
  }

  /** `total`: the sum of price times quantity over the lines (exact real arithmetic). */
  function Total(lines: seq<CartLine>): (r: real)
    ensures lines == [] ==> r == 0.0
    ensures (forall i :: 0 <= i < |lines| ==> lines[i].price >= 0.0 && lines[i].quantity >= 0) ==> r >= 0.0
  {
    if lines == [] then 0.0 else LineAmount(lines[0]) + Total(lines[1..])
  }

  /** `totalQuantity`: the sum of the quantities, the header's badge count. */
  function TotalQuantity(lines: seq<CartLine>): (r: int)
    ensures lines == [] ==> r == 0
    ensures (forall i :: 0 <= i < |lines| ==> lines[i].quantity >= 1) ==> r >= |lines|
  {
    if lines == [] then 0 else lines[0].quantity + TotalQuantity(lines[1..])
  }

  predicate DistinctIds(lines: seq<CartLine>)
  {
    forall i, j :: 0 <= i < j < |lines| ==> lines[i].id != lines[j].id
  }

  /** The store's invariant: one line per product id, and no line with a quantity below 1. */
  predicate ValidCart(lines: seq<CartLine>)
  {
    DistinctIds(lines) && forall i :: 0 <= i < |lines| ==> lines[i].quantity >= 1
  }

  lemma AddPreservesValid(lines: seq<CartLine>, item: ItemToAdd)
    requires ValidCart(lines)
    ensures ValidCart(AddLine(lines, item))
  {
    var r := AddLine(lines, item);
    if !HasId(lines, item.id) {
      forall i, j | 0 <= i < j < |r| ensures r[i].id != r[j].id {
        if j == |lines| {
          assert r[i] == lines[i];
        }
      }
    }
  }

  lemma {:induction false} RemovePreservesValid(lines: seq<CartLine>, id: string)
    requires ValidCart(lines)
    ensures ValidCart(RemoveLines(lines, id))
  {
    if lines != [] {
      var rest := lines[1..];
      assert ValidCart(rest) by {
        forall i, j | 0 <= i < j < |rest| ensures rest[i].id != rest[j].id {
          assert rest[i] == lines[i + 1] && rest[j] == lines[j + 1];
        }
      }
      RemovePreservesValid(rest, id);
      var tail := RemoveLines(rest, id);
      if lines[0].id != id {
        var r := [lines[0]] + tail;
        forall j | 0 < j < |r| ensures r[0].id != r[j].id {
          assert r[j] in tail;
          var k :| 0 <= k < |rest| && rest[k] == r[j];
          assert rest[k] == lines[k + 1];
        }
      }
    }
  }

  lemma RemoveConcat(a: seq<CartLine>, b: seq<CartLine>, id: string)
    ensures RemoveLines(a + b, id) == RemoveLines(a, id) + RemoveLines(b, id)
  {
    FilterConcat(a, b, (l: CartLine) => l.id != id);
  }


  /** Removing an id that no line carries is a no-op. */
  lemma RemoveAbsent(lines: seq<CartLine>, id: string)
    requires !HasId(lines, id)
    ensures RemoveLines(lines, id) == lines
  {
    FilterAllKept(lines, (l: CartLine) => l.id != id);
  }


  /** Adding a product not yet in the cart and then removing it restores the cart. */
  lemma RemoveAfterAddNew(lines: seq<CartLine>, item: ItemToAdd)
    requires !HasId(lines, item.id)
    ensures RemoveLines(AddLine(lines, item), item.id) == lines
  {
    assert AddLine(lines, item) == lines + [NewLine(item)];
    RemoveConcat(lines, [NewLine(item)], item.id);
    RemoveAbsent(lines, item.id);
    assert RemoveLines([NewLine(item)], item.id) == RemoveLines([], item.id) == [];
  }

  /** Two adds with the same product id, whatever their cartItemId, size, price or name,
      give ONE new line: the first item's fields with quantity 2. */
  lemma SameIdCollapses(lines: seq<CartLine>, first: ItemToAdd, second: ItemToAdd)
    requires !HasId(lines, first.id) && second.id == first.id
    ensures AddLine(AddLine(lines, first), second) == lines + [NewLine(first).(quantity := 2)]
  {
    var once := AddLine(lines, first);
    assert once[|lines|].id == second.id;
    assert HasId(once, second.id);
    var twice := AddLine(once, second);
    assert |twice| == |lines| + 1;
    forall i | 0 <= i < |twice| ensures twice[i] == (lines + [NewLine(first).(quantity := 2)])[i] {
      if i < |lines| {
        assert once[i] == lines[i];
        assert lines[i].id != first.id;
      }
    }
  }

  lemma {:induction false} TotalsConcat(a: seq<CartLine>, b: seq<CartLine>)
    ensures Total(a + b) == Total(a) + Total(b)
    ensures TotalQuantity(a + b) == TotalQuantity(a) + TotalQuantity(b)
  {
    if a == [] {
      assert a + b == b;
    } else {
      assert (a + b)[0] == a[0] && (a + b)[1..] == a[1..] + b;
      TotalsConcat(a[1..], b);
    }
  }

  /** One more unit of a line adds exactly its unit price to the line's amount. */
  lemma BumpedAmount(l: CartLine)
    ensures LineAmount(Bumped(l)) == LineAmount(l) + l.price
  {
    assert (l.quantity + 1) as real == l.quantity as real + 1.0;
  }

  /** Bumping the one line that holds the id adds exactly that line's price and one unit. */
  lemma {:induction false} IncrementTotals(lines: seq<CartLine>, k: nat)
    requires DistinctIds(lines) && k < |lines|
    ensures Total(Increment(lines, lines[k].id)) == Total(lines) + lines[k].price
    ensures TotalQuantity(Increment(lines, lines[k].id)) == TotalQuantity(lines) + 1
  {
    var id := lines[k].id;
    var r := Increment(lines, id);
    var rest := lines[1..];
    assert r[1..] == Increment(rest, id);
    if k == 0 {
      BumpedAmount(lines[0]);
      assert Increment(rest, id) == rest by {
        forall i | 0 <= i < |rest| ensures rest[i].id != id {
          assert rest[i] == lines[i + 1];
        }
      }
    } else {
      assert DistinctIds(rest) by {
        forall i, j | 0 <= i < j < |rest| ensures rest[i].id != rest[j].id {
          assert rest[i] == lines[i + 1] && rest[j] == lines[j + 1];
        }
      }
      assert rest[k - 1] == lines[k];
      IncrementTotals(rest, k - 1);
    }
  }

  /** Every add raises `totalQuantity` by exactly 1 and `total` by the unit price of the
      line that absorbs it: the existing line's price when the id is present, else the item's. */
  lemma AddTotals(lines: seq<CartLine>, item: ItemToAdd)
    requires DistinctIds(lines)
    ensures TotalQuantity(AddLine(lines, item)) == TotalQuantity(lines) + 1
    ensures !HasId(lines, item.id) ==> Total(AddLine(lines, item)) == Total(lines) + item.price
    ensures forall k :: 0 <= k < |lines| && lines[k].id == item.id ==>
      Total(AddLine(lines, item)) == Total(lines) + lines[k].price
  {
    if HasId(lines, item.id) {
      var k :| 0 <= k < |lines| && lines[k].id == item.id;
      IncrementTotals(lines, k);
      forall j | 0 <= j < |lines| && lines[j].id == item.id ensures lines[j] == lines[k] {
      }
    } else {
      TotalsConcat(lines, [NewLine(item)]);
      assert Total([NewLine(item)]) == item.price;
    }
  }

  /** Removing a product deletes its whole line: the totals drop by that line's quantity and amount. */
  lemma {:induction false} RemoveTotals(lines: seq<CartLine>, k: nat)
    requires DistinctIds(lines) && k < |lines|
    ensures TotalQuantity(RemoveLines(lines, lines[k].id)) == TotalQuantity(lines) - lines[k].quantity
    ensures Total(RemoveLines(lines, lines[k].id)) == Total(lines) - LineAmount(lines[k])
  {
    var id := lines[k].id;
    var rest := lines[1..];
    if k == 0 {
      assert !HasId(rest, id) by {
        forall i | 0 <= i < |rest| ensures rest[i].id != id {
          assert rest[i] == lines[i + 1];
        }
      }
      RemoveAbsent(rest, id);
    } else {
      assert DistinctIds(rest) by {
        forall i, j | 0 <= i < j < |rest| ensures rest[i].id != rest[j].id {
          assert rest[i] == lines[i + 1] && rest[j] == lines[j + 1];
        }
      }
      assert rest[k - 1] == lines[k];
      RemoveTotals(rest, k - 1);
    }
  }

  /** The CartProvider's state slot `cartItems`. */
  class CartStore {
    var cartItems: seq<CartLine>

    ghost predicate Valid()
      reads this
    {
      ValidCart(cartItems)
    }

    constructor ()
      ensures Valid() && cartItems == []
    {
      cartItems := [];
    }

    /** `addToCart(product)`. */
    method AddToCart(product: ItemToAdd)
      requires Valid()
      modifies this
      ensures Valid()
      ensures cartItems == AddLine(old(cartItems), product)
      ensures TotalQuantity(cartItems) == TotalQuantity(old(cartItems)) + 1
    {
      AddPreservesValid(cartItems, product);
      AddTotals(cartItems, product);
      cartItems := AddLine(cartItems, product);
    }

    /** `removeFromCart(productId)`. */
    method RemoveFromCart(productId: string)
      requires Valid()
      modifies this
      ensures Valid()
      ensures cartItems == RemoveLines(old(cartItems), productId)
    {
      RemovePreservesValid(cartItems, productId);
      cartItems := RemoveLines(cartItems, productId);
    }
  }
}
