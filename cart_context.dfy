/**
 * The cart store: an ordered sequence of lines, at most one per `idProduct`, and the
 * `isOpen` flag of the cart panel. Each store operation hands React a pure updater over
 * the previous lines; those updaters are the functions below, and `CartStore` applies them.
 */
module CartContext {
  import opened Common

  /** A cart line `{ ...product, quantity }`. */
  datatype CartLine = CartLine(product: Product, quantity: int)

  function Id(line: CartLine): int
  {
    line.product.idProduct
  }

  predicate HasId(items: seq<CartLine>, id: int)
  {
    exists i :: 0 <= i < |items| && Id(items[i]) == id
  }

  /** The store's invariant: ids are unique and every quantity is at least 1. */
  predicate WellFormed(items: seq<CartLine>)
  {
    && (forall i, j :: 0 <= i < j < |items| ==> Id(items[i]) != Id(items[j]))
    && (forall i :: 0 <= i < |items| ==> items[i].quantity >= 1)
  }

  /** The `map` in `addToCart` that bumps the matching line by one. */
  function Increment(items: seq<CartLine>, id: int): (r: seq<CartLine>)
  {
    seq(|items|, i requires 0 <= i < |items| =>
      if Id(items[i]) == id then items[i].(quantity := items[i].quantity + 1) else items[i])
  }

  /** The updater of `addToCart`: increment an existing line, or append a new line with quantity 1. */
  function AddLine(items: seq<CartLine>, product: Product): (r: seq<CartLine>)
    ensures !HasId(items, product.idProduct) ==>
      |r| == |items| + 1 && r[..|items|] == items && r[|items|] == CartLine(product, 1)
    ensures HasId(items, product.idProduct) ==>
      |r| == |items| &&
      forall i :: 0 <= i < |items| ==>
        r[i].product == items[i].product &&
        r[i].quantity == items[i].quantity + (if Id(items[i]) == product.idProduct then 1 else 0)
  {
    if HasId(items, product.idProduct) then Increment(items, product.idProduct)
    else items + [CartLine(product, 1)]
  }

  /** The updater of `removeFromCart`: the `filter` that keeps the lines of other products. */
  function RemoveId(items: seq<CartLine>, id: int): (r: seq<CartLine>)
    ensures !HasId(r, id)
    ensures forall line :: line in r <==> line in items && Id(line) != id
    ensures !HasId(items, id) ==> r == items
    ensures IsSubsequence(r, items)
  {
    if items == [] then []
    else if Id(items[0]) == id then RemoveId(items[1..], id)
    else
      var rest := RemoveId(items[1..], id);
      assert !HasId(items[1..], id) ==> rest == items[1..];
      assert items == [items[0]] + items[1..];
      [items[0]] + rest
  }

  /** The updater of `updateQuantity` for a positive quantity: the `map` that sets the matching line. */
  function SetQuantity(items: seq<CartLine>, id: int, quantity: int): (r: seq<CartLine>)
  {
    seq(|items|, i requires 0 <= i < |items| =>
      if Id(items[i]) == id then items[i].(quantity := quantity) else items[i])
  }

  /** `getTotalItems`: the sum of the line quantities. */
  function TotalItems(items: seq<CartLine>): int
  {
    if items == [] then 0 else items[0].quantity + TotalItems(items[1..])
  }

  /** The summed quantity of the lines of product `id`. */
  function QuantityOf(items: seq<CartLine>, id: int): int
  {
    if items == [] then 0
    else (if Id(items[0]) == id then items[0].quantity else 0) + QuantityOf(items[1..], id)
  }

  /** The number of lines of product `id`. */
  function LinesOf(items: seq<CartLine>, id: int): nat
  {
    if items == [] then 0 else (if Id(items[0]) == id then 1 else 0) + LinesOf(items[1..], id)
  }

  lemma {:induction false} LinesOfUnique(items: seq<CartLine>, id: int)
    requires WellFormed(items)
    ensures LinesOf(items, id) == if HasId(items, id) then 1 else 0
  {
    if items != [] {
      LinesOfUnique(items[1..], id);
      if Id(items[0]) == id {
        assert !HasId(items[1..], id) by {
          forall i | 0 <= i < |items| - 1 ensures Id(items[1..][i]) != id {
            assert Id(items[i + 1]) != Id(items[0]);
          }
        }
      } else {
        assert HasId(items, id) ==> HasId(items[1..], id) by {
          if HasId(items, id) {
            var i :| 0 <= i < |items| && Id(items[i]) == id;
            assert Id(items[1..][i - 1]) == id;
          }
        }
        assert HasId(items[1..], id) ==> HasId(items, id) by {
          if HasId(items[1..], id) {
            var i :| 0 <= i < |items| - 1 && Id(items[1..][i]) == id;
            assert Id(items[i + 1]) == id;
          }
        }
      }
    }
  }

  /** Incrementing adds one unit per matching line. */
  lemma {:induction false} TotalAfterIncrement(items: seq<CartLine>, id: int)
    ensures TotalItems(Increment(items, id)) == TotalItems(items) + LinesOf(items, id)
  {
    if items != [] {
      TotalAfterIncrement(items[1..], id);
      assert Increment(items, id)[1..] == Increment(items[1..], id);
    }
  }

  /** `addToCart` adds exactly one unit to a well-formed cart, whether it appends or increments. */
  lemma TotalAfterAdd(items: seq<CartLine>, product: Product)
    requires WellFormed(items)
    ensures TotalItems(AddLine(items, product)) == TotalItems(items) + 1
  {
    if HasId(items, product.idProduct) {
      TotalAfterIncrement(items, product.idProduct);
      LinesOfUnique(items, product.idProduct);
    } else {
      TotalAppend(items, [CartLine(product, 1)]);
    }
  }

  lemma {:induction false} TotalAppend(a: seq<CartLine>, b: seq<CartLine>)
    ensures TotalItems(a + b) == TotalItems(a) + TotalItems(b)
  {
    if a == [] {
      assert a + b == b;
    } else {
      assert (a + b)[1..] == a[1..] + b;
      TotalAppend(a[1..], b);
    }
  }

  /** Removing a product takes away exactly the units of its lines. */
  lemma {:induction false} TotalAfterRemove(items: seq<CartLine>, id: int)
    ensures TotalItems(RemoveId(items, id)) == TotalItems(items) - QuantityOf(items, id)
  {
    if items != [] {
      TotalAfterRemove(items[1..], id);
    }
  }

  /** Setting a quantity replaces the units of the product's lines by `quantity` per line. */
  lemma {:induction false} TotalAfterSetQuantity(items: seq<CartLine>, id: int, quantity: int)
    ensures TotalItems(SetQuantity(items, id, quantity))
         == TotalItems(items) - QuantityOf(items, id) + quantity * LinesOf(items, id)
  {
    if items != [] {
      TotalAfterSetQuantity(items[1..], id, quantity);
      assert SetQuantity(items, id, quantity)[1..] == SetQuantity(items[1..], id, quantity);
    }
  }

  /** In a well-formed cart every line holds at least one unit, so the total is 0 exactly when the cart is empty. */
  lemma {:induction false} TotalBounds(items: seq<CartLine>)
    requires WellFormed(items)
    ensures TotalItems(items) >= |items|
    ensures TotalItems(items) == 0 <==> items == []
  {
    if items != [] {
      assert WellFormed(items[1..]) by {
        forall i, j | 0 <= i < j < |items| - 1 ensures Id(items[1..][i]) != Id(items[1..][j]) {
          assert Id(items[i + 1]) != Id(items[j + 1]);
        }
      }
      TotalBounds(items[1..]);
    }
  }

  lemma AddLinePreserves(items: seq<CartLine>, product: Product)
    requires WellFormed(items)
    ensures WellFormed(AddLine(items, product))
  {
    var r := AddLine(items, product);
    if !HasId(items, product.idProduct) {
      forall i, j | 0 <= i < j < |r| ensures Id(r[i]) != Id(r[j]) {
        if j == |items| {
          assert Id(items[i]) != product.idProduct;
        } else {
          assert r[i] == items[i] && r[j] == items[j];
        }
      }
    }
  }

  lemma RemoveIdPreserves(items: seq<CartLine>, id: int)
    requires WellFormed(items)
    ensures WellFormed(RemoveId(items, id))
  {
    SubsequenceWellFormed(RemoveId(items, id), items);
  }

  lemma {:induction false} SubsequenceWellFormed(a: seq<CartLine>, b: seq<CartLine>)
    requires IsSubsequence(a, b) && WellFormed(b)
    ensures WellFormed(a)
  {
    if a != [] {
      assert WellFormed(b[1..]) by {
        forall i, j | 0 <= i < j < |b| - 1 ensures Id(b[1..][i]) != Id(b[1..][j]) {
          assert Id(b[i + 1]) != Id(b[j + 1]);
        }
      }
      if a[0] == b[0] && IsSubsequence(a[1..], b[1..]) {
        SubsequenceWellFormed(a[1..], b[1..]);
        forall j | 0 < j < |a| ensures Id(a[0]) != Id(a[j]) {
          SubsequenceMember(a[1..], b[1..], j - 1);
          var k :| 0 <= k < |b| - 1 && b[1..][k] == a[j];
          assert Id(b[0]) != Id(b[k + 1]);
        }
      } else {
        SubsequenceWellFormed(a, b[1..]);
      }
    }
  }

  lemma {:induction false} SubsequenceMember<T>(a: seq<T>, b: seq<T>, j: int)
    requires IsSubsequence(a, b) && 0 <= j < |a|
    ensures exists k :: 0 <= k < |b| && b[k] == a[j]
  {
    if a[0] == b[0] && IsSubsequence(a[1..], b[1..]) {
      if j == 0 {
        assert b[0] == a[0];
      } else {
        SubsequenceMember(a[1..], b[1..], j - 1);
        var k :| 0 <= k < |b| - 1 && b[1..][k] == a[1..][j - 1];
        assert b[k + 1] == a[j];
      }
    } else {
      SubsequenceMember(a, b[1..], j);
      var k :| 0 <= k < |b| - 1 && b[1..][k] == a[j];
      assert b[k + 1] == a[j];
    }
  }

  /** The store: `cartItems` and `isOpen`, replaced by each operation. */
  class CartStore {
    var cartItems: seq<CartLine>
    var isOpen: bool

    predicate Valid()
      reads this
    {
      WellFormed(cartItems)
    }

    constructor ()
      ensures Valid() && cartItems == [] && !isOpen
    {
      cartItems := [];
      isOpen := false;
    }

    method AddToCart(product: Product)
      requires Valid()
      modifies this
      ensures Valid()
      ensures cartItems == AddLine(old(cartItems), product)
      ensures isOpen
    {
      AddLinePreserves(cartItems, product);
      cartItems := AddLine(cartItems, product);
      isOpen := true;
    }

    method RemoveFromCart(productId: int)
      requires Valid()
      modifies this
      ensures Valid()
      ensures cartItems == RemoveId(old(cartItems), productId)
      ensures isOpen == old(isOpen)
    {
      RemoveIdPreserves(cartItems, productId);
      cartItems := RemoveId(cartItems, productId);
    }

    method UpdateQuantity(productId: int, quantity: int)
      requires Valid()
      modifies this
      ensures Valid()
      ensures quantity <= 0 ==> cartItems == RemoveId(old(cartItems), productId)
      ensures quantity > 0 ==> cartItems == SetQuantity(old(cartItems), productId, quantity)
      ensures quantity > 0 ==> |cartItems| == |old(cartItems)| && (!HasId(old(cartItems), productId) ==> cartItems == old(cartItems))
      ensures isOpen == old(isOpen)
    {
      if quantity <= 0 {
        RemoveFromCart(productId);
        return;
      }
      cartItems := SetQuantity(cartItems, productId, quantity);
    }

    method ClearCart()
      modifies this
      ensures Valid() && cartItems == [] && !isOpen
    {
      cartItems := [];
      isOpen := false;
    }

    /** The `setIsOpen` the store exposes to its consumers. */
    method SetIsOpen(open: bool)
      modifies this
      ensures isOpen == open && cartItems == old(cartItems)
    {
      isOpen := open;
    }

    /** `getTotalItems()`: never below the number of lines, and 0 exactly for an empty cart. */
    function GetTotalItems(): (total: int)
      reads this
      requires Valid()
      ensures total >= |cartItems|
      ensures total == 0 <==> cartItems == []
    {
      TotalBounds(cartItems);
      TotalItems(cartItems)
    }
  }
}
