/**
 * The cart side panel: the cart's lines with plus, minus and trash buttons, and a
 * subtotal summary. The subtotal is a left fold over the lines (`reduce`), proved
 * equal to the plain sum of line amounts, and each button's effect on it is stated.
 */
module CartPage {
  import opened Common
  import opened CartContext

  /** `product.productPrice * product.quantity` */
  function LineAmount(line: CartLine): int
  {
    line.product.productPrice * line.quantity
  }

  /** The sum of the line amounts, line by line from the front. */
  function SumAmounts(items: seq<CartLine>): int
  {
    if items == [] then 0 else LineAmount(items[0]) + SumAmounts(items[1..])
  }

  /** `items.reduce((total, line) => total + amount, acc)` */
  function FoldAmounts(acc: int, items: seq<CartLine>): int
    decreases |items|
  {
    if items == [] then acc else FoldAmounts(acc + LineAmount(items[0]), items[1..])
  }

  lemma {:induction false} FoldIsSum(acc: int, items: seq<CartLine>)
    ensures FoldAmounts(acc, items) == acc + SumAmounts(items)
    decreases |items|
  {
    if items != [] {
      FoldIsSum(acc + LineAmount(items[0]), items[1..]);
    }
  }

  /** `calculateSubtotal`: the sum of price times quantity over the lines, 0 for an empty cart. */
  function CalculateSubtotal(items: seq<CartLine>): (total: int)
    ensures total == SumAmounts(items)
    ensures items == [] ==> total == 0
  {
    FoldIsSum(0, items);
    FoldAmounts(0, items)
  }

  /** The summed unit prices of the lines of product `id`. */
  function PricesOf(items: seq<CartLine>, id: int): int
  {
    if items == [] then 0
    else (if Id(items[0]) == id then items[0].product.productPrice else 0) + PricesOf(items[1..], id)
  }

  /** The summed amounts of the lines of product `id`. */
  function AmountOf(items: seq<CartLine>, id: int): int
  {
    if items == [] then 0
    else (if Id(items[0]) == id then LineAmount(items[0]) else 0) + AmountOf(items[1..], id)
  }

  /** Bumping the lines of `id` adds their unit prices to the sum. */
  lemma {:induction false} SumAfterIncrement(items: seq<CartLine>, id: int)
    ensures SumAmounts(Increment(items, id)) == SumAmounts(items) + PricesOf(items, id)
  {
    if items != [] {
      SumAfterIncrement(items[1..], id);
      assert Increment(items, id)[1..] == Increment(items[1..], id);
    }
  }

  /** Dropping the lines of `id` takes their amounts off the sum. */
  lemma {:induction false} SumAfterRemove(items: seq<CartLine>, id: int)
    ensures SumAmounts(RemoveId(items, id)) == SumAmounts(items) - AmountOf(items, id)
  {
    if items != [] {
      SumAfterRemove(items[1..], id);
    }
  }

  /** In a well-formed cart, the lines of a product are just the one line. */
  lemma {:induction false} OnlyLine(items: seq<CartLine>, k: int)
    requires WellFormed(items) && 0 <= k < |items|
    ensures PricesOf(items, Id(items[k])) == items[k].product.productPrice
    ensures AmountOf(items, Id(items[k])) == LineAmount(items[k])
  {
    var id := Id(items[k]);
    if k == 0 {
      NoOtherLine(items[1..], id);
    } else {
      assert Id(items[0]) != id;
      assert WellFormed(items[1..]);
      assert items[1..][k - 1] == items[k];
      OnlyLine(items[1..], k - 1);
    }
  }

  lemma {:induction false} NoOtherLine(items: seq<CartLine>, id: int)
    requires forall i :: 0 <= i < |items| ==> Id(items[i]) != id
    ensures PricesOf(items, id) == 0 && AmountOf(items, id) == 0
  {
    if items != [] {
      NoOtherLine(items[1..], id);
    }
  }

  /** The plus button of line `k` raises the subtotal by that product's unit price. */
  lemma SubtotalAfterPlus(items: seq<CartLine>, k: int)
    requires WellFormed(items) && 0 <= k < |items|
    ensures CalculateSubtotal(AddLine(items, items[k].product)) == CalculateSubtotal(items) + items[k].product.productPrice
  {
    assert HasId(items, items[k].product.idProduct);
    SumAfterIncrement(items, Id(items[k]));
    OnlyLine(items, k);
  }

  /** The minus button of line `k` takes that whole line's amount off the subtotal. */
  lemma SubtotalAfterMinus(items: seq<CartLine>, k: int)
    requires WellFormed(items) && 0 <= k < |items|
    ensures CalculateSubtotal(RemoveId(items, Id(items[k]))) == CalculateSubtotal(items) - LineAmount(items[k])
  {
    SumAfterRemove(items, Id(items[k]));
    OnlyLine(items, k);
  }

  /** The keys of the object the cart provider supplies. */
  const ProvidedKeys := {"cartItems", "addToCart", "removeFromCart", "updateQuantity", "clearCart", "getTotalItems", "isOpen", "setIsOpen"}

  /** A flag read from the cart context: the store's `isOpen` under that key, `undefined` under a key it lacks. */
  function FlagOf(store: CartStore, key: string): (v: Option<bool>)
    reads store
    ensures key !in ProvidedKeys ==> v.None?
    ensures key == "isOpen" ==> v == Some(store.isOpen)
  {
    if key == "isOpen" then Some(store.isOpen) else None
  }

  /** A list read from the cart context: the store's lines under `cartItems`, `undefined` under a key it lacks. */
  function ListOf(store: CartStore, key: string): (v: Option<seq<CartLine>>)
    reads store
    ensures key !in ProvidedKeys ==> v.None?
    ensures key == "cartItems" ==> v == Some(store.cartItems)
  {
    if key == "cartItems" then Some(store.cartItems) else None
  }

  /** What rendering the panel gives: whether the dialog shows and the lines it lists, or the error thrown. */
  datatype Render = Rendered(open: bool, listed: seq<CartLine>) | Threw(message: string)

  /** The `TypeError` text of reading `length` from `undefined`. */
  const LengthOfUndefined := "Cannot read properties of undefined (reading 'length')"

  /**
   * Rendering the panel from the flag and the list it read from the context. `isAuthenticated`
   * is a function and so always truthy, and `cart.length > 0` is evaluated while the dialog's
   * children are built, whether the dialog shows or not.
   */
  function RenderWith(flag: Option<bool>, cart: Option<seq<CartLine>>): Render
  {
    if cart.None? then Threw(LengthOfUndefined)
    else Rendered(flag == Some(true), ListedLines(flag == Some(true), cart.value))
  }

  /** The panel as written reads `isCartOpen` and `cart`. */
  function RenderAsWritten(store: CartStore): Render
    reads store
  {
    RenderWith(FlagOf(store, "isCartOpen"), ListOf(store, "cart"))
  }

  /**
   * As written, every render throws, whatever the cart holds: the context supplies neither
   * `cart` nor `isCartOpen`.
   */
  lemma NeverRendersAsWritten(store: CartStore)
    ensures RenderAsWritten(store) == Threw(LengthOfUndefined)
  {
    assert "cart" !in ProvidedKeys;
  }

  /** The panel wired to `isOpen` and `cartItems`, the keys the context supplies. */
  function RenderWired(store: CartStore): Render
    reads store
  {
    RenderWith(FlagOf(store, "isOpen"), ListOf(store, "cartItems"))
  }

  /** Wired, the panel renders, shows exactly while the store is open, and then lists every line. */
  lemma WiredRenders(store: CartStore)
    ensures RenderWired(store) == Rendered(store.isOpen, ListedLines(store.isOpen, store.cartItems))
  {
  }

  /** The lines the panel lists when wired to the store: all of them while open, none while closed. */
  function ListedLines(open: bool, items: seq<CartLine>): seq<CartLine>
  {
    if open then items else []
  }

  /**
   * Wired to the store, adding a product (which also opens the store) makes the panel list
   * a line for that product, and leaves every other product's line listed.
   */
  lemma AddedProductListed(items: seq<CartLine>, product: Product)
    ensures HasId(ListedLines(true, AddLine(items, product)), product.idProduct)
    ensures forall id :: HasId(items, id) ==> HasId(ListedLines(true, AddLine(items, product)), id)
  {
    var r := AddLine(items, product);
    if HasId(items, product.idProduct) {
      var i :| 0 <= i < |items| && Id(items[i]) == product.idProduct;
      assert Id(r[i]) == product.idProduct;
    } else {
      assert Id(r[|items|]) == product.idProduct;
    }
    forall id | HasId(items, id)
      ensures HasId(r, id)
    {
      var i :| 0 <= i < |items| && Id(items[i]) == id;
      assert Id(r[i]) == id;
    }
  }

  /**
   * The panel. `isAuthenticated` is read as the context's function, which is always
   * truthy, so the sign-in prompt never shows and the summary depends on the lines alone.
   */
  class CartPanel {
    const store: CartStore

    constructor (store: CartStore)
      ensures this.store == store
    {
      this.store := store;
    }

    function Subtotal(): (total: int)
      reads store
      ensures total == SumAmounts(store.cartItems)
    {
      CalculateSubtotal(store.cartItems)
    }

    /** The dialog shows while the store is open (the context's `isOpen`). */
    predicate Open()
      reads store
    {
      store.isOpen
    }

    /** The lines the panel lists. */
    function Listed(): seq<CartLine>
      reads store
    {
      ListedLines(store.isOpen, store.cartItems)
    }

    /** The close button and the dialog's `onClose`: `setIsOpen(false)`, which keeps the lines. */
    method Close()
      modifies store
      ensures !Open() && Listed() == [] && store.cartItems == old(store.cartItems)
    {
      store.SetIsOpen(false);
    }

    /** The subtotal section: shown exactly when the cart has lines. */
    predicate SummaryShown()
      reads store
    {
      |store.cartItems| > 0
    }

    /** The plus button of line `k`: `addToCart(product)`. */
    method Plus(k: int)
      requires store.Valid() && 0 <= k < |store.cartItems|
      modifies store
      ensures store.Valid() && store.cartItems == AddLine(old(store.cartItems), old(store.cartItems[k].product))
      ensures Subtotal() == old(Subtotal()) + old(store.cartItems[k].product.productPrice)
      ensures SummaryShown()
      ensures store.isOpen
    {
      ghost var before := store.cartItems;
      SubtotalAfterPlus(before, k);
      store.AddToCart(store.cartItems[k].product);
    }

    /** The minus button of line `k`: `removeFromCart(idProduct)`, which drops the whole line. */
    method Minus(k: int)
      requires store.Valid() && 0 <= k < |store.cartItems|
      modifies store
      ensures store.Valid() && store.cartItems == RemoveId(old(store.cartItems), old(Id(store.cartItems[k])))
      ensures Subtotal() == old(Subtotal()) - old(LineAmount(store.cartItems[k]))
      ensures |store.cartItems| == old(|store.cartItems|) - 1
      ensures store.isOpen == old(store.isOpen)
    {
      ghost var before := store.cartItems;
      SubtotalAfterMinus(before, k);
      LinesOfUnique(before, Id(before[k]));
      RemovedOneLine(before, k);
      store.RemoveFromCart(Id(store.cartItems[k]));
    }

    /** The trash button of any line: `clearCart`, which empties the whole cart. */
    method Trash(k: int)
      modifies store
      ensures store.cartItems == [] && !store.isOpen
      ensures Subtotal() == 0 && !SummaryShown()
    {
      store.ClearCart();
    }
  }

  /** Removing a product present once shortens the cart by one line. */
  lemma {:induction false} RemovedOneLine(items: seq<CartLine>, k: int)
    requires WellFormed(items) && 0 <= k < |items|
    ensures |RemoveId(items, Id(items[k]))| == |items| - 1
  {
    LinesOfUnique(items, Id(items[k]));
    assert HasId(items, Id(items[k]));
    RemoveLength(items, Id(items[k]));
  }

  lemma {:induction false} RemoveLength(items: seq<CartLine>, id: int)
    ensures |RemoveId(items, id)| == |items| - LinesOf(items, id)
  {
    if items != [] {
      RemoveLength(items[1..], id);
    }
  }
}
