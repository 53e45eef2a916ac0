/**
 * The purchase-history page: the order list, kept in the browser's session storage so
 * that later visits in the same session do not reload it, the order whose details are
 * unfolded, the status label of each order and the amounts of its lines.
 */
module HistorialCompras {
  import opened Common
  import AuthContext

  datatype OrderItem = OrderItem(id: int, name: string, quantity: int, price: int, image: string)

  datatype Order = Order(id: int, orderNumber: string, date: string, status: string, total: int, items: seq<OrderItem>)

  /** The session-storage key of the saved history. */
  const HistoryKey := "historialCompras"

  const LoadError := "Error al cargar el historial de compras"

  /**
   * `sessionStorage`, holding order lists. A saved entry is the JSON text of a list, which
   * is never empty and so always truthy; the model keeps the list itself.
   */
  class SessionStorage {
    var items: map<string, seq<Order>>

    constructor (initial: map<string, seq<Order>>)
      ensures items == initial
    {
      items := initial;
    }

    method SetItem(key: string, value: seq<Order>)
      modifies this
      ensures items == old(items)[key := value]
    {
      items := items[key := value];
    }
  }

  /** The orders the page loads: a fixed list standing in for the backend's answer. */
  const SampleOrders: seq<Order> := [
    Order(1, "ORD-2024-001", "2024-01-15", "completed", 125000, [
      OrderItem(1, "Producto Ejemplo 1", 2, 50000, "/placeholder.jpg"),
      OrderItem(2, "Producto Ejemplo 2", 1, 25000, "/placeholder.jpg")]),
    Order(2, "ORD-2024-002", "2024-01-20", "pending", 75000, [
      OrderItem(3, "Producto Ejemplo 3", 1, 75000, "/placeholder.jpg")]),
    Order(3, "ORD-2024-003", "2024-01-25", "cancelled", 95000, [
      OrderItem(4, "Producto Ejemplo 4", 1, 95000, "/placeholder.jpg")])]

  /** The status labels. */
  const Completed := "Completada"
  const Pending := "Pendiente"
  const Cancelled := "Cancelada"
  const Unknown := "Desconocido"

  /** The `text` of `getStatusConfig(status)`. */
  function StatusText(status: string): (text: string)
    ensures status == "completed" ==> text == Completed
    ensures status == "pending" ==> text == Pending
    ensures status == "cancelled" ==> text == Cancelled
    ensures text == Unknown <==> status !in {"completed", "pending", "cancelled"}
  {
    match status
    case "completed" => Completed
    case "pending" => Pending
    case "cancelled" => Cancelled
    case _ => Unknown
  }

  /** Different known statuses get different labels. */
  lemma StatusTextsDistinct(a: string, b: string)
    requires a in {"completed", "pending", "cancelled"} && b in {"completed", "pending", "cancelled"}
    requires a != b
    ensures StatusText(a) != StatusText(b)
  {
    assert Completed[0] == 'C' && Pending[0] == 'P' && Cancelled[2] == 'n' && Completed[2] == 'm';
  }

  /** The amount shown for one line: unit price times quantity. */
  function ItemAmount(item: OrderItem): (amount: int)
    ensures item.quantity == 1 ==> amount == item.price
    ensures item.quantity == 0 ==> amount == 0
  {
    item.price * item.quantity
  }

  /** The sum of the line amounts of an order. */
  function ItemsAmount(items: seq<OrderItem>): (sum: int)
    ensures items == [] ==> sum == 0
    ensures (forall k :: 0 <= k < |items| ==> items[k].quantity >= 0 && items[k].price >= 0) ==> sum >= 0
  {
    if items == [] then 0 else ItemAmount(items[0]) + ItemsAmount(items[1..])
  }

  /** The amount of two runs of lines is the sum of their amounts, so any split of an order adds up. */
  lemma {:induction false} ItemsAmountAppend(a: seq<OrderItem>, b: seq<OrderItem>)
    ensures ItemsAmount(a + b) == ItemsAmount(a) + ItemsAmount(b)
  {
    if a == [] {
      assert a + b == b;
    } else {
      assert (a + b)[1..] == a[1..] + b;
      ItemsAmountAppend(a[1..], b);
    }
  }

  /** In the loaded orders, the total shown for each order is the sum of its line amounts. */
  lemma SampleTotalsMatchLines()
    ensures forall k :: 0 <= k < |SampleOrders| ==> SampleOrders[k].total == ItemsAmount(SampleOrders[k].items)
  {
    var o := SampleOrders;
    assert ItemsAmount(o[0].items) == 125000 by {
      assert o[0].items[1..][1..] == [];
    }
    assert ItemsAmount(o[1].items) == 75000 by {
      assert o[1].items[1..] == [];
    }
    assert ItemsAmount(o[2].items) == 95000 by {
      assert o[2].items[1..] == [];
    }
  }

  /** The label after the item count: singular exactly for one item. */
  function ItemsLabel(count: int): (word: string)
    ensures word == "producto" <==> count == 1
    ensures count != 1 ==> word == "producto" + ['s']
  {
    if count == 1 then "producto" else "productos"
  }

  /** The order unfolded after a click on order `id`: none if it was the unfolded one, otherwise `id`. */
  function NextExpanded(expanded: Option<int>, id: int): (next: Option<int>)
    ensures next == Some(id) <==> expanded != Some(id)
    ensures next.Some? ==> next.value == id
  {
    if expanded == Some(id) then None else Some(id)
  }

  /** Two clicks on the same order restore what was unfolded before, if it was that order or nothing. */
  lemma NextExpandedTwice(expanded: Option<int>, id: int)
    requires expanded == None || expanded == Some(id)
    ensures NextExpanded(NextExpanded(expanded, id), id) == expanded
  {
  }

  /** The orders the page starts with: the saved list, or none. */
  function InitialOrders(saved: map<string, seq<Order>>): (orders: seq<Order>)
    ensures HistoryKey in saved ==> orders == saved[HistoryKey]
    ensures HistoryKey !in saved ==> orders == []
  {
    if HistoryKey in saved then saved[HistoryKey] else []
  }

  class PurchaseHistory {
    var orders: seq<Order>
    var loading: bool
    var expandedOrder: Option<int>
    var errorMessage: string
    /** `hasLoadedRef.current` */
    var hasLoaded: bool
    var navigations: seq<Navigation>
    const session: SessionStorage
    const auth: AuthContext.AuthProvider

    /** The first render: the saved history if there is one; the loading screen only if there is none. */
    constructor (session: SessionStorage, auth: AuthContext.AuthProvider)
      ensures this.session == session && this.auth == auth
      ensures orders == InitialOrders(session.items)
      ensures loading <==> HistoryKey !in session.items
      ensures hasLoaded <==> HistoryKey in session.items
      ensures expandedOrder == None && errorMessage == [] && navigations == []
    {
      this.session := session;
      this.auth := auth;
      orders := InitialOrders(session.items);
      loading := HistoryKey !in session.items;
      hasLoaded := HistoryKey in session.items;
      expandedOrder := None;
      errorMessage := [];
      navigations := [];
    }

    /** The full-page loading screen replaces the page while loading with nothing to show. */
    predicate ShowsLoadingScreen()
      reads this
    {
      loading && orders == []
    }

    /**
     * The effects of the first render: leave for the sign-in page when nobody is signed in,
     * then load the history unless it is already loaded. `storageFull` is whether saving it
     * to session storage throws.
     */
    method Mount(storageFull: bool)
      modifies this, session
      ensures old(!auth.IsAuthenticated()) ==> navigations == old(navigations) + [Navigation("/log-in", None)]
      ensures old(auth.IsAuthenticated()) ==> navigations == old(navigations)
      ensures old(hasLoaded) || old(!auth.IsAuthenticated()) ==>
        orders == old(orders) && loading == old(loading) && hasLoaded == old(hasLoaded) &&
        session.items == old(session.items) && errorMessage == old(errorMessage)
      ensures !old(hasLoaded) && old(auth.IsAuthenticated()) ==>
        orders == SampleOrders && !loading && hasLoaded == !storageFull &&
        session.items == (if storageFull then old(session.items) else old(session.items)[HistoryKey := SampleOrders]) &&
        errorMessage == (if storageFull then LoadError else old(errorMessage))
      ensures expandedOrder == old(expandedOrder)
    {
      var signedIn := auth.IsAuthenticated();
      if !signedIn {
        navigations := navigations + [Navigation("/log-in", None)];
      }
      if hasLoaded {
        return;
      }
      if signedIn {
        FetchOrders(storageFull);
      }
    }

    /** `fetchOrders`: show the orders, save them for the session and mark them loaded. */
    method FetchOrders(storageFull: bool)
      modifies this, session
      ensures orders == SampleOrders && !loading
      ensures storageFull ==> session.items == old(session.items) && hasLoaded == old(hasLoaded) && errorMessage == LoadError
      ensures !storageFull ==> session.items == old(session.items)[HistoryKey := SampleOrders] && hasLoaded && errorMessage == old(errorMessage)
      ensures expandedOrder == old(expandedOrder) && navigations == old(navigations)
    {
      loading := true;
      orders := SampleOrders;
      if storageFull {
        errorMessage := LoadError;
      } else {
        session.SetItem(HistoryKey, SampleOrders);
        hasLoaded := true;
      }
      loading := false;
    }

    /** `toggleOrder(id)` */
    method ToggleOrder(id: int)
      modifies this
      ensures expandedOrder == NextExpanded(old(expandedOrder), id)
      ensures orders == old(orders) && loading == old(loading) && hasLoaded == old(hasLoaded)
      ensures errorMessage == old(errorMessage) && navigations == old(navigations)
    {
      expandedOrder := NextExpanded(expandedOrder, id);
    }
  }

  /** After a successful load, a later visit in the same session starts with the orders and no loading screen. */
  lemma SavedHistorySkipsLoading(saved: map<string, seq<Order>>)
    ensures var after := saved[HistoryKey := SampleOrders];
      InitialOrders(after) == SampleOrders && HistoryKey in after
  {
  }
}
