/** The orders page: its state, the view it renders from that state, the
    archive filter over the order list, its click handlers, and the two save
    handlers that turn an edit into an API request. The fetches, the requests
    and the browser are outside: a fetch result or a request outcome arrives as
    a parameter, and a navigation is returned as a route. */
module Orders {
  import opened Domain

  const ShippedStatus: string := "Shipped"
  const OrdersRoute: string := "/orders"
  const LoginRoute: string := "/login"

  /** Error texts the page stores. The orders fetch reports the products text too. */
  const CustomersLoadError: string := "Ошибка при загрузке заказчиков"
  const ProductsLoadError: string := "Ошибка при загрузке продуктов"
  const SaveFallbackError: string := "Ошибка сохранения"
  /** What the JavaScript engine reports when `selectedOrder!.customerId` is read on null,
      in a save handler or in the editor's render. */
  const NullSelectionError: string := "Cannot read properties of null (reading 'customerId')"

  // ---------------------------------------------------------------------------
  // The archive filter

  predicate IsShipped(o: Order) {
    o.status == ShippedStatus
  }

  /** The orders listed: the shipped ones when `showArchived`, the others otherwise. */
  function FilteredOrders(orders: seq<Order>, showArchived: bool): (r: seq<Order>)
    ensures |r| <= |orders|
    ensures forall k :: 0 <= k < |r| ==> IsShipped(r[k]) == showArchived
    ensures forall o :: o in orders ==> (o in r <==> IsShipped(o) == showArchived)
  {
    if orders == [] then []
    else
      var rest := FilteredOrders(orders[1..], showArchived);
      assert forall o :: o in orders ==> o == orders[0] || o in orders[1..];
      if IsShipped(orders[0]) == showArchived then [orders[0]] + rest else rest
  }

  /** The archive and the active list split the orders: together they hold every
      order exactly as often as the page does. */
  lemma {:induction false} FilterPartition(orders: seq<Order>)
    ensures |FilteredOrders(orders, true)| + |FilteredOrders(orders, false)| == |orders|
    ensures multiset(FilteredOrders(orders, true)) + multiset(FilteredOrders(orders, false))
            == multiset(orders)
  {
    if orders != [] {
      FilterPartition(orders[1..]);
      assert orders == [orders[0]] + orders[1..];
    }
  }

  /** `rest` moved one position to the right. */
  lemma ShiftPositions(rest: seq<int>, n: nat) returns (shifted: seq<int>)
    requires forall k :: 0 <= k < |rest| ==> 0 <= rest[k] < n
    requires forall k, l :: 0 <= k < l < |rest| ==> rest[k] < rest[l]
    ensures |shifted| == |rest|
    ensures forall k :: 0 <= k < |rest| ==> shifted[k] == rest[k] + 1
    ensures forall k :: 0 <= k < |shifted| ==> 1 <= shifted[k] < n + 1
    ensures forall k, l :: 0 <= k < l < |shifted| ==> shifted[k] < shifted[l]
    ensures forall j :: j in shifted <==> j - 1 in rest
  {
    shifted := seq(|rest|, k requires 0 <= k < |rest| => rest[k] + 1);
    forall j ensures j in shifted <==> j - 1 in rest {
      if j in shifted {
        var k :| 0 <= k < |shifted| && shifted[k] == j;
        assert rest[k] == j - 1;
      }
      if j - 1 in rest {
        var k :| 0 <= k < |rest| && rest[k] == j - 1;
        assert shifted[k] == j;
      }
    }
  }

  /** `idx` lists, increasing, the positions of `orders` whose order matches the
      flag, and `filtered` holds the orders at those positions. */
  predicate MatchPositions(orders: seq<Order>, filtered: seq<Order>, showArchived: bool, idx: seq<int>) {
    && |idx| == |filtered|
    && (forall k :: 0 <= k < |idx| ==> 0 <= idx[k] < |orders| && filtered[k] == orders[idx[k]])
    && (forall k, l :: 0 <= k < l < |idx| ==> idx[k] < idx[l])
    && (forall j :: 0 <= j < |orders| ==> (j in idx <==> IsShipped(orders[j]) == showArchived))
  }

  /** The tail's positions, moved right, located in the longer list. */
  lemma ShiftedMatchPositions(o: Order, tail: seq<Order>, filteredTail: seq<Order>, showArchived: bool,
                              rest: seq<int>) returns (shifted: seq<int>)
    requires MatchPositions(tail, filteredTail, showArchived, rest)
    ensures |shifted| == |filteredTail|
    ensures forall k :: 0 <= k < |shifted| ==> 1 <= shifted[k] < |tail| + 1 && filteredTail[k] == ([o] + tail)[shifted[k]]
    ensures forall k, l :: 0 <= k < l < |shifted| ==> shifted[k] < shifted[l]
    ensures 0 !in shifted
    ensures forall j :: 1 <= j < |tail| + 1 ==> (j in shifted <==> IsShipped(([o] + tail)[j]) == showArchived)
  {
    var orders := [o] + tail;
    shifted := ShiftPositions(rest, |tail|);
    assert forall k :: 0 <= k < |shifted| ==> filteredTail[k] == orders[shifted[k]];
    forall j | 1 <= j < |orders| ensures j in shifted <==> IsShipped(orders[j]) == showArchived {
      assert orders[j] == tail[j - 1];
    }
  }

  /** One more order in front: the tail's positions move right, and 0 joins them when the new order matches. */
  lemma ConsMatchPositions(o: Order, tail: seq<Order>, filteredTail: seq<Order>, showArchived: bool,
                           rest: seq<int>) returns (idx: seq<int>)
    requires MatchPositions(tail, filteredTail, showArchived, rest)
    ensures MatchPositions([o] + tail, if IsShipped(o) == showArchived then [o] + filteredTail else filteredTail,
                           showArchived, idx)
  {
    var shifted := ShiftedMatchPositions(o, tail, filteredTail, showArchived, rest);
    if IsShipped(o) == showArchived {
      idx := KeepHeadPositions(o, tail, filteredTail, showArchived, shifted);
    } else {
      idx := shifted;
      SkipHeadPositions(o, tail, filteredTail, showArchived, shifted);
    }
  }

  /** A head that does not match adds no position: the tail's shifted positions are all. */
  lemma SkipHeadPositions(o: Order, tail: seq<Order>, filteredTail: seq<Order>, showArchived: bool,
                          shifted: seq<int>)
    requires IsShipped(o) != showArchived
    requires |shifted| == |filteredTail|
    requires forall k :: 0 <= k < |shifted| ==> 1 <= shifted[k] < |tail| + 1 && filteredTail[k] == ([o] + tail)[shifted[k]]
    requires forall k, l :: 0 <= k < l < |shifted| ==> shifted[k] < shifted[l]
    requires 0 !in shifted
    requires forall j :: 1 <= j < |tail| + 1 ==> (j in shifted <==> IsShipped(([o] + tail)[j]) == showArchived)
    ensures MatchPositions([o] + tail, filteredTail, showArchived, shifted)
  {
  }

  /** The matching head's position 0 in front of the tail's shifted positions. */
  lemma KeepHeadPositions(o: Order, tail: seq<Order>, filteredTail: seq<Order>, showArchived: bool,
                          shifted: seq<int>) returns (idx: seq<int>)
    requires IsShipped(o) == showArchived
    requires |shifted| == |filteredTail|
    requires forall k :: 0 <= k < |shifted| ==> 1 <= shifted[k] < |tail| + 1 && filteredTail[k] == ([o] + tail)[shifted[k]]
    requires forall k, l :: 0 <= k < l < |shifted| ==> shifted[k] < shifted[l]
    requires forall j :: 1 <= j < |tail| + 1 ==> (j in shifted <==> IsShipped(([o] + tail)[j]) == showArchived)
    ensures MatchPositions([o] + tail, [o] + filteredTail, showArchived, idx)
  {
    var orders := [o] + tail;
    var filtered := [o] + filteredTail;
    idx := [0] + shifted;
    ConsIndex(0, shifted);
    ConsIndex(o, filteredTail);
    PrependZero(shifted, |tail|);
    assert forall k :: 0 <= k < |idx| ==> 0 <= idx[k] < |orders| && filtered[k] == orders[idx[k]];
    assert forall j :: j in idx <==> j == 0 || j in shifted;
    assert forall j :: 0 <= j < |orders| ==> (j in idx <==> IsShipped(orders[j]) == showArchived);
  }

  /** Indexing past the head of `[x] + s` indexes `s`. */
  lemma ConsIndex<T>(x: T, s: seq<T>)
    ensures forall k :: 1 <= k < |[x] + s| ==> ([x] + s)[k] == s[k - 1]
  {
  }

  /** Positions 1.. with 0 put in front stay increasing and in range. */
  lemma PrependZero(shifted: seq<int>, n: nat)
    requires forall k :: 0 <= k < |shifted| ==> 1 <= shifted[k] < n + 1
    requires forall k, l :: 0 <= k < l < |shifted| ==> shifted[k] < shifted[l]
    ensures forall k, l :: 0 <= k < l < |[0] + shifted| ==> ([0] + shifted)[k] < ([0] + shifted)[l]
  {
  }

  /** The filtered list is the page's list restricted to the matching positions,
      in their original order: `idx` holds those positions, increasing, and a
      position is in `idx` exactly when its order matches the flag. */
  lemma {:induction false} FilterKeepsOrder(orders: seq<Order>, showArchived: bool) returns (idx: seq<int>)
    ensures |idx| == |FilteredOrders(orders, showArchived)|
    ensures forall k :: 0 <= k < |idx| ==>
              0 <= idx[k] < |orders| && FilteredOrders(orders, showArchived)[k] == orders[idx[k]]
    ensures forall k, l :: 0 <= k < l < |idx| ==> idx[k] < idx[l]
    ensures forall j :: 0 <= j < |orders| ==> (j in idx <==> IsShipped(orders[j]) == showArchived)
  {
    if orders == [] {
      idx := [];
    } else {
      var rest := FilterKeepsOrder(orders[1..], showArchived);
      idx := ConsMatchPositions(orders[0], orders[1..], FilteredOrders(orders[1..], showArchived), showArchived, rest);
      assert [orders[0]] + orders[1..] == orders;
      assert MatchPositions(orders, FilteredOrders(orders, showArchived), showArchived, idx);
    }
  }

  /** The page's own example: statuses New, Shipped, ReadyToShip. */
  lemma FilterExample(a: Order, b: Order, c: Order)
    requires a.status == "New" && b.status == "Shipped" && c.status == "ReadyToShip"
    ensures FilteredOrders([a, b, c], false) == [a, c]
    ensures FilteredOrders([a, b, c], true) == [b]
  {
    assert !IsShipped(a) && IsShipped(b) && !IsShipped(c) by {
      assert |a.status| == 3 && |c.status| == 11 && |ShippedStatus| == 7;
    }
    assert [a, b, c][1..] == [b, c] && [b, c][1..] == [c] && [c][1..] == [];
    assert FilteredOrders([c], false) == [c] && FilteredOrders([c], true) == [];
    assert FilteredOrders([b, c], false) == [c] && FilteredOrders([b, c], true) == [b];
  }

  // ---------------------------------------------------------------------------
  // Redirect on authorisation failures

  predicate OccursAt(s: string, sub: string, i: nat) {
    i + |sub| <= |s| && s[i..i + |sub|] == sub
  }

  /** `s.includes(sub)`. */
  function Contains(s: string, sub: string): (r: bool)
    ensures r <==> exists i: nat :: OccursAt(s, sub, i)
    decreases |s|
  {
    if |s| < |sub| then false
    else if s[..|sub|] == sub then
      assert OccursAt(s, sub, 0);
      true
    else
      var r := Contains(s[1..], sub);
      assert forall i: nat :: OccursAt(s[1..], sub, i) <==> OccursAt(s, sub, i + 1) by {
        forall i: nat ensures OccursAt(s[1..], sub, i) <==> OccursAt(s, sub, i + 1) {
          if i + |sub| <= |s[1..]| {
            assert s[1..][i..i + |sub|] == s[i + 1..i + 1 + |sub|];
          }
        }
      }
      assert !OccursAt(s, sub, 0);
      assert forall i: nat :: OccursAt(s, sub, i) ==> i == 0 || OccursAt(s[1..], sub, i - 1);
      r
  }

  /** A fetch error sends the user to the login page exactly when its message
      mentions HTTP 401 or 403 somewhere. */
  function IsAuthError(message: string): (r: bool)
    ensures r <==> exists i: nat :: OccursAt(message, "401", i) || OccursAt(message, "403", i)
  {
    Contains(message, "401") || Contains(message, "403")
  }

  /** Both codes start with a 4: a message without that digit never sends the
      user to the login page. */
  lemma NoFourNoRedirect(message: string)
    requires '4' !in message
    ensures !IsAuthError(message)
  {
    forall i: nat
      ensures !OccursAt(message, "401", i) && !OccursAt(message, "403", i)
    {
      if i + 3 <= |message| {
        assert message[i..i + 3][0] == message[i] != '4';
      }
    }
  }

  /** The API client answers a non-OK response of the orders or products fetch
      with this fixed text. */
  const ApiFetchError: string := "Ошибка при загрузке продуктов"

  /** That text has no digits, so an HTTP 401 or 403 answered with it never
      leads to the login page. */
  lemma ApiFetchErrorNeverRedirects()
    ensures !IsAuthError(ApiFetchError)
  {
    NoFourNoRedirect(ApiFetchError);
  }

  // ---------------------------------------------------------------------------
  // Page state and the rendered view

  datatype PageState = PageState(
    customers: seq<Customer>,
    orders: seq<Order>,
    error: Option<string>,
    loading: bool,
    products: seq<Product>,
    selectedOrder: Option<Order>,
    showArchived: bool,
    editingOrder: Option<Order>)

  /** What the page renders. */
  datatype View = Spinner | ErrorAlert(message: string) | Editor(order: Order) | Card(order: Order)
                | List(orders: seq<Order>) | RenderError(message: string)

  /** `if (error)`: a stored error blocks the page only when it is a non-empty string. */
  predicate ShowsError(s: PageState) {
    s.error.Some? && s.error.value != ""
  }

  /** An order being edited comes with a selected one. The editor's render reads
      `selectedOrder!.customerId` inside the `customers.find` callback, so without a
      selection it throws as soon as the customer list is non-empty. The handlers
      never leave this condition: editing starts only from a selected order's card,
      and the selection is cleared only from that card. */
  predicate EditingHasSelection(s: PageState) {
    s.editingOrder.Some? ==> s.selectedOrder.Some?
  }

  /** The view, by precedence: loading, then error, then editor, then card, then list.
      An edit branch without a selection renders the editor when the customer list
      is empty (the `find` callback never runs) and throws otherwise. */
  function ViewOf(s: PageState): (v: View)
    ensures v.Spinner? <==> s.loading
    ensures v.ErrorAlert? <==> !s.loading && ShowsError(s)
    ensures v.Editor? <==> !s.loading && !ShowsError(s) && s.editingOrder.Some?
                           && (s.selectedOrder.Some? || s.customers == [])
    ensures v.RenderError? <==> !s.loading && !ShowsError(s) && s.editingOrder.Some?
                                && s.selectedOrder.None? && s.customers != []
    ensures v.RenderError? ==> v.message == NullSelectionError
    ensures EditingHasSelection(s) ==> !v.RenderError?
    ensures v.Card? <==> !s.loading && !ShowsError(s) && s.editingOrder.None? && s.selectedOrder.Some?
    ensures v.ErrorAlert? ==> Some(v.message) == s.error
    ensures v.Editor? ==> Some(v.order) == s.editingOrder
    ensures v.Card? ==> Some(v.order) == s.selectedOrder
    ensures v.List? ==> v.orders == FilteredOrders(s.orders, s.showArchived)
  {
    if s.loading then Spinner
    else if ShowsError(s) then ErrorAlert(s.error.value)
    else if s.editingOrder.Some? then
      if s.selectedOrder.None? && s.customers != [] then RenderError(NullSelectionError)
      else Editor(s.editingOrder.value)
    else if s.selectedOrder.Some? then Card(s.selectedOrder.value)
    else List(FilteredOrders(s.orders, s.showArchived))
  }

  // ---------------------------------------------------------------------------
  // Save requests

  datatype StatusBody = StatusBody(status: int, isPaid: bool)
  datatype StatusRequest = StatusRequest(customerId: string, orderId: string, body: StatusBody)

  /** The argument of `handleSaveCartLines`; either list may be null. */
  datatype CartLinesArgs = CartLinesArgs(
    cartLinesDtoForAdd: Option<seq<CartLine>>,
    cartLinesDtoForRemove: Option<seq<CartLine>>)
  datatype CartLinesBody = CartLinesBody(
    cartLinesDtoForAdd: seq<CartLine>,
    cartLinesDtoForRemove: seq<CartLine>)
  datatype CartLinesRequest = CartLinesRequest(customerId: string, orderId: string, body: CartLinesBody)

  /** What an awaited call threw: an `Error` object, or some other value. */
  datatype Thrown = ErrorObject(message: string) | OtherValue

  /** How an awaited API call ended. */
  datatype Outcome = Resolved | Rejected(reason: Thrown)

  /** `lines || []`: null becomes the empty list; a list, even an empty one, passes as it is. */
  function OrEmpty(lines: Option<seq<CartLine>>): (r: seq<CartLine>)
    ensures lines.None? ==> r == []
    ensures lines.Some? ==> r == lines.value
  {
    match lines
    case None => []
    case Some(l) => l
  }

  /** The text stored after a failed save. */
  function SaveErrorText(t: Thrown): (m: string)
    ensures t.ErrorObject? ==> m == t.message
    ensures t.OtherValue? ==> m == SaveFallbackError
  {
    match t
    case ErrorObject(message) => message
    case OtherValue => SaveFallbackError
  }

  // ---------------------------------------------------------------------------
  // The page component

  class OrdersPage {
    var customers: seq<Customer>
    var orders: seq<Order>
    var error: Option<string>
    var loading: bool
    var products: seq<Product>
    var selectedOrder: Option<Order>
    var showArchived: bool
    var editingOrder: Option<Order>

    function State(): PageState
      reads this
    {
      PageState(customers, orders, error, loading, products, selectedOrder, showArchived, editingOrder)
    }

    /** An edited order comes with a selected one, so rendering never throws. */
    predicate Valid()
      reads this
    {
      EditingHasSelection(State())
    }

    function CurrentView(): View
      reads this
    {
      ViewOf(State())
    }

    /** Mounting: nothing loaded, spinner shown, no error, nothing selected, active orders. */
    constructor ()
      ensures Valid()
      ensures customers == [] && orders == [] && products == []
      ensures loading && error == None
      ensures selectedOrder == None && editingOrder == None && !showArchived
      ensures CurrentView() == Spinner
    {
      customers := [];
      orders := [];
      error := None;
      loading := true;
      products := [];
      selectedOrder := None;
      showArchived := false;
      editingOrder := None;
    }

    // --- fetch results (each one an event; they may arrive in any order) ---

    /** The customers fetch resolved: a missing result is an error, a list replaces the customers. */
    method OnCustomersFetched(data: Option<seq<Customer>>)
      requires Valid()
      modifies this`customers, this`error
      ensures Valid()
      ensures data.None? ==> customers == old(customers) && error == Some(CustomersLoadError)
      ensures data.Some? ==> customers == data.value && error == old(error)
    {
      if data.None? {
        error := Some(CustomersLoadError);
      } else {
        customers := data.value;
      }
    }

    /** The customers fetch failed: whatever the reason, the customers text is stored. */
    method OnCustomersFailed()
      requires Valid()
      modifies this`error
      ensures Valid()
      ensures error == Some(CustomersLoadError)
    {
      error := Some(CustomersLoadError);
    }

    /** The orders fetch resolved with `items`; the spinner goes. */
    method OnOrdersFetched(items: seq<Order>)
      requires Valid()
      modifies this`orders, this`loading
      ensures Valid()
      ensures orders == items && !loading
    {
      orders := items;
      loading := false;
    }

    /** The orders fetch failed with `message`: the error is stored, the spinner
        goes, and the login page is requested only for a 401/403 message. */
    method OnOrdersFailed(message: string) returns (navigate: Option<string>)
      requires Valid()
      modifies this`error, this`loading
      ensures Valid()
      ensures error == Some(ProductsLoadError) && !loading
      ensures CurrentView() == ErrorAlert(ProductsLoadError)
      ensures navigate == (if IsAuthError(message) then Some(LoginRoute) else None)
    {
      error := Some(ProductsLoadError);
      navigate := if IsAuthError(message) then Some(LoginRoute) else None;
      loading := false;
    }

    /** The products fetch resolved with `items`; the spinner goes. */
    method OnProductsFetched(items: seq<Product>)
      requires Valid()
      modifies this`products, this`loading
      ensures Valid()
      ensures products == items && !loading
    {
      products := items;
      loading := false;
    }

    /** The products fetch failed with `message`: as for orders. */
    method OnProductsFailed(message: string) returns (navigate: Option<string>)
      requires Valid()
      modifies this`error, this`loading
      ensures Valid()
      ensures error == Some(ProductsLoadError) && !loading
      ensures CurrentView() == ErrorAlert(ProductsLoadError)
      ensures navigate == (if IsAuthError(message) then Some(LoginRoute) else None)
    {
      error := Some(ProductsLoadError);
      navigate := if IsAuthError(message) then Some(LoginRoute) else None;
      loading := false;
    }

    // --- user actions ---

    /** A row of the list was clicked: that order is selected, and the list gives way to its card. */
    method HandleOrderClick(order: Order)
      requires Valid()
      modifies this`selectedOrder
      ensures Valid()
      ensures State() == old(State()).(selectedOrder := Some(order))
      ensures old(CurrentView()).List? ==> CurrentView() == Card(order)
    {
      selectedOrder := Some(order);
    }

    /** The card's edit button: `order` is being edited; the selection is kept.
        The page keeps `Valid()` exactly when an order is selected, as it is on the
        card; with one selected and neither the spinner nor an error shown, the
        editor for that order is shown. Without a selection the editor still
        renders over an empty customer list, and the render throws otherwise. */
    method HandleEdit(order: Order)
      modifies this`editingOrder
      ensures State() == old(State()).(editingOrder := Some(order))
      ensures Valid() <==> selectedOrder.Some?
      ensures old(selectedOrder).Some? && old(!loading && !ShowsError(State())) ==> CurrentView() == Editor(order)
      ensures selectedOrder.None? && !loading && !ShowsError(State()) ==>
                CurrentView() == (if customers == [] then Editor(order) else RenderError(NullSelectionError))
    {
      editingOrder := Some(order);
    }

    /** The card's back button: the selection is cleared. */
    method OnBack()
      requires Valid()
      modifies this`selectedOrder
      ensures State() == old(State()).(selectedOrder := None)
      ensures Valid() <==> editingOrder.None?
      ensures old(CurrentView()).Card? ==> CurrentView() == List(FilteredOrders(orders, showArchived))
    {
      selectedOrder := None;
    }

    /** The editor's close callback: only the edited order is cleared, so the page
        returns to the card of the selected order, not to the list. */
    method OnClose()
      requires Valid()
      modifies this`editingOrder
      ensures Valid()
      ensures State() == old(State()).(editingOrder := None)
      ensures old(CurrentView()).Editor? ==> CurrentView() == Card(selectedOrder.value)
    {
      editingOrder := None;
    }

    /** The archive button flips between the shipped and the active orders. */
    method ToggleArchived()
      requires Valid()
      modifies this`showArchived
      ensures Valid()
      ensures State() == old(State()).(showArchived := !old(showArchived))
    {
      showArchived := !showArchived;
    }

    // --- saves ---

    /** Saving status and payment for the SELECTED order (not the edited one).
        With no selection the null access throws before any request and its
        message is stored. Otherwise the request is sent; success reloads the
        orders route, failure stores the thrown message. */
    method HandleSaveStatus(newStatus: int, isPaid: bool, outcome: Outcome)
      returns (sent: Option<StatusRequest>, reload: Option<string>)
      requires Valid()
      modifies this`error
      ensures Valid()
      ensures selectedOrder.None? ==>
                sent == None && reload == None && error == Some(NullSelectionError)
      ensures selectedOrder.Some? ==>
                sent == Some(StatusRequest(selectedOrder.value.customerId, selectedOrder.value.id,
                                           StatusBody(newStatus, isPaid)))
      ensures selectedOrder.Some? && outcome.Resolved? ==>
                reload == Some(OrdersRoute) && error == old(error)
      ensures selectedOrder.Some? && outcome.Rejected? ==>
                reload == None && error == Some(SaveErrorText(outcome.reason))
    {
      if selectedOrder.None? {
        sent, reload := None, None;
        error := Some(NullSelectionError);
        return;
      }
      var target := selectedOrder.value;
      sent := Some(StatusRequest(target.customerId, target.id, StatusBody(newStatus, isPaid)));
      match outcome
      case Resolved =>
        reload := Some(OrdersRoute);
      case Rejected(reason) =>
        reload := None;
        error := Some(SaveErrorText(reason));
    }

    /** Saving cart-line changes for the SELECTED order; null lists are sent as
        empty ones. Failure and the missing selection behave as for the status. */
    method HandleSaveCartLines(data: CartLinesArgs, outcome: Outcome)
      returns (sent: Option<CartLinesRequest>, reload: Option<string>)
      requires Valid()
      modifies this`error
      ensures Valid()
      ensures selectedOrder.None? ==>
                sent == None && reload == None && error == Some(NullSelectionError)
      ensures selectedOrder.Some? ==>
                sent == Some(CartLinesRequest(selectedOrder.value.customerId, selectedOrder.value.id,
                                              CartLinesBody(OrEmpty(data.cartLinesDtoForAdd),
                                                            OrEmpty(data.cartLinesDtoForRemove))))
      ensures selectedOrder.Some? && outcome.Resolved? ==>
                reload == Some(OrdersRoute) && error == old(error)
      ensures selectedOrder.Some? && outcome.Rejected? ==>
                reload == None && error == Some(SaveErrorText(outcome.reason))
    {
      if selectedOrder.None? {
        sent, reload := None, None;
        error := Some(NullSelectionError);
        return;
      }
      var target := selectedOrder.value;
      var body := CartLinesBody(OrEmpty(data.cartLinesDtoForAdd), OrEmpty(data.cartLinesDtoForRemove));
      sent := Some(CartLinesRequest(target.customerId, target.id, body));
      match outcome
      case Resolved =>
        reload := Some(OrdersRoute);
      case Rejected(reason) =>
        reload := None;
        error := Some(SaveErrorText(reason));
    }
  }

  /** List, card, editor, close: closing the editor lands on the card again;
      back then returns to the list, and two toggles give the same list. */
  method BrowseAndEdit(o: Order, others: seq<Order>)
  {
    var page := new OrdersPage();
    page.OnOrdersFetched([o] + others);
    page.OnProductsFetched([]);
    assert page.CurrentView().List?;
    page.HandleOrderClick(o);
    assert page.CurrentView() == Card(o);
    page.HandleEdit(o);
    assert page.CurrentView() == Editor(o);
    page.OnClose();
    assert page.CurrentView() == Card(o);
    page.OnBack();
    var before := page.CurrentView();
    page.ToggleArchived();
    page.ToggleArchived();
    assert page.CurrentView() == before;
  }

  /** One shipped order fetched; with the archive shown the list is exactly that order. */
  method ArchivedScenario(o: Order)
    requires o.status == "Shipped" && o.serialNumber == 7
  {
    var page := new OrdersPage();
    page.OnOrdersFetched([o]);
    page.ToggleArchived();
    assert [o][1..] == [];
    assert page.CurrentView() == List([o]);
  }
}
