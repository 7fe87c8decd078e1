/** The new-orders screen: a page of orders, the first editable one with its action
    buttons, and an edit modal over a draft copy of one order. */
module NewOrder {
  import opened Wrappers
  import opened Http
  import opened JsArray
  import OrderService

  datatype Menu = Menu(menu_name: string, menu_price: int)

  /** An order line (its `order_item_option` list is not modelled). */
  datatype OrderItem = OrderItem(order_item_id: string, menu: Menu, quantity: int)

  datatype Order = Order(
    order_id: string,
    fast_lane_price: string,
    order_status: string,
    pickup_at: string,
    created_at: string,
    updated_at: Option<string>,
    order_item: seq<OrderItem>,
    waitEdit: Option<bool>)

  /** The body of the paginated listing, `{ Orders, TotalPage }`. */
  datatype OrdersPage = OrdersPage(Orders: seq<Order>, TotalPage: int)

  /** `!o.waitEdit` fails: the order is waiting for an edit and is skipped. */
  predicate Waiting(o: Order) {
    o.waitEdit == Some(true)
  }

  /** `orders.findIndex(o => !o.waitEdit)`. */
  function FirstEditableIndex(orders: seq<Order>): (r: int)
    ensures -1 <= r < |orders|
    ensures r >= 0 ==> !Waiting(orders[r]) && forall j :: 0 <= j < r ==> Waiting(orders[j])
    ensures r == -1 <==> forall j :: 0 <= j < |orders| ==> Waiting(orders[j])
  {
    FindIndex(orders, (o: Order) => !Waiting(o))
  }

  /** The accept/edit/cancel buttons render at `index` (`index === firstEditableIndex`). */
  predicate ShowsActions(orders: seq<Order>, index: int) {
    index == FirstEditableIndex(orders)
  }

  /** The buttons render on exactly one order, the first that is not waiting, and on none
      when every order waits. */
  lemma ActionsOnFirstEditableOnly(orders: seq<Order>, index: int)
    requires 0 <= index < |orders|
    ensures ShowsActions(orders, index) <==>
              !Waiting(orders[index]) && forall j :: 0 <= j < index ==> Waiting(orders[j])
  {
    var k := FirstEditableIndex(orders);
    assert k != -1 ==> k <= index || Waiting(orders[index]);
    assert k >= index || k == -1 || !Waiting(orders[k]);
  }

  // ---------------------------------------------------------------- derived values

  /** `order_item.reduce((sum, p) => sum + p.quantity, 0)`. */
  function TotalQuantity(items: seq<OrderItem>): (n: int)
    ensures n == Sum(items, (it: OrderItem) => it.quantity)
  {
    FoldSumIsSum(0, items, (it: OrderItem) => it.quantity);
    FoldSum(0, items, (it: OrderItem) => it.quantity)
  }

  /** `order_item.reduce((sum, p) => sum + p.quantity * p.menu.menu_price, 0)`. */
  function TotalPrice(items: seq<OrderItem>): (n: int)
    ensures n == Sum(items, (it: OrderItem) => it.quantity * it.menu.menu_price)
  {
    FoldSumIsSum(0, items, (it: OrderItem) => it.quantity * it.menu.menu_price);
    FoldSum(0, items, (it: OrderItem) => it.quantity * it.menu.menu_price)
  }

  /** Deleting a draft line lowers both totals by exactly that line's share. */
  lemma DeleteLowersTotals(items: seq<OrderItem>, index: int)
    requires 0 <= index < |items|
    ensures TotalQuantity(RemoveIndex(items, index)) == TotalQuantity(items) - items[index].quantity
    ensures TotalPrice(RemoveIndex(items, index))
            == TotalPrice(items) - items[index].quantity * items[index].menu.menu_price
  {
    SumRemoveIndex(items, index, (it: OrderItem) => it.quantity);
    SumRemoveIndex(items, index, (it: OrderItem) => it.quantity * it.menu.menu_price);
  }

  /** The bill number shown, `order_id.slice(0, 8)`: the first eight characters, or the
      whole id when it is shorter. */
  function DisplayId(orderId: string): (r: string)
    ensures |r| == if |orderId| < 8 then |orderId| else 8
    ensures r == orderId[..|r|]
  {
    if |orderId| < 8 then orderId else orderId[..8]
  }

  /** The fast-lane line renders: the price is truthy and is not the string `"0"`. */
  predicate ShowFastLane(o: Order) {
    o.fast_lane_price != "" && o.fast_lane_price != "0"
  }

  // ---------------------------------------------------------------- rendering

  /** What `renderOrder` draws for one order (times, dates and styles are not modelled):
      the bill number, the waiting badge, the fast-lane surcharge line, the summary row's
      two totals, and whether the accept/edit/cancel buttons are there. */
  datatype OrderView = OrderView(
    billNumber: string,
    waitBadge: bool,
    fastLane: Option<string>,
    totalQuantity: int,
    totalPrice: int,
    actions: bool)

  /** The list the screen renders for a page of orders, one view per order in order.
      The surcharge line appears, with the order's own price, unless the price is empty
      or the string `"0"`; the buttons appear exactly on the first order not waiting. */
  function RenderOrders(orders: seq<Order>): (r: seq<OrderView>)
    ensures |r| == |orders|
    ensures forall i :: 0 <= i < |orders| ==>
              r[i].billNumber == DisplayId(orders[i].order_id)
              && (r[i].waitBadge <==> orders[i].waitEdit == Some(true))
              && r[i].totalQuantity == Sum(orders[i].order_item, (it: OrderItem) => it.quantity)
              && r[i].totalPrice == Sum(orders[i].order_item, (it: OrderItem) => it.quantity * it.menu.menu_price)
    ensures forall i :: 0 <= i < |orders| ==>
              r[i].fastLane == if orders[i].fast_lane_price == "" || orders[i].fast_lane_price == "0" then None
                               else Some(orders[i].fast_lane_price)
    ensures forall i :: 0 <= i < |orders| ==>
              (r[i].actions <==> !Waiting(orders[i]) && forall j :: 0 <= j < i ==> Waiting(orders[j]))
  {
    var k := FirstEditableIndex(orders);
    seq(|orders|, i requires 0 <= i < |orders| =>
      var o := orders[i];
      OrderView(DisplayId(o.order_id), Waiting(o),
                if ShowFastLane(o) then Some(o.fast_lane_price) else None,
                TotalQuantity(o.order_item), TotalPrice(o.order_item), i == k))
  }

  /** At most one rendered order carries the buttons, and one does exactly when some
      order on the page is not waiting. */
  lemma {:induction false} OneActionRow(orders: seq<Order>)
    ensures var r := RenderOrders(orders);
            (forall i, j :: 0 <= i < |r| && 0 <= j < |r| && r[i].actions && r[j].actions ==> i == j)
            && ((exists i :: 0 <= i < |r| && r[i].actions) <==> exists i :: 0 <= i < |orders| && !Waiting(orders[i]))
  {
    var r := RenderOrders(orders);
    var k := FirstEditableIndex(orders);
    forall i | 0 <= i < |r| && r[i].actions
      ensures i == k
    {
      ActionsOnFirstEditableOnly(orders, i);
    }
    if i :| 0 <= i < |orders| && !Waiting(orders[i]) {
      assert k != -1;
      ActionsOnFirstEditableOnly(orders, k);
      assert r[k].actions;
    }
  }

  /** `prev.map(o => o.order_id === draft.order_id ? draft : o)`. */
  function ReplaceById(orders: seq<Order>, draft: Order): (r: seq<Order>)
    ensures |r| == |orders|
    ensures forall i :: 0 <= i < |orders| && orders[i].order_id == draft.order_id ==> r[i] == draft
    ensures forall i :: 0 <= i < |orders| && orders[i].order_id != draft.order_id ==> r[i] == orders[i]
  {
    Map(orders, (o: Order) => if o.order_id == draft.order_id then draft else o)
  }

  /** Sending the same draft twice changes nothing the second time. */
  lemma ReplaceByIdIdempotent(orders: seq<Order>, draft: Order)
    ensures ReplaceById(ReplaceById(orders, draft), draft) == ReplaceById(orders, draft)
  {
  }

  /** Sending a draft re-renders only the orders that share its id: every other order keeps
      its bill number, badge, surcharge line and totals (the buttons may move, since the
      draft's waiting flag can change which order is first editable). */
  lemma SendKeepsOtherViews(orders: seq<Order>, draft: Order, i: int)
    requires 0 <= i < |orders| && orders[i].order_id != draft.order_id
    ensures var before := RenderOrders(orders)[i];
            var after := RenderOrders(ReplaceById(orders, draft))[i];
            after.(actions := before.actions) == before
  {
  }

  /** A draft whose id is not on the page leaves the page as it was. */
  lemma ReplaceByIdAbsent(orders: seq<Order>, draft: Order)
    requires forall i :: 0 <= i < |orders| ==> orders[i].order_id != draft.order_id
    ensures ReplaceById(orders, draft) == orders
  {
  }

  // ---------------------------------------------------------------- the screen

  /** The message shown when the thrown value is not an `Error`. */
  const LoadFailedMessage := "เกิดข้อผิดพลาดในการโหลดข้อมูล"

  class NewOrderScreen {
    var orders: seq<Order>
    var modalVisible: bool
    var selectedOrder: Option<Order>
    var loading: bool
    var error: Option<string>
    var totalPages: int
    var currentPage: int

    /** The initial state, before the first fetch completes. */
    constructor ()
      ensures orders == [] && !modalVisible && selectedOrder == None && loading && error == None
      ensures totalPages == 0 && currentPage == 0
    {
      orders := [];
      modalVisible := false;
      selectedOrder := None;
      loading := true;
      error := None;
      totalPages := 0;
      currentPage := 0;
    }

    /** `fetchOrders(offset, limit)`: on success the page, the page count and the raw
        offset are stored; on failure the error message; `loading` ends false either way. */
    method FetchOrders(fetch: Request<OrderService.OrderIdBody> -> FetchOutcome, parse: JsonParser<OrdersPage>,
                       offset: int := 0, limit: int := 10)
      modifies this
      ensures !loading
      ensures modalVisible == old(modalVisible) && selectedOrder == old(selectedOrder)
      ensures var res := OrderService.PaginationOutcome(fetch(OrderService.NewOrdersRequest(offset, limit)), parse);
              if res.Success? then
                orders == res.value.Orders && totalPages == res.value.TotalPage && currentPage == offset
                && error == None
              else
                error == Some(res.error.message) && orders == old(orders)
                && totalPages == old(totalPages) && currentPage == old(currentPage)
    {
      loading := true;
      error := None;
      var response := OrderService.PaginationOutcome(fetch(OrderService.NewOrdersRequest(offset, limit)), parse);
      if response.Success? {
        orders := response.value.Orders;
        totalPages := response.value.TotalPage;
        currentPage := offset;
      } else {
        error := Some(response.error.message);
      }
      loading := false;
    }

    /** `handleEdit(order)`: opens the modal on a draft of the order. */
    method HandleEdit(order: Order)
      modifies this`selectedOrder, this`modalVisible
      ensures selectedOrder == Some(order) && modalVisible
    {
      selectedOrder := Some(order);
      modalVisible := true;
    }

    /** `handleDeleteItem(index)`: drops the draft's line at `index`, keeping the others in
        order; nothing happens without a draft, and the page is never touched. */
    method HandleDeleteItem(index: int)
      modifies this`selectedOrder
      ensures old(selectedOrder).None? ==> selectedOrder == None
      ensures old(selectedOrder).Some? ==>
                var draft := old(selectedOrder).value;
                selectedOrder == Some(draft.(order_item := RemoveIndex(draft.order_item, index)))
    {
      if selectedOrder.None? {
        return;
      }
      var draft := selectedOrder.value;
      var updatedItems := RemoveIndex(draft.order_item, index);
      selectedOrder := Some(draft.(order_item := updatedItems));
    }

    /** `handleSend()`: writes the draft over every order with its id and closes the modal;
        without a draft nothing happens. */
    method HandleSend()
      modifies this`orders, this`modalVisible
      ensures old(selectedOrder).None? ==> orders == old(orders) && modalVisible == old(modalVisible)
      ensures old(selectedOrder).Some? ==> orders == ReplaceById(old(orders), selectedOrder.value) && !modalVisible
    {
      if selectedOrder.None? {
        return;
      }
      orders := ReplaceById(orders, selectedOrder.value);
      modalVisible := false;
    }

    /** `handleCancel()`: hides the modal and keeps the draft and the page as they are. */
    method HandleCancel()
      modifies this`modalVisible
      ensures !modalVisible
    {
      modalVisible := false;
    }
  }
}
