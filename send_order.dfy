/** The send-order screen: two fixed bills, each with its totals and a send button. */
module SendOrder {
  import opened Wrappers
  import opened JsArray
  import Ui

  datatype Product = Product(name: string, qty: int, price: int)
  datatype Order = Order(id: string, items: seq<Product>)

  /** The bills the screen lists. */
  const Data: seq<Order> := [
    Order("001", [Product("สินค้า A", 2, 100), Product("สินค้า B", 1, 50)]),
    Order("002", [Product("สินค้า C", 5, 20), Product("สินค้า D", 3, 200), Product("สินค้า E", 1, 150)])
  ]

  /** `items.reduce((sum, p) => sum + p.qty, 0)`. */
  function TotalQty(items: seq<Product>): (n: int)
    ensures n == Sum(items, (p: Product) => p.qty)
  {
    FoldSumIsSum(0, items, (p: Product) => p.qty);
    FoldSum(0, items, (p: Product) => p.qty)
  }

  /** `items.reduce((sum, p) => sum + p.qty * p.price, 0)`. */
  function TotalPrice(items: seq<Product>): (n: int)
    ensures n == Sum(items, (p: Product) => p.qty * p.price)
  {
    FoldSumIsSum(0, items, (p: Product) => p.qty * p.price);
    FoldSum(0, items, (p: Product) => p.qty * p.price)
  }

  /** A worked instance of the totals shown: 3 pieces for 250 on bill 001, 9 pieces for 850 on bill 002. */
  lemma DataTotals()
    ensures TotalQty(Data[0].items) == 3 && TotalPrice(Data[0].items) == 250
    ensures TotalQty(Data[1].items) == 9 && TotalPrice(Data[1].items) == 850
  {
  }

  /** Adding a bill's lines in two parts gives its total. */
  lemma TotalPriceConcat(a: seq<Product>, b: seq<Product>)
    ensures TotalPrice(a + b) == TotalPrice(a) + TotalPrice(b)
  {
    SumConcat(a, b, (p: Product) => p.qty * p.price);
  }

  /** What `renderOrder` draws for one bill (the fixed time label and styles aside): the
      bill number, its lines, the summary row's two totals, and the send button as the
      alert that pressing it raises (`None` would be a bill without a button). */
  datatype BillView = BillView(
    billNumber: string,
    lines: seq<Product>,
    totalQty: int,
    totalPrice: int,
    sendButton: Option<Ui.Alert>)

  /** The list the screen renders: one view per bill, in order, each carrying a send button
      that announces that bill, the first and every later one alike (the comment above the
      button says the first only). */
  function RenderBills(orders: seq<Order>): (r: seq<BillView>)
    ensures |r| == |orders|
    ensures forall i :: 0 <= i < |orders| ==>
              r[i].billNumber == orders[i].id && r[i].lines == orders[i].items
              && r[i].totalQty == Sum(orders[i].items, (p: Product) => p.qty)
              && r[i].totalPrice == Sum(orders[i].items, (p: Product) => p.qty * p.price)
              && r[i].sendButton == Some(SendOrderAlert(orders[i].id))
  {
    Map(orders, (o: Order) => BillView(o.id, o.items, TotalQty(o.items), TotalPrice(o.items),
                                       Some(SendOrderAlert(o.id))))
  }

  /** A bill's view depends on that bill alone: rendering two lists one after the other
      gives the views of their concatenation. */
  lemma RenderBillsConcat(a: seq<Order>, b: seq<Order>)
    ensures RenderBills(a + b) == RenderBills(a) + RenderBills(b)
  {
    var r, ra, rb := RenderBills(a + b), RenderBills(a), RenderBills(b);
    assert forall i :: 0 <= i < |a| ==> (a + b)[i] == a[i];
    assert forall i :: |a| <= i < |a| + |b| ==> (a + b)[i] == b[i - |a|];
    assert r == ra + rb;
  }

  /** A worked instance on the screen's bills: both get a send button naming them. */
  lemma DataButtons()
    ensures var r := RenderBills(Data);
            |r| == 2 && r[0].sendButton.Some? && r[1].sendButton.Some?
            && r[0].sendButton.value.message == Some("ส่งออเดอร์บิลเลขที่ 001 เรียบร้อยแล้ว")
            && r[1].sendButton.value.message == Some("ส่งออเดอร์บิลเลขที่ 002 เรียบร้อยแล้ว")
  {
    assert "ส่งออเดอร์บิลเลขที่ " + Data[0].id + " เรียบร้อยแล้ว" == "ส่งออเดอร์บิลเลขที่ 001 เรียบร้อยแล้ว";
    assert "ส่งออเดอร์บิลเลขที่ " + Data[1].id + " เรียบร้อยแล้ว" == "ส่งออเดอร์บิลเลขที่ 002 เรียบร้อยแล้ว";
  }

  /** `handleSendOrder(orderId)`: an alert naming the bill, and no change of state. */
  function SendOrderAlert(orderId: string): (a: Ui.Alert)
    ensures a.title == "ส่งออเดอร์" && a.message.Some?
    ensures var m := a.message.value; var k := |"ส่งออเดอร์บิลเลขที่ "|;
            |m| >= k + |orderId| && m[k..k + |orderId|] == orderId
  {
    Ui.Alert("ส่งออเดอร์", Some("ส่งออเดอร์บิลเลขที่ " + orderId + " เรียบร้อยแล้ว"))
  }
}
