/** Orders, Razorpay payments and the dashboard of the food truck service. */
module FoodTruck {
  import opened Wrappers
  import StatusWords

  datatype MenuItem = MenuItem(price: real, foodCost: real, available: bool)

  datatype Item = Item(name: string, quantity: int)

  datatype Line = Line(name: string, quantity: int, unitPrice: real, unitFoodCost: real, lineTotal: real,
                       lineFoodCost: real)

  datatype OrderStatus = Completed | PaymentPending | PaymentFailed

  /** A row of `orders` with its `order_items`; its id is its index. */
  datatype Order = Order(number: int, payBy: string, status: OrderStatus, subtotal: real, foodCost: real, total: real,
                         lines: seq<Line>)

  datatype PaymentStatus = Created | Captured | Failed

  /** A row of `payments`; its id is its index. */
  datatype Payment = Payment(orderId: nat, providerOrderId: string, paymentId: Option<string>, amount: real,
                             amountPaise: int, status: PaymentStatus, verified: bool)

  datatype HttpError =
    | BadPaymentMethod | NoItems | ItemNotFound(name: string) | ItemUnavailable(name: string) | ZeroAmount
    | ProviderUnavailable | PaymentNotFound | OrderIdMismatch | BadSignature | DifferentOrder | AmountMismatch
    | NotCaptured
    | MissingSignature | NoSecret | InvalidJson

  /**
   open: orders whose checkout has not heard from the provider yet; stale: payments that a
   payment.failed handler has read as not captured and will mark failed.
   */
  datatype State = State(orders: seq<Order>, payments: seq<Payment>, open: set<nat>, stale: seq<nat>)

  type Menu = map<string, MenuItem>

  /** What the provider says about a payment. */
  datatype RazorPayment = RazorPayment(orderId: string, amount: int, status: string)

  datatype WebhookPayload = WebhookPayload(event: string, paymentOrderId: string, orderEntityId: string,
                                           paymentId: Option<string>, amount: Option<int>)

  // ----- prices

  function LineOf(item: Item, m: MenuItem): Line {
    Line(item.name, item.quantity, m.price, m.foodCost, m.price * item.quantity as real,
         m.foodCost * item.quantity as real)
  }

  /** The order lines, or the first item that cannot be sold. */
  function Priced(menu: Menu, items: seq<Item>): Result<seq<Line>, HttpError> {
    if items == [] then Ok([])
    else
      var front, item := Priced(menu, items[..|items| - 1]), items[|items| - 1];
      if front.Err? then front
      else if item.name !in menu then Err(ItemNotFound(item.name))
      else if !menu[item.name].available then Err(ItemUnavailable(item.name))
      else Ok(front.value + [LineOf(item, menu[item.name])])
  }

  function Total(lines: seq<Line>): real {
    if lines == [] then 0.0 else Total(lines[..|lines| - 1]) + lines[|lines| - 1].lineTotal
  }

  function FoodCost(lines: seq<Line>): real {
    if lines == [] then 0.0 else FoodCost(lines[..|lines| - 1]) + lines[|lines| - 1].lineFoodCost
  }

  /** `quantize(Decimal("1"))`: to the nearest integer, ties to the even one. */
  function Quantized(x: real): int {
    var below := x.Floor;
    var rest := x - below as real;
    if rest < 0.5 || (rest == 0.5 && below % 2 == 0) then below else below + 1
  }

  function AmountPaise(total: real): int { Quantized(total * 100.0) }

  // ----- the requests

  function NewOrder(number: int, payBy: string, status: OrderStatus, lines: seq<Line>): Order {
    Order(number, payBy, status, Total(lines), FoodCost(lines), Total(lines), lines)
  }

  /** `create_order`. */
  function PlaceOrder(s: State, menu: Menu, payBy: string, items: seq<Item>, number: int): (State, Option<HttpError>) {
    var priced := Priced(menu, items);
    if StatusWords.Upper(payBy) !in {"CASH", "UPI"} then (s, Some(BadPaymentMethod))
    else if items == [] then (s, Some(NoItems))
    else if priced.Err? then (s, Some(priced.error))
    else (s.(orders := s.orders + [NewOrder(number, StatusWords.Upper(payBy), Completed, priced.value)]), None)
  }

  /** `create_razorpay_order` up to its first commit. */
  function BeginCheckout(s: State, menu: Menu, items: seq<Item>, number: int): (State, Option<HttpError>) {
    var priced := Priced(menu, items);
    if items == [] then (s, Some(NoItems))
    else if priced.Err? then (s, Some(priced.error))
    else if Total(priced.value) <= 0.0 then (s, Some(ZeroAmount))
    else
      (s.(orders := s.orders + [NewOrder(number, "RAZORPAY", PaymentPending, priced.value)],
          open := s.open + {|s.orders|}), None)
  }

  /** The rest of it, with the provider's order id if the provider answered. */
  function EndCheckout(s: State, order: nat, provider: Option<string>): State {
    if order !in s.open || order >= |s.orders| then s
    else
      var s1 := s.(open := s.open - {order});
      var total := s.orders[order].total;
      match provider
      case None => s1.(orders := s.orders[order := s.orders[order].(status := PaymentFailed)])
      case Some(id) =>
        s1.(payments := s.payments + [Payment(order, id, None, total, AmountPaise(total), Created, false)])
  }

  function FindByOrder(payments: seq<Payment>, order: nat): (r: Option<nat>)
    ensures r.Some? ==> r.value < |payments| && payments[r.value].orderId == order
  {
    if payments == [] then None
    else
      var front := FindByOrder(payments[..|payments| - 1], order);
      if front.Some? then front
      else if payments[|payments| - 1].orderId == order then Some(|payments| - 1) else None
  }

  function FindByProvider(payments: seq<Payment>, id: string): (r: Option<nat>)
    ensures r.Some? ==> r.value < |payments| && payments[r.value].providerOrderId == id
  {
    if payments == [] then None
    else
      var front := FindByProvider(payments[..|payments| - 1], id);
      if front.Some? then front
      else if payments[|payments| - 1].providerOrderId == id then Some(|payments| - 1) else None
  }

  /** COALESCE. */
  function Coalesce(given: Option<string>, stored: Option<string>): Option<string> {
    if given.Some? then given else stored
  }

  /** A payment row captured and its order completed, in one transaction. */
  function Capture(s: State, p: nat, paymentId: Option<string>): State
    requires p < |s.payments|
  {
    var payment := s.payments[p];
    var s1 := s.(payments := s.payments[p := payment.(status := Captured, verified := true,
                                                       paymentId := Coalesce(paymentId, payment.paymentId))]);
    if payment.orderId < |s.orders| && s.orders[payment.orderId].status != Completed
    then
      var order := s.orders[payment.orderId].(status := Completed, payBy := "RAZORPAY");
      s1.(orders := s.orders[payment.orderId := order])
    else s1
  }

  /** A payment row marked failed, and its order unless completed. */
  function MarkFailed(s: State, p: nat, paymentId: Option<string>): State
    requires p < |s.payments|
  {
    var payment := s.payments[p];
    var s1 := s.(payments := s.payments[p := payment.(status := Failed,
                                                       paymentId := Coalesce(paymentId, payment.paymentId))]);
    if payment.orderId < |s.orders| && s.orders[payment.orderId].status != Completed
    then s1.(orders := s.orders[payment.orderId := s.orders[payment.orderId].(status := PaymentFailed)])
    else s1
  }

  /** `verify_razorpay_payment`; signed: the signature matches. */
  function Verify(s: State, order: nat, providerOrderId: string, paymentId: string, signed: bool,
                  fetched: Option<RazorPayment>)
    : (State, Option<HttpError>)
  {
    var p := FindByOrder(s.payments, order);
    if p.None? then (s, Some(PaymentNotFound))
    else if providerOrderId != s.payments[p.value].providerOrderId then (s, Some(OrderIdMismatch))
    else if !signed then (s, Some(BadSignature))
    else if fetched.None? then (s, Some(ProviderUnavailable))
    else if fetched.value.orderId != s.payments[p.value].providerOrderId then (s, Some(DifferentOrder))
    else if fetched.value.amount != s.payments[p.value].amountPaise then (s, Some(AmountMismatch))
    else if fetched.value.status != "captured" then (s, Some(NotCaptured))
    else (Capture(s, p.value, Some(paymentId)), None)
  }

  function WebhookOrderId(w: WebhookPayload): string {
    if w.paymentOrderId != "" then w.paymentOrderId else w.orderEntityId
  }

  /** `razorpay_webhook` once its signature has been checked, run without interruption. */
  function Webhook(s: State, w: WebhookPayload): (State, Option<HttpError>) {
    var p := FindByProvider(s.payments, WebhookOrderId(w));
    if WebhookOrderId(w) == "" || p.None? then (s, None)
    else if w.event in {"payment.captured", "order.paid"} then
      if w.amount.Some? && w.amount.value != s.payments[p.value].amountPaise then (s, Some(AmountMismatch))
      else (Capture(s, p.value, w.paymentId), None)
    else if w.event == "payment.failed" && s.payments[p.value].status != Captured
        then (MarkFailed(s, p.value, w.paymentId), None)
    else (s, None)
  }

  // ----- runs

  /** FailRead and FailWrite are the two statements of a payment.failed webhook that others may come between. */
  datatype Event =
    | Place(menu: Menu, payBy: string, items: seq<Item>, number: int)
    | Begin(menu: Menu, items: seq<Item>, number: int)
    | End(order: nat, provider: Option<string>)
    | Check(order: nat, providerOrderId: string, paymentId: string, signed: bool, fetched: Option<RazorPayment>)
    | Notify(payload: WebhookPayload)
    | FailRead(providerOrderId: string)
    | FailWrite(task: nat)

  function Step(s: State, e: Event): State {
    match e
    case Place(menu, payBy, items, number) => PlaceOrder(s, menu, payBy, items, number).0
    case Begin(menu, items, number) => BeginCheckout(s, menu, items, number).0
    case End(order, provider) => EndCheckout(s, order, provider)
    case Check(order, id, paymentId, signed, fetched) => Verify(s, order, id, paymentId, signed, fetched).0
    case Notify(payload) => Webhook(s, payload).0
    case FailRead(id) =>
      var p := FindByProvider(s.payments, id);
      if p.Some? && s.payments[p.value].status != Captured then s.(stale := s.stale + [p.value]) else s
    case FailWrite(k) => if k < |s.stale| && s.stale[k] < |s.payments| then MarkFailed(s, s.stale[k], None) else s
  }

  const START := State([], [], {}, [])

  function Exec(s: State, events: seq<Event>): State {
    if events == [] then s else Step(Exec(s, events[..|events| - 1]), events[|events| - 1])
  }

  // ----- the dashboard

  /** The completed sales of one payment method. */
  function SalesBy(orders: seq<Order>, payBy: string): real {
    if orders == [] then 0.0
    else
      var last := orders[|orders| - 1];
      SalesBy(orders[..|orders| - 1], payBy)
      + if last.status == Completed && last.payBy == payBy then last.total else 0.0
  }

  function Sales(orders: seq<Order>): real {
    if orders == [] then 0.0
    else
      var last := orders[|orders| - 1];
      Sales(orders[..|orders| - 1]) + if last.status == Completed then last.total else 0.0
  }

  function CapturedAmount(payments: seq<Payment>): real {
    if payments == [] then 0.0
    else
      var last := payments[|payments| - 1];
      CapturedAmount(payments[..|payments| - 1]) + if last.status == Captured then last.amount else 0.0
  }

  datatype Expense = Expense(amount: real, payBy: string)

  datatype Figures = Figures(sales: real, foodCost: real, orders: nat, cash: real, upi: real, razorpay: real,
                             expenses: real,
                             cashExpenses: real, upiExpenses: real, profit: real, averageOrder: real, cashBalance: real)

  /** The completed orders, oldest first. */
  function CompletedOrders(orders: seq<Order>): seq<Order> {
    if orders == [] then []
    else
      var n := |orders| - 1;
      CompletedOrders(orders[..n]) + if orders[n].status == Completed then [orders[n]] else []
  }

  function FoodCosts(orders: seq<Order>): real {
    if orders == [] then 0.0 else FoodCosts(orders[..|orders| - 1]) + orders[|orders| - 1].foodCost
  }

  function Spent(expenses: seq<Expense>): real {
    if expenses == [] then 0.0 else Spent(expenses[..|expenses| - 1]) + expenses[|expenses| - 1].amount
  }

  function SpentBy(expenses: seq<Expense>, payBy: string): real {
    if expenses == [] then 0.0
    else
      var last := expenses[|expenses| - 1];
      SpentBy(expenses[..|expenses| - 1], payBy) + if last.payBy == payBy then last.amount else 0.0
  }
}
