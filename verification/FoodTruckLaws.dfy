/** Money and status over all request sequences. */
module FoodTruckLaws {
  import opened Wrappers
  import opened FoodTruck

  // ----- money

  /** Two decimals, as the menu's NUMERIC(12,2) columns hold. */
  predicate Cents(x: real) { (x * 100.0).Floor as real == x * 100.0 }

  predicate MenuOk(menu: Menu) { forall name :: name in menu ==> Cents(menu[name].price) && menu[name].price >= 0.0 }

  lemma CentsZero()
    ensures Cents(0.0)
  {
    assert 0.0 * 100.0 == 0.0;
  }

  lemma CentsAdd(x: real, y: real)
    requires Cents(x) && Cents(y)
    ensures Cents(x + y)
  {
    assert (x + y) * 100.0 == ((x * 100.0).Floor + (y * 100.0).Floor) as real;
  }

  lemma {:induction false} CentsTimes(x: real, n: nat, product: real)
    requires Cents(x) && product == x * n as real
    ensures Cents(product)
  {
    if n == 0 {
      CentsZero();
      assert product == 0.0;
    } else {
      var less := x * (n - 1) as real;
      CentsTimes(x, n - 1, less);
      CentsAdd(less, x);
      assert product == less + x;
    }
  }

  lemma {:induction false} PricedInCents(menu: Menu, items: seq<Item>)
    requires MenuOk(menu) && forall i :: 0 <= i < |items| ==> items[i].quantity > 0
    ensures Priced(menu, items).Ok? ==> Cents(Total(Priced(menu, items).value))
  {
    CentsZero();
    if items != [] && Priced(menu, items).Ok? {
      var item := items[|items| - 1];
      var before := Total(Priced(menu, items[..|items| - 1]).value);
      var line := LineOf(item, menu[item.name]).lineTotal;
      PricedInCents(menu, items[..|items| - 1]);
      CentsTimes(menu[item.name].price, item.quantity, line);
      CentsAdd(before, line);
      assert Total(Priced(menu, items).value) == before + line;
    }
  }

  /** On amounts with two decimals nothing is rounded away. */
  lemma PaiseIsExact(total: real)
    requires Cents(total)
    ensures AmountPaise(total) as real == 100.0 * total
  {
  }

  // ----- one order, one payment

  predicate Tender(payBy: string) { payBy in {"CASH", "UPI", "RAZORPAY"} }

  predicate OrderOk(o: Order) {
    o.total == Total(o.lines) && o.subtotal == o.total && o.foodCost == FoodCost(o.lines) && Tender(o.payBy)
        && Cents(o.total)
  }

  predicate PaymentOk(orders: seq<Order>, p: Payment) {
    && p.orderId < |orders| && orders[p.orderId].payBy == "RAZORPAY"
    && p.amount == orders[p.orderId].total && p.amountPaise as real == 100.0 * p.amount
  }

  /** A captured payment never stands on an open order. */
  predicate CaptureOk(orders: seq<Order>, p: Payment) {
    p.orderId < |orders| && (p.status == Captured ==> orders[p.orderId].status == Completed)
  }

  predicate PayOnce(s: State) {
    && (forall p, q :: 0 <= p < q < |s.payments| ==> s.payments[p].orderId != s.payments[q].orderId)
    && (forall p :: 0 <= p < |s.payments| ==> s.payments[p].orderId !in s.open)
    && (forall o :: o in s.open ==>
        o < |s.orders| && s.orders[o].status == PaymentPending && s.orders[o].payBy == "RAZORPAY")
  }

  ghost predicate Inv(s: State) {
    && (forall o :: 0 <= o < |s.orders| ==> OrderOk(s.orders[o]))
    && (forall p :: 0 <= p < |s.payments| ==> PaymentOk(s.orders, s.payments[p]) && CaptureOk(s.orders, s.payments[p]))
    && PayOnce(s)
  }

  predicate EventOk(e: Event) {
    && (e.Place? || e.Begin? ==> MenuOk(e.menu) && forall i :: 0 <= i < |e.items| ==> e.items[i].quantity > 0)
  }

  lemma OrderInsertKeepsInv(s: State, o: Order, opens: bool)
    requires Inv(s) && OrderOk(o) && (opens ==> o.status == PaymentPending && o.payBy == "RAZORPAY")
    ensures Inv(s.(orders := s.orders + [o], open := if opens then s.open + {|s.orders|} else s.open))
  {
    hide OrderOk;
  }

  lemma PlaceKeepsInv(s: State, e: Event)
    requires Inv(s) && EventOk(e) && e.Place?
    ensures Inv(Step(s, e))
  {
    hide Inv, MenuOk;
    PricedInCents(e.menu, e.items);
    var r := PlaceOrder(s, e.menu, e.payBy, e.items, e.number);
    if r.1.None? {
      OrderInsertKeepsInv(s, r.0.orders[|s.orders|], false);
    }
  }

  lemma BeginKeepsInv(s: State, e: Event)
    requires Inv(s) && EventOk(e) && e.Begin?
    ensures Inv(Step(s, e))
  {
    hide Inv, MenuOk;
    PricedInCents(e.menu, e.items);
    var r := BeginCheckout(s, e.menu, e.items, e.number);
    if r.1.None? {
      OrderInsertKeepsInv(s, r.0.orders[|s.orders|], true);
    }
  }

  lemma EndKeepsInv(s: State, order: nat, provider: Option<string>)
    requires Inv(s)
    ensures Inv(EndCheckout(s, order, provider))
  {
    hide AmountPaise, Total, FoodCost, Cents;
    if order in s.open && provider.Some? {
      PaiseIsExact(s.orders[order].total);
    }
  }

  lemma CaptureKeepsInv(s: State, p: nat, paymentId: Option<string>)
    requires Inv(s) && p < |s.payments|
    ensures Inv(Capture(s, p, paymentId))
  {
    hide Total, FoodCost, Cents;
  }

  lemma FailKeepsInv(s: State, p: nat, paymentId: Option<string>)
    requires Inv(s) && p < |s.payments|
    ensures Inv(MarkFailed(s, p, paymentId))
  {
    hide Total, FoodCost, Cents;
  }

  lemma StepKeepsInv(s: State, e: Event)
    requires Inv(s) && EventOk(e)
    ensures Inv(Step(s, e))
  {
    hide PlaceOrder, BeginCheckout, EndCheckout, Capture, MarkFailed, EventOk;
    match e
    case Place(_, _, _, _) => PlaceKeepsInv(s, e);
    case Begin(_, _, _) => BeginKeepsInv(s, e);
    case End(order, provider) => EndKeepsInv(s, order, provider);
    case Check(order, _, paymentId, _, _) =>
      var p := FindByOrder(s.payments, order);
      if p.Some? { CaptureKeepsInv(s, p.value, Some(paymentId)); }
    case Notify(payload) =>
      var p := FindByProvider(s.payments, WebhookOrderId(payload));
      if p.Some? {
        CaptureKeepsInv(s, p.value, payload.paymentId);
        FailKeepsInv(s, p.value, payload.paymentId);
      }
    case FailRead(_) =>
    case FailWrite(k) => if k < |s.stale| && s.stale[k] < |s.payments| { FailKeepsInv(s, s.stale[k], None); }
  }

  /**
   Over every request sequence, statements of failed webhooks interleaved at will: each
   order's total is the sum of its lines and each payment asks exactly 100 times it, and a
   captured payment's order is completed.
   */
  lemma {:induction false} ExecKeepsInv(s: State, events: seq<Event>)
    requires Inv(s) && forall i :: 0 <= i < |events| ==> EventOk(events[i])
    ensures Inv(Exec(s, events))
  {
    hide Inv, Step, EventOk;
    if events != [] {
      ExecKeepsInv(s, events[..|events| - 1]);
      StepKeepsInv(Exec(s, events[..|events| - 1]), events[|events| - 1]);
    }
  }

  // ----- what is never taken back

  lemma StepKeepsCompleted(s: State, e: Event, o: nat)
    requires Inv(s) && o < |s.orders| && s.orders[o].status == Completed
    ensures o < |Step(s, e).orders| && Step(s, e).orders[o].status == Completed
            && Step(s, e).orders[o].total == s.orders[o].total
  {
    hide Priced, Total, FoodCost, OrderOk, PaymentOk, CaptureOk;
  }

  /** A completed order stays completed, even with interleaved statements. */
  lemma {:induction false} CompletedIsAbsorbing(s: State, events: seq<Event>, o: nat)
    requires Inv(s) && forall i :: 0 <= i < |events| ==> EventOk(events[i])
    requires o < |s.orders| && s.orders[o].status == Completed
    ensures o < |Exec(s, events).orders| && Exec(s, events).orders[o].status == Completed
  {
    hide Inv, Step, EventOk;
    if events != [] {
      ExecKeepsInv(s, events[..|events| - 1]);
      CompletedIsAbsorbing(s, events[..|events| - 1], o);
      StepKeepsCompleted(Exec(s, events[..|events| - 1]), events[|events| - 1], o);
    }
  }

  predicate Serial(events: seq<Event>) {
    forall i :: 0 <= i < |events| ==> !events[i].FailRead? && !events[i].FailWrite?
  }

  /** Every payment is captured exactly when its order is completed, and Razorpay sales are the captured money. */
  ghost predicate Settled(s: State) {
    && (forall p :: 0 <= p < |s.payments| ==>
          s.payments[p].orderId < |s.orders|
          && (s.payments[p].status == Captured <==> s.orders[s.payments[p].orderId].status == Completed))
    && SalesBy(s.orders, "RAZORPAY") == CapturedAmount(s.payments)
  }

  lemma {:induction false} SalesByUpdate(orders: seq<Order>, o: nat, order: Order, payBy: string)
    requires o < |orders|
    ensures SalesBy(orders[o := order], payBy)
            == SalesBy(orders, payBy) - SalesBy([orders[o]], payBy) + SalesBy([order], payBy)
  {
    var n := |orders| - 1;
    assert SalesBy([orders[o]][..0], payBy) == 0.0 == SalesBy([order][..0], payBy);
    if o == n {
      assert orders[o := order][..n] == orders[..n];
    } else {
      SalesByUpdate(orders[..n], o, order, payBy);
      assert orders[o := order][..n] == orders[..n][o := order];
    }
  }

  lemma {:induction false} CapturedUpdate(payments: seq<Payment>, p: nat, payment: Payment)
    requires p < |payments|
    ensures CapturedAmount(payments[p := payment])
            == CapturedAmount(payments) - CapturedAmount([payments[p]]) + CapturedAmount([payment])
  {
    var n := |payments| - 1;
    assert CapturedAmount([payments[p]][..0]) == 0.0 == CapturedAmount([payment][..0]);
    if p == n {
      assert payments[p := payment][..n] == payments[..n];
    } else {
      CapturedUpdate(payments[..n], p, payment);
      assert payments[p := payment][..n] == payments[..n][p := payment];
    }
  }

  lemma OneOrder(o: Order, payBy: string)
    ensures SalesBy([o], payBy) == if o.status == Completed && o.payBy == payBy then o.total else 0.0
  {
    assert [o][..0] == [];
  }

  lemma OnePayment(p: Payment)
    ensures CapturedAmount([p]) == if p.status == Captured then p.amount else 0.0
  {
    assert [p][..0] == [];
  }

  lemma CaptureSettles(s: State, p: nat, paymentId: Option<string>)
    requires Inv(s) && Settled(s) && p < |s.payments|
    ensures Settled(Capture(s, p, paymentId))
  {
    hide SalesBy, CapturedAmount, OrderOk;
    var payment := s.payments[p];
    var order := s.orders[payment.orderId];
    var payment', order' := Capture(s, p, paymentId).payments[p], Capture(s, p, paymentId).orders[payment.orderId];
    SalesByUpdate(s.orders, payment.orderId, order', "RAZORPAY");
    CapturedUpdate(s.payments, p, payment');
    OneOrder(order, "RAZORPAY");
    OneOrder(order', "RAZORPAY");
    OnePayment(payment);
    OnePayment(payment');
  }

  lemma FailSettles(s: State, p: nat, paymentId: Option<string>)
    requires Inv(s) && Settled(s) && p < |s.payments| && s.payments[p].status != Captured
    ensures Settled(MarkFailed(s, p, paymentId))
  {
    hide SalesBy, CapturedAmount, OrderOk;
    var payment := s.payments[p];
    var order := s.orders[payment.orderId];
    var payment', order' := MarkFailed(s, p, paymentId).payments[p],
        MarkFailed(s, p, paymentId).orders[payment.orderId];
    SalesByUpdate(s.orders, payment.orderId, order', "RAZORPAY");
    CapturedUpdate(s.payments, p, payment');
    OneOrder(order, "RAZORPAY");
    OneOrder(order', "RAZORPAY");
    OnePayment(payment);
    OnePayment(payment');
  }

  lemma AppendedOrderSettles(s: State, o: Order, open: set<nat>)
    requires Settled(s) && (o.payBy != "RAZORPAY" || o.status != Completed)
    ensures Settled(s.(orders := s.orders + [o], open := open))
  {
    assert (s.orders + [o])[..|s.orders|] == s.orders;
    hide CapturedAmount;
  }

  lemma EndSettles(s: State, order: nat, provider: Option<string>)
    requires Inv(s) && Settled(s)
    ensures Settled(EndCheckout(s, order, provider))
  {
    hide SalesBy, CapturedAmount, OrderOk, PaymentOk, AmountPaise;
    if order in s.open {
      var failed := s.orders[order].(status := PaymentFailed);
      SalesByUpdate(s.orders, order, failed, "RAZORPAY");
      OneOrder(s.orders[order], "RAZORPAY");
      OneOrder(failed, "RAZORPAY");
      if provider.Some? {
        AppendedPayment(s.payments, EndCheckout(s, order, provider).payments[|s.payments|]);
      }
    }
  }

  lemma AppendedPayment(payments: seq<Payment>, p: Payment)
    ensures CapturedAmount(payments + [p]) == CapturedAmount(payments) + if p.status == Captured then p.amount else 0.0
  {
    assert (payments + [p])[..|payments|] == payments;
  }

  lemma StepSettles(s: State, e: Event)
    requires Inv(s) && Settled(s) && !e.FailRead? && !e.FailWrite?
    ensures Settled(Step(s, e))
  {
    hide EndCheckout, Capture, MarkFailed, Settled, Inv, Priced, Total, FoodCost;
    match e
    case Place(menu, payBy, items, number) =>
      var r := PlaceOrder(s, menu, payBy, items, number);
      if r.1.None? { AppendedOrderSettles(s, r.0.orders[|s.orders|], s.open); }
    case Begin(menu, items, number) =>
      var r := BeginCheckout(s, menu, items, number);
      if r.1.None? { AppendedOrderSettles(s, r.0.orders[|s.orders|], r.0.open); }
    case End(order, provider) => EndSettles(s, order, provider);
    case Check(order, _, paymentId, _, _) =>
      var p := FindByOrder(s.payments, order);
      if p.Some? { CaptureSettles(s, p.value, Some(paymentId)); }
    case Notify(payload) =>
      var p := FindByProvider(s.payments, WebhookOrderId(payload));
      if p.Some? {
        CaptureSettles(s, p.value, payload.paymentId);
        if s.payments[p.value].status != Captured { FailSettles(s, p.value, payload.paymentId); }
      }
    case FailRead(_) =>
    case FailWrite(_) =>
  }

  /**
   With requests one at a time, a payment is captured exactly when its order is completed,
   and the Razorpay sales of the dashboard are exactly the captured amounts.
   */
  lemma {:induction false} SerialRequestsSettle(s: State, events: seq<Event>)
    requires Inv(s) && Settled(s) && Serial(events) && forall i :: 0 <= i < |events| ==> EventOk(events[i])
    ensures Settled(Exec(s, events))
  {
    hide Inv, Settled, Step, EventOk;
    if events != [] {
      var front := events[..|events| - 1];
      ExecKeepsInv(s, front);
      SerialRequestsSettle(s, front);
      StepSettles(Exec(s, front), events[|events| - 1]);
    }
  }

  /**
   A failed-payment write separated from its read breaks the books exactly when the payment was
   captured in between.
   */
  lemma StaleFailureSettlesIff(s: State, k: nat)
    requires Inv(s) && Settled(s) && k < |s.stale| && s.stale[k] < |s.payments|
    ensures Settled(Step(s, FailWrite(k))) <==> s.payments[s.stale[k]].status != Captured
  {
    var p := s.stale[k];
    if s.payments[p].status != Captured {
      FailSettles(s, p, None);
      hide Settled;
    } else {
      assert s.orders[s.payments[p].orderId].status == Completed;
      assert Step(s, FailWrite(k)).payments[p].status == Failed;
    }
  }

  /** Such an interleaving can happen to every payment that is not captured yet. */
  lemma CaptureCanBeOverwritten(s: State, p: nat)
    requires Inv(s) && Settled(s) && p < |s.payments| && s.payments[p].status != Captured
    requires s.payments[p].providerOrderId != "" && FindByProvider(s.payments, s.payments[p].providerOrderId) == Some(p)
    ensures var id := s.payments[p].providerOrderId;
            var paid := WebhookPayload("payment.captured", id, "", None, None);
            !Settled(Step(Step(Step(s, FailRead(id)), Notify(paid)), FailWrite(|s.stale|)))
  {
    var id := s.payments[p].providerOrderId;
    var s1 := Step(s, FailRead(id));
    var s2 := Step(s1, Notify(WebhookPayload("payment.captured", id, "", None, None)));
    CaptureSettles(s1, p, None);
    CaptureKeepsInv(s1, p, None);
    StaleFailureSettlesIff(s2, |s.stale|);
    hide Settled, Inv;
  }

  lemma EmptyTablesSettle()
    ensures Inv(START) && Settled(START)
  {
  }

  /** From empty tables every request sequence keeps the money right, and a serial one leaves the books settled. */
  lemma RequestsFromEmptyTables(events: seq<Event>)
    requires forall i :: 0 <= i < |events| ==> EventOk(events[i])
    ensures Inv(Exec(START, events))
    ensures Serial(events) ==> Settled(Exec(START, events))
  {
    hide Inv, Settled, Exec, EventOk;
    EmptyTablesSettle();
    ExecKeepsInv(START, events);
    if Serial(events) {
      SerialRequestsSettle(START, events);
    }
  }

  lemma StepKeepsCaptured(s: State, e: Event, p: nat)
    requires p < |s.payments| && s.payments[p].status == Captured && !e.FailWrite?
    ensures p < |Step(s, e).payments| && Step(s, e).payments[p].status == Captured
  {
    hide Priced, Total, FoodCost;
  }

  /** With requests one at a time, a captured payment stays captured. */
  lemma {:induction false} CapturedIsAbsorbing(s: State, events: seq<Event>, p: nat)
    requires Serial(events) && p < |s.payments| && s.payments[p].status == Captured
    ensures p < |Exec(s, events).payments| && Exec(s, events).payments[p].status == Captured
  {
    hide Step;
    if events != [] {
      CapturedIsAbsorbing(s, events[..|events| - 1], p);
      StepKeepsCaptured(Exec(s, events[..|events| - 1]), events[|events| - 1], p);
    }
  }

  /** The dashboard's sales are cash plus UPI plus Razorpay sales. */
  lemma {:induction false} SalesArePartitioned(orders: seq<Order>)
    requires forall o :: 0 <= o < |orders| ==> Tender(orders[o].payBy)
    ensures Sales(orders) == SalesBy(orders, "CASH") + SalesBy(orders, "UPI") + SalesBy(orders, "RAZORPAY")
  {
    if orders != [] {
      SalesArePartitioned(orders[..|orders| - 1]);
    }
  }
}
