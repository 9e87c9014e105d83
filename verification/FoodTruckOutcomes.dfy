/** What each request of the food truck service answers and leaves in the tables, and when money counts as captured. */
module FoodTruckOutcomes {
  import opened Wrappers
  import opened FoodTruck
  import opened FoodTruckLaws
  import StatusWords

  // ----- prices

  predicate Sellable(menu: Menu, item: Item) { item.name in menu && menu[item.name].available }

  /** The first item that cannot be sold. */
  predicate FirstUnsellable(menu: Menu, items: seq<Item>, k: nat) {
    k < |items| && !Sellable(menu, items[k]) && forall j :: 0 <= j < k ==> Sellable(menu, items[j])
  }

  /** Price times quantity, item by item. */
  function Charge(menu: Menu, items: seq<Item>): real
    requires forall i :: 0 <= i < |items| ==> Sellable(menu, items[i])
  {
    if items == [] then 0.0
    else
      var item := items[|items| - 1];
      assert Sellable(menu, item);
      Charge(menu, items[..|items| - 1]) + menu[item.name].price * item.quantity as real
  }

  function Cost(menu: Menu, items: seq<Item>): real
    requires forall i :: 0 <= i < |items| ==> Sellable(menu, items[i])
  {
    if items == [] then 0.0
    else
      var item := items[|items| - 1];
      assert Sellable(menu, item);
      Cost(menu, items[..|items| - 1]) + menu[item.name].foodCost * item.quantity as real
  }

  /** The line of a sellable item, at the menu's price and cost. */
  predicate Sells(line: Line, menu: Menu, item: Item) {
    && Sellable(menu, item) && line.name == item.name && line.quantity == item.quantity
    && line.unitPrice == menu[item.name].price && line.unitFoodCost == menu[item.name].foodCost
    && line.lineTotal == menu[item.name].price * item.quantity as real
    && line.lineFoodCost == menu[item.name].foodCost * item.quantity as real
  }

  /** One line for each item, in order. */
  predicate LinesOf(lines: seq<Line>, menu: Menu, items: seq<Item>) {
    |lines| == |items| && forall i :: 0 <= i < |items| ==> Sells(lines[i], menu, items[i])
  }

  predicate AllSellable(menu: Menu, items: seq<Item>) { forall i :: 0 <= i < |items| ==> Sellable(menu, items[i]) }

  /** Items are priced exactly when all can be sold; otherwise the first that cannot is named. */
  lemma {:induction false} PricedIff(menu: Menu, items: seq<Item>)
    ensures var r := Priced(menu, items);
            && (r.Ok? <==> AllSellable(menu, items))
            && (r.Ok? ==> && LinesOf(r.value, menu, items)
                          && Total(r.value) == Charge(menu, items) && FoodCost(r.value) == Cost(menu, items))
            && forall k: nat :: FirstUnsellable(menu, items, k) ==>
                 r == Err(if items[k].name in menu then ItemUnavailable(items[k].name) else ItemNotFound(items[k].name))
  {
    if items != [] {
      var n := |items| - 1;
      PricedIff(menu, items[..n]);
      forall k: nat | FirstUnsellable(menu, items, k) && k < n ensures FirstUnsellable(menu, items[..n], k) {
      }
      var front := Priced(menu, items[..n]);
      if front.Ok? && Sellable(menu, items[n]) {
        PricedOneMore(menu, items, front.value);
      }
    }
  }

  lemma PricedOneMore(menu: Menu, items: seq<Item>, front: seq<Line>)
    requires items != [] && Sellable(menu, items[|items| - 1])
    requires LinesOf(front, menu, items[..|items| - 1])
    requires Total(front) == Charge(menu, items[..|items| - 1]) && FoodCost(front) == Cost(menu, items[..|items| - 1])
    ensures var item := items[|items| - 1]; var lines := front + [LineOf(item, menu[item.name])];
            && AllSellable(menu, items) && LinesOf(lines, menu, items)
            && Total(lines) == Charge(menu, items) && FoodCost(lines) == Cost(menu, items)
  {
    var n := |items| - 1;
    var line := LineOf(items[n], menu[items[n].name]);
    assert Sells(line, menu, items[n]);
    assert (front + [line])[..n] == front;
    forall i | 0 <= i < n ensures Sells(front[i], menu, items[i]) && Sellable(menu, items[i]) {
      assert items[..n][i] == items[i];
    }
    hide Sells, Sellable;
  }

  /** Amounts go to the nearest paisa, halves to the even one. */
  lemma PaiseIsNearest(total: real)
    ensures var rest := total * 100.0 - AmountPaise(total) as real;
            -0.5 <= rest <= 0.5 && (rest == 0.5 || rest == -0.5 ==> AmountPaise(total) % 2 == 0)
  {
  }

  // ----- which payment a request is about

  predicate FirstOfOrder(payments: seq<Payment>, order: nat, p: nat) {
    && p < |payments| && payments[p].orderId == order
    && forall q :: 0 <= q < p ==> payments[q].orderId != order
  }

  predicate FirstOfProvider(payments: seq<Payment>, id: string, p: nat) {
    && p < |payments| && payments[p].providerOrderId == id
    && forall q :: 0 <= q < p ==> payments[q].providerOrderId != id
  }

  lemma {:induction false} FoundByOrder(payments: seq<Payment>, order: nat)
    ensures forall p: nat :: FindByOrder(payments, order) == Some(p) <==> FirstOfOrder(payments, order, p)
    ensures FindByOrder(payments, order).None? ==> forall p :: 0 <= p < |payments| ==> payments[p].orderId != order
  {
    if payments != [] {
      FoundByOrder(payments[..|payments| - 1], order);
      forall p: nat ensures FindByOrder(payments, order) == Some(p) <==> FirstOfOrder(payments, order, p) {
        assert FirstOfOrder(payments[..|payments| - 1], order, p)
               <==> p < |payments| - 1 && FirstOfOrder(payments, order, p);
      }
    }
  }

  lemma {:induction false} FoundByProvider(payments: seq<Payment>, id: string)
    ensures forall p: nat :: FindByProvider(payments, id) == Some(p) <==> FirstOfProvider(payments, id, p)
    ensures FindByProvider(payments, id).None? ==> forall p :: 0 <= p < |payments| ==> payments[p].providerOrderId != id
  {
    if payments != [] {
      FoundByProvider(payments[..|payments| - 1], id);
      forall p: nat ensures FindByProvider(payments, id) == Some(p) <==> FirstOfProvider(payments, id, p) {
        assert FirstOfProvider(payments[..|payments| - 1], id, p)
               <==> p < |payments| - 1 && FirstOfProvider(payments, id, p);
      }
    }
  }

  // ----- when a payment becomes captured

  /** A signed check of this payment that the provider confirms: its order, its amount, captured. */
  predicate ChecksOut(s: State, e: Event, p: nat) {
    && e.Check? && FirstOfOrder(s.payments, e.order, p)
    && e.signed && e.providerOrderId == s.payments[p].providerOrderId
    && e.fetched == Some(RazorPayment(s.payments[p].providerOrderId, s.payments[p].amountPaise, "captured"))
  }

  /** The provider order that a notification names. */
  function Named(w: WebhookPayload): string {
    if w.paymentOrderId == "" then w.orderEntityId else w.paymentOrderId
  }

  /** A notification that this payment is captured or its order paid, with the right amount or none. */
  predicate NotifiesPaid(s: State, e: Event, p: nat) {
    && e.Notify? && Named(e.payload) != "" && FirstOfProvider(s.payments, Named(e.payload), p)
    && (e.payload.event == "payment.captured" || e.payload.event == "order.paid")
    && (e.payload.amount.None? || e.payload.amount == Some(s.payments[p].amountPaise))
  }

  predicate Earns(s: State, e: Event, p: nat) { ChecksOut(s, e, p) || NotifiesPaid(s, e, p) }

  /** In every state, whatever is interleaved, one step captures a payment exactly for one of these two reasons. */
  lemma CapturedIff(s: State, e: Event, p: nat)
    requires p < |s.payments| && s.payments[p].status != Captured
    ensures p < |Step(s, e).payments| && (Step(s, e).payments[p].status == Captured <==> Earns(s, e, p))
  {
    hide Priced, Total, FoodCost, FindByOrder, FindByProvider, FirstOfOrder, FirstOfProvider, AmountPaise;
    if e.Check? {
      FoundByOrder(s.payments, e.order);
    } else if e.Notify? {
      FoundByProvider(s.payments, WebhookOrderId(e.payload));
    }
  }

  lemma NewIsNotCaptured(s: State, e: Event, p: nat)
    requires |s.payments| <= p < |Step(s, e).payments|
    ensures Step(s, e).payments[p].status == Created && !Step(s, e).payments[p].verified
  {
    hide Priced, Total, FoodCost, FindByOrder, FindByProvider, AmountPaise;
  }

  ghost predicate EarnedAt(s: State, events: seq<Event>, p: nat, i: nat) {
    i < |events| && Earns(Exec(s, events[..i]), events[i], p)
  }

  /** Over every request sequence, interleaved or not, a payment is captured only if it was, or has earned it. */
  lemma {:induction false} CaptureIsEarned(s: State, events: seq<Event>, p: nat)
    requires p < |s.payments| ==> s.payments[p].status != Captured
    ensures p < |Exec(s, events).payments| && Exec(s, events).payments[p].status == Captured ==>
              exists i: nat :: EarnedAt(s, events, p, i)
  {
    hide Step, Earns;
    if events != [] {
      var n: nat := |events| - 1;
      var front, e := events[..n], events[n];
      var s1 := Exec(s, front);
      CaptureIsEarned(s, front, p);
      forall i: nat | EarnedAt(s, front, p, i) ensures EarnedAt(s, events, p, i) {
        assert front[..i] == events[..i];
      }
      if p < |s1.payments| {
        if s1.payments[p].status != Captured {
          CapturedIff(s1, e, p);
          assert Earns(s1, e, p) ==> EarnedAt(s, events, p, n);
        }
      } else if p < |Exec(s, events).payments| {
        NewIsNotCaptured(s1, e, p);
      }
    }
  }

  lemma {:induction false} EarnedStays(s: State, events: seq<Event>, p: nat, i: nat)
    requires Serial(events) && EarnedAt(s, events, p, i)
    ensures p < |Exec(s, events).payments| && Exec(s, events).payments[p].status == Captured
  {
    hide Step;
    var front, e := events[..|events| - 1], events[|events| - 1];
    var s1 := Exec(s, front);
    if i < |front| {
      assert front[..i] == events[..i];
      EarnedStays(s, front, p, i);
      StepKeepsCaptured(s1, e, p);
    } else {
      assert p < |s1.payments|;
      if s1.payments[p].status == Captured {
        StepKeepsCaptured(s1, e, p);
      } else {
        CapturedIff(s1, e, p);
      }
    }
  }

  /** With requests one at a time, the captured payments are exactly those that earned it. */
  lemma SerialCapturedIff(events: seq<Event>, p: nat)
    requires Serial(events)
    ensures p < |Exec(START, events).payments| && Exec(START, events).payments[p].status == Captured
            <==> exists i: nat :: EarnedAt(START, events, p, i)
  {
    hide Exec, EarnedAt;
    CaptureIsEarned(START, events, p);
    if i: nat :| EarnedAt(START, events, p, i) {
      EarnedStays(START, events, p, i);
    }
  }

  // ----- answers and tables

  /** An order of these items, paid this way, at the menu's prices. */
  predicate Orders(o: Order, number: int, payBy: string, status: OrderStatus, menu: Menu, items: seq<Item>) {
    && AllSellable(menu, items) && LinesOf(o.lines, menu, items)
    && o.number == number && o.payBy == payBy && o.status == status
    && o.subtotal == Charge(menu, items) && o.total == Charge(menu, items) && o.foodCost == Cost(menu, items)
  }

  /** The complaint about these items, if there is one. */
  ghost predicate ItemsRefused(menu: Menu, items: seq<Item>, error: HttpError) {
    if items == [] then error == NoItems
    else
      && !AllSellable(menu, items)
      && forall k: nat :: FirstUnsellable(menu, items, k) ==>
           error == if items[k].name in menu then ItemUnavailable(items[k].name) else ItemNotFound(items[k].name)
  }

  /** A counter order: stored as completed, or refused with nothing stored. */
  lemma PlaceOutcome(s: State, menu: Menu, payBy: string, items: seq<Item>, number: int)
    ensures var (r, error) := PlaceOrder(s, menu, payBy, items, number);
            var tender := StatusWords.Upper(payBy);
            match error
            case Some(e) =>
              r == s && if tender != "CASH" && tender != "UPI" then e == BadPaymentMethod
                  else ItemsRefused(menu, items, e)
            case None =>
              && (tender == "CASH" || tender == "UPI") && items != []
              && |r.orders| == |s.orders| + 1 && Orders(r.orders[|s.orders|], number, tender, Completed, menu, items)
              && r == s.(orders := s.orders + [r.orders[|s.orders|]])
  {
    hide Priced, Total, FoodCost, LinesOf, StatusWords.Upper, AllSellable, FirstUnsellable;
    PricedIff(menu, items);
  }

  /** A checkout begins with a pending order, unless the items are refused or cost nothing. */
  lemma BeginOutcome(s: State, menu: Menu, items: seq<Item>, number: int)
    ensures var (r, error) := BeginCheckout(s, menu, items, number);
            match error
            case Some(e) =>
              r == s && if items != [] && AllSellable(menu, items) then e == ZeroAmount && Charge(menu, items) <= 0.0
                        else ItemsRefused(menu, items, e)
            case None =>
              && items != []
              && |r.orders| == |s.orders| + 1
              && Orders(r.orders[|s.orders|], number, "RAZORPAY", PaymentPending, menu, items)
              && Charge(menu, items) > 0.0
              && r == s.(orders := s.orders + [r.orders[|s.orders|]], open := s.open + {|s.orders|})
  {
    hide Priced, Total, FoodCost, LinesOf, AllSellable, FirstUnsellable;
    PricedIff(menu, items);
  }

  /** It ends with a payment over the order's total, or with a failed order. */
  lemma EndOutcome(s: State, order: nat, provider: Option<string>)
    requires Inv(s)
    ensures var r := EndCheckout(s, order, provider);
            if order !in s.open then r == s
            else
              && order < |s.orders|
              && match provider
                 case None =>
                   && r.orders == s.orders[order := s.orders[order].(status := PaymentFailed)]
                   && r == s.(orders := r.orders, open := s.open - {order})
                 case Some(id) =>
                   && |r.payments| == |s.payments| + 1
                   && r == s.(payments := s.payments + [r.payments[|s.payments|]], open := s.open - {order})
                   && var p := r.payments[|s.payments|];
                      && p.orderId == order && p.providerOrderId == id && p.paymentId.None? && !p.verified
                      && p.amount == s.orders[order].total && p.amountPaise as real == 100.0 * s.orders[order].total
                      && p.status == Created
  {
    hide AmountPaise, Total, FoodCost, Cents;
    if order in s.open {
      PaiseIsExact(s.orders[order].total);
    }
  }

  /** Payment p is captured under this payment id, if one is given, and its order completed. */
  predicate Captures(s: State, r: State, p: nat, paymentId: Option<string>) {
    && p < |s.payments|
    && var payment := s.payments[p];
       && r.payments == s.payments[p := payment.(status := Captured, verified := true,
                                                 paymentId := if paymentId.None? then payment.paymentId else paymentId)]
       && r == s.(payments := r.payments, orders := r.orders)
       && (if payment.orderId >= |s.orders| || s.orders[payment.orderId].status == Completed then r.orders == s.orders
           else
             var order := s.orders[payment.orderId];
             r.orders == s.orders[payment.orderId := order.(status := Completed, payBy := "RAZORPAY")])
  }

  predicate Fails(s: State, r: State, p: nat, paymentId: Option<string>) {
    && p < |s.payments|
    && var payment := s.payments[p];
       && r.payments == s.payments[p := payment.(status := Failed,
                                                 paymentId := if paymentId.None? then payment.paymentId else paymentId)]
       && r == s.(payments := r.payments, orders := r.orders)
       && (if payment.orderId >= |s.orders| || s.orders[payment.orderId].status == Completed then r.orders == s.orders
           else
             var order := s.orders[payment.orderId];
             r.orders == s.orders[payment.orderId := order.(status := PaymentFailed)])
  }

  /** A check captures exactly the payment that earns it; refused ones, by their first fault, store nothing. */
  lemma CheckOutcome(s: State, order: nat, providerOrderId: string, paymentId: string, signed: bool,
                     fetched: Option<RazorPayment>)
    ensures var (r, error) := Verify(s, order, providerOrderId, paymentId, signed, fetched);
            var e := Check(order, providerOrderId, paymentId, signed, fetched);
            && (error.None? ==> exists p: nat :: ChecksOut(s, e, p) && Captures(s, r, p, Some(paymentId)))
            && (error.Some? ==> r == s && forall p: nat :: !ChecksOut(s, e, p))
            && forall p: nat :: FirstOfOrder(s.payments, order, p) ==>
                 (error == if providerOrderId != s.payments[p].providerOrderId then Some(OrderIdMismatch)
                           else if !signed then Some(BadSignature)
                           else match fetched
                                case None => Some(ProviderUnavailable)
                                case Some(f) =>
                                  if f.orderId != s.payments[p].providerOrderId then Some(DifferentOrder)
                                  else if f.amount != s.payments[p].amountPaise then Some(AmountMismatch)
                                  else if f.status != "captured" then Some(NotCaptured) else None)
    ensures (forall p: nat :: !FirstOfOrder(s.payments, order, p)) ==>
              Verify(s, order, providerOrderId, paymentId, signed, fetched).1 == Some(PaymentNotFound)
  {
    hide FindByOrder, FirstOfOrder;
    FoundByOrder(s.payments, order);
    var p := FindByOrder(s.payments, order);
    if p.Some? {
      assert FirstOfOrder(s.payments, order, p.value);
      assert Captures(s, Capture(s, p.value, Some(paymentId)), p.value, Some(paymentId));
      hide Captures, Capture;
    }
  }

  /** A notification captures what earns it, fails what is not captured, is refused for its amount, or passes. */
  lemma NotifyOutcome(s: State, w: WebhookPayload)
    ensures var (r, error) := Webhook(s, w);
            && ((forall p: nat :: Named(w) == "" || !FirstOfProvider(s.payments, Named(w), p)) ==>
                  r == s && error.None?)
            && forall p: nat :: Named(w) != "" && FirstOfProvider(s.payments, Named(w), p) ==>
                 var paid := w.event == "payment.captured" || w.event == "order.paid";
                 if NotifiesPaid(s, Notify(w), p) then Captures(s, r, p, w.paymentId) && error.None?
                 else if paid then r == s && error == Some(AmountMismatch)
                 else if w.event == "payment.failed" && s.payments[p].status != Captured
                   then Fails(s, r, p, w.paymentId) && error.None?
                 else r == s && error.None?
  {
    hide FindByProvider, FirstOfProvider;
    FoundByProvider(s.payments, Named(w));
    var p := FindByProvider(s.payments, Named(w));
    if p.Some? {
      assert FirstOfProvider(s.payments, Named(w), p.value);
      assert Captures(s, Capture(s, p.value, w.paymentId), p.value, w.paymentId);
      assert Fails(s, MarkFailed(s, p.value, w.paymentId), p.value, w.paymentId);
      hide Captures, Capture, Fails, MarkFailed;
    }
  }
}
