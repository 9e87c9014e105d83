/** The request handlers as they are coded, over the two tables updated in place. */
module FoodTruckService {
  import opened Wrappers
  import opened FoodTruck
  import opened FoodTruckLaws
  import StatusWords

  lemma {:induction false} FirstErrorStays(menu: Menu, items: seq<Item>, n: nat)
    requires n <= |items| && Priced(menu, items[..n]).Err?
    ensures Priced(menu, items) == Priced(menu, items[..n])
    decreases |items|
  {
    if n < |items| {
      assert items[..|items| - 1][..n] == items[..n];
      FirstErrorStays(menu, items[..|items| - 1], n);
    } else {
      assert items[..n] == items;
    }
  }

  class Service {
    var orders: seq<Order>
    var payments: seq<Payment>

    constructor ()
      ensures Now() == START
    {
      orders, payments := [], [];
    }

    function Now(): State
      reads this
    {
      State(orders, payments, {}, [])
    }

    /** Checks and prices the items, stopping at the first that cannot be sold. */
    method PriceItems(menu: Menu, items: seq<Item>) returns (lines: seq<Line>, subtotal: real, foodCost: real,
                                                             error: Option<HttpError>)
      ensures Priced(menu, items) == if error.Some? then Err(error.value) else Ok(lines)
      ensures subtotal == Total(lines) && foodCost == FoodCost(lines)
    {
      lines, subtotal, foodCost, error := [], 0.0, 0.0, None;
      for i := 0 to |items|
        invariant error.None? && Priced(menu, items[..i]) == Ok(lines)
        invariant subtotal == Total(lines) && foodCost == FoodCost(lines)
      {
        var item := items[i];
        assert items[..i + 1][..i] == items[..i];
        if item.name !in menu {
          error := Some(ItemNotFound(item.name));
        } else if !menu[item.name].available {
          error := Some(ItemUnavailable(item.name));
        }
        if error.Some? {
          FirstErrorStays(menu, items, i + 1);
          return;
        }
        var line := LineOf(item, menu[item.name]);
        subtotal := subtotal + line.lineTotal;
        foodCost := foodCost + line.lineFoodCost;
        lines := lines + [line];
      }
      assert items[..|items|] == items;
    }

    method CreateOrder(menu: Menu, payBy: string, items: seq<Item>, number: int) returns (error: Option<HttpError>)
      modifies this
      ensures (Now(), error) == PlaceOrder(old(Now()), menu, payBy, items, number)
    {
      if StatusWords.Upper(payBy) !in {"CASH", "UPI"} {
        return Some(BadPaymentMethod);
      }
      if items == [] {
        return Some(NoItems);
      }
      var lines, subtotal, foodCost;
      lines, subtotal, foodCost, error := PriceItems(menu, items);
      if error.None? {
        orders := orders + [Order(number, StatusWords.Upper(payBy), Completed, subtotal, foodCost, subtotal, lines)];
      }
    }

    /** provider: the order id that the payment provider returns, if it does. */
    method CreateRazorpayOrder(menu: Menu, items: seq<Item>, number: int, provider: Option<string>)
      returns (error: Option<HttpError>)
      modifies this
      ensures var begun := BeginCheckout(old(Now()), menu, items, number);
              && Now() == (if begun.1.Some? then begun.0 else EndCheckout(begun.0, |old(orders)|, provider))
              && error == (if begun.1.Some? then begun.1 else if provider.None? then Some(ProviderUnavailable)
                           else None)
    {
      if items == [] {
        return Some(NoItems);
      }
      var lines, subtotal, foodCost;
      lines, subtotal, foodCost, error := PriceItems(menu, items);
      if error.Some? {
        return;
      }
      if subtotal <= 0.0 {
        return Some(ZeroAmount);
      }
      var order := |orders|;
      orders := orders + [Order(number, "RAZORPAY", PaymentPending, subtotal, foodCost, subtotal, lines)];
      if provider.None? {
        orders := orders[order := orders[order].(status := PaymentFailed)];
        return Some(ProviderUnavailable);
      }
      payments := payments + [Payment(order, provider.value, None, subtotal, AmountPaise(subtotal), Created, false)];
    }

    method CapturePayment(p: nat, paymentId: Option<string>)
      requires p < |payments|
      modifies this
      ensures Now() == Capture(old(Now()), p, paymentId)
    {
      var payment := payments[p];
      var kept := if paymentId.Some? then paymentId else payment.paymentId;
      payments := payments[p := payment.(paymentId := kept, status := Captured, verified := true)];
      if payment.orderId < |orders| && orders[payment.orderId].status != Completed {
        orders := orders[payment.orderId := orders[payment.orderId].(status := Completed, payBy := "RAZORPAY")];
      }
    }

    method VerifyRazorpayPayment(order: nat, providerOrderId: string, paymentId: string, signed: bool,
                                 fetched: Option<RazorPayment>) returns (error: Option<HttpError>)
      modifies this
      ensures (Now(), error) == Verify(old(Now()), order, providerOrderId, paymentId, signed, fetched)
    {
      var p := FindByOrder(payments, order);
      if p.None? {
        return Some(PaymentNotFound);
      }
      var payment := payments[p.value];
      if providerOrderId != payment.providerOrderId {
        return Some(OrderIdMismatch);
      }
      if !signed {
        return Some(BadSignature);
      }
      if fetched.None? {
        return Some(ProviderUnavailable);
      }
      if fetched.value.orderId != payment.providerOrderId {
        return Some(DifferentOrder);
      }
      if fetched.value.amount != payment.amountPaise {
        return Some(AmountMismatch);
      }
      if fetched.value.status != "captured" {
        return Some(NotCaptured);
      }
      CapturePayment(p.value, Some(paymentId));
      error := None;
    }

    /**
     signature: whether the header's signature matches, if there is one; secret: whether one is
     configured; body: the payload, if it is JSON.
     */
    method RazorpayWebhook(body: Option<WebhookPayload>, signature: Option<bool>, secret: bool)
      returns (error: Option<HttpError>)
      modifies this
      ensures if signature.None? then Now() == old(Now()) && error == Some(MissingSignature)
              else if !secret then Now() == old(Now()) && error == Some(NoSecret)
              else if !signature.value then Now() == old(Now()) && error == Some(BadSignature)
              else if body.None? then Now() == old(Now()) && error == Some(InvalidJson)
              else (Now(), error) == Webhook(old(Now()), body.value)
    {
      if signature.None? {
        return Some(MissingSignature);
      }
      if !secret {
        return Some(NoSecret);
      }
      if !signature.value {
        return Some(BadSignature);
      }
      if body.None? {
        return Some(InvalidJson);
      }
      var w := body.value;
      error := None;
      var id := if w.paymentOrderId != "" then w.paymentOrderId else w.orderEntityId;
      if id == "" {
        return;
      }
      var p := FindByProvider(payments, id);
      if p.None? {
        return;
      }
      if w.event in {"payment.captured", "order.paid"} {
        if w.amount.Some? && w.amount.value != payments[p.value].amountPaise {
          return Some(AmountMismatch);
        }
        CapturePayment(p.value, w.paymentId);
      } else if w.event == "payment.failed" && payments[p.value].status != Captured {
        var payment := payments[p.value];
        var kept := if w.paymentId.Some? then w.paymentId else payment.paymentId;
        payments := payments[p.value := payment.(paymentId := kept, status := Failed)];
        if payment.orderId < |orders| && orders[payment.orderId].status != Completed {
          orders := orders[payment.orderId := orders[payment.orderId].(status := PaymentFailed)];
        }
      }
    }

    /** The money figures of the dashboard, whatever the tables hold. */
    method Dashboard(expenses: seq<Expense>) returns (d: Figures)
      ensures d.sales == Sales(orders) && d.foodCost == FoodCosts(CompletedOrders(orders))
              && d.orders == |CompletedOrders(orders)|
      ensures d.cash == SalesBy(orders, "CASH") && d.upi == SalesBy(orders, "UPI")
              && d.razorpay == SalesBy(orders, "RAZORPAY")
      ensures d.expenses == Spent(expenses)
      ensures d.cashExpenses == SpentBy(expenses, "CASH") && d.upiExpenses == SpentBy(expenses, "UPI")
      ensures d.profit + d.foodCost + d.expenses == d.sales && d.cashBalance + d.cashExpenses == d.cash
      ensures d.averageOrder * d.orders as real == d.sales
      ensures (forall o :: 0 <= o < |orders| ==> Tender(orders[o].payBy)) ==> d.sales == d.cash + d.upi + d.razorpay
      ensures Settled(Now()) ==> d.razorpay == CapturedAmount(payments)
    {
      hide Sales, SalesBy, FoodCosts, Spent, SpentBy, CompletedOrders, Average, CapturedAmount;
      var sales, cash, upi, razorpay := Sales(orders), SalesBy(orders, "CASH"), SalesBy(orders, "UPI"),
          SalesBy(orders, "RAZORPAY");
      var completed := CompletedOrders(orders);
      var foodCost, spent := FoodCosts(completed), Spent(expenses);
      var cashSpent, upiSpent := SpentBy(expenses, "CASH"), SpentBy(expenses, "UPI");
      var count: nat := |completed|;
      NoOrderNoSales(orders);
      AverageTimesCount(sales, count);
      d := Figures(sales, foodCost, count, cash, upi, razorpay, spent, cashSpent, upiSpent, sales - foodCost - spent,
                   Average(sales, count), cash - cashSpent);
      if forall o :: 0 <= o < |orders| ==> Tender(orders[o].payBy) {
        SalesArePartitioned(orders);
      }
    }
  }

  function Average(total: real, count: nat): real { if count != 0 then total / count as real else 0.0 }

  lemma AverageTimesCount(total: real, count: nat)
    requires count == 0 ==> total == 0.0
    ensures Average(total, count) * count as real == total
  {
  }

  lemma {:induction false} NoOrderNoSales(orders: seq<Order>)
    ensures CompletedOrders(orders) == [] ==> Sales(orders) == 0.0
  {
    if orders != [] {
      NoOrderNoSales(orders[..|orders| - 1]);
    }
  }
}
