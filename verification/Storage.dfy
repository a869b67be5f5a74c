/**
 The tables as the program holds them: fields that statements rewrite. Each transaction is a
 sequence of statements, undone when one of them throws, and is proved to be the function of the
 same name in `Tables`.
 */
module Storage {
  import opened Base
  import opened Tables

  class Database {
    var orders: seq<Order>
    var deliveries: map<ItemKey, Delivery>
    var refunds: map<ItemKey, Refund>
    var ledger: seq<LedgerRow>
    var events: seq<OrderEvent>
    var payments: map<string, PaymentEvent>
    var attempts: map<ItemKey, seq<Attempt>>
    var discrepancies: seq<Discrepancy>

    function Snapshot(): Tables
      reads this
    {
      Tables(orders, deliveries, refunds, ledger, events, payments, attempts, discrepancies)
    }

    constructor ()
      ensures Snapshot() == EMPTY
    {
      orders, deliveries, refunds, ledger := [], map[], map[], [];
      events, payments, attempts, discrepancies := [], map[], map[], [];
    }

    method Rollback(t: Tables)
      modifies this
      ensures Snapshot() == t
    {
      orders, deliveries, refunds, ledger := t.orders, t.deliveries, t.refunds, t.ledger;
      events, payments, attempts, discrepancies := t.events, t.payments, t.attempts, t.discrepancies;
    }

    // ---- Statements ----

    // UPDATE orders ... WHERE id = :id AND status = :from; false when no row matched.
    method UpdateOrder(o: nat, from: OrderStatus, to: OrderStatus, extra: Extra) returns (affected: bool)
      modifies this`orders
      ensures affected <==> MoveOrder(old(Snapshot()), o, from, to, extra).Some?
      ensures Snapshot() == if affected then MoveOrder(old(Snapshot()), o, from, to, extra).value else old(Snapshot())
    {
      if !(o < |orders| && orders[o].status == from) {
        return false;
      }
      var row := orders[o].(status := to);
      match extra {
        case NoExtra =>
        case SetPaidAt(at) => row := row.(paidAt := Some(at));
        case SetNotBefore(at) => row := row.(notBefore := Some(at));
      }
      orders := orders[o := row];
      return true;
    }

    method UpdateItem(key: ItemKey, from: ItemStatus, to: ItemStatus, reason: Option<RefundReason>) returns (affected: bool)
      modifies this`orders
      ensures affected <==> MoveItem(old(Snapshot()), key, from, to, reason).Some?
      ensures Snapshot() == if affected then MoveItem(old(Snapshot()), key, from, to, reason).value else old(Snapshot())
    {
      if !(ValidKey(Snapshot(), key) && ItemAt(Snapshot(), key).status == from) {
        return false;
      }
      var order := orders[key.order];
      var row := order.items[key.position].(status := to);
      if reason.Some? {
        row := row.(refundReason := reason);
      }
      orders := orders[key.order := order.(items := order.items[key.position := row])];
      return true;
    }

    method InsertEvent(o: nat, body: EventBody, now: int)
      modifies this`events
      ensures Snapshot() == Log(old(Snapshot()), o, body, now)
    {
      events := events + [OrderEvent(o, body, now)];
    }

    // False when the unique key refuses a row; nothing is inserted then.
    method InsertPostings(pair: seq<LedgerRow>) returns (ok: bool)
      requires |pair| == 2
      modifies this`ledger
      ensures ok <==> Post(old(Snapshot()), pair).Some?
      ensures Snapshot() == if ok then Post(old(Snapshot()), pair).value else old(Snapshot())
    {
      ok := !Clashes(ledger, pair[0]) && !Clashes(ledger, pair[1]);
      if ok {
        ledger := ledger + pair;
      }
    }

    method InsertAttempt(key: ItemKey, a: Attempt)
      modifies this`attempts
      ensures Snapshot() == AddAttempt(old(Snapshot()), key, a)
    {
      attempts := attempts[key := AttemptsOf(Snapshot(), key) + [a]];
    }

    // Returns whether the finding is new; a repeat is ignored.
    method InsertDiscrepancy(d: Discrepancy) returns (isNew: bool)
      modifies this`discrepancies
      ensures Snapshot() == AddDiscrepancy(old(Snapshot()), d)
      ensures isNew <==> !AlreadyFound(old(discrepancies), d)
    {
      isNew := !AlreadyFound(discrepancies, d);
      if isNew {
        discrepancies := discrepancies + [d];
      }
    }

    // ---- Transactions ----

    method Create(currency: string, units: seq<Unit>, now: int) returns (r: Result<nat>)
      modifies this
      ensures match CreateOrder(old(Snapshot()), currency, units, now)
              case None => r.Err? && Snapshot() == old(Snapshot())
              case Some(t) => r == Ok(old(|orders|)) && Snapshot() == t
    {
      if |units| == 0 {
        return Err(Impossible);
      }
      var amount, items := 0, [];
      for k := 0 to |units|
        invariant amount == TotalPrice(units[..k])
        invariant items == NewItems(units)[..k]
      {
        assert units[..k + 1][..k] == units[..k];
        amount := amount + units[k].price;
        items := items + [Item(units[k].id, units[k].price, Pending, None)];
      }
      assert units[..|units|] == units;
      assert items == NewItems(units);
      orders := orders + [Order(amount, currency, Created, items, None, None)];
      InsertEvent(|orders| - 1, OrderCreated(amount, items), now);
      return Ok(|orders| - 1);
    }

    // payments.service.ts: record the event, apply it to the locked order, then write the outcome.
    method Handle(w: Webhook, now: int) returns (r: Result<WebhookOutcome>)
      modifies this
      ensures match HandleWebhook(old(Snapshot()), w, now)
              case None => r.Err? && Snapshot() == old(Snapshot())
              case Some(done) => r == Ok(done.1) && Snapshot() == done.0
    {
      var saved := Snapshot();
      if w.event in payments {
        return Ok(Duplicate);
      }
      payments := payments[w.event := RecordedEvent(w, Received)];
      r := Apply(w, now);
      if r.Err? {
        Rollback(saved);
        return;
      }
      payments := payments[w.event := RecordedEvent(w, r.value)];
    }

    method Apply(w: Webhook, now: int) returns (r: Result<WebhookOutcome>)
      modifies this`orders, this`events, this`ledger
      ensures match ApplyPayment(old(Snapshot()), w, now)
              case None => r.Err?
              case Some(done) => r == Ok(done.1) && Snapshot() == done.0
    {
      if !(0 <= w.order < |orders|) {
        return Ok(OrderNotFound);
      }
      var order := orders[w.order];
      if order.status != Created {
        return Ok(Ignored(order.status));
      }
      if w.status == PaymentFail {
        var moved := UpdateOrder(w.order, Created, PaymentFailed, NoExtra);
        InsertEvent(w.order, OrderMoved(Created, PaymentFailed, None), now);
        return Ok(Applied);
      }
      if w.amount != order.amount || w.currency != order.currency {
        return Ok(AmountMismatch);
      }
      var moved := UpdateOrder(w.order, Created, Paid, SetPaidAt(now));
      InsertEvent(w.order, OrderMoved(Created, Paid, Some(w.amount)), now);
      var posted := InsertPostings(PaymentPair(w.order, w.event, order.amount, now));
      if !posted {
        return Err(Impossible);
      }
      return Ok(Applied);
    }

    // delivery.worker.ts: take a due order and mark it `delivering`.
    method ClaimOrder(o: nat, now: int) returns (r: Result<()>)
      modifies this
      ensures match Claim(old(Snapshot()), o, now)
              case None => r.Err? && Snapshot() == old(Snapshot())
              case Some(t) => r.Ok? && Snapshot() == t
    {
      if !(o < |orders| && IsDue(orders[o], now)) {
        return Err(LostRace);
      }
      var moved := UpdateOrder(o, Paid, Delivering, NoExtra);
      InsertEvent(o, OrderMoved(Paid, Delivering, None), now);
      return Ok(());
    }

    // recovery.service.ts: one statement, blind to what the row says by now.
    method RequeueOrder(o: nat, previous: OrderStatus, now: int)
      requires o < |orders|
      modifies this
      ensures Snapshot() == Requeue(old(Snapshot()), o, previous, now)
    {
      orders := orders[o := orders[o].(status := Paid)];
      InsertEvent(o, OrderMoved(previous, Paid, None), now);
    }

    // delivery.service.ts, complete: the delivery row, the item's status, its event, its postings.
    method CompleteItem(key: ItemKey, amount: int, d: Delivery, now: int) returns (r: Result<bool>)
      modifies this
      ensures match Complete(old(Snapshot()), key, amount, d, now)
              case Done(t) => r == Ok(true) && Snapshot() == t
              case CodeAlreadyDelivered => r == Ok(false) && Snapshot() == old(Snapshot())
              case Refused => r.Err? && Snapshot() == old(Snapshot())
    {
      var saved := Snapshot();
      if key !in deliveries {
        if CodeTaken(Snapshot(), d.code) {
          return Ok(false);
        }
        if RequestTaken(Snapshot(), d.requestId) {
          return Err(Impossible);
        }
        deliveries := deliveries[key := d];
      } else if deliveries[key].code != d.code {
        return Err(Impossible);
      }
      var moved := UpdateItem(key, Pending, Delivered, None);
      if !moved {
        Rollback(saved);
        return Err(LostRace);
      }
      InsertEvent(key.order, ItemMoved(key.position, Pending, Delivered, Issued(d.code, d.supplier, d.requestId, amount)), now);
      var posted := InsertPostings(DeliveryPair(key, amount, now));
      if !posted {
        Rollback(saved);
        return Err(Impossible);
      }
      return Ok(true);
    }

    // delivery.service.ts, refund: the refund row, the item's status, its event, its postings.
    method RefundItem(key: ItemKey, local: Item, now: int) returns (r: Result<()>)
      modifies this
      ensures match BookRefund(old(Snapshot()), key, local, now)
              case None => r.Err? && Snapshot() == old(Snapshot())
              case Some(t) => r.Ok? && Snapshot() == t
    {
      var saved := Snapshot();
      if key !in refunds {
        refunds := refunds[key := Refund(local.amount, ReasonOr(local.refundReason))];
      }
      var moved := UpdateItem(key, Refunding, Refunded, None);
      if !moved {
        Rollback(saved);
        return Err(LostRace);
      }
      InsertEvent(key.order, ItemMoved(key.position, Refunding, Refunded, GivenBack(local.amount, local.refundReason)), now);
      var posted := InsertPostings(RefundPair(key, local.amount, now));
      if !posted {
        Rollback(saved);
        return Err(Impossible);
      }
      return Ok(());
    }
  }
}
