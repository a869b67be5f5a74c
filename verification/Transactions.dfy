/** Every transaction of the program keeps the tables consistent and only moves rows forward. */
module Transactions {
  import opened Base
  import opened Tables
  import opened Books
  import opened RequestIds
  import opened Consistency

  // ---- One item changes status ----

  ghost predicate Replaces(t: Tables, t': Tables, key: ItemKey, row: Item) {
    && ValidKey(t, key)
    && t'.orders == WithItem(t, key, row).orders
    && row.id == ItemAt(t, key).id
    && row.amount == ItemAt(t, key).amount
    && t'.payments == t.payments
  }

  lemma ReplacedRows(t: Tables, t': Tables, key: ItemKey, row: Item)
    requires Replaces(t, t', key, row)
    ensures forall a :: ValidKey(t', a) <==> ValidKey(t, a)
    ensures forall a | ValidKey(t, a) :: ItemAt(t', a) == if a == key then row else ItemAt(t, a)
    ensures IdsOk(t) ==> IdsOk(t')
    ensures ItemAdvances(ItemAt(t, key), row) ==> Advances(t, t')
  {
    assert forall a | ValidKey(t, a) :: ItemAt(t', a) == if a == key then row else ItemAt(t, a);
    if IdsOk(t) {
      assert forall a | ValidKey(t, a) :: ItemAt(t', a).id == ItemAt(t, a).id;
    }
  }

  lemma ReplacedOrder(t: Tables, t': Tables, key: ItemKey, row: Item)
    requires Replaces(t, t', key, row)
    requires OrdersOk(t) && IsPaid(t.orders[key.order].status) && IsOpen(ItemAt(t, key).status)
    ensures OrdersOk(t')
  {
    var order := t.orders[key.order];
    SplitUpdate(order.items, key.position, row);
    assert OrderOk(order);
    assert OrderOk(t'.orders[key.order]);
  }

  lemma ReplacedEvents(t: Tables, t': Tables, key: ItemKey, row: Item)
    requires Replaces(t, t', key, row)
    requires EventsOk(t) && OneApplied(t) && PaidHaveEvents(t)
    requires forall e: string :: Postings(t'.ledger, ForPayment, EventRef(e)) == Postings(t.ledger, ForPayment, EventRef(e))
    ensures EventsOk(t') && OneApplied(t') && PaidHaveEvents(t')
  {
    forall e ensures EventOk(t', e) { assert EventOk(t, e); }
    assert forall e, o: nat :: PaidBy(t, e, o) <==> PaidBy(t', e, o);
    assert forall e :: IsApplied(t, e) <==> IsApplied(t', e);
  }

  lemma DecidedMoney(t: Tables, t': Tables, key: ItemKey, row: Item)
    requires MoneyOk(t) && Replaces(t, t', key, row)
    requires ItemAt(t, key).status == Pending && row.status == Refunding
    requires t'.ledger == t.ledger && t'.events == t.events
    ensures MoneyOk(t')
  {
    forall lens ensures LogsAgree(t', lens) { assert LogsAgree(t, lens); }
    forall scope ensures LiveAgrees(t', scope) {
      assert LiveAgrees(t, scope);
      TotalUpdate(t.orders, key.order, t'.orders[key.order], scope);
      SplitUpdate(t.orders[key.order].items, key.position, row);
    }
  }

  lemma DecideKeeps(t: Tables, key: ItemKey, reason: RefundReason)
    requires Consistent(t)
    requires key.order < |t.orders| && IsPaid(t.orders[key.order].status)
    requires Decide(t, key, reason).Some?
    ensures ValidKey(t, key) && ItemAt(t, key).status == Pending
    ensures Decide(t, key, reason).value == WithItem(t, key, ItemAt(t, key).(status := Refunding, refundReason := Some(reason)))
    ensures Consistent(Decide(t, key, reason).value)
    ensures Advances(t, Decide(t, key, reason).value)
  {
    var t' := Decide(t, key, reason).value;
    var row := ItemAt(t, key).(status := Refunding, refundReason := Some(reason));
    ReplacedRows(t, t', key, row);
    ReplacedOrder(t, t', key, row);
    ReplacedEvents(t, t', key, row);
    DecidedMoney(t, t', key, row);
    SameDeliveries(t, t');
    forall a ensures KeyOk(t', a) { assert KeyOk(t, a); }
  }

  // What settling an item writes: its row, its posting pair and its event; `delivered` says which way.
  ghost predicate Settles(t: Tables, t': Tables, key: ItemKey, delivered: bool, e: OrderEvent) {
    && ValidKey(t, key)
    && IsPaid(t.orders[key.order].status)
    && var item := ItemAt(t, key);
    && item.status == (if delivered then Pending else Refunding)
    && Replaces(t, t', key, item.(status := if delivered then Delivered else Refunded))
    && var pair := if delivered then DeliveryPair(key, item.amount, e.at) else RefundPair(key, item.amount, e.at);
    && t'.ledger == t.ledger + pair
    && t'.events == t.events + [e]
    && Explains(pair, e)
    && DeliveriesOk(t')
    && t'.deliveries.Keys == t.deliveries.Keys + (if delivered then {key} else {})
    && (if delivered then t'.refunds == t.refunds
        else item.refundReason.Some? && t'.refunds == t.refunds[key := Refund(item.amount, item.refundReason.value)])
  }

  lemma SettledKey(t: Tables, t': Tables, key: ItemKey, delivered: bool, e: OrderEvent, a: ItemKey)
    requires Settles(t, t', key, delivered, e) && KeyOk(t, a)
    ensures KeyOk(t', a)
  {
    var row := t'.orders[key.order].items[key.position];
    var pair := if delivered then DeliveryPair(key, row.amount, e.at) else RefundPair(key, row.amount, e.at);
    ReplacedRows(t, t', key, row);
    PostingsAppend(t.ledger, pair, ForDelivery, ItemRef(a));
    PostingsAppend(t.ledger, pair, ForRefund, ItemRef(a));
  }

  lemma SettledKeys(t: Tables, t': Tables, key: ItemKey, delivered: bool, e: OrderEvent)
    requires Settles(t, t', key, delivered, e) && KeysOk(t)
    ensures KeysOk(t')
  {
    forall a ensures KeyOk(t', a) {
      assert KeyOk(t, a);
      SettledKey(t, t', key, delivered, e, a);
    }
  }

  lemma SettledLive(t: Tables, t': Tables, key: ItemKey, delivered: bool, e: OrderEvent, scope: Option<nat>)
    requires Settles(t, t', key, delivered, e) && LiveAgrees(t, scope) && LogsAgree(t, Always(scope))
    ensures LiveAgrees(t', scope)
  {
    hide LedgerMoved, EventsMoved, BalancesOf, LogsAgree, TotalHeld, DeliveriesOk;
    var row := t'.orders[key.order].items[key.position];
    var pair := if delivered then DeliveryPair(key, row.amount, e.at) else RefundPair(key, row.amount, e.at);
    PairKeepsLogs(t, t', pair, e, Always(scope));
    TotalUpdate(t.orders, key.order, t'.orders[key.order], scope);
    SplitUpdate(t.orders[key.order].items, key.position, row);
  }

  lemma SettledMoney(t: Tables, t': Tables, key: ItemKey, delivered: bool, e: OrderEvent)
    requires Settles(t, t', key, delivered, e) && MoneyOk(t)
    ensures MoneyOk(t')
  {
    var row := t'.orders[key.order].items[key.position];
    var pair := if delivered then DeliveryPair(key, row.amount, e.at) else RefundPair(key, row.amount, e.at);
    hide LogsAgree, LiveAgrees;
    forall lens ensures LogsAgree(t', lens) {
      assert LogsAgree(t, lens);
      PairKeepsLogs(t, t', pair, e, lens);
    }
    forall scope ensures LiveAgrees(t', scope) {
      assert LiveAgrees(t, scope) && LogsAgree(t, Always(scope));
      SettledLive(t, t', key, delivered, e, scope);
    }
  }

  lemma SettleKeeps(t: Tables, t': Tables, key: ItemKey, delivered: bool, e: OrderEvent)
    requires Consistent(t) && Settles(t, t', key, delivered, e)
    ensures Consistent(t') && Advances(t, t')
  {
    var row := t'.orders[key.order].items[key.position];
    var pair := if delivered then DeliveryPair(key, row.amount, e.at) else RefundPair(key, row.amount, e.at);
    ReplacedRows(t, t', key, row);
    ReplacedOrder(t, t', key, row);
    forall ev: string ensures Postings(t'.ledger, ForPayment, EventRef(ev)) == Postings(t.ledger, ForPayment, EventRef(ev)) {
      PostingsAppend(t.ledger, pair, ForPayment, EventRef(ev));
    }
    ReplacedEvents(t, t', key, row);
    SettledKeys(t, t', key, delivered, e);
    SettledMoney(t, t', key, delivered, e);
  }

  function DeliveredEvent(key: ItemKey, amount: int, d: Delivery, now: int): OrderEvent {
    OrderEvent(key.order, ItemMoved(key.position, Pending, Delivered, Issued(d.code, d.supplier, d.requestId, amount)), now)
  }

  function RefundedEvent(key: ItemKey, local: Item, now: int): OrderEvent {
    OrderEvent(key.order, ItemMoved(key.position, Refunding, Refunded, GivenBack(local.amount, local.refundReason)), now)
  }

  // The whole new state of a completion, table by table.
  lemma CompleteWrites(t: Tables, key: ItemKey, amount: int, d: Delivery, now: int)
    requires key !in t.deliveries && Complete(t, key, amount, d, now).Done?
    ensures ValidKey(t, key) && ItemAt(t, key).status == Pending
    ensures !CodeTaken(t, d.code)
    ensures forall other | other in t.deliveries :: t.deliveries[other].code != d.code && t.deliveries[other].requestId != d.requestId
    ensures Complete(t, key, amount, d, now).t ==
            t.(orders := WithItem(t, key, ItemAt(t, key).(status := Delivered)).orders,
            deliveries := t.deliveries[key := d],
            ledger := t.ledger + DeliveryPair(key, amount, now),
            events := t.events + [DeliveredEvent(key, amount, d, now)])
  {
    var t1 := t.(deliveries := t.deliveries[key := d]);
    assert CompleteRest(t1, key, amount, d, now).Some?;
    assert MoveItem(t1, key, Pending, Delivered, None).Some?;
  }

  // When a completion reports the code as somebody else's: iff some delivery has it and this item has none.
  lemma CompleteReports(t: Tables, key: ItemKey, amount: int, d: Delivery, now: int)
    ensures Complete(t, key, amount, d, now).CodeAlreadyDelivered? <==>
            key !in t.deliveries && exists other :: other in t.deliveries && t.deliveries[other].code == d.code
  {
    hide CompleteRest;
    if CodeTaken(t, d.code) {
      var other :| other in t.deliveries && t.deliveries[other].code == d.code;
    }
  }

  // A completion rewrites items of its own order only, and no order's status.
  lemma CompleteTouches(t: Tables, key: ItemKey, amount: int, d: Delivery, now: int)
    requires Complete(t, key, amount, d, now).Done?
    ensures key.order < |t.orders|
    ensures exists items :: Complete(t, key, amount, d, now).t.orders ==
                            t.orders[key.order := t.orders[key.order].(items := items)]
  {
    var t1 := if key in t.deliveries then t else t.(deliveries := t.deliveries[key := d]);
    var t2 := MoveItem(t1, key, Pending, Delivered, None).value;
    assert t2.orders == t.orders[key.order := t.orders[key.order].(items := t2.orders[key.order].items)];
  }

  lemma CompleteSettles(t: Tables, t': Tables, key: ItemKey, d: Delivery, now: int)
    requires DeliveriesOk(t) && key !in t.deliveries && !CodeTaken(t, d.code)
    requires ValidKey(t, key) && IsPaid(t.orders[key.order].status) && ItemAt(t, key).status == Pending
    requires NoColon(d.supplier) && OwnRequest(ItemAt(t, key), d.supplier, d.requestId)
    requires t' == t.(orders := WithItem(t, key, ItemAt(t, key).(status := Delivered)).orders,
                   deliveries := t.deliveries[key := d],
                   ledger := t.ledger + DeliveryPair(key, ItemAt(t, key).amount, now),
                   events := t.events + [DeliveredEvent(key, ItemAt(t, key).amount, d, now)])
    ensures Settles(t, t', key, true, DeliveredEvent(key, ItemAt(t, key).amount, d, now))
  {
    var row := ItemAt(t, key).(status := Delivered);
    assert Replaces(t, t', key, row);
    ReplacedRows(t, t', key, row);
    DeliveryAdded(t, t', key, d);
    assert Explains(DeliveryPair(key, row.amount, now), DeliveredEvent(key, row.amount, d, now));
  }

  // A completed delivery took a pending item, a free code and a free request id.
  lemma CompleteKeeps(t: Tables, key: ItemKey, d: Delivery, now: int)
    requires Consistent(t)
    requires ValidKey(t, key) && IsPaid(t.orders[key.order].status)
    requires NoColon(d.supplier) && OwnRequest(ItemAt(t, key), d.supplier, d.requestId)
    requires Complete(t, key, ItemAt(t, key).amount, d, now).Done?
    ensures var t' := Complete(t, key, ItemAt(t, key).amount, d, now).t;
            && ItemAt(t, key).status == Pending
            && key !in t.deliveries
            && t'.deliveries == t.deliveries[key := d]
            && Consistent(t') && Advances(t, t')
  {
    var t' := Complete(t, key, ItemAt(t, key).amount, d, now).t;
    assert KeyOk(t, key);
    assert key !in t.deliveries;
    CompleteWrites(t, key, ItemAt(t, key).amount, d, now);
    CompleteSettles(t, t', key, d, now);
    SettleKeeps(t, t', key, true,
                DeliveredEvent(key, ItemAt(t, key).amount, d, now));
  }

  lemma DeliveryAdded(t: Tables, t': Tables, key: ItemKey, d: Delivery)
    requires DeliveriesOk(t) && ValidKey(t, key) && key !in t.deliveries && !CodeTaken(t, d.code)
    requires forall a | ValidKey(t, a) :: ValidKey(t', a) && ItemAt(t', a).id == ItemAt(t, a).id
    requires t'.deliveries == t.deliveries[key := d]
    requires NoColon(d.supplier) && OwnRequest(ItemAt(t, key), d.supplier, d.requestId)
    ensures DeliveriesOk(t')
  {
    forall a | a in t'.deliveries
      ensures ValidKey(t', a) && NoColon(t'.deliveries[a].supplier)
      ensures OwnRequest(ItemAt(t', a), t'.deliveries[a].supplier, t'.deliveries[a].requestId)
    {
      if a != key {
        var d' := t.deliveries[a];
        var round: nat :| round >= 1 && d'.requestId == RequestId(ItemAt(t, a).id, d'.supplier, round);
      }
    }
  }

  lemma OwnRequestsAreFree(t: Tables, key: ItemKey, d: Delivery)
    requires DeliveriesOk(t) && IdsOk(t) && ValidKey(t, key) && key !in t.deliveries
    requires NoColon(d.supplier) && OwnRequest(ItemAt(t, key), d.supplier, d.requestId)
    ensures !RequestTaken(t, d.requestId)
  {
    var r2: nat :| r2 >= 1 && d.requestId == RequestId(ItemAt(t, key).id, d.supplier, r2);
    forall a | a in t.deliveries ensures t.deliveries[a].requestId != d.requestId {
      var d' := t.deliveries[a];
      var r1: nat :| r1 >= 1 && d'.requestId == RequestId(ItemAt(t, a).id, d'.supplier, r1);
      if d'.requestId == d.requestId {
        RequestIdsInjective(ItemAt(t, a).id, d'.supplier, r1, ItemAt(t, key).id, d.supplier, r2);
      }
    }
  }

  // When the item is still pending and the code is free, completion goes through.
  lemma CompleteSucceeds(t: Tables, key: ItemKey, d: Delivery, now: int)
    requires Consistent(t) && ValidKey(t, key) && ItemAt(t, key).status == Pending
    requires NoColon(d.supplier) && OwnRequest(ItemAt(t, key), d.supplier, d.requestId)
    ensures var r := Complete(t, key, ItemAt(t, key).amount, d, now);
            if CodeTaken(t, d.code) then r.CodeAlreadyDelivered? else r.Done?
  {
    assert KeyOk(t, key);
    OwnRequestsAreFree(t, key, d);
    var pair := DeliveryPair(key, ItemAt(t, key).amount, now);
    NoPostingsNoClash(t.ledger, pair[0]);
    NoPostingsNoClash(t.ledger, pair[1]);
  }

  // The whole new state of a booked refund, table by table.
  lemma RefundWrites(t: Tables, key: ItemKey, local: Item, now: int)
    requires ValidKey(t, key) && ItemAt(t, key).status == Refunding && key !in t.refunds
    requires Postings(t.ledger, ForRefund, ItemRef(key)) == []
    ensures BookRefund(t, key, local, now) ==
            Some(t.(orders := WithItem(t, key, ItemAt(t, key).(status := Refunded)).orders,
                 refunds := t.refunds[key := Refund(local.amount, if local.refundReason.Some? then local.refundReason.value else SupplierFailed)],
                 ledger := t.ledger + RefundPair(key, local.amount, now),
                 events := t.events + [RefundedEvent(key, local, now)]))
  {
    var pair := RefundPair(key, local.amount, now);
    NoPostingsNoClash(t.ledger, pair[0]);
    NoPostingsNoClash(t.ledger, pair[1]);
  }

  lemma RefundSettles(t: Tables, t': Tables, key: ItemKey, local: Item, now: int)
    requires DeliveriesOk(t)
    requires ValidKey(t, key) && IsPaid(t.orders[key.order].status)
    requires ItemAt(t, key).status == Refunding && ItemAt(t, key).refundReason.Some?
    requires local.amount == ItemAt(t, key).amount && local.refundReason == ItemAt(t, key).refundReason
    requires t' == t.(orders := WithItem(t, key, ItemAt(t, key).(status := Refunded)).orders,
                   refunds := t.refunds[key := Refund(local.amount, ReasonOr(local.refundReason))],
                   ledger := t.ledger + RefundPair(key, local.amount, now),
                   events := t.events + [RefundedEvent(key, local, now)])
    ensures Settles(t, t', key, false, RefundedEvent(key, local, now))
  {
    var row := ItemAt(t, key).(status := Refunded);
    assert Replaces(t, t', key, row);
    ReplacedRows(t, t', key, row);
    SameDeliveries(t, t');
    assert Explains(RefundPair(key, local.amount, now), RefundedEvent(key, local, now));
  }

  // Booking goes through exactly once: only an item still `refunding` accepts it.
  lemma RefundKeeps(t: Tables, key: ItemKey, local: Item, now: int)
    requires Consistent(t)
    requires ValidKey(t, key) && IsPaid(t.orders[key.order].status)
    requires local.amount == ItemAt(t, key).amount && local.refundReason == ItemAt(t, key).refundReason
    ensures BookRefund(t, key, local, now).Some? <==> ItemAt(t, key).status == Refunding
    ensures BookRefund(t, key, local, now).Some? ==>
              && Consistent(BookRefund(t, key, local, now).value)
              && Advances(t, BookRefund(t, key, local, now).value)
              && BookRefund(t, key, local, now).value.deliveries == t.deliveries
  {
    assert KeyOk(t, key);
    if ItemAt(t, key).status == Refunding {
      RefundWrites(t, key, local, now);
      var t' := BookRefund(t, key, local, now).value;
      RefundSettles(t, t', key, local, now);
      SettleKeeps(t, t', key, false, RefundedEvent(key, local, now));
    }
  }
}
