/** Order creation, the payment webhook and the moves of an order through the queue keep the tables consistent. */
module Queue {
  import opened Base
  import opened Tables
  import opened Books
  import opened RequestIds
  import opened Consistency

  // ---- Creation ----

  // What the database's identifier generator guarantees.
  ghost predicate FreshIds(t: Tables, units: seq<Unit>) {
    && (forall k | 0 <= k < |units| :: NoColon(units[k].id))
    && (forall j, k | 0 <= j < k < |units| :: units[j].id != units[k].id)
    && (forall key, k | ValidKey(t, key) && 0 <= k < |units| :: ItemAt(t, key).id != units[k].id)
  }

  lemma {:induction false} NewItemsAreOpen(units: seq<Unit>)
    ensures SplitOf(NewItems(units)) == Split(0, 0, TotalPrice(units))
  {
    if units != [] {
      var n := |units| - 1;
      NewItemsAreOpen(units[..n]);
      assert NewItems(units)[..n] == NewItems(units[..n]);
    }
  }

  lemma CreatedRows(t: Tables, units: seq<Unit>, row: Order)
    requires IdsOk(t) && FreshIds(t, units) && row.items == NewItems(units)
    ensures IdsOk(t.(orders := t.orders + [row]))
    ensures Advances(t, t.(orders := t.orders + [row]))
  {
    var t' := t.(orders := t.orders + [row]);
    forall a | ValidKey(t', a)
      ensures if ValidKey(t, a) then ItemAt(t', a) == ItemAt(t, a)
              else a.order == |t.orders| && a.position < |units| && ItemAt(t', a).id == units[a.position].id
    {
    }
  }

  // What a creation writes: an order of one open item per unit, at its price, and its event.
  lemma CreateWrites(t: Tables, currency: string, units: seq<Unit>, now: int)
    ensures CreateOrder(t, currency, units, now).None? <==> units == []
    ensures match CreateOrder(t, currency, units, now)
            case None => true
            case Some(t') =>
              && |t'.orders| == |t.orders| + 1
              && var row := t'.orders[|t.orders|];
              && t' == t.(orders := t.orders + [row], events := t.events + [OrderEvent(|t.orders|, OrderCreated(row.amount, row.items), now)])
              && row == Order(SplitOf(row.items).open, currency, Created, row.items, None, None)
              && |row.items| == |units|
              && forall k | 0 <= k < |units| :: row.items[k] == Item(units[k].id, units[k].price, Pending, None)
  {
    NewItemsAreOpen(units);
  }

  lemma CreateKeeps(t: Tables, currency: string, units: seq<Unit>, now: int)
    requires Consistent(t) && FreshIds(t, units)
    ensures var r := CreateOrder(t, currency, units, now);
            r.Some? ==> Consistent(r.value) && Advances(t, r.value) && r.value.deliveries == t.deliveries
  {
    if units != [] {
      var row := Order(TotalPrice(units), currency, Created, NewItems(units), None, None);
      var t' := t.(orders := t.orders + [row]);
      NewItemsAreOpen(units);
      CreatedRows(t, units, row);
      assert OrderOk(row);
      CreatedKeys(t, t', row);
      forall e ensures EventOk(t', e) { assert EventOk(t, e); }
      assert forall e, o: nat :: PaidBy(t, e, o) ==> PaidBy(t', e, o);
      SameDeliveries(t, t');
      forall lens ensures LogsAgree(t', lens) { assert LogsAgree(t, lens); }
      forall scope ensures LiveAgrees(t', scope) {
        assert LiveAgrees(t, scope);
        assert t'.orders[..|t.orders|] == t.orders;
      }
      LogKeeps(t', |t.orders|, OrderCreated(row.amount, row.items), now);
    }
  }

  lemma CreatedKeys(t: Tables, t': Tables, row: Order)
    requires KeysOk(t) && t' == t.(orders := t.orders + [row])
    requires forall k | 0 <= k < |row.items| :: row.items[k].status == Pending && row.items[k].refundReason == None
    ensures KeysOk(t')
  {
    forall key ensures KeyOk(t', key) { assert KeyOk(t, key); }
  }

  // ---- The payment webhook ----

  lemma {:induction false} PendingIsOpen(items: seq<Item>)
    requires forall k | 0 <= k < |items| :: items[k].status == Pending
    ensures SplitOf(items).delivered == 0 && SplitOf(items).refunded == 0
  {
    if items != [] {
      PendingIsOpen(items[..|items| - 1]);
    }
  }

  lemma RecordKeeps(t: Tables, w: Webhook, outcome: WebhookOutcome)
    requires Consistent(t) && w.event !in t.payments && outcome != Applied
    ensures Consistent(t.(payments := t.payments[w.event := RecordedEvent(w, outcome)]))
  {
    var t' := t.(payments := t.payments[w.event := RecordedEvent(w, outcome)]);
    assert forall e :: IsApplied(t', e) <==> IsApplied(t, e);
    assert forall e, o: nat :: PaidBy(t, e, o) <==> PaidBy(t', e, o);
    forall e ensures EventOk(t', e) { assert EventOk(t, e); }
    forall key ensures KeyOk(t', key) { assert KeyOk(t, key); }
    SameItemsKeep(t, t');
    forall lens ensures LogsAgree(t', lens) { assert LogsAgree(t, lens); }
    forall scope ensures LiveAgrees(t', scope) { assert LiveAgrees(t, scope); }
  }

  // A `failed` event closes a fresh order; a matching `paid` event opens its delivery.
  ghost predicate Applies(t: Tables, t': Tables, w: Webhook, now: int) {
    && w.event !in t.payments
    && 0 <= w.order < |t.orders|
    && var order := t.orders[w.order];
    && order.status == Created
    && t'.payments == t.payments[w.event := PaymentEvent(w.order, w.status, w.amount, w.currency, Applied)]
    && t'.deliveries == t.deliveries && t'.refunds == t.refunds
    && if w.status == PaymentFail then
         && t'.orders == t.orders[w.order := order.(status := PaymentFailed)]
         && t'.ledger == t.ledger
         && t'.events == t.events + [OrderEvent(w.order, OrderMoved(Created, PaymentFailed, None), now)]
       else
         && w.amount == order.amount && w.currency == order.currency
         && t'.orders == t.orders[w.order := order.(status := Paid, paidAt := Some(now))]
         && t'.ledger == t.ledger + PaymentPair(w.order, w.event, order.amount, now)
         && t'.events == t.events + [OrderEvent(w.order, OrderMoved(Created, Paid, Some(w.amount)), now)]
  }

  lemma AppliedPostings(t: Tables, t': Tables, w: Webhook, now: int)
    requires EventsOk(t) && Applies(t, t', w, now)
    ensures forall e: string :: Postings(t'.ledger, ForPayment, EventRef(e)) ==
                                if e == w.event && w.status == PaymentPaid then PaymentPair(w.order, w.event, t.orders[w.order].amount, now)
                                else Postings(t.ledger, ForPayment, EventRef(e))
    ensures forall key, reason :: Postings(t'.ledger, reason, ItemRef(key)) == Postings(t.ledger, reason, ItemRef(key))
  {
    assert EventOk(t, w.event);
    var pair := PaymentPair(w.order, w.event, t.orders[w.order].amount, now);
    if w.status == PaymentPaid {
      forall e: string
        ensures Postings(t'.ledger, ForPayment, EventRef(e)) == if e == w.event then pair else Postings(t.ledger, ForPayment, EventRef(e))
      {
        PostingsAppend(t.ledger, pair, ForPayment, EventRef(e));
      }
      forall key, reason
        ensures Postings(t'.ledger, reason, ItemRef(key)) == Postings(t.ledger, reason, ItemRef(key))
      {
        PostingsAppend(t.ledger, pair, reason, ItemRef(key));
      }
    }
  }

  lemma AppliedEvents(t: Tables, t': Tables, w: Webhook, now: int)
    requires EventsOk(t) && OneApplied(t) && PaidHaveEvents(t) && Applies(t, t', w, now)
    ensures EventsOk(t') && OneApplied(t') && PaidHaveEvents(t')
  {
    AppliedPostings(t, t', w, now);
    forall e ensures EventOk(t', e) { assert EventOk(t, e); }
    forall e, f | IsApplied(t', e) && IsApplied(t', f) && t'.payments[e].order == t'.payments[f].order ensures e == f {
      assert EventOk(t, e) && EventOk(t, f);
      assert e != w.event ==> IsApplied(t, e);
      assert f != w.event ==> IsApplied(t, f);
    }
    forall o: nat | o < |t'.orders| && IsPaid(t'.orders[o].status) ensures exists e :: PaidBy(t', e, o) {
      if o == w.order {
        assert PaidBy(t', w.event, o);
      } else {
        var e :| PaidBy(t, e, o);
        assert PaidBy(t', e, o);
      }
    }
  }

  lemma AppliedMoney(t: Tables, t': Tables, w: Webhook, now: int)
    requires OrdersOk(t) && MoneyOk(t) && Applies(t, t', w, now)
    ensures MoneyOk(t')
  {
    var order := t.orders[w.order];
    assert OrderOk(order);
    PendingIsOpen(order.items);
    var e := t'.events[|t.events|];
    var pair := PaymentPair(w.order, w.event, order.amount, now);
    forall lens ensures LogsAgree(t', lens) {
      assert LogsAgree(t, lens);
      if w.status == PaymentPaid {
        PairKeepsLogs(t, t', pair, e, lens);
      } else {
        AppendEvent(t.events, e, lens);
      }
    }
    forall scope ensures LiveAgrees(t', scope) {
      assert LiveAgrees(t, scope);
      TotalUpdate(t.orders, w.order, t'.orders[w.order], scope);
      var lens := Always(scope);
      assert LogsAgree(t, lens);
      if w.status == PaymentPaid {
        PairKeepsLogs(t, t', pair, e, lens);
      }
    }
  }

  lemma AppliedKeys(t: Tables, t': Tables, w: Webhook, now: int)
    requires EventsOk(t) && KeysOk(t) && Applies(t, t', w, now)
    ensures KeysOk(t')
  {
    AppliedPostings(t, t', w, now);
    forall key ensures KeyOk(t', key) { assert KeyOk(t, key); }
  }

  lemma AppliedRows(t: Tables, t': Tables, w: Webhook, now: int)
    requires OrdersOk(t) && IdsOk(t) && DeliveriesOk(t) && Applies(t, t', w, now)
    ensures OrdersOk(t') && IdsOk(t') && DeliveriesOk(t') && Advances(t, t')
  {
    assert OrderOk(t.orders[w.order]);
    assert OrderOk(t'.orders[w.order]);
    assert forall a :: ValidKey(t', a) <==> ValidKey(t, a);
    assert forall a | ValidKey(t, a) :: ItemAt(t', a) == ItemAt(t, a);
    SameDeliveries(t, t');
  }

  lemma ApplyKeeps(t: Tables, t': Tables, w: Webhook, now: int)
    requires Consistent(t) && Applies(t, t', w, now)
    ensures Consistent(t') && Advances(t, t')
  {
    AppliedRows(t, t', w, now);
    AppliedKeys(t, t', w, now);
    AppliedEvents(t, t', w, now);
    AppliedMoney(t, t', w, now);
  }

  // What a new event is answered, read off the event and the order it names, and what that writes.
  lemma WebhookWrites(t: Tables, w: Webhook, now: int)
    requires w.event !in t.payments && Postings(t.ledger, ForPayment, EventRef(w.event)) == []
    ensures HandleWebhook(t, w, now).Some?
    ensures var (t', outcome) := HandleWebhook(t, w, now).value;
            if outcome == Applied then Applies(t, t', w, now)
            else t' == t.(payments := t.payments[w.event := PaymentEvent(w.order, w.status, w.amount, w.currency, outcome)])
    ensures var (t', outcome) := HandleWebhook(t, w, now).value;
            var known := 0 <= w.order < |t.orders|;
            && (outcome == OrderNotFound <==> !known)
            && (forall s :: outcome == Ignored(s) <==> known && t.orders[w.order].status == s && s != Created)
            && (outcome == AmountMismatch <==>
                && known && t.orders[w.order].status == Created && w.status == PaymentPaid
                && (w.amount != t.orders[w.order].amount || w.currency != t.orders[w.order].currency))
            && (outcome == Applied <==>
                && known && t.orders[w.order].status == Created
                && (w.status == PaymentFail
                    || (w.amount == t.orders[w.order].amount && w.currency == t.orders[w.order].currency)))
  {
    if 0 <= w.order < |t.orders| {
      var pair := PaymentPair(w.order, w.event, t.orders[w.order].amount, now);
      NoPostingsNoClash(t.ledger, pair[0]);
      NoPostingsNoClash(t.ledger, pair[1]);
    }
  }

  // A fresh event id never aborts, is recorded whatever it says, and keeps the tables consistent.
  lemma WebhookKeeps(t: Tables, w: Webhook, now: int)
    requires Consistent(t)
    ensures HandleWebhook(t, w, now).Some?
    ensures var (t', outcome) := HandleWebhook(t, w, now).value;
            && Consistent(t') && Advances(t, t') && t'.deliveries == t.deliveries
            && w.event in t'.payments
            && (if w.event in t.payments then t' == t && outcome == Duplicate
                else t'.payments == t.payments[w.event := PaymentEvent(w.order, w.status, w.amount, w.currency, outcome)])
  {
    if w.event !in t.payments {
      assert EventOk(t, w.event);
      WebhookWrites(t, w, now);
      var (t', outcome) := HandleWebhook(t, w, now).value;
      if outcome == Applied {
        ApplyKeeps(t, t', w, now);
      } else {
        RecordKeeps(t, w, outcome);
      }
    }
  }

  // ---- Moves of a paid order ----

  lemma MoveKeeps(t: Tables, o: nat, from: OrderStatus, to: OrderStatus, extra: Extra)
    requires Consistent(t) && IsPaid(from) && IsPaid(to)
    requires IsFinal(to) && o < |t.orders| ==> NoneOpen(t.orders[o].items) && to == FinalStatus(t.orders[o].items)
    ensures var r := MoveOrder(t, o, from, to, extra);
            && (r.Some? <==> o < |t.orders| && t.orders[o].status == from)
            && (r.Some? ==>
                  && r.value == t.(orders := t.orders[o := t.orders[o].(
                                status := to,
                                paidAt := if extra.SetPaidAt? then Some(extra.at) else t.orders[o].paidAt,
                                notBefore := if extra.SetNotBefore? then Some(extra.at) else t.orders[o].notBefore)])
                  && Consistent(r.value) && Advances(t, r.value) && SameItems(t, r.value) && r.value.deliveries == t.deliveries)
  {
    if MoveOrder(t, o, from, to, extra).Some? {
      var t' := MoveOrder(t, o, from, to, extra).value;
      assert OrderOk(t.orders[o]);
      StatusKeeps(t, o, t'.orders[o]);
    }
  }

  // A claim takes a paid order whose time has come, marks it and writes that down.
  lemma ClaimKeeps(t: Tables, o: nat, now: int)
    requires Consistent(t)
    ensures var r := Claim(t, o, now);
            && (r.Some? <==> o < |t.orders| && t.orders[o].status == Paid && (t.orders[o].notBefore.Some? ==> t.orders[o].notBefore.value <= now))
            && (r.Some? ==>
                  && r.value == t.(orders := t.orders[o := t.orders[o].(status := Delivering)],
                                events := t.events + [OrderEvent(o, OrderMoved(Paid, Delivering, None), now)])
                  && Consistent(r.value) && Advances(t, r.value) && SameItems(t, r.value) && r.value.deliveries == t.deliveries)
  {
    MoveKeeps(t, o, Paid, Delivering, NoExtra);
    if MoveOrder(t, o, Paid, Delivering, NoExtra).Some? {
      LogKeeps(MoveOrder(t, o, Paid, Delivering, NoExtra).value, o, OrderMoved(Paid, Delivering, None), now);
    }
  }

  // The sweep's write is harmless even when the order it selected has moved on since.
  lemma RequeueKeeps(t: Tables, o: nat, previous: OrderStatus, now: int)
    requires Consistent(t) && o < |t.orders| && IsPaid(t.orders[o].status) && IsPaid(previous)
    ensures Requeue(t, o, previous, now) ==
            t.(orders := t.orders[o := t.orders[o].(status := Paid)],
            events := t.events + [OrderEvent(o, OrderMoved(previous, Paid, None), now)])
    ensures Consistent(Requeue(t, o, previous, now)) && Advances(t, Requeue(t, o, previous, now))
    ensures SameItems(t, Requeue(t, o, previous, now))
  {
    assert OrderOk(t.orders[o]);
    StatusKeeps(t, o, t.orders[o].(status := Paid));
    LogKeeps(WithOrder(t, o, t.orders[o].(status := Paid)), o, OrderMoved(previous, Paid, None), now);
  }
}
