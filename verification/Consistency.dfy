/**
 What the tables keep through every transaction, whoever runs it and in whatever order:
 exactly-once settlement of items, at most one applied payment per order, and the money.
 */
module Consistency {
  import opened Base
  import opened Tables
  import opened Books
  import opened RequestIds

  // The postings with this reason and reference, oldest first.
  function Postings(ledger: seq<LedgerRow>, reason: PostingReason, reference: Reference): seq<LedgerRow> {
    if ledger == [] then []
    else
      var p := Postings(ledger[..|ledger| - 1], reason, reference);
      var r := ledger[|ledger| - 1];
      if r.reason == reason && r.reference == reference then p + [r] else p
  }

  // Exactly one posting pair, and the right one.
  ghost predicate Booked(
    p: seq<LedgerRow>, o: nat, reason: PostingReason, reference: Reference,
    debit: Account, credit: Account, amount: int)
  {
    |p| == 2 && p == Pair(o, reason, reference, debit, credit, amount, p[0].at)
  }

  ghost predicate OrderOk(r: Order) {
    var s := SplitOf(r.items);
    && r.items != []
    && r.amount == s.delivered + s.refunded + s.open
    && (!IsPaid(r.status) ==> forall k | 0 <= k < |r.items| :: r.items[k].status == Pending)
    && (IsFinal(r.status) ==> NoneOpen(r.items) && r.status == FinalStatus(r.items))
  }

  // An item is delivered iff it has its delivery row and one delivery posting pair, refunded iff
  // it has its refund row and one refund posting pair; keys of no item have none of these.
  ghost predicate KeyOk(t: Tables, key: ItemKey) {
    var deliveryRows := Postings(t.ledger, ForDelivery, ItemRef(key));
    var refundRows := Postings(t.ledger, ForRefund, ItemRef(key));
    if ValidKey(t, key) then
      var i := ItemAt(t, key);
      && (i.status == Delivered <==> key in t.deliveries)
      && (i.status == Refunded <==> key in t.refunds)
      && (i.refundReason.Some? <==> i.status == Refunding || i.status == Refunded)
      && (i.status == Refunded ==> t.refunds[key] == Refund(i.amount, i.refundReason.value))
      && (if i.status == Delivered
          then Booked(deliveryRows, key.order, ForDelivery, ItemRef(key), Liability, Revenue, i.amount)
          else deliveryRows == [])
      && (if i.status == Refunded
          then Booked(refundRows, key.order, ForRefund, ItemRef(key), Liability, Cash, i.amount)
          else refundRows == [])
    else
      key !in t.deliveries && key !in t.refunds && deliveryRows == [] && refundRows == []
  }

  ghost predicate IsApplied(t: Tables, e: string) {
    e in t.payments && t.payments[e].outcome == Applied
  }

  // The payment pair of an event exists iff the event was the `paid` one that was applied.
  ghost predicate EventOk(t: Tables, e: string) {
    var rows := Postings(t.ledger, ForPayment, EventRef(e));
    && (IsApplied(t, e) ==> 0 <= t.payments[e].order < |t.orders|)
    && (if IsApplied(t, e) && t.payments[e].status == PaymentPaid then
          var order := t.orders[t.payments[e].order];
          && IsPaid(order.status)
          && t.payments[e].amount == order.amount && t.payments[e].currency == order.currency
          && Booked(rows, t.payments[e].order, ForPayment, EventRef(e), Cash, Liability, order.amount)
        else
          rows == [])
    && (IsApplied(t, e) && t.payments[e].status == PaymentFail ==>
          t.orders[t.payments[e].order].status == PaymentFailed)
  }

  ghost predicate OneApplied(t: Tables) {
    forall e, f :: IsApplied(t, e) && IsApplied(t, f) && t.payments[e].order == t.payments[f].order ==> e == f
  }

  ghost predicate PaidBy(t: Tables, e: string, o: nat) {
    IsApplied(t, e) && t.payments[e].status == PaymentPaid && t.payments[e].order == o
  }

  ghost predicate PaidHaveEvents(t: Tables) {
    forall o: nat | o < |t.orders| && IsPaid(t.orders[o].status) :: exists e :: PaidBy(t, e, o)
  }

  ghost predicate IdsOk(t: Tables) {
    && (forall a | ValidKey(t, a) :: NoColon(ItemAt(t, a).id))
    && (forall a, b | ValidKey(t, a) && ValidKey(t, b) && ItemAt(t, a).id == ItemAt(t, b).id :: a == b)
  }

  ghost predicate OwnRequest(item: Item, supplier: string, requestId: string) {
    exists round: nat :: round >= 1 && requestId == RequestId(item.id, supplier, round)
  }

  // A delivery's request id was made for this very item and supplier, and its code is nobody else's.
  ghost predicate DeliveriesOk(t: Tables) {
    && (forall key | key in t.deliveries ::
          && ValidKey(t, key)
          && NoColon(t.deliveries[key].supplier)
          && OwnRequest(ItemAt(t, key), t.deliveries[key].supplier, t.deliveries[key].requestId))
    && (forall a, b | a in t.deliveries && b in t.deliveries && t.deliveries[a].code == t.deliveries[b].code :: a == b)
  }

  ghost predicate OrdersOk(t: Tables) {
    forall o: nat | o < |t.orders| :: OrderOk(t.orders[o])
  }

  ghost predicate KeysOk(t: Tables) {
    forall key :: KeyOk(t, key)
  }

  ghost predicate EventsOk(t: Tables) {
    forall e :: EventOk(t, e)
  }

  ghost predicate MoneyOk(t: Tables) {
    && (forall lens :: LogsAgree(t, lens))
    && (forall scope :: LiveAgrees(t, scope))
  }

  ghost predicate Consistent(t: Tables) {
    && OrdersOk(t)
    && KeysOk(t)
    && EventsOk(t)
    && OneApplied(t)
    && PaidHaveEvents(t)
    && IdsOk(t)
    && DeliveriesOk(t)
    && MoneyOk(t)
  }

  // ---- Rows only move forward ----

  ghost predicate ItemAdvances(a: Item, b: Item) {
    && a.id == b.id
    && a.amount == b.amount
    && match a.status
       case Pending => true
       case Refunding => (b.status == Refunding || b.status == Refunded) && b.refundReason == a.refundReason
       case Delivered => b == a
       case Refunded => b == a
  }

  ghost predicate ItemsAdvance(a: seq<Item>, b: seq<Item>) {
    |a| == |b| && forall k | 0 <= k < |a| :: ItemAdvances(a[k], b[k])
  }

  ghost predicate Advances(t: Tables, t': Tables) {
    && |t.orders| <= |t'.orders|
    && forall o: nat | o < |t.orders| ::
         && ItemsAdvance(t.orders[o].items, t'.orders[o].items)
         && t'.orders[o].amount == t.orders[o].amount
         && t'.orders[o].currency == t.orders[o].currency
         && (IsPaid(t.orders[o].status) ==> IsPaid(t'.orders[o].status))
  }

  lemma AdvanceAgain(a: seq<Item>, b: seq<Item>, c: seq<Item>)
    requires ItemsAdvance(a, b) && ItemsAdvance(b, c)
    ensures ItemsAdvance(a, c)
  {
    forall k | 0 <= k < |a| ensures ItemAdvances(a[k], c[k]) {
      assert ItemAdvances(a[k], b[k]) && ItemAdvances(b[k], c[k]);
    }
  }

  lemma AdvancesReflexive(t: Tables)
    ensures Advances(t, t)
  {
  }

  lemma AdvancesAgain(t: Tables, t': Tables, t'': Tables)
    requires Advances(t, t') && Advances(t', t'')
    ensures Advances(t, t'')
  {
    forall o: nat | o < |t.orders| ensures ItemsAdvance(t.orders[o].items, t''.orders[o].items) {
      AdvanceAgain(t.orders[o].items, t'.orders[o].items, t''.orders[o].items);
    }
  }

  // ---- Building blocks ----

  lemma PostingsAppend(ledger: seq<LedgerRow>, pair: seq<LedgerRow>, reason: PostingReason, reference: Reference)
    requires |pair| == 2
    requires pair[0].reason == pair[1].reason && pair[0].reference == pair[1].reference
    ensures Postings(ledger + pair, reason, reference) ==
            if pair[0].reason == reason && pair[0].reference == reference then Postings(ledger, reason, reference) + pair
            else Postings(ledger, reason, reference)
  {
    var one := ledger + [pair[0]];
    assert one[..|ledger|] == ledger;
    assert (ledger + pair)[..|ledger| + 1] == one;
    assert pair == [pair[0]] + [pair[1]];
  }

  lemma {:induction false} NoPostingsNoClash(ledger: seq<LedgerRow>, row: LedgerRow)
    requires Postings(ledger, row.reason, row.reference) == []
    ensures !Clashes(ledger, row)
  {
    if ledger != [] {
      NoPostingsNoClash(ledger[..|ledger| - 1], row);
    }
  }

  lemma NothingMoves(ledger: seq<LedgerRow>, events: seq<OrderEvent>, lens: Lens)
    requires ledger == [] && events == []
    ensures BalancesOf(ledger, lens) == Balances(0, 0, 0, 0, 0)
    ensures LedgerMoved(ledger, lens) == NothingMoved() && EventsMoved(events, lens) == NothingMoved()
  {
  }

  lemma NothingIsHeld(orders: seq<Order>, scope: Option<nat>)
    requires orders == []
    ensures TotalHeld(orders, scope) == NothingHeld()
  {
  }

  lemma EmptyIsConsistent()
    ensures Consistent(EMPTY)
  {
    assert OrdersOk(EMPTY) && KeysOk(EMPTY) && EventsOk(EMPTY);
    hide BalancesOf, LedgerMoved, EventsMoved, TotalHeld;
    forall lens ensures LogsAgree(EMPTY, lens) {
      NothingMoves(EMPTY.ledger, EMPTY.events, lens);
    }
    forall scope ensures LiveAgrees(EMPTY, scope) {
      NothingMoves(EMPTY.ledger, EMPTY.events, Always(scope));
      NothingIsHeld(EMPTY.orders, scope);
    }
  }

  // The items and identities of every order are the same in both.
  ghost predicate SameItems(t: Tables, t': Tables) {
    && |t.orders| == |t'.orders|
    && forall o: nat | o < |t.orders| :: t.orders[o].items == t'.orders[o].items
  }

  lemma SameItemsKeep(t: Tables, t': Tables)
    requires SameItems(t, t')
    requires t'.deliveries == t.deliveries && t'.refunds == t.refunds && t'.ledger == t.ledger
    requires KeysOk(t) && IdsOk(t) && DeliveriesOk(t)
    ensures KeysOk(t') && IdsOk(t') && DeliveriesOk(t')
  {
    assert forall a :: ValidKey(t', a) <==> ValidKey(t, a);
    assert forall a | ValidKey(t, a) :: ItemAt(t', a) == ItemAt(t, a);
    forall key ensures KeyOk(t', key) { assert KeyOk(t, key); }
    assert IdsOk(t');
    assert DeliveriesOk(t');
  }

  lemma StatusKeepsEvents(t: Tables, o: nat, row: Order)
    requires EventsOk(t) && OneApplied(t) && PaidHaveEvents(t) && o < |t.orders|
    requires row.amount == t.orders[o].amount && row.currency == t.orders[o].currency
    requires IsPaid(t.orders[o].status) && IsPaid(row.status)
    ensures EventsOk(WithOrder(t, o, row)) && OneApplied(WithOrder(t, o, row)) && PaidHaveEvents(WithOrder(t, o, row))
  {
    var t' := WithOrder(t, o, row);
    forall e ensures EventOk(t', e) { assert EventOk(t, e); }
    assert forall e, p: nat :: PaidBy(t, e, p) <==> PaidBy(t', e, p);
    assert forall e :: IsApplied(t, e) <==> IsApplied(t', e);
  }

  // An order's own status may change freely among the paid ones, verdicts being truthful.
  lemma StatusKeeps(t: Tables, o: nat, row: Order)
    requires Consistent(t) && o < |t.orders|
    requires row.items == t.orders[o].items && row.amount == t.orders[o].amount && row.currency == t.orders[o].currency
    requires IsPaid(t.orders[o].status) && IsPaid(row.status) && OrderOk(row)
    ensures Consistent(WithOrder(t, o, row))
    ensures Advances(t, WithOrder(t, o, row))
  {
    var t' := WithOrder(t, o, row);
    SameItemsKeep(t, t');
    StatusKeepsEvents(t, o, row);
    forall lens ensures LogsAgree(t', lens) { assert LogsAgree(t, lens); }
    forall scope ensures LiveAgrees(t', scope) {
      assert LiveAgrees(t, scope);
      TotalUpdate(t.orders, o, row, scope);
    }
  }

  lemma LogKeeps(t: Tables, o: nat, body: EventBody, now: int)
    requires Consistent(t)
    requires EventMoved(body) == NothingMoved()
    ensures Consistent(Log(t, o, body, now))
    ensures Advances(t, Log(t, o, body, now))
  {
    var t' := Log(t, o, body, now);
    SameRows(t, t');
    forall lens ensures LogsAgree(t', lens) {
      assert LogsAgree(t, lens);
      LogKeepsLogs(t, o, body, now, lens);
    }
    forall scope ensures LiveAgrees(t', scope) { assert LiveAgrees(t, scope); }
  }

  // Everything but the event log's sums is about the other tables.
  lemma SameRows(t: Tables, t': Tables)
    requires Consistent(t)
    requires t'.orders == t.orders && t'.deliveries == t.deliveries && t'.refunds == t.refunds
    requires t'.ledger == t.ledger && t'.payments == t.payments
    ensures OrdersOk(t') && KeysOk(t') && EventsOk(t') && OneApplied(t') && PaidHaveEvents(t') && IdsOk(t') && DeliveriesOk(t')
    ensures Advances(t, t')
  {
    forall key ensures KeyOk(t', key) { assert KeyOk(t, key); }
    forall e ensures EventOk(t', e) { assert EventOk(t, e); }
    forall p: nat | p < |t'.orders| && IsPaid(t'.orders[p].status) ensures exists e :: PaidBy(t', e, p) {
      var e :| PaidBy(t, e, p);
      assert PaidBy(t', e, p);
    }
    assert forall a :: ValidKey(t', a) <==> ValidKey(t, a);
    assert forall a | ValidKey(t, a) :: ItemAt(t', a) == ItemAt(t, a);
  }

  lemma SameDeliveries(t: Tables, t': Tables)
    requires DeliveriesOk(t) && t'.deliveries == t.deliveries
    requires forall a | ValidKey(t, a) :: ValidKey(t', a) && ItemAt(t', a).id == ItemAt(t, a).id
    ensures DeliveriesOk(t')
  {
    forall a | a in t'.deliveries
      ensures OwnRequest(ItemAt(t', a), t'.deliveries[a].supplier, t'.deliveries[a].requestId)
    {
      var d := t.deliveries[a];
      var round: nat :| round >= 1 && d.requestId == RequestId(ItemAt(t, a).id, d.supplier, round);
    }
  }
}
