/** What becomes of payment: which event decides an order, and that no later one undoes it. */
module Payments {
  import opened Base
  import opened Tables
  import opened Consistency
  import opened Transactions
  import opened Queue
  import opened Machine
  import opened Safety

  // Nothing here touches an order that is not paid, or makes one that is not new.
  ghost predicate UnpaidStands(t: Tables, t': Tables) {
    && t'.payments == t.payments
    && |t.orders| <= |t'.orders|
    && (forall o: nat | o < |t.orders| ::
          t'.orders[o].status == t.orders[o].status || (IsPaid(t.orders[o].status) && IsPaid(t'.orders[o].status)))
    && (forall o: nat | |t.orders| <= o < |t'.orders| :: t'.orders[o].status == Created)
  }

  lemma MovedAmongPaid(t: Tables, o: nat, from: OrderStatus, to: OrderStatus, extra: Extra)
    requires IsPaid(from) && IsPaid(to)
    ensures var r := MoveOrder(t, o, from, to, extra); r.Some? ==> UnpaidStands(t, r.value)
  {
  }

  lemma ItemMoveStands(t: Tables, key: ItemKey, from: ItemStatus, to: ItemStatus, reason: Option<RefundReason>)
    ensures var r := MoveItem(t, key, from, to, reason); r.Some? ==> UnpaidStands(t, r.value)
  {
  }

  lemma CompletedStands(t: Tables, key: ItemKey, amount: int, d: Delivery, now: int)
    ensures match Complete(t, key, amount, d, now) case Done(t') => UnpaidStands(t, t') case _ => true
  {
    var t1 := if key in t.deliveries then t else t.(deliveries := t.deliveries[key := d]);
    ItemMoveStands(t1, key, Pending, Delivered, None);
    hide CodeTaken, RequestTaken, Clashes, MoveItem;
  }

  lemma RefundStands(t: Tables, key: ItemKey, local: Item, now: int)
    ensures var r := BookRefund(t, key, local, now); r.Some? ==> UnpaidStands(t, r.value)
  {
    hide Clashes;
  }

  lemma VerdictAmongPaid(items: seq<Item>, deferral: Option<int>)
    ensures IsPaid(Verdict(items, deferral).0)
  {
    hide CountDelivered;
  }

  lemma ClaimStands(s: State, w: nat, o: nat, now: int)
    ensures UnpaidStands(s.t, DoClaimOrder(s, w, o, now).t)
  {
    MovedAmongPaid(s.t, o, Paid, Delivering, NoExtra);
    hide MoveOrder;
  }

  lemma DeliverStands(s: State, w: nat, now: int)
    ensures UnpaidStands(s.t, DoDeliver(s, w, now).t)
  {
    hide Complete;
    var x := At(s, w);
    if AtItem(x) && x.phase.Confirmed? {
      CompletedStands(s.t, KeyOf(x), x.items[x.next].amount, Delivery(x.phase.requestId, x.phase.supplier, x.phase.code), now);
    }
  }

  lemma GiveUpStands(s: State, w: nat, reason: RefundReason)
    ensures UnpaidStands(s.t, DoGiveUp(s, w, reason).t)
  {
    hide MoveItem;
    var x := At(s, w);
    if AtItem(x) {
      ItemMoveStands(s.t, KeyOf(x), Pending, Refunding, Some(reason));
    }
  }

  lemma SettleStands(s: State, w: nat, now: int)
    ensures UnpaidStands(s.t, DoSettle(s, w, now).t)
  {
    hide BookRefund;
    var x := At(s, w);
    if AtItem(x) {
      RefundStands(s.t, KeyOf(x), x.items[x.next], now);
    }
  }

  lemma FinishStands(s: State, w: nat, deferral: Option<int>)
    ensures UnpaidStands(s.t, DoFinish(s, w, deferral).t)
  {
    var x := At(s, w);
    if x.Judging? {
      var (to, extra) := Verdict(x.items, deferral);
      VerdictAmongPaid(x.items, deferral);
      MovedAmongPaid(s.t, x.order, Delivering, to, extra);
      hide Verdict, MoveOrder;
    }
  }

  lemma RetryStands(s: State, w: nat, o: nat)
    ensures UnpaidStands(s.t, DoRetry(s, w, o).t)
  {
    MovedAmongPaid(s.t, o, DeliveryFailed, Paid, NoExtra);
    hide MoveOrder;
  }

  lemma SweepStands(s: State, w: nat, now: int)
    requires WorkerOk(s, At(s, w))
    ensures UnpaidStands(s.t, DoSweep(s, w, now).t)
  {
  }

  lemma QueueStepStands(s: State, a: Action)
    requires Inv(s) && (a.ClaimOrder? || a.Finish? || a.Retry? || a.Sweep? || a.WriteMove?)
    ensures UnpaidStands(s.t, Next(s, a).t)
  {
    hide DoClaimOrder, DoFinish, DoRetry, DoSweep, Consistent, WorkerOk, PayoutsOk, UnpaidStands;
    match a
    case ClaimOrder(w, o, now) => ClaimStands(s, w, o, now);
    case Finish(w, deferral) => FinishStands(s, w, deferral);
    case Retry(w, o) => RetryStands(s, w, o);
    case Sweep(w, now) =>
      IdleIsOk(s);
      SweepStands(s, w, now);
    case WriteMove(w, now) => WriteStands(s, w, now);
  }

  lemma WriteStands(s: State, w: nat, now: int)
    ensures UnpaidStands(s.t, DoWriteMove(s, w, now).t)
    ensures UnpaidStands(s.t, DoDocument(s, w, now).t)
  {
  }

  lemma CreateStands(s: State, currency: string, units: seq<Unit>, now: int)
    ensures UnpaidStands(s.t, DoCreate(s, currency, units, now).t)
  {
  }

  // Only an event can decide a fresh order.
  lemma OnlyEventsDecide(s: State, a: Action)
    requires Inv(s) && !a.Receive?
    ensures UnpaidStands(s.t, Next(s, a).t)
  {
    if a.ClaimOrder? || a.Finish? || a.Retry? || a.Sweep? || a.WriteMove? {
      QueueStepStands(s, a);
      return;
    }
    hide DoCreate, DoDeliver, DoGiveUp, DoSettle, DoDocument, Inv, UnpaidStands;
    match a
    case Create(currency, units, now) => CreateStands(s, currency, units, now);
    case Deliver(w, now) => DeliverStands(s, w, now);
    case GiveUp(w, reason) => GiveUpStands(s, w, reason);
    case Settle(w, now) => SettleStands(s, w, now);
    case Document(w, now) => WriteStands(s, w, now);
    case _ => NothingStands(s.t);
  }

  lemma NothingStands(t: Tables)
    ensures UnpaidStands(t, t)
  {
  }

  lemma IdleIsOk(s: State)
    ensures WorkerOk(s, Idle)
  {
  }

  // Whether this event settles the payment of an order that is still fresh.
  predicate Settles(w: Webhook, order: Order) {
    w.status == PaymentFail || (w.amount == order.amount && w.currency == order.currency)
  }

  // An event moves no order but a fresh one that it settles.
  lemma EventDecides(s: State, w: Webhook, now: int)
    requires Inv(s)
    ensures var t, t' := s.t, DoReceive(s, w, now).t;
            && |t'.orders| == |t.orders| && w.event in t'.payments
            && (forall e | e in t.payments :: e in t'.payments && t'.payments[e] == t.payments[e])
            && (forall e | e in t'.payments && e !in t.payments :: e == w.event)
            && (forall o: nat | o < |t.orders| && o != w.order :: t'.orders[o] == t.orders[o])
            && (w.event in t.payments ==> t'.orders == t.orders)
            && (0 <= w.order < |t.orders| && w.event !in t.payments ==>
                  var order, order' := t.orders[w.order], t'.orders[w.order];
                  && t'.payments[w.event].order == w.order && t'.payments[w.event].status == w.status
                  && order'.amount == order.amount && order'.currency == order.currency
                  && if order.status == Created && Settles(w, order)
                     then order'.status == (if w.status == PaymentFail then PaymentFailed else Paid)
                          && t'.payments[w.event].outcome == Applied
                     else order'.status == order.status && t'.payments[w.event].outcome != Applied)
            && (!(0 <= w.order < |t.orders|) && w.event !in t.payments ==> t'.payments[w.event].outcome != Applied)
  {
    WebhookKeeps(s.t, w, now);
    if w.event !in s.t.payments {
      assert EventOk(s.t, w.event);
      WebhookWrites(s.t, w, now);
    }
    hide HandleWebhook, Consistent, WorkersOk, PayoutsOk;
  }

  // ---- Over whole schedules ----

  ghost predicate FailedBy(t: Tables, e: string, o: nat) {
    IsApplied(t, e) && t.payments[e].status == PaymentFail && t.payments[e].order == o
  }

  ghost predicate FailuresOk(t: Tables) {
    forall o: nat | o < |t.orders| && t.orders[o].status == PaymentFailed :: exists e :: FailedBy(t, e, o)
  }

  lemma FailuresStep(s: State, a: Action)
    requires Inv(s) && FailuresOk(s.t)
    ensures FailuresOk(Next(s, a).t)
  {
    var t, t' := s.t, Next(s, a).t;
    if a.Receive? {
      EventDecides(s, a.webhook, a.now);
    } else {
      OnlyEventsDecide(s, a);
    }
    hide Next, Inv, Settles;
    forall o: nat | o < |t'.orders| && t'.orders[o].status == PaymentFailed ensures exists e :: FailedBy(t', e, o) {
      if o < |t.orders| && t.orders[o].status == PaymentFailed {
        var e :| FailedBy(t, e, o);
        assert FailedBy(t', e, o);
      } else {
        assert a.Receive? && FailedBy(t', a.webhook.event, o);
      }
    }
  }

  lemma {:induction false} RunFailures(actions: seq<Action>)
    ensures FailuresOk(Run(actions).t)
  {
    if actions != [] {
      var before := actions[..|actions| - 1];
      RunsAreSafe(before);
      RunFailures(before);
      FailuresStep(Run(before), actions[|actions| - 1]);
    }
  }

  // An order's payment has failed iff the event applied to it was a failed one.
  lemma FailedIffItsEventFailed(actions: seq<Action>, o: nat)
    requires o < |Run(actions).t.orders|
    ensures var t := Run(actions).t;
            t.orders[o].status == PaymentFailed <==>
            exists e :: IsApplied(t, e) && t.payments[e].order == o && t.payments[e].status == PaymentFail
  {
    var t := Run(actions).t;
    RunsAreSafe(actions);
    RunFailures(actions);
    hide Run;
    if t.orders[o].status == PaymentFailed {
      var e :| FailedBy(t, e, o);
      assert IsApplied(t, e);
    }
    if e :| IsApplied(t, e) && t.payments[e].order == o && t.payments[e].status == PaymentFail {
      assert EventOk(t, e);
    }
  }

  // Once decided, an order's payment stays decided that way.
  lemma DecidedStands(s: State, a: Action, o: nat)
    requires Inv(s) && o < |s.t.orders| && s.t.orders[o].status != Created
    ensures o < |Next(s, a).t.orders|
    ensures var status, status' := s.t.orders[o].status, Next(s, a).t.orders[o].status;
            status' != Created && (status' == PaymentFailed <==> status == PaymentFailed)
  {
    if a.Receive? {
      EventDecides(s, a.webhook, a.now);
    } else {
      OnlyEventsDecide(s, a);
    }
    hide Inv, Settles;
  }

  // An event that names an order, is recorded when the order is there, and is a failed one or says
  // just what the order costs settles it for good: as the event says, unless an earlier one had.
  lemma {:induction false} FirstVerdictStands(before: seq<Action>, w: Webhook, now: int, after: seq<Action>)
    requires 0 <= w.order < |Run(before).t.orders| && w.event !in Run(before).t.payments
    requires var order := Run(before).t.orders[w.order];
             w.status == PaymentFail || (w.amount == order.amount && w.currency == order.currency)
    ensures var was, t := Run(before).t.orders[w.order].status, Run(before + [Receive(w, now)] + after).t;
            && w.order < |t.orders| && t.orders[w.order].status != Created
            && (t.orders[w.order].status == PaymentFailed <==>
                if was == Created then w.status == PaymentFail else was == PaymentFailed)
  {
    var s, all := Run(before), before + [Receive(w, now)] + after;
    if after == [] {
      assert all == before + [Receive(w, now)];
      RunsAreSafe(before);
      RunAppend(before, Receive(w, now));
      EventDecides(s, w, now);
    } else {
      var front, a := after[..|after| - 1], after[|after| - 1];
      FirstVerdictStands(before, w, now, front);
      var shorter := before + [Receive(w, now)] + front;
      assert all == shorter + [a];
      RunAppend(shorter, a);
      RunsAreSafe(shorter);
      DecidedStands(Run(shorter), a, w.order);
    }
  }
}
