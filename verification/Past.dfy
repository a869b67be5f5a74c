/** Reading an order at a moment, over whole schedules: what the order was when that moment passed. */
module Past {
  import opened Base
  import opened Tables
  import opened Books
  import opened Consistency
  import opened Transactions
  import opened Queue
  import opened Machine
  import opened Safety
  import opened History
  import opened Replays
  import opened Truth

  // ---- The history is only ever added to ----

  lemma CompleteAddsEvents(t: Tables, key: ItemKey, amount: int, d: Delivery, now: int)
    ensures match Complete(t, key, amount, d, now) case Done(t') => t.events <= t'.events case _ => true
  {
    hide CodeTaken, RequestTaken, Clashes, ValidKey;
  }

  lemma RefundAddsEvents(t: Tables, key: ItemKey, local: Item, now: int)
    ensures var r := BookRefund(t, key, local, now); r.Some? ==> t.events <= r.value.events
  {
    hide Clashes, ValidKey;
  }

  lemma WebhookAddsEvents(t: Tables, w: Webhook, now: int)
    ensures var r := HandleWebhook(t, w, now); r.Some? ==> t.events <= r.value.0.events
  {
    hide Clashes;
  }

  lemma DeliverAddsEvents(s: State, w: nat, now: int)
    ensures s.t.events <= DoDeliver(s, w, now).t.events
  {
    hide Complete;
    var x := At(s, w);
    if AtItem(x) && x.phase.Confirmed? {
      CompleteAddsEvents(s.t, KeyOf(x), x.items[x.next].amount, Delivery(x.phase.requestId, x.phase.supplier, x.phase.code), now);
    }
  }

  lemma SettleAddsEvents(s: State, w: nat, now: int)
    ensures s.t.events <= DoSettle(s, w, now).t.events
  {
    hide BookRefund;
    var x := At(s, w);
    if AtItem(x) {
      RefundAddsEvents(s.t, KeyOf(x), x.items[x.next], now);
    }
  }

  lemma MoveAddsNoEvents(t: Tables, o: nat, from: OrderStatus, to: OrderStatus, extra: Extra)
    ensures var r := MoveOrder(t, o, from, to, extra); r.Some? ==> r.value.events == t.events
  {
  }

  lemma FinishAddsNoEvents(s: State, w: nat, deferral: Option<int>)
    ensures DoFinish(s, w, deferral).t.events == s.t.events
  {
    hide MoveOrder, Verdict;
    var x := At(s, w);
    if x.Judging? {
      MoveAddsNoEvents(s.t, x.order, Delivering, Verdict(x.items, deferral).0, Verdict(x.items, deferral).1);
    }
  }

  lemma StepAddsEvents(s: State, a: Action)
    ensures s.t.events <= Next(s, a).t.events
  {
    hide HandleWebhook, DoDeliver, DoSettle, DoFinish;
    match a
    case Receive(webhook, now) => WebhookAddsEvents(s.t, webhook, now);
    case Deliver(w, now) => DeliverAddsEvents(s, w, now);
    case Settle(w, now) => SettleAddsEvents(s, w, now);
    case Finish(w, deferral) => FinishAddsNoEvents(s, w, deferral);
    case _ =>
  }

  lemma {:induction false} RunsAddEvents(before: seq<Action>, after: seq<Action>)
    ensures Run(before).t.events <= Run(before + after).t.events
  {
    hide Run, Next;
    if after == [] {
      assert before + after == before;
    } else {
      var front, a := after[..|after| - 1], after[|after| - 1];
      RunsAddEvents(before, front);
      assert before + after == (before + front) + [a];
      RunAppend(before + front, a);
      StepAddsEvents(Run(before + front), a);
    }
  }

  // ---- What is selected ----

  lemma {:induction false} SelectedBefore(events: seq<OrderEvent>, o: nat, at: int)
    requires forall i | 0 <= i < |events| && events[i].order == o :: events[i].at <= at
    ensures Selected(events, Until(o, at)) == Selected(events, Always(Some(o)))
  {
    if events != [] {
      SelectedBefore(events[..|events| - 1], o, at);
    }
  }

  lemma {:induction false} SelectedUntil(events: seq<OrderEvent>, events': seq<OrderEvent>, o: nat, at: int)
    requires events <= events'
    requires forall i | |events| <= i < |events'| && events'[i].order == o :: events'[i].at > at
    ensures Selected(events', Until(o, at)) == Selected(events, Until(o, at))
  {
    if |events'| > |events| {
      SelectedUntil(events, events'[..|events'| - 1], o, at);
    } else {
      assert events' == events;
    }
  }

  // An order looked up at a moment, any time later: if what had happened to it is stamped then or
  // before, and what happened since after that, the answer is what its history told at the time,
  // and nothing exactly when the order was yet to be created.
  lemma StateAtIsThePast(before: seq<Action>, after: seq<Action>, o: nat, at: int)
    requires forall i | 0 <= i < |Run(before).t.events| && Run(before).t.events[i].order == o :: Run(before).t.events[i].at <= at
    requires var es, es' := Run(before).t.events, Run(before + after).t.events;
             forall i | |es| <= i < |es'| && es'[i].order == o :: es'[i].at > at
    ensures Replay(Selected(Run(before + after).t.events, Until(o, at))) == ReplayOf(Run(before).t, o)
    ensures Replay(Selected(Run(before + after).t.events, Until(o, at))).None? <==> o >= |Run(before).t.orders|
  {
    var t := Run(before).t;
    RunsAddEvents(before, after);
    SelectedUntil(t.events, Run(before + after).t.events, o, at);
    SelectedBefore(t.events, o, at);
    RunTold(before);
    if o < |t.orders| {
      assert OrderTold(t, o, GapsOf(before));
    } else {
      NoneSelected(t.events, o);
    }
  }
}
