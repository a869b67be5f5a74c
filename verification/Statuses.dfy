/**
 When an order's history tells its status. Finishing and retrying write their event in a second
 commit: meanwhile, or for good after a crash, the history lags behind, and an event that comes when
 the order has already moved on makes it tell the past.
 */
module Statuses {
  import opened Base
  import opened Tables
  import opened Books
  import opened Consistency
  import opened Transactions
  import opened Queue
  import opened Machine
  import opened Safety
  import opened History
  import opened Replays
  import opened Truth

  // The status this step finishes or retries an order into, its event still to be written.
  function Silently(s: State, a: Action, o: nat): Option<OrderStatus> {
    match a
    case Finish(w, deferral) =>
      var x := At(s, w);
      if x.Judging? && x.order == o && o < |s.t.orders| && s.t.orders[o].status == Delivering
      then Some(Verdict(x.items, deferral).0) else None
    case Retry(w, p) =>
      if p == o && At(s, w) == Idle && o < |s.t.orders| && s.t.orders[o].status == DeliveryFailed then Some(Paid) else None
    case _ => None
  }

  predicate TakesEffect(s: State, webhook: Webhook, now: int) {
    webhook.event !in s.t.payments && match HandleWebhook(s.t, webhook, now) case Some((_, Applied)) => true case _ => false
  }

  // The status that an event written by this step gives an order.
  function Tells(s: State, a: Action, o: nat): Option<OrderStatus> {
    match a
    case Create(_, units, _) => if o == |s.t.orders| && IdsFree(s.t, units) && units != [] then Some(Created) else None
    case Receive(webhook, now) =>
      if webhook.order == o && TakesEffect(s, webhook, now)
      then Some(if webhook.status == PaymentPaid then Paid else PaymentFailed) else None
    case ClaimOrder(w, p, now) => if p == o && At(s, w) == Idle && Claim(s.t, o, now).Some? then Some(Delivering) else None
    case WriteMove(w, _) => if At(s, w).Owing? && At(s, w).order == o then Some(At(s, w).to) else None
    case Sweep(w, _) => if At(s, w).Sweeping? && At(s, w).order == o && o < |s.t.orders| then Some(Paid) else None
    case _ => None
  }

  // The status named by the last event that the schedule wrote for an order.
  function LastTold(actions: seq<Action>, o: nat): OrderStatus {
    if actions == [] then Created
    else
      var before, a := actions[..|actions| - 1], actions[|actions| - 1];
      match Tells(Run(before), a, o)
      case Some(status) => status
      case None => LastTold(before, o)
  }

  // History and row part when an order moves silently to a status its last event does not name, and
  // when an owed event is written for an order that has moved on; any other event brings them together.
  predicate Apart(actions: seq<Action>, o: nat) {
    if actions == [] then false
    else
      var before, a := actions[..|actions| - 1], actions[|actions| - 1];
      var s := Run(before);
      if Silently(s, a, o).Some? then Silently(s, a, o).value != LastTold(before, o)
      else if Tells(s, a, o).Some? then a.WriteMove? && o < |s.t.orders| && s.t.orders[o].status != Tells(s, a, o).value
      else Apart(before, o)
  }

  function StatusAfter(s: State, a: Action, o: nat): OrderStatus
    requires o < |s.t.orders|
  {
    if Silently(s, a, o).Some? then Silently(s, a, o).value
    else if Tells(s, a, o).Some? && !a.WriteMove? then Tells(s, a, o).value
    else s.t.orders[o].status
  }

  function ToldAfter(s: State, a: Action, o: nat, told: OrderStatus): OrderStatus {
    match Tells(s, a, o)
    case Some(status) => status
    case None => told
  }

  // ---- One step ----

  // Row and history of an order after one step.
  ghost predicate Stepped(s: State, t': Tables, a: Action, o: nat)
    requires o < |s.t.orders|
  {
    && o < |t'.orders| && t'.orders[o].status == StatusAfter(s, a, o)
    && (ReplayOf(s.t, o).Some? ==>
          ReplayOf(t', o).Some? && ReplayOf(t', o).value.status == ToldAfter(s, a, o, ReplayOf(s.t, o).value.status))
  }

  lemma ClaimStepped(s: State, w: nat, p: nat, now: int, o: nat)
    requires o < |s.t.orders|
    ensures Stepped(s, DoClaimOrder(s, w, p, now).t, ClaimOrder(w, p, now), o)
  {
    var t' := DoClaimOrder(s, w, p, now).t;
    if At(s, w) == Idle && Claim(s.t, p, now).Some? && ReplayOf(s.t, o).Some? {
      ReplayAppend(s.t, t', OrderEvent(p, OrderMoved(Paid, Delivering, None), now), o);
    }
    hide Replay, Selected;
  }

  lemma MoveStepped(s: State, w: nat, now: int, o: nat)
    requires o < |s.t.orders|
    ensures Stepped(s, DoWriteMove(s, w, now).t, WriteMove(w, now), o)
  {
    var x, t' := At(s, w), DoWriteMove(s, w, now).t;
    if x.Owing? {
      var e := OrderEvent(x.order, OrderMoved(x.from, x.to, None), now);
      if ReplayOf(s.t, o).Some? {
        ReplayAppend(s.t, t', e, o);
      }
    }
    hide ReplayOf;
  }

  lemma SweepStepped(s: State, w: nat, now: int, o: nat)
    requires o < |s.t.orders|
    ensures Stepped(s, DoSweep(s, w, now).t, Sweep(w, now), o)
  {
    var x, t' := At(s, w), DoSweep(s, w, now).t;
    if x.Sweeping? && x.order < |s.t.orders| {
      var e := OrderEvent(x.order, OrderMoved(x.previous, Paid, None), now);
      if ReplayOf(s.t, o).Some? {
        ReplayAppend(s.t, t', e, o);
      }
    }
    hide ReplayOf;
  }

  lemma MovedRow(t: Tables, p: nat, from: OrderStatus, to: OrderStatus, extra: Extra)
    ensures var r := MoveOrder(t, p, from, to, extra);
            && (r.Some? <==> p < |t.orders| && t.orders[p].status == from)
            && (r.Some? ==>
                  && |r.value.orders| == |t.orders| && r.value.orders[p].status == to && r.value.events == t.events
                  && forall o: nat | o < |t.orders| && o != p :: r.value.orders[o].status == t.orders[o].status)
  {
  }

  lemma FinishStepped(s: State, w: nat, deferral: Option<int>, o: nat)
    requires o < |s.t.orders|
    ensures Stepped(s, DoFinish(s, w, deferral).t, Finish(w, deferral), o)
  {
    hide ReplayOf, Verdict, MoveOrder;
    var x := At(s, w);
    if x.Judging? {
      var (to, extra) := Verdict(x.items, deferral);
      MovedRow(s.t, x.order, Delivering, to, extra);
    }
    SameEvents(s.t, DoFinish(s, w, deferral).t, o);
  }

  lemma RetryStepped(s: State, w: nat, p: nat, o: nat)
    requires o < |s.t.orders|
    ensures Stepped(s, DoRetry(s, w, p).t, Retry(w, p), o)
  {
    hide ReplayOf;
    SameEvents(s.t, DoRetry(s, w, p).t, o);
  }

  lemma ReceiveStepped(s: State, webhook: Webhook, now: int, o: nat)
    requires Inv(s) && o < |s.t.orders|
    ensures Stepped(s, DoReceive(s, webhook, now).t, Receive(webhook, now), o)
  {
    hide HandleWebhook, ReplayOf, Queue.Applies, Consistent, BookedDeliveries, PayoutsOk, WorkersOk;
    var t' := DoReceive(s, webhook, now).t;
    WebhookKeeps(s.t, webhook, now);
    if webhook.event !in s.t.payments {
      FirstTime(s.t, webhook, now);
    }
    if TakesEffect(s, webhook, now) {
      AppliedStepped(s, t', webhook, now, o);
    } else {
      SameEvents(s.t, t', o);
    }
  }

  lemma SameEvents(t: Tables, t': Tables, o: nat)
    requires t'.events == t.events
    ensures ReplayOf(t', o) == ReplayOf(t, o)
  {
  }

  lemma FirstTime(t: Tables, webhook: Webhook, now: int)
    requires Consistent(t) && webhook.event !in t.payments
    ensures HandleWebhook(t, webhook, now).Some?
    ensures var (t', outcome) := HandleWebhook(t, webhook, now).value;
            if outcome == Applied then Queue.Applies(t, t', webhook, now)
            else t' == t.(payments := t.payments[webhook.event := RecordedEvent(webhook, outcome)])
  {
    assert EventOk(t, webhook.event);
    WebhookWrites(t, webhook, now);
  }

  lemma AppliedStepped(s: State, t': Tables, webhook: Webhook, now: int, o: nat)
    requires o < |s.t.orders| && TakesEffect(s, webhook, now) && Queue.Applies(s.t, t', webhook, now)
    ensures Stepped(s, t', Receive(webhook, now), o)
  {
    hide ReplayOf, HandleWebhook;
    if ReplayOf(s.t, o).Some? {
      ReplayAppend(s.t, t', t'.events[|s.t.events|], o);
    }
  }

  lemma CreateStepped(s: State, currency: string, units: seq<Unit>, now: int, o: nat)
    requires o < |s.t.orders|
    ensures Stepped(s, DoCreate(s, currency, units, now).t, Create(currency, units, now), o)
  {
    if ReplayOf(s.t, o).Some? && units != [] && IdsFree(s.t, units) {
      var body := OrderCreated(TotalPrice(units), NewItems(units));
      ReplayAppend(s.t, DoCreate(s, currency, units, now).t, OrderEvent(|s.t.orders|, body, now), o);
    }
    hide Replay, Selected;
  }

  // An item's event says nothing about the order's status.
  lemma ItemEventStepped(s: State, t': Tables, a: Action, e: OrderEvent, o: nat)
    requires o < |s.t.orders| && Silently(s, a, o).None? && Tells(s, a, o).None?
    requires o < |t'.orders| && t'.orders[o].status == s.t.orders[o].status
    requires t'.events == s.t.events || (e.body.ItemMoved? && t'.events == s.t.events + [e])
    ensures Stepped(s, t', a, o)
  {
    if ReplayOf(s.t, o).Some? && t'.events == s.t.events + [e] {
      ReplayAppend(s.t, t', e, o);
    }
    hide Replay, Selected;
  }

  lemma DeliverStepped(s: State, w: nat, now: int, o: nat)
    requires Inv(s) && o < |s.t.orders|
    ensures Stepped(s, DoDeliver(s, w, now).t, Deliver(w, now), o)
  {
    var x, t' := At(s, w), DoDeliver(s, w, now).t;
    hide ReplayOf;
    if t' != s.t {
      var amount, d := x.items[x.next].amount, Delivery(x.phase.requestId, x.phase.supplier, x.phase.code);
      CompleteTouches(s.t, KeyOf(x), amount, d, now);
      NewDelivery(s.t, KeyOf(x), amount, d, now);
      CompleteWrites(s.t, KeyOf(x), amount, d, now);
      hide Complete, Inv;
      ItemEventStepped(s, t', Deliver(w, now), DeliveredEvent(KeyOf(x), amount, d, now), o);
    }
  }

  lemma NewDelivery(t: Tables, key: ItemKey, amount: int, d: Delivery, now: int)
    requires KeyOk(t, key) && Complete(t, key, amount, d, now).Done?
    ensures key !in t.deliveries
  {
  }

  lemma SettleStepped(s: State, w: nat, now: int, o: nat)
    requires o < |s.t.orders|
    ensures Stepped(s, DoSettle(s, w, now).t, Settle(w, now), o)
  {
    hide ReplayOf, BookRefund;
    var x, t' := At(s, w), DoSettle(s, w, now).t;
    if AtItem(x) && x.phase.Given? {
      RefundedRow(s.t, KeyOf(x), x.items[x.next], now);
      ItemEventStepped(s, t', Settle(w, now), RefundedEvent(KeyOf(x), x.items[x.next], now), o);
    }
  }

  lemma RefundedRow(t: Tables, key: ItemKey, local: Item, now: int)
    ensures var r := BookRefund(t, key, local, now);
            r.Some? ==>
              && |r.value.orders| == |t.orders| && r.value.events == t.events + [RefundedEvent(key, local, now)]
              && forall o: nat | o < |t.orders| :: r.value.orders[o].status == t.orders[o].status
  {
    hide Clashes, MoveItem;
    var t0 := if key in t.refunds then t
    else t.(refunds := t.refunds[key := Refund(local.amount, ReasonOr(local.refundReason))]);
    MovedItem(t0, key, Refunding, Refunded, None);
  }

  lemma MovedItem(t: Tables, key: ItemKey, from: ItemStatus, to: ItemStatus, reason: Option<RefundReason>)
    ensures var r := MoveItem(t, key, from, to, reason);
            r.Some? ==>
              && |r.value.orders| == |t.orders| && r.value.events == t.events
              && forall o: nat | o < |t.orders| :: r.value.orders[o].status == t.orders[o].status
  {
  }

  lemma DecisionStepped(s: State, w: nat, reason: RefundReason, o: nat)
    requires o < |s.t.orders|
    ensures Stepped(s, DoGiveUp(s, w, reason).t, GiveUp(w, reason), o)
  {
    hide ReplayOf, MoveItem;
    var x := At(s, w);
    if x.Pass? {
      MovedItem(s.t, KeyOf(x), Pending, Refunding, Some(reason));
    }
    SameEvents(s.t, DoGiveUp(s, w, reason).t, o);
  }

  lemma DocumentStepped(s: State, w: nat, now: int, o: nat)
    requires o < |s.t.orders|
    ensures Stepped(s, DoDocument(s, w, now).t, Document(w, now), o)
  {
    hide ReplayOf;
    var t' := DoDocument(s, w, now).t;
    if t'.events != s.t.events {
      ItemEventStepped(s, t', Document(w, now), t'.events[|s.t.events|], o);
    }
  }

  lemma StepSteps(s: State, a: Action, o: nat)
    requires Inv(s) && o < |s.t.orders|
    ensures Stepped(s, Next(s, a).t, a, o)
  {
    hide ReplayOf, Inv, Verdict, HandleWebhook;
    if !WritesTables(a) {
      OthersWriteNothing(s, a);
    } else {
      match a
      case Deliver(w, now) => DeliverStepped(s, w, now, o);
      case Settle(w, now) => SettleStepped(s, w, now, o);
      case GiveUp(w, reason) => DecisionStepped(s, w, reason, o);
      case Document(w, now) => DocumentStepped(s, w, now, o);
      case CallProvider(_, _, _) =>
      case Create(currency, units, now) => CreateStepped(s, currency, units, now, o);
      case Receive(webhook, now) => ReceiveStepped(s, webhook, now, o);
      case ClaimOrder(w, p, now) => ClaimStepped(s, w, p, now, o);
      case WriteMove(w, now) => MoveStepped(s, w, now, o);
      case Sweep(w, now) => SweepStepped(s, w, now, o);
      case Finish(w, deferral) => FinishStepped(s, w, deferral, o);
      case Retry(w, p) => RetryStepped(s, w, p, o);
    }
  }

  // A step that makes an order.
  lemma BornCreated(s: State, a: Action, o: nat)
    requires Inv(s) && EventsBelong(s.t) && |s.t.orders| <= o < |Next(s, a).t.orders|
    ensures Next(s, a).t.orders[o].status == Created
    ensures Tells(s, a, o) == Some(Created) && Silently(s, a, o) == None
    ensures ReplayOf(Next(s, a).t, o).Some? && ReplayOf(Next(s, a).t, o).value.status == Created
  {
    var t, t' := s.t, Next(s, a).t;
    OnlyCreateAdds(s, a);
    var e := t'.events[|t.events|];
    NoneSelected(t.events, o);
    SelectedAppend(t.events, e, Always(Some(o)));
    assert Selected(t'.events, Always(Some(o))) == [e];
  }

  lemma OnlyCreateAdds(s: State, a: Action)
    requires Consistent(s.t) && |s.t.orders| < |Next(s, a).t.orders|
    ensures a.Create? && IdsFree(s.t, a.units) && a.units != []
  {
    hide HandleWebhook, Consistent, Complete, BookRefund, Verdict;
    if a.Receive? {
      WebhookKeeps(s.t, a.webhook, a.now);
      WebhookSameItems(s.t, a.webhook, a.now);
    } else if a.Deliver? {
      DeliveryAddsNone(s, a.w, a.now);
    } else if a.Settle? {
      RefundAddsNone(s, a.w, a.now);
    }
  }

  lemma RefundAddsNone(s: State, w: nat, now: int)
    ensures |DoSettle(s, w, now).t.orders| == |s.t.orders|
  {
    hide Clashes;
  }

  lemma DeliveryAddsNone(s: State, w: nat, now: int)
    ensures |DoDeliver(s, w, now).t.orders| == |s.t.orders|
  {
    var x := At(s, w);
    if DoDeliver(s, w, now).t != s.t {
      CompleteTouches(s.t, KeyOf(x), x.items[x.next].amount, Delivery(x.phase.requestId, x.phase.supplier, x.phase.code), now);
    }
    hide Complete;
  }

  // ---- Whole schedules ----

  // After any schedule an order's replayed status is the one its last event named, and it is the
  // live one iff row and history have not parted since.
  lemma {:induction false} ReplayedStatus(actions: seq<Action>, o: nat)
    requires o < |Run(actions).t.orders|
    ensures var t := Run(actions).t;
            && ReplayOf(t, o).Some? && ReplayOf(t, o).value.status == LastTold(actions, o)
            && (ReplayOf(t, o).value.status == t.orders[o].status <==> !Apart(actions, o))
  {
    var before, a := actions[..|actions| - 1], actions[|actions| - 1];
    var s := Run(before);
    hide ReplayOf, Next;
    RunsAreSafe(before);
    RunTold(before);
    if o < |s.t.orders| {
      ReplayedStatus(before, o);
      StepSteps(s, a, o);
    } else {
      BornCreated(s, a, o);
    }
  }

  // ---- Schedules in which no order moves on while its event is owed ----

  predicate Owes(s: State, o: nat) {
    exists w :: w in s.workers && s.workers[w].Owing? && s.workers[w].order == o
  }

  // This step gives the order another status.
  predicate Shifts(s: State, a: Action, o: nat) {
    Silently(s, a, o).Some? || (Tells(s, a, o).Some? && !a.WriteMove?)
  }

  ghost predicate Punctual(actions: seq<Action>) {
    if actions == [] then true
    else
      var before, a := actions[..|actions| - 1], actions[|actions| - 1];
      Punctual(before) && forall o: nat | Shifts(Run(before), a, o) :: !Owes(Run(before), o)
  }

  // The order was finished or retried since its last event.
  predicate Untold(actions: seq<Action>, o: nat) {
    if actions == [] then false
    else
      var before, a := actions[..|actions| - 1], actions[|actions| - 1];
      var s := Run(before);
      Silently(s, a, o).Some? || (Tells(s, a, o).None? && Untold(before, o))
  }

  ghost predicate LagsOnly(s: State, o: nat, told: OrderStatus, untold: bool) {
    && (o < |s.t.orders| ==>
          var live := s.t.orders[o].status;
          if untold then (told == Delivering && live != Delivering) || (told == DeliveryFailed && live == Paid)
          else told == live)
    && (forall w | w in s.workers && s.workers[w].Owing? && s.workers[w].order == o ::
          o < |s.t.orders| && s.workers[w].to == s.t.orders[o].status)
  }

  lemma VerdictMoves(items: seq<Item>, deferral: Option<int>)
    ensures Verdict(items, deferral).0 != Delivering
  {
  }

  lemma OwingStep(s: State, a: Action, o: nat, v: nat)
    requires v in Next(s, a).workers && Next(s, a).workers[v].Owing? && Next(s, a).workers[v].order == o
    ensures (v in s.workers && s.workers[v] == Next(s, a).workers[v])
            || Silently(s, a, o) == Some(Next(s, a).workers[v].to)
  {
    hide Verdict, HandleWebhook, Complete, BookRefund, IdsFree;
  }

  lemma LagsStep(s: State, a: Action, o: nat, told: OrderStatus, untold: bool)
    requires Inv(s) && EventsBelong(s.t) && LagsOnly(s, o, told, untold)
    requires Shifts(s, a, o) ==> !Owes(s, o)
    ensures LagsOnly(Next(s, a), o, ToldAfter(s, a, o, told), Silently(s, a, o).Some? || (Tells(s, a, o).None? && untold))
  {
    hide Next, Inv, ReplayOf, Verdict;
    var s' := Next(s, a);
    if o < |s.t.orders| {
      StepSteps(s, a, o);
      LiveAfter(s, a, o, told, untold);
    } else if o < |s'.t.orders| {
      BornCreated(s, a, o);
    }
    forall w | w in s'.workers && s'.workers[w].Owing? && s'.workers[w].order == o
      ensures o < |s'.t.orders| && s'.workers[w].to == s'.t.orders[o].status
    {
      OwingStep(s, a, o, w);
    }
  }

  lemma LiveAfter(s: State, a: Action, o: nat, told: OrderStatus, untold: bool)
    requires o < |s.t.orders| && LagsOnly(s, o, told, untold)
    ensures var live, told' := StatusAfter(s, a, o), ToldAfter(s, a, o, told);
            if Silently(s, a, o).Some? || (Tells(s, a, o).None? && untold)
            then (told' == Delivering && live != Delivering) || (told' == DeliveryFailed && live == Paid)
            else told' == live
  {
    hide Verdict, Claim, HandleWebhook;
    if a.Finish? && At(s, a.w).Judging? {
      VerdictMoves(At(s, a.w).items, a.deferral);
    }
  }

  // If no order moves on while a worker owes its event, an order's replayed status is the live one
  // iff it was not finished or retried since its last event.
  lemma {:induction false} PunctualStatus(actions: seq<Action>, o: nat)
    requires Punctual(actions) && o < |Run(actions).t.orders|
    ensures var t := Run(actions).t;
            ReplayOf(t, o).Some? && (ReplayOf(t, o).value.status == t.orders[o].status <==> !Untold(actions, o))
  {
    hide ReplayOf;
    ReplayedStatus(actions, o);
    Lags(actions, o);
  }

  lemma {:induction false} Lags(actions: seq<Action>, o: nat)
    requires Punctual(actions)
    ensures LagsOnly(Run(actions), o, LastTold(actions, o), Untold(actions, o))
  {
    if actions != [] {
      hide Inv, Next, LagsOnly, OrderTold;
      var before, a := actions[..|actions| - 1], actions[|actions| - 1];
      Lags(before, o);
      RunsAreSafe(before);
      RunTold(before);
      LagsStep(Run(before), a, o, LastTold(before, o), Untold(before, o));
    }
  }
}
