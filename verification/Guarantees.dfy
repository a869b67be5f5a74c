/** What a reader may rely on after any schedule of the fulfilment machine. */
module Guarantees {
  import opened Base
  import opened Tables
  import opened Books
  import opened RequestIds
  import opened Consistency
  import opened Transactions
  import opened Queue
  import opened Machine
  import opened Safety
  import opened History

  function PostedPairs(t: Tables, reason: PostingReason, key: ItemKey): seq<LedgerRow> {
    Postings(t.ledger, reason, ItemRef(key))
  }

  // Delivered iff one delivery row and one delivery pair; refunded iff one refund row and one
  // refund pair; never both; the provider paid at most once, and only for what is being given back.
  lemma ExactlyOnce(s: State, key: ItemKey)
    requires Reachable(s) && ValidKey(s.t, key)
    ensures var i := ItemAt(s.t, key);
            && (i.status == Delivered <==> key in s.t.deliveries)
            && (i.status == Delivered <==> PostedPairs(s.t, ForDelivery, key) != [])
            && (i.status == Delivered ==>
                  Booked(PostedPairs(s.t, ForDelivery, key), key.order, ForDelivery, ItemRef(key), Liability, Revenue, i.amount))
            && (i.status == Refunded <==> key in s.t.refunds)
            && (i.status == Refunded <==> PostedPairs(s.t, ForRefund, key) != [])
            && (i.status == Refunded ==>
                  && s.t.refunds[key].amount == i.amount && i.refundReason == Some(s.t.refunds[key].reason)
                  && Booked(PostedPairs(s.t, ForRefund, key), key.order, ForRefund, ItemRef(key), Liability, Cash, i.amount))
            && !(key in s.t.deliveries && key in s.t.refunds)
    ensures && (PaidOut(s.payouts, key) ==> ItemAt(s.t, key).status in {Refunding, Refunded})
            && (ItemAt(s.t, key).status == Refunded ==> PaidOut(s.payouts, key))
            && (forall i, j | 0 <= i < j < |s.payouts| :: s.payouts[i].item != s.payouts[j].item)
            && (forall i | 0 <= i < |s.payouts| && s.payouts[i].item == key :: s.payouts[i].amount == ItemAt(s.t, key).amount)
  {
    ReachableIsSafe(s);
    assert KeyOk(s.t, key);
    forall i | 0 <= i < |s.payouts| && s.payouts[i].item == key
      ensures ItemAt(s.t, key).status in {Refunding, Refunded} && s.payouts[i].amount == ItemAt(s.t, key).amount
    {
      assert OwedBack(s.t, s.payouts[i]);
    }
  }

  // A delivery quotes its supplier's book: the entry under an id that was made for this item and this
  // supplier. No two items share a code.
  lemma DeliveredAsBooked(s: State, key: ItemKey)
    requires Reachable(s) && key in s.t.deliveries
    ensures var d := s.t.deliveries[key];
            && ValidKey(s.t, key)
            && ItemAt(s.t, key).status == Delivered
            && (d.supplier, d.requestId) in s.book && s.book[(d.supplier, d.requestId)] == d.code
            && OwnRequest(ItemAt(s.t, key), d.supplier, d.requestId)
            && (forall other | other in s.t.deliveries && other != key ::
                  s.t.deliveries[other].code != d.code && s.t.deliveries[other].requestId != d.requestId)
  {
    var d := s.t.deliveries[key];
    ReachableIsSafe(s);
    assert KeyOk(s.t, key);
    var r: nat :| r >= 1 && d.requestId == RequestId(ItemAt(s.t, key).id, d.supplier, r);
    forall other | other in s.t.deliveries && other != key ensures s.t.deliveries[other].requestId != d.requestId {
      var d' := s.t.deliveries[other];
      var r': nat :| r' >= 1 && d'.requestId == RequestId(ItemAt(s.t, other).id, d'.supplier, r');
      if d'.requestId == d.requestId {
        RequestIdsInjective(ItemAt(s.t, other).id, d'.supplier, r', ItemAt(s.t, key).id, d.supplier, r);
      }
    }
  }

  // ---- Money ----

  datatype BalanceReport = BalanceReport(actual: Balances, expected: Held, balanced: bool)

  // Two columns, each from a query of its own: what was posted, and what the live rows add up to.
  function BalancesReport(posted: Tables, live: Tables): BalanceReport {
    var actual := BalancesOf(posted.ledger, Always(None));
    var items := TotalHeld(live.orders, None);
    BalanceReport(actual, items,
                  && actual.total == 0
                  && actual.cash == items.paid - items.refunded
                  && actual.customerLiability == items.open
                  && actual.revenue == items.delivered
                  && actual.refunded == items.refunded)
  }

  // A paid order whose amount, postings and item statuses disagree, or a final one with open items.
  predicate MoneyMismatch(t: Tables, o: nat)
    requires o < |t.orders|
  {
    var order := t.orders[o];
    var h := TotalHeld(t.orders, Some(o));
    var b := BalancesOf(t.ledger, Always(Some(o)));
    && IsPaid(order.status)
    && (|| h.paid != h.delivered + h.refunded + h.open
        || b.cash != h.paid - h.refunded
        || b.revenue != h.delivered
        || (IsFinal(order.status) && h.open > 0))
  }

  lemma {:induction false} HeldAddsUp(orders: seq<Order>)
    requires forall o | 0 <= o < |orders| :: OrderOk(orders[o])
    ensures AllHeld(orders).paid == AllHeld(orders).delivered + AllHeld(orders).refunded + AllHeld(orders).open
  {
    if orders != [] {
      HeldAddsUp(orders[..|orders| - 1]);
      assert OrderOk(orders[|orders| - 1]);
    }
  }

  lemma {:induction false} NothingOpenHoldsNothing(items: seq<Item>)
    requires NoneOpen(items)
    ensures SplitOf(items).open == 0
  {
    if items != [] {
      NothingOpenHoldsNothing(items[..|items| - 1]);
    }
  }

  // Balances follow from what moved, and what moved matches what is held.
  lemma ScopeAddsUp(t: Tables, scope: Option<nat>)
    requires LogsAgree(t, Always(scope)) && LiveAgrees(t, scope)
    requires var h := TotalHeld(t.orders, scope); h.paid == h.delivered + h.refunded + h.open
    ensures var b, h := BalancesOf(t.ledger, Always(scope)), TotalHeld(t.orders, scope);
            && b.total == 0 && b.cash == h.paid - h.refunded && b.customerLiability == h.open
            && b.revenue == h.delivered && b.refunded == h.refunded
  {
    hide BalancesOf, LedgerMoved, EventsMoved, TotalHeld;
  }

  lemma OrderAddsUp(t: Tables, o: nat)
    requires o < |t.orders| && OrderOk(t.orders[o])
    requires LogsAgree(t, Always(Some(o))) && LiveAgrees(t, Some(o))
    ensures !MoneyMismatch(t, o)
    ensures IsPaid(t.orders[o].status) ==>
              var amount, held, posted := t.orders[o].amount, SplitOf(t.orders[o].items), BalancesOf(t.ledger, Always(Some(o)));
              && amount == held.delivered + held.refunded + held.open
              && posted.cash == amount - held.refunded && posted.revenue == held.delivered
    ensures IsFinal(t.orders[o].status) ==> NoneOpen(t.orders[o].items) && HeldBy(t.orders[o]).open == 0
  {
    hide BalancesOf, LedgerMoved, EventsMoved;
    if IsFinal(t.orders[o].status) {
      NothingOpenHoldsNothing(t.orders[o].items);
    }
    assert TotalHeld(t.orders, Some(o)) == HeldBy(t.orders[o]);
    ColumnsOf(t, o);
    ScopeAddsUp(t, Some(o));
  }

  lemma ColumnsOf(t: Tables, o: nat)
    requires o < |t.orders|
    requires LogsAgree(t, Always(Some(o))) && LiveAgrees(t, Some(o))
    requires var h := TotalHeld(t.orders, Some(o));
             h.paid == h.delivered + h.refunded + h.open && (IsFinal(t.orders[o].status) ==> h.open == 0)
    ensures !MoneyMismatch(t, o)
  {
    hide BalancesOf, LedgerMoved, EventsMoved, TotalHeld;
    ScopeAddsUp(t, Some(o));
  }

  // Postings cancel out and match the items' statuses, for every order and in total.
  lemma MoneyAddsUp(s: State)
    requires Reachable(s)
    ensures BalancesReport(s.t, s.t).balanced
    ensures forall o: nat | o < |s.t.orders| :: !MoneyMismatch(s.t, o)
    ensures forall o: nat | o < |s.t.orders| && IsPaid(s.t.orders[o].status) ::
              var amount, held, posted := s.t.orders[o].amount, SplitOf(s.t.orders[o].items), BalancesOf(s.t.ledger, Always(Some(o)));
              && amount == held.delivered + held.refunded + held.open
              && posted.cash == amount - held.refunded && posted.revenue == held.delivered
    ensures forall o: nat | o < |s.t.orders| && IsFinal(s.t.orders[o].status) ::
              NoneOpen(s.t.orders[o].items) && HeldBy(s.t.orders[o]).open == 0
  {
    var t := s.t;
    ReachableIsSafe(s);
    forall o: nat | o < |t.orders|
      ensures !MoneyMismatch(t, o)
      ensures IsPaid(t.orders[o].status) ==>
                var amount, held, posted := t.orders[o].amount, SplitOf(t.orders[o].items), BalancesOf(t.ledger, Always(Some(o)));
                && amount == held.delivered + held.refunded + held.open
                && posted.cash == amount - held.refunded && posted.revenue == held.delivered
      ensures IsFinal(t.orders[o].status) ==> NoneOpen(t.orders[o].items) && HeldBy(t.orders[o]).open == 0
    {
      OrderAddsUp(t, o);
    }
    LedgerBalances(t);
  }

  // Were the ledger another one, the orders listed would be exactly the paid ones whose cash or revenue
  // it shows differently.
  lemma OtherLedgersAreListed(s: State, ledger: seq<LedgerRow>, o: nat)
    requires Reachable(s) && o < |s.t.orders|
    ensures MoneyMismatch(s.t.(ledger := ledger), o) <==>
            var was, shown := BalancesOf(s.t.ledger, Always(Some(o))), BalancesOf(ledger, Always(Some(o)));
            IsPaid(s.t.orders[o].status) && (shown.cash != was.cash || shown.revenue != was.revenue)
  {
    MoneyAddsUp(s);
    hide BalancesOf, Reachable;
    assert TotalHeld(s.t.orders, Some(o)) == HeldBy(s.t.orders[o]);
  }

  // The same was paid, delivered and refunded at both moments.
  predicate SameMoney(t: Tables, t': Tables) {
    var h, h' := TotalHeld(t.orders, None), TotalHeld(t'.orders, None);
    h'.paid == h.paid && h'.delivered == h.delivered && h'.refunded == h.refunded
  }

  // Read at two moments, the columns agree iff between them nothing was paid, delivered or refunded.
  lemma BalancesReadApart(s: State, s': State)
    requires Reachable(s) && Reachable(s')
    ensures BalancesReport(s.t, s'.t).balanced <==> SameMoney(s.t, s'.t)
  {
    ReachableIsSafe(s);
    ReachableIsSafe(s');
    LedgerBalances(s.t);
    LedgerBalances(s'.t);
    HeldAddsUp(s.t.orders);
    HeldAddsUp(s'.t.orders);
    hide Inv, BalancesOf, AllHeld, Reachable;
  }

  lemma LedgerBalances(t: Tables)
    requires OrdersOk(t) && MoneyOk(t)
    ensures BalancesReport(t, t).balanced
  {
    hide BalancesOf, LedgerMoved, EventsMoved, AllHeld;
    assert LogsAgree(t, Always(None)) && LiveAgrees(t, None);
    HeldAddsUp(t.orders);
    ScopeAddsUp(t, None);
  }

  // Both verdicts on a period whose four queries are read in four reachable states, and that they
  // always hold when it is one.
  lemma PeriodsReconcile(s1: State, s2: State, s3: State, s4: State, from: int, to: int)
    requires Reachable(s1) && Reachable(s2) && Reachable(s3) && Reachable(s4) && from <= to
    ensures MoneyRead(s1.t, s2.t, s3.t, s4.t, from, to).eventsAgree <==>
            LedgerMoved(s2.t.ledger, Between(from, to)) == LedgerMoved(s1.t.ledger, Between(from, to))
    ensures MoneyRead(s1.t, s2.t, s3.t, s4.t, from, to).balanced <==>
            var during := Gained(LedgerMoved(s1.t.ledger, Between(from, to)), LedgerMoved(s4.t.ledger, Between(from, to)));
            var before := Gained(LedgerMoved(s3.t.ledger, Before(from)), LedgerMoved(s4.t.ledger, Before(from)));
            during.0 + before.0 == 0 && during.1 + before.1 == 0
    ensures MoneyBetween(s1.t, from, to).balanced && MoneyBetween(s1.t, from, to).eventsAgree
  {
    ReachableIsSafe(s1);
    ReachableIsSafe(s2);
    ReachableIsSafe(s3);
    ReachableIsSafe(s4);
    PeriodReconciles(s1.t, s1.t, s1.t, s1.t, from, to);
    PeriodReconciles(s1.t, s2.t, s3.t, s4.t, from, to);
    hide LedgerMoved, EventsMoved, BalancesOf, Reachable;
  }

  // ---- Reconciliation: the lists that must be empty ----

  predicate HasAppliedPayment(t: Tables, o: nat) {
    exists e | e in t.payments ::
      t.payments[e].order == o && t.payments[e].status == PaymentPaid && t.payments[e].outcome == Applied
  }

  predicate DeliveredNotPaid(t: Tables, key: ItemKey)
    requires ValidKey(t, key)
  {
    || (ItemAt(t, key).status == Delivered && key !in t.deliveries)
    || (key in t.deliveries && !HasAppliedPayment(t, key.order))
  }

  // Joined on the request id alone, whoever booked it.
  ghost predicate CodeMismatches(s: State, key: ItemKey)
    requires key in s.t.deliveries
  {
    exists supplier :: BookedOtherwise(s, s.t.deliveries[key], supplier)
  }

  predicate BookedOtherwise(s: State, d: Delivery, supplier: string) {
    (supplier, d.requestId) in s.book && s.book[(supplier, d.requestId)] != d.code
  }

  // The primary key of the table the books are kept in.
  ghost predicate OneEntryPerId(book: Book) {
    forall a, b | a in book && b in book && a.1 == b.1 :: a == b
  }

  // Each list and each of the ledger's two columns is a query of its own, at its own moment.
  ghost predicate Healthy(paid: State, money: State, codes: State, posted: State, live: State) {
    && (forall key | ValidKey(paid.t, key) :: !DeliveredNotPaid(paid.t, key))
    && (forall o: nat | o < |money.t.orders| :: !MoneyMismatch(money.t, o))
    && (forall key | key in codes.t.deliveries :: !CodeMismatches(codes, key))
    && BalancesReport(posted.t, live.t).balanced
  }

  ghost predicate OthersBookedOtherwise(s: State) {
    exists key, supplier :: key in s.t.deliveries && supplier != s.t.deliveries[key].supplier
                            && BookedOtherwise(s, s.t.deliveries[key], supplier)
  }

  // Whenever its queries are read, only two things can make the report unhealthy: another supplier's
  // entry under a delivered request id, of which there is none with one entry per request id, and
  // money that moved between the ledger's two queries.
  lemma AlwaysHealthy(paid: State, money: State, codes: State, posted: State, live: State)
    requires Reachable(paid) && Reachable(money) && Reachable(codes) && Reachable(posted) && Reachable(live)
    ensures Healthy(paid, money, codes, posted, live) <==>
            !OthersBookedOtherwise(codes) && SameMoney(posted.t, live.t)
    ensures OneEntryPerId(codes.book) ==> !OthersBookedOtherwise(codes)
  {
    AllPaidFor(paid);
    MoneyAddsUp(money);
    ReachableIsSafe(codes);
    BookAgrees(codes);
    BalancesReadApart(posted, live);
    hide Inv, MoneyMismatch, DeliveredNotPaid, BalancesReport, SameMoney, Reachable;
  }

  lemma AllPaidFor(s: State)
    requires Reachable(s)
    ensures forall key | ValidKey(s.t, key) :: !DeliveredNotPaid(s.t, key)
    ensures forall key | ValidKey(s.t, key) :: ItemAt(s.t, key).status == Delivered <==> key in s.t.deliveries
    ensures forall key | key in s.t.deliveries :: exists e :: PaidBy(s.t, e, key.order)
  {
    ReachableIsSafe(s);
    forall key | ValidKey(s.t, key)
      ensures !DeliveredNotPaid(s.t, key)
      ensures ItemAt(s.t, key).status == Delivered <==> key in s.t.deliveries
      ensures key in s.t.deliveries ==> exists e :: PaidBy(s.t, e, key.order)
    {
      assert KeyOk(s.t, key);
      if key in s.t.deliveries {
        assert OrderOk(s.t.orders[key.order]);
        assert IsPaid(s.t.orders[key.order].status);
        var e :| PaidBy(s.t, e, key.order);
        assert s.t.payments[e].order == key.order;
      }
    }
  }

  // Were other deliveries on record, the items listed would be exactly those whose delivery is missing
  // and those with one in an order never paid for.
  lemma OtherDeliveriesAreListed(s: State, deliveries: map<ItemKey, Delivery>, key: ItemKey)
    requires Reachable(s) && ValidKey(s.t, key)
    ensures DeliveredNotPaid(s.t.(deliveries := deliveries), key) <==>
            || (key in s.t.deliveries && key !in deliveries)
            || (key in deliveries && !IsPaid(s.t.orders[key.order].status))
  {
    AllPaidFor(s);
    ReachableIsSafe(s);
    hide Reachable;
    var o := key.order;
    if IsPaid(s.t.orders[o].status) {
      var e :| PaidBy(s.t, e, o);
      assert s.t.payments[e].order == o;
    } else if HasAppliedPayment(s.t, o) {
      var e :| e in s.t.payments && s.t.payments[e].order == o && s.t.payments[e].status == PaymentPaid && s.t.payments[e].outcome == Applied;
      assert EventOk(s.t, e);
    }
  }

  // A delivery's own supplier has booked just that code.
  lemma BookAgrees(s: State)
    requires BookedDeliveries(s)
    ensures forall key | key in s.t.deliveries ::
              var d := s.t.deliveries[key];
              !BookedOtherwise(s, d, d.supplier) && (d.supplier, d.requestId) in s.book
    ensures forall key | key in s.t.deliveries :: CodeMismatches(s, key) <==>
                                                  exists supplier :: supplier != s.t.deliveries[key].supplier && BookedOtherwise(s, s.t.deliveries[key], supplier)
  {
  }

  // ---- Payments ----

  // One applied event per order at most; the order is paid iff that event is a `paid` one, and the
  // payment pair exists iff it is.
  lemma PaidOnce(s: State, o: nat)
    requires Reachable(s) && o < |s.t.orders|
    ensures forall e, f | IsApplied(s.t, e) && IsApplied(s.t, f) && s.t.payments[e].order == o && s.t.payments[f].order == o :: e == f
    ensures IsPaid(s.t.orders[o].status) <==> exists e :: PaidBy(s.t, e, o)
    ensures forall e :: Postings(s.t.ledger, ForPayment, EventRef(e)) != [] <==>
                        IsApplied(s.t, e) && s.t.payments[e].status == PaymentPaid
    ensures forall e | PaidBy(s.t, e, o) ::
              && s.t.payments[e].amount == s.t.orders[o].amount
              && Booked(Postings(s.t.ledger, ForPayment, EventRef(e)), o, ForPayment, EventRef(e), Cash, Liability, s.t.orders[o].amount)
  {
    ReachableIsSafe(s);
    forall e
      ensures Postings(s.t.ledger, ForPayment, EventRef(e)) != [] <==> IsApplied(s.t, e) && s.t.payments[e].status == PaymentPaid
      ensures PaidBy(s.t, e, o) ==> IsPaid(s.t.orders[o].status)
    {
      assert EventOk(s.t, e);
    }
    forall e | PaidBy(s.t, e, o)
      ensures && s.t.payments[e].amount == s.t.orders[o].amount
              && Booked(Postings(s.t.ledger, ForPayment, EventRef(e)), o, ForPayment, EventRef(e), Cash, Liability, s.t.orders[o].amount)
    {
      assert EventOk(s.t, e);
    }
  }

  // ---- Redelivered webhooks ----

  function EventsSeen(actions: seq<Action>): set<string> {
    if actions == [] then {}
    else
      var a := actions[|actions| - 1];
      EventsSeen(actions[..|actions| - 1]) + (if a.Receive? then {a.webhook.event} else {})
  }

  // The schedule with every later repeat of an event id taken out, whatever the repeat says.
  function WithoutRepeats(actions: seq<Action>): seq<Action> {
    if actions == [] then []
    else
      var before, a := actions[..|actions| - 1], actions[|actions| - 1];
      if a.Receive? && a.webhook.event in EventsSeen(before) then WithoutRepeats(before) else WithoutRepeats(before) + [a]
  }

  lemma CompletePayments(t: Tables, key: ItemKey, amount: int, d: Delivery, now: int)
    requires Complete(t, key, amount, d, now).Done?
    ensures Complete(t, key, amount, d, now).t.payments == t.payments
  {
  }

  lemma PaymentsKept(s: State, a: Action)
    requires !a.Receive?
    ensures Next(s, a).t.payments == s.t.payments
  {
    if a.Deliver? {
      var x := At(s, a.w);
      if AtItem(x) && x.phase.Confirmed? {
        var d := Delivery(x.phase.requestId, x.phase.supplier, x.phase.code);
        if Complete(s.t, KeyOf(x), x.items[x.next].amount, d, a.now).Done? {
          CompletePayments(s.t, KeyOf(x), x.items[x.next].amount, d, a.now);
        }
      }
    }
    hide Complete, FinalStatus;
  }

  lemma {:induction false} SeenAreRecorded(actions: seq<Action>)
    ensures EventsSeen(actions) <= Run(actions).t.payments.Keys
  {
    if actions != [] {
      var before, a := actions[..|actions| - 1], actions[|actions| - 1];
      SeenAreRecorded(before);
      RunsAreSafe(before);
      if a.Receive? {
        WebhookKeeps(Run(before).t, a.webhook, a.now);
      } else {
        PaymentsKept(Run(before), a);
      }
    }
  }

  // Orders, ledger, events and recorded outcomes are those of the schedule without the repeats.
  lemma {:induction false} RepeatsChangeNothing(actions: seq<Action>)
    ensures Run(WithoutRepeats(actions)) == Run(actions)
  {
    if actions != [] {
      var before, a := actions[..|actions| - 1], actions[|actions| - 1];
      RepeatsChangeNothing(before);
      if a.Receive? && a.webhook.event in EventsSeen(before) {
        SeenAreRecorded(before);
        assert DoReceive(Run(before), a.webhook, a.now) == Run(before);
      } else {
        RunAppend(WithoutRepeats(before), a);
      }
    }
  }

  // ---- Final orders ----

  // The one step that takes an order out of a final status is a sweep acting on what its unlocked
  // SELECT saw before the order became final.
  lemma FinalLeftOnlyByStaleSweep(s: State, a: Action, o: nat)
    requires Reachable(s) && o < |s.t.orders| && IsFinal(s.t.orders[o].status)
    ensures o < |Next(s, a).t.orders|
    ensures !IsFinal(Next(s, a).t.orders[o].status) <==> a.Sweep? && At(s, a.w).Sweeping? && At(s, a.w).order == o
  {
    ReachableIsSafe(s);
    if IsItemStep(a) {
      ItemStepsKeepStatus(s, a, o);
    } else if IsQueueStep(a) {
      QueueStepsKeepFinal(s, a, o);
    } else {
      OtherStepsKeepStatus(s, a, o);
    }
  }

  lemma QueueStepsKeepFinal(s: State, a: Action, o: nat)
    requires IsQueueStep(a) && o < |s.t.orders| && IsFinal(s.t.orders[o].status)
    ensures o < |Next(s, a).t.orders|
    ensures !IsFinal(Next(s, a).t.orders[o].status) <==> a.Sweep? && At(s, a.w).Sweeping? && At(s, a.w).order == o
  {
  }

  lemma OtherStepsKeepStatus(s: State, a: Action, o: nat)
    requires !IsQueueStep(a) && !IsItemStep(a) && o < |s.t.orders| && IsFinal(s.t.orders[o].status)
    ensures o < |Next(s, a).t.orders| && Next(s, a).t.orders[o].status == s.t.orders[o].status
  {
  }

  lemma DeliverKeepsStatus(s: State, w: nat, now: int, o: nat)
    requires o < |s.t.orders|
    ensures o < |DoDeliver(s, w, now).t.orders| && DoDeliver(s, w, now).t.orders[o].status == s.t.orders[o].status
  {
    var x := At(s, w);
    if AtItem(x) && x.phase.Confirmed? {
      var d := Delivery(x.phase.requestId, x.phase.supplier, x.phase.code);
      if Complete(s.t, KeyOf(x), x.items[x.next].amount, d, now).Done? {
        CompleteTouches(s.t, KeyOf(x), x.items[x.next].amount, d, now);
      }
      hide Complete;
    }
  }

  lemma SettleKeepsStatus(s: State, w: nat, now: int, o: nat)
    requires o < |s.t.orders|
    ensures o < |DoSettle(s, w, now).t.orders| && DoSettle(s, w, now).t.orders[o].status == s.t.orders[o].status
  {
  }

  lemma ItemStepsKeepStatus(s: State, a: Action, o: nat)
    requires IsItemStep(a) && o < |s.t.orders|
    ensures o < |Next(s, a).t.orders| && Next(s, a).t.orders[o].status == s.t.orders[o].status
  {
    var x := At(s, a.w);
    match a
    case Deliver(w, now) => DeliverKeepsStatus(s, w, now, o);
    case Settle(w, now) => SettleKeepsStatus(s, w, now, o);
    case _ =>
  }
}
