/** Concrete schedules for what may go wrong: a reopened final order, a decision written late. */
module Witnesses {
  import opened Base
  import opened Tables
  import opened RequestIds
  import opened Books
  import opened Consistency
  import opened Transactions
  import opened Machine
  import opened History
  import opened Replays
  import opened SingleWorker
  import opened Statuses

  lemma Extend(s: State, a: Action)
    requires Reachable(s)
    ensures Reachable(Next(s, a))
  {
    var actions :| Run(actions) == s;
    RunAppend(actions, a);
  }

  const UNITS := [Unit("i", 5)]
  const ITEM := Item("i", 5, Pending, None)
  const ORDER := Order(5, "RUB", Created, [ITEM], None, None)

  // What the schedules below turn on.
  datatype Scene = Scene(
    orders: seq<Order>, deliveries: map<ItemKey, Delivery>, refunds: map<ItemKey, Refund>, ledger: seq<LedgerRow>,
    payouts: seq<Payout>, book: Book, workers: map<nat, Worker>)

  function SceneOf(s: State): Scene {
    Scene(s.t.orders, s.t.deliveries, s.t.refunds, s.t.ledger, s.payouts, s.book, s.workers)
  }

  // One order with one item of 5, paid at time 2.
  function PaidScene(status: OrderStatus, item: Item, workers: map<nat, Worker>): Scene {
    Scene([ORDER.(status := status, paidAt := Some(2), items := [item])], map[], map[], PaymentPair(0, "e", 5, 2), [], map[], workers)
  }

  lemma APaidOrder() returns (s: State)
    ensures Reachable(s) && SceneOf(s) == PaidScene(Paid, ITEM, map[])
  {
    assert Run([]) == INITIAL;
    s := DoCreate(INITIAL, "RUB", UNITS, 1);
    Extend(INITIAL, Create("RUB", UNITS, 1));
    assert TotalPrice(UNITS) == 5 by { assert UNITS[..0] == []; }
    assert NewItems(UNITS) == [ITEM];
    assert s.t.orders == [ORDER];
    var w := Webhook("e", 0, PaymentPaid, 5, "RUB");
    Extend(s, Receive(w, 2));
    s := DoReceive(s, w, 2);
  }

  // With its ends swapped, the period in which the order was paid does not balance.
  lemma ASwappedPeriodDoesNotBalance() returns (s: State)
    ensures Reachable(s) && !MoneyBetween(s.t, 3, 1).balanced
  {
    s := APaidOrder();
    var paid := PaymentPair(0, "e", 5, 2);
    EmptyPeriod(paid, 3, 1);
    CashOfPair(paid, Before(1));
    CashOfPair(paid, Before(3));
  }

  lemma CashOfPair(pair: seq<LedgerRow>, lens: Lens)
    requires pair == PaymentPair(0, "e", 5, 2)
    ensures BalancesOf(pair, lens).cash == if Sees(lens, 0, 2) then 5 else 0
  {
    var cash := pair[..1];
    assert pair[..|pair| - 1] == cash && cash[..0] == [];
    assert BalancesOf(cash, lens).cash == if Sees(lens, 0, 2) then 5 else 0;
  }

  lemma AClaimedOrder() returns (s: State)
    ensures Reachable(s) && SceneOf(s) == PaidScene(Delivering, ITEM, map[1 := Claimed(0), 2 := Sweeping(0, Delivering)])
  {
    hide Reachable, HandleWebhook, CreateOrder, IdsFree, Verdict;
    s := APaidOrder();
    Extend(s, ClaimOrder(1, 0, 3));
    s := DoClaimOrder(s, 1, 0, 3);
    Extend(s, SelectStale(2, 0));
    s := DoSelectStale(s, 2, 0);
  }

  const BOOKED: Book := map[("a", "i:a") := "K"]

  lemma ABookedOrder() returns (s: State)
    ensures Reachable(s)
    ensures SceneOf(s) == PaidScene(Delivering, ITEM, map[1 := Pass(0, [ITEM], 0, Start), 2 := Sweeping(0, Delivering)])
                          .(book := BOOKED)
  {
    hide Reachable, HandleWebhook, CreateOrder, IdsFree, Verdict, Claim;
    s := AClaimedOrder();
    Extend(s, ReadItems(1));
    s := DoReadItems(s, 1);
    Extend(s, BookCode("a", "i:a", "K"));
    s := DoBookCode(s, "a", "i:a", "K");
  }

  lemma AWorkedOrder() returns (s: State)
    ensures Reachable(s)
    ensures SceneOf(s) == PaidScene(Delivering, ITEM, map[1 := Pass(0, [ITEM], 0, Confirmed("a", "i:a", "K")), 2 := Sweeping(0, Delivering)])
                          .(book := BOOKED)
  {
    var s0 := ABookedOrder();
    assert RequestId("i", "a", 1) == "i:a";
    hide RequestId, Reachable;
    Extend(s0, Confirm(1, "a", 1));
    s := DoConfirm(s0, 1, "a", 1);
  }

  lemma ADeliveredItem() returns (s: State)
    ensures Reachable(s)
    ensures s.t.orders == PaidScene(Delivering, ITEM.(status := Delivered), map[]).orders
    ensures s.workers == map[1 := Pass(0, [ITEM], 1, Start), 2 := Sweeping(0, Delivering)]
  {
    hide Reachable, HandleWebhook, CreateOrder, IdsFree, Claim, Verdict;
    var s0 := AWorkedOrder();
    var key, d := ItemKey(0, 0), Delivery("i:a", "a", "K");
    assert Complete(s0.t, key, 5, d, 4).Done? by {
      assert !CodeTaken(s0.t, "K") && !RequestTaken(s0.t, "i:a");
      assert forall i | 0 <= i < 2 :: s0.t.ledger[i].reason == ForPayment;
    }
    hide Complete;
    CompleteWrites(s0.t, key, 5, d, 4);
    s := DoDeliver(s0, 1, 4);
    assert s.t.orders[0].items == [ITEM.(status := Delivered)];
    Extend(s0, Deliver(1, 4));
  }

  lemma AFinishedOrder() returns (s: State)
    ensures Reachable(s)
    ensures |s.t.orders| == 1 && s.t.orders[0].status == AllDelivered && At(s, 2) == Sweeping(0, Delivering)
  {
    hide Reachable;
    var items := [ITEM.(status := Delivered)];
    s := ADeliveredItem();
    Extend(s, ReadVerdict(1));
    s := DoReadVerdict(s, 1);
    assert CountDelivered(items) == CountDelivered([]) + 1 by { assert items[..0] == []; }
    Extend(s, Finish(1, None));
    s := DoFinish(s, 1, None);
  }

  lemma StaleSweepReopensADeliveredOrder() returns (s: State)
    ensures Reachable(s)
    ensures |s.t.orders| == 1 && s.t.orders[0].status == AllDelivered
    ensures At(s, 2).Sweeping? && |DoSweep(s, 2, 5).t.orders| == 1 && DoSweep(s, 2, 5).t.orders[0].status == Paid
  {
    s := AFinishedOrder();
  }

  // ---- A decision written late: its worker was presumed dead, another one finished the refund. ----

  const GIVEN_UP := ITEM.(status := Refunding, refundReason := Some(OutOfStock))

  lemma ADecidedOrder() returns (s: State)
    ensures Reachable(s)
    ensures SceneOf(s) == PaidScene(Delivering, GIVEN_UP, map[1 := Pass(0, [GIVEN_UP], 0, Undocumented(OutOfStock)), 2 := Sweeping(0, Delivering)])
  {
    hide Reachable;
    s := AClaimedOrder();
    Extend(s, ReadItems(1));
    s := DoReadItems(s, 1);
    assert Decide(s.t, ItemKey(0, 0), OutOfStock).Some?;
    assert [ITEM][0 := GIVEN_UP] == [GIVEN_UP];
    Extend(s, GiveUp(1, OutOfStock));
    s := DoGiveUp(s, 1, OutOfStock);
    assert s.t.orders[0].items == [GIVEN_UP];
  }

  lemma ASecondClaim() returns (s: State)
    ensures Reachable(s)
    ensures SceneOf(s) == PaidScene(Delivering, GIVEN_UP, map[1 := Pass(0, [GIVEN_UP], 0, Undocumented(OutOfStock)), 2 := Claimed(0)])
  {
    hide Reachable;
    s := ADecidedOrder();
    Extend(s, Sweep(2, 5));
    s := DoSweep(s, 2, 5);
    Extend(s, ClaimOrder(2, 0, 6));
    s := DoClaimOrder(s, 2, 0, 6);
  }

  lemma ASecondGiving() returns (s: State)
    ensures Reachable(s)
    ensures SceneOf(s) == PaidScene(Delivering, GIVEN_UP, map[1 := Pass(0, [GIVEN_UP], 0, Undocumented(OutOfStock)), 2 := Pass(0, [GIVEN_UP], 0, Given)])
                          .(payouts := [Payout(ItemKey(0, 0), 5)])
  {
    hide Reachable;
    s := ASecondClaim();
    Extend(s, ReadItems(2));
    s := DoReadItems(s, 2);
    Extend(s, Resume(2));
    s := DoResume(s, 2);
    Extend(s, CallProvider(2, true, true));
    s := DoCallProvider(s, 2, true, true);
  }

  lemma ARefundedItem() returns (s: State)
    ensures Reachable(s)
    ensures |s.t.orders| == 1 && |s.t.orders[0].items| == 1 && s.t.orders[0].items[0].status == Refunded
    ensures At(s, 1) == Pass(0, [GIVEN_UP], 0, Undocumented(OutOfStock))
  {
    hide Reachable;
    var s0 := ASecondGiving();
    var key := ItemKey(0, 0);
    assert Postings(s0.t.ledger, ForRefund, ItemRef(key)) == [] by {
      PostingsAppend([], PaymentPair(0, "e", 5, 2), ForRefund, ItemRef(key));
      assert [] + PaymentPair(0, "e", 5, 2) == s0.t.ledger;
    }
    RefundWrites(s0.t, key, GIVEN_UP, 7);
    hide BookRefund;
    Extend(s0, Settle(2, 7));
    s := DoSettle(s0, 2, 7);
  }

  lemma ALateDecision() returns (actions: seq<Action>)
    ensures ValidKey(Run(actions).t, ItemKey(0, 0)) && ItemKey(0, 0) in LateDecisions(actions)
  {
    var s := ARefundedItem();
    var before: seq<Action> :| Run(before) == s;
    actions := before + [Document(1, 8)];
    RunAppend(before, Document(1, 8));
    assert actions[..|actions| - 1] == before;
    assert IsLate(s, Document(1, 8));
  }

  // ---- A status told late: one worker per order, no crash, and an operator's retry in between. ----

  // An exclusive schedule without a crash that ends in this state.
  ghost predicate Orderly(actions: seq<Action>, s: State) {
    Run(actions) == s && Exclusive(actions) && forall i | 0 <= i < |actions| :: !actions[i].Die?
  }

  lemma OrderlyStep(actions: seq<Action>, s: State, a: Action) returns (actions': seq<Action>)
    requires Orderly(actions, s) && !a.Die? && (a.ClaimOrder? ==> NobodyHolds(s, a.o))
    ensures actions' == actions + [a] && Orderly(actions', Next(s, a))
  {
    hide Next;
    actions' := actions + [a];
    RunAppend(actions, a);
    assert actions'[..|actions'| - 1] == actions;
  }

  lemma AnOrderlyOrder() returns (actions: seq<Action>, s: State)
    ensures Orderly(actions, s)
    ensures s.t.orders == [ORDER.(status := Delivering, paidAt := Some(2))] && s.workers == map[1 := Claimed(0)]
  {
    var w := Webhook("e", 0, PaymentPaid, 5, "RUB");
    actions := OrderlyStep([], INITIAL, Create("RUB", UNITS, 1));
    s := DoCreate(INITIAL, "RUB", UNITS, 1);
    assert TotalPrice(UNITS) == 5 by { assert UNITS[..0] == []; }
    assert NewItems(UNITS) == [ITEM];
    assert s.t.orders == [ORDER];
    actions := OrderlyStep(actions, s, Receive(w, 2));
    s := DoReceive(s, w, 2);
    actions := OrderlyStep(actions, s, ClaimOrder(1, 0, 3));
    s := DoClaimOrder(s, 1, 0, 3);
  }

  // The item stays open, and the pass ends with its verdict still to be written down.
  lemma AnUnwrittenVerdict() returns (actions: seq<Action>, s: State)
    ensures Orderly(actions, s)
    ensures s.t.orders == [ORDER.(status := DeliveryFailed, paidAt := Some(2))]
    ensures s.workers == map[1 := Owing(0, Delivering, DeliveryFailed)]
  {
    hide Orderly, HandleWebhook, CreateOrder;
    actions, s := AnOrderlyOrder();
    actions := OrderlyStep(actions, s, ReadItems(1));
    s := DoReadItems(s, 1);
    actions := OrderlyStep(actions, s, Skip(1));
    s := DoSkip(s, 1);
    actions := OrderlyStep(actions, s, ReadVerdict(1));
    s := DoReadVerdict(s, 1);
    actions := OrderlyStep(actions, s, Finish(1, None));
    s := DoFinish(s, 1, None);
  }

  // The operator retries, and the retry is written down.
  lemma ARetriedOrder() returns (actions: seq<Action>, s: State)
    ensures Orderly(actions, s)
    ensures s.t.orders == [ORDER.(status := Paid, paidAt := Some(2))]
    ensures s.workers == map[1 := Owing(0, Delivering, DeliveryFailed), 2 := Idle]
  {
    hide Orderly, HandleWebhook, CreateOrder;
    actions, s := AnUnwrittenVerdict();
    actions := OrderlyStep(actions, s, Retry(2, 0));
    s := DoRetry(s, 2, 0);
    actions := OrderlyStep(actions, s, WriteMove(2, 4));
    s := DoWriteMove(s, 2, 4);
  }

  // Only then is the verdict written down.
  lemma AStatusToldLate() returns (actions: seq<Action>)
    ensures Exclusive(actions) && forall i | 0 <= i < |actions| :: !actions[i].Die?
    ensures var s := Run(actions);
            && (forall w | w in s.workers :: s.workers[w] == Idle)
            && |s.t.orders| == 1 && s.t.orders[0].status == Paid
            && ReplayOf(s.t, 0).Some? && ReplayOf(s.t, 0).value.status == DeliveryFailed
  {
    hide ReplayOf, Exclusive;
    var before, s := ARetriedOrder();
    actions := OrderlyStep(before, s, WriteMove(1, 5));
    assert actions[..|actions| - 1] == before;
    assert Run(actions) == DoWriteMove(s, 1, 5);
    assert LastTold(actions, 0) == DeliveryFailed;
    ReplayedStatus(actions, 0);
  }
}
