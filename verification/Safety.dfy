/** The machine's invariant survives every step, hence holds after every schedule. */
module Safety {
  import opened Base
  import opened Tables
  import opened Books
  import opened RequestIds
  import opened Consistency
  import opened Transactions
  import opened Queue
  import opened Machine

  // ---- Steps that touch no table ----

  lemma MemoryKeeps(s: State, w: nat, x: Worker)
    requires Inv(s) && WorkerOk(s, x)
    ensures Inv(Put(s, w, x)) && Grows(s, Put(s, w, x))
  {
    var s' := Put(s, w, x);
    AdvancesReflexive(s.t);
    assert WorkerOk(s', x) by { WorkerStays(s, s', x); }
    OthersStay(s, s', w, x);
    PayoutsStay(s, s');
  }

  lemma SkipStep(s: State, w: nat)
    requires Inv(s)
    ensures Inv(DoSkip(s, w)) && Grows(s, DoSkip(s, w))
    ensures Inv(DoResume(s, w)) && Grows(s, DoResume(s, w))
  {
    var x := At(s, w);
    assert WorkerOk(s, x);
    AdvancesReflexive(s.t);
    if DoSkip(s, w) != s {
      MemoryKeeps(s, w, x.(next := x.next + 1, phase := Start));
    }
    if DoResume(s, w) != s {
      MemoryKeeps(s, w, x.(phase := Giving));
    }
  }

  lemma SelectStep(s: State, w: nat, o: nat)
    requires Inv(s)
    ensures Inv(DoSelectStale(s, w, o)) && Grows(s, DoSelectStale(s, w, o))
  {
    AdvancesReflexive(s.t);
    if DoSelectStale(s, w, o) != s {
      MemoryKeeps(s, w, Sweeping(o, s.t.orders[o].status));
    }
  }

  lemma ReadItemsStep(s: State, w: nat)
    requires Inv(s)
    ensures Inv(DoReadItems(s, w)) && Grows(s, DoReadItems(s, w))
    ensures Inv(DoReadVerdict(s, w)) && Grows(s, DoReadVerdict(s, w))
  {
    var x := At(s, w);
    assert WorkerOk(s, x);
    AdvancesReflexive(s.t);
    if DoReadItems(s, w) != s {
      MemoryKeeps(s, w, Pass(x.order, s.t.orders[x.order].items, 0, Start));
    }
    if DoReadVerdict(s, w) != s {
      MemoryKeeps(s, w, Judging(x.order, s.t.orders[x.order].items));
    }
  }

  lemma ConfirmStep(s: State, w: nat, supplier: string, round: nat)
    requires Inv(s)
    ensures Inv(DoConfirm(s, w, supplier, round)) && Grows(s, DoConfirm(s, w, supplier, round))
  {
    var x := At(s, w);
    assert WorkerOk(s, x);
    AdvancesReflexive(s.t);
    if DoConfirm(s, w, supplier, round) != s {
      var requestId := RequestId(x.items[x.next].id, supplier, round);
      assert OwnRequest(x.items[x.next], supplier, requestId);
      MemoryKeeps(s, w, x.(phase := Confirmed(supplier, requestId, s.book[(supplier, requestId)])));
    }
  }

  lemma BookCodeKeeps(s: State, supplier: string, requestId: string, code: string)
    requires Inv(s)
    ensures Inv(DoBookCode(s, supplier, requestId, code)) && Grows(s, DoBookCode(s, supplier, requestId, code))
  {
    var s' := DoBookCode(s, supplier, requestId, code);
    AdvancesReflexive(s.t);
    AllStay(s, s');
    PayoutsStay(s, s');
  }

  // ---- Orders arrive and get paid ----

  lemma CreateStep(s: State, currency: string, units: seq<Unit>, now: int)
    requires Inv(s)
    ensures Inv(DoCreate(s, currency, units, now)) && Grows(s, DoCreate(s, currency, units, now))
  {
    var s' := DoCreate(s, currency, units, now);
    AdvancesReflexive(s.t);
    if s' != s {
      FreeIsFresh(s.t, units);
      CreateKeeps(s.t, currency, units, now);
      AllStay(s, s');
      PayoutsStay(s, s');
    }
  }

  lemma WebhookSameItems(t: Tables, w: Webhook, now: int)
    requires HandleWebhook(t, w, now).Some?
    ensures SameItems(t, HandleWebhook(t, w, now).value.0)
  {
  }

  lemma ReceiveStep(s: State, webhook: Webhook, now: int)
    requires Inv(s)
    ensures Inv(DoReceive(s, webhook, now)) && Grows(s, DoReceive(s, webhook, now))
  {
    var s' := DoReceive(s, webhook, now);
    WebhookKeeps(s.t, webhook, now);
    WebhookSameItems(s.t, webhook, now);
    AllStay(s, s');
    PayoutsStay(s, s');
  }

  // ---- The order moves through the queue ----

  // Consistent tables, unchanged items: the rest of the invariant follows.
  lemma SameItemsStep(s: State, s': State, w: nat, x: Worker)
    requires Inv(s)
    requires Consistent(s'.t) && Advances(s.t, s'.t) && SameItems(s.t, s'.t)
    requires s'.t.deliveries == s.t.deliveries && s'.book == s.book && s'.payouts == s.payouts
    requires s'.workers == s.workers[w := x] && WorkerOk(s', x)
    ensures Inv(s') && Grows(s, s')
  {
    OthersStay(s, s', w, x);
    PayoutsStay(s, s');
  }

  lemma ClaimStep(s: State, w: nat, o: nat, now: int)
    requires Inv(s)
    ensures Inv(DoClaimOrder(s, w, o, now)) && Grows(s, DoClaimOrder(s, w, o, now))
  {
    AdvancesReflexive(s.t);
    if DoClaimOrder(s, w, o, now) != s {
      ClaimKeeps(s.t, o, now);
      SameItemsStep(s, DoClaimOrder(s, w, o, now), w, Claimed(o));
    }
  }

  // A snapshot without open items is still the truth: settled rows never change.
  lemma {:induction false} SettledSnapshot(snapshot: seq<Item>, live: seq<Item>)
    requires ItemsAdvance(snapshot, live) && NoneOpen(snapshot)
    ensures snapshot == live
  {
    forall k | 0 <= k < |snapshot| ensures snapshot[k] == live[k] {
      assert ItemAdvances(snapshot[k], live[k]) && !IsOpen(snapshot[k].status);
    }
  }

  lemma FinishStep(s: State, w: nat, deferral: Option<int>)
    requires Inv(s)
    ensures Inv(DoFinish(s, w, deferral)) && Grows(s, DoFinish(s, w, deferral))
  {
    var s' := DoFinish(s, w, deferral);
    var x := At(s, w);
    AdvancesReflexive(s.t);
    if x.Judging? {
      assert WorkerOk(s, x);
      var (to, extra) := Verdict(x.items, deferral);
      if NoneOpen(x.items) {
        SettledSnapshot(x.items, s.t.orders[x.order].items);
      }
      MoveKeeps(s.t, x.order, Delivering, to, extra);
      SameItemsStep(s, s', w, At(s', w));
    }
  }

  lemma WriteMoveStep(s: State, w: nat, now: int)
    requires Inv(s)
    ensures Inv(DoWriteMove(s, w, now)) && Grows(s, DoWriteMove(s, w, now))
  {
    var x := At(s, w);
    AdvancesReflexive(s.t);
    if x.Owing? {
      assert WorkerOk(s, x);
      LogKeeps(s.t, x.order, OrderMoved(x.from, x.to, None), now);
      SameItemsStep(s, DoWriteMove(s, w, now), w, Idle);
    }
  }

  lemma RetryStep(s: State, w: nat, o: nat)
    requires Inv(s)
    ensures Inv(DoRetry(s, w, o)) && Grows(s, DoRetry(s, w, o))
  {
    AdvancesReflexive(s.t);
    if DoRetry(s, w, o) != s {
      MoveKeeps(s.t, o, DeliveryFailed, Paid, NoExtra);
      SameItemsStep(s, DoRetry(s, w, o), w, At(DoRetry(s, w, o), w));
    }
  }

  lemma SweepStep(s: State, w: nat, now: int)
    requires Inv(s)
    ensures Inv(DoSweep(s, w, now)) && Grows(s, DoSweep(s, w, now))
  {
    var x := At(s, w);
    AdvancesReflexive(s.t);
    if x.Sweeping? {
      assert WorkerOk(s, x);
      RequeueKeeps(s.t, x.order, x.previous, now);
      SameItemsStep(s, DoSweep(s, w, now), w, Idle);
    }
  }

  // ---- Items get settled ----

  // A delivered item: nothing was refunded, the new delivery is in its supplier's book.
  lemma DeliveredStep(s: State, s': State, w: nat, x: Worker, d: Delivery, now: int)
    requires Inv(s) && AtItem(x) && WorkerOk(s, x)
    requires ValidKey(s.t, KeyOf(x)) && OwnRequest(ItemAt(s.t, KeyOf(x)), d.supplier, d.requestId) && NoColon(d.supplier)
    requires (d.supplier, d.requestId) in s.book && s.book[(d.supplier, d.requestId)] == d.code
    requires Complete(s.t, KeyOf(x), ItemAt(s.t, KeyOf(x)).amount, d, now).Done?
    requires s' == PutT(s, Complete(s.t, KeyOf(x), ItemAt(s.t, KeyOf(x)).amount, d, now).t, w, x.(next := x.next + 1, phase := Start))
    ensures Inv(s') && Grows(s, s')
  {
    CompleteKeeps(s.t, KeyOf(x), d, now);
    CompleteWrites(s.t, KeyOf(x), ItemAt(s.t, KeyOf(x)).amount, d, now);
    assert BookedDeliveries(s');
    assert Grows(s, s');
    DeliveredPayouts(s, s', KeyOf(x));
    DeliveredWorker(s, s', x);
    OthersStay(s, s', w, At(s', w));
  }

  lemma DeliveredPayouts(s: State, s': State, key: ItemKey)
    requires PayoutsOk(s) && s'.payouts == s.payouts && Advances(s.t, s'.t) && ValidKey(s.t, key)
    requires s'.t.orders == WithItem(s.t, key, ItemAt(s.t, key).(status := Delivered)).orders
    ensures PayoutsOk(s')
  {
    OnlyThatItem(s.t, s'.t, key, ItemAt(s.t, key).(status := Delivered));
    PayoutsStay(s, s');
  }

  lemma DeliveredWorker(s: State, s': State, x: Worker)
    requires WorkerOk(s, x) && AtItem(x) && Advances(s.t, s'.t)
    ensures WorkerOk(s', x.(next := x.next + 1, phase := Start))
  {
    AdvanceAgain(x.items, s.t.orders[x.order].items, s'.t.orders[x.order].items);
  }

  lemma DeliverStep(s: State, w: nat, now: int)
    requires Inv(s)
    ensures Inv(DoDeliver(s, w, now)) && Grows(s, DoDeliver(s, w, now))
  {
    var x := At(s, w);
    AdvancesReflexive(s.t);
    if AtItem(x) && x.phase.Confirmed? {
      assert WorkerOk(s, x);
      var d := Delivery(x.phase.requestId, x.phase.supplier, x.phase.code);
      assert ItemAdvances(x.items[x.next], s.t.orders[x.order].items[x.next]);
      assert OwnRequest(ItemAt(s.t, KeyOf(x)), d.supplier, d.requestId) by {
        var round: nat :| round >= 1 && d.requestId == RequestId(x.items[x.next].id, d.supplier, round);
      }
      match Complete(s.t, KeyOf(x), x.items[x.next].amount, d, now)
      case Done(_) => DeliveredStep(s, DoDeliver(s, w, now), w, x, d, now);
      case CodeAlreadyDelivered => MemoryKeeps(s, w, x.(phase := Start));
      case Refused => MemoryKeeps(s, w, Idle);
    }
  }

  lemma OnlyThatItem(t: Tables, t': Tables, key: ItemKey, row: Item)
    requires ValidKey(t, key) && t'.orders == WithItem(t, key, row).orders
    ensures forall a :: ValidKey(t', a) <==> ValidKey(t, a)
    ensures forall a | ValidKey(t, a) :: ItemAt(t', a) == if a == key then row else ItemAt(t, a)
  {
  }

  lemma DecidedStep(s: State, s': State, w: nat, x: Worker, reason: RefundReason)
    requires Inv(s) && AtItem(x) && WorkerOk(s, x)
    requires Decide(s.t, KeyOf(x), reason).Some?
    requires s'.t == Decide(s.t, KeyOf(x), reason).value && s'.payouts == s.payouts && s'.book == s.book
    requires s'.workers == s.workers[w := x.(items := x.items[x.next := x.items[x.next].(status := Refunding, refundReason := Some(reason))],
                           phase := Undocumented(reason))]
    ensures Inv(s') && Grows(s, s')
  {
    var key := KeyOf(x);
    DecideKeeps(s.t, key, reason);
    OnlyThatItem(s.t, s'.t, key, ItemAt(s.t, key).(status := Refunding, refundReason := Some(reason)));
    PayoutsStay(s, s');
    assert ItemAdvances(x.items[x.next], ItemAt(s.t, key));
    AdvanceAgain(x.items, s.t.orders[x.order].items, s'.t.orders[x.order].items);
    OthersStay(s, s', w, At(s', w));
  }

  lemma GiveUpStep(s: State, w: nat, reason: RefundReason)
    requires Inv(s)
    ensures Inv(DoGiveUp(s, w, reason)) && Grows(s, DoGiveUp(s, w, reason))
  {
    var x := At(s, w);
    AdvancesReflexive(s.t);
    if AtItem(x) && x.phase.Start? && x.items[x.next].status == Pending {
      assert WorkerOk(s, x);
      if Decide(s.t, KeyOf(x), reason).Some? {
        DecidedStep(s, DoGiveUp(s, w, reason), w, x, reason);
      } else {
        MemoryKeeps(s, w, Idle);
      }
    }
  }

  lemma DocumentStep(s: State, w: nat, now: int)
    requires Inv(s)
    ensures Inv(DoDocument(s, w, now)) && Grows(s, DoDocument(s, w, now))
  {
    var x := At(s, w);
    AdvancesReflexive(s.t);
    if AtItem(x) && x.phase.Undocumented? {
      assert WorkerOk(s, x);
      LogKeeps(s.t, x.order, ItemMoved(x.next, Pending, Refunding, GivenBack(x.items[x.next].amount, Some(x.phase.reason))), now);
      SameItemsStep(s, DoDocument(s, w, now), w, At(DoDocument(s, w, now), w));
    }
  }

  lemma CallProviderStep(s: State, w: nat, recorded: bool, answered: bool)
    requires Inv(s)
    ensures Inv(DoCallProvider(s, w, recorded, answered)) && Grows(s, DoCallProvider(s, w, recorded, answered))
  {
    var s' := DoCallProvider(s, w, recorded, answered);
    var x := At(s, w);
    AdvancesReflexive(s.t);
    if AtItem(x) && x.phase.Giving? {
      assert WorkerOk(s, x);
      var key := KeyOf(x);
      assert ItemAdvances(x.items[x.next], s.t.orders[x.order].items[x.next]);
      assert OwedBack(s.t, Payout(key, x.items[x.next].amount));
      if recorded && !PaidOut(s.payouts, key) {
        assert s'.payouts[|s.payouts|] == Payout(key, x.items[x.next].amount);
        assert forall i | 0 <= i < |s.payouts| :: s'.payouts[i] == s.payouts[i];
      }
      assert forall k | PaidOut(s.payouts, k) :: PaidOut(s'.payouts, k);
      assert PayoutsOk(s');
      OthersStay(s, s', w, At(s', w));
    }
  }

  lemma RefundedStep(s: State, s': State, w: nat, x: Worker, now: int)
    requires Inv(s) && AtItem(x) && WorkerOk(s, x) && x.phase.Given?
    requires ItemAt(s.t, KeyOf(x)).status == Refunding
    requires BookRefund(s.t, KeyOf(x), x.items[x.next], now).Some?
    requires s' == PutT(s, BookRefund(s.t, KeyOf(x), x.items[x.next], now).value, w, x.(next := x.next + 1, phase := Start))
    ensures Inv(s') && Grows(s, s')
  {
    var key := KeyOf(x);
    assert ItemAdvances(x.items[x.next], s.t.orders[x.order].items[x.next]);
    assert KeyOk(s.t, key);
    RefundKeeps(s.t, key, x.items[x.next], now);
    RefundWrites(s.t, key, x.items[x.next], now);
    OnlyThatItem(s.t, s'.t, key, ItemAt(s.t, key).(status := Refunded));
    RefundedPayouts(s, s', key);
    AdvanceAgain(x.items, s.t.orders[x.order].items, s'.t.orders[x.order].items);
    OthersStay(s, s', w, At(s', w));
  }

  lemma SettleStep(s: State, w: nat, now: int)
    requires Inv(s)
    ensures Inv(DoSettle(s, w, now)) && Grows(s, DoSettle(s, w, now))
  {
    var x := At(s, w);
    AdvancesReflexive(s.t);
    if AtItem(x) && x.phase.Given? {
      assert WorkerOk(s, x);
      assert ItemAdvances(x.items[x.next], s.t.orders[x.order].items[x.next]);
      RefundKeeps(s.t, KeyOf(x), x.items[x.next], now);
      if ItemAt(s.t, KeyOf(x)).status == Refunding {
        RefundedStep(s, DoSettle(s, w, now), w, x, now);
      } else {
        MemoryKeeps(s, w, Idle);
      }
    }
  }

  lemma RefundedPayouts(s: State, s': State, key: ItemKey)
    requires PayoutsOk(s) && s'.payouts == s.payouts && Advances(s.t, s'.t)
    requires ValidKey(s.t, key) && PaidOut(s.payouts, key)
    requires forall a | ValidKey(s'.t, a) && a != key :: ValidKey(s.t, a) && ItemAt(s'.t, a) == ItemAt(s.t, a)
    ensures PayoutsOk(s')
  {
    forall i | 0 <= i < |s'.payouts| ensures OwedBack(s'.t, s'.payouts[i]) {
      var p := s.payouts[i];
      assert OwedBack(s.t, p);
      assert ItemAdvances(s.t.orders[p.item.order].items[p.item.position], s'.t.orders[p.item.order].items[p.item.position]);
    }
  }

  // ---- Every step, every schedule ----

  predicate IsQueueStep(a: Action) {
    a.ClaimOrder? || a.Finish? || a.WriteMove? || a.Retry? || a.Sweep?
  }

  lemma QueueStepKeeps(s: State, a: Action)
    requires Inv(s) && IsQueueStep(a)
    ensures Inv(Next(s, a)) && Grows(s, Next(s, a))
  {
    hide Inv, Grows, DoClaimOrder, DoFinish, DoWriteMove, DoRetry, DoSweep;
    match a
    case ClaimOrder(w, o, now) => ClaimStep(s, w, o, now);
    case Finish(w, deferral) => FinishStep(s, w, deferral);
    case WriteMove(w, now) => WriteMoveStep(s, w, now);
    case Retry(w, o) => RetryStep(s, w, o);
    case Sweep(w, now) => SweepStep(s, w, now);
  }

  predicate IsItemStep(a: Action) {
    a.Deliver? || a.GiveUp? || a.Document? || a.CallProvider? || a.Settle?
  }

  lemma ItemStepKeeps(s: State, a: Action)
    requires Inv(s) && IsItemStep(a)
    ensures Inv(Next(s, a)) && Grows(s, Next(s, a))
  {
    match a
    case Deliver(w, now) => DeliverStep(s, w, now);
    case GiveUp(w, reason) => GiveUpStep(s, w, reason);
    case Document(w, now) => DocumentStep(s, w, now);
    case CallProvider(w, recorded, answered) => CallProviderStep(s, w, recorded, answered);
    case Settle(w, now) => SettleStep(s, w, now);
  }

  lemma StepKeeps(s: State, a: Action)
    requires Inv(s)
    ensures Inv(Next(s, a)) && Grows(s, Next(s, a))
  {
    if IsQueueStep(a) {
      QueueStepKeeps(s, a);
    } else if IsItemStep(a) {
      ItemStepKeeps(s, a);
    } else {
      match a
      case Create(currency, units, now) => CreateStep(s, currency, units, now);
      case Receive(webhook, now) => ReceiveStep(s, webhook, now);
      case ReadItems(w) => ReadItemsStep(s, w);
      case ReadVerdict(w) => ReadItemsStep(s, w);
      case SelectStale(w, o) => SelectStep(s, w, o);
      case Skip(w) => SkipStep(s, w);
      case Confirm(w, supplier, round) => ConfirmStep(s, w, supplier, round);
      case Resume(w) => SkipStep(s, w);
      case Die(w) =>
        AdvancesReflexive(s.t);
        MemoryKeeps(s, w, Idle);
      case BookCode(supplier, requestId, code) => BookCodeKeeps(s, supplier, requestId, code);
    }
  }

  lemma {:induction false} RunsAreSafe(actions: seq<Action>)
    ensures Inv(Run(actions))
  {
    if actions == [] {
      EmptyIsConsistent();
    } else {
      RunsAreSafe(actions[..|actions| - 1]);
      StepKeeps(Run(actions[..|actions| - 1]), actions[|actions| - 1]);
    }
  }

  lemma ReachableIsSafe(s: State)
    requires Reachable(s)
    ensures Inv(s)
  {
    var actions :| Run(actions) == s;
    RunsAreSafe(actions);
  }
}
