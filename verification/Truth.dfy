/** Every schedule: what replay shows, and why one worker per order is enough for it to be the truth. */
module Truth {
  import opened Base
  import opened Tables
  import opened Books
  import opened RequestIds
  import opened Consistency
  import opened Transactions
  import opened Queue
  import opened Machine
  import opened Safety
  import opened History
  import opened Replays

  lemma GapsStay(s: State, s': State, gaps: Gaps)
    requires GapsOk(s.t, gaps) && Advances(s.t, s'.t)
    ensures GapsOk(s'.t, gaps)
  {
    forall key | key in gaps.late || key in gaps.unwritten
      ensures ValidKey(s'.t, key) && ItemAdvances(ItemAt(s.t, key), ItemAt(s'.t, key))
    {
      assert ItemAdvances(s.t.orders[key.order].items[key.position], s'.t.orders[key.order].items[key.position]);
    }
  }

  // What this step makes of the gaps.
  function GapsAfter(s: State, a: Action, gaps: Gaps): Gaps {
    Gaps(if IsLate(s, a) then gaps.late + {KeyOf(At(s, a.w))} else gaps.late,
         if Decides(s, a) then gaps.unwritten + {KeyOf(At(s, a.w))}
         else if Resolves(s, a) then gaps.unwritten - {KeyOf(At(s, a.w))}
         else gaps.unwritten)
  }

  lemma DeliverTold(s: State, w: nat, now: int, gaps: Gaps)
    requires Inv(s) && Told(s.t, gaps) && GapsOk(s.t, gaps)
    ensures Told(DoDeliver(s, w, now).t, gaps)
  {
    var x := At(s, w);
    if AtItem(x) && x.phase.Confirmed? {
      assert WorkerOk(s, x);
      var key, d := KeyOf(x), Delivery(x.phase.requestId, x.phase.supplier, x.phase.code);
      var amount := x.items[x.next].amount;
      assert ItemAdvances(x.items[x.next], s.t.orders[x.order].items[x.next]);
      if Complete(s.t, key, amount, d, now).Done? {
        assert KeyOk(s.t, key);
        assert key !in s.t.deliveries;
        CompleteWrites(s.t, key, amount, d, now);
        hide Complete;
        var t' := DoDeliver(s, w, now).t;
        OnlyThatItem(s.t, t', key, ItemAt(s.t, key).(status := Delivered));
        ItemStep(s.t, t', key, DeliveredEvent(key, amount, d, now), gaps, gaps);
      }
    }
  }

  // The refund's event also makes up for a decision not written.
  lemma RefundTold(t: Tables, key: ItemKey, local: Item, now: int, gaps: Gaps)
    requires Told(t, gaps) && GapsOk(t, gaps) && ValidKey(t, key) && KeyOk(t, key)
    requires ItemAt(t, key).status == Refunding && local == ItemAt(t, key)
    ensures BookRefund(t, key, local, now).Some?
    ensures Told(BookRefund(t, key, local, now).value, gaps.(unwritten := gaps.unwritten - {key}))
  {
    RefundWrites(t, key, local, now);
    hide BookRefund;
    var t' := BookRefund(t, key, local, now).value;
    OnlyThatItem(t, t', key, ItemAt(t, key).(status := Refunded));
    ItemStep(t, t', key, RefundedEvent(key, local, now), gaps, gaps.(unwritten := gaps.unwritten - {key}));
  }

  lemma SettleTold(s: State, w: nat, now: int, gaps: Gaps)
    requires Inv(s) && Told(s.t, gaps) && GapsOk(s.t, gaps)
    ensures Told(DoSettle(s, w, now).t, GapsAfter(s, Settle(w, now), gaps))
  {
    hide BookRefund, Told, GapsOk;
    var x := At(s, w);
    if AtItem(x) && x.phase.Given? {
      assert WorkerOk(s, x);
      var key, local := KeyOf(x), x.items[x.next];
      assert ItemAdvances(local, s.t.orders[x.order].items[x.next]);
      assert KeyOk(s.t, key);
      RefundKeeps(s.t, key, local, now);
      if ItemAt(s.t, key).status == Refunding {
        assert local == ItemAt(s.t, key);
        RefundTold(s.t, key, local, now, gaps);
      }
    }
  }

  lemma DocumentTold(s: State, w: nat, now: int, gaps: Gaps)
    requires Inv(s) && Told(s.t, gaps) && GapsOk(s.t, gaps)
    ensures Told(DoDocument(s, w, now).t, GapsAfter(s, Document(w, now), gaps))
  {
    var x := At(s, w);
    var gaps' := GapsAfter(s, Document(w, now), gaps);
    if AtItem(x) && x.phase.Undocumented? {
      assert WorkerOk(s, x);
      var key, t' := KeyOf(x), DoDocument(s, w, now).t;
      assert ItemAdvances(x.items[x.next], s.t.orders[x.order].items[x.next]);
      var e := OrderEvent(x.order, ItemMoved(x.next, Pending, Refunding, GivenBack(x.items[x.next].amount, Some(x.phase.reason))), now);
      assert s.t.orders[key.order].items[key.position := ItemAt(t', key)] == s.t.orders[key.order].items;
      assert LiveItem(t', key) == LiveItem(s.t, key);
      ItemStep(s.t, t', key, e, gaps, gaps');
    }
  }

  lemma GiveUpTold(s: State, w: nat, reason: RefundReason, gaps: Gaps)
    requires Inv(s) && Told(s.t, gaps)
    ensures Told(DoGiveUp(s, w, reason).t, GapsAfter(s, GiveUp(w, reason), gaps))
  {
    var x := At(s, w);
    if AtItem(x) && x.phase.Start? && x.items[x.next].status == Pending {
      assert WorkerOk(s, x);
      if Decide(s.t, KeyOf(x), reason).Some? {
        var t' := Decide(s.t, KeyOf(x), reason).value;
        OnlyThatItem(s.t, t', KeyOf(x), ItemAt(s.t, KeyOf(x)).(status := Refunding, refundReason := Some(reason)));
        DecisionStep(s.t, t', KeyOf(x), gaps);
      }
    }
  }

  lemma ClaimTold(s: State, w: nat, o: nat, now: int, gaps: Gaps)
    requires Told(s.t, gaps)
    ensures Told(DoClaimOrder(s, w, o, now).t, gaps)
  {
    var t' := DoClaimOrder(s, w, o, now).t;
    if t' != s.t {
      StatusStep(s.t, t', o, OrderEvent(o, OrderMoved(Paid, Delivering, None), now), gaps);
    }
  }

  lemma FinishTold(s: State, w: nat, deferral: Option<int>, gaps: Gaps)
    requires Inv(s) && Told(s.t, gaps)
    ensures Told(DoFinish(s, w, deferral).t, gaps)
  {
    var t' := DoFinish(s, w, deferral).t;
    if t' != s.t {
      hide FinalStatus;
      SilentStep(s.t, t', gaps);
    }
  }

  lemma RetryTold(s: State, w: nat, o: nat, gaps: Gaps)
    requires Told(s.t, gaps)
    ensures Told(DoRetry(s, w, o).t, gaps)
  {
    var t' := DoRetry(s, w, o).t;
    if t' != s.t {
      SilentStep(s.t, t', gaps);
    }
  }

  lemma EventTold(s: State, w: nat, now: int, gaps: Gaps)
    requires Inv(s) && Told(s.t, gaps)
    ensures Told(DoWriteMove(s, w, now).t, gaps) && Told(DoSweep(s, w, now).t, gaps)
  {
    var x := At(s, w);
    assert WorkerOk(s, x);
    if x.Owing? {
      StatusStep(s.t, DoWriteMove(s, w, now).t, x.order, OrderEvent(x.order, OrderMoved(x.from, x.to, None), now), gaps);
    }
    if x.Sweeping? {
      StatusStep(s.t, DoSweep(s, w, now).t, x.order, OrderEvent(x.order, OrderMoved(x.previous, Paid, None), now), gaps);
    }
  }

  lemma ReceiveTold(s: State, w: Webhook, now: int, gaps: Gaps)
    requires Inv(s) && Told(s.t, gaps)
    ensures Told(DoReceive(s, w, now).t, gaps)
  {
    WebhookKeeps(s.t, w, now);
    var (t', outcome) := HandleWebhook(s.t, w, now).value;
    if w.event !in s.t.payments {
      assert EventOk(s.t, w.event);
      WebhookWrites(s.t, w, now);
      hide HandleWebhook;
      if outcome == Applied {
        var e := t'.events[|s.t.events|];
        StatusStep(s.t, t', w.order, e, gaps);
      } else {
        SilentStep(s.t, t', gaps);
      }
    }
  }

  lemma CreateTold(s: State, currency: string, units: seq<Unit>, now: int, gaps: Gaps)
    requires Inv(s) && Told(s.t, gaps) && GapsOk(s.t, gaps)
    ensures Told(DoCreate(s, currency, units, now).t, gaps)
  {
    if units != [] {
      CreatedStep(s.t, Log(s.t.(orders := s.t.orders + [Order(TotalPrice(units), currency, Created, NewItems(units), None, None)]),
                           |s.t.orders|, OrderCreated(TotalPrice(units), NewItems(units)), now),
                  Order(TotalPrice(units), currency, Created, NewItems(units), None, None), now, gaps);
    }
  }

  predicate WritesTables(a: Action) {
    IsQueueStep(a) || IsItemStep(a) || a.Create? || a.Receive?
  }

  lemma OthersWriteNothing(s: State, a: Action)
    requires !WritesTables(a)
    ensures Next(s, a).t == s.t
  {
  }

  lemma OrderTables(s: State, a: Action, gaps: Gaps)
    requires Inv(s) && Told(s.t, gaps) && GapsOk(s.t, gaps)
    requires IsQueueStep(a) || a.Create? || a.Receive?
    ensures Told(Next(s, a).t, gaps)
  {
    match a
    case Create(currency, units, now) => CreateTold(s, currency, units, now, gaps);
    case Receive(w, now) => ReceiveTold(s, w, now, gaps);
    case ClaimOrder(w, o, now) => ClaimTold(s, w, o, now, gaps);
    case Finish(w, deferral) => FinishTold(s, w, deferral, gaps);
    case WriteMove(w, now) => EventTold(s, w, now, gaps);
    case Retry(w, o) => RetryTold(s, w, o, gaps);
    case Sweep(w, now) => EventTold(s, w, now, gaps);
  }

  lemma ItemTables(s: State, a: Action, gaps: Gaps)
    requires Inv(s) && Told(s.t, gaps) && GapsOk(s.t, gaps)
    requires IsItemStep(a)
    ensures Told(Next(s, a).t, GapsAfter(s, a, gaps))
  {
    match a
    case Deliver(w, now) => DeliverTold(s, w, now, gaps);
    case GiveUp(w, reason) => GiveUpTold(s, w, reason, gaps);
    case Document(w, now) => DocumentTold(s, w, now, gaps);
    case Settle(w, now) => SettleTold(s, w, now, gaps);
    case CallProvider(w, recorded, answered) =>
  }

  lemma StepTold(s: State, a: Action, gaps: Gaps)
    requires Inv(s) && Told(s.t, gaps) && GapsOk(s.t, gaps)
    ensures Told(Next(s, a).t, GapsAfter(s, a, gaps)) && GapsOk(Next(s, a).t, GapsAfter(s, a, gaps))
  {
    StepKeeps(s, a);
    GapsStep(s, a, gaps);
    hide Told, Next, Inv, GapsOk;
    if IsItemStep(a) {
      ItemTables(s, a, gaps);
    } else {
      assert GapsAfter(s, a, gaps) == gaps;
      if WritesTables(a) {
        OrderTables(s, a, gaps);
      } else {
        OthersWriteNothing(s, a);
      }
    }
  }

  lemma GapsStep(s: State, a: Action, gaps: Gaps)
    requires GapsOk(s.t, gaps) && Advances(s.t, Next(s, a).t)
    ensures GapsOk(Next(s, a).t, GapsAfter(s, a, gaps))
  {
    GapsStay(s, Next(s, a), gaps);
    GapsStay(s, Next(s, a), Gaps(if IsLate(s, a) then {KeyOf(At(s, a.w))} else {}, {}));
    GapsStay(s, Next(s, a), Gaps({}, if Decides(s, a) then {KeyOf(At(s, a.w))} else {}));
    hide Next;
  }

  lemma {:induction false} RunTold(actions: seq<Action>)
    ensures Told(Run(actions).t, GapsOf(actions)) && GapsOk(Run(actions).t, GapsOf(actions))
  {
    if actions != [] {
      var before, a := actions[..|actions| - 1], actions[|actions| - 1];
      RunsAreSafe(before);
      RunTold(before);
      StepTold(Run(before), a, GapsOf(before));
      assert GapsOf(actions) == GapsAfter(Run(before), a, GapsOf(before));
    }
  }

  // After any schedule an item's replayed history (status, code, supplier, refund, reason) equals
  // the live tables iff its decision was neither written late nor is yet to be written; a decision
  // yet to be written only shows as `pending` instead of `refunding`.
  lemma ReplayIsTheTruthUnlessLate(actions: seq<Action>, key: ItemKey)
    requires ValidKey(Run(actions).t, key)
    ensures var t := Run(actions).t;
            var r := ReplayOf(t, key.order);
            && r.Some? && r.value.amount == t.orders[key.order].amount
            && IsPaid(r.value.status) == IsPaid(t.orders[key.order].status)
            && |r.value.items| == |t.orders[key.order].items|
            && var item, live := r.value.items[key.position], LiveItem(t, key);
            && (item == live <==> key !in LateDecisions(actions) && key !in UnwrittenDecisions(actions))
            && (key in LateDecisions(actions) ==> item.status == Refunding && live.status == Refunded)
            && (key in UnwrittenDecisions(actions) ==> live.status == Refunding && item == live.(status := Pending))
  {
    RunTold(actions);
    var t := Run(actions).t;
    assert OrderTold(t, key.order, GapsOf(actions));
    assert ItemTold(ReplayOf(t, key.order).value.items[key.position], LiveItem(t, ItemKey(key.order, key.position)), GapsOf(actions), key);
  }

  ghost predicate SameMoney(v: ItemView, live: ItemView) {
    && v.amount == live.amount
    && (v.status == Delivered <==> live.status == Delivered)
    && (v.status == Refunded <==> live.status == Refunded)
  }

  lemma {:induction false} SameAmounts(a: seq<ItemView>, b: seq<ItemView>)
    requires |a| == |b| && forall k | 0 <= k < |a| :: SameMoney(a[k], b[k])
    ensures AmountIn(a, {Delivered}) == AmountIn(b, {Delivered})
    ensures AmountIn(a, {Refunded}) == AmountIn(b, {Refunded})
    ensures AmountIn(a, {Pending, Refunding}) == AmountIn(b, {Pending, Refunding})
  {
    if a != [] {
      var n := |a| - 1;
      assert SameMoney(a[n], b[n]);
      SameAmounts(a[..n], b[..n]);
    }
  }

  lemma {:induction false} AmountsSplit(t: Tables, o: nat, n: nat)
    requires o < |t.orders| && n <= |t.orders[o].items|
    ensures var views, s := LiveOrder(t, o).items[..n], SplitOf(t.orders[o].items[..n]);
            && AmountIn(views, {Delivered}) == s.delivered
            && AmountIn(views, {Refunded}) == s.refunded
            && AmountIn(views, {Pending, Refunding}) == s.open
  {
    if n > 0 {
      AmountsSplit(t, o, n - 1);
      var items, views := t.orders[o].items, LiveOrder(t, o).items;
      assert items[..n][..n - 1] == items[..n - 1] && views[..n][..n - 1] == views[..n - 1];
      assert views[n - 1] == LiveItem(t, ItemKey(o, n - 1));
    }
  }

  // The live view's columns are what was posted for the order: paid, delivered and refunded by the
  // ledger, and what is left of it pending.
  lemma LiveMoneyIsPosted(t: Tables, o: nat)
    requires o < |t.orders| && OrderOk(t.orders[o]) && LiveAgrees(t, Some(o))
    ensures var m, moved := MoneyIn(LiveOrder(t, o)), LedgerMoved(t.ledger, Always(Some(o)));
            && m.paid == moved.paid && m.delivered == moved.delivered && m.refunded == moved.refunded
            && m.pending == if moved.paid == 0 then 0 else moved.paid - moved.delivered - moved.refunded
  {
    hide LedgerMoved, LiveItem;
    var order, views := t.orders[o], LiveOrder(t, o).items;
    AmountsSplit(t, o, |order.items|);
    assert order.items[..|order.items|] == order.items && views[..|views|] == views;
    if !IsPaid(order.status) {
      PendingIsOpen(order.items);
    }
  }

  // Without a late decision the order's replayed money is its live money, which is what the ledger
  // has for it.
  lemma ReplayedMoney(actions: seq<Action>, o: nat)
    requires o < |Run(actions).t.orders|
    requires forall key | key in LateDecisions(actions) :: key.order != o
    ensures var t := Run(actions).t;
            ReplayOf(t, o).Some? && MoneyIn(ReplayOf(t, o).value) == MoneyIn(LiveOrder(t, o))
    ensures var m, moved := MoneyIn(LiveOrder(Run(actions).t, o)), LedgerMoved(Run(actions).t.ledger, Always(Some(o)));
            && m.paid == moved.paid && m.delivered == moved.delivered && m.refunded == moved.refunded
            && m.pending == if moved.paid == 0 then 0 else moved.paid - moved.delivered - moved.refunded
  {
    MoneyOfReplay(actions, o);
    RunsAreSafe(actions);
    hide Run;
    LiveMoneyIsPosted(Run(actions).t, o);
  }

  lemma MoneyOfReplay(actions: seq<Action>, o: nat)
    requires o < |Run(actions).t.orders|
    requires forall key | key in LateDecisions(actions) :: key.order != o
    ensures var t := Run(actions).t;
            ReplayOf(t, o).Some? && MoneyIn(ReplayOf(t, o).value) == MoneyIn(LiveOrder(t, o))
  {
    RunTold(actions);
    var t := Run(actions).t;
    assert OrderTold(t, o, GapsOf(actions));
    var v, live := ReplayOf(t, o).value, LiveOrder(t, o);
    forall k: nat | k < |v.items| ensures SameMoney(v.items[k], live.items[k]) {
      assert ItemTold(v.items[k], LiveItem(t, ItemKey(o, k)), GapsOf(actions), ItemKey(o, k));
    }
    SameAmounts(v.items, live.items);
  }
}
