/** What each statement of a pass does to the facts about its item and its order. */
module Passing {
  import opened Base
  import opened Tables
  import opened RequestIds
  import opened Books
  import opened Consistency
  import opened Transactions
  import opened Queue
  import opened Evidence

  // ---- One item's row is rewritten ----

  ghost predicate RewritesRow(t: Tables, t': Tables, key: ItemKey, row: Item) {
    && ValidKey(t, key)
    && t'.orders == WithItem(t, key, row).orders
    && row.id == ItemAt(t, key).id
    && t'.attempts == t.attempts
    && t'.discrepancies == t.discrepancies
    && Advances(t, t')
    && (forall a | a in t.deliveries :: a in t'.deliveries && t'.deliveries[a] == t.deliveries[a])
    && (forall a | a != key && a in t'.deliveries :: a in t.deliveries)
    && (forall a | a != key :: (a in t'.refunds <==> a in t.refunds))
    && (forall a | a != key && a in t.refunds :: t'.refunds[a] == t.refunds[a])
  }

  lemma RowTouches(t: Tables, t': Tables, c: Config, key: ItemKey, row: Item)
    requires RewritesRow(t, t', key, row)
    ensures Touches(t, t', c, key)
    ensures ValidKey(t', key)
    ensures var f, f' := FactsOf(t, c, key), FactsOf(t', c, key);
            f'.row == row && f'.log == f.log && f'.rejected == f.rejected
  {
    hide RejectedBy, Advances;
    assert forall a | ValidKey(t, a) :: ValidKey(t', a) && ItemAt(t', a) == if a == key then row else ItemAt(t, a);
  }

  lemma RowAccrues(t: Tables, t': Tables, key: ItemKey, row: Item)
    requires RewritesRow(t, t', key, row)
    ensures Accrues(t, t')
  {
  }

  lemma RowKeeps(t: Tables, t': Tables, c: Config, key: ItemKey, row: Item)
    requires Ready(t, c) && RewritesRow(t, t', key, row) && Consistent(t')
    ensures Own(t, t', c, key)
    ensures ValidKey(t', key)
    ensures FactsOf(t', c, key).row == row
    ensures FactsOf(t', c, key).log == FactsOf(t, c, key).log
    ensures FactsOf(t', c, key).rejected == FactsOf(t, c, key).rejected
  {
    hide Consistent, Touches, FactsOf, FactsOk, RejectionsBelong, Accrues;
    RowTouches(t, t', c, key, row);
    RowAccrues(t, t', key, row);
    assert FactsOk(c, FactsOf(t, c, key));
    RowIds(t, t', c, key, row);
    SameEvidence(c, FactsOf(t, c, key), FactsOf(t', c, key));
    RowBelongs(t, t', c, key, row);
    EvidenceFollows(t, t', c, key);
  }

  lemma RowIds(t: Tables, t': Tables, c: Config, key: ItemKey, row: Item)
    requires RewritesRow(t, t', key, row)
    ensures FactsOf(t', c, key).row.id == FactsOf(t, c, key).row.id
  {
  }

  lemma RowBelongs(t: Tables, t': Tables, c: Config, key: ItemKey, row: Item)
    requires RejectionsBelong(t, c) && RewritesRow(t, t', key, row)
    ensures RejectionsBelong(t', c)
  {
    assert forall a | ValidKey(t, a) :: ValidKey(t', a);
  }

  lemma CompleteOwn(t: Tables, c: Config, key: ItemKey, d: Delivery, now: int)
    requires Ready(t, c) && ValidKey(t, key) && IsPaid(t.orders[key.order].status)
    requires ItemAt(t, key).status == Pending
    requires NoColon(d.supplier) && OwnRequest(ItemAt(t, key), d.supplier, d.requestId)
    ensures var r := Complete(t, key, ItemAt(t, key).amount, d, now);
            var f := FactsOf(t, c, key);
            if CodeTaken(t, d.code) then r.CodeAlreadyDelivered?
            else
              && r.Done? && Own(t, r.t, c, key) && ValidKey(r.t, key) && r.t.discrepancies == t.discrepancies
              && FactsOf(r.t, c, key) == f.(row := f.row.(status := Delivered), delivery := Some(d))
  {
    hide Consistent, EvidenceOk, OwnRequest, Own;
    CompleteSucceeds(t, key, d, now);
    if !CodeTaken(t, d.code) {
      CompleteKeeps(t, key, d, now);
      CompleteWrites(t, key, ItemAt(t, key).amount, d, now);
      CompletedFacts(t, Complete(t, key, ItemAt(t, key).amount, d, now).t, c, key, d);
    }
    hide Complete, CodeTaken, FactsOf;
  }

  lemma CompletedFacts(t: Tables, t': Tables, c: Config, key: ItemKey, d: Delivery)
    requires Ready(t, c) && ValidKey(t, key) && Consistent(t') && Advances(t, t') && key !in t.deliveries
    requires t'.orders == WithItem(t, key, ItemAt(t, key).(status := Delivered)).orders
    requires t'.deliveries == t.deliveries[key := d] && t'.refunds == t.refunds
    requires t'.attempts == t.attempts && t'.discrepancies == t.discrepancies
    ensures Own(t, t', c, key) && ValidKey(t', key)
    ensures var f := FactsOf(t, c, key);
            FactsOf(t', c, key) == f.(row := f.row.(status := Delivered), delivery := Some(d))
  {
    hide Ready, Consistent, Own;
    RowKeeps(t, t', c, key, ItemAt(t, key).(status := Delivered));
  }

  lemma DecideOwn(t: Tables, c: Config, key: ItemKey, reason: RefundReason)
    requires Ready(t, c) && ValidKey(t, key) && IsPaid(t.orders[key.order].status)
    requires ItemAt(t, key).status == Pending
    ensures var r := Decide(t, key, reason);
            var f := FactsOf(t, c, key);
            && r.Some? && Own(t, r.value, c, key) && ValidKey(r.value, key)
            && FactsOf(r.value, c, key) == f.(row := f.row.(status := Refunding, refundReason := Some(reason)))
  {
    hide Consistent, EvidenceOk, Own;
    DecideKeeps(t, key, reason);
    RowKeeps(t, Decide(t, key, reason).value, c, key, ItemAt(t, key).(status := Refunding, refundReason := Some(reason)));
  }

  lemma DecisionLogged(t: Tables, c: Config, key: ItemKey, amount: int, reason: RefundReason, now: int)
    requires Ready(t, c) && ValidKey(t, key)
    ensures Own(t, LogDecision(t, key, amount, reason, now), c, key)
    ensures FactsOf(LogDecision(t, key, amount, reason, now), c, key) == FactsOf(t, c, key)
  {
    hide Consistent, EvidenceOk, Own;
    LogKeeps(t, key.order, ItemMoved(key.position, Pending, Refunding, GivenBack(amount, Some(reason))), now);
    assert t.orders[key.order].items == t.orders[key.order].items[key.position := ItemAt(t, key)];
    RowKeeps(t, LogDecision(t, key, amount, reason, now), c, key, ItemAt(t, key));
  }

  lemma RefundOwn(t: Tables, c: Config, key: ItemKey, local: Item, now: int)
    requires Ready(t, c) && ValidKey(t, key) && IsPaid(t.orders[key.order].status)
    requires local == ItemAt(t, key) && local.status == Refunding
    ensures var r := BookRefund(t, key, local, now);
            var f := FactsOf(t, c, key);
            && r.Some? && Own(t, r.value, c, key) && ValidKey(r.value, key)
            && local.refundReason.Some?
            && FactsOf(r.value, c, key) ==
               f.(row := f.row.(status := Refunded), refund := Some(Refund(local.amount, local.refundReason.value)))
  {
    hide Consistent, EvidenceOk, Own;
    RefundKeeps(t, key, local, now);
    RefundNotBooked(t, key, local);
    RefundWrites(t, key, local, now);
    RefundedFacts(t, BookRefund(t, key, local, now).value, c, key, local);
    hide BookRefund, FactsOf;
  }

  lemma RefundNotBooked(t: Tables, key: ItemKey, local: Item)
    requires Consistent(t) && ValidKey(t, key) && local == ItemAt(t, key) && local.status == Refunding
    ensures key !in t.refunds && Postings(t.ledger, ForRefund, ItemRef(key)) == [] && local.refundReason.Some?
  {
    assert KeyOk(t, key);
  }

  lemma RefundedFacts(t: Tables, t': Tables, c: Config, key: ItemKey, local: Item)
    requires Ready(t, c) && ValidKey(t, key) && Consistent(t') && Advances(t, t') && local == ItemAt(t, key) && local.refundReason.Some?
    requires t'.orders == WithItem(t, key, local.(status := Refunded)).orders
    requires t'.refunds == t.refunds[key := Refund(local.amount, local.refundReason.value)] && t'.deliveries == t.deliveries
    requires t'.attempts == t.attempts && t'.discrepancies == t.discrepancies
    ensures Own(t, t', c, key) && ValidKey(t', key)
    ensures var f := FactsOf(t, c, key);
            FactsOf(t', c, key) ==
            f.(row := f.row.(status := Refunded), refund := Some(Refund(local.amount, local.refundReason.value)))
  {
    hide Ready, Consistent, Own;
    RowKeeps(t, t', c, key, local.(status := Refunded));
  }

  // ---- The order's own row is rewritten ----

  // The same items with the same facts.
  ghost predicate SameFacts(t: Tables, t': Tables, c: Config) {
    && |t.orders| == |t'.orders|
    && (forall p: nat | p < |t.orders| :: |t'.orders[p].items| == |t.orders[p].items|)
    && (forall a | ValidKey(t, a) :: FactsOf(t', c, a) == FactsOf(t, c, a))
  }

  ghost predicate OwnOrder(t: Tables, t': Tables, c: Config, o: nat) {
    && Ready(t', c) && SameFacts(t, t', c)
    && (forall p: nat | p < |t.orders| && p != o :: Head(t'.orders[p]) == Head(t.orders[p]))
    && Accrues(t, t')
  }

  lemma OwnOrderIsForeign(t: Tables, t': Tables, c: Config, o: nat, p: nat)
    requires OwnOrder(t, t', c, o) && p < |t.orders| && p != o
    ensures Foreign(t, t', c, p)
  {
    hide Ready, FactsOf, Accrues;
  }

  // No order is new and no item's row, evidence or settlement changed.
  lemma OrderKeeps(t: Tables, t': Tables, c: Config, o: nat)
    requires Ready(t, c) && Consistent(t') && SameItems(t, t') && Advances(t, t')
    requires t'.deliveries == t.deliveries && t'.refunds == t.refunds
    requires t'.attempts == t.attempts && t'.discrepancies == t.discrepancies
    requires forall p: nat | p < |t.orders| && p != o :: Head(t'.orders[p]) == Head(t.orders[p])
    ensures OwnOrder(t, t', c, o)
  {
    hide Consistent, RejectedBy, FactsOk, Advances;
    assert forall a :: ValidKey(t', a) <==> ValidKey(t, a);
    assert forall a | ValidKey(t, a) :: FactsOf(t', c, a) == FactsOf(t, c, a);
  }

  lemma FinishOwn(t: Tables, c: Config, o: nat, deferral: Option<int>)
    requires Ready(t, c) && o < |t.orders| && t.orders[o].status == Delivering
    ensures var (to, extra) := Verdict(t.orders[o].items, deferral);
            var r := MoveOrder(t, o, Delivering, to, extra);
            r.Some? && OwnOrder(t, r.value, c, o) && IsPaid(to)
  {
    var (to, extra) := Verdict(t.orders[o].items, deferral);
    assert OrderOk(t.orders[o]);
    hide FinalStatus;
    MoveKeeps(t, o, Delivering, to, extra);
    hide Consistent;
    OrderKeeps(t, MoveOrder(t, o, Delivering, to, extra).value, c, o);
  }

  lemma MoveLogged(t: Tables, c: Config, o: nat, from: OrderStatus, to: OrderStatus, now: int)
    requires Ready(t, c) && o < |t.orders| && IsPaid(from) && IsPaid(to)
    ensures OwnOrder(t, Log(t, o, OrderMoved(from, to, None), now), c, o)
    ensures Log(t, o, OrderMoved(from, to, None), now).orders == t.orders
  {
    LogKeeps(t, o, OrderMoved(from, to, None), now);
    hide Consistent;
    OrderKeeps(t, Log(t, o, OrderMoved(from, to, None), now), c, o);
  }

  // ---- What a pass finds unchanged about the rest of its order ----

  ghost predicate Kept(t: Tables, t': Tables, c: Config, key: ItemKey) {
    && ValidKey(t, key) && ValidKey(t', key)
    && SameBut(t, t', c, key.order, key.position)
    && Accrues(t, t')
  }

  lemma KeptAgain(t: Tables, t': Tables, t'': Tables, c: Config, key: ItemKey)
    requires Kept(t, t', c, key) && Kept(t', t'', c, key)
    ensures Kept(t, t'', c, key)
  {
    hide FactsOf, Accrues;
    SameButAgain(t, t', t'', c, key.order, key.position);
    AccruesAgain(t, t', t'');
  }

  lemma KeptAlready(t: Tables, c: Config, key: ItemKey)
    requires ValidKey(t, key)
    ensures Kept(t, t, c, key)
  {
    AccruesAlready(t);
  }

  lemma OwnIsKept(t: Tables, t': Tables, c: Config, key: ItemKey)
    requires Own(t, t', c, key) && ValidKey(t', key)
    ensures Kept(t, t', c, key)
  {
    hide FactsOf, Ready, Accrues;
  }

  lemma OwnAgain(t0: Tables, t: Tables, t': Tables, c: Config, key: ItemKey)
    requires Kept(t0, t, c, key) && Own(t, t', c, key)
    ensures ValidKey(t', key) && Kept(t0, t', c, key)
    ensures Ready(t', c) && Accrues(t, t')
    ensures t'.orders[key.order].status == t.orders[key.order].status
  {
    hide FactsOf, Ready, Accrues;
    assert Head(t'.orders[key.order]) == Head(t.orders[key.order]);
    OwnIsKept(t, t', c, key);
    KeptAgain(t0, t, t', c, key);
  }

  // Other workers' steps leave the item itself alone too.
  lemma ForeignIsKept(t: Tables, t': Tables, c: Config, key: ItemKey)
    requires ValidKey(t, key) && Foreign(t, t', c, key.order)
    ensures Kept(t, t', c, key) && FactsOf(t', c, key) == FactsOf(t, c, key)
  {
    hide FactsOf, Ready, Accrues;
  }

  // ---- The attempt log of one round ----

  ghost predicate Said(log: seq<Attempt>, from: nat, outcome: AttemptOutcome) {
    exists i | from <= i < |log| :: log[i].outcome == outcome
  }

  ghost predicate NeverSent(log: seq<Attempt>, from: nat) {
    forall i | from <= i < |log| :: log[i].outcome == NotSent
  }

  // Only attempts at this supplier under this id were written.
  ghost predicate Extends(f: Facts, f': Facts, supplier: string, requestId: string) {
    && f' == f.(log := f'.log)
    && f.log <= f'.log
    && forall i | |f.log| <= i < |f'.log| :: f'.log[i].supplier == supplier && f'.log[i].requestId == requestId
  }

  lemma ExtendsChains(f: Facts, supplier: string, requestId: string)
    ensures Extends(f, f, supplier, requestId)
    ensures forall f', f'' | Extends(f, f', supplier, requestId) && Extends(f', f'', supplier, requestId) ::
              Extends(f, f'', supplier, requestId)
  {
  }

  // A round of this item at this supplier may go on.
  ghost predicate MayAsk(c: Config, f: Facts, item: Item, supplier: string, requestId: string) {
    && f.row == item && item.status == Pending
    && supplier in c.suppliers
    && OnlyOpen(f.log, supplier)
    && supplier in f.rejected && |f.rejected[supplier]| < c.maxRounds
    && requestId == RequestId(item.id, supplier, |f.rejected[supplier]| + 1)
    && NothingNewer(f, supplier, requestId) && requestId !in f.rejected[supplier]
  }

  // One more attempt at the supplier whose round it is.
  lemma LogOpens(c: Config, f0: Facts, f: Facts, item: Item, a: Attempt)
    requires MayAsk(c, f, item, a.supplier, a.requestId) && Extends(f0, f, a.supplier, a.requestId)
    ensures var log, log', n := f.log, f.log + [a], |f0.log|;
            && MayRecord(c, f, a)
            && MayAsk(c, f.(log := log'), item, a.supplier, a.requestId)
            && Extends(f0, f.(log := log'), a.supplier, a.requestId)
            && (Unanswered(a.outcome) ==> OpenSuppliers(log') == [a.supplier])
            && (Definite(a.outcome) ==> NoneIsOpen(log'))
            && (a.outcome == NotSent ==> OpenSuppliers(log') == OpenSuppliers(log))
            && (Said(log', n, TimedOut) <==> Said(log, n, TimedOut) || a.outcome == TimedOut)
            && (Said(log', n, Errored) <==> Said(log, n, Errored) || a.outcome == Errored)
            && (Said(log', n, Broken) <==> Said(log, n, Broken) || a.outcome == Broken)
            && (NeverSent(log', n) <==> NeverSent(log, n) && a.outcome == NotSent)
  {
    OpenAppend(f.log, a);
    HeardAppend(f.log, a, a.supplier);
    hide OpenSuppliers, RequestId, LastHeard;
    NeverSentAppend(f.log, a, |f0.log|);
    SaidAppend(f.log, a, |f0.log|, TimedOut);
    SaidAppend(f.log, a, |f0.log|, Errored);
    SaidAppend(f.log, a, |f0.log|, Broken);
  }

  // The attempt that closes a rejected round.
  lemma TurnedDownMayRecord(c: Config, f: Facts, item: Item, supplier: string, requestId: string)
    requires MayAsk(c, f, item, supplier, requestId)
    ensures MayRecord(c, Reject(f, supplier, requestId), Attempt(supplier, requestId, AttemptOutcome.Rejected))
  {
    hide LastHeard, OpenSuppliers, RequestId;
    assert OwnRequest(item, supplier, requestId);
  }

  lemma AskingIsNewest(c: Config, f: Facts, item: Item, supplier: string, requestId: string)
    requires MayAsk(c, f, item, supplier, requestId)
    ensures NothingNewer(f, supplier, requestId)
  {
  }

  lemma NeverSentAppend(log: seq<Attempt>, a: Attempt, from: nat)
    requires from <= |log|
    ensures NeverSent(log + [a], from) <==> NeverSent(log, from) && a.outcome == NotSent
  {
    assert (log + [a])[|log|] == a;
    assert forall i | from <= i < |log| :: (log + [a])[i] == log[i];
  }

  lemma SaidAppend(log: seq<Attempt>, a: Attempt, from: nat, o: AttemptOutcome)
    requires from <= |log|
    ensures Said(log + [a], from, o) <==> Said(log, from, o) || o == a.outcome
  {
    if Said(log, from, o) {
      var i :| from <= i < |log| && log[i].outcome == o;
      assert (log + [a])[i].outcome == o;
    }
    if o == a.outcome {
      assert (log + [a])[|log|].outcome == o;
    }
  }

  // ---- What a pass writes about one item at one supplier ----

  // Attempts and rejections accumulate, all of them this supplier's and under ids not rejected before.
  ghost predicate Tried(f: Facts, f': Facts, supplier: string) {
    && f'.refund == f.refund
    && f.log <= f'.log
    && (forall i | |f.log| <= i < |f'.log| :: f'.log[i].supplier == supplier)
    && supplier in f.rejected && supplier in f'.rejected
    && f.rejected[supplier] <= f'.rejected[supplier]
    && f'.rejected == f.rejected[supplier := f'.rejected[supplier]]
    && (forall i | |f.log| <= i < |f'.log| :: f'.log[i].requestId !in f.rejected[supplier])
  }

  // The attempt log grew, and ends with this.
  ghost predicate LastWord(f: Facts, f': Facts, o: AttemptOutcome) {
    |f'.log| > |f.log| && f'.log[|f'.log| - 1].outcome == o
  }

  lemma TriedChains(f: Facts, supplier: string)
    requires supplier in f.rejected
    ensures Tried(f, f, supplier)
    ensures forall f', f'' | Tried(f, f', supplier) && Tried(f', f'', supplier) :: Tried(f, f'', supplier)
    ensures forall f', f'', o | Tried(f, f', supplier) && LastWord(f', f'', o) :: LastWord(f, f'', o)
  {
  }

  lemma ExtendedIsTried(f: Facts, f': Facts, supplier: string, requestId: string)
    requires Extends(f, f', supplier, requestId) && supplier in f.rejected && requestId !in f.rejected[supplier]
    ensures Tried(f, f', supplier)
  {
  }

  lemma RejectedIsTried(f: Facts, supplier: string, requestId: string, a: Attempt)
    requires supplier in f.rejected && a.supplier == supplier && a.requestId !in f.rejected[supplier]
    ensures var f' := Reject(f, supplier, requestId); Tried(f, f', supplier) && Tried(f, f'.(log := f.log + [a]), supplier)
  {
  }

  // ---- Rounds ----

  // Where the next round stands: it may be asked for, or the rounds are used up and nobody is open.
  lemma RoundOpens(t: Tables, c: Config, key: ItemKey, item: Item, supplier: string)
    requires Ready(t, c) && ValidKey(t, key) && supplier in c.suppliers
    requires var f := FactsOf(t, c, key);
             f.row == item && item.status == Pending && OnlyOpen(f.log, supplier)
    ensures var f := FactsOf(t, c, key);
            && supplier in f.rejected
            && f.rejected[supplier] == Rejections(t.discrepancies, key, supplier)
            && |f.rejected[supplier]| <= c.maxRounds
            && (if |f.rejected[supplier]| < c.maxRounds
                then MayAsk(c, f, item, supplier, RequestId(item.id, supplier, |f.rejected[supplier]| + 1))
                else NoneIsOpen(f.log))
  {
    var f := FactsOf(t, c, key);
    assert FactsOk(c, f);
    PlainIds(t, c, key);
    NextIsNotRejected(f, supplier);
    hide Consistent, EvidenceOk, LastHeard, OpenSuppliers, RequestId;
  }

  // Completion of the round's own request goes through unless the code is somebody else's.
  lemma CompletionFindsNothing(t: Tables, key: ItemKey, amount: int, d: Delivery, now: int)
    ensures Complete(t, key, amount, d, now).Done? ==> Complete(t, key, amount, d, now).t.discrepancies == t.discrepancies
  {
    hide Clashes, CodeTaken, RequestTaken;
  }

  lemma CompletionIsOwn(t: Tables, c: Config, key: ItemKey, item: Item, d: Delivery, now: int)
    requires Ready(t, c) && ValidKey(t, key) && IsPaid(t.orders[key.order].status)
    requires MayAsk(c, FactsOf(t, c, key), item, d.supplier, d.requestId)
    ensures var r := Complete(t, key, item.amount, d, now);
            var f := FactsOf(t, c, key);
            if CodeTaken(t, d.code) then r.CodeAlreadyDelivered?
            else
              && r.Done? && Own(t, r.t, c, key) && ValidKey(r.t, key) && r.t.discrepancies == t.discrepancies
              && FactsOf(r.t, c, key) == f.(row := item.(status := Delivered), delivery := Some(d))
  {
    assert item == ItemAt(t, key);
    assert OwnRequest(item, d.supplier, d.requestId);
    CompletionFindsNothing(t, key, item.amount, d, now);
    hide Consistent, EvidenceOk, Own, Complete, CodeTaken, FactsOf;
    CompleteOwn(t, c, key, d, now);
  }
}
