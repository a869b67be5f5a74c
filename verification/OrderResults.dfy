/** What a whole pass makes of its order: every item handled once, and a verdict that follows from it. */
module OrderResults {
  import opened Base
  import opened Tables
  import opened Evidence
  import opened Passing
  import opened Suppliers
  import opened Replies
  import opened Outcomes
  import opened PassResults
  import opened Bookings
  import opened Leftovers
  import opened Consistency
  import opened RequestIds
  import Machine

  // Nothing about the order has changed and nothing was heard; payouts, entries and calls may have been added.
  ghost predicate Stands(w: World, w': World, c: Config, o: nat) {
    && SameBut(w.t, w'.t, c, o, -1)
    && Accrues(w.t, w'.t)
    && w.payouts <= w'.payouts
    && WriteOnce(w.shelf.book, w'.shelf.book)
    && w.calls <= w'.calls
    && w'.heard == w.heard
    && Hush(w.shelf, w'.shelf, Ids(w.t, o), Nothing)
    && StraysElsewhere(w.strays, w'.strays, Ids(w.t, o))
  }

  // However little else is known, no call is forgotten.
  lemma CallsGrow(c: Config)
    ensures forall w, w', key, scope | Onward(w, w', c, key, scope) :: w.calls <= w'.calls
    ensures forall w, w', o | Stands(w, w', c, o) :: w.calls <= w'.calls
  {
    hide Kept, SameBut, WriteOnce;
  }

  lemma OnwardIsStands(w: World, w': World, c: Config, key: ItemKey)
    requires Onward(w, w', c, key, Nothing) && FactsOf(w'.t, c, key) == FactsOf(w.t, c, key) && w'.heard == w.heard
    ensures Stands(w, w', c, key.order)
  {
    hide FactsOf, Hush, Accrues, WriteOnce, Ids, StraysElsewhere;
  }

  lemma ItemsStand(t: Tables, t': Tables, c: Config, o: nat)
    requires SameBut(t, t', c, o, -1)
    ensures t'.orders[o] == t.orders[o]
  {
    forall j: nat | j < |t.orders[o].items| ensures t'.orders[o].items[j] == t.orders[o].items[j] {
      assert FactsOf(t', c, ItemKey(o, j)).row == FactsOf(t, c, ItemKey(o, j)).row;
    }
    assert Head(t'.orders[o]) == Head(t.orders[o]);
    assert t'.orders[o].items == t.orders[o].items;
  }

  // The first items are dealt with, the others as the pass found them.
  ghost predicate Progress(c: Config, start: Tables, w: World, o: nat, results: seq<ItemResult>) {
    && o < |start.orders| && o < |w.t.orders|
    && Head(w.t.orders[o]) == Head(start.orders[o])
    && |results| <= |w.t.orders[o].items| == |start.orders[o].items|
    && (forall j: nat | j < |results| ::
          Handled(c, w.shelf.book, w.payouts, ItemKey(o, j), FactsOf(start, c, ItemKey(o, j)), FactsOf(w.t, c, ItemKey(o, j)), results[j]))
    && (forall j: nat | |results| <= j < |start.orders[o].items| ::
          FactsOf(w.t, c, ItemKey(o, j)) == FactsOf(start, c, ItemKey(o, j)))
  }

  lemma NoProgress(c: Config, w: World, o: nat)
    requires o < |w.t.orders|
    ensures Progress(c, w.t, w, o, [])
  {
  }

  lemma OneMoreItem(c: Config, start: Tables, w: World, w': World, o: nat, scope: Scope, results: seq<ItemResult>, res: ItemResult)
    requires Progress(c, start, w, o, results) && |results| < |start.orders[o].items|
    requires var key := ItemKey(o, |results|);
             && Onward(w, w', c, key, scope)
             && Handled(c, w'.shelf.book, w'.payouts, key, FactsOf(w.t, c, key), FactsOf(w'.t, c, key), res)
    ensures Progress(c, start, w', o, results + [res])
  {
    hide FactsOf, Handled, WriteOnce;
    var results' := results + [res];
    forall j: nat | j < |results|
      ensures Handled(c, w'.shelf.book, w'.payouts, ItemKey(o, j), FactsOf(start, c, ItemKey(o, j)), FactsOf(w'.t, c, ItemKey(o, j)), results'[j])
    {
      HandledStays(c, w.shelf.book, w'.shelf.book, w.payouts, w'.payouts, ItemKey(o, j), FactsOf(start, c, ItemKey(o, j)),
                   FactsOf(w.t, c, ItemKey(o, j)), results[j]);
    }
  }

  // A settled item is passed over.
  lemma SettledIsHandled(c: Config, book: map<Entry, string>, payouts: seq<Machine.Payout>, key: ItemKey, f: Facts)
    requires f.row.status == ItemStatus.Delivered || f.row.status == Refunded
    ensures Handled(c, book, payouts, key, f, f, ItemResult(None, false))
  {
  }

  lemma RefundIsHandled(c: Config, book: map<Entry, string>, payouts: seq<Machine.Payout>, key: ItemKey, f: Facts, f': Facts, res: ItemResult)
    requires f.row.status == Refunding && GaveBack(payouts, key, f, f', res)
    ensures Handled(c, book, payouts, key, f, f', res)
  {
  }

  // Everything that is known of an item once nobody had it.
  lemma RefusedItem(
    c: Config, key: ItemKey, w0: World, w1: World, w2: World, w3: World, f: Facts, f': Facts, f'': Facts, item: Item,
    end: ChainEnd, last: string, returned: bool)
    requires end.NobodyHasIt? && Ends(c, w3.shelf.book, f, f', item, end) && f.row == item && item.status == Pending
    requires GaveBack(w3.payouts, key, Decided(f', end.reason), f'', ItemResult(None, !returned))
    requires Onward(w0, w1, c, key, Nothing) && FactsOf(w0.t, c, key).row.id == item.id
    requires ChainLeaves(w1.shelf, w2.shelf, f, f', item.id, end, last)
    requires Onward(w2, w3, c, key, Nothing) && FactsOf(w2.t, c, key).row.id == item.id
    ensures Handled(c, w3.shelf.book, w3.payouts, key, f, f'', ItemResult(None, !returned))
    ensures LeftBehind(w0.shelf, w3.shelf, f, f'')
    ensures ItemHeard(ToRefund(item.amount, returned), f, f'', ItemResult(None, !returned))
  {
    EndsOfItem(c, w3.shelf.book, f, f', item, end);
    hide FactsOf, Onward, ChainLeaves, LeftBehind, Ends, Handled;
    RefusedLeaves(f', f'', end.reason, w3.payouts, key, ItemResult(None, !returned));
    RefusalIsHandled(c, w3.shelf.book, w3.payouts, key, f, f', f'', item, end.reason, ItemResult(None, !returned));
    RefundIsItemHeard(w3.payouts, key, f, Decided(f', end.reason), f'', returned);
    ItemLeft(c, key, w0, w1, w2, w3, f, f', f'', item.id, end, last);
  }

  // ---- The pass's own summary ----

  // The latest slot time asked for, and whether anything stayed unresolved.
  ghost predicate Sums(results: seq<ItemResult>, latest: Option<int>, unresolved: bool) {
    && (unresolved <==> exists j :: 0 <= j < |results| && results[j].unresolved)
    && (latest.Some? ==> exists j :: 0 <= j < |results| && results[j].deferredUntil == latest)
    && (forall j | 0 <= j < |results| && results[j].deferredUntil.Some? ::
          latest.Some? && results[j].deferredUntil.value <= latest.value)
  }

  function Later(a: Option<int>, b: Option<int>): Option<int> {
    if b.Some? && (a.None? || b.value > a.value) then b else a
  }

  lemma SumsOneMore(results: seq<ItemResult>, latest: Option<int>, unresolved: bool, res: ItemResult)
    requires Sums(results, latest, unresolved)
    ensures Sums(results + [res], Later(latest, res.deferredUntil), unresolved || res.unresolved)
  {
    var results', latest' := results + [res], Later(latest, res.deferredUntil);
    assert results'[|results|] == res;
    if latest'.Some? && latest' == latest {
      var j :| 0 <= j < |results| && results[j].deferredUntil == latest;
      assert results'[j].deferredUntil == latest';
    }
    if unresolved {
      var j :| 0 <= j < |results| && results[j].unresolved;
      assert results'[j].unresolved;
    }
  }

  // Final exactly when every item is settled, queued again exactly when some item only waits for a
  // slot and none is unresolved, parked exactly when one is; never more than the pass found out.
  ghost predicate Judged(order: Order, results: seq<ItemResult>) {
    && (IsFinal(order.status) <==> forall j | 0 <= j < |results| :: results[j] == ItemResult(None, false))
    && (IsFinal(order.status) ==> NoneOpen(order.items) && order.status == FinalStatus(order.items))
    && (order.status == Paid <==>
        && (exists j :: 0 <= j < |results| && results[j].deferredUntil.Some?)
        && (forall j | 0 <= j < |results| :: !results[j].unresolved))
    && (order.status == Paid ==> order.notBefore.Some? && Sums(results, order.notBefore, false))
    && (order.status == DeliveryFailed <==> exists j :: 0 <= j < |results| && results[j].unresolved)
  }

  ghost predicate Reported(items: seq<Item>, results: seq<ItemResult>) {
    && |results| == |items|
    && forall j | 0 <= j < |items| ::
         && (IsOpen(items[j].status) <==> results[j].deferredUntil.Some? || results[j].unresolved)
         && !(results[j].deferredUntil.Some? && results[j].unresolved)
  }

  lemma AllReported(c: Config, start: Tables, w: World, o: nat, results: seq<ItemResult>)
    requires Progress(c, start, w, o, results) && |results| == |start.orders[o].items|
    ensures Reported(w.t.orders[o].items, results)
  {
    forall j: nat | j < |results|
      ensures IsOpen(w.t.orders[o].items[j].status) <==> results[j].deferredUntil.Some? || results[j].unresolved
      ensures !(results[j].deferredUntil.Some? && results[j].unresolved)
    {
      OpenIsReported(c, w.shelf.book, w.payouts, ItemKey(o, j), FactsOf(start, c, ItemKey(o, j)), FactsOf(w.t, c, ItemKey(o, j)), results[j]);
    }
  }

  // The verdict on the items is the judgement on the results.
  lemma VerdictIsJudged(order: Order, results: seq<ItemResult>, latest: Option<int>, unresolved: bool)
    requires Reported(order.items, results) && Sums(results, latest, unresolved)
    ensures var (to, extra) := Verdict(order.items, if unresolved then None else latest);
            && Judged(order.(status := to, notBefore := if extra.SetNotBefore? then Some(extra.at) else order.notBefore), results)
            && !extra.SetPaidAt?
            && (extra.SetNotBefore? <==> to == Paid)
  {
    hide FinalStatus;
    FinalIsFinal(order.items);
    if NoneOpen(order.items) {
      assert forall j | 0 <= j < |results| :: results[j] == ItemResult(None, false);
    } else {
      var k :| 0 <= k < |order.items| && IsOpen(order.items[k].status);
      assert results[k] != ItemResult(None, false);
      if unresolved {
        var j :| 0 <= j < |results| && results[j].unresolved;
      } else {
        assert results[k].deferredUntil.Some? && latest.Some?;
      }
    }
  }

  lemma FinalIsFinal(items: seq<Item>)
    ensures IsFinal(FinalStatus(items))
  {
  }

  lemma {:induction false} DeliveredCount(items: seq<Item>)
    ensures CountDelivered(items) <= |items|
    ensures CountDelivered(items) == |items| <==> forall k | 0 <= k < |items| :: items[k].status == ItemStatus.Delivered
    ensures CountDelivered(items) == 0 <==> forall k | 0 <= k < |items| :: items[k].status != ItemStatus.Delivered
  {
    if items != [] {
      var front := items[..|items| - 1];
      DeliveredCount(front);
      assert forall k | 0 <= k < |front| :: front[k] == items[k];
      assert items[|items| - 1].status == ItemStatus.Delivered || CountDelivered(items) == CountDelivered(front);
    }
  }

  // What each final status says about the items.
  lemma FinalStatusMeans(items: seq<Item>)
    requires items != [] && NoneOpen(items)
    ensures FinalStatus(items) == AllDelivered <==> forall k | 0 <= k < |items| :: items[k].status == ItemStatus.Delivered
    ensures FinalStatus(items) == AllRefunded <==> forall k | 0 <= k < |items| :: items[k].status == Refunded
    ensures FinalStatus(items) == PartiallyDelivered <==>
            && (exists k :: 0 <= k < |items| && items[k].status == ItemStatus.Delivered)
            && (exists k :: 0 <= k < |items| && items[k].status == Refunded)
  {
    DeliveredCount(items);
    assert forall k | 0 <= k < |items| :: items[k].status == ItemStatus.Delivered || items[k].status == Refunded;
  }

  // ---- The order's own update ----

  ghost predicate Closes(w: World, w': World, c: Config, o: nat, to: OrderStatus, extra: Extra) {
    && o < |w.t.orders| && o < |w'.t.orders|
    && w'.t.orders[o] == w.t.orders[o].(status := to, notBefore := if extra.SetNotBefore? then Some(extra.at) else w.t.orders[o].notBefore)
    && (forall j: nat | j < |w.t.orders[o].items| :: FactsOf(w'.t, c, ItemKey(o, j)) == FactsOf(w.t, c, ItemKey(o, j)))
    && w.payouts <= w'.payouts
    && WriteOnce(w.shelf.book, w'.shelf.book)
    && w'.heard == w.heard
    && Hush(w.shelf, w'.shelf, Ids(w.t, o), Nothing)
    && StraysElsewhere(w.strays, w'.strays, Ids(w.t, o))
  }

  // ---- The suppliers' books ----

  // The first items left nothing behind; nobody was asked for the others.
  ghost predicate Shelved(c: Config, start: World, w: World, o: nat, n: nat) {
    && o < |start.t.orders| && n <= |start.t.orders[o].items|
    && (forall j: nat | j < n ::
          LeftBehind(start.shelf, w.shelf, FactsOf(start.t, c, ItemKey(o, j)), FactsOf(w.t, c, ItemKey(o, j))))
    && (forall j: nat | n <= j < |start.t.orders[o].items| ::
          ItemQuiet(start.shelf, w.shelf, FactsOf(start.t, c, ItemKey(o, j)).row.id))
  }

  lemma NothingShelved(c: Config, w: World, o: nat)
    requires o < |w.t.orders|
    ensures Shelved(c, w, w, o, 0)
  {
    hide FactsOf, Mine;
  }

  // What holds between two moments for the items nobody was asked for in between.
  ghost predicate OthersQuiet(c: Config, start: World, w: World, w': World, o: nat, n: int) {
    && o < |start.t.orders|
    && forall j: nat | j < |start.t.orders[o].items| && j != n ::
         ItemQuiet(w.shelf, w'.shelf, FactsOf(start.t, c, ItemKey(o, j)).row.id)
  }

  lemma ScopeLeavesOthers(c: Config, t: Tables, start: World, w: World, w': World, o: nat, scope: Scope, n: int)
    requires Ready(t, c) && t == start.t && o < |t.orders| && Ids(w.t, o) == Ids(t, o)
    requires Hush(w.shelf, w'.shelf, Ids(w.t, o), scope)
    requires if scope.OneItem? then 0 <= n < |t.orders[o].items| && scope.item == t.orders[o].items[n].id else scope.Nothing?
    ensures OthersQuiet(c, start, w, w', o, n)
  {
    assert IdsOk(t);
    hide Ready, Hush;
    forall j: nat | j < |t.orders[o].items| && j != n
      ensures ItemQuiet(w.shelf, w'.shelf, FactsOf(start.t, c, ItemKey(o, j)).row.id)
    {
      assert ItemAt(t, ItemKey(o, j)) == t.orders[o].items[j];
      if scope.OneItem? {
        assert ItemAt(t, ItemKey(o, n)) == t.orders[o].items[n];
      }
      HushIsItemQuiet(w.shelf, w'.shelf, Ids(w.t, o), scope, j);
    }
  }

  lemma OneMoreShelved(c: Config, start: World, w: World, w': World, o: nat, n: nat)
    requires Shelved(c, start, w, o, n) && n < |start.t.orders[o].items| && OthersQuiet(c, start, w, w', o, n)
    requires forall j: nat | j < |start.t.orders[o].items| && j != n ::
               FactsOf(w'.t, c, ItemKey(o, j)) == FactsOf(w.t, c, ItemKey(o, j))
    requires FactsOf(w.t, c, ItemKey(o, n)) == FactsOf(start.t, c, ItemKey(o, n))
    requires LeftBehind(w.shelf, w'.shelf, FactsOf(w.t, c, ItemKey(o, n)), FactsOf(w'.t, c, ItemKey(o, n)))
    ensures Shelved(c, start, w', o, n + 1)
  {
    hide FactsOf, LeftBehind, ItemQuiet;
    forall j: nat | j < n
      ensures LeftBehind(start.shelf, w'.shelf, FactsOf(start.t, c, ItemKey(o, j)), FactsOf(w'.t, c, ItemKey(o, j)))
    {
      LeftBehindStays(start.shelf, w.shelf, w'.shelf, FactsOf(start.t, c, ItemKey(o, j)), FactsOf(w.t, c, ItemKey(o, j)));
    }
    LeftBehindBefore(start.shelf, w.shelf, w'.shelf, FactsOf(start.t, c, ItemKey(o, n)), FactsOf(w'.t, c, ItemKey(o, n)));
    forall j: nat | n < j < |start.t.orders[o].items|
      ensures ItemQuiet(start.shelf, w'.shelf, FactsOf(start.t, c, ItemKey(o, j)).row.id)
    {
      ItemQuietAgain(start.shelf, w.shelf, w'.shelf, FactsOf(start.t, c, ItemKey(o, j)).row.id);
    }
  }

  // Before the first item is handled and after the last, nobody is asked at all.
  lemma AllStayShelved(
    c: Config, w0: World, w1: World, w2: World, w3: World, o: nat)
    requires o < |w0.t.orders| && o < |w1.t.orders| && |w1.t.orders[o].items| == |w0.t.orders[o].items|
    requires OthersQuiet(c, w0, w0, w1, o, -1) && Shelved(c, w1, w2, o, |w1.t.orders[o].items|)
    requires OthersQuiet(c, w0, w2, w3, o, -1)
    requires forall j: nat | j < |w0.t.orders[o].items| ::
               && FactsOf(w1.t, c, ItemKey(o, j)) == FactsOf(w0.t, c, ItemKey(o, j))
               && FactsOf(w3.t, c, ItemKey(o, j)) == FactsOf(w2.t, c, ItemKey(o, j))
    ensures forall j: nat | j < |w0.t.orders[o].items| ::
              LeftBehind(w0.shelf, w3.shelf, FactsOf(w0.t, c, ItemKey(o, j)), FactsOf(w3.t, c, ItemKey(o, j)))
  {
    hide FactsOf, LeftBehind, ItemQuiet;
    forall j: nat | j < |w0.t.orders[o].items|
      ensures LeftBehind(w0.shelf, w3.shelf, FactsOf(w0.t, c, ItemKey(o, j)), FactsOf(w3.t, c, ItemKey(o, j)))
    {
      var f, f' := FactsOf(w0.t, c, ItemKey(o, j)), FactsOf(w2.t, c, ItemKey(o, j));
      LeftBehindBefore(w0.shelf, w1.shelf, w2.shelf, f, f');
      LeftBehindStays(w0.shelf, w2.shelf, w3.shelf, f, f');
    }
  }

  // A finished pass: every item handled once, nothing new with any supplier but the last one asked,
  // no second code but those explained by what happened before, and the order's status says how.
  ghost predicate PassDone(c: Config, start: World, w: World, o: nat, results: seq<ItemResult>) {
    && o < |start.t.orders| && o < |w.t.orders|
    && var before, after := start.t.orders[o], w.t.orders[o];
    && |results| == |after.items| == |before.items|
    && (forall j: nat | j < |results| ::
          Handled(c, w.shelf.book, w.payouts, ItemKey(o, j), FactsOf(start.t, c, ItemKey(o, j)), FactsOf(w.t, c, ItemKey(o, j)), results[j]))
    && (forall j: nat | j < |results| ::
          LeftBehind(start.shelf, w.shelf, FactsOf(start.t, c, ItemKey(o, j)), FactsOf(w.t, c, ItemKey(o, j))))
    && (forall j: nat | j < |results| ::
          SecondCodes(c, start.lost + start.strays, w.shelf, FactsOf(start.t, c, ItemKey(o, j)), FactsOf(w.t, c, ItemKey(o, j))))
    && HeardThrough(c, start, w, o, results)
    && Judged(after, results)
    && after.paidAt == before.paidAt
  }

  // An order back in the queue waits for a slot that a supplier refused until then in this very pass,
  // as the last thing heard about one of its items, and for no other item's slot is later.
  lemma WaitWasHeard(c: Config, start: World, w: World, o: nat, results: seq<ItemResult>)
    requires PassDone(c, start, w, o, results) && w.t.orders[o].status == Paid
    ensures w.t.orders[o].notBefore.Some?
    ensures exists i :: |start.heard| <= i < |w.heard| && w.heard[i].key.order == o
                        && Refuses(w.heard[i].answer, w.t.orders[o].notBefore.value)
    ensures forall j: nat, at | j < |results| && LastAbout(w.heard, |start.heard|, ItemKey(o, j)).Some?
                                && Refuses(LastAbout(w.heard, |start.heard|, ItemKey(o, j)).value, at) ::
              at <= w.t.orders[o].notBefore.value
  {
    hide FactsOf, Handled, LeftBehind, SecondCodes;
    var until := w.t.orders[o].notBefore;
    var j :| 0 <= j < |results| && results[j].deferredUntil == until;
    var key := ItemKey(o, j);
    assert IsSettled(FactsOf(start.t, c, key)) ==> LastAbout(w.heard, |start.heard|, key).None?;
    SettledIsNotDeferred(c, w.shelf.book, w.payouts, key, FactsOf(start.t, c, key), FactsOf(w.t, c, key), results[j]);
    LastAboutIsThere(w.heard, |start.heard|, key);
  }

  lemma SettledIsNotDeferred(
    c: Config, book: map<Entry, string>, payouts: seq<Machine.Payout>, key: ItemKey, f: Facts, f': Facts, res: ItemResult)
    requires Handled(c, book, payouts, key, f, f', res)
    ensures IsSettled(f) ==> res.deferredUntil.None?
  {
    hide AllSaidNo, ReasonFor, SoldFrom, OpenSuppliers;
  }

  lemma PassIsDone(
    c: Config, w0: World, w1: World, w2: World, w3: World, w4: World, o: nat, results: seq<ItemResult>,
    latest: Option<int>, unresolved: bool)
    requires Stands(w0, w1, c, o)
    requires Progress(c, w1.t, w2, o, results) && |results| == |w1.t.orders[o].items| && Sums(results, latest, unresolved)
    requires Stands(w2, w3, c, o)
    requires o < |w3.t.orders|
    requires var (to, extra) := Verdict(w3.t.orders[o].items, if unresolved then None else latest);
             Closes(w3, w4, c, o, to, extra)
    requires Ready(w0.t, c) && Shelved(c, w1, w2, o, |results|) && Accrues(w1.t, w2.t)
    requires Ready(w4.t, c) && AllExplained(w0.t, c, w0.shelf, w0.lost + w0.strays)
    requires HeardThrough(c, w1, w2, o, results)
    ensures PassDone(c, w0, w4, o, results)
  {
    hide HeardThrough, Judged, Handled, FactsOf, Verdict, Ready, AllExplained, LeftBehind, SecondCodes, Shelved, Accrues, Hush, WriteOnce, Ids, Sums, Reported;
    ItemsStand(w0.t, w1.t, c, o);
    ItemsStand(w2.t, w3.t, c, o);
    AllReported(c, w1.t, w2, o, results);
    VerdictIsJudged(w3.t.orders[o], results, latest, unresolved);
    AllStayHandled(c, w0, w1, w2, w3, w4, o, results);
    PassLeavesNothing(c, w0, w1, w2, w3, w4, o);
    AllStayHeard(c, w0, w1, w2, w3, w4, o, results);
    ItemsNotSold(c, w0, w4, o, results);
  }

  // What the finished pass leaves with the suppliers, item by item.
  lemma ItemsNotSold(c: Config, w: World, w': World, o: nat, results: seq<ItemResult>)
    requires Ready(w.t, c) && Ready(w'.t, c) && AllExplained(w.t, c, w.shelf, w.lost + w.strays)
    requires o < |w.t.orders| && o < |w'.t.orders| && |results| == |w.t.orders[o].items| == |w'.t.orders[o].items|
    requires forall j: nat | j < |results| ::
               Handled(c, w'.shelf.book, w'.payouts, ItemKey(o, j), FactsOf(w.t, c, ItemKey(o, j)), FactsOf(w'.t, c, ItemKey(o, j)), results[j])
    requires forall j: nat | j < |results| ::
               LeftBehind(w.shelf, w'.shelf, FactsOf(w.t, c, ItemKey(o, j)), FactsOf(w'.t, c, ItemKey(o, j)))
    ensures forall j: nat | j < |results| ::
              SecondCodes(c, w.lost + w.strays, w'.shelf, FactsOf(w.t, c, ItemKey(o, j)), FactsOf(w'.t, c, ItemKey(o, j)))
  {
    forall j: nat | j < |results|
      ensures SecondCodes(c, w.lost + w.strays, w'.shelf, FactsOf(w.t, c, ItemKey(o, j)), FactsOf(w'.t, c, ItemKey(o, j)))
    {
      var key := ItemKey(o, j);
      var f, f' := FactsOf(w.t, c, key), FactsOf(w'.t, c, key);
      assert FactsOk(c, f) && FactsOk(c, f');
      assert ItemExplained(w.t, c, w.shelf, w.lost + w.strays, key) && f.row == RowAt(w.t, key);
      hide Consistent, FactsOk, Handled, LeftBehind, FactsOf, Explains, SecondCodes, RowAt, Mine;
      SameItemHandled(c, w'.shelf.book, w'.payouts, key, f, f', results[j]);
      WhoHoldsASecond(c, w.lost + w.strays, w.shelf, w'.shelf, f, f');
    }
  }

  lemma SameItemHandled(
    c: Config, book: map<Entry, string>, payouts: seq<Machine.Payout>, key: ItemKey, f: Facts, f': Facts, res: ItemResult)
    requires Handled(c, book, payouts, key, f, f', res)
    ensures f'.row.id == f.row.id
  {
    hide AllSaidNo, SoldFrom, OpenSuppliers, ReasonFor;
  }

  lemma PassLeavesNothing(c: Config, w0: World, w1: World, w2: World, w3: World, w4: World, o: nat)
    requires Ready(w0.t, c) && Stands(w0, w1, c, o) && Stands(w2, w3, c, o) && Accrues(w1.t, w2.t)
    requires |w2.t.orders[o].items| == |w1.t.orders[o].items|
    requires Shelved(c, w1, w2, o, |w1.t.orders[o].items|)
    requires o < |w3.t.orders| && o < |w4.t.orders|
    requires forall j: nat | j < |w3.t.orders[o].items| :: FactsOf(w4.t, c, ItemKey(o, j)) == FactsOf(w3.t, c, ItemKey(o, j))
    requires Hush(w3.shelf, w4.shelf, Ids(w3.t, o), Nothing)
    ensures forall j: nat | j < |w0.t.orders[o].items| ::
              LeftBehind(w0.shelf, w4.shelf, FactsOf(w0.t, c, ItemKey(o, j)), FactsOf(w4.t, c, ItemKey(o, j)))
  {
    hide FactsOf, Ready, LeftBehind, ItemQuiet, Hush, Accrues, Ids, WriteOnce;
    SameIds(w0.t, w1.t, o);
    SameIds(w1.t, w2.t, o);
    SameIds(w2.t, w3.t, o);
    HushAgain(w2.shelf, w3.shelf, w4.shelf, Ids(w2.t, o), Nothing, Nothing);
    ScopeLeavesOthers(c, w0.t, w0, w0, w1, o, Nothing, -1);
    ScopeLeavesOthers(c, w0.t, w0, w2, w4, o, Nothing, -1);
    AllStayShelved(c, w0, w1, w2, w4, o);
  }

  lemma AllStayHandled(c: Config, w0: World, w1: World, w2: World, w3: World, w4: World, o: nat, results: seq<ItemResult>)
    requires Stands(w0, w1, c, o) && Progress(c, w1.t, w2, o, results) && Stands(w2, w3, c, o)
    requires |results| == |w1.t.orders[o].items|
    requires o < |w3.t.orders| && o < |w4.t.orders|
    requires forall j: nat | j < |w3.t.orders[o].items| :: FactsOf(w4.t, c, ItemKey(o, j)) == FactsOf(w3.t, c, ItemKey(o, j))
    requires w3.payouts <= w4.payouts && WriteOnce(w3.shelf.book, w4.shelf.book)
    ensures forall j: nat | j < |results| ::
              Handled(c, w4.shelf.book, w4.payouts, ItemKey(o, j), FactsOf(w0.t, c, ItemKey(o, j)), FactsOf(w4.t, c, ItemKey(o, j)), results[j])
  {
    hide FactsOf, Handled;
    WriteOnceAgain(w2.shelf.book, w3.shelf.book, w4.shelf.book);
    assert w2.payouts <= w4.payouts;
    hide WriteOnce;
    forall j: nat | j < |results|
      ensures Handled(c, w4.shelf.book, w4.payouts, ItemKey(o, j), FactsOf(w0.t, c, ItemKey(o, j)), FactsOf(w4.t, c, ItemKey(o, j)), results[j])
    {
      HandledStays(c, w2.shelf.book, w4.shelf.book, w2.payouts, w4.payouts, ItemKey(o, j), FactsOf(w1.t, c, ItemKey(o, j)),
                   FactsOf(w2.t, c, ItemKey(o, j)), results[j]);
    }
  }

  // The update that carries the verdict.
  lemma MoveCloses(w: World, w': World, c: Config, o: nat, to: OrderStatus, extra: Extra)
    requires !extra.SetPaidAt? && o < |w.t.orders|
    requires MoveOrder(w.t, o, Delivering, to, extra) == Some(w'.t) && OwnOrder(w.t, w'.t, c, o)
    requires w'.payouts == w.payouts && w'.shelf == w.shelf && w'.heard == w.heard && w'.strays == w.strays
    ensures Closes(w, w', c, o, to, extra)
  {
    hide FactsOf, Ready, Accrues, Hush;
    HushAlready(w.shelf, Ids(w.t, o), Nothing);
    SameStrays(w.strays, Ids(w.t, o));
  }

  lemma StandsThenCloses(w: World, w': World, w'': World, c: Config, o: nat, to: OrderStatus, extra: Extra)
    requires Stands(w, w', c, o) && Closes(w', w'', c, o, to, extra)
    ensures Closes(w, w'', c, o, to, extra)
  {
    ItemsStand(w.t, w'.t, c, o);
    hide FactsOf, Hush, Accrues, WriteOnce, StraysElsewhere;
    SameIds(w.t, w'.t, o);
    StraysAgain(w.strays, w'.strays, w''.strays, Ids(w.t, o));
    HushAgain(w.shelf, w'.shelf, w''.shelf, Ids(w.t, o), Nothing, Nothing);
    WriteOnceAgain(w.shelf.book, w'.shelf.book, w''.shelf.book);
  }

  lemma StandingItems(w: World, w': World, c: Config, o: nat)
    requires Stands(w, w', c, o)
    ensures o < |w.t.orders| && o < |w'.t.orders| && w'.t.orders[o] == w.t.orders[o]
  {
    ItemsStand(w.t, w'.t, c, o);
  }

  lemma NoPaidAt(items: seq<Item>, deferral: Option<int>)
    ensures !Verdict(items, deferral).1.SetPaidAt?
  {
    hide FinalStatus;
  }

  lemma OwnOrderStays(t: Tables, t': Tables, c: Config, o: nat)
    requires OwnOrder(t, t', c, o)
    ensures Ready(t', c) && Accrues(t, t') && |t.orders| <= |t'.orders|
  {
  }

  lemma NothingSummed()
    ensures Sums([], None, false)
  {
  }

  // The next item is as the pass found it.
  lemma ProgressSoFar(c: Config, start: Tables, w: World, o: nat, results: seq<ItemResult>)
    requires Progress(c, start, w, o, results) && |results| < |start.orders[o].items|
    ensures ValidKey(w.t, ItemKey(o, |results|))
    ensures FactsOf(w.t, c, ItemKey(o, |results|)).row == start.orders[o].items[|results|]
  {
    assert FactsOf(start, c, ItemKey(o, |results|)).row == start.orders[o].items[|results|];
  }

  lemma VerdictIsPaid(items: seq<Item>, deferral: Option<int>)
    ensures IsPaid(Verdict(items, deferral).0)
  {
    hide CountDelivered;
  }

  lemma ClosedStatus(c: Config, w: World, w': World, o: nat, items: seq<Item>, deferral: Option<int>)
    requires var (to, extra) := Verdict(items, deferral); Closes(w, w', c, o, to, extra)
    ensures o < |w'.t.orders| && w'.t.orders[o].status == Verdict(items, deferral).0
  {
  }

  // ---- A pass cut short ----

  predicate IsSettled(f: Facts) {
    f.row.status == ItemStatus.Delivered || f.row.status == Refunded
  }

  // What was delivered or refunded before stays exactly as it was.
  ghost predicate SettledStand(c: Config, w: World, w': World, o: nat) {
    o < |w.t.orders| &&
    forall j: nat | j < |w.t.orders[o].items| && IsSettled(FactsOf(w.t, c, ItemKey(o, j))) ::
      FactsOf(w'.t, c, ItemKey(o, j)) == FactsOf(w.t, c, ItemKey(o, j))
  }

  lemma StandsAgain(w: World, w': World, w'': World, c: Config, o: nat)
    requires Stands(w, w', c, o) && Stands(w', w'', c, o)
    ensures Stands(w, w'', c, o)
  {
    hide FactsOf, Hush, Accrues, WriteOnce, StraysElsewhere;
    SameButAgain(w.t, w'.t, w''.t, c, o, -1);
    AccruesAgain(w.t, w'.t, w''.t);
    SameIds(w.t, w'.t, o);
    StraysAgain(w.strays, w'.strays, w''.strays, Ids(w.t, o));
    HushAgain(w.shelf, w'.shelf, w''.shelf, Ids(w.t, o), Nothing, Nothing);
    WriteOnceAgain(w.shelf.book, w'.shelf.book, w''.shelf.book);
  }

  lemma StandingIsSettled(w: World, w': World, c: Config, o: nat)
    requires Stands(w, w', c, o)
    ensures SettledStand(c, w, w', o)
  {
    hide FactsOf;
  }

  lemma ProgressIsSettled(c: Config, w0: World, w1: World, w2: World, o: nat, results: seq<ItemResult>)
    requires Stands(w0, w1, c, o) && Progress(c, w1.t, w2, o, results)
    ensures SettledStand(c, w0, w2, o)
  {
    hide FactsOf;
    forall j: nat | j < |w0.t.orders[o].items| && IsSettled(FactsOf(w0.t, c, ItemKey(o, j)))
      ensures FactsOf(w2.t, c, ItemKey(o, j)) == FactsOf(w0.t, c, ItemKey(o, j))
    {
      assert FactsOf(w1.t, c, ItemKey(o, j)) == FactsOf(w0.t, c, ItemKey(o, j));
    }
  }

  lemma SettledThenStands(c: Config, w: World, w': World, w'': World, o: nat)
    requires SettledStand(c, w, w', o) && Stands(w', w'', c, o) && |w'.t.orders[o].items| == |w.t.orders[o].items|
    ensures SettledStand(c, w, w'', o)
  {
    hide FactsOf;
  }

  // Only an item that is not settled is worked on.
  lemma SettledThenOnward(c: Config, w: World, w': World, w'': World, key: ItemKey, scope: Scope)
    requires SettledStand(c, w, w', key.order) && Onward(w', w'', c, key, scope)
    requires |w'.t.orders[key.order].items| == |w.t.orders[key.order].items|
    requires !IsSettled(FactsOf(w.t, c, key)) || FactsOf(w''.t, c, key) == FactsOf(w'.t, c, key)
    ensures SettledStand(c, w, w'', key.order)
  {
    hide FactsOf, WriteOnce;
  }

  // Wherever a pass breaks off: while working on an unsettled item, or before its verdict.
  lemma CutShort(c: Config, w0: World, w1: World, w2: World, w3: World, o: nat, scope: Scope, results: seq<ItemResult>)
    requires Stands(w0, w1, c, o) && Progress(c, w1.t, w2, o, results)
    requires || Stands(w2, w3, c, o)
             || (&& |results| < |w1.t.orders[o].items| && Onward(w2, w3, c, ItemKey(o, |results|), scope)
                 && !IsSettled(FactsOf(w2.t, c, ItemKey(o, |results|))))
    ensures SettledStand(c, w0, w3, o)
  {
    hide FactsOf, WriteOnce;
    ProgressIsSettled(c, w0, w1, w2, o, results);
    if Stands(w2, w3, c, o) {
      SettledThenStands(c, w0, w2, w3, o);
    } else {
      var key := ItemKey(o, |results|);
      assert FactsOf(w1.t, c, key) == FactsOf(w0.t, c, key);
      SettledThenOnward(c, w0, w2, w3, key, scope);
    }
  }

  // No id of the pass's items has become a stray since it began.
  ghost predicate NoneStrayed(start: World, w: World, o: nat) {
    StraysElsewhere(start.strays, w.strays, Ids(start.t, o)) && Ids(w.t, o) == Ids(start.t, o)
  }

  lemma NoneStrayedYet(w: World, o: nat)
    ensures NoneStrayed(w, w, o)
  {
  }

  lemma NoneStrayedThen(c: Config, start: World, w: World, w': World, key: ItemKey, scope: Scope)
    requires NoneStrayed(start, w, key.order)
    requires Stands(w, w', c, key.order) || Onward(w, w', c, key, scope)
    ensures NoneStrayed(start, w', key.order)
  {
    hide FactsOf, Hush, Accrues, WriteOnce, StraysElsewhere;
    SameIds(w.t, w'.t, key.order);
    StraysAgain(start.strays, w.strays, w'.strays, Ids(w.t, key.order));
  }

  lemma NoneStrayedToTheEnd(c: Config, start: World, w2: World, w3: World, w4: World, o: nat, to: OrderStatus, extra: Extra)
    requires NoneStrayed(start, w2, o) && Stands(w2, w3, c, o) && Closes(w3, w4, c, o, to, extra)
    ensures StraysElsewhere(start.strays, w4.strays, Ids(start.t, o))
  {
    hide FactsOf, Hush, Accrues, WriteOnce, StraysElsewhere, SameBut;
    NoneStrayedThen(c, start, w2, w3, ItemKey(o, 0), Nothing);
    StraysAgain(start.strays, w3.strays, w4.strays, Ids(w3.t, o));
  }

  // Each item handled so far was settled before, or the last thing heard about it accounts for its
  // result; about the others nothing was heard.
  ghost predicate HeardThrough(c: Config, start: World, w: World, o: nat, results: seq<ItemResult>) {
    && start.heard <= w.heard
    && (forall j: nat | j < |results| ::
          var last, f := LastAbout(w.heard, |start.heard|, ItemKey(o, j)), FactsOf(start.t, c, ItemKey(o, j));
          if IsSettled(f) then last.None?
          else last.Some? && ItemHeard(last.value, f, FactsOf(w.t, c, ItemKey(o, j)), results[j]))
    && (forall j: nat | j >= |results| :: LastAbout(w.heard, |start.heard|, ItemKey(o, j)).None?)
  }

  lemma NothingHeardYet(c: Config, w: World, o: nat)
    ensures HeardThrough(c, w, w, o, [])
  {
  }

  lemma OneMoreHeard(c: Config, start: World, w: World, w': World, o: nat, scope: Scope, results: seq<ItemResult>, res: ItemResult)
    requires HeardThrough(c, start, w, o, results) && Progress(c, start.t, w, o, results) && |results| < |start.t.orders[o].items|
    requires var key := ItemKey(o, |results|);
             && Onward(w, w', c, key, scope)
             && (if IsSettled(FactsOf(w.t, c, key)) then w'.heard == w.heard
                 else |w'.heard| > |w.heard| && ItemHeard(w'.heard[|w'.heard| - 1].answer, FactsOf(w.t, c, key), FactsOf(w'.t, c, key), res))
    ensures HeardThrough(c, start, w', o, results + [res])
  {
    hide FactsOf, Handled, WriteOnce, Accrues, Hush, StraysElsewhere, ItemHeard, IsSettled;
    var key, results' := ItemKey(o, |results|), results + [res];
    forall j: nat ensures j != |results| ==> LastAbout(w'.heard, |start.heard|, ItemKey(o, j)) == LastAbout(w.heard, |start.heard|, ItemKey(o, j)) {
      LastAboutOne(w.heard, w'.heard, |start.heard|, key, ItemKey(o, j));
    }
    LastAboutOne(w.heard, w'.heard, |start.heard|, key, key);
    assert forall j: nat | j < |results| :: results'[j] == results[j] && FactsOf(w'.t, c, ItemKey(o, j)) == FactsOf(w.t, c, ItemKey(o, j));
  }

  // Before the first item and after the last nothing was heard and no item changed.
  lemma AllStayHeard(c: Config, w0: World, w1: World, w2: World, w3: World, w4: World, o: nat, results: seq<ItemResult>)
    requires Stands(w0, w1, c, o) && HeardThrough(c, w1, w2, o, results) && Stands(w2, w3, c, o)
    requires |results| == |w1.t.orders[o].items| && w1.t.orders[o] == w0.t.orders[o]
    requires o < |w2.t.orders| && |w2.t.orders[o].items| == |results|
    requires o < |w3.t.orders| && w3.t.orders[o] == w2.t.orders[o] && w4.heard == w3.heard
    requires forall j: nat | j < |w3.t.orders[o].items| :: FactsOf(w4.t, c, ItemKey(o, j)) == FactsOf(w3.t, c, ItemKey(o, j))
    ensures HeardThrough(c, w0, w4, o, results)
  {
    hide FactsOf, WriteOnce, Accrues, Hush, StraysElsewhere, ItemHeard, IsSettled;
    assert forall j: nat | j < |results| :: FactsOf(w1.t, c, ItemKey(o, j)) == FactsOf(w0.t, c, ItemKey(o, j));
    assert forall j: nat | j < |results| :: FactsOf(w4.t, c, ItemKey(o, j)) == FactsOf(w2.t, c, ItemKey(o, j));
  }

  lemma StandsAccrues(c: Config, w: World, w': World, o: nat)
    requires Stands(w, w', c, o)
    ensures Accrues(w.t, w'.t)
  {
  }

  // Handling the next item disturbs nobody else's ids.
  lemma HandledShelf(c: Config, start: World, w: World, w': World, o: nat, results: seq<ItemResult>, id: string)
    requires Ready(start.t, c) && Progress(c, start.t, w, o, results) && |results| < |start.t.orders[o].items|
    requires Shelved(c, start, w, o, |results|) && Accrues(start.t, w.t)
    requires id == start.t.orders[o].items[|results|].id
    requires var key := ItemKey(o, |results|);
             && Onward(w, w', c, key, OneItem(id))
             && LeftBehind(w.shelf, w'.shelf, FactsOf(w.t, c, key), FactsOf(w'.t, c, key))
    ensures Shelved(c, start, w', o, |results| + 1) && Accrues(start.t, w'.t)
  {
    hide FactsOf, Ready, LeftBehind, ItemQuiet, Hush, Accrues, Ids, WriteOnce, Handled, Shelved, OthersQuiet;
    SameIds(start.t, w.t, o);
    AccruesAgain(start.t, w.t, w'.t);
    ScopeLeavesOthers(c, start.t, start, w, w', o, OneItem(id), |results|);
    OneMoreShelved(c, start, w, w', o, |results|);
  }
}
