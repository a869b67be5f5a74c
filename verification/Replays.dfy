/**
 When an item's history tells the truth. A decision writes its event in a second commit, which can
 be lost until the refund makes up for it, or come late: after somebody else has already refunded
 the item. Replay agrees with the live tables on exactly the items with no such gap; `Statuses` has
 the same for the order's own status.
 */
module Replays {
  import opened Base
  import opened Tables
  import opened Books
  import opened Consistency
  import opened Transactions
  import opened Queue
  import opened Machine
  import opened Safety
  import opened History

  function ReplayOf(t: Tables, o: nat): Option<OrderView> {
    Replay(Selected(t.events, Always(Some(o))))
  }

  // Where an item's history lags behind: decisions written late, and decisions not written yet.
  datatype Gaps = Gaps(late: set<ItemKey>, unwritten: set<ItemKey>)

  ghost predicate ItemTold(v: ItemView, live: ItemView, gaps: Gaps, key: ItemKey) {
    if key in gaps.late then
      key !in gaps.unwritten && live.status == Refunded && v.status == Refunding && v.amount == live.amount
    else if key in gaps.unwritten then
      live.status == Refunding && v == live.(status := Pending)
    else
      v == live
  }

  predicate SameGaps(gaps: Gaps, gaps': Gaps, key: ItemKey) {
    (key in gaps'.late <==> key in gaps.late) && (key in gaps'.unwritten <==> key in gaps.unwritten)
  }

  ghost predicate OrderTold(t: Tables, o: nat, gaps: Gaps)
    requires o < |t.orders|
  {
    var r := ReplayOf(t, o);
    && r.Some?
    && r.value.amount == t.orders[o].amount
    && IsPaid(r.value.status) == IsPaid(t.orders[o].status)
    && |r.value.items| == |t.orders[o].items|
    && forall k: nat | k < |r.value.items| ::
         ItemTold(r.value.items[k], LiveItem(t, ItemKey(o, k)), gaps, ItemKey(o, k))
  }

  ghost predicate EventsBelong(t: Tables) {
    forall i | 0 <= i < |t.events| :: t.events[i].order < |t.orders|
  }

  ghost predicate Told(t: Tables, gaps: Gaps) {
    EventsBelong(t) && forall o: nat | o < |t.orders| :: OrderTold(t, o, gaps)
  }

  // The event of a decision arrives after the refund that followed from it.
  predicate IsLate(s: State, a: Action) {
    && a.Document?
    && var x := At(s, a.w);
    AtItem(x) && x.phase.Undocumented? && ValidKey(s.t, KeyOf(x)) && ItemAt(s.t, KeyOf(x)).status == Refunded
  }

  // The items whose decision was written late in this schedule.
  function LateDecisions(actions: seq<Action>): set<ItemKey> {
    if actions == [] then {}
    else
      var before, a := actions[..|actions| - 1], actions[|actions| - 1];
      LateDecisions(before) + (if IsLate(Run(before), a) then {KeyOf(At(Run(before), a.w))} else {})
  }

  // This step changes the item's status and leaves the event for later.
  predicate Decides(s: State, a: Action) {
    && a.GiveUp?
    && var x := At(s, a.w);
    AtItem(x) && x.phase.Start? && x.items[x.next].status == Pending && Decide(s.t, KeyOf(x), a.reason).Some?
  }

  // This step writes the decision's event, or the event of the refund it led to.
  predicate Resolves(s: State, a: Action) {
    && (a.Document? || a.Settle?)
    && var x := At(s, a.w);
    && AtItem(x)
    && (if a.Document? then x.phase.Undocumented?
        else x.phase.Given? && BookRefund(s.t, KeyOf(x), x.items[x.next], a.now).Some?)
  }

  // The items decided on in this schedule with neither event written yet.
  function UnwrittenDecisions(actions: seq<Action>): set<ItemKey> {
    if actions == [] then {}
    else
      var s, a := Run(actions[..|actions| - 1]), actions[|actions| - 1];
      var before := UnwrittenDecisions(actions[..|actions| - 1]);
      if Decides(s, a) then before + {KeyOf(At(s, a.w))}
      else if Resolves(s, a) then before - {KeyOf(At(s, a.w))}
      else before
  }

  function GapsOf(actions: seq<Action>): Gaps {
    Gaps(LateDecisions(actions), UnwrittenDecisions(actions))
  }

  ghost predicate GapsOk(t: Tables, gaps: Gaps) {
    && (forall key | key in gaps.late :: ValidKey(t, key) && ItemAt(t, key).status == Refunded)
    && (forall key | key in gaps.unwritten :: ValidKey(t, key))
  }

  // ---- One event at a time ----

  lemma SelectedAppend(events: seq<OrderEvent>, e: OrderEvent, lens: Lens)
    ensures Selected(events + [e], lens) == if Sees(lens, e.order, e.at) then Selected(events, lens) + [e] else Selected(events, lens)
  {
    assert (events + [e])[..|events|] == events;
  }

  lemma {:induction false} NoneSelected(events: seq<OrderEvent>, o: nat)
    requires forall i | 0 <= i < |events| :: events[i].order != o
    ensures Selected(events, Always(Some(o))) == []
  {
    if events != [] {
      NoneSelected(events[..|events| - 1], o);
    }
  }

  lemma ReplayAppend(t: Tables, t': Tables, e: OrderEvent, o: nat)
    requires t'.events == t.events + [e]
    requires ReplayOf(t, o).Some?
    ensures ReplayOf(t', o) == if e.order == o then Some(ApplyEvent(ReplayOf(t, o).value, e.body)) else ReplayOf(t, o)
  {
    var es := Selected(t.events, Always(Some(o)));
    SelectedAppend(t.events, e, Always(Some(o)));
    assert (es + [e])[..|es|] == es;
  }

  // Orders the step did not touch.
  lemma Untouched(t: Tables, t': Tables, o: nat, gaps: Gaps, gaps': Gaps)
    requires o < |t.orders| && o < |t'.orders| && OrderTold(t, o, gaps)
    requires t'.orders[o].items == t.orders[o].items && t'.orders[o].amount == t.orders[o].amount
    requires IsPaid(t'.orders[o].status) == IsPaid(t.orders[o].status)
    requires forall k: nat :: ItemKey(o, k) in t'.deliveries <==> ItemKey(o, k) in t.deliveries
    requires forall k: nat | ItemKey(o, k) in t.deliveries :: t'.deliveries[ItemKey(o, k)] == t.deliveries[ItemKey(o, k)]
    requires forall k: nat :: ItemKey(o, k) in t'.refunds <==> ItemKey(o, k) in t.refunds
    requires forall k: nat | ItemKey(o, k) in t.refunds :: t'.refunds[ItemKey(o, k)] == t.refunds[ItemKey(o, k)]
    requires forall k: nat :: SameGaps(gaps, gaps', ItemKey(o, k))
    requires ReplayOf(t', o) == ReplayOf(t, o)
    ensures OrderTold(t', o, gaps')
  {
    var v := ReplayOf(t, o).value;
    forall k: nat | k < |v.items|
      ensures ItemTold(v.items[k], LiveItem(t', ItemKey(o, k)), gaps', ItemKey(o, k))
    {
      assert LiveItem(t', ItemKey(o, k)) == LiveItem(t, ItemKey(o, k));
    }
  }

  // No event is written and no item moves.
  lemma SilentStep(t: Tables, t': Tables, gaps: Gaps)
    requires Told(t, gaps) && t'.events == t.events
    requires SameItems(t, t') && t'.deliveries == t.deliveries && t'.refunds == t.refunds
    requires forall o: nat | o < |t.orders| ::
               t'.orders[o].amount == t.orders[o].amount && IsPaid(t'.orders[o].status) == IsPaid(t.orders[o].status)
    ensures Told(t', gaps)
  {
    forall o: nat | o < |t'.orders| ensures OrderTold(t', o, gaps) {
      assert OrderTold(t, o, gaps);
      Untouched(t, t', o, gaps, gaps);
    }
  }

  // The decision itself writes no event either.
  lemma DecisionStep(t: Tables, t': Tables, key: ItemKey, gaps: Gaps)
    requires Told(t, gaps) && ValidKey(t, key) && ValidKey(t', key) && t'.events == t.events
    requires t'.orders == WithItem(t, key, ItemAt(t', key)).orders && ItemAt(t', key).amount == ItemAt(t, key).amount
    requires ItemAt(t, key).status == Pending && ItemAt(t', key).status == Refunding
    requires t'.deliveries == t.deliveries && t'.refunds == t.refunds
    ensures Told(t', gaps.(unwritten := gaps.unwritten + {key}))
  {
    var gaps' := gaps.(unwritten := gaps.unwritten + {key});
    forall o: nat | o < |t'.orders| ensures OrderTold(t', o, gaps') {
      assert OrderTold(t, o, gaps);
      if o != key.order {
        Untouched(t, t', o, gaps, gaps');
      } else {
        forall k: nat | k < |t'.orders[o].items|
          ensures ItemTold(ReplayOf(t', o).value.items[k], LiveItem(t', ItemKey(o, k)), gaps', ItemKey(o, k))
        {
          assert ItemTold(ReplayOf(t, o).value.items[k], LiveItem(t, ItemKey(o, k)), gaps, ItemKey(o, k));
          if ItemKey(o, k) != key {
            assert LiveItem(t', ItemKey(o, k)) == LiveItem(t, ItemKey(o, k));
          }
        }
      }
    }
  }

  // An order's status event that matches what the order now is, as far as payment goes.
  lemma StatusStep(t: Tables, t': Tables, o: nat, e: OrderEvent, gaps: Gaps)
    requires Told(t, gaps) && t'.events == t.events + [e] && e.order == o && e.body.OrderMoved?
    requires o < |t.orders| == |t'.orders| && SameItems(t, t')
    requires t'.deliveries == t.deliveries && t'.refunds == t.refunds
    requires forall p: nat | p < |t.orders| ::
               t'.orders[p].amount == t.orders[p].amount && (p != o ==> t'.orders[p].status == t.orders[p].status)
    requires IsPaid(e.body.to) == IsPaid(t'.orders[o].status)
    ensures Told(t', gaps)
  {
    forall p: nat | p < |t'.orders| ensures OrderTold(t', p, gaps) {
      assert OrderTold(t, p, gaps);
      ReplayAppend(t, t', e, p);
      if p != o {
        Untouched(t, t', p, gaps, gaps);
      } else {
        forall k: nat | k < |t.orders[o].items|
          ensures ItemTold(ReplayOf(t', o).value.items[k], LiveItem(t', ItemKey(o, k)), gaps, ItemKey(o, k))
        {
          assert LiveItem(t', ItemKey(o, k)) == LiveItem(t, ItemKey(o, k));
          assert ItemTold(ReplayOf(t, o).value.items[k], LiveItem(t, ItemKey(o, k)), gaps, ItemKey(o, k));
        }
      }
    }
  }

  lemma CreatedStep(t: Tables, t': Tables, row: Order, now: int, gaps: Gaps)
    requires Told(t, gaps) && KeysOk(t)
    requires row.status == Created && (forall k | 0 <= k < |row.items| :: row.items[k].status == Pending)
    requires GapsOk(t, gaps)
    requires t' == Log(t.(orders := t.orders + [row]), |t.orders|, OrderCreated(row.amount, row.items), now)
    ensures Told(t', gaps)
  {
    var e := OrderEvent(|t.orders|, OrderCreated(row.amount, row.items), now);
    forall p: nat | p < |t'.orders| ensures OrderTold(t', p, gaps) {
      SelectedAppend(t.events, e, Always(Some(p)));
      if p < |t.orders| {
        assert OrderTold(t, p, gaps);
        Untouched(t, t', p, gaps, gaps);
      } else {
        NoneSelected(t.events, p);
        assert Selected(t'.events, Always(Some(p))) == [e];
        forall k: nat | k < |row.items|
          ensures ItemTold(ReplayOf(t', p).value.items[k], LiveItem(t', ItemKey(p, k)), gaps, ItemKey(p, k))
        {
          assert KeyOk(t, ItemKey(p, k));
        }
      }
    }
  }

  // An item's event: the item's own story after it, everything else as before.
  lemma ItemStep(t: Tables, t': Tables, key: ItemKey, e: OrderEvent, gaps: Gaps, gaps': Gaps)
    requires Told(t, gaps) && ValidKey(t, key) && ValidKey(t', key)
    requires t'.events == t.events + [e] && e.order == key.order && e.body.ItemMoved? && e.body.position == key.position
    requires t'.orders == WithItem(t, key, ItemAt(t', key)).orders && ItemAt(t', key).amount == ItemAt(t, key).amount
    requires forall a | a != key :: a in t'.deliveries <==> a in t.deliveries
    requires forall a | a != key && a in t.deliveries :: t'.deliveries[a] == t.deliveries[a]
    requires forall a | a != key :: a in t'.refunds <==> a in t.refunds
    requires forall a | a != key && a in t.refunds :: t'.refunds[a] == t.refunds[a]
    requires forall a | a != key :: SameGaps(gaps, gaps', a)
    requires forall v: ItemView | ItemTold(v, LiveItem(t, key), gaps, key) ::
               ItemTold(Moving(v, e.body.toItem, e.body.detail), LiveItem(t', key), gaps', key)
    ensures Told(t', gaps')
  {
    forall p: nat | p < |t'.orders| ensures OrderTold(t', p, gaps') {
      assert OrderTold(t, p, gaps);
      ReplayAppend(t, t', e, p);
      if p != key.order {
        Untouched(t, t', p, gaps, gaps');
      } else {
        ItemStepOwn(t, t', key, e, gaps, gaps');
      }
    }
  }

  lemma ItemStepOwn(t: Tables, t': Tables, key: ItemKey, e: OrderEvent, gaps: Gaps, gaps': Gaps)
    requires ValidKey(t, key) && ValidKey(t', key) && OrderTold(t, key.order, gaps)
    requires e.body.ItemMoved? && e.body.position == key.position
    requires ReplayOf(t', key.order) == Some(ApplyEvent(ReplayOf(t, key.order).value, e.body))
    requires t'.orders == WithItem(t, key, ItemAt(t', key)).orders
    requires forall a | a != key :: a in t'.deliveries <==> a in t.deliveries
    requires forall a | a != key && a in t.deliveries :: t'.deliveries[a] == t.deliveries[a]
    requires forall a | a != key :: a in t'.refunds <==> a in t.refunds
    requires forall a | a != key && a in t.refunds :: t'.refunds[a] == t.refunds[a]
    requires forall a | a != key :: SameGaps(gaps, gaps', a)
    requires forall v: ItemView | ItemTold(v, LiveItem(t, key), gaps, key) ::
               ItemTold(Moving(v, e.body.toItem, e.body.detail), LiveItem(t', key), gaps', key)
    ensures OrderTold(t', key.order, gaps')
  {
    var o := key.order;
    var v, v' := ReplayOf(t, o).value, ReplayOf(t', o).value;
    forall k: nat | k < |v'.items|
      ensures ItemTold(v'.items[k], LiveItem(t', ItemKey(o, k)), gaps', ItemKey(o, k))
    {
      var a := ItemKey(o, k);
      assert ItemTold(v.items[k], LiveItem(t, a), gaps, a);
      if a != key {
        assert LiveItem(t', a) == LiveItem(t, a);
        assert SameGaps(gaps, gaps', a);
      }
    }
  }
}
