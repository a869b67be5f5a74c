/**
 Reading the past: an order replayed from its events, and the money of a period reconciled two
 ways. Which histories the replay tells truthfully is settled in `Replays`.
 */
module History {
  import opened Base
  import opened Tables
  import opened Books

  // ---- One order at a moment (stateAt) ----

  datatype ItemView = ItemView(
    amount: int,
    status: ItemStatus,
    delivery: Option<(string, string)>,
    refund: Option<(int, Option<RefundReason>)>)

  datatype OrderView = OrderView(status: OrderStatus, amount: int, items: seq<ItemView>)

  function Until(o: nat, at: int): Lens {
    Lens(Some(o), None, Some(at + 1))
  }

  // The events a query returns, oldest first.
  function Selected(events: seq<OrderEvent>, lens: Lens): seq<OrderEvent> {
    if events == [] then []
    else
      var rest := Selected(events[..|events| - 1], lens);
      var e := events[|events| - 1];
      if Sees(lens, e.order, e.at) then rest + [e] else rest
  }

  function Fresh(items: seq<Item>): seq<ItemView> {
    seq(|items|, k requires 0 <= k < |items| => ItemView(items[k].amount, Pending, None, None))
  }

  function Moving(i: ItemView, to: ItemStatus, detail: MoveDetail): ItemView {
    var moved := i.(status := to);
    match detail
    case Issued(code, supplier, _, _) => if to == Delivered then moved.(delivery := Some((code, supplier))) else moved
    case GivenBack(amount, reason) => if to == Refunded then moved.(refund := Some((amount, reason))) else moved
    case NoDetail => moved
  }

  function ApplyEvent(v: OrderView, body: EventBody): OrderView {
    match body
    case OrderCreated(_, _) => v
    case OrderMoved(_, to, _) => v.(status := to)
    case ItemMoved(position, _, to, detail) =>
      if position < |v.items| then v.(items := v.items[position := Moving(v.items[position], to, detail)]) else v
  }

  // The fold of an order's events; nothing when they do not begin with its creation.
  function Replay(es: seq<OrderEvent>): Option<OrderView> {
    if es == [] then None
    else if |es| == 1 then
      match es[0].body
      case OrderCreated(amount, items) => Some(OrderView(Created, amount, Fresh(items)))
      case _ => None
    else
      match Replay(es[..|es| - 1])
      case None => None
      case Some(v) => Some(ApplyEvent(v, es[|es| - 1].body))
  }

  lemma {:induction false} ReplayNeedsCreation(es: seq<OrderEvent>)
    requires es != [] && !es[0].body.OrderCreated?
    ensures Replay(es) == None
  {
    if |es| > 1 {
      ReplayNeedsCreation(es[..|es| - 1]);
    }
  }

  method StateAt(events: seq<OrderEvent>, o: nat, at: int) returns (r: Option<OrderView>)
    ensures r == Replay(Selected(events, Until(o, at)))
  {
    var es := Selected(events, Until(o, at));
    if |es| == 0 || !es[0].body.OrderCreated? {
      if |es| > 0 {
        ReplayNeedsCreation(es);
      }
      return None;
    }
    var status, items := Created, Fresh(es[0].body.items);
    assert es[..1] == [es[0]];
    for n := 1 to |es|
      invariant Replay(es[..n]) == Some(OrderView(status, es[0].body.amount, items))
    {
      assert es[..n + 1][..n] == es[..n];
      match es[n].body {
        case OrderMoved(_, to, _) =>
          status := to;
        case ItemMoved(position, _, to, detail) =>
          if position < |items| {
            items := items[position := Moving(items[position], to, detail)];
          }
        case OrderCreated(_, _) =>
      }
    }
    assert es[..|es|] == es;
    return Some(OrderView(status, es[0].body.amount, items));
  }

  // ---- The same order from the live tables (orders.service.ts, get) ----

  function LiveItem(t: Tables, key: ItemKey): ItemView
    requires ValidKey(t, key)
  {
    ItemView(
      ItemAt(t, key).amount,
      ItemAt(t, key).status,
      if key in t.deliveries then Some((t.deliveries[key].code, t.deliveries[key].supplier)) else None,
      if key in t.refunds then Some((t.refunds[key].amount, Some(t.refunds[key].reason))) else None)
  }

  function LiveOrder(t: Tables, o: nat): OrderView
    requires o < |t.orders|
  {
    var row := t.orders[o];
    OrderView(row.status, row.amount,
              seq(|row.items|, k requires 0 <= k < |row.items| => LiveItem(t, ItemKey(o, k))))
  }

  datatype MoneyView = MoneyView(paid: int, delivered: int, refunded: int, pending: int)

  function AmountIn(items: seq<ItemView>, want: set<ItemStatus>): int {
    if items == [] then 0
    else
      AmountIn(items[..|items| - 1], want) + (if items[|items| - 1].status in want then items[|items| - 1].amount else 0)
  }

  function MoneyIn(v: OrderView): MoneyView {
    var paid := if IsPaid(v.status) then v.amount else 0;
    MoneyView(paid, AmountIn(v.items, {Delivered}), AmountIn(v.items, {Refunded}),
              if paid == 0 then 0 else AmountIn(v.items, {Pending, Refunding}))
  }

  // ---- Money of a period (moneyBetween) ----

  function Before(x: int): Lens {
    Lens(None, None, Some(x))
  }

  function Between(from: int, to: int): Lens {
    Lens(None, Some(from), Some(to))
  }

  datatype Period = Period(
    opening: Balances, moved: Moved, closing: Balances, events: Moved, balanced: bool, eventsAgree: bool)

  function MoneyBetween(t: Tables, from: int, to: int): Period {
    MoneyRead(t, t, t, t, from, to)
  }

  // Movements, events, opening and closing balances are read one after the other.
  function MoneyRead(t1: Tables, t2: Tables, t3: Tables, t4: Tables, from: int, to: int): Period {
    var moved := LedgerMoved(t1.ledger, Between(from, to));
    var events := EventsMoved(t2.events, Between(from, to));
    var opening, closing := BalancesOf(t3.ledger, Before(from)), BalancesOf(t4.ledger, Before(to));
    Period(opening, moved, closing, events,
           && closing.cash == opening.cash + moved.paid - moved.refunded
           && closing.customerLiability == opening.customerLiability + moved.paid - moved.delivered - moved.refunded
           && closing.revenue == opening.revenue + moved.delivered,
           events == moved)
  }

  // What was written in between is stamped at `to` or later.
  ghost predicate WritesLater(t: Tables, t': Tables, to: int) {
    && t.ledger <= t'.ledger && t.events <= t'.events
    && (forall i | |t.ledger| <= i < |t'.ledger| :: t'.ledger[i].at >= to)
    && (forall i | |t.events| <= i < |t'.events| :: t'.events[i].at >= to)
  }

  lemma {:induction false} LaterRows(ledger: seq<LedgerRow>, ledger': seq<LedgerRow>, lens: Lens, to: int)
    requires ledger <= ledger' && (forall i | |ledger| <= i < |ledger'| :: ledger'[i].at >= to)
    requires lens.to.Some? && lens.to.value <= to
    ensures LedgerMoved(ledger', lens) == LedgerMoved(ledger, lens) && BalancesOf(ledger', lens) == BalancesOf(ledger, lens)
  {
    if |ledger'| > |ledger| {
      LaterRows(ledger, ledger'[..|ledger'| - 1], lens, to);
    } else {
      assert ledger' == ledger;
    }
  }

  lemma {:induction false} LaterEvents(events: seq<OrderEvent>, events': seq<OrderEvent>, lens: Lens, to: int)
    requires events <= events' && (forall i | |events| <= i < |events'| :: events'[i].at >= to)
    requires lens.to.Some? && lens.to.value <= to
    ensures EventsMoved(events', lens) == EventsMoved(events, lens)
  {
    if |events'| > |events| {
      LaterEvents(events, events'[..|events'| - 1], lens, to);
    } else {
      assert events' == events;
    }
  }

  // A period that is over reads the same however its queries are spread.
  lemma PeriodReadApart(t1: Tables, t2: Tables, t3: Tables, t4: Tables, from: int, to: int)
    requires from <= to && WritesLater(t1, t2, to) && WritesLater(t2, t3, to) && WritesLater(t3, t4, to)
    ensures MoneyRead(t1, t2, t3, t4, from, to) == MoneyBetween(t1, from, to)
  {
    LaterEvents(t1.events, t2.events, Between(from, to), to);
    LaterRows(t1.ledger, t2.ledger, Before(from), to);
    LaterRows(t2.ledger, t3.ledger, Before(from), to);
    LaterRows(t1.ledger, t2.ledger, Before(to), to);
    LaterRows(t2.ledger, t3.ledger, Before(to), to);
    LaterRows(t3.ledger, t4.ledger, Before(to), to);
    hide LedgerMoved, EventsMoved, BalancesOf;
  }

  // Lens `c` sees exactly what `a` and `b` see, and no row is seen by both.
  ghost predicate Splits(c: Lens, a: Lens, b: Lens) {
    forall o: nat, at: int {:trigger Sees(c, o, at)} ::
      && (Sees(c, o, at) <==> Sees(a, o, at) || Sees(b, o, at))
      && !(Sees(a, o, at) && Sees(b, o, at))
  }

  lemma MovedStep(ledger: seq<LedgerRow>, lens: Lens)
    ensures LedgerMoved(ledger, lens) ==
            if ledger == [] then NothingMoved()
            else
              var r, front := ledger[|ledger| - 1], LedgerMoved(ledger[..|ledger| - 1], lens);
              if Sees(lens, r.order, r.at) then Plus(front, RowMoved(r)) else front
  {
  }

  lemma PlusMoves(a: Moved, b: Moved, x: Moved)
    ensures Plus(Plus(a, x), b) == Plus(Plus(a, b), x) && Plus(a, Plus(b, x)) == Plus(Plus(a, b), x)
    ensures Plus(NothingMoved(), NothingMoved()) == NothingMoved()
  {
  }

  lemma {:induction false} SplitMoved(ledger: seq<LedgerRow>, c: Lens, a: Lens, b: Lens)
    requires Splits(c, a, b)
    ensures LedgerMoved(ledger, c) == Plus(LedgerMoved(ledger, a), LedgerMoved(ledger, b))
  {
    hide LedgerMoved, Sees, RowMoved, Plus, NothingMoved;
    MovedStep(ledger, a);
    MovedStep(ledger, b);
    MovedStep(ledger, c);
    PlusMoves(NothingMoved(), NothingMoved(), NothingMoved());
    if ledger != [] {
      var r, front := ledger[|ledger| - 1], ledger[..|ledger| - 1];
      SplitMoved(front, c, a, b);
      PlusMoves(LedgerMoved(front, a), LedgerMoved(front, b), RowMoved(r));
      assert Sees(c, r.order, r.at) <==> Sees(a, r.order, r.at) || Sees(b, r.order, r.at);
    }
  }

  // Consecutive periods add up, postings and counts alike.
  lemma PeriodsAddUp(t: Tables, a: int, b: int, c: int)
    requires a <= b <= c
    ensures MoneyBetween(t, a, c).moved == Plus(MoneyBetween(t, a, b).moved, MoneyBetween(t, b, c).moved)
  {
    SplitMoved(t.ledger, Between(a, c), Between(a, b), Between(b, c));
  }

  // Balances before and after differ by what moved in between.
  lemma BalancesDiffer(t: Tables, before: Lens, during: Lens, after: Lens)
    requires LogsAgree(t, before) && LogsAgree(t, after) && Splits(after, before, during)
    ensures var o, m, c := BalancesOf(t.ledger, before), LedgerMoved(t.ledger, during), BalancesOf(t.ledger, after);
            && c.cash == o.cash + m.paid - m.refunded
            && c.customerLiability == o.customerLiability + m.paid - m.delivered - m.refunded
            && c.revenue == o.revenue + m.delivered
  {
    SplitMoved(t.ledger, after, before, during);
    hide LedgerMoved, BalancesOf, EventsMoved;
  }

  // What cash and revenue gained from one moment to another.
  function Gained(a: Moved, b: Moved): (int, int) {
    (b.paid - b.refunded - (a.paid - a.refunded), b.delivered - a.delivered)
  }

  // A period whose queries are read one after the other, wherever the two logs agree. The events match
  // iff the ledger's part of the period was the same at their query as at the first. The rest balances
  // iff what came into the period since the first query, and into the time before it since the
  // opening balances were read, leaves cash and revenue as they were.
  lemma PeriodReconciles(t1: Tables, t2: Tables, t3: Tables, t4: Tables, from: int, to: int)
    requires forall lens :: LogsAgree(t2, lens) && LogsAgree(t3, lens) && LogsAgree(t4, lens)
    requires from <= to
    ensures MoneyRead(t1, t2, t3, t4, from, to).eventsAgree <==>
            LedgerMoved(t2.ledger, Between(from, to)) == LedgerMoved(t1.ledger, Between(from, to))
    ensures MoneyRead(t1, t2, t3, t4, from, to).balanced <==>
            var during := Gained(LedgerMoved(t1.ledger, Between(from, to)), LedgerMoved(t4.ledger, Between(from, to)));
            var before := Gained(LedgerMoved(t3.ledger, Before(from)), LedgerMoved(t4.ledger, Before(from)));
            during.0 + before.0 == 0 && during.1 + before.1 == 0
  {
    hide LedgerMoved, BalancesOf, EventsMoved;
    var before, during, after := Before(from), Between(from, to), Before(to);
    assert LogsAgree(t2, during) && LogsAgree(t3, before);
    assert LogsAgree(t4, before) && LogsAgree(t4, after);
    BalancesDiffer(t4, before, during, after);
  }

  // With its ends swapped a period sees no movements, so it balances only when none of the three
  // accounts changed in between.
  lemma SwappedPeriod(t: Tables, from: int, to: int)
    requires forall lens :: LogsAgree(t, lens)
    requires to < from
    ensures MoneyBetween(t, from, to).balanced <==>
            var b := BalancesOf(t.ledger, Between(to, from)); b.cash == 0 && b.customerLiability == 0 && b.revenue == 0
  {
    hide LedgerMoved, BalancesOf, EventsMoved;
    EmptyPeriod(t.ledger, from, to);
    var before, during, after := Before(to), Between(to, from), Before(from);
    assert LogsAgree(t, before) && LogsAgree(t, during) && LogsAgree(t, after);
    BalancesDiffer(t, before, during, after);
    BalancesOfMoved(BalancesOf(t.ledger, during), LedgerMoved(t.ledger, during));
  }

  lemma BalancesOfMoved(b: Balances, m: Moved)
    requires b == BalancesFrom(m)
    ensures b.cash == m.paid - m.refunded && b.customerLiability == m.paid - m.delivered - m.refunded && b.revenue == m.delivered
  {
  }

  lemma {:induction false} EmptyPeriod(ledger: seq<LedgerRow>, from: int, to: int)
    requires to <= from
    ensures LedgerMoved(ledger, Between(from, to)) == NothingMoved()
  {
    if ledger != [] {
      EmptyPeriod(ledger[..|ledger| - 1], from, to);
    }
  }
}
