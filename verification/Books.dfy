/**
 Money read back from the two append-only logs and from the live tables: account balances,
 period movements from postings and from order events, and the split of each order's amount.
 */
module Books {
  import opened Base
  import opened Tables

  // Which rows a query looks at: one order or all of them, stamps in [from, to).
  datatype Lens = Lens(order: Option<nat>, from: Option<int>, to: Option<int>)

  // All of time, for one order or for all of them.
  function Always(scope: Option<nat>): Lens {
    Lens(scope, None, None)
  }

  predicate Sees(lens: Lens, o: nat, at: int) {
    && (lens.order.Some? ==> lens.order.value == o)
    && (lens.from.Some? ==> lens.from.value <= at)
    && (lens.to.Some? ==> at < lens.to.value)
  }

  // ---- Balances and movements from postings ----

  datatype Balances = Balances(cash: int, customerLiability: int, revenue: int, refunded: int, total: int)

  function Sum(a: Balances, b: Balances): Balances {
    Balances(a.cash + b.cash, a.customerLiability + b.customerLiability, a.revenue + b.revenue,
             a.refunded + b.refunded, a.total + b.total)
  }

  function RowBalance(r: LedgerRow): Balances {
    Balances(
      if r.account == Cash then r.amount else 0,
      if r.account == Liability then -r.amount else 0,
      if r.account == Revenue then -r.amount else 0,
      if r.account == Cash && r.reason == ForRefund then -r.amount else 0,
      r.amount)
  }

  function BalancesOf(ledger: seq<LedgerRow>, lens: Lens): Balances {
    if ledger == [] then Balances(0, 0, 0, 0, 0)
    else
      var b := BalancesOf(ledger[..|ledger| - 1], lens);
      var r := ledger[|ledger| - 1];
      if Sees(lens, r.order, r.at) then Sum(b, RowBalance(r)) else b
  }

  datatype Moved = Moved(paid: int, delivered: int, refunded: int, payments: nat, deliveries: nat, refunds: nat)

  function NothingMoved(): Moved {
    Moved(0, 0, 0, 0, 0, 0)
  }

  function Plus(a: Moved, b: Moved): Moved {
    Moved(a.paid + b.paid, a.delivered + b.delivered, a.refunded + b.refunded,
          a.payments + b.payments, a.deliveries + b.deliveries, a.refunds + b.refunds)
  }

  function RowMoved(r: LedgerRow): Moved {
    if r.account == Cash && r.reason == ForPayment then Moved(r.amount, 0, 0, 1, 0, 0)
    else if r.account == Revenue then Moved(0, -r.amount, 0, 0, 1, 0)
    else if r.account == Cash && r.reason == ForRefund then Moved(0, 0, -r.amount, 0, 0, 1)
    else NothingMoved()
  }

  function LedgerMoved(ledger: seq<LedgerRow>, lens: Lens): Moved {
    if ledger == [] then NothingMoved()
    else
      var m := LedgerMoved(ledger[..|ledger| - 1], lens);
      var r := ledger[|ledger| - 1];
      if Sees(lens, r.order, r.at) then Plus(m, RowMoved(r)) else m
  }

  // ---- The same movements from order events ----

  function DetailAmount(d: MoveDetail): int {
    match d
    case NoDetail => 0
    case Issued(_, _, _, amount) => amount
    case GivenBack(amount, _) => amount
  }

  function EventMoved(body: EventBody): Moved {
    match body
    case OrderCreated(_, _) => NothingMoved()
    case OrderMoved(from, to, paid) =>
      if from == Created && to == Paid then Moved(if paid.Some? then paid.value else 0, 0, 0, 1, 0, 0)
      else NothingMoved()
    case ItemMoved(_, _, to, detail) =>
      if to == Delivered then Moved(0, DetailAmount(detail), 0, 0, 1, 0)
      else if to == Refunded then Moved(0, 0, DetailAmount(detail), 0, 0, 1)
      else NothingMoved()
  }

  function EventsMoved(events: seq<OrderEvent>, lens: Lens): Moved {
    if events == [] then NothingMoved()
    else
      var m := EventsMoved(events[..|events| - 1], lens);
      var e := events[|events| - 1];
      if Sees(lens, e.order, e.at) then Plus(m, EventMoved(e.body)) else m
  }

  // The balances follow from the movements alone, and the same movements are found in the events.
  function BalancesFrom(m: Moved): Balances {
    Balances(m.paid - m.refunded, m.paid - m.delivered - m.refunded, m.delivered, m.refunded, 0)
  }

  ghost predicate LogsAgree(t: Tables, lens: Lens) {
    && BalancesOf(t.ledger, lens) == BalancesFrom(LedgerMoved(t.ledger, lens))
    && EventsMoved(t.events, lens) == LedgerMoved(t.ledger, lens)
  }

  // ---- Live amounts ----

  // Where an order's money is: the price of its delivered, refunded and still open items.
  datatype Split = Split(delivered: int, refunded: int, open: int)

  function ItemSplit(i: Item): Split {
    match i.status
    case Delivered => Split(i.amount, 0, 0)
    case Refunded => Split(0, i.amount, 0)
    case Pending => Split(0, 0, i.amount)
    case Refunding => Split(0, 0, i.amount)
  }

  function SplitOf(items: seq<Item>): Split {
    if items == [] then Split(0, 0, 0)
    else
      var s := SplitOf(items[..|items| - 1]);
      var i := ItemSplit(items[|items| - 1]);
      Split(s.delivered + i.delivered, s.refunded + i.refunded, s.open + i.open)
  }

  datatype Held = Held(paid: int, delivered: int, refunded: int, open: int)

  function Add(a: Held, b: Held): Held {
    Held(a.paid + b.paid, a.delivered + b.delivered, a.refunded + b.refunded, a.open + b.open)
  }

  function NothingHeld(): Held {
    Held(0, 0, 0, 0)
  }

  // Unpaid orders hold no money whatever their items say.
  function HeldBy(order: Order): Held {
    if !IsPaid(order.status) then NothingHeld()
    else
      var s := SplitOf(order.items);
      Held(order.amount, s.delivered, s.refunded, s.open)
  }

  function AllHeld(orders: seq<Order>): Held {
    if orders == [] then NothingHeld()
    else Add(AllHeld(orders[..|orders| - 1]), HeldBy(orders[|orders| - 1]))
  }

  // `scope` is one order, or all of them.
  function TotalHeld(orders: seq<Order>, scope: Option<nat>): Held {
    if scope.None? then AllHeld(orders)
    else if scope.value < |orders| then HeldBy(orders[scope.value])
    else NothingHeld()
  }

  ghost predicate LiveAgrees(t: Tables, scope: Option<nat>) {
    var m := LedgerMoved(t.ledger, Always(scope));
    var h := TotalHeld(t.orders, scope);
    m.paid == h.paid && m.delivered == h.delivered && m.refunded == h.refunded
  }

  // ---- How the sums react to one transaction ----

  lemma AppendRow(ledger: seq<LedgerRow>, r: LedgerRow, lens: Lens)
    ensures LedgerMoved(ledger + [r], lens) ==
            (if Sees(lens, r.order, r.at) then Plus(LedgerMoved(ledger, lens), RowMoved(r)) else LedgerMoved(ledger, lens))
    ensures BalancesOf(ledger + [r], lens) ==
            (if Sees(lens, r.order, r.at) then Sum(BalancesOf(ledger, lens), RowBalance(r)) else BalancesOf(ledger, lens))
  {
    assert (ledger + [r])[..|ledger|] == ledger;
  }

  lemma AppendEvent(events: seq<OrderEvent>, e: OrderEvent, lens: Lens)
    ensures EventsMoved(events + [e], lens) ==
            (if Sees(lens, e.order, e.at) then Plus(EventsMoved(events, lens), EventMoved(e.body)) else EventsMoved(events, lens))
  {
    assert (events + [e])[..|events|] == events;
  }

  // Events that move no money leave every sum alone.
  lemma LogKeepsLogs(t: Tables, o: nat, body: EventBody, now: int, lens: Lens)
    requires LogsAgree(t, lens)
    requires EventMoved(body) == NothingMoved()
    ensures LogsAgree(Log(t, o, body, now), lens)
  {
    AppendEvent(t.events, OrderEvent(o, body, now), lens);
  }

  // A posting pair and the event that explains it, stamped alike.
  ghost predicate Explains(pair: seq<LedgerRow>, e: OrderEvent) {
    && |pair| == 2
    && pair[0].amount + pair[1].amount == 0
    && pair[0].order == pair[1].order == e.order
    && pair[0].at == pair[1].at == e.at
    && pair[0].reason == pair[1].reason
    && (match pair[0].reason
        case ForPayment => pair[0].account == Cash && pair[1].account == Liability
        case ForDelivery => pair[0].account == Liability && pair[1].account == Revenue
        case ForRefund => pair[0].account == Liability && pair[1].account == Cash)
    && EventMoved(e.body) == Plus(RowMoved(pair[0]), RowMoved(pair[1]))
  }

  lemma PairBalances(pair: seq<LedgerRow>, e: OrderEvent)
    requires Explains(pair, e)
    ensures Sum(RowBalance(pair[0]), RowBalance(pair[1])) == BalancesFrom(Plus(RowMoved(pair[0]), RowMoved(pair[1])))
  {
  }

  lemma FoldTwo(b: Balances, m: Moved, b0: Balances, b1: Balances, m0: Moved, m1: Moved)
    requires b == BalancesFrom(m)
    requires Sum(b0, b1) == BalancesFrom(Plus(m0, m1))
    ensures Sum(Sum(b, b0), b1) == BalancesFrom(Plus(m, Plus(m0, m1)))
    ensures Plus(Plus(m, m0), m1) == Plus(m, Plus(m0, m1))
  {
  }

  lemma AppendPair(ledger: seq<LedgerRow>, pair: seq<LedgerRow>, lens: Lens)
    requires |pair| == 2 && pair[0].order == pair[1].order && pair[0].at == pair[1].at
    ensures LedgerMoved(ledger + pair, lens) ==
            (if Sees(lens, pair[0].order, pair[0].at) then Plus(Plus(LedgerMoved(ledger, lens), RowMoved(pair[0])), RowMoved(pair[1]))
             else LedgerMoved(ledger, lens))
    ensures BalancesOf(ledger + pair, lens) ==
            (if Sees(lens, pair[0].order, pair[0].at) then Sum(Sum(BalancesOf(ledger, lens), RowBalance(pair[0])), RowBalance(pair[1]))
             else BalancesOf(ledger, lens))
  {
    AppendRow(ledger, pair[0], lens);
    AppendRow(ledger + [pair[0]], pair[1], lens);
    assert ledger + pair == ledger + [pair[0]] + [pair[1]];
  }

  lemma PairKeepsLogs(t: Tables, t': Tables, pair: seq<LedgerRow>, e: OrderEvent, lens: Lens)
    requires LogsAgree(t, lens)
    requires Explains(pair, e)
    requires t'.ledger == t.ledger + pair && t'.events == t.events + [e]
    ensures LogsAgree(t', lens)
    ensures LedgerMoved(t'.ledger, lens) ==
            (if Sees(lens, e.order, e.at) then Plus(LedgerMoved(t.ledger, lens), EventMoved(e.body))
             else LedgerMoved(t.ledger, lens))
  {
    AppendPair(t.ledger, pair, lens);
    AppendEvent(t.events, e, lens);
    PairBalances(pair, e);
    FoldTwo(BalancesOf(t.ledger, lens), LedgerMoved(t.ledger, lens),
            RowBalance(pair[0]), RowBalance(pair[1]), RowMoved(pair[0]), RowMoved(pair[1]));
  }

  // Changing one item moves its price from one column to another.
  lemma {:induction false} SplitUpdate(items: seq<Item>, k: nat, row: Item)
    requires k < |items|
    ensures var before, after := SplitOf(items), SplitOf(items[k := row]);
            && after.delivered == before.delivered - ItemSplit(items[k]).delivered + ItemSplit(row).delivered
            && after.refunded == before.refunded - ItemSplit(items[k]).refunded + ItemSplit(row).refunded
            && after.open == before.open - ItemSplit(items[k]).open + ItemSplit(row).open
  {
    var n := |items| - 1;
    if k < n {
      SplitUpdate(items[..n], k, row);
      assert items[k := row][..n] == items[..n][k := row];
    } else {
      assert items[k := row][..n] == items[..n];
    }
  }

  lemma {:induction false} HeldUpdate(orders: seq<Order>, o: nat, row: Order)
    requires o < |orders|
    ensures Add(AllHeld(orders[o := row]), HeldBy(orders[o])) == Add(AllHeld(orders), HeldBy(row))
  {
    var n := |orders| - 1;
    if o < n {
      HeldUpdate(orders[..n], o, row);
      assert orders[o := row][..n] == orders[..n][o := row];
    } else {
      assert orders[o := row][..n] == orders[..n];
    }
  }

  // The live columns of any scope follow the change of the one row.
  lemma TotalUpdate(orders: seq<Order>, o: nat, row: Order, scope: Option<nat>)
    requires o < |orders|
    ensures var before, after := TotalHeld(orders, scope), TotalHeld(orders[o := row], scope);
            if Sees(Always(scope), o, 0) then Add(after, HeldBy(orders[o])) == Add(before, HeldBy(row))
            else after == before
  {
    HeldUpdate(orders, o, row);
  }
}
