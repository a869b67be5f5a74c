/**
 Fulfilment as a step machine: any number of workers (stale ones included), recovery sweeps,
 operator retries, webhooks, dishonest suppliers and crashes, one committed transaction or one
 remote call per step, in any order.
 */
module Machine {
  import opened Base
  import opened Tables
  import opened Books
  import opened RequestIds
  import opened Consistency
  import opened Transactions
  import opened Queue

  // Where a pass stands on the item it is handling.
  datatype Phase =
    | Start
    | Confirmed(supplier: string, requestId: string, code: string)  // the book shows this code
    | Undocumented(reason: RefundReason)  // decided; the decision's event is not written yet
    | Giving                              // about to ask the payment provider
    | Given                               // the provider acknowledged

  // A worker remembers what it read; the tables may have moved on since.
  datatype Worker =
    | Idle
    | Claimed(order: nat)
    | Pass(order: nat, items: seq<Item>, next: nat, phase: Phase)
    | Judging(order: nat, items: seq<Item>)
    | Owing(order: nat, from: OrderStatus, to: OrderStatus)  // status moved; its event is not written yet
    | Sweeping(order: nat, previous: OrderStatus)            // selected for requeueing

  datatype Payout = Payout(item: ItemKey, amount: int)

  type Book = map<(string, string), string>

  datatype State = State(t: Tables, payouts: seq<Payout>, book: Book, workers: map<nat, Worker>)

  const INITIAL := State(EMPTY, [], map[], map[])

  datatype Action =
    | Create(currency: string, units: seq<Unit>, now: int)
    | Receive(webhook: Webhook, now: int)
    | ClaimOrder(w: nat, o: nat, now: int)
    | ReadItems(w: nat)
    | Skip(w: nat)
    | Confirm(w: nat, supplier: string, round: nat)
    | Deliver(w: nat, now: int)
    | GiveUp(w: nat, reason: RefundReason)
    | Document(w: nat, now: int)
    | Resume(w: nat)
    | CallProvider(w: nat, recorded: bool, answered: bool)
    | Settle(w: nat, now: int)
    | ReadVerdict(w: nat)
    | Finish(w: nat, deferral: Option<int>)
    | WriteMove(w: nat, now: int)
    | Retry(w: nat, o: nat)
    | SelectStale(w: nat, o: nat)
    | Sweep(w: nat, now: int)
    | Die(w: nat)
    | BookCode(supplier: string, requestId: string, code: string)

  function At(s: State, w: nat): Worker {
    if w in s.workers then s.workers[w] else Idle
  }

  function Put(s: State, w: nat, x: Worker): State {
    s.(workers := s.workers[w := x])
  }

  function PutT(s: State, t: Tables, w: nat, x: Worker): State {
    State(t, s.payouts, s.book, s.workers[w := x])
  }

  predicate AtItem(x: Worker) {
    x.Pass? && x.next < |x.items|
  }

  function KeyOf(x: Worker): ItemKey
    requires x.Pass?
  {
    ItemKey(x.order, x.next)
  }

  predicate PaidOut(payouts: seq<Payout>, key: ItemKey) {
    exists i | 0 <= i < |payouts| :: payouts[i].item == key
  }

  // The provider moves money once per item, however often it is asked.
  function PayOut(payouts: seq<Payout>, key: ItemKey, amount: int): seq<Payout> {
    if PaidOut(payouts, key) then payouts else payouts + [Payout(key, amount)]
  }

  predicate IdsFree(t: Tables, units: seq<Unit>) {
    && (forall k | 0 <= k < |units| :: ':' !in units[k].id)
    && (forall j, k | 0 <= j < k < |units| :: units[j].id != units[k].id)
    && (forall o, p, k | 0 <= o < |t.orders| && 0 <= p < |t.orders[o].items| && 0 <= k < |units| ::
          t.orders[o].items[p].id != units[k].id)
  }

  lemma FreeIsFresh(t: Tables, units: seq<Unit>)
    requires IdsFree(t, units)
    ensures FreshIds(t, units)
  {
    forall key, k | ValidKey(t, key) && 0 <= k < |units| ensures ItemAt(t, key).id != units[k].id {
      assert t.orders[key.order].items[key.position].id != units[k].id;
    }
  }

  // ---- One function per step; a step that is not enabled changes nothing ----

  function DoCreate(s: State, currency: string, units: seq<Unit>, now: int): State {
    if !IdsFree(s.t, units) then s
    else (match CreateOrder(s.t, currency, units, now) case None => s case Some(t) => s.(t := t))
  }

  function DoReceive(s: State, webhook: Webhook, now: int): State {
    (match HandleWebhook(s.t, webhook, now) case None => s case Some(r) => s.(t := r.0))
  }

  function DoClaimOrder(s: State, w: nat, o: nat, now: int): State {
    if At(s, w) != Idle then s
    else (match Claim(s.t, o, now) case None => s case Some(t) => PutT(s, t, w, Claimed(o)))
  }

  function DoReadItems(s: State, w: nat): State {
    var x := At(s, w);
    if x.Claimed? && x.order < |s.t.orders| then Put(s, w, Pass(x.order, s.t.orders[x.order].items, 0, Start)) else s
  }

  function DoSkip(s: State, w: nat): State {
    var x := At(s, w);
    if AtItem(x) && x.phase.Start? then Put(s, w, x.(next := x.next + 1, phase := Start)) else s
  }

  function DoConfirm(s: State, w: nat, supplier: string, round: nat): State {
    var x := At(s, w);
    if !(AtItem(x) && x.phase.Start? && x.items[x.next].status == Pending && round >= 1 && ':' !in supplier) then s
    else
      var requestId := RequestId(x.items[x.next].id, supplier, round);
      if (supplier, requestId) !in s.book then s
      else Put(s, w, x.(phase := Confirmed(supplier, requestId, s.book[(supplier, requestId)])))
  }

  function DoDeliver(s: State, w: nat, now: int): State {
    var x := At(s, w);
    if !(AtItem(x) && x.phase.Confirmed?) then s
    else
      var d := Delivery(x.phase.requestId, x.phase.supplier, x.phase.code);
      (match Complete(s.t, KeyOf(x), x.items[x.next].amount, d, now)
       case Done(t) => PutT(s, t, w, x.(next := x.next + 1, phase := Start))
       case CodeAlreadyDelivered => Put(s, w, x.(phase := Start))
       case Refused => Put(s, w, Idle))
  }

  function DoGiveUp(s: State, w: nat, reason: RefundReason): State {
    var x := At(s, w);
    if !(AtItem(x) && x.phase.Start? && x.items[x.next].status == Pending) then s
    else
      (match Decide(s.t, KeyOf(x), reason)
       case None => Put(s, w, Idle)
       case Some(t) =>
         var row := x.items[x.next].(status := Refunding, refundReason := Some(reason));
         PutT(s, t, w, x.(items := x.items[x.next := row], phase := Undocumented(reason))))
  }

  function DoDocument(s: State, w: nat, now: int): State {
    var x := At(s, w);
    if !(AtItem(x) && x.phase.Undocumented?) then s
    else PutT(s, LogDecision(s.t, KeyOf(x), x.items[x.next].amount, x.phase.reason, now), w, x.(phase := Giving))
  }

  function DoResume(s: State, w: nat): State {
    var x := At(s, w);
    if AtItem(x) && x.phase.Start? && x.items[x.next].status == Refunding then Put(s, w, x.(phase := Giving)) else s
  }

  function DoCallProvider(s: State, w: nat, recorded: bool, answered: bool): State {
    var x := At(s, w);
    if !(AtItem(x) && x.phase.Giving?) then s
    else if !recorded then Put(s, w, x.(next := x.next + 1, phase := Start))
    else
      var y := if answered then x.(phase := Given) else x.(next := x.next + 1, phase := Start);
      Put(s.(payouts := PayOut(s.payouts, KeyOf(x), x.items[x.next].amount)), w, y)
  }

  function DoSettle(s: State, w: nat, now: int): State {
    var x := At(s, w);
    if !(AtItem(x) && x.phase.Given?) then s
    else
      (match BookRefund(s.t, KeyOf(x), x.items[x.next], now)
       case None => Put(s, w, Idle)
       case Some(t) => PutT(s, t, w, x.(next := x.next + 1, phase := Start)))
  }

  function DoReadVerdict(s: State, w: nat): State {
    var x := At(s, w);
    if x.Pass? && x.next == |x.items| && x.phase.Start? && x.order < |s.t.orders|
    then Put(s, w, Judging(x.order, s.t.orders[x.order].items)) else s
  }

  function DoFinish(s: State, w: nat, deferral: Option<int>): State {
    var x := At(s, w);
    if !x.Judging? then s
    else
      var (to, extra) := Verdict(x.items, deferral);
      (match MoveOrder(s.t, x.order, Delivering, to, extra)
       case None => Put(s, w, Idle)
       case Some(t) => PutT(s, t, w, Owing(x.order, Delivering, to)))
  }

  function DoWriteMove(s: State, w: nat, now: int): State {
    var x := At(s, w);
    if x.Owing? then PutT(s, Log(s.t, x.order, OrderMoved(x.from, x.to, None), now), w, Idle) else s
  }

  function DoRetry(s: State, w: nat, o: nat): State {
    if At(s, w) != Idle then s
    else
      (match MoveOrder(s.t, o, DeliveryFailed, Paid, NoExtra)
       case None => s
       case Some(t) => PutT(s, t, w, Owing(o, DeliveryFailed, Paid)))
  }

  function DoSelectStale(s: State, w: nat, o: nat): State {
    if At(s, w) == Idle && o < |s.t.orders| && s.t.orders[o].status in {Delivering, DeliveryFailed}
    then Put(s, w, Sweeping(o, s.t.orders[o].status)) else s
  }

  function DoSweep(s: State, w: nat, now: int): State {
    var x := At(s, w);
    if x.Sweeping? && x.order < |s.t.orders| then PutT(s, Requeue(s.t, x.order, x.previous, now), w, Idle) else s
  }

  function DoDie(s: State, w: nat): State {
    Put(s, w, Idle)
  }

  function DoBookCode(s: State, supplier: string, requestId: string, code: string): State {
    if (supplier, requestId) in s.book then s else s.(book := s.book[(supplier, requestId) := code])
  }

  // A lost compare-and-set unwinds its worker.
  function Next(s: State, a: Action): State {
    match a
    case Create(currency, units, now) => DoCreate(s, currency, units, now)
    case Receive(webhook, now) => DoReceive(s, webhook, now)
    case ClaimOrder(w, o, now) => DoClaimOrder(s, w, o, now)
    case ReadItems(w) => DoReadItems(s, w)
    case Skip(w) => DoSkip(s, w)
    case Confirm(w, supplier, round) => DoConfirm(s, w, supplier, round)
    case Deliver(w, now) => DoDeliver(s, w, now)
    case GiveUp(w, reason) => DoGiveUp(s, w, reason)
    case Document(w, now) => DoDocument(s, w, now)
    case Resume(w) => DoResume(s, w)
    case CallProvider(w, recorded, answered) => DoCallProvider(s, w, recorded, answered)
    case Settle(w, now) => DoSettle(s, w, now)
    case ReadVerdict(w) => DoReadVerdict(s, w)
    case Finish(w, deferral) => DoFinish(s, w, deferral)
    case WriteMove(w, now) => DoWriteMove(s, w, now)
    case Retry(w, o) => DoRetry(s, w, o)
    case SelectStale(w, o) => DoSelectStale(s, w, o)
    case Sweep(w, now) => DoSweep(s, w, now)
    case Die(w) => DoDie(s, w)
    case BookCode(supplier, requestId, code) => DoBookCode(s, supplier, requestId, code)
  }

  // The state after any schedule.
  function Run(actions: seq<Action>): State {
    if actions == [] then INITIAL
    else Next(Run(actions[..|actions| - 1]), actions[|actions| - 1])
  }

  ghost predicate Reachable(s: State) {
    exists actions :: Run(actions) == s
  }

  lemma RunAppend(actions: seq<Action>, a: Action)
    ensures Run(actions + [a]) == Next(Run(actions), a)
  {
    assert (actions + [a])[..|actions|] == actions;
  }

  // ---- The invariant ----

  ghost predicate BookedDeliveries(s: State) {
    forall key | key in s.t.deliveries ::
      var d := s.t.deliveries[key];
      (d.supplier, d.requestId) in s.book && s.book[(d.supplier, d.requestId)] == d.code
  }

  ghost predicate OwedBack(t: Tables, p: Payout) {
    && ValidKey(t, p.item)
    && (ItemAt(t, p.item).status == Refunding || ItemAt(t, p.item).status == Refunded)
    && p.amount == ItemAt(t, p.item).amount
  }

  // The provider paid an item at most once, only while it is refunding or refunded, and did pay
  // every refunded one.
  ghost predicate PayoutsOk(s: State) {
    && (forall i | 0 <= i < |s.payouts| :: OwedBack(s.t, s.payouts[i]))
    && (forall i, j | 0 <= i < j < |s.payouts| :: s.payouts[i].item != s.payouts[j].item)
    && (forall key | ValidKey(s.t, key) && ItemAt(s.t, key).status == Refunded :: PaidOut(s.payouts, key))
  }

  ghost predicate OrderPaid(t: Tables, o: nat) {
    o < |t.orders| && IsPaid(t.orders[o].status)
  }

  ghost predicate PhaseOk(s: State, x: Worker)
    requires x.Pass?
  {
    match x.phase
    case Start => x.next <= |x.items|
    case Confirmed(supplier, requestId, code) =>
      && x.next < |x.items| && NoColon(supplier)
      && OwnRequest(x.items[x.next], supplier, requestId)
      && (supplier, requestId) in s.book && s.book[(supplier, requestId)] == code
    case Undocumented(reason) =>
      x.next < |x.items| && x.items[x.next].status == Refunding && x.items[x.next].refundReason == Some(reason)
    case Giving => x.next < |x.items| && x.items[x.next].status == Refunding
    case Given =>
      x.next < |x.items| && x.items[x.next].status == Refunding && PaidOut(s.payouts, KeyOf(x))
  }

  // What a worker remembers was true once, and rows only move forward.
  ghost predicate WorkerOk(s: State, x: Worker) {
    match x
    case Idle => true
    case Claimed(o) => OrderPaid(s.t, o)
    case Pass(o, items, _, _) => OrderPaid(s.t, o) && ItemsAdvance(items, s.t.orders[o].items) && PhaseOk(s, x)
    case Judging(o, items) => OrderPaid(s.t, o) && ItemsAdvance(items, s.t.orders[o].items)
    case Owing(o, from, to) => OrderPaid(s.t, o) && IsPaid(from) && IsPaid(to)
    case Sweeping(o, previous) => OrderPaid(s.t, o) && IsPaid(previous)
  }

  ghost predicate WorkersOk(s: State) {
    forall w | w in s.workers :: WorkerOk(s, s.workers[w])
  }

  ghost predicate Inv(s: State) {
    Consistent(s.t) && BookedDeliveries(s) && PayoutsOk(s) && WorkersOk(s)
  }

  // ---- Steps only add ----

  ghost predicate Grows(s: State, s': State) {
    && Advances(s.t, s'.t)
    && s.book.Keys <= s'.book.Keys
    && (forall k | k in s.book :: s'.book[k] == s.book[k])
    && (forall key | PaidOut(s.payouts, key) :: PaidOut(s'.payouts, key))
  }

  lemma WorkerStays(s: State, s': State, x: Worker)
    requires WorkerOk(s, x) && Grows(s, s')
    ensures WorkerOk(s', x)
  {
    if x.Pass? || x.Judging? {
      AdvanceAgain(x.items, s.t.orders[x.order].items, s'.t.orders[x.order].items);
    }
  }

  // One worker moves, everybody else's memory stays sound.
  lemma OthersStay(s: State, s': State, w: nat, x: Worker)
    requires WorkersOk(s) && Grows(s, s')
    requires s'.workers == s.workers[w := x] && WorkerOk(s', x)
    ensures WorkersOk(s')
  {
    forall v | v in s'.workers ensures WorkerOk(s', s'.workers[v]) {
      if v != w {
        WorkerStays(s, s', s.workers[v]);
      }
    }
  }

  lemma AllStay(s: State, s': State)
    requires WorkersOk(s) && Grows(s, s') && s'.workers == s.workers
    ensures WorkersOk(s')
  {
    forall v | v in s'.workers ensures WorkerOk(s', s'.workers[v]) {
      WorkerStays(s, s', s.workers[v]);
    }
  }

  // No item became refunded and the provider paid nobody: its obligations are as before.
  lemma PayoutsStay(s: State, s': State)
    requires PayoutsOk(s) && s'.payouts == s.payouts && Advances(s.t, s'.t)
    requires forall key | ValidKey(s'.t, key) && ItemAt(s'.t, key).status == Refunded ::
               ValidKey(s.t, key) && ItemAt(s.t, key).status == Refunded
    ensures PayoutsOk(s')
  {
    forall i | 0 <= i < |s'.payouts| ensures OwedBack(s'.t, s'.payouts[i]) {
      var p := s.payouts[i];
      assert OwedBack(s.t, p);
      assert ItemAdvances(s.t.orders[p.item.order].items[p.item.position], s'.t.orders[p.item.order].items[p.item.position]);
    }
  }
}
