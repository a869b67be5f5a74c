/**
 The database tables, and every transaction of the program as a function from tables to tables.

 Primary keys are row numbers: order n is the n-th order created, and an item is named by its
 order and its position in it. `Item.id` is the item's own identifier, the one request ids are
 built from. A transaction that throws is rolled back, which is `None` here.
 */
module Tables {
  import opened Base

  datatype OrderStatus =
    | Created | Paid | Delivering
    | AllDelivered | PartiallyDelivered | AllRefunded
    | PaymentFailed | DeliveryFailed

  datatype ItemStatus = Pending | Delivered | Refunding | Refunded

  datatype RefundReason = OutOfStock | SupplierFailed

  datatype Item = Item(id: string, amount: int, status: ItemStatus, refundReason: Option<RefundReason>)

  datatype Order = Order(
    amount: int,
    currency: string,
    status: OrderStatus,
    items: seq<Item>,
    paidAt: Option<int>,
    notBefore: Option<int>)

  datatype ItemKey = ItemKey(order: nat, position: nat)

  datatype Delivery = Delivery(requestId: string, supplier: string, code: string)

  datatype Refund = Refund(amount: int, reason: RefundReason)

  datatype Account = Cash | Liability | Revenue

  datatype PostingReason = ForPayment | ForDelivery | ForRefund

  datatype Reference = EventRef(event: string) | ItemRef(item: ItemKey)

  // A debit is a positive amount, a credit a negative one.
  datatype LedgerRow = LedgerRow(
    order: nat,
    account: Account,
    amount: int,
    reason: PostingReason,
    reference: Reference,
    at: int)

  datatype MoveDetail =
    | NoDetail
    | Issued(code: string, supplier: string, requestId: string, amount: int)
    | GivenBack(amount: int, reason: Option<RefundReason>)

  datatype EventBody =
    | OrderCreated(amount: int, items: seq<Item>)
    | OrderMoved(from: OrderStatus, to: OrderStatus, paid: Option<int>)
    | ItemMoved(position: nat, fromItem: ItemStatus, toItem: ItemStatus, detail: MoveDetail)

  datatype OrderEvent = OrderEvent(order: nat, body: EventBody, at: int)

  datatype PaymentStatus = PaymentPaid | PaymentFail

  datatype WebhookOutcome =
    | Received
    | Applied
    | Duplicate
    | OrderNotFound
    | AmountMismatch
    | Ignored(status: OrderStatus)

  datatype PaymentEvent = PaymentEvent(
    order: int,
    status: PaymentStatus,
    amount: int,
    currency: string,
    outcome: WebhookOutcome)

  // `Errored` and `Broken` are both stored as `error`; the detail tells an HTTP answer from a
  // connection that broke with the request perhaps still under way.
  datatype AttemptOutcome =
    | AnsweredOk | TimedOut | Errored | Broken | NotSent | NoStock | NoneIssued | Rejected

  datatype Attempt = Attempt(supplier: string, requestId: string, outcome: AttemptOutcome)

  datatype DiscrepancyKind =
    | DuplicateCodeKind | CodeMismatch | UnbookedCode
    | ErrorButIssued | UnusedIssue | UnknownRequest

  datatype Discrepancy = Discrepancy(
    supplier: string,
    requestId: string,
    item: Option<ItemKey>,
    kind: DiscrepancyKind,
    supplierCode: string,
    ourCode: Option<string>)

  // `deliveries` and `refunds` are keyed by the item, `payments` by the provider's event id;
  // the attempt log is read per item only, in the order it was written.
  datatype Tables = Tables(
    orders: seq<Order>,
    deliveries: map<ItemKey, Delivery>,
    refunds: map<ItemKey, Refund>,
    ledger: seq<LedgerRow>,
    events: seq<OrderEvent>,
    payments: map<string, PaymentEvent>,
    attempts: map<ItemKey, seq<Attempt>>,
    discrepancies: seq<Discrepancy>)

  const EMPTY := Tables([], map[], map[], [], [], map[], map[], [])

  predicate IsPaid(s: OrderStatus) {
    s != Created && s != PaymentFailed
  }

  predicate IsFinal(s: OrderStatus) {
    s == AllDelivered || s == PartiallyDelivered || s == AllRefunded
  }

  predicate IsOpen(s: ItemStatus) {
    s == Pending || s == Refunding
  }

  predicate ValidKey(t: Tables, key: ItemKey) {
    key.order < |t.orders| && key.position < |t.orders[key.order].items|
  }

  function ItemAt(t: Tables, key: ItemKey): Item
    requires ValidKey(t, key)
  {
    t.orders[key.order].items[key.position]
  }

  function WithOrder(t: Tables, o: nat, row: Order): Tables
    requires o < |t.orders|
  {
    t.(orders := t.orders[o := row])
  }

  function WithItem(t: Tables, key: ItemKey, row: Item): Tables
    requires ValidKey(t, key)
  {
    var order := t.orders[key.order];
    WithOrder(t, key.order, order.(items := order.items[key.position := row]))
  }

  // ---- Compare-and-set transitions (order-transition.ts) ----

  datatype Extra = NoExtra | SetPaidAt(at: int) | SetNotBefore(at: int)

  function MoveOrder(t: Tables, o: nat, from: OrderStatus, to: OrderStatus, extra: Extra): Option<Tables> {
    if o < |t.orders| && t.orders[o].status == from then
      var row := t.orders[o].(status := to);
      Some(WithOrder(t, o, match extra
                           case NoExtra => row
                           case SetPaidAt(at) => row.(paidAt := Some(at))
                           case SetNotBefore(at) => row.(notBefore := Some(at))))
    else
      None
  }

  function MoveItem(t: Tables, key: ItemKey, from: ItemStatus, to: ItemStatus, reason: Option<RefundReason>)
    : Option<Tables>
  {
    if ValidKey(t, key) && ItemAt(t, key).status == from then
      var row := ItemAt(t, key).(status := to);
      Some(WithItem(t, key, if reason.Some? then row.(refundReason := reason) else row))
    else
      None
  }

  function Log(t: Tables, o: nat, body: EventBody, now: int): Tables {
    t.(events := t.events + [OrderEvent(o, body, now)])
  }

  // ---- Ledger postings (ledger.service.ts) ----

  predicate SameFact(a: LedgerRow, b: LedgerRow) {
    a.reason == b.reason && a.reference == b.reference && a.account == b.account
  }

  // The unique key on (reason, reference, account) refuses to post a fact twice.
  predicate Clashes(ledger: seq<LedgerRow>, row: LedgerRow) {
    exists i | 0 <= i < |ledger| :: SameFact(ledger[i], row)
  }

  function Pair(o: nat, reason: PostingReason, reference: Reference, debit: Account, credit: Account, amount: int, now: int)
    : seq<LedgerRow>
  {
    [LedgerRow(o, debit, amount, reason, reference, now), LedgerRow(o, credit, -amount, reason, reference, now)]
  }

  function Post(t: Tables, pair: seq<LedgerRow>): Option<Tables>
    requires |pair| == 2
  {
    if Clashes(t.ledger, pair[0]) || Clashes(t.ledger, pair[1]) then None
    else Some(t.(ledger := t.ledger + pair))
  }

  function PaymentPair(o: nat, event: string, amount: int, now: int): seq<LedgerRow> {
    Pair(o, ForPayment, EventRef(event), Cash, Liability, amount, now)
  }

  function DeliveryPair(key: ItemKey, amount: int, now: int): seq<LedgerRow> {
    Pair(key.order, ForDelivery, ItemRef(key), Liability, Revenue, amount, now)
  }

  function RefundPair(key: ItemKey, amount: int, now: int): seq<LedgerRow> {
    Pair(key.order, ForRefund, ItemRef(key), Liability, Cash, amount, now)
  }

  // ---- Order creation (orders.service.ts) ----

  datatype Unit = Unit(id: string, price: int)

  function TotalPrice(units: seq<Unit>): int {
    if units == [] then 0 else TotalPrice(units[..|units| - 1]) + units[|units| - 1].price
  }

  function NewItems(units: seq<Unit>): seq<Item> {
    seq(|units|, k requires 0 <= k < |units| => Item(units[k].id, units[k].price, Pending, None))
  }

  function CreateOrder(t: Tables, currency: string, units: seq<Unit>, now: int): Option<Tables> {
    if units == [] then None
    else
      var row := Order(TotalPrice(units), currency, Created, NewItems(units), None, None);
      Some(Log(t.(orders := t.orders + [row]), |t.orders|, OrderCreated(row.amount, row.items), now))
  }

  // ---- Payment webhook (payments.service.ts) ----

  datatype Webhook = Webhook(event: string, order: int, status: PaymentStatus, amount: int, currency: string)

  function ApplyPayment(t: Tables, w: Webhook, now: int): Option<(Tables, WebhookOutcome)> {
    if !(0 <= w.order < |t.orders|) then Some((t, OrderNotFound))
    else
      var order := t.orders[w.order];
      if order.status != Created then Some((t, Ignored(order.status)))
      else if w.status == PaymentFail then
        var t1 :- MoveOrder(t, w.order, Created, PaymentFailed, NoExtra);
        Some((Log(t1, w.order, OrderMoved(Created, PaymentFailed, None), now), Applied))
      else if w.amount != order.amount || w.currency != order.currency then Some((t, AmountMismatch))
      else
        var t1 :- MoveOrder(t, w.order, Created, Paid, SetPaidAt(now));
        var t2 :- Post(Log(t1, w.order, OrderMoved(Created, Paid, Some(w.amount)), now),
                       PaymentPair(w.order, w.event, order.amount, now));
        Some((t2, Applied))
  }

  function RecordedEvent(w: Webhook, outcome: WebhookOutcome): PaymentEvent {
    PaymentEvent(w.order, w.status, w.amount, w.currency, outcome)
  }

  // An event id seen before changes nothing; a new one is stored with its outcome.
  function HandleWebhook(t: Tables, w: Webhook, now: int): Option<(Tables, WebhookOutcome)> {
    if w.event in t.payments then Some((t, Duplicate))
    else
      var received := t.(payments := t.payments[w.event := RecordedEvent(w, Received)]);
      var (t1, outcome) :- ApplyPayment(received, w, now);
      Some((t1.(payments := t1.payments[w.event := RecordedEvent(w, outcome)]), outcome))
  }

  // ---- Queue (delivery.worker.ts, recovery.service.ts, orders.service.ts) ----

  predicate IsDue(order: Order, now: int) {
    order.status == Paid && (order.notBefore.None? || order.notBefore.value <= now)
  }

  function Claim(t: Tables, o: nat, now: int): Option<Tables> {
    if o < |t.orders| && IsDue(t.orders[o], now) then
      var t1 :- MoveOrder(t, o, Paid, Delivering, NoExtra);
      Some(Log(t1, o, OrderMoved(Paid, Delivering, None), now))
    else
      None
  }

  // The sweep's UPDATE does not look at the status again: `previous` is what its unlocked
  // SELECT saw, and the row may have moved on since.
  function Requeue(t: Tables, o: nat, previous: OrderStatus, now: int): Tables
    requires o < |t.orders|
  {
    Log(WithOrder(t, o, t.orders[o].(status := Paid)), o, OrderMoved(previous, Paid, None), now)
  }

  // ---- One item's settlement (delivery.service.ts) ----

  predicate CodeTaken(t: Tables, code: string) {
    exists key | key in t.deliveries :: t.deliveries[key].code == code
  }

  predicate RequestTaken(t: Tables, requestId: string) {
    exists key | key in t.deliveries :: t.deliveries[key].requestId == requestId
  }

  datatype CompleteResult = Done(t: Tables) | CodeAlreadyDelivered | Refused

  function CompleteRest(t: Tables, key: ItemKey, amount: int, d: Delivery, now: int): Option<Tables> {
    var t1 :- MoveItem(t, key, Pending, Delivered, None);
    Post(Log(t1, key.order, ItemMoved(key.position, Pending, Delivered, Issued(d.code, d.supplier, d.requestId, amount)), now),
         DeliveryPair(key, amount, now))
  }

  // `amount` comes from the caller's copy of the item.
  function Complete(t: Tables, key: ItemKey, amount: int, d: Delivery, now: int): CompleteResult {
    if key in t.deliveries && t.deliveries[key].code != d.code then Refused
    else if key !in t.deliveries && CodeTaken(t, d.code) then CodeAlreadyDelivered
    else if key !in t.deliveries && RequestTaken(t, d.requestId) then Refused
    else
      var t1 := if key in t.deliveries then t else t.(deliveries := t.deliveries[key := d]);
      match CompleteRest(t1, key, amount, d, now)
      case None => Refused
      case Some(t2) => Done(t2)
  }

  // The decision is two commits: the status first, its event afterwards.
  function Decide(t: Tables, key: ItemKey, reason: RefundReason): Option<Tables> {
    MoveItem(t, key, Pending, Refunding, Some(reason))
  }

  function LogDecision(t: Tables, key: ItemKey, amount: int, reason: RefundReason, now: int): Tables {
    Log(t, key.order, ItemMoved(key.position, Pending, Refunding, GivenBack(amount, Some(reason))), now)
  }

  function ReasonOr(reason: Option<RefundReason>): RefundReason {
    if reason.Some? then reason.value else SupplierFailed
  }

  function BookRefund(t: Tables, key: ItemKey, local: Item, now: int): Option<Tables> {
    var t0 := if key in t.refunds then t
              else t.(refunds := t.refunds[key := Refund(local.amount, ReasonOr(local.refundReason))]);
    var t1 :- MoveItem(t0, key, Refunding, Refunded, None);
    Post(Log(t1, key.order, ItemMoved(key.position, Refunding, Refunded, GivenBack(local.amount, local.refundReason)), now),
         RefundPair(key, local.amount, now))
  }

  // ---- The order's verdict (delivery.service.ts, finish) ----

  predicate NoneOpen(items: seq<Item>) {
    forall k | 0 <= k < |items| :: !IsOpen(items[k].status)
  }

  function CountDelivered(items: seq<Item>): nat {
    if items == [] then 0
    else CountDelivered(items[..|items| - 1]) + (if items[|items| - 1].status == Delivered then 1 else 0)
  }

  function FinalStatus(items: seq<Item>): OrderStatus {
    if CountDelivered(items) == |items| then AllDelivered
    else if CountDelivered(items) == 0 then AllRefunded
    else PartiallyDelivered
  }

  // `deferral` is the pass's latest slot time, present only when nothing stayed unresolved.
  function Verdict(items: seq<Item>, deferral: Option<int>): (OrderStatus, Extra) {
    if !NoneOpen(items) && deferral.Some? then (Paid, SetNotBefore(deferral.value))
    else if !NoneOpen(items) then (DeliveryFailed, NoExtra)
    else (FinalStatus(items), NoExtra)
  }

  // ---- Evidence about suppliers ----

  function AttemptsOf(t: Tables, key: ItemKey): seq<Attempt> {
    if key in t.attempts then t.attempts[key] else []
  }

  function AddAttempt(t: Tables, key: ItemKey, a: Attempt): Tables {
    t.(attempts := t.attempts[key := AttemptsOf(t, key) + [a]])
  }

  predicate SameFinding(a: Discrepancy, b: Discrepancy) {
    a.supplier == b.supplier && a.requestId == b.requestId && a.kind == b.kind
  }

  predicate AlreadyFound(found: seq<Discrepancy>, d: Discrepancy) {
    exists i | 0 <= i < |found| :: SameFinding(found[i], d)
  }

  // A second finding of the same kind under the same id is dropped.
  function AddDiscrepancy(t: Tables, d: Discrepancy): Tables {
    if AlreadyFound(t.discrepancies, d) then t else t.(discrepancies := t.discrepancies + [d])
  }
}
