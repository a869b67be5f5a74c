/**
 Runs of the delivery service in which things go as wrong as they can: await by await, in the order in
 which its loops come to them, against suppliers whose answers are fixed beforehand.
 */
module Transcripts {
  import opened Base
  import opened Tables
  import opened RequestIds
  import opened Consistency
  import opened Queue
  import opened Evidence
  import opened Passing
  import opened Requests
  import opened Suppliers
  import opened Provider
  import opened Outcomes
  import opened Bookings
  import opened Chain
  import opened Leftovers
  import opened OrderResults
  import opened Storage
  import opened Service
  import opened Lifetime
  import opened Interference

  const KEY := ItemKey(0, 0)

  function TheItem(): Item {
    Item("i", 5, Pending, None)
  }

  function TwoSuppliers(attempts: nat): Config {
    Config(["a", "b"], 3, attempts)
  }

  function Nobody(): Schedule {
    (n, t, held) => t
  }

  function Answering(reply: IssueReply, books: Option<string>): Draw {
    Draw(true, 0, reply, books, true, false, false, None, false)
  }

  function Facts0(): Facts {
    Facts(TheItem(), None, None, [], map["a" := [], "b" := []])
  }

  // ---- An order of one item, created, paid and claimed ----

  function OneOrder(status: OrderStatus, paidAt: Option<int>): seq<Order> {
    [Order(5, "RUB", status, [TheItem()], paidAt, None)]
  }

  lemma CreatedTables()
    ensures FreshIds(EMPTY, [Unit("i", 5)])
    ensures var r := CreateOrder(EMPTY, "RUB", [Unit("i", 5)], 1);
            && r.Some? && r.value.orders == OneOrder(Created, None) && r.value.deliveries == map[] && r.value.refunds == map[]
            && r.value.attempts == map[] && r.value.discrepancies == [] && r.value.payments == map[] && r.value.ledger == []
  {
    var units := [Unit("i", 5)];
    assert units[..0] == [];
    assert TotalPrice(units) == 5;
    assert NewItems(units) == [TheItem()];
  }

  lemma PaidTables(t: Tables)
    requires t.orders == OneOrder(Created, None) && t.deliveries == map[] && t.refunds == map[]
    requires t.attempts == map[] && t.discrepancies == [] && t.payments == map[] && t.ledger == []
    ensures var r := HandleWebhook(t, Webhook("e", 0, PaymentPaid, 5, "RUB"), 2);
            && r.Some? && r.value.0.orders == OneOrder(Paid, Some(2)) && r.value.0.deliveries == map[] && r.value.0.refunds == map[]
            && r.value.0.attempts == map[] && r.value.0.discrepancies == []
  {
  }

  lemma ClaimedTables(t: Tables, c: Config)
    requires t.orders == OneOrder(Paid, Some(2)) && t.deliveries == map[] && t.refunds == map[]
    requires t.attempts == map[] && t.discrepancies == [] && c.suppliers == ["a", "b"]
    ensures var r := Claim(t, 0, 3);
            && r.Some? && r.value.orders == OneOrder(Delivering, Some(2)) && r.value.deliveries == map[] && r.value.discrepancies == []
            && ValidKey(r.value, KEY) && FactsOf(r.value, c, KEY) == Facts0()
  {
    var t' := Claim(t, 0, 3).value;
    assert Rejections([], KEY, "a") == [] && Rejections([], KEY, "b") == [];
    assert RejectedBy([], c, KEY) == map["a" := [], "b" := []];
  }

  method ClaimedOrder(attempts: nat, chance: Chance, dies: nat -> bool) returns (service: DeliveryService)
    requires attempts >= 1
    ensures fresh(service) && fresh(service.db) && fresh(service.suppliers) && fresh(service.provider)
    ensures service.Held(KEY) && service.Know(KEY) == Facts0()
    ensures service.config == TwoSuppliers(attempts) && service.Alone() && service.db.deliveries == map[] && service.db.discrepancies == []
    ensures service.suppliers.chance == chance && service.dies == dies && service.ticks == 0 && service.suppliers.drawn == 0
    ensures service.suppliers.Shelves() == Shelf(map[], {})
    ensures service.suppliers.limits("a") == 0 && service.suppliers.limits("b") == 0
    ensures service.calls == [] && service.lost == service.inherited == {}
    ensures service.Valid()
  {
    hide Tolerable, Ready, Traced, PaidAsOwed, CreateOrder, HandleWebhook, Claim, FactsOf, FreshIds;
    QuietIsTolerable(TwoSuppliers(attempts));
    CreatedTables();
    service := Begin(TwoSuppliers(attempts), s => 0, chance, Nobody(), dies);
    Create(service, "RUB", [Unit("i", 5)], 1);
    PaidTables(service.db.Snapshot());
    Receive(service, Webhook("e", 0, PaymentPaid, 5, "RUB"), 2);
    ClaimedTables(service.db.Snapshot(), service.config);
    var taken := Take(service, 0, 3);
  }

  // ---- Two booked codes ----

  // What the calls of the run draw: `a` has nothing at first and a code later, `b` has one at once.
  function Restocked(n: nat): Draw {
    if n == 5 then Answering(NoneInStock, None)
    else if n == 9 then Answering(OkCode("B"), Some("B"))
    else if n == 17 then Answering(OkCode("A"), Some("A"))
    else Answering(Unreachable, None)
  }

  const AT_A: Entry := ("a", "i:a")
  const AT_B: Entry := ("b", "i:b")

  lemma FirstIds()
    ensures RequestId("i", "a", 1) == "i:a" && RequestId("i", "b", 1) == "i:b"
    ensures Mine("i", AT_A) && Mine("i", AT_B)
  {
  }

  // The facts of the item after these attempts.
  function Logged(log: seq<Attempt>): Facts {
    Facts0().(log := log)
  }

  // Every attempt was made under a first id.
  predicate AllFirst(log: seq<Attempt>) {
    forall i | 0 <= i < |log| :: log[i].requestId == RequestId("i", log[i].supplier, 1)
  }

  lemma MayAskFirst(attempts: nat, log: seq<Attempt>, s: string)
    requires s == "a" || s == "b"
    requires OnlyOpen(log, s) && AllFirst(log)
    ensures MayAsk(TwoSuppliers(attempts), Logged(log), TheItem(), s, RequestId("i", s, 1))
  {
    HeardIsThere(log, s);
    hide OpenSuppliers, RequestId, LastHeard;
  }

  // A worker on the order, with nobody else about and unlimited suppliers.
  ghost predicate OnIt(service: DeliveryService, attempts: nat, log: seq<Attempt>)
    reads service, service.db
  {
    && service.Held(KEY) && service.Know(KEY) == Logged(log) && AllFirst(log)
    && service.config == TwoSuppliers(attempts) && service.Alone() && service.db.deliveries == map[] && service.db.discrepancies == []
    && service.suppliers.limits("a") == 0 && service.suppliers.limits("b") == 0
  }

  // A supplier's turn up to its first attempt. What lands while the call waits is drawn too.
  method Ask(service: DeliveryService, attempts: nat, log: seq<Attempt>, s: string, reply: IssueReply, books: Option<string>)
    requires OnIt(service, attempts, log) && OnlyOpen(log, s) && (s == "a" || s == "b")
    requires service.suppliers.chance(service.suppliers.drawn).landed == None
    requires service.suppliers.chance(service.suppliers.drawn + 2) == Answering(reply, books)
    requires service.suppliers.chance(service.suppliers.drawn + 3).landed == None
    requires !service.dies(service.ticks + 1) && !service.dies(service.ticks + 2) && !service.dies(service.ticks + 3)
    requires !reply.RateLimited?
    requires reply.NoneInStock? ==>
               && service.suppliers.chance(service.suppliers.drawn + 1).landed == None
               && (s, RequestId("i", s, 1)) !in service.suppliers.book
    requires service.Valid()
    modifies service`ticks, service`strays, service`calls, service`heard, service`noted, service`lost, service.db, service.provider, service.suppliers
    ensures OnIt(service, attempts, log + [Attempt(s, RequestId("i", s, 1), OutcomeOf(reply))])
    ensures service.ticks == old(service.ticks) + 3 && service.suppliers.drawn == old(service.suppliers.drawn) + 4
    ensures var shelf := Land(old(service.suppliers.Shelves()), Ids(old(service.db.Snapshot()), 0),
                              service.suppliers.chance(old(service.suppliers.drawn) + 1));
            service.suppliers.Shelves() == Serve(shelf, (s, RequestId("i", s, 1)), 0, Answering(reply, books)).1
    ensures WriteOnce(old(service.suppliers.book), service.suppliers.book)
    ensures service.lost == old(service.lost)
    ensures service.Valid()
  {
    hide DeliveryService.Valid, FactsOf, MayAsk, Onward, OpenSuppliers, Quiet, Hush, Ids, Extends, Prepaid, RequestId, OutcomeOf;
    var rounds := service.RejectedRounds(KEY, TheItem(), s);
    AskNow(service, attempts, log, s, reply, books);
  }

  method AskNow(service: DeliveryService, attempts: nat, log: seq<Attempt>, s: string, reply: IssueReply, books: Option<string>)
    requires OnIt(service, attempts, log) && OnlyOpen(log, s) && (s == "a" || s == "b")
    requires service.suppliers.chance(service.suppliers.drawn + 1) == Answering(reply, books)
    requires service.suppliers.chance(service.suppliers.drawn + 2).landed == None
    requires !service.dies(service.ticks + 1) && !service.dies(service.ticks + 2)
    requires !reply.RateLimited?
    requires reply.NoneInStock? ==>
               && service.suppliers.chance(service.suppliers.drawn).landed == None
               && (s, RequestId("i", s, 1)) !in service.suppliers.book
    requires service.Valid()
    modifies service`ticks, service`strays, service`calls, service`heard, service`noted, service`lost, service.db, service.provider, service.suppliers
    ensures OnIt(service, attempts, log + [Attempt(s, RequestId("i", s, 1), OutcomeOf(reply))])
    ensures service.ticks == old(service.ticks) + 2 && service.suppliers.drawn == old(service.suppliers.drawn) + 3
    ensures var shelf := Land(old(service.suppliers.Shelves()), Ids(old(service.db.Snapshot()), 0),
                              service.suppliers.chance(old(service.suppliers.drawn)));
            service.suppliers.Shelves() == Serve(shelf, (s, RequestId("i", s, 1)), 0, Answering(reply, books)).1
    ensures WriteOnce(old(service.suppliers.book), service.suppliers.book)
    ensures service.lost == old(service.lost)
    ensures service.Valid()
  {
    hide DeliveryService.Valid, FactsOf, MayAsk, Onward, OpenSuppliers, Quiet, Hush, Ids, Extends, Prepaid, RequestId, OutcomeOf;
    MayAskFirst(attempts, log, s);
    BeginsWithItem("i", s, 1);
    OnwardChains(service.Seen(), service.config, KEY, Nothing);
    NothingLands();
    ghost var f := service.Know(KEY);
    var r := service.TryOnce(KEY, TheItem(), s, RequestId("i", s, 1));
    assert r == Ok(reply);
    assert f.(log := f.log + [Attempt(s, RequestId("i", s, 1), OutcomeOf(reply))]) ==
           Logged(log + [Attempt(s, RequestId("i", s, 1), OutcomeOf(reply))]);
  }

  // The items are read, then the catalog, which prefers `a`, then the log, by which nobody is open.
  method OpenPass(service: DeliveryService, attempts: nat, log: seq<Attempt>) returns (chain: seq<Candidate>)
    requires OnIt(service, attempts, log) && NoneIsOpen(log)
    requires !service.dies(service.ticks + 1) && !service.dies(service.ticks + 2) && !service.dies(service.ticks + 3)
    requires service.suppliers.chance(service.suppliers.drawn).landed == None
    requires service.suppliers.chance(service.suppliers.drawn + 1).landed == None
    requires service.suppliers.chance(service.suppliers.drawn + 2).landed == None
    requires service.Valid()
    modifies service`ticks, service`strays, service.db, service.provider, service.suppliers`book, service.suppliers`inFlight, service.suppliers`drawn
    ensures chain == ChainOf(["a", "b"], "a", []) && OnIt(service, attempts, log)
    ensures service.ticks == old(service.ticks) + 3 && service.suppliers.drawn == old(service.suppliers.drawn) + 3
    ensures service.suppliers.Shelves() == old(service.suppliers.Shelves())
    ensures service.Valid()
  {
    hide DeliveryService.Valid, FactsOf, Onward, OpenSuppliers, Quiet, Hush, Ids, Covers, ChainOf, Land, Stands;
    NothingLands();
    var items := service.ReadItems(0);
    var preferred := service.Await(KEY);
    var r := service.SupplierChain(KEY, "a");
    return match r case Ok(value) => value case Err(_) => [];
  }

  lemma PreferredFirst()
    ensures ChainOf(["a", "b"], "a", []) == [Candidate("a", false), Candidate("b", false)]
  {
    var all := ["a", "b"];
    assert all[..1] == ["a"] && all[..1][..0] == [];
    assert Filter(all, s => s == "a") == ["a"];
    assert Filter(all, s => s != "a") == ["b"];
    assert Ordered(all, "a") == all;
    assert Filter(all, s => s !in []) == all;
  }

  // A pass begins with nobody open, and `a` is asked first.
  method PreferredTurn(service: DeliveryService, log: seq<Attempt>, reply: IssueReply, books: Option<string>)
    requires OnIt(service, 1, log) && NoneIsOpen(log)
    requires service.suppliers.chance(service.suppliers.drawn + 5) == Answering(reply, books)
    requires forall n | service.suppliers.drawn <= n <= service.suppliers.drawn + 6 :: service.suppliers.chance(n).landed == None
    requires forall n | service.ticks < n <= service.ticks + 6 :: !service.dies(n)
    requires !reply.RateLimited? && (reply.NoneInStock? ==> AT_A !in service.suppliers.book)
    requires service.Valid()
    modifies service`ticks, service`strays, service`calls, service`heard, service`noted, service`lost, service.db, service.provider, service.suppliers
    ensures OnIt(service, 1, log + [Attempt("a", "i:a", OutcomeOf(reply))])
    ensures service.ticks == old(service.ticks) + 6 && service.suppliers.drawn == old(service.suppliers.drawn) + 7
    ensures service.suppliers.Shelves() == Serve(old(service.suppliers.Shelves()), AT_A, 0, Answering(reply, books)).1
    ensures WriteOnce(old(service.suppliers.book), service.suppliers.book)
    ensures service.lost == old(service.lost)
    ensures service.Valid()
  {
    hide DeliveryService.Valid, FactsOf, OpenSuppliers, ChainOf, RequestId, OnIt, Serve, Land;
    NothingLands();
    FirstIds();
    PreferredFirst();
    var chain := OpenPass(service, 1, log);
    assert chain[0].supplier == "a";
    NobodyOpen(log, "a");
    Ask(service, 1, log, "a", reply, books);
  }

  lemma NobodyOpen(log: seq<Attempt>, s: string)
    requires NoneIsOpen(log)
    ensures OnlyOpen(log, s)
  {
  }

  // `a` is out of stock, and the fallback's `ok` is written down.
  method FallbackAnswers(service: DeliveryService)
    requires OnIt(service, 1, [])
    requires service.suppliers.Shelves() == Shelf(map[], {}) && service.suppliers.drawn == 0 && service.ticks == 0
    requires service.suppliers.chance(5) == Answering(NoneInStock, None)
    requires service.suppliers.chance(9) == Answering(OkCode("B"), Some("B"))
    requires (forall n :: service.suppliers.chance(n).landed == None) && forall n | n < 10 :: !service.dies(n)
    requires service.Valid()
    modifies service`ticks, service`strays, service`calls, service`heard, service`noted, service`lost, service.db, service.provider, service.suppliers
    ensures OnIt(service, 1, [Attempt("a", "i:a", NoStock), Attempt("b", "i:b", AnsweredOk)])
    ensures service.ticks == 9 && service.suppliers.drawn == 11
    ensures AT_B in service.suppliers.book
    ensures service.lost == old(service.lost)
    ensures service.Valid()
  {
    hide DeliveryService.Valid, FactsOf, OpenSuppliers, RequestId, OnIt, Serve, Land;
    Served();
    FirstIds();
    NoAttempts();
    var a, b := Attempt("a", "i:a", NoStock), Attempt("b", "i:b", AnsweredOk);
    PreferredTurn(service, [], NoneInStock, None);
    assert [] + [a] == [a] && [a] + [b] == [a, b];
    OneDefinite(a);
    NobodyOpen([a], "b");
    Ask(service, 1, [a], "b", OkCode("B"), Some("B"));
  }

  // The book is never read: the process dies before.
  method DieVerifying(service: DeliveryService, attempts: nat, log: seq<Attempt>, s: string)
    requires OnIt(service, attempts, log) && NoneIsOpen(log) && (s == "a" || s == "b") && service.dies(service.ticks + 1)
    requires service.Valid()
    modifies service`ticks, service`strays, service`calls, service`heard, service`noted, service`lost, service.db, service.provider, service.suppliers
    ensures OnIt(service, attempts, log)
    ensures service.ticks == old(service.ticks) + 1 && service.suppliers.drawn == old(service.suppliers.drawn) + 1
    ensures WriteOnce(old(service.suppliers.book), service.suppliers.book)
    ensures service.lost == old(service.lost)
    ensures service.Valid()
  {
    hide DeliveryService.Valid, FactsOf, MayAsk, Onward, OpenSuppliers, Quiet, Hush, Ids, RequestId, Land;
    MayAskFirst(attempts, log, s);
    BeginsWithItem("i", s, 1);
    OnwardChains(service.Seen(), service.config, KEY, Nothing);
    var cut := service.Verify(KEY, TheItem(), s, RequestId("i", s, 1));
    assert cut.Err?;
  }

  // The book shows a code, and the item is delivered with it.
  method Sell(service: DeliveryService, attempts: nat, log: seq<Attempt>, s: string)
    requires OnIt(service, attempts, log) && NoneIsOpen(log) && (s == "a" || s == "b")
    requires (s, RequestId("i", s, 1)) in service.suppliers.book && service.suppliers.chance(service.suppliers.drawn + 1).looks
    requires !service.dies(service.ticks + 1) && !service.dies(service.ticks + 2)
    requires service.Valid()
    modifies service`ticks, service`strays, service`calls, service`heard, service`noted, service`lost, service.db, service.provider, service.suppliers
    ensures (s, RequestId("i", s, 1)) in service.suppliers.book
    ensures service.Know(KEY) ==
            Logged(log).(row := TheItem().(status := ItemStatus.Delivered),
            delivery := Some(Delivery(RequestId("i", s, 1), s, service.suppliers.book[(s, RequestId("i", s, 1))])))
    ensures WriteOnce(old(service.suppliers.book), service.suppliers.book)
    ensures service.db.discrepancies == []
    ensures Kept(old(service.db.Snapshot()), service.db.Snapshot(), service.config, KEY)
    ensures service.lost == old(service.lost)
    ensures service.Valid()
  {
    hide DeliveryService.Valid, FactsOf, MayAsk, Onward, OpenSuppliers, Quiet, Hush, Ids, RequestId, Land, Kept, Logged;
    MayAskFirst(attempts, log, s);
    BeginsWithItem("i", s, 1);
    OnwardChains(service.Seen(), service.config, KEY, Nothing);
    var r := service.Verify(KEY, TheItem(), s, RequestId("i", s, 1));
    assert r.Ok? && r.value.Found?;
    var code := match r case Ok(Found(booked)) => booked case _ => "";
    NoCodes(service.db.Snapshot(), code);
    var done := service.CompleteItem(KEY, TheItem(), Delivery(RequestId("i", s, 1), s, code));
    assert done.value;
  }

  lemma NoCodes(t: Tables, code: string)
    requires t.deliveries == map[]
    ensures !CodeTaken(t, code)
  {
  }

  // The order is requeued and taken again.
  method TakeAgain(service: DeliveryService, attempts: nat, log: seq<Attempt>)
    requires OnIt(service, attempts, log)
    requires service.Valid()
    modifies service.db
    ensures OnIt(service, attempts, log)
    ensures service.Valid()
  {
    hide DeliveryService.Valid, FactsOf, Requeue, Claim;
    var notBefore := service.db.orders[0].notBefore;
    var now := if notBefore.Some? then notBefore.value else 0;
    RetakenTables(service.db.Snapshot(), service.config, now);
    SweepOne(service, 0, now);
    var taken := Take(service, 0, now);
  }

  lemma RetakenTables(t: Tables, c: Config, now: int)
    requires ValidKey(t, KEY) && t.orders[0].status == Delivering
    requires t.orders[0].notBefore.None? || t.orders[0].notBefore.value <= now
    ensures var t' := Requeue(t, 0, Delivering, now);
            && t'.deliveries == t.deliveries && t'.discrepancies == t.discrepancies && Claim(t', 0, now).Some?
            && var t'' := Claim(t', 0, now).value;
            ValidKey(t'', KEY) && t''.deliveries == t.deliveries && t''.discrepancies == t.discrepancies && FactsOf(t'', c, KEY) == FactsOf(t, c, KEY)
  {
    hide RejectedBy;
  }

  // The next pass asks the preferred supplier first, as nobody is open, and sells its code.
  method PreferredSells(service: DeliveryService)
    requires OnIt(service, 1, [Attempt("a", "i:a", NoStock), Attempt("b", "i:b", AnsweredOk)])
    requires service.suppliers.chance(service.suppliers.drawn + 5) == Answering(OkCode("A"), Some("A"))
    requires service.suppliers.chance(service.suppliers.drawn + 8).looks
    requires (forall n :: service.suppliers.chance(n).landed == None) && forall n | n > service.ticks :: !service.dies(n)
    requires service.Valid()
    modifies service`ticks, service`strays, service`calls, service`heard, service`noted, service`lost, service.db, service.provider, service.suppliers
    ensures AT_A in service.suppliers.book
    ensures service.Know(KEY).log == [Attempt("a", "i:a", NoStock), Attempt("b", "i:b", AnsweredOk), Attempt("a", "i:a", AnsweredOk)]
    ensures service.Know(KEY).delivery == Some(Delivery("i:a", "a", service.suppliers.book[AT_A]))
    ensures service.Know(KEY).row.status == ItemStatus.Delivered
    ensures WriteOnce(old(service.suppliers.book), service.suppliers.book)
    ensures service.lost == old(service.lost)
    ensures service.Valid()
  {
    hide DeliveryService.Valid, FactsOf, OpenSuppliers, RequestId, OnIt, Serve, Land, Kept;
    Served();
    var none, ok, again := Attempt("a", "i:a", NoStock), Attempt("b", "i:b", AnsweredOk), Attempt("a", "i:a", AnsweredOk);
    var log := [none, ok];
    FirstIds();
    OneDefinite(none);
    TwoDefinite(none, ok);
    PreferredTurn(service, log, OkCode("A"), Some("A"));
    OpenAppend(log, again);
    assert log + [again] == [none, ok, again];
    Sell(service, 1, log + [again], "a");
  }

  // A fallback's `ok` is written down and the pass dies; the next pass sells the preferred
  // supplier's code. Both suppliers have booked one for the item.
  method TwoCodes() returns (service: DeliveryService)
    ensures AT_A in service.suppliers.book && AT_B in service.suppliers.book
    ensures service.Know(KEY).delivery == Some(Delivery("i:a", "a", service.suppliers.book[AT_A]))
    ensures service.Know(KEY).row.status == ItemStatus.Delivered
    ensures service.lost == service.strays == {}
    ensures service.Valid()
  {
    hide Tolerable, Ready, Traced, PaidAsOwed, FactsOf, OpenSuppliers, RequestId, OnIt;
    var log := [Attempt("a", "i:a", NoStock), Attempt("b", "i:b", AnsweredOk)];
    service := ClaimedOrder(1, (n: nat) => Restocked(n), (n: nat) => n == 10);
    Begun(service, 1);
    FallbackAnswers(service);
    OneDefinite(log[0]);
    TwoDefinite(log[0], log[1]);
    DieVerifying(service, 1, log, "b");
    TakeAgain(service, 1, log);
    PreferredSells(service);
  }

  // ---- Two booked codes without any failure ----

  // `a` has nothing at first, `b` answers with a code, and its book cannot be read for want of a slot.
  function Throttled(n: nat): Draw {
    if n == 5 then Answering(NoneInStock, None)
    else if n == 9 then Answering(OkCode("B"), Some("B"))
    else if n == 12 then Answering(Unreachable, None).(looks := false, throttled := true, at := 50)
    else if n == 21 then Answering(OkCode("A"), Some("A"))
    else Answering(Unreachable, None)
  }

  // The book lookup is turned away until later.
  method FindNoSlot(service: DeliveryService, attempts: nat, log: seq<Attempt>, s: string)
    requires OnIt(service, attempts, log) && NoneIsOpen(log) && (s == "a" || s == "b") && !service.dies(service.ticks + 1)
    requires service.suppliers.chance(service.suppliers.drawn).landed == None
    requires var d := service.suppliers.chance(service.suppliers.drawn + 1); !d.looks && d.throttled
    requires service.Valid()
    modifies service`ticks, service`strays, service`calls, service`heard, service`noted, service`lost, service.db, service.provider, service.suppliers
    ensures OnIt(service, attempts, log)
    ensures service.ticks == old(service.ticks) + 1 && service.suppliers.drawn == old(service.suppliers.drawn) + 2
    ensures service.suppliers.Shelves() == old(service.suppliers.Shelves())
    ensures service.lost == old(service.lost)
    ensures service.Valid()
  {
    hide DeliveryService.Valid, FactsOf, MayAsk, Onward, OpenSuppliers, Quiet, Hush, Ids, RequestId, Land;
    NothingLands();
    MayAskFirst(attempts, log, s);
    BeginsWithItem("i", s, 1);
    OnwardChains(service.Seen(), service.config, KEY, Nothing);
    var r := service.Verify(KEY, TheItem(), s, RequestId("i", s, 1));
    assert r.Ok? && r.value.LookupDeferred?;
  }

  // The order goes back into the queue until a slot is free, and is taken again then.
  method PutOff(service: DeliveryService, attempts: nat, log: seq<Attempt>, until: int)
    requires OnIt(service, attempts, log)
    requires !service.dies(service.ticks + 1) && !service.dies(service.ticks + 2) && !service.dies(service.ticks + 3)
    requires service.suppliers.chance(service.suppliers.drawn).landed == None
    requires service.suppliers.chance(service.suppliers.drawn + 1).landed == None
    requires service.suppliers.chance(service.suppliers.drawn + 2).landed == None
    requires service.Valid()
    modifies service`ticks, service`strays, service.db, service.provider, service.suppliers`book, service.suppliers`inFlight, service.suppliers`drawn
    ensures OnIt(service, attempts, log)
    ensures service.ticks == old(service.ticks) + 3 && service.suppliers.drawn == old(service.suppliers.drawn) + 3
    ensures service.suppliers.Shelves() == old(service.suppliers.Shelves())
    ensures service.Valid()
  {
    hide DeliveryService.Valid, FactsOf, Stands, Closes, Verdict, Claim, AllFirst;
    ghost var w0 := service.Seen();
    ghost var w;
    var status;
    status, w := service.Finish(0, Some(until), false);
    PutOffTables(service.config, w0, w, service.Seen(), until);
    var closed := service.db.Snapshot();
    var told := service.Announce(0, Delivering, Paid);
    TakenBack(closed, service.db.Snapshot(), service.config, until);
    var taken := Take(service, 0, until);
  }

  lemma PutOffTables(c: Config, w0: World, w: World, w1: World, until: int)
    requires ValidKey(w0.t, KEY) && FactsOf(w0.t, c, KEY).row.status == Pending
    requires Stands(w0, w, c, 0)
    requires var (to, extra) := Verdict(w.t.orders[0].items, Some(until)); Closes(w, w1, c, 0, to, extra)
    ensures ValidKey(w1.t, KEY) && FactsOf(w1.t, c, KEY) == FactsOf(w0.t, c, KEY)
    ensures w1.t.orders[0].status == Paid && w1.t.orders[0].notBefore == Some(until)
  {
    hide FinalStatus, Hush, Accrues, WriteOnce, RejectedBy, Ids;
    assert FactsOf(w.t, c, ItemKey(0, 0)) == FactsOf(w0.t, c, KEY);
    assert FactsOf(w1.t, c, ItemKey(0, 0)) == FactsOf(w.t, c, KEY);
    assert w.t.orders[0].items[0] == FactsOf(w.t, c, KEY).row;
  }

  lemma TakenBack(t: Tables, t': Tables, c: Config, now: int)
    requires t' == t.(events := t'.events) && ValidKey(t, KEY)
    requires t.orders[0].status == Paid && t.orders[0].notBefore == Some(now)
    ensures Claim(t', 0, now).Some?
    ensures var t'' := Claim(t', 0, now).value;
            ValidKey(t'', KEY) && t''.deliveries == t.deliveries && t''.discrepancies == t.discrepancies && FactsOf(t'', c, KEY) == FactsOf(t, c, KEY)
  {
    hide RejectedBy;
  }

  // Nobody dies, no call is lost, none times out, no connection breaks and nobody else is about: a
  // fallback's `ok` cannot be checked for want of a slot, and the next pass sells the preferred
  // supplier's code. Both suppliers have booked one for the item.
  method TwoCodesWithoutFailure() returns (service: DeliveryService)
    ensures AT_A in service.suppliers.book && AT_B in service.suppliers.book
    ensures service.Know(KEY).log == [Attempt("a", "i:a", NoStock), Attempt("b", "i:b", AnsweredOk), Attempt("a", "i:a", AnsweredOk)]
    ensures service.Know(KEY).delivery == Some(Delivery("i:a", "a", service.suppliers.book[AT_A]))
    ensures service.Know(KEY).row.status == ItemStatus.Delivered
    ensures forall n :: !service.dies(n)
    ensures service.lost == service.strays == {}
    ensures service.Valid()
  {
    hide Tolerable, Ready, Traced, PaidAsOwed, FactsOf, OpenSuppliers, RequestId, OnIt;
    var log := [Attempt("a", "i:a", NoStock), Attempt("b", "i:b", AnsweredOk)];
    service := ClaimedOrder(1, (n: nat) => Throttled(n), (n: nat) => false);
    Begun(service, 1);
    FallbackAnswers(service);
    OneDefinite(log[0]);
    TwoDefinite(log[0], log[1]);
    FindNoSlot(service, 1, log, "b");
    PutOff(service, 1, log, 50);
    PreferredSells(service);
  }

  // ---- A broken connection that was still served ----

  // The connection to `a` breaks, and its code lands after its book was read.
  function LandsLate(n: nat): Draw {
    if n == 5 then Answering(BrokenConnection, None)
    else if n == 11 then Answering(Unreachable, None).(landed := Some(Shelf(map[AT_A := "A"], {})))
    else if n == 12 then Answering(OkCode("B"), Some("B"))
    else Answering(Unreachable, None)
  }

  lemma ItLands(items: seq<string>)
    ensures Serve(Land(Shelf(map[], {AT_A}), items, LandsLate(11)), AT_B, 0, LandsLate(12)).1.book == map[AT_A := "A", AT_B := "B"]
  {
  }

  // An empty book is taken for a definite no: no call of the round timed out.
  method ReadEmptyBook(service: DeliveryService, attempts: nat, log: seq<Attempt>, s: string)
    requires OnIt(service, attempts, log) && OnlyOpen(log, s) && (s == "a" || s == "b")
    requires (s, RequestId("i", s, 1)) !in service.suppliers.book && service.suppliers.chance(service.suppliers.drawn + 1).looks
    requires service.suppliers.chance(service.suppliers.drawn).landed == None
    requires service.suppliers.chance(service.suppliers.drawn + 2).landed == None
    requires !service.dies(service.ticks + 1) && !service.dies(service.ticks + 2)
    requires service.Valid()
    modifies service`ticks, service`strays, service`calls, service`heard, service`noted, service`lost, service.db, service.provider, service.suppliers
    ensures OnIt(service, attempts, log + [Attempt(s, RequestId("i", s, 1), NoneIssued)])
    ensures service.ticks == old(service.ticks) + 2 && service.suppliers.drawn == old(service.suppliers.drawn) + 3
    ensures service.suppliers.Shelves() == old(service.suppliers.Shelves())
    ensures service.lost == old(service.lost)
    ensures service.Valid()
  {
    hide DeliveryService.Valid, FactsOf, MayAsk, Onward, OpenSuppliers, Quiet, Hush, Ids, RequestId, Land, Kept;
    NothingLands();
    MayAskFirst(attempts, log, s);
    BeginsWithItem("i", s, 1);
    var r := service.Verify(KEY, TheItem(), s, RequestId("i", s, 1));
    assert r == Ok(NotFound);
    WriteNone(service, attempts, log, s);
  }

  method WriteNone(service: DeliveryService, attempts: nat, log: seq<Attempt>, s: string)
    requires OnIt(service, attempts, log) && OnlyOpen(log, s) && (s == "a" || s == "b")
    requires (s, RequestId("i", s, 1)) !in service.suppliers.book
    requires service.suppliers.chance(service.suppliers.drawn).landed == None
    requires !service.dies(service.ticks + 1)
    requires service.Valid()
    modifies service`ticks, service`strays, service.db, service.provider, service.suppliers`book, service.suppliers`inFlight, service.suppliers`drawn
    ensures OnIt(service, attempts, log + [Attempt(s, RequestId("i", s, 1), NoneIssued)])
    ensures service.ticks == old(service.ticks) + 1 && service.suppliers.drawn == old(service.suppliers.drawn) + 1
    ensures service.suppliers.Shelves() == old(service.suppliers.Shelves())
    ensures service.Valid()
  {
    hide DeliveryService.Valid, FactsOf, MayAsk, MayRecord, Onward, OpenSuppliers, Quiet, Hush, Ids, Extends, RequestId, Fits, Explains, Land, Kept;
    NothingLands();
    MayAskFirst(attempts, log, s);
    BeginsWithItem("i", s, 1);
    ghost var f := service.Know(KEY);
    var a := Attempt(s, RequestId("i", s, 1), NoneIssued);
    ExtendsChains(f, s, RequestId("i", s, 1));
    LogOpens(service.config, f, f, TheItem(), a);
    AnswerFits(f, service.suppliers.Shelves(), service.lost + service.strays, a);
    var w := service.Record(KEY, a);
    assert f.(log := f.log + [a]) == Logged(log + [a]);
  }

  // `a` is asked first, its connection breaks, and the request stays under way.
  method BrokenCall(service: DeliveryService)
    requires OnIt(service, 1, [])
    requires (forall n :: service.suppliers.chance(n) == LandsLate(n)) && service.suppliers.drawn == 0 && service.ticks == 0
    requires service.suppliers.Shelves() == Shelf(map[], {})
    requires forall n :: !service.dies(n)
    requires service.Valid()
    modifies service`ticks, service`strays, service`calls, service`heard, service`noted, service`lost, service.db, service.provider, service.suppliers
    ensures OnIt(service, 1, [Attempt("a", "i:a", Broken)])
    ensures service.ticks == 6 && service.suppliers.drawn == 7
    ensures service.suppliers.Shelves() == Shelf(map[], {AT_A})
    ensures service.lost == old(service.lost)
    ensures service.Valid()
  {
    hide DeliveryService.Valid, FactsOf, OpenSuppliers, RequestId, OnIt, Land, Serve;
    Served();
    FirstIds();
    NoAttempts();
    PreferredTurn(service, [], BrokenConnection, None);
    assert [] + [Attempt("a", "i:a", Broken)] == [Attempt("a", "i:a", Broken)];
  }

  // That ends in `failed`, and the fallback is asked; meanwhile the request is served.
  method Fallback(service: DeliveryService)
    requires OnIt(service, 1, [Attempt("a", "i:a", Broken)])
    requires (forall n :: service.suppliers.chance(n) == LandsLate(n)) && service.suppliers.drawn == 7 && service.ticks == 6
    requires service.suppliers.Shelves() == Shelf(map[], {AT_A})
    requires forall n :: !service.dies(n)
    requires service.Valid()
    modifies service`ticks, service`strays, service`calls, service`heard, service`noted, service`lost, service.db, service.provider, service.suppliers
    ensures OnIt(service, 1, [Attempt("a", "i:a", Broken), Attempt("a", "i:a", NoneIssued), Attempt("b", "i:b", AnsweredOk)])
    ensures service.ticks == 11 && service.suppliers.drawn == 14
    ensures AT_A in service.suppliers.book && AT_B in service.suppliers.book
    ensures service.lost == old(service.lost)
    ensures service.Valid()
  {
    hide DeliveryService.Valid, FactsOf, OpenSuppliers, ChainOf, RequestId, OnIt, Land, Serve, Ids;
    var broken, none, ok := Attempt("a", "i:a", Broken), Attempt("a", "i:a", NoneIssued), Attempt("b", "i:b", AnsweredOk);
    FirstIds();
    BrokenThenNone(broken, none);
    assert [broken] + [none] == [broken, none];
    ReadEmptyBook(service, 1, [broken], "a");
    ItLands(Ids(service.db.Snapshot(), 0));
    assert [broken, none] + [ok] == [broken, none, ok];
    Ask(service, 1, [broken, none], "b", OkCode("B"), Some("B"));
  }

  lemma Served()
    ensures Serve(Shelf(map[], {}), AT_A, 0, Answering(BrokenConnection, None)).1 == Shelf(map[], {AT_A})
    ensures forall s, k, code :: k in Serve(s, k, 0, Answering(OkCode(code), Some(code))).1.book
  {
  }

  lemma BrokenThenNone(broken: Attempt, none: Attempt)
    requires broken.outcome == Broken && none.outcome == NoneIssued && none.supplier == broken.supplier
    ensures OnlyOpen([broken], broken.supplier) && NoneIsOpen([broken, none])
  {
    NoAttempts();
    hide OpenSuppliers;
    assert [] + [broken] == [broken] && [broken] + [none] == [broken, none];
    OpenAppend([], broken);
    OpenAppend([broken], none);
    OneAway(broken.supplier);
  }

  lemma OneAway(s: string)
    ensures Without([s], s) == []
  {
    assert [s][..0] == [];
  }

  // A connection breaks after its request was sent; the book is read before the request is served,
  // the supplier counts as failed and the fallback sells its code. Both suppliers have booked one,
  // without a crash and without a timeout.
  method LateCode() returns (service: DeliveryService)
    ensures AT_A in service.suppliers.book && AT_B in service.suppliers.book
    ensures service.Know(KEY).delivery == Some(Delivery("i:b", "b", service.suppliers.book[AT_B]))
    ensures service.Know(KEY).row.status == ItemStatus.Delivered
    ensures service.Know(KEY).log ==
            [Attempt("a", "i:a", Broken), Attempt("a", "i:a", NoneIssued), Attempt("b", "i:b", AnsweredOk)]
    ensures service.lost == service.strays == {}
    ensures service.Valid()
  {
    hide Tolerable, Ready, Traced, PaidAsOwed, FactsOf, OpenSuppliers, RequestId, OnIt, LandsLate;
    var broken, none, ok := Attempt("a", "i:a", Broken), Attempt("a", "i:a", NoneIssued), Attempt("b", "i:b", AnsweredOk);
    service := ClaimedOrder(1, (n: nat) => LandsLate(n), (n: nat) => false);
    Begun(service, 1);
    BrokenCall(service);
    Fallback(service);
    FirstIds();
    BrokenThenNone(broken, none);
    assert [broken, none] + [ok] == [broken, none, ok];
    OpenAppend([broken, none], ok);
    LooksLate();
    Sell(service, 1, [broken, none, ok], "b");
  }

  lemma LooksLate()
    ensures LandsLate(15).looks && forall n :: !LandsLate(n).strange
  {
  }

  // ---- One slot, two calls ----

  // Under a limit of one the single slot pays for the call, and the lookup after it goes unpaid.
  method UnpaidLookup() returns (client: SupplierClient)
    ensures client.limits("a") == 1 && client.issues == 1 && client.lookups == 1 && client.slots == 1
    ensures Within(Tally(0, 0, 0), Tally(client.issues, client.lookups, client.slots), 1, 1, 1)
    ensures client.issues + client.lookups > client.slots
  {
    client := new SupplierClient(s => 1, (n: nat) => Answering(OkCode("A"), Some("A")));
    var reply := client.Issue("a", "i:a");
    var booked := client.Lookup("a", "i:a");
  }

  lemma Begun(service: DeliveryService, attempts: nat)
    requires service.Held(KEY) && service.Know(KEY) == Facts0()
    requires service.config == TwoSuppliers(attempts) && service.Alone() && service.db.deliveries == map[] && service.db.discrepancies == []
    requires service.suppliers.limits("a") == 0 && service.suppliers.limits("b") == 0
    ensures OnIt(service, attempts, [])
  {
    assert Facts0() == Logged([]);
  }

  lemma NoAttempts()
    ensures OpenSuppliers([]) == []
  {
  }

  lemma OneDefinite(a: Attempt)
    requires Definite(a.outcome)
    ensures NoneIsOpen([a])
  {
    assert [] + [a] == [a];
    OpenAppend([], a);
  }

  lemma TwoDefinite(a: Attempt, b: Attempt)
    requires NoneIsOpen([a]) && Definite(b.outcome)
    ensures NoneIsOpen([a, b])
  {
    assert [a] + [b] == [a, b];
    OpenAppend([a], b);
  }
}
