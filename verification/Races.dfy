/** Runs in which the audit reports what is not so, because a pass moved on between its reads. */
module Races {
  import opened Base
  import opened Tables
  import opened RequestIds
  import opened Consistency
  import opened Evidence
  import opened Passing
  import opened Requests
  import opened Suppliers
  import opened Provider
  import opened Outcomes
  import opened Bookings
  import opened Chain
  import opened Storage
  import opened Service
  import opened Transcripts
  import opened Findings
  import opened Audit

  const ENTRY := StatementEntry("i:a", "A")

  // `a` books its code at once.
  function InStock(n: nat): Draw {
    if n == 5 then Answering(OkCode("A"), Some("A")) else Answering(Unreachable, None)
  }

  lemma ServedA()
    ensures Serve(Shelf(map[], {}), AT_A, 0, InStock(5)) == (OkCode("A"), Shelf(map[AT_A := "A"], {}))
  {
  }

  // `a` is about to be asked.
  method FirstTurn() returns (service: DeliveryService)
    ensures fresh(service) && fresh(service.db) && fresh(service.suppliers) && fresh(service.provider)
    ensures OnIt(service, 1, []) && service.suppliers.drawn == 4 && service.suppliers.Shelves() == Shelf(map[], {})
    ensures service.suppliers.chance(4) == InStock(4) && service.suppliers.chance(5) == InStock(5)
    ensures forall n :: !service.dies(n)
    ensures service.Valid()
  {
    hide Tolerable, Ready, Traced, PaidAsOwed, FactsOf, OpenSuppliers, RequestId, Land, Serve, ChainOf;
    service := ClaimedOrder(1, (n: nat) => InStock(n), (n: nat) => false);
    Begun(service, 1);
    NoAttempts();
    var chain := OpenPass(service, 1, []);
    var rounds := service.RejectedRounds(KEY, TheItem(), "a");
  }

  // The answer to the call for the item is on its way back.
  method CallUnderWay() returns (service: DeliveryService)
    ensures service.suppliers.book == map[AT_A := "A"] && AT_A in service.lost
    ensures service.Know(KEY) == Facts0() && service.Held(KEY)
    ensures service.db.deliveries == map[] && service.db.discrepancies == []
    ensures service.Valid()
  {
    hide Tolerable, Ready, Traced, PaidAsOwed, FactsOf, OpenSuppliers, RequestId, Land, Serve, Ids, MayAsk, Explains;
    service := FirstTurn();
    FirstIds();
    NoAttempts();
    NothingLands();
    ServedA();
    MayAskFirst(1, [], "a");
    assert Logged([]) == Facts0();
    var reply := service.Request(KEY, TheItem(), "a", "i:a");
  }

  // Nobody has written down a call for the item.
  lemma NothingAsked(t: Tables, c: Config)
    requires Ready(t, c) && ValidKey(t, KEY) && FactsOf(t, c, KEY) == Facts0()
    ensures !Asked(t, "a", "i:a")
  {
    if other :| AskedUnder(t, "a", "i:a", other) {
      OwnRequestOf(t, c, "a", "i:a", other);
      hide EvidenceOk, RequestId;
      var r: nat :| r >= 1 && "i:a" == RequestId(ItemAt(t, other).id, "a", r);
      FirstIds();
      RequestIdsInjective(ItemAt(t, other).id, "a", r, "i", "a", 1);
      assert false;
    }
  }

  // The audit reads while the answer is on its way: "never requested by us" is said of a request
  // that was made, and that the pass will deliver.
  method ARequestTakenForUnknown() returns (service: DeliveryService, d: Option<Discrepancy>)
    ensures d.Some? && d.value.kind == UnknownRequest && d.value.supplier == "a" && d.value.requestId == "i:a"
    ensures Justified(Views(service.db.Snapshot(), service.db.Snapshot(), service.db.Snapshot()), "a", ENTRY, d.value)
    ensures AT_A in service.suppliers.book && service.suppliers.book[AT_A] == ENTRY.code
    ensures Requested(service.calls, "a", "i:a")
    ensures service.Valid()
  {
    hide Tolerable, Ready, Traced, PaidAsOwed, FactsOf, OpenSuppliers;
    service := CallUnderWay();
    var t := service.db.Snapshot();
    NothingAsked(t, service.config);
    LostIsRequested(service.calls, service.lost, service.strays, service.suppliers.Shelves(), service.config, t);
    d := Judge(Views(t, t, t), "a", ENTRY);
  }

  lemma LostIsRequested(calls: seq<Call>, lost: set<Entry>, strays: set<Entry>, shelf: Shelf, c: Config, t: Tables)
    requires Traced(calls, lost, strays, shelf, c, t) && AT_A in lost
    ensures Requested(calls, "a", "i:a")
  {
    hide AllExplained;
  }

  // The code was answered and booked, and is not delivered yet.
  method AnsweredOrder() returns (service: DeliveryService)
    ensures fresh(service) && fresh(service.db) && fresh(service.suppliers) && fresh(service.provider)
    ensures OnIt(service, 1, [Attempt("a", "i:a", AnsweredOk)])
    ensures service.suppliers.book == map[AT_A := "A"] && service.suppliers.drawn == 7 && service.ticks == 6
    ensures (forall n :: service.suppliers.chance(n) == InStock(n)) && forall n :: !service.dies(n)
    ensures service.Valid()
  {
    hide Tolerable, Ready, Traced, PaidAsOwed, FactsOf, OpenSuppliers, ChainOf, RequestId, OnIt, Land, Serve;
    service := ClaimedOrder(1, (n: nat) => InStock(n), (n: nat) => false);
    Begun(service, 1);
    NoAttempts();
    FirstIds();
    NothingLands();
    ServedA();
    var chain := OpenPass(service, 1, []);
    Ask(service, 1, [], "a", OkCode("A"), Some("A"));
    assert [] + [Attempt("a", "i:a", AnsweredOk)] == [Attempt("a", "i:a", AnsweredOk)];
  }

  // The tables before and after the delivery.
  method DeliveredOrder() returns (before: Tables, after: Tables, c: Config)
    ensures Ready(before, c) && Ready(after, c) && Accrues(before, after) && c.suppliers == ["a", "b"]
    ensures before.deliveries == map[] && after.discrepancies == []
    ensures DeliveredUnder(after, "a", "i:a", KEY) && after.deliveries[KEY].code == "A"
    ensures AskedUnder(after, "a", "i:a", KEY) && ItemAt(after, KEY).status == ItemStatus.Delivered
  {
    hide Tolerable, Ready, Traced, PaidAsOwed, FactsOf, OpenSuppliers, RequestId;
    var ok := Attempt("a", "i:a", AnsweredOk);
    var service := AnsweredOrder();
    before, c := service.db.Snapshot(), service.config;
    FirstIds();
    OneDefinite(ok);
    Sell(service, 1, [ok], "a");
    after := service.db.Snapshot();
    DeliveredFacts(after, c, ok);
  }

  lemma DeliveredFacts(t: Tables, c: Config, ok: Attempt)
    requires ok == Attempt("a", "i:a", AnsweredOk) && ValidKey(t, KEY)
    requires FactsOf(t, c, KEY).log == [ok] && FactsOf(t, c, KEY).delivery == Some(Delivery("i:a", "a", "A"))
    requires FactsOf(t, c, KEY).row == TheItem().(status := ItemStatus.Delivered)
    ensures DeliveredUnder(t, "a", "i:a", KEY) && t.deliveries[KEY].code == "A"
    ensures AskedUnder(t, "a", "i:a", KEY) && ItemAt(t, KEY).status == ItemStatus.Delivered
  {
    assert t.attempts[KEY][0] == ok;
  }

  // The delivery is committed between the audit's first and second read.
  function CommitsBetween(before: Tables, after: Tables): Meanwhile {
    (n: nat, m: Moment) => if n == 2 && m.t == before then Moment(after, [], {}) else m
  }

  lemma CommitIsBearable(before: Tables, after: Tables, c: Config)
    requires Ready(after, c) && Accrues(before, after)
    ensures Bearable(CommitsBetween(before, after), c)
  {
    hide Ready, Accrues;
    forall t ensures Accrues(t, t) { AccruesAlready(t); }
  }

  // The audit reads the deliveries, the pass delivers, the audit reads the requests: "settled without
  // this code" is said of the very code that was delivered.
  method ADeliveryTakenForUnused() returns (audit: SupplierAudit, v: Views, d: Option<Discrepancy>)
    ensures ViewsOk(v, audit.config) && v.noted == audit.db.Snapshot()
    ensures d.Some? && d.value.kind == UnusedIssue && Justified(v, "a", ENTRY, d.value)
    ensures DeliveredAs(audit.db.Snapshot(), "a", ENTRY)
    ensures audit.Valid()
  {
    hide Ready, Accrues, Bearable, Justified, Accounted, AskedUnder;
    var before, after, c := DeliveredOrder();
    var db := new Database();
    db.Rollback(before);
    CommitIsBearable(before, after, c);
    audit := new SupplierAudit(db, c, CommitsBetween(before, after), [], {});
    v := audit.Read();
    d := Judge(v, "a", ENTRY);
    JudgedUnused(v, before, after, c, d);
  }

  lemma JudgedUnused(v: Views, before: Tables, after: Tables, c: Config, d: Option<Discrepancy>)
    requires v == Views(before, after, after) && Ready(after, c)
    requires before.deliveries == map[] && after.discrepancies == []
    requires AskedUnder(after, "a", "i:a", KEY) && ItemAt(after, KEY).status == ItemStatus.Delivered
    requires (d.None? ==> Accounted(v, "a", ENTRY)) && (d.Some? ==> Justified(v, "a", ENTRY, d.value))
    ensures d.Some? && d.value.kind == UnusedIssue
  {
    OneItem(after, c, KEY);
    hide Ready;
  }

  lemma OneItem(t: Tables, c: Config, key: ItemKey)
    requires Ready(t, c) && AskedUnder(t, "a", "i:a", key)
    ensures forall other | AskedUnder(t, "a", "i:a", other) :: other == key
  {
    forall other | AskedUnder(t, "a", "i:a", other) ensures other == key {
      OneItemPerRequest(t, c, "a", "i:a", key, other);
    }
  }
}
