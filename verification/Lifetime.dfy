/**
 A worker process over its whole life: orders and webhooks arrive, orders are claimed, worked on,
 requeued and retried, and every pass may be cut short. What holds at the start holds for ever.
 */
module Lifetime {
  import opened Base
  import opened Tables
  import opened Books
  import opened Consistency
  import opened Queue
  import opened Evidence
  import opened Passing
  import opened Requests
  import opened Suppliers
  import opened Outcomes
  import opened Bookings
  import opened Storage
  import opened Service
  import opened OrderResults
  import opened PassResults
  import opened Worker
  import opened Provider
  import Machine
  import Safety

  // ---- Transactions that write no evidence ----

  lemma ClaimOwn(t: Tables, c: Config, o: nat, now: int)
    requires Ready(t, c) && Claim(t, o, now).Some?
    ensures OwnOrder(t, Claim(t, o, now).value, c, o)
    ensures Claim(t, o, now).value.orders[o].status == Delivering && t.orders[o].items != []
  {
    assert OrderOk(t.orders[o]);
    hide Consistent;
    ClaimKeeps(t, o, now);
    OrderKeeps(t, Claim(t, o, now).value, c, o);
  }

  lemma RequeueOwn(t: Tables, c: Config, o: nat, previous: OrderStatus, now: int)
    requires Ready(t, c) && o < |t.orders| && IsPaid(t.orders[o].status) && IsPaid(previous)
    ensures OwnOrder(t, Requeue(t, o, previous, now), c, o)
  {
    hide Consistent;
    RequeueKeeps(t, o, previous, now);
    OrderKeeps(t, Requeue(t, o, previous, now), c, o);
  }

  lemma RetryOwn(t: Tables, c: Config, o: nat)
    requires Ready(t, c) && MoveOrder(t, o, DeliveryFailed, Paid, NoExtra).Some?
    ensures OwnOrder(t, MoveOrder(t, o, DeliveryFailed, Paid, NoExtra).value, c, o)
  {
    hide Consistent;
    MoveKeeps(t, o, DeliveryFailed, Paid, NoExtra);
    OrderKeeps(t, MoveOrder(t, o, DeliveryFailed, Paid, NoExtra).value, c, o);
  }

  // ---- Items that are new have no evidence yet ----

  lemma {:induction false} NothingRejected(found: seq<Discrepancy>, key: ItemKey, supplier: string)
    requires forall i | 0 <= i < |found| && Rejecting(found[i]) :: found[i].item != Some(key)
    ensures Rejections(found, key, supplier) == []
  {
    if found != [] {
      NothingRejected(found[..|found| - 1], key, supplier);
    }
  }

  lemma NewItemFacts(t: Tables, t': Tables, c: Config, key: ItemKey)
    requires EvidenceOk(t, c) && t'.attempts == t.attempts && t'.discrepancies == t.discrepancies
    requires !ValidKey(t, key)
    ensures FactsOk(c, FactsOf(t', c, key))
  {
    forall s ensures Rejections(t.discrepancies, key, s) == [] { NothingRejected(t.discrepancies, key, s); }
  }

  lemma EvidenceExtends(t: Tables, t': Tables, c: Config)
    requires EvidenceOk(t, c) && t'.attempts == t.attempts && t'.discrepancies == t.discrepancies
    requires forall a | ValidKey(t, a) :: ValidKey(t', a) && ItemAt(t', a).id == ItemAt(t, a).id
    ensures EvidenceOk(t', c)
  {
    SameRejections(t, t', c);
    hide RejectedBy, RejectionsBelong, FactsOk;
    forall a | ValidKey(t', a) ensures FactsOk(c, FactsOf(t', c, a)) {
      if ValidKey(t, a) {
        assert FactsOk(c, FactsOf(t, c, a));
        SameEvidence(c, FactsOf(t, c, a), FactsOf(t', c, a));
      } else {
        NewItemFacts(t, t', c, a);
      }
    }
  }

  lemma ApplyTouches(t: Tables, w: Webhook, now: int)
    requires ApplyPayment(t, w, now).Some?
    ensures var t' := ApplyPayment(t, w, now).value.0;
            SameItems(t, t') && t'.attempts == t.attempts && t'.discrepancies == t.discrepancies && t'.deliveries == t.deliveries
  {
    if 0 <= w.order < |t.orders| {
      MoveTouches(t, w.order, Created, PaymentFailed, NoExtra);
      MoveTouches(t, w.order, Created, Paid, SetPaidAt(now));
    }
    hide Clashes, MoveOrder;
  }

  lemma MoveTouches(t: Tables, o: nat, from: OrderStatus, to: OrderStatus, extra: Extra)
    ensures match MoveOrder(t, o, from, to, extra)
            case None => true
            case Some(t') => SameItems(t, t') && t' == t.(orders := t'.orders)
  {
  }

  lemma WebhookTouches(t: Tables, w: Webhook, now: int)
    requires HandleWebhook(t, w, now).Some?
    ensures var t' := HandleWebhook(t, w, now).value.0;
            SameItems(t, t') && t'.attempts == t.attempts && t'.discrepancies == t.discrepancies && t'.deliveries == t.deliveries
  {
    if w.event !in t.payments {
      ApplyTouches(t.(payments := t.payments[w.event := RecordedEvent(w, Received)]), w, now);
    }
    hide ApplyPayment;
  }

  lemma WebhookIsReady(t: Tables, c: Config, w: Webhook, now: int)
    requires Ready(t, c)
    ensures HandleWebhook(t, w, now).Some?
    ensures var t' := HandleWebhook(t, w, now).value.0;
            Ready(t', c) && Accrues(t, t')
  {
    hide Consistent, EvidenceOk;
    WebhookKeeps(t, w, now);
    WebhookTouches(t, w, now);
    EvidenceExtends(t, HandleWebhook(t, w, now).value.0, c);
  }

  lemma CreateIsReady(t: Tables, c: Config, currency: string, units: seq<Unit>, now: int)
    requires Ready(t, c) && FreshIds(t, units) && CreateOrder(t, currency, units, now).Some?
    ensures var t' := CreateOrder(t, currency, units, now).value;
            Ready(t', c) && Accrues(t, t')
  {
    hide Consistent, EvidenceOk;
    CreateKeeps(t, currency, units, now);
    var t' := CreateOrder(t, currency, units, now).value;
    EvidenceExtends(t, t', c);
  }

  lemma NothingIsReady(c: Config)
    requires ConfigOk(c)
    ensures Ready(EMPTY, c)
  {
    EmptyIsConsistent();
    assert forall key :: !ValidKey(EMPTY, key);
  }

  // ---- The process ----

  // A process on an empty database.
  method Begin(config: Config, limits: string -> int, chance: Chance, others: Schedule, dies: nat -> bool)
    returns (service: DeliveryService)
    requires ConfigOk(config) && Tolerable(others, config)
    ensures service.Valid() && service.calls == [] && service.lost == {} && service.db.Snapshot() == EMPTY
    ensures service.strays == service.inherited == {}
    ensures service.config == config && service.others == others && service.dies == dies && service.ticks == 0
    ensures service.suppliers.limits == limits && service.suppliers.chance == chance
    ensures service.suppliers.Shelves() == Shelf(map[], {}) && service.suppliers.drawn == 0
    ensures fresh(service) && fresh(service.db) && fresh(service.suppliers) && fresh(service.provider)
  {
    hide Tolerable, Ready;
    var db := new Database();
    var suppliers := new SupplierClient(limits, chance);
    var provider := new PaymentProvider();
    NothingIsReady(config);
    EmptyShelf(EMPTY, config, None);
    service := new DeliveryService(db, suppliers, provider, config, others, dies);
  }

  method Receive(service: DeliveryService, w: Webhook, now: int)
    requires service.Valid()
    modifies service.db
    ensures service.Valid()
    ensures HandleWebhook(old(service.db.Snapshot()), w, now).Some?
    ensures service.db.Snapshot() == HandleWebhook(old(service.db.Snapshot()), w, now).value.0
  {
    hide Traced, PaidAsOwed, Tolerable, Ready, HandleWebhook, Accrues;
    ghost var t := service.db.Snapshot();
    WebhookIsReady(t, service.config, w, now);
    WebhookTouches(t, w, now);
    var outcome := service.db.Handle(w, now);
    TracedAside(service.calls, service.lost, service.strays, service.suppliers.Shelves(), service.config, t, service.db.Snapshot());
    OwedStays(service.provider.payouts, t, service.db.Snapshot());
  }

  method Create(service: DeliveryService, currency: string, units: seq<Unit>, now: int)
    requires service.Valid()
    requires FreshIds(service.db.Snapshot(), units) && Unused(service.suppliers.Shelves(), units)
    modifies service.db
    ensures service.Valid()
    ensures match CreateOrder(old(service.db.Snapshot()), currency, units, now)
            case None => service.db.Snapshot() == old(service.db.Snapshot())
            case Some(t) => service.db.Snapshot() == t
  {
    hide Traced, PaidAsOwed, Tolerable, Ready, CreateOrder, FreshIds, Accrues, Unused;
    ghost var t := service.db.Snapshot();
    if CreateOrder(t, currency, units, now).Some? {
      CreateIsReady(t, service.config, currency, units, now);
      TracedCreate(service.calls, service.lost, service.strays, service.suppliers.Shelves(), service.config, t, currency, units, now);
      OwedStays(service.provider.payouts, t, CreateOrder(t, currency, units, now).value);
    }
    var id := service.db.Create(currency, units, now);
  }

  // The order is this worker's from here on.
  method Take(service: DeliveryService, o: nat, now: int) returns (taken: bool)
    requires service.Valid()
    modifies service.db
    ensures service.Valid()
    ensures taken <==> Claim(old(service.db.Snapshot()), o, now).Some?
    ensures service.db.Snapshot() ==
            if taken then Claim(old(service.db.Snapshot()), o, now).value else old(service.db.Snapshot())
    ensures taken ==> service.HeldOrder(o)
  {
    hide Traced, PaidAsOwed, Tolerable, Ready, Claim, OwnOrder, Accrues;
    ghost var t := service.db.Snapshot();
    var claimed := service.db.ClaimOrder(o, now);
    if claimed.Err? {
      return false;
    }
    ClaimOwn(t, service.config, o, now);
    ClaimedItems(t, o, now);
    OwnOrderStays(t, service.db.Snapshot(), service.config, o);
    TracedOwnOrder(service.calls, service.lost, service.strays, service.suppliers.Shelves(), service.config, t, service.db.Snapshot(), o);
    OwedStays(service.provider.payouts, t, service.db.Snapshot());
    return true;
  }

  // Claim the next due order and work on it; the pass may be cut short anywhere. `claimed` is the world
  // the pass begins in, `w` the one its verdict is committed in.
  method WorkOn(service: DeliveryService, now: int)
    returns (r: Result<()>, ghost next: Option<nat>, ghost claimed: World, ghost w: World, ghost results: seq<ItemResult>)
    requires service.Valid()
    modifies service`ticks, service`strays, service`calls, service`heard, service`noted, service`lost, service.db, service.provider, service.suppliers
    ensures service.Valid() && old(service.calls) <= service.calls && old(service.ticks) <= service.ticks
    ensures IsNext(old(service.db.orders), now, next)
    ensures next.None? ==> r == Ok(()) && service.Seen() == old(service.Seen())
    ensures next.Some? ==>
              && claimed.t.orders == old(service.db.orders)[next.value := old(service.db.orders)[next.value].(status := Delivering)]
              && (r.Ok? ==> PassDone(service.config, claimed, w, next.value, results))
    ensures r.Err? ==> r.fault == Crash && service.dies(service.ticks) && old(service.ticks) < service.ticks
    ensures if r.Err? then OneMore(old(service.lost), service.lost) else service.lost == old(service.lost)
  {
    hide Traced, PaidAsOwed, Tolerable, Ready, PassDone;
    claimed, w, results := service.Seen(), service.Seen(), [];
    var due := PickNext(service.db.orders, now);
    next := due;
    if due.None? {
      r := Ok(());
      return;
    }
    ghost var t := service.db.Snapshot();
    DueIsClaimed(t, due.value, now);
    var taken := Take(service, due.value, now);
    claimed := service.Seen();
    r, w, results := service.Deliver(due.value);
  }

  lemma DueIsClaimed(t: Tables, o: nat, now: int)
    requires o < |t.orders| && t.orders[o].status == Paid && (t.orders[o].notBefore.Some? ==> t.orders[o].notBefore.value <= now)
    ensures Claim(t, o, now).Some?
    ensures Claim(t, o, now).value.orders == t.orders[o := t.orders[o].(status := Delivering)]
  {
  }

  // A stale or parked order goes back into the queue.
  method SweepOne(service: DeliveryService, o: nat, now: int)
    requires service.Valid()
    modifies service.db
    ensures service.Valid()
    ensures var t := old(service.db.Snapshot());
            service.db.Snapshot() ==
            if o < |t.orders| && t.orders[o].status in {Delivering, DeliveryFailed} then Requeue(t, o, t.orders[o].status, now) else t
  {
    hide Traced, PaidAsOwed, Tolerable, Ready, Requeue, OwnOrder, Accrues;
    ghost var t := service.db.Snapshot();
    if o < |service.db.orders| && service.db.orders[o].status in {Delivering, DeliveryFailed} {
      var previous := service.db.orders[o].status;
      RequeueOwn(t, service.config, o, previous, now);
      service.db.RequeueOrder(o, previous, now);
      OwnOrderStays(t, service.db.Snapshot(), service.config, o);
      TracedOwnOrder(service.calls, service.lost, service.strays, service.suppliers.Shelves(), service.config, t, service.db.Snapshot(), o);
      OwedStays(service.provider.payouts, t, service.db.Snapshot());
    }
  }

  // The operator's retry: the status and its event are two commits.
  method RetryOne(service: DeliveryService, o: nat) returns (r: Result<()>)
    requires service.Valid()
    modifies service`ticks, service`strays, service.db, service.provider, service.suppliers`book, service.suppliers`inFlight, service.suppliers`drawn
    ensures service.Valid() && old(service.ticks) <= service.ticks
    ensures r == Err(LostRace) <==>
            !(o < |old(service.db.orders)| && old(service.db.orders)[o].status == DeliveryFailed)
    ensures r == Err(LostRace) ==> service.Seen() == old(service.Seen())
    ensures r.Ok? ==>
              && service.db.events != []
              && var e := service.db.events[|service.db.events| - 1];
              e.order == o && e.body == OrderMoved(DeliveryFailed, Paid, None)
  {
    hide Traced, PaidAsOwed, Tolerable, Ready, MoveOrder, OwnOrder, Accrues;
    ghost var t := service.db.Snapshot();
    RetriedIsThere(t, o);
    if MoveOrder(t, o, DeliveryFailed, Paid, NoExtra).Some? {
      RetryOwn(t, service.config, o);
    }
    var moved := service.db.UpdateOrder(o, DeliveryFailed, Paid, NoExtra);
    if !moved {
      return Err(LostRace);
    }
    OwnOrderStays(t, service.db.Snapshot(), service.config, o);
    TracedOwnOrder(service.calls, service.lost, service.strays, service.suppliers.Shelves(), service.config, t, service.db.Snapshot(), o);
    OwedStays(service.provider.payouts, t, service.db.Snapshot());
    r := service.Announce(o, DeliveryFailed, Paid);
  }

  lemma RetriedIsThere(t: Tables, o: nat)
    ensures MoveOrder(t, o, DeliveryFailed, Paid, NoExtra).Some? <==> o < |t.orders| && t.orders[o].status == DeliveryFailed
  {
  }

  lemma ClaimedItems(t: Tables, o: nat, now: int)
    requires Claim(t, o, now).Some?
    ensures o < |t.orders| == |Claim(t, o, now).value.orders|
    ensures Claim(t, o, now).value.orders[o].items == t.orders[o].items
  {
  }

  // ---- What is lost, and what strays ----

  // How often the process dies after the await `from` and up to `to`.
  function Deaths(dies: nat -> bool, from: nat, to: nat): nat {
    if to <= from then 0 else Deaths(dies, from, to - 1) + if dies(to) then 1 else 0
  }

  lemma {:induction false} DeathsGrow(dies: nat -> bool, from: nat, mid: nat, to: nat)
    requires from <= mid <= to
    ensures Deaths(dies, from, mid) <= Deaths(dies, from, to)
    ensures mid < to && dies(to) ==> Deaths(dies, from, mid) < Deaths(dies, from, to)
  {
    if mid < to {
      DeathsGrow(dies, from, mid, to - 1);
    }
  }

  lemma {:induction false} NoDeaths(dies: nat -> bool, from: nat, to: nat)
    requires forall n | from < n <= to :: !dies(n)
    ensures Deaths(dies, from, to) == 0
  {
    if from < to {
      NoDeaths(dies, from, to - 1);
    }
  }

  // Every lost call has a death of its own.
  ghost predicate LostToDeaths(was: set<Entry>, lost: set<Entry>, deaths: nat) {
    was <= lost && |lost - was| <= deaths
  }

  lemma LostToOneMore(was: set<Entry>, lost: set<Entry>, lost': set<Entry>, deaths: nat, deaths': nat)
    requires LostToDeaths(was, lost, deaths) && deaths <= deaths'
    requires lost' == lost || (OneMore(lost, lost') && deaths < deaths')
    ensures LostToDeaths(was, lost', deaths')
  {
    if k :| k in lost' && k !in lost {
      assert lost' - was == (lost - was) + {k};
    } else {
      assert lost' == lost;
    }
  }

  lemma NothingLostYet(lost: set<Entry>)
    ensures LostToDeaths(lost, lost, 0)
  {
    assert lost - lost == {};
  }

  // A process that began with empty books and works alone, nobody else asking under its ids, can
  // account for all there is: whatever is booked or under way under an id of an item has an attempt
  // in the log, is rejected, or belongs to a call that a crash cut off.
  lemma AloneItExplainsAll(service: DeliveryService, key: ItemKey, k: Entry)
    requires service.Valid() && service.Alone() && service.inherited == {}
    requires forall n :: !service.suppliers.chance(n).strange
    requires ValidKey(service.db.Snapshot(), key) && Mine(ItemAt(service.db.Snapshot(), key).id, k)
    requires k in service.suppliers.book || k in service.suppliers.inFlight
    ensures || AskedUnder(service.db.Snapshot(), k.0, k.1, key)
            || IsRejected(service.Know(key), k)
            || (k in service.lost && Requested(service.calls, k.0, k.1))
  {
    hide Traced, PaidAsOwed, Tolerable, Ready, FactsOf, IsRejected, AskedUnder, Requested, Mine;
    EntryWasAskedFor(service.calls, service.lost, service.strays, service.suppliers.Shelves(), service.config,
                     service.db.Snapshot(), key, k);
  }

  // Any number of steps, in any order: every call ever made was sound, rejected ids were never
  // presented again, the tables stayed consistent with at most one supplier open per item, and no
  // more calls were lost than the process died.
  method Live(service: DeliveryService, steps: nat)
    requires service.Valid()
    modifies service`ticks, service`strays, service`calls, service`heard, service`noted, service`lost, service.db, service.provider, service.suppliers
    ensures service.Valid() && old(service.calls) <= service.calls
    ensures Ready(service.db.Snapshot(), service.config) && PaidAsOwed(service.db.Snapshot(), service.provider.payouts)
    ensures Traced(service.calls, service.lost, service.strays, service.suppliers.Shelves(), service.config, service.db.Snapshot())
    ensures service.Alone() && (forall n :: !service.suppliers.chance(n).strange) ==> service.strays <= service.inherited
    ensures old(service.ticks) <= service.ticks
    ensures LostToDeaths(old(service.lost), service.lost, Deaths(service.dies, old(service.ticks), service.ticks))
    ensures (forall n | old(service.ticks) < n <= service.ticks :: !service.dies(n)) ==> service.lost == old(service.lost)
  {
    hide Traced, PaidAsOwed, Tolerable, Ready, FreshIds, Accrues, Deaths, LostToDeaths;
    ghost var from := service.ticks;
    NoDeaths(service.dies, from, from);
    NothingLostYet(service.lost);
    for n := 0 to steps
      invariant service.Valid() && old(service.calls) <= service.calls && from <= service.ticks
      invariant LostToDeaths(old(service.lost), service.lost, Deaths(service.dies, from, service.ticks))
    {
      ghost var before, was := service.ticks, service.lost;
      var choice: nat, o: nat, now: int, w: Webhook, currency: string, units: seq<Unit> := *, *, *, *, *, *;
      var rested := service.Rest();
      match choice {
        case 0 =>
          ghost var next, claimed, w, results;
          var worked;
          worked, next, claimed, w, results := WorkOn(service, now);
        case 1 => SweepOne(service, o, now);
        case 2 => var retried := RetryOne(service, o);
        case 3 => Receive(service, w, now);
        case 4 =>
          if Machine.IdsFree(service.db.Snapshot(), units) && Unused(service.suppliers.Shelves(), units) {
            Machine.FreeIsFresh(service.db.Snapshot(), units);
            Create(service, currency, units, now);
          }
        case _ =>
      }
      DeathsGrow(service.dies, from, before, service.ticks);
      LostToOneMore(old(service.lost), was, service.lost, Deaths(service.dies, from, before),
                    Deaths(service.dies, from, service.ticks));
    }
    if forall n | from < n <= service.ticks :: !service.dies(n) {
      NoDeaths(service.dies, from, service.ticks);
      NothingLost(old(service.lost), service.lost);
    }
  }

  lemma NothingLost(was: set<Entry>, lost: set<Entry>)
    requires LostToDeaths(was, lost, 0)
    ensures lost == was
  {
    assert lost - was == {};
  }
}
