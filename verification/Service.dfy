/**
 One worker's pass over one order: suppliers, rounds and attempts, against suppliers that may lie
 or stay silent, with other workers busy on other orders and a crash possible at every await.
 */
module Service {
  import opened Base
  import opened Tables
  import opened RequestIds
  import opened Consistency
  import opened Evidence
  import opened Passing
  import opened Requests
  import opened Suppliers
  import opened Replies
  import opened Storage
  import opened Provider
  import opened Outcomes
  import opened Bookings
  import opened Chain
  import opened PassResults
  import opened OrderResults
  import opened Leftovers
  import opened Rounds
  import Machine

  class DeliveryService {
    const db: Database
    const suppliers: SupplierClient
    const provider: PaymentProvider
    const config: Config
    const others: Schedule
    const dies: nat -> bool  // whether the process dies at the n-th await
    var ticks: nat
    ghost var calls: seq<Call>
    ghost var heard: seq<Heard>   // every answer, in the order they came
    ghost var noted: seq<Discrepancy> // every finding this worker had to make
    ghost var lost: set<Entry>    // asked under, and the answer not written down
    ghost var strays: set<Entry>  // left in the books by other workers, and not explained by their logs
    ghost const inherited: set<Entry>  // in the books at the start, and not explained then

    constructor (
      db: Database, suppliers: SupplierClient, provider: PaymentProvider, config: Config, others: Schedule, dies: nat -> bool)
      requires Tolerable(others, config) && Ready(db.Snapshot(), config) && PaidAsOwed(db.Snapshot(), provider.payouts)
      ensures Valid() && calls == [] && heard == [] && noted == [] && lost == {} && ticks == 0
      ensures strays == inherited == Unexplained(db.Snapshot(), config, suppliers.Shelves(), None)
      ensures this.db == db && this.suppliers == suppliers && this.provider == provider && this.config == config
      ensures this.others == others && this.dies == dies
    {
      this.db, this.suppliers, this.provider, this.config := db, suppliers, provider, config;
      this.others, this.dies := others, dies;
      ticks, calls, heard, noted, lost := 0, [], [], [], {};
      inherited := Unexplained(db.Snapshot(), config, suppliers.Shelves(), None);
      strays := Unexplained(db.Snapshot(), config, suppliers.Shelves(), None);
      TracedAtFirst(suppliers.Shelves(), config, db.Snapshot());
    }

    ghost predicate Valid()
      reads this, db, provider, suppliers
    {
      && ConfigOk(config)
      && Tolerable(others, config)
      && Ready(db.Snapshot(), config)
      && Traced(calls, lost, strays, suppliers.Shelves(), config, db.Snapshot())
      && PaidAsOwed(db.Snapshot(), provider.payouts)
      && Accounted()
    }

    // As long as nobody else does anything and nobody else asks under its ids, nothing strays.
    ghost predicate Accounted()
      reads this
    {
      Alone() && (forall n :: !suppliers.chance(n).strange) ==> strays <= inherited
    }

    predicate Held(key: ItemKey)
      reads db
    {
      ValidKey(db.Snapshot(), key) && db.orders[key.order].status == Delivering
    }

    ghost function Know(key: ItemKey): Facts
      reads db
    {
      FactsOf(db.Snapshot(), config, key)
    }

    // A round of an item this worker holds.
    ghost predicate Asking(key: ItemKey, item: Item, supplier: string, requestId: string)
      reads db
    {
      && Held(key)
      && supplier in config.suppliers
      && Mine(item.id, (supplier, requestId))
      && MayAsk(config, Know(key), item, supplier, requestId)
    }

    ghost function Seen(): World
      reads this, db, provider, suppliers
    {
      World(db.Snapshot(), provider.payouts, suppliers.Shelves(), calls, heard, lost, strays)
    }

    function Spent(): Tally
      reads suppliers
    {
      Tally(suppliers.issues, suppliers.lookups, suppliers.slots)
    }

    // What holds across awaits, whatever this worker wrote about its item in between.
    twostate predicate Waited(key: ItemKey, scope: Scope)
      reads this, db, provider, suppliers
    {
      Valid() && Held(key) && Onward(old(Seen()), Seen(), config, key, scope) && old(ticks) <= ticks
    }

    // The process died at an await since.
    twostate predicate Died()
      reads this
    {
      old(ticks) < ticks && dies(ticks)
    }

    // Just this was heard since.
    twostate predicate HeardOnce(key: ItemKey, a: Answer)
      reads this
    {
      heard == old(heard) + [Heard(key, a)]
    }

    // Every call made since is written down, or all but the one the process died on.
    twostate predicate Answered(done: bool)
      reads this
    {
      if done then lost == old(lost) else OneMore(old(lost), lost)
    }

    // Nothing was asked under `mine` meanwhile.
    twostate predicate Silent(mine: Entry)
      reads suppliers
    {
      Quiet(old(suppliers.Shelves()), suppliers.Shelves(), mine)
    }

    // The other workers do nothing at all.
    ghost predicate Alone() {
      forall n, t, held :: others(n, t, held) == t
    }

    // An awaited statement or call is about to start: others have moved on, or the process dies.
    method Await(key: ItemKey) returns (r: Result<()>)
      requires Valid() && Held(key)
      modifies this`ticks, this`strays, db, provider, suppliers`book, suppliers`inFlight, suppliers`drawn
      ensures forall k | Mine(Know(key).row.id, k) :: Silent(k)
      ensures Know(key) == old(Know(key))
      ensures r.Err? ==> r.fault == Crash && Died()
      ensures ticks == old(ticks) + 1 && (r.Ok? <==> !dies(ticks))
      ensures db.Snapshot() == others(ticks, old(db.Snapshot()), Some(key.order))
      ensures suppliers.drawn == old(suppliers.drawn) + 1
      ensures suppliers.Shelves() == Land(old(suppliers.Shelves()), Ids(old(db.Snapshot()), key.order), suppliers.chance(old(suppliers.drawn)))
      ensures strays == Strayed(old(strays), lost, db.Snapshot(), config, suppliers.Shelves(), Some(key.order))
      ensures Waited(key, Nothing)
    {
      hide FactsOf, Kept, SameBut, Traced, PaidAsOwed, Tolerable, Accrues, Quiet, Ids, Land, Hush, Ready, Foreign, Mine, Ours, StraysElsewhere, Strayed;
      ghost var w := Seen();
      ticks := ticks + 1;
      OthersAreForeign(others, config, ticks, w.t, key);
      db.Rollback(others(ticks, db.Snapshot(), Some(key.order)));
      ForeignIsKept(w.t, db.Snapshot(), config, key);
      OwedStays(provider.payouts, w.t, db.Snapshot());
      suppliers.Elsewhere(Ids(db.Snapshot(), key.order));
      provider.Elsewhere(db.Snapshot(), Some(key.order));
      MovedOn(calls, lost, strays, w.shelf, suppliers.Shelves(), suppliers.chance(suppliers.drawn - 1), config,
              w.t, db.Snapshot(), key.order);
      strays := Strayed(strays, lost, db.Snapshot(), config, suppliers.Shelves(), Some(key.order));
      QuietIsHush(w.shelf, suppliers.Shelves(), Ids(w.t, key.order));
      OwnIdsAreOurs(db.Snapshot(), config, key);
      return if dies(ticks) then Err(Crash) else Ok(());
    }

    // ---- Statements ----

    method Record(key: ItemKey, a: Attempt) returns (r: Result<()>)
      requires Valid() && Held(key) && MayRecord(config, Know(key), a)
      requires Mine(Know(key).row.id, (a.supplier, a.requestId)) && Fits(Know(key), suppliers.Shelves(), lost + strays, a)
      modifies this`ticks, this`strays, db, provider, suppliers`book, suppliers`inFlight, suppliers`drawn
      ensures Silent((a.supplier, a.requestId))
      ensures Know(key) == var f := old(Know(key)); if r.Ok? then f.(log := f.log + [a]) else f
      ensures r.Err? ==> r.fault == Crash && Died()
      ensures ticks == old(ticks) + 1 && (r.Ok? <==> !dies(ticks)) && suppliers.drawn == old(suppliers.drawn) + 1
      ensures suppliers.Shelves() ==
              Land(old(suppliers.Shelves()), Ids(old(db.Snapshot()), key.order), suppliers.chance(old(suppliers.drawn)))
      ensures Alone() ==> db.deliveries == old(db.deliveries) && db.discrepancies == old(db.discrepancies)
      ensures old(strays) <= strays
      ensures Waited(key, Nothing)
    {
      hide FactsOf, Kept, Traced, PaidAsOwed, Tolerable, Ready, MayRecord, Mine, Quiet, Hush, Land, Ids, Fits, Explains;
      ghost var t0, f, shelf, known := db.Snapshot(), Know(key), suppliers.Shelves(), lost + strays;
      TracedId(calls, lost, strays, shelf, config, t0, key, (a.supplier, a.requestId));
      r := Await(key);
      if r.Ok? {
        ghost var t := db.Snapshot();
        QuietFits(f, shelf, suppliers.Shelves(), known, lost + strays, a);
        db.InsertAttempt(key, a);
        AttemptKeeps(t, config, key, a);
        OwnAgain(t0, t, db.Snapshot(), config, key);
        TracedAttempt(calls, lost, strays, suppliers.Shelves(), config, t, key, a);
        OwedStays(provider.payouts, t, db.Snapshot());
      }
    }

    method Find(key: ItemKey, d: Discrepancy) returns (r: Result<()>)
      requires Valid() && Held(key) && !Rejecting(d) && d.supplier in config.suppliers
      requires Mine(Know(key).row.id, (d.supplier, d.requestId))
      modifies this`ticks, this`strays, this`noted, db, provider, suppliers`book, suppliers`inFlight, suppliers`drawn
      ensures Silent((d.supplier, d.requestId))
      ensures Know(key) == old(Know(key))
      ensures r.Ok? ==> noted == old(noted) + [d]
      ensures r.Ok? ==> AlreadyFound(db.discrepancies, d)
      ensures r.Err? ==> r.fault == Crash && Died()
      ensures Waited(key, Nothing)
    {
      hide FactsOf, Kept, Traced, PaidAsOwed, Tolerable, Ready, AlreadyFound, Mine, Quiet, Hush, Land, Ids;
      ghost var t0 := db.Snapshot();
      r := Await(key);
      if r.Ok? {
        ghost var t := db.Snapshot();
        noted := noted + [d];
        var isNew := db.InsertDiscrepancy(d);
        FindingKeeps(t, config, d, key);
        OwnAgain(t0, t, db.Snapshot(), config, key);
        TracedOwn(calls, lost, strays, suppliers.Shelves(), config, t, db.Snapshot(), key);
        OwedStays(provider.payouts, t, db.Snapshot());
        FindingIsThere(t, d);
      }
    }

    // The finding that ends a round.
    method RejectRound(key: ItemKey, item: Item, d: Discrepancy) returns (r: Result<()>)
      requires Valid() && Rejecting(d) && d.item == Some(key)
      requires Asking(key, item, d.supplier, d.requestId) && NoneIsOpen(Know(key).log)
      modifies this`ticks, this`strays, this`noted, db, provider, suppliers`book, suppliers`inFlight, suppliers`drawn
      ensures Know(key) == var f := old(Know(key)); if r.Ok? then Reject(f, d.supplier, d.requestId) else f
      ensures r.Ok? ==> noted == old(noted) + [d]
      ensures r.Ok? ==> d in db.discrepancies
      ensures r.Err? ==> r.fault == Crash && Died()
      ensures Waited(key, Nothing)
    {
      hide FactsOf, Kept, Traced, PaidAsOwed, Tolerable, Ready, Reject, NoneIsOpen, OnlyOpen, AlreadyFound, RequestId, Mine, Quiet, Hush, Land, Ids;
      ghost var t0 := db.Snapshot();
      r := Await(key);
      if r.Ok? {
        ghost var t := db.Snapshot();
        noted := noted + [d];
        var isNew := db.InsertDiscrepancy(d);
        RejectionKeeps(t, config, key, d);
        OwnAgain(t0, t, db.Snapshot(), config, key);
        RejectGrows(FactsOf(t, config, key), d.supplier, d.requestId);
        TracedOwn(calls, lost, strays, suppliers.Shelves(), config, t, db.Snapshot(), key);
        OwedStays(provider.payouts, t, db.Snapshot());
        assert db.discrepancies[|t.discrepancies|] == d;
      }
    }

    // ---- Calls to suppliers ----

    // A call has just been made; `shelf` is what it found.
    ghost method Note(kind: CallKind, key: ItemKey, item: Item, supplier: string, requestId: string, shelf: Shelf)
      requires ConfigOk(config) && Tolerable(others, config) && Ready(db.Snapshot(), config) && Accounted()
      requires PaidAsOwed(db.Snapshot(), provider.payouts)
      requires Traced(calls, lost, strays, shelf, config, db.Snapshot()) && Asking(key, item, supplier, requestId)
      requires forall k | k != (supplier, requestId) :: Quiet(shelf, suppliers.Shelves(), k)
      requires !kind.IssueCall? ==> suppliers.Shelves() == shelf
      modifies this`calls, this`lost
      ensures Valid()
      ensures calls == old(calls) + [Call(kind, key, item.id, supplier, requestId,
                                          OpenSuppliers(Know(key).log), Know(key).rejected[supplier])]
      ensures lost == Losing(old(lost), calls[|calls| - 1])
    {
      hide FactsOf, Ready, Tolerable, OpenSuppliers, SoundCall, Traced, PaidAsOwed, Mine, MayAsk, Rejections, Quiet;
      NotedIsSound(db.Snapshot(), config, kind, key, item, supplier, requestId);
      var f := Know(key);
      var x := Call(kind, key, item.id, supplier, requestId, OpenSuppliers(f.log), f.rejected[supplier]);
      TracedCall(calls, lost, strays, shelf, suppliers.Shelves(), config, db.Snapshot(), x);
      calls, lost := calls + [x], Losing(lost, x);
    }

    method Request(key: ItemKey, item: Item, supplier: string, requestId: string) returns (r: Result<IssueReply>)
      requires Valid() && Asking(key, item, supplier, requestId)
      modifies this`ticks, this`strays, this`calls, this`heard, this`lost, db, provider, suppliers
      ensures Know(key) == old(Know(key))
      ensures r.Err? || !MayBook(r.value) ==> Silent((supplier, requestId))
      ensures r.Err? || !StillServed(r.value) ==>
                ((supplier, requestId) in suppliers.inFlight ==> (supplier, requestId) in old(suppliers.inFlight))
      ensures r.Ok? && r.value.NoneInStock? ==> (supplier, requestId) !in suppliers.book
      ensures suppliers.lookups == old(suppliers.lookups)
      ensures suppliers.issues == old(suppliers.issues) + 1
              || ((r.Err? || r.value.RateLimited?) && suppliers.issues == old(suppliers.issues))
      ensures Prepaid(old(Spent()), Spent(), suppliers.limits(supplier))
      ensures r.Err? ==> r.fault == Crash && Died()
      ensures ticks == old(ticks) + 1 && (r.Ok? <==> !dies(ticks))
      ensures lost == if r.Ok? && !r.value.RateLimited? then old(lost) + {(supplier, requestId)} else old(lost)
      ensures r.Ok? ==> HeardOnce(key, ToIssue((supplier, requestId), r.value))
      ensures r.Ok? ==> suppliers.drawn == old(suppliers.drawn) + 2
      ensures r.Ok? && !r.value.RateLimited? ==>
                || (supplier, requestId) in old(lost) || (supplier, requestId) in strays
                || Explains(Know(key).(log := Know(key).log + [Attempt(supplier, requestId, OutcomeOf(r.value))]),
                            suppliers.Shelves(), (supplier, requestId))
      ensures r.Ok? ==>
                (r.value, suppliers.Shelves()) ==
                  Serve(Land(old(suppliers.Shelves()), Ids(old(db.Snapshot()), key.order), suppliers.chance(old(suppliers.drawn))),
                        (supplier, requestId), suppliers.limits(supplier), suppliers.chance(old(suppliers.drawn) + 1))
      ensures Alone() ==> db.deliveries == old(db.deliveries) && db.discrepancies == old(db.discrepancies)
      ensures Waited(key, OneId((supplier, requestId)))
    {
      hide FactsOf, Onward, Traced, PaidAsOwed, Tolerable, Ready, OpenSuppliers, Mine, Hush, Land, Ids, Serve, MayAsk, WriteOnce, Explains, Kept, Accounted;
      OnwardChains(Seen(), config, key, OneId((supplier, requestId)));
      AskingIsOfItem(config, Know(key), item, supplier, requestId);
      var _ :- Await(key);
      var reply := Send(key, item, supplier, requestId);
      return Ok(reply);
    }

    // The call itself, with nobody else in between.
    method Send(key: ItemKey, item: Item, supplier: string, requestId: string) returns (reply: IssueReply)
      requires Valid() && Asking(key, item, supplier, requestId)
      modifies this`calls, this`heard, this`lost, suppliers
      ensures Know(key) == old(Know(key))
      ensures !MayBook(reply) ==> suppliers.Shelves() == old(suppliers.Shelves())
      ensures !StillServed(reply) ==> suppliers.inFlight == old(suppliers.inFlight)
      ensures reply.NoneInStock? ==> (supplier, requestId) !in suppliers.book
      ensures suppliers.lookups == old(suppliers.lookups)
      ensures suppliers.issues == old(suppliers.issues) + 1 || (reply.RateLimited? && suppliers.issues == old(suppliers.issues))
      ensures Prepaid(old(Spent()), Spent(), suppliers.limits(supplier))
      ensures lost == if reply.RateLimited? then old(lost) else old(lost) + {(supplier, requestId)}
      ensures HeardOnce(key, ToIssue((supplier, requestId), reply))
      ensures suppliers.drawn == old(suppliers.drawn) + 1
      ensures !reply.RateLimited? ==>
                || (supplier, requestId) in old(lost) || (supplier, requestId) in strays
                || Explains(Know(key).(log := Know(key).log + [Attempt(supplier, requestId, OutcomeOf(reply))]),
                            suppliers.Shelves(), (supplier, requestId))
      ensures (reply, suppliers.Shelves()) ==
              Serve(old(suppliers.Shelves()), (supplier, requestId), suppliers.limits(supplier), suppliers.chance(old(suppliers.drawn)))
      ensures Waited(key, OneId((supplier, requestId)))
    {
      hide FactsOf, Onward, Traced, PaidAsOwed, Tolerable, Ready, OpenSuppliers, Mine, Serve, MayAsk, WriteOnce, Explains, OutcomeOf;
      ghost var w, mine := Seen(), (supplier, requestId);
      AskingIsOfItem(config, Know(key), item, supplier, requestId);
      TracedId(calls, lost, strays, w.shelf, config, w.t, key, mine);
      AskingIsNewest(config, Know(key), item, supplier, requestId);
      if mine !in lost + strays {
        CallIsExplained(Know(key), w.shelf, mine, suppliers.limits(supplier), suppliers.chance(suppliers.drawn));
      }
      reply := suppliers.Issue(supplier, requestId);
      Note(if reply.RateLimited? then TurnedAway else IssueCall, key, item, supplier, requestId, w.shelf);
      heard := heard + [Heard(key, ToIssue(mine, reply))];
      AskedOnward(w, Seen(), config, key, mine);
    }

    method Verify(key: ItemKey, item: Item, supplier: string, requestId: string) returns (r: Result<LookupReply>)
      requires Valid() && Asking(key, item, supplier, requestId)
      modifies this`ticks, this`strays, this`calls, this`heard, this`lost, db, provider, suppliers`book, suppliers`inFlight, suppliers`drawn, suppliers`lookups
      ensures Silent((supplier, requestId)) && Know(key) == old(Know(key))
      ensures r.Ok? && r.value.Found? ==>
                (supplier, requestId) in suppliers.book && suppliers.book[(supplier, requestId)] == r.value.code
      ensures r.Ok? && r.value.NotFound? ==> (supplier, requestId) !in suppliers.book
      ensures suppliers.lookups == old(suppliers.lookups) + if r.Ok? then 1 else 0
      ensures r.Err? ==> r.fault == Crash && Died()
      ensures lost == old(lost)
      ensures ticks == old(ticks) + 1 && (r.Ok? <==> !dies(ticks))
      ensures suppliers.drawn == old(suppliers.drawn) + if r.Ok? then 2 else 1
      ensures r.Ok? ==> r.value == Look(suppliers.Shelves(), (supplier, requestId), suppliers.chance(old(suppliers.drawn) + 1))
      ensures r.Ok? ==> HeardOnce(key, ToLookup((supplier, requestId), r.value))
      ensures suppliers.Shelves() ==
              Land(old(suppliers.Shelves()), Ids(old(db.Snapshot()), key.order), suppliers.chance(old(suppliers.drawn)))
      ensures Alone() ==> db.deliveries == old(db.deliveries) && db.discrepancies == old(db.discrepancies)
      ensures Waited(key, Nothing)
    {
      hide FactsOf, Onward, Traced, PaidAsOwed, Tolerable, Ready, OpenSuppliers, Mine, Quiet, Hush, Land, Ids, MayAsk, WriteOnce, Accounted, Kept, ValidKey;
      OnwardChains(Seen(), config, key, Nothing);
      AskingIsOfItem(config, Know(key), item, supplier, requestId);
      var _ :- Await(key);
      var reply := ReadShelf(key, item, supplier, requestId);
      return Ok(reply);
    }

    // The lookup itself, with nobody else in between.
    method ReadShelf(key: ItemKey, item: Item, supplier: string, requestId: string) returns (reply: LookupReply)
      requires Valid() && Asking(key, item, supplier, requestId)
      modifies this`calls, this`heard, this`lost, suppliers`lookups, suppliers`drawn
      ensures reply == Look(suppliers.Shelves(), (supplier, requestId), suppliers.chance(old(suppliers.drawn)))
      ensures HeardOnce(key, ToLookup((supplier, requestId), reply))
      ensures suppliers.lookups == old(suppliers.lookups) + 1 && suppliers.drawn == old(suppliers.drawn) + 1
      ensures lost == old(lost)
      ensures Waited(key, Nothing)
    {
      hide FactsOf, Onward, Traced, PaidAsOwed, Tolerable, Ready, OpenSuppliers, Mine, Quiet, MayAsk;
      ghost var w := Seen();
      reply := suppliers.Lookup(supplier, requestId);
      AlreadyQuiet(w.shelf);
      Note(LookupCall, key, item, supplier, requestId, w.shelf);
      heard := heard + [Heard(key, ToLookup((supplier, requestId), reply))];
      UnaskedOnward(w, Seen(), config, key);
    }

    // A call and its attempt; a call for which there was no slot leaves none.
    method TryOnce(key: ItemKey, item: Item, supplier: string, requestId: string) returns (r: Result<IssueReply>)
      requires Valid() && Asking(key, item, supplier, requestId)
      modifies this`ticks, this`strays, this`calls, this`heard, this`lost, db, provider, suppliers
      ensures Asking(key, item, supplier, requestId)
      ensures Extends(old(Know(key)), Know(key), supplier, requestId)
      ensures r.Err? ==> r.fault == Crash && Died()
      ensures r.Ok? ==>
                Know(key) == var f := old(Know(key));
                             if r.value.RateLimited? then f
                             else f.(log := f.log + [Attempt(supplier, requestId, OutcomeOf(r.value))])
      ensures r.Ok? && !MayBook(r.value) ==> Silent((supplier, requestId))
      ensures r.Ok? && !StillServed(r.value) ==>
                ((supplier, requestId) in suppliers.inFlight ==> (supplier, requestId) in old(suppliers.inFlight))
      ensures r.Ok? && r.value.NoneInStock? && (supplier, requestId) in suppliers.book ==>
                (supplier, requestId) in old(suppliers.inFlight)
      ensures suppliers.lookups == old(suppliers.lookups)
      ensures suppliers.issues == old(suppliers.issues) + 1
              || ((r.Err? || r.value.RateLimited?) && suppliers.issues == old(suppliers.issues))
      ensures Prepaid(old(Spent()), Spent(), suppliers.limits(supplier))
      ensures r.Ok? ==>
                var (reply, shelf) := Serve(Land(old(suppliers.Shelves()), Ids(old(db.Snapshot()), key.order),
                                                 suppliers.chance(old(suppliers.drawn))),
                                            (supplier, requestId), suppliers.limits(supplier),
                                            suppliers.chance(old(suppliers.drawn) + 1));
                && r.value == reply
                && suppliers.Shelves() ==
                   if reply.RateLimited? then shelf
                   else Land(shelf, Ids(old(db.Snapshot()), key.order), suppliers.chance(old(suppliers.drawn) + 2))
      ensures r.Ok? && !r.value.RateLimited? ==>
                ticks == old(ticks) + 2 && suppliers.drawn == old(suppliers.drawn) + 3
      ensures !dies(old(ticks) + 1) && !dies(old(ticks) + 2) ==> r.Ok?
      ensures Alone() ==> db.deliveries == old(db.deliveries) && db.discrepancies == old(db.discrepancies)
      ensures Answered(r.Ok?)
      ensures r.Ok? ==> HeardOnce(key, ToIssue((supplier, requestId), r.value))
      ensures Waited(key, OneId((supplier, requestId)))
    {
      hide FactsOf, Onward, Traced, PaidAsOwed, Tolerable, Ready, OpenSuppliers, OnlyOpen, MayAsk, Extends, Mine, Land, Ids, Serve, ConfigOk, RequestId, Hush, OutcomeOf, Prepaid, Kept, Explains, Alone;
      ghost var f, w0 := Know(key), Seen();
      ExtendsChains(f, supplier, requestId);
      ghost var before := (supplier, requestId) in lost;
      var reply :- Request(key, item, supplier, requestId);
      if !reply.RateLimited? {
        ghost var w := Seen();
        OnwardIds(w0, w, config, key, OneId((supplier, requestId)));
        NeverTurnedDown(reply);
        var written := WriteDown(key, item, Attempt(supplier, requestId, OutcomeOf(reply)), before);
        OnwardThen(w0, w, Seen(), config, key, OneId((supplier, requestId)));
        var _ :- written;
      }
      return Ok(reply);
    }

    // The answer to a call is known and becomes an attempt; an earlier call that was lost stays so.
    method WriteDown(key: ItemKey, item: Item, a: Attempt, ghost before: bool) returns (r: Result<()>)
      requires Valid() && Asking(key, item, a.supplier, a.requestId)
      requires a.outcome != AttemptOutcome.Rejected && (a.supplier, a.requestId) in lost
      requires || before || (a.supplier, a.requestId) in strays
               || Explains(Know(key).(log := Know(key).log + [a]), suppliers.Shelves(), (a.supplier, a.requestId))
      modifies this`ticks, this`strays, this`lost, db, provider, suppliers`book, suppliers`inFlight, suppliers`drawn
      ensures Silent((a.supplier, a.requestId))
      ensures Know(key) == var f := old(Know(key)); if r.Ok? then f.(log := f.log + [a]) else f
      ensures r.Err? ==> r.fault == Crash && Died()
      ensures ticks == old(ticks) + 1 && (r.Ok? <==> !dies(ticks)) && suppliers.drawn == old(suppliers.drawn) + 1
      ensures suppliers.Shelves() ==
              Land(old(suppliers.Shelves()), Ids(old(db.Snapshot()), key.order), suppliers.chance(old(suppliers.drawn)))
      ensures Alone() ==> db.deliveries == old(db.deliveries) && db.discrepancies == old(db.discrepancies)
      ensures lost == if r.Ok? then Written(old(lost), (a.supplier, a.requestId), before) else old(lost)
      ensures Extends(old(Know(key)), Know(key), a.supplier, a.requestId)
      ensures Asking(key, item, a.supplier, a.requestId)
      ensures Waited(key, Nothing)
    {
      hide FactsOf, Onward, Traced, PaidAsOwed, Tolerable, Ready, OpenSuppliers, OnlyOpen, MayAsk, MayRecord, Extends, Mine, Land, Ids, ConfigOk, RequestId, Hush, Asked, Explains, Quiet, Kept;
      ghost var f, w := Know(key), Seen();
      ExtendsChains(f, a.supplier, a.requestId);
      AskingIsOfItem(config, f, item, a.supplier, a.requestId);
      LogOpens(config, f, f, item, a);
      ghost var shelf, mine := suppliers.Shelves(), (a.supplier, a.requestId);
      LostFits(f, shelf, lost + strays, a);
      var _ :- Record(key, a);
      LastIsAsked(db.Snapshot(), config, key, a);
      if !before && mine !in strays {
        QuietExplains(Know(key), shelf, suppliers.Shelves(), mine);
      }
      RowIsOfFacts(db.Snapshot(), config, key);
      TracedAnswer(calls, lost, strays, suppliers.Shelves(), config, db.Snapshot(), key, mine, before);
      LostAside(w, Seen(), config, key, Written(lost, mine, before));
      lost := Written(lost, mine, before);
      return Ok(());
    }

    // ---- One request id ----

    // The attempt loop, then the book if no answer was definite. Unless the supplier was flagged
    // when the round began, `Failed` means that no call of this run timed out and, if no connection
    // broke either, that none is under way and none left an entry in the book.
    method Issue(key: ItemKey, item: Item, supplier: string, requestId: string, flagged: bool) returns (r: Result<IssueOutcome>)
      requires Valid() && Asking(key, item, supplier, requestId)
      requires !flagged ==> NoneIsOpen(Know(key).log)
      modifies this`ticks, this`strays, this`noted, this`calls, this`heard, this`lost, db, provider, suppliers
      ensures Asking(key, item, supplier, requestId) && Extends(old(Know(key)), Know(key), supplier, requestId)
      ensures r.Err? ==> r.fault == Crash && Died()
      ensures Answered(r.Ok?)
      ensures r.Ok? ==> Answers(Know(key).log, suppliers.book, (supplier, requestId), old(|Know(key).log|), r.value)
      ensures r.Ok? && r.value.Failed? && !flagged ==>
                && !Said(Know(key).log, old(|Know(key).log|), TimedOut)
                && (!Said(Know(key).log, old(|Know(key).log|), Broken) ==> Silent((supplier, requestId)))
      ensures r.Ok? && (r.value.OutOfStock? || (r.value.Failed? && flagged)) &&
              (supplier, requestId) in suppliers.book ==>
                Hung(Know(key).log, old(|Know(key).log|)) || (supplier, requestId) in old(suppliers.inFlight)
      ensures r.Ok? && (r.value.OutOfStock? || r.value.Failed?) ==>
                Tidy(old(suppliers.Shelves()), suppliers.Shelves(), old(Know(key)), Know(key), (supplier, requestId))
      ensures r.Ok? && r.value.Issued? && r.value.verified &&
              (Said(Know(key).log, old(|Know(key).log|), Errored) || Said(Know(key).log, old(|Know(key).log|), Broken)) ==>
                AlreadyFound(db.discrepancies, Discrepancy(supplier, requestId, Some(key), ErrorButIssued, r.value.code, None))
      ensures r.Ok? ==> |heard| > |old(heard)| && IssueHeard(heard[|heard| - 1].answer, (supplier, requestId), r.value)
      ensures r.Ok? && r.value.Ambiguous? && heard[|heard| - 1].answer.shown.NotFound? ==>
                !flagged && Said(Know(key).log[..|Know(key).log| - 1], old(|Know(key).log|), TimedOut)
      ensures r.Ok? && r.value.Failed? && heard[|heard| - 1].answer.ToIssue? ==>
                !flagged && NeverSent(Know(key).log, old(|Know(key).log|))
      // A finding is made of a code that was booked in spite of an error, and of nothing else.
      ensures r.Ok? ==>
                var unexpected := r.value.Issued? && r.value.verified
                                  && (Said(Know(key).log, old(|Know(key).log|), Errored) || Said(Know(key).log, old(|Know(key).log|), Broken));
                noted == old(noted) + if unexpected
                then [Discrepancy(supplier, requestId, Some(key), ErrorButIssued, r.value.code, None)] else []
      ensures suppliers.issues - old(suppliers.issues) <= config.maxAttempts
      ensures suppliers.lookups - old(suppliers.lookups) <= suppliers.issues - old(suppliers.issues)
      ensures suppliers.lookups - old(suppliers.lookups) <=
              if r.Ok? && r.value.Issued? && !r.value.verified then 0 else 1
      ensures r.Ok? && r.value.Issued? ==> suppliers.issues > old(suppliers.issues)
      ensures Prepaid(old(Spent()), Spent(), suppliers.limits(supplier))
      ensures Waited(key, OneId((supplier, requestId)))
    {
      hide FactsOf, Onward, Traced, PaidAsOwed, Tolerable, Ready, OpenSuppliers, OnlyOpen, MayAsk, MayRecord, AlreadyFound, Extends, Said, NeverSent, Mine, Tidy, RequestId, Kept, Hush, Land, ValidKey, Undecided, NothingDefinite, SoFar, SettledNothing, Quiet, Hung, BookHeard, BookLog, Answers, WriteOnce, Alone, Accounted;
      ghost var f0, shelf, before, mine := Know(key), suppliers.Shelves(), |heard|, (supplier, requestId);
      OnwardChains(Seen(), config, key, OneId(mine));
      ExtendsChains(f0, supplier, requestId);
      var answered, sawTimeout, sawError := Attempts(key, item, supplier, requestId, flagged);
      var definite :- answered;
      if definite.Some? {
        return Ok(definite.value);
      }
      ghost var f, b := Know(key), suppliers.Shelves();
      LeftUndecided(f0, f, shelf, b, mine, before, heard, flagged, sawTimeout, sawError, config.maxAttempts);
      if !flagged && !sawTimeout && !sawError {
        return Ok(IssueOutcome.Failed);
      }
      r := AskTheBook(key, item, supplier, requestId, |f0.log|, flagged, sawTimeout, sawError);
      if r.Ok? {
        BookSettles(f0, f, Know(key), shelf, b, suppliers.Shelves(), mine, heard[|heard| - 1].answer.shown, flagged, sawTimeout, sawError, r.value);
      }
    }

    // The attempt loop; None when no answer was definite.
    method Attempts(key: ItemKey, item: Item, supplier: string, requestId: string, flagged: bool)
      returns (r: Result<Option<IssueOutcome>>, sawTimeout: bool, sawError: bool)
      requires Valid() && Asking(key, item, supplier, requestId)
      requires !flagged ==> NoneIsOpen(Know(key).log)
      modifies this`ticks, this`strays, this`calls, this`heard, this`lost, db, provider, suppliers
      ensures Asking(key, item, supplier, requestId) && Extends(old(Know(key)), Know(key), supplier, requestId)
      ensures r.Err? ==> r.fault == Crash && Died()
      ensures Answered(r.Ok?)
      ensures r == Ok(None) ==>
                Undecided(old(Know(key)), Know(key), old(suppliers.Shelves()), suppliers.Shelves(), (supplier, requestId), |old(heard)|, heard,
                          flagged, sawTimeout, sawError, config.maxAttempts)
      ensures r.Ok? && r.value.Some? ==>
                && Answers(Know(key).log, suppliers.book, (supplier, requestId), old(|Know(key).log|), r.value.value)
                && (r.value.value.Issued? ==> !r.value.value.verified && suppliers.issues > old(suppliers.issues))
                && !r.value.value.Failed? && !r.value.value.Ambiguous?
      ensures r.Ok? && r.value.Some? && r.value.value.OutOfStock? ==>
                && ((supplier, requestId) in suppliers.book ==>
                      Hung(Know(key).log, old(|Know(key).log|)) || (supplier, requestId) in old(suppliers.inFlight))
                && Tidy(old(suppliers.Shelves()), suppliers.Shelves(), old(Know(key)), Know(key), (supplier, requestId))
      // The last answer settles the round or, after as many calls as allowed, none did.
      ensures r.Ok? ==>
                && |heard| > |old(heard)|
                && heard[|heard| - 1].answer.ToIssue? && heard[|heard| - 1].answer.asked == (supplier, requestId)
                && AttemptHeard(heard[|heard| - 1].answer.reply, r.value)
                && NothingDefinite(Know(key).log, old(|Know(key).log|), |Know(key).log| - 1)
      ensures suppliers.lookups == old(suppliers.lookups)
      ensures 0 <= suppliers.issues - old(suppliers.issues) <= config.maxAttempts
      ensures r == Ok(None) ==> suppliers.issues > old(suppliers.issues)
      ensures Prepaid(old(Spent()), Spent(), suppliers.limits(supplier))
      ensures Waited(key, OneId((supplier, requestId)))
    {
      hide FactsOf, Onward, Traced, PaidAsOwed, Tolerable, Ready, OpenSuppliers, OnlyOpen, MayAsk, MayRecord, Extends, Said, NeverSent, Mine, Tidy, RequestId, Kept, Hush, Land, ValidKey, OneMore, Alone, Undecided, NothingDefinite, Hung, Answers, WriteOnce;
      ghost var f0, shelf, before := Know(key), suppliers.Shelves(), |heard|;
      ghost var mine := (supplier, requestId);
      OnwardAlready(Seen(), config, key, OneId(mine));
      ExtendsChains(f0, supplier, requestId);
      UndecidedAtFirst(f0, shelf, mine, heard, flagged);
      sawTimeout, sawError := false, false;
      var attempt := 1;
      while attempt <= config.maxAttempts
        invariant 1 <= attempt <= config.maxAttempts + 1
        invariant Waited(key, OneId(mine)) && lost == old(lost)
        invariant Asking(key, item, supplier, requestId)
        invariant Undecided(f0, Know(key), shelf, suppliers.Shelves(), mine, before, heard, flagged, sawTimeout, sawError, attempt - 1)
        invariant suppliers.lookups == old(suppliers.lookups)
        invariant suppliers.issues == old(suppliers.issues) + attempt - 1
        invariant Prepaid(old(Spent()), Spent(), suppliers.limits(supplier))
      {
        ghost var w := Seen();
        UndecidedExtends(f0, Know(key), shelf, suppliers.Shelves(), mine, before, heard, flagged, sawTimeout, sawError, attempt - 1);
        var tried := NextAttempt(key, item, supplier, requestId, f0, shelf, before, flagged, sawTimeout, sawError, attempt - 1);
        OnwardAgain(old(Seen()), w, Seen(), config, key, OneId(mine));
        if tried.Err? {
          r := Err(tried.fault);
          return;
        }
        var reply := tried.value;
        if reply.RateLimited? {
          DeferralAnswers(Know(key).log, suppliers.book, mine, |f0.log|, reply.nextSlotAt);
          r := Ok(Some(IssueOutcome.Deferred(reply.nextSlotAt)));
          return;
        }
        if reply.OkCode? {
          r := Ok(Some(IssueOutcome.Issued(reply.code, false)));
          return;
        }
        if reply.NoneInStock? {
          r := Ok(Some(IssueOutcome.OutOfStock));
          return;
        }
        sawError := sawError || reply.ServerError? || reply.BrokenConnection?;
        sawTimeout := sawTimeout || reply.NoResponse?;
        attempt := attempt + 1;
      }
      LeftUndecided(f0, Know(key), shelf, suppliers.Shelves(), mine, before, heard, flagged, sawTimeout, sawError, attempt - 1);
      r := Ok(None);
    }

    // One more call of a round that nothing has settled yet.
    method NextAttempt(
      key: ItemKey, item: Item, supplier: string, requestId: string,
      ghost f0: Facts, ghost shelf: Shelf, ghost before: nat, flagged: bool, sawTimeout: bool, sawError: bool, ghost made: nat)
      returns (r: Result<IssueReply>)
      requires Valid() && Asking(key, item, supplier, requestId)
      requires Undecided(f0, Know(key), shelf, suppliers.Shelves(), (supplier, requestId), before, heard, flagged, sawTimeout, sawError, made)
      modifies this`ticks, this`strays, this`calls, this`heard, this`lost, db, provider, suppliers
      ensures r.Err? ==> r.fault == Crash && Died()
      ensures Answered(r.Ok?)
      ensures Asking(key, item, supplier, requestId) && Extends(f0, Know(key), supplier, requestId)
      ensures r.Ok? ==> HeardOnce(key, ToIssue((supplier, requestId), r.value)) && |old(heard)| >= before
      ensures r.Ok? && AttemptHeard(r.value, None) ==>
                Undecided(f0, Know(key), shelf, suppliers.Shelves(), (supplier, requestId), before, heard, flagged,
                          sawTimeout || r.value.NoResponse?, sawError || r.value.ServerError? || r.value.BrokenConnection?, made + 1)
      ensures r.Ok? ==> NothingDefinite(Know(key).log, |f0.log|, |Know(key).log| - 1)
      ensures r.Ok? && r.value.OkCode? ==>
                Answers(Know(key).log, suppliers.book, (supplier, requestId), |f0.log|, IssueOutcome.Issued(r.value.code, false))
      ensures r.Ok? && r.value.NoneInStock? ==>
                && Answers(Know(key).log, suppliers.book, (supplier, requestId), |f0.log|, IssueOutcome.OutOfStock)
                && ((supplier, requestId) in suppliers.book ==> Hung(Know(key).log, |f0.log|) || (supplier, requestId) in shelf.inFlight)
                && Tidy(shelf, suppliers.Shelves(), f0, Know(key), (supplier, requestId))
      ensures suppliers.lookups == old(suppliers.lookups)
      ensures suppliers.issues == old(suppliers.issues) + 1
              || ((r.Err? || r.value.RateLimited?) && suppliers.issues == old(suppliers.issues))
      ensures Prepaid(old(Spent()), Spent(), suppliers.limits(supplier))
      ensures Waited(key, OneId((supplier, requestId)))
    {
      hide FactsOf, Onward, Traced, PaidAsOwed, Tolerable, Ready, OpenSuppliers, OnlyOpen, MayAsk, MayRecord, Extends, Said, NeverSent, Mine, Tidy, RequestId, Kept, Hush, Land, ValidKey, Undecided, NothingDefinite, Serve, Ids, OutcomeOf, Hung, Answers, WriteOnce, Valid, Prepaid, Alone;
      ghost var f, b, words, mine := Know(key), suppliers.Shelves(), heard, (supplier, requestId);
      UndecidedExtends(f0, f, shelf, b, mine, before, words, flagged, sawTimeout, sawError, made);
      ExtendsChains(f0, supplier, requestId);
      var reply :- TryOnce(key, item, supplier, requestId);
      if reply.OkCode? || reply.NoneInStock? {
        NowDecided(config, f0, f, item, shelf, b, suppliers.Shelves(), mine, before, words, flagged, sawTimeout, sawError, made, reply);
      } else if !reply.RateLimited? {
        StillUndecided(config, f0, f, item, shelf, b, suppliers.Shelves(), key, mine, before, words, flagged, sawTimeout, sawError, made, reply);
        UndecidedExtends(f0, Know(key), shelf, suppliers.Shelves(), mine, before, heard, flagged,
                         sawTimeout || reply.NoResponse?, sawError || reply.ServerError? || reply.BrokenConnection?, made + 1);
      }
      return Ok(reply);
    }

    // With no definite answer the book has the last word: a code, nothing, or not known yet.
    method AskTheBook(
      key: ItemKey, item: Item, supplier: string, requestId: string,
      ghost n: nat, flagged: bool, sawTimeout: bool, sawError: bool)
      returns (r: Result<IssueOutcome>)
      requires Valid() && Asking(key, item, supplier, requestId)
      requires n < |Know(key).log| && SoFar(Know(key).log, n, flagged, sawTimeout, sawError)
      modifies this`ticks, this`strays, this`noted, this`calls, this`heard, this`lost, db, provider, suppliers`book, suppliers`inFlight, suppliers`drawn, suppliers`lookups
      ensures Silent((supplier, requestId))
      ensures Asking(key, item, supplier, requestId) && Extends(old(Know(key)), Know(key), supplier, requestId)
      ensures r.Err? ==> r.fault == Crash && Died()
      ensures lost == old(lost)
      ensures r.Ok? ==> Answers(Know(key).log, suppliers.book, (supplier, requestId), n, r.value)
      ensures r.Ok? && r.value.Failed? && (supplier, requestId) in suppliers.book ==> (supplier, requestId) in old(suppliers.inFlight)
      ensures r.Ok? && r.value.Issued? && sawError ==>
                AlreadyFound(db.discrepancies, Discrepancy(supplier, requestId, Some(key), ErrorButIssued, r.value.code, None))
      ensures r.Ok? ==>
                && heard != [] && heard[|heard| - 1].answer.ToLookup?
                && var shown := heard[|heard| - 1].answer.shown;
                && HeardOnce(key, ToLookup((supplier, requestId), shown)) && BookHeard(shown, flagged, sawTimeout, r.value)
                && Know(key).log == old(Know(key).log) + BookLog(shown, (supplier, requestId), r.value.Ambiguous?)
      ensures r.Ok? ==>
                noted == old(noted) + if r.value.Issued? && sawError
                then [Discrepancy(supplier, requestId, Some(key), ErrorButIssued, r.value.code, None)] else []
      ensures suppliers.lookups <= old(suppliers.lookups) + 1
      ensures Waited(key, Nothing)
    {
      hide FactsOf, Onward, Traced, PaidAsOwed, Tolerable, Ready, OpenSuppliers, OnlyOpen, MayAsk, MayRecord, AlreadyFound, Extends, Said, NeverSent, Mine, Explains;
      OnwardChains(Seen(), config, key, Nothing);
      AskingIsOfItem(config, Know(key), item, supplier, requestId);
      var outcome :- ReadBook(key, item, supplier, requestId, n, flagged, sawTimeout, sawError);
      if outcome.Issued? && sawError {
        AskingIsOfItem(config, Know(key), item, supplier, requestId);
        var _ :- Find(key, Discrepancy(supplier, requestId, Some(key), ErrorButIssued, outcome.code, None));
      }
      return Ok(outcome);
    }

    // The lookup and the attempt that records it.
    method ReadBook(
      key: ItemKey, item: Item, supplier: string, requestId: string,
      ghost n: nat, flagged: bool, sawTimeout: bool, sawError: bool)
      returns (r: Result<IssueOutcome>)
      requires Valid() && Asking(key, item, supplier, requestId)
      requires n < |Know(key).log| && SoFar(Know(key).log, n, flagged, sawTimeout, sawError)
      modifies this`ticks, this`strays, this`calls, this`heard, this`lost, db, provider, suppliers`book, suppliers`inFlight, suppliers`drawn, suppliers`lookups
      ensures Silent((supplier, requestId))
      ensures Asking(key, item, supplier, requestId) && Extends(old(Know(key)), Know(key), supplier, requestId)
      ensures r.Err? ==> r.fault == Crash && Died()
      ensures lost == old(lost)
      ensures r.Ok? ==> Answers(Know(key).log, suppliers.book, (supplier, requestId), n, r.value)
      ensures r.Ok? && r.value.Failed? && (supplier, requestId) in suppliers.book ==> (supplier, requestId) in old(suppliers.inFlight)
      ensures r.Ok? ==>
                && heard != [] && heard[|heard| - 1].answer.ToLookup?
                && var shown := heard[|heard| - 1].answer.shown;
                && HeardOnce(key, ToLookup((supplier, requestId), shown)) && BookHeard(shown, flagged, sawTimeout, r.value)
                && Know(key).log == old(Know(key).log) + BookLog(shown, (supplier, requestId), r.value.Ambiguous?)
      ensures suppliers.lookups <= old(suppliers.lookups) + 1
      ensures Waited(key, Nothing)
    {
      hide FactsOf, Onward, Traced, PaidAsOwed, Tolerable, Ready, OpenSuppliers, OnlyOpen, MayAsk, MayRecord, AlreadyFound, Extends, Said, NeverSent, Mine, NoneIsOpen, ConfigOk, Alone, Kept, Hush, Land, Ids, Look, Answers, WriteOnce, Valid, SoFar;
      ghost var w0, mine := Seen(), (supplier, requestId);
      ExtendsChains(Know(key), supplier, requestId);
      var booked :- Verify(key, item, supplier, requestId);
      if booked.LookupDeferred? {
        DeferralAnswers(Know(key).log, suppliers.book, mine, n, booked.nextSlotAt);
        return Ok(IssueOutcome.Deferred(booked.nextSlotAt));
      }
      ghost var f, w := Know(key), Seen();
      var a := BookAttempt(booked, (supplier, requestId), flagged, sawTimeout);
      BookAnswers(config, f, item, mine, n, flagged, sawTimeout, booked, suppliers.book);
      var recorded := LogAnswer(key, item, a);
      OnwardThen(w0, w, Seen(), config, key, Nothing);
      var _ :- recorded;
      AnswersStay(Know(key).log, w.shelf.book, suppliers.book, mine, n, BookOutcome(booked, a));
      return Ok(BookOutcome(booked, a));
    }

    // ---- A code is a claim until the book and the deliveries agree ----

    // False when the code is already somebody else's.
    method CompleteItem(key: ItemKey, item: Item, d: Delivery) returns (r: Result<bool>)
      requires Valid() && Asking(key, item, d.supplier, d.requestId)
      modifies this`ticks, this`strays, db, provider, suppliers`book, suppliers`inFlight, suppliers`drawn
      ensures r == Ok(true) ==> Know(key) == old(Know(key)).(row := item.(status := ItemStatus.Delivered), delivery := Some(d))
      ensures r != Ok(true) ==> Know(key) == old(Know(key))
      ensures r == Ok(false) ==> CodeTaken(db.Snapshot(), d.code)
      ensures r.Err? ==> r.fault == Crash && Died()
      ensures r.Ok? <==> !dies(old(ticks) + 1)
      ensures Alone() && old(!CodeTaken(db.Snapshot(), d.code)) ==> r != Ok(false)
      ensures Alone() ==> db.discrepancies == old(db.discrepancies)
      ensures Waited(key, Nothing)
    {
      hide FactsOf, Kept, Traced, PaidAsOwed, Tolerable, Ready, MayAsk, CodeTaken, Complete, Mine, Quiet, Hush, Land, Ids;
      ghost var t0 := db.Snapshot();
      var _ :- Await(key);
      ghost var t := db.Snapshot();
      var now: int := *;
      CompletionIsOwn(t, config, key, item, d, now);
      r := db.CompleteItem(key, item.amount, d, now);
      if r == Ok(true) {
        OwnAgain(t0, t, db.Snapshot(), config, key);
        TracedOwn(calls, lost, strays, suppliers.Shelves(), config, t, db.Snapshot(), key);
        OwedStays(provider.payouts, t, db.Snapshot());
      }
    }

    // What is delivered is the entry in the book. Where the answer differs there is a finding, and a code
    // the book does not show or the deliveries know already ends the round.
    method Accept(key: ItemKey, item: Item, supplier: string, requestId: string, answered: string, verified: bool)
      returns (r: Result<AcceptOutcome>)
      requires Valid() && Asking(key, item, supplier, requestId) && NoneIsOpen(Know(key).log)
      requires verified ==> (supplier, requestId) in suppliers.book && suppliers.book[(supplier, requestId)] == answered
      modifies this`ticks, this`strays, this`noted, this`calls, this`heard, this`lost, db, provider, suppliers`book, suppliers`inFlight, suppliers`drawn, suppliers`lookups
      ensures r.Err? ==> r.fault == Crash && Died()
      ensures lost == old(lost)
      ensures r.Ok? ==> Accepts(db.discrepancies, suppliers.book, key, old(Know(key)), Know(key), item,
                                (supplier, requestId), answered, verified, r.value)
      ensures r.Ok? ==>
                if verified then
                  && heard == old(heard) && AcceptHeard(Found(answered), r.value)
                  && (r.value.Delivered? ==> answered == suppliers.book[(supplier, requestId)])
                else
                  && heard != [] && heard[|heard| - 1].answer.ToLookup?
                  && var shown := heard[|heard| - 1].answer.shown;
                  && HeardOnce(key, ToLookup((supplier, requestId), shown)) && AcceptHeard(shown, r.value)
                  && (shown.Found? && r.value.Delivered? ==> shown.code == suppliers.book[(supplier, requestId)])
      ensures r.Ok? && r.value.Rejected? && (verified || heard[|heard| - 1].answer.shown.Found?) ==>
                (supplier, requestId) in suppliers.book && CodeTaken(db.Snapshot(), suppliers.book[(supplier, requestId)])
      ensures r.Ok? ==>
                var shown := if verified then Found(answered) else heard[|heard| - 1].answer.shown;
                noted == old(noted) + BookingFindings(key, (supplier, requestId), answered, shown)
                + if r.value.Rejected? && shown.Found?
                then [Discrepancy(supplier, requestId, Some(key), DuplicateCodeKind, shown.code, None)] else []
      ensures suppliers.lookups <= old(suppliers.lookups) + if verified then 0 else 1
      ensures Waited(key, Nothing)
    {
      hide FactsOf, Onward, Traced, PaidAsOwed, Tolerable, Ready, OpenSuppliers, OnlyOpen, MayAsk, MayRecord, AlreadyFound, Extends, CodeTaken, Mine, NoneIsOpen, ConfigOk, Alone, Kept, Hush, Land, Ids, ValidKey;
      OnwardChains(Seen(), config, key, Nothing);
      if verified {
        r := DeliverCode(key, item, supplier, requestId, answered);
        return;
      }
      var booking :- CheckBooking(key, item, supplier, requestId, answered);
      if booking.Closed? {
        return Ok(booking.outcome);
      }
      ghost var found := db.discrepancies;
      r := DeliverCode(key, item, supplier, requestId, booking.code);
      if booking.code != answered && r.Ok? && r.value.Delivered? {
        FoundStays(found, db.discrepancies, Discrepancy(supplier, requestId, Some(key), CodeMismatch, answered, Some(booking.code)));
      }
    }

    // An answered code is only believed when the book shows one; what the book shows is what counts.
    method CheckBooking(key: ItemKey, item: Item, supplier: string, requestId: string, answered: string)
      returns (r: Result<Booking>)
      requires Valid() && Asking(key, item, supplier, requestId) && NoneIsOpen(Know(key).log)
      modifies this`ticks, this`strays, this`noted, this`calls, this`heard, this`lost, db, provider, suppliers`book, suppliers`inFlight, suppliers`drawn, suppliers`lookups
      ensures r.Err? ==> r.fault == Crash && Died()
      ensures lost == old(lost)
      ensures r.Ok? && r.value.Confirmed? ==>
                && Know(key) == old(Know(key)) && Asking(key, item, supplier, requestId)
                && (supplier, requestId) in suppliers.book && suppliers.book[(supplier, requestId)] == r.value.code
                && (r.value.code != answered ==>
                      AlreadyFound(db.discrepancies, Discrepancy(supplier, requestId, Some(key), CodeMismatch, answered, Some(r.value.code))))
      ensures r.Ok? && r.value.Closed? ==>
                !r.value.outcome.Delivered? &&
                Accepts(db.discrepancies, suppliers.book, key, old(Know(key)), Know(key), item,
                        (supplier, requestId), answered, false, r.value.outcome)
      ensures r.Ok? ==>
                && heard != [] && heard[|heard| - 1].answer.ToLookup?
                && var shown := heard[|heard| - 1].answer.shown;
                && HeardOnce(key, ToLookup((supplier, requestId), shown)) && BookingHeard(shown, r.value)
                && (shown.LookupFailed? ==> Know(key).log == old(Know(key).log) + BookLog(shown, (supplier, requestId), true))
      ensures r.Ok? ==>
                noted == old(noted) + BookingFindings(key, (supplier, requestId), answered, heard[|heard| - 1].answer.shown)
      ensures suppliers.lookups <= old(suppliers.lookups) + 1
      ensures Waited(key, Nothing)
    {
      hide FactsOf, Onward, Traced, PaidAsOwed, Tolerable, Ready, OpenSuppliers, OnlyOpen, MayAsk, MayRecord, AlreadyFound, Extends, CodeTaken, Mine, NoneIsOpen, Kept, Hush, Land, Ids, ValidKey, Look, Accepts, Valid, BookingFindings, BookingHeard, BookLog, Quiet;
      ghost var w0 := Seen();
      var booked :- Verify(key, item, supplier, requestId);
      ghost var w := Seen();
      r := Weigh(key, item, supplier, requestId, answered, booked);
      OnwardThen(w0, w, Seen(), config, key, Nothing);
    }

    // What is made of the book's answer about a code.
    method Weigh(key: ItemKey, item: Item, supplier: string, requestId: string, answered: string, booked: LookupReply)
      returns (r: Result<Booking>)
      requires Valid() && Asking(key, item, supplier, requestId) && NoneIsOpen(Know(key).log)
      requires booked.Found? ==> (supplier, requestId) in suppliers.book && suppliers.book[(supplier, requestId)] == booked.code
      modifies this`ticks, this`strays, this`noted, db, provider, suppliers`book, suppliers`inFlight, suppliers`drawn
      ensures r.Err? ==> r.fault == Crash && Died()
      ensures r.Ok? && r.value.Confirmed? ==>
                && Know(key) == old(Know(key)) && Asking(key, item, supplier, requestId)
                && (supplier, requestId) in suppliers.book && suppliers.book[(supplier, requestId)] == r.value.code
                && (r.value.code != answered ==>
                      AlreadyFound(db.discrepancies, Discrepancy(supplier, requestId, Some(key), CodeMismatch, answered, Some(r.value.code))))
      ensures r.Ok? && r.value.Closed? ==>
                !r.value.outcome.Delivered? &&
                Accepts(db.discrepancies, suppliers.book, key, old(Know(key)), Know(key), item,
                        (supplier, requestId), answered, false, r.value.outcome)
      ensures r.Ok? ==> BookingHeard(booked, r.value)
      ensures r.Ok? && booked.LookupFailed? ==> Know(key).log == old(Know(key).log) + BookLog(booked, (supplier, requestId), true)
      ensures r.Ok? ==> noted == old(noted) + BookingFindings(key, (supplier, requestId), answered, booked)
      ensures Waited(key, Nothing)
    {
      hide FactsOf, Onward, Traced, PaidAsOwed, Tolerable, Ready, OpenSuppliers, OnlyOpen, MayAsk, MayRecord, AlreadyFound, Extends, CodeTaken, Mine, NoneIsOpen, ConfigOk, Kept, Hush, Land, Ids, ValidKey, Fits, Explains, Quiet;
      OnwardChains(Seen(), config, key, Nothing);
      AskingIsOfItem(config, Know(key), item, supplier, requestId);
      match booked {
        case LookupDeferred(at) =>
          return Ok(Closed(AcceptOutcome.Deferred(at)));
        case LookupFailed(timedOut) =>
          var _ :- LogAnswer(key, item, Attempt(supplier, requestId, if timedOut then TimedOut else Errored));
          return Ok(Closed(AcceptOutcome.Ambiguous));
        case NotFound =>
          var rejected :- TurnDown(key, item, Discrepancy(supplier, requestId, Some(key), UnbookedCode, answered, None));
          return Ok(Closed(rejected));
        case Found(other) =>
          if other != answered {
            var _ :- Find(key, Discrepancy(supplier, requestId, Some(key), CodeMismatch, answered, Some(other)));
          }
          return Ok(Confirmed(other));
      }
    }

    // What the book's answer comes to is written down; an attempt left unanswered keeps this supplier
    // at the head of the next chain.
    method LogAnswer(key: ItemKey, item: Item, a: Attempt) returns (r: Result<()>)
      requires Valid() && Asking(key, item, a.supplier, a.requestId) && a.outcome != NoStock && a.outcome != AttemptOutcome.Rejected
      requires a.outcome == NoneIssued ==> (a.supplier, a.requestId) !in suppliers.book
      modifies this`ticks, this`strays, db, provider, suppliers`book, suppliers`inFlight, suppliers`drawn
      ensures r.Err? ==> r.fault == Crash && Died()
      ensures Silent((a.supplier, a.requestId))
      ensures Know(key) == var f := old(Know(key)); if r.Ok? then f.(log := f.log + [a]) else f
      ensures Asking(key, item, a.supplier, a.requestId) && Extends(old(Know(key)), Know(key), a.supplier, a.requestId)
      ensures r.Ok? && Unanswered(a.outcome) ==> OpenSuppliers(Know(key).log) == [a.supplier]
      ensures Waited(key, Nothing)
    {
      hide FactsOf, Onward, Traced, PaidAsOwed, Tolerable, Ready, OpenSuppliers, MayAsk, MayRecord, Extends, Mine, Fits, Kept, Hush, Land, Ids, Explains;
      OnwardChains(Seen(), config, key, Nothing);
      AskingIsOfItem(config, Know(key), item, a.supplier, a.requestId);
      ExtendsChains(Know(key), a.supplier, a.requestId);
      LogOpens(config, Know(key), Know(key), item, a);
      AnswerFits(Know(key), suppliers.Shelves(), lost + strays, a);
      r := Record(key, a);
    }

    // Should the code belong to another delivery already, the unique key on codes turns it down.
    method DeliverCode(key: ItemKey, item: Item, supplier: string, requestId: string, code: string)
      returns (r: Result<AcceptOutcome>)
      requires Valid() && Asking(key, item, supplier, requestId) && NoneIsOpen(Know(key).log)
      requires (supplier, requestId) in suppliers.book && suppliers.book[(supplier, requestId)] == code
      modifies this`ticks, this`strays, this`noted, db, provider, suppliers`book, suppliers`inFlight, suppliers`drawn
      ensures r.Err? ==> r.fault == Crash && Died()
      ensures r.Ok? ==> r.value.Delivered? || r.value.Rejected?
      ensures r.Ok? ==> Accepts(db.discrepancies, suppliers.book, key, old(Know(key)), Know(key), item,
                                (supplier, requestId), code, true, r.value)
      ensures r.Ok? && r.value.Rejected? ==> CodeTaken(db.Snapshot(), code)
      ensures r.Ok? ==>
                noted == old(noted) + if r.value.Rejected?
                then [Discrepancy(supplier, requestId, Some(key), DuplicateCodeKind, code, None)] else []
      ensures Waited(key, Nothing)
    {
      hide FactsOf, Onward, Traced, PaidAsOwed, Tolerable, Ready, OpenSuppliers, OnlyOpen, MayAsk, MayRecord, AlreadyFound, Extends, CodeTaken, Mine;
      OnwardChains(Seen(), config, key, Nothing);
      var completed :- CompleteItem(key, item, Delivery(requestId, supplier, code));
      if completed {
        return Ok(AcceptOutcome.Delivered);
      }
      ghost var t := db.Snapshot();
      r := TurnDown(key, item, Discrepancy(supplier, requestId, Some(key), DuplicateCodeKind, code, None));
      StillTaken(t, db.Snapshot(), config, key, code);
    }

    // The finding first, then the attempt: between the two the round already counts as rejected.
    method TurnDown(key: ItemKey, item: Item, d: Discrepancy) returns (r: Result<AcceptOutcome>)
      requires Valid() && Rejecting(d) && d.item == Some(key)
      requires Asking(key, item, d.supplier, d.requestId) && NoneIsOpen(Know(key).log)
      modifies this`ticks, this`strays, this`noted, db, provider, suppliers`book, suppliers`inFlight, suppliers`drawn
      ensures r.Err? ==> r.fault == Crash && Died()
      ensures r.Ok? ==>
                && r.value == AcceptOutcome.Rejected && d in db.discrepancies
                && d.supplier in old(Know(key)).rejected
                && Know(key) == (var f := old(Know(key));
                                 Reject(f, d.supplier, d.requestId)
                                 .(log := f.log + [Attempt(d.supplier, d.requestId, AttemptOutcome.Rejected)]))
                && NoneIsOpen(Know(key).log)
      ensures r.Ok? ==> noted == old(noted) + [d]
      ensures Waited(key, Nothing)
    {
      hide FactsOf, Onward, Traced, PaidAsOwed, Tolerable, Ready, AlreadyFound, Mine, Kept, Hush, WriteOnce, Valid, Quiet, MayRecord;
      ghost var w0, a := Seen(), Attempt(d.supplier, d.requestId, AttemptOutcome.Rejected);
      AskingIsOfItem(config, Know(key), item, d.supplier, d.requestId);
      OpenAppend(Know(key).log, a);
      TurnedDownMayRecord(config, Know(key), item, d.supplier, d.requestId);
      RejectGrows(Know(key), d.supplier, d.requestId);
      var _ :- RejectRound(key, item, d);
      ghost var w, found := Seen(), db.discrepancies;
      var recorded := Record(key, Attempt(d.supplier, d.requestId, AttemptOutcome.Rejected));
      OnwardThen(w0, w, Seen(), config, key, Nothing);
      var _ :- recorded;
      RowStays(found, db.discrepancies, d);
      return Ok(AcceptOutcome.Rejected);
    }

    // ---- One supplier ----

    // Up to `maxRounds` request ids, each presented until its code is delivered or rejected.
    method TrySupplier(key: ItemKey, item: Item, supplier: string, flagged: bool) returns (r: Result<SupplierOutcome>)
      requires Valid() && Held(key) && supplier in config.suppliers
      requires Know(key).row == item && item.status == Pending
      requires OnlyOpen(Know(key).log, supplier) && (!flagged ==> NoneIsOpen(Know(key).log))
      modifies this`ticks, this`strays, this`noted, this`calls, this`heard, this`lost, db, provider, suppliers
      ensures r.Err? ==> r.fault == Crash && Died()
      ensures Answered(r.Ok?)
      ensures r.Ok? ==> Tells(config, suppliers.book, old(Know(key)), Know(key), item, supplier, r.value)
      ensures r.Ok? ==> Leaves(old(suppliers.Shelves()), suppliers.Shelves(), old(Know(key)), Know(key), item.id, supplier, r.value)
      ensures r.Ok? ==> |heard| >= |old(heard)| && SupplierHeard(old(heard), heard, Know(key).delivery, r.value)
      ensures Within(old(Spent()), Spent(), config.maxRounds, config.maxAttempts, suppliers.limits(supplier))
      ensures Waited(key, OneSupplier(item.id, supplier))
    {
      hide FactsOf, Onward, Traced, PaidAsOwed, Tolerable, Ready, OpenSuppliers, OnlyOpen, MayAsk, Tried, Tells, RequestId, Within, Prepaid, NoneIsOpen, ConfigOk, RoundsGo, Leaves, Mine, Kept, Hush, Quiet, WriteOnce, Alone, Accounted;
      ghost var f0, limit, scope, w0 := Know(key), suppliers.limits(supplier), OneSupplier(item.id, supplier), Seen();
      OnwardChains(w0, config, key, scope);
      NothingSpent(Spent(), config.maxAttempts, limit);
      FewerRounds(Spent(), Spent(), 0, config.maxRounds, config.maxAttempts, limit);
      var round :- FirstRound(key, item, supplier, flagged);
      ghost var first := round;
      while round <= config.maxRounds
        invariant 1 <= first <= round <= config.maxRounds + 1
        invariant Waited(key, scope)
        invariant |old(heard)| <= |heard| && RejectionHeard(old(heard), heard)
        invariant lost == old(lost)
        invariant RoundsGo(w0.shelf, suppliers.Shelves(), f0, Know(key), item, supplier, flagged, round)
        invariant Within(old(Spent()), Spent(), round - first, config.maxAttempts, limit)
      {
        ghost var spent := Spent();
        var over := NextRound(key, item, supplier, flagged, round, w0.shelf, f0);
        OneMoreRound(old(Spent()), spent, Spent(), round - first, config.maxAttempts, limit);
        FewerRounds(old(Spent()), Spent(), round - first + 1, config.maxRounds, config.maxAttempts, limit);
        if over.Err? {
          return Err(over.fault);
        } else if over.value.Some? {
          return Ok(over.value.value);
        }
        round := round + 1;
      }
      RoundIsNext(w0.shelf, Seen(), config, key, f0, item, supplier, flagged, round);
      FewerRounds(old(Spent()), Spent(), round - first, config.maxRounds, config.maxAttempts, limit);
      return Ok(SupplierOutcome.Failed);
    }

    // The round a supplier is asked in first: the one after those rejected before.
    method FirstRound(key: ItemKey, item: Item, supplier: string, flagged: bool) returns (r: Result<nat>)
      requires Valid() && Held(key) && supplier in config.suppliers
      requires Know(key).row == item && item.status == Pending
      requires OnlyOpen(Know(key).log, supplier) && (!flagged ==> NoneIsOpen(Know(key).log))
      modifies this`ticks, this`strays, db, provider, suppliers`book, suppliers`inFlight, suppliers`drawn
      ensures r.Err? ==> r.fault == Crash && Died()
      ensures r.Ok? ==>
                && 1 <= r.value <= config.maxRounds + 1
                && RoundsGo(old(suppliers.Shelves()), suppliers.Shelves(), old(Know(key)), Know(key), item, supplier, flagged, r.value)
      ensures Waited(key, OneSupplier(item.id, supplier))
    {
      hide FactsOf, Onward, Traced, PaidAsOwed, Tolerable, Ready, OpenSuppliers, OnlyOpen, NoneIsOpen, ConfigOk, RoundsGo, Mine;
      ghost var w0 := Seen();
      OnwardChains(w0, config, key, OneSupplier(item.id, supplier));
      var rejected :- RejectedRounds(key, item, supplier);
      RoundsStart(w0, Seen(), config, key, item, supplier, flagged);
      return Ok(1 + rejected);
    }

    // One more round of a supplier; `a` and `f0` are its shelf and the facts before the first.
    method NextRound(key: ItemKey, item: Item, supplier: string, flagged: bool, round: nat, ghost a: Shelf, ghost f0: Facts)
      returns (r: Result<Option<SupplierOutcome>>)
      requires Valid() && Held(key) && supplier in config.suppliers
      requires item.status == Pending && 1 <= round <= config.maxRounds
      requires RoundsGo(a, suppliers.Shelves(), f0, Know(key), item, supplier, flagged, round)
      modifies this`ticks, this`strays, this`noted, this`calls, this`heard, this`lost, db, provider, suppliers
      ensures r.Err? ==> r.fault == Crash && Died()
      ensures Answered(r.Ok?)
      ensures r.Ok? && r.value.Some? ==>
                && Tells(config, suppliers.book, f0, Know(key), item, supplier, r.value.value)
                && Leaves(a, suppliers.Shelves(), f0, Know(key), item.id, supplier, r.value.value)
      ensures r == Ok(None) ==> RoundsGo(a, suppliers.Shelves(), f0, Know(key), item, supplier, flagged, round + 1)
      ensures r.Ok? ==> |heard| > |old(heard)| && RoundHeard(heard[|heard| - 1].answer, Know(key).delivery, r.value)
      ensures Within(old(Spent()), Spent(), 1, config.maxAttempts, suppliers.limits(supplier))
      ensures Waited(key, OneSupplier(item.id, supplier))
    {
      hide FactsOf, Onward, Traced, PaidAsOwed, Tolerable, Ready, OpenSuppliers, OnlyOpen, MayAsk, Tried, Tells, RequestId, Within, NoneIsOpen, ConfigOk, RoundsGo, SupplierTidy, Mine;
      ghost var f, w := Know(key), Seen();
      RoundIsNext(a, w, config, key, f0, item, supplier, flagged, round);
      RoundScope(config, key, item.id, supplier, round);
      r := PlayRound(key, item, supplier, RequestId(item.id, supplier, round), flagged);
      if r.Ok? {
        RoundEnded(config, w.shelf, suppliers.Shelves(), f, Know(key), item, supplier, old(heard), heard, r.value);
      }
      if r.Ok? && r.value.Some? {
        RoundOver(config, a, w.shelf, suppliers.Shelves(), f0, f, Know(key), item, supplier, flagged, round, r.value.value);
      } else if r.Ok? {
        RoundTurnedDown(a, w.shelf, suppliers.Shelves(), f0, f, Know(key), item, supplier, flagged, round);
      }
    }

    method RejectedRounds(key: ItemKey, item: Item, supplier: string) returns (r: Result<nat>)
      requires Valid() && Held(key) && supplier in config.suppliers
      requires Know(key).row == item && item.status == Pending && OnlyOpen(Know(key).log, supplier)
      modifies this`ticks, this`strays, db, provider, suppliers`book, suppliers`inFlight, suppliers`drawn
      ensures Know(key) == old(Know(key))
      ensures r.Err? ==> r.fault == Crash && Died()
      ensures ticks == old(ticks) + 1 && (r.Ok? <==> !dies(ticks)) && suppliers.drawn == old(suppliers.drawn) + 1
      ensures suppliers.chance(old(suppliers.drawn)).landed.None? ==> suppliers.Shelves() == old(suppliers.Shelves())
      ensures Alone() ==> db.Snapshot() == old(db.Snapshot())
      ensures r.Ok? ==> supplier in Know(key).rejected && r.value == |Know(key).rejected[supplier]| <= config.maxRounds
      ensures Waited(key, Nothing)
    {
      hide FactsOf, Onward, Traced, PaidAsOwed, Tolerable, Ready, OpenSuppliers;
      var _ :- Await(key);
      RoundOpens(db.Snapshot(), config, key, item, supplier);
      return Ok(|Rejections(db.discrepancies, key, supplier)|);
    }

    // One request id: None when its code was rejected and a new one has to be asked for.
    method PlayRound(key: ItemKey, item: Item, supplier: string, requestId: string, flagged: bool)
      returns (r: Result<Option<SupplierOutcome>>)
      requires Valid() && Asking(key, item, supplier, requestId)
      requires !flagged ==> NoneIsOpen(Know(key).log)
      modifies this`ticks, this`strays, this`noted, this`calls, this`heard, this`lost, db, provider, suppliers
      ensures r.Err? ==> r.fault == Crash && Died()
      ensures Answered(r.Ok?)
      ensures r.Ok? ==>
                RoundEnds(config, old(suppliers.Shelves()), suppliers.Shelves(), old(Know(key)), Know(key), item, supplier,
                          old(heard), heard, r.value)
      ensures Within(old(Spent()), Spent(), 1, config.maxAttempts, suppliers.limits(supplier))
      ensures Waited(key, OneId((supplier, requestId)))
    {
      hide FactsOf, Onward, Traced, PaidAsOwed, Tolerable, Ready, OpenSuppliers, OnlyOpen, MayAsk, Accepts, Extends, Tidy, Mine, RequestId, Kept, Hush, Quiet, WriteOnce, AcceptHeard, IssueHeard, Said, NeverSent, Hung, CodeTaken, AlreadyFound, Alone, Accounted, RoundEnds, BookingFindings, Valid;
      ghost var w := Seen();
      AskingIsOfItem(config, Know(key), item, supplier, requestId);
      var issued :- Issue(key, item, supplier, requestId, flagged);
      ghost var f, w1 := Know(key), Seen();
      if !issued.Issued? {
        IssueEndsRound(w, w1, config, key, item, supplier, requestId, issued);
        return Ok(Some(FromIssue(issued)));
      }
      IssuedCode(heard[|heard| - 1].answer, (supplier, requestId), issued);
      AnswerTells(config, suppliers.book, FactsOf(w.t, config, key), f, item, supplier, requestId, issued);
      var settled := Accept(key, item, supplier, requestId, issued.code, issued.verified);
      OnwardThen(w, w1, Seen(), config, key, OneId((supplier, requestId)));
      var accepted :- settled;
      AcceptEndsRound(w, w1, Seen(), config, key, db.discrepancies, f, item, supplier, requestId, issued.code, issued.verified, accepted);
      return Ok(if accepted.Rejected? then None else Some(FromAccept(accepted)));
    }

    // ---- One item ----

    // `preferred` is the supplier the catalog names for the product.
    method SupplierChain(key: ItemKey, preferred: string) returns (r: Result<seq<Candidate>>)
      requires Valid() && Held(key)
      modifies this`ticks, this`strays, db, provider, suppliers`book, suppliers`inFlight, suppliers`drawn
      ensures Know(key) == old(Know(key))
      ensures r.Err? ==> r.fault == Crash && Died()
      ensures ticks == old(ticks) + 1 && (r.Ok? <==> !dies(ticks)) && suppliers.drawn == old(suppliers.drawn) + 1
      ensures suppliers.Shelves() ==
              Land(old(suppliers.Shelves()), Ids(old(db.Snapshot()), key.order), suppliers.chance(old(suppliers.drawn)))
      ensures Alone() ==> db.deliveries == old(db.deliveries) && db.discrepancies == old(db.discrepancies)
      ensures r.Ok? ==>
                && |OpenSuppliers(Know(key).log)| <= 1
                && Covers(config.suppliers, OpenSuppliers(Know(key).log), r.value)
                && r.value == ChainOf(config.suppliers, preferred, OpenSuppliers(Know(key).log))
      ensures Waited(key, Nothing)
    {
      hide FactsOf, Kept, Traced, PaidAsOwed, Tolerable, Ready, OpenSuppliers, Covers, ChainOf, Without, Mine, Hush, Land, Ids, Quiet;
      var _ :- Await(key);
      var attempts := AttemptsOf(db.Snapshot(), key);
      var open := StillOpen(attempts);
      OneIsOpen(db.Snapshot(), config, key);
      ChainCovers(config.suppliers, preferred, open);
      return Ok(ChainOf(config.suppliers, preferred, open));
    }

    // The suppliers in turn until one delivers, defers or stays unclear; `last` is the one asked last.
    method TryChain(key: ItemKey, item: Item, chain: seq<Candidate>) returns (r: Result<ChainEnd>, ghost last: string)
      requires Valid() && Held(key) && Know(key).row == item && item.status == Pending
      requires |OpenSuppliers(Know(key).log)| <= 1
      requires Covers(config.suppliers, OpenSuppliers(Know(key).log), chain)
      modifies this`ticks, this`strays, this`noted, this`calls, this`heard, this`lost, db, provider, suppliers
      ensures r.Err? ==> r.fault == Crash && Died()
      ensures Answered(r.Ok?)
      ensures r.Ok? ==> Ends(config, suppliers.book, old(Know(key)), Know(key), item, r.value)
      ensures r.Ok? ==>
                ChainLeaves(old(suppliers.Shelves()), suppliers.Shelves(), old(Know(key)), Know(key), item.id, r.value, last)
      ensures r.Ok? ==> |heard| >= |old(heard)| && EndHeard(old(heard), heard, Know(key).delivery, r.value)
      ensures Within(old(Spent()), Spent(), |config.suppliers| * config.maxRounds, config.maxAttempts, 0)
      ensures Waited(key, OneItem(item.id))
    {
      hide FactsOf, Onward, Traced, PaidAsOwed, Tolerable, Ready, OpenSuppliers, OnlyOpen, Covers, AskedInTurn, Tells, Ends, Within, AllTidy, Grown, ChainLeaves, Leaves, Mine, Tried, Kept, Hush, Quiet, WriteOnce;
      ghost var f0, open, w0 := Know(key), OpenSuppliers(Know(key).log), Seen();
      OnwardChains(w0, config, key, OneItem(item.id));
      NothingLeftYet(w0.shelf, f0, item.id);
      ChainLength(config.suppliers, open, chain);
      NobodyAsked(config, f0, chain);
      NoSupplierAsked(Spent(), |config.suppliers|, config.maxRounds, config.maxAttempts);
      last := "";
      var outcomes: seq<SupplierOutcome> := [];
      for i := 0 to |chain|
        invariant Waited(key, OneItem(item.id)) && lost == old(lost) && |outcomes| == i
        invariant |old(heard)| <= |heard|
        invariant StillPending(f0, Know(key), item) && Know(key).refund == f0.refund && f0.log <= Know(key).log
        invariant AllTidy(w0.shelf, suppliers.Shelves(), f0, Know(key), item.id) && Grown(f0, Know(key))
        invariant AskedInTurn(config, f0, Know(key), chain, outcomes)
        invariant if i == 0 then Know(key) == f0 else NoneIsOpen(Know(key).log)
        invariant Within(old(Spent()), Spent(), i * config.maxRounds, config.maxAttempts, 0)
      {
        ghost var f, spent, w := Know(key), Spent(), Seen();
        SupplierScope(config, key, item.id, chain[i].supplier);
        NextInChain(config.suppliers, open, chain, i, f.log);
        ghost var words := heard;
        var outcome := TrySupplier(key, item, chain[i].supplier, chain[i].ambiguous);
        OneMoreSupplier(old(Spent()), spent, Spent(), i, |config.suppliers|, config.maxRounds, config.maxAttempts,
                        suppliers.limits(chain[i].supplier));
        last := chain[i].supplier;
        if outcome.Err? {
          r := Err(outcome.fault);
          return;
        }
        var end := EndOf(outcome.value);
        if end.Some? {
          ChainStops(w0.shelf, w, Seen(), config, key, f0, item, last, outcome.value, end.value);
          EndsHere(config, suppliers.book, f0, f, Know(key), item, chain[i].supplier, outcome.value, end.value);
          EndIsHeard(old(heard), words, heard, Know(key).delivery, outcome.value, end.value);
          r := Ok(end.value);
          return;
        }
        TellsTried(config, suppliers.book, f, Know(key), item, chain[i].supplier, outcome.value);
        OneMoreIsTidy(w0.shelf, w, Seen(), config, key, f0, item.id, last, outcome.value);
        AskedOneMore(config, suppliers.book, f0, f, Know(key), item, open, chain, outcomes, outcome.value);
        outcomes := outcomes + [outcome.value];
      }
      EverybodyAsked(config, f0, Know(key), open, chain, outcomes);
      SaidNoIsNoneOpen(config, f0, Know(key));
      var reason := if forall o | o in outcomes :: o.OutOfStock? then RefundReason.OutOfStock else SupplierFailed;
      ChainIsThrough(w0.shelf, suppliers.Shelves(), f0, Know(key), item.id, reason);
      NobodyIsLeft(config, suppliers.book, f0, Know(key), item, reason);
      last := "";
      r := Ok(NobodyHasIt(reason));
    }

    // The decision first and its event after it, each its own commit.
    method DecideRefund(key: ItemKey, item: Item, reason: RefundReason) returns (r: Result<()>)
      requires Valid() && Held(key) && Know(key).row == item && item.status == Pending
      modifies this`ticks, this`strays, db, provider, suppliers`book, suppliers`inFlight, suppliers`drawn
      ensures r.Ok? ==> Know(key) == Decided(old(Know(key)), reason) && DecisionTold(key, item.amount, reason)
      ensures r.Err? ==> r.fault == Crash && Died()
      ensures Waited(key, Nothing)
    {
      hide FactsOf, Onward, Traced, PaidAsOwed, Tolerable, Ready, DecisionTold;
      OnwardChains(Seen(), config, key, Nothing);
      var _ :- MarkRefunding(key, item, reason);
      r := LogDecided(key, item.amount, reason);
    }

    method MarkRefunding(key: ItemKey, item: Item, reason: RefundReason) returns (r: Result<()>)
      requires Valid() && Held(key) && Know(key).row == item && item.status == Pending
      modifies this`ticks, this`strays, db, provider, suppliers`book, suppliers`inFlight, suppliers`drawn
      ensures r.Ok? ==> Know(key) == Decided(old(Know(key)), reason)
      ensures r.Err? ==> r.fault == Crash && Died()
      ensures Waited(key, Nothing)
    {
      hide FactsOf, Kept, Traced, PaidAsOwed, Tolerable, Ready, Decide, Mine, Quiet, Hush, Land, Ids;
      ghost var t0 := db.Snapshot();
      var _ :- Await(key);
      ghost var t := db.Snapshot();
      RowIsThere(t, config, key);
      DecideOwn(t, config, key, reason);
      DecideIsMove(t, key, reason);
      var moved := db.UpdateItem(key, Pending, Refunding, Some(reason));
      OwnAgain(t0, t, db.Snapshot(), config, key);
      TracedOwn(calls, lost, strays, suppliers.Shelves(), config, t, db.Snapshot(), key);
      OwedStays(provider.payouts, t, db.Snapshot());
      return if moved then Ok(()) else Err(LostRace);
    }

    // The decision's event is the last thing in the history.
    ghost predicate DecisionTold(key: ItemKey, amount: int, reason: RefundReason)
      reads db
    {
      && db.events != []
      && var e := db.events[|db.events| - 1];
      e.order == key.order && e.body == ItemMoved(key.position, Pending, Refunding, GivenBack(amount, Some(reason)))
    }

    method LogDecided(key: ItemKey, amount: int, reason: RefundReason) returns (r: Result<()>)
      requires Valid() && Held(key)
      modifies this`ticks, this`strays, db, provider, suppliers`book, suppliers`inFlight, suppliers`drawn
      ensures r.Ok? ==> DecisionTold(key, amount, reason)
      ensures Know(key) == old(Know(key))
      ensures r.Err? ==> r.fault == Crash && Died()
      ensures Waited(key, Nothing)
    {
      hide FactsOf, Kept, Traced, PaidAsOwed, Tolerable, Ready, Mine, Quiet, Hush, Land, Ids;
      ghost var t0 := db.Snapshot();
      var _ :- Await(key);
      ghost var t := db.Snapshot();
      var now: int := *;
      DecisionLogged(t, config, key, amount, reason, now);
      db.InsertEvent(key.order, ItemMoved(key.position, Pending, Refunding, GivenBack(amount, Some(reason))), now);
      OwnAgain(t0, t, db.Snapshot(), config, key);
      TracedOwn(calls, lost, strays, suppliers.Shelves(), config, t, db.Snapshot(), key);
      OwedStays(provider.payouts, t, db.Snapshot());
      return Ok(());
    }

    // Money back through the provider, named by the item, so that asking twice pays once; our own rows
    // only after that.
    method Refund(key: ItemKey, local: Item) returns (r: Result<bool>)
      requires Valid() && Held(key) && Know(key).row == local && local.status == Refunding
      modifies this`ticks, this`strays, this`heard, db, provider, suppliers`book, suppliers`inFlight, suppliers`drawn
      ensures r.Ok? ==> GaveBack(provider.payouts, key, old(Know(key)), Know(key), ItemResult(None, !r.value))
      ensures r.Ok? ==> HeardOnce(key, ToRefund(local.amount, r.value))
      ensures r.Err? ==> r.fault == Crash && Died() && Know(key) == old(Know(key))
      ensures Waited(key, Nothing)
    {
      hide FactsOf, Onward, Traced, PaidAsOwed, Tolerable, Ready, BookRefund;
      OnwardChains(Seen(), config, key, Nothing);
      var answered :- CallProvider(key, local.amount);
      if !answered {
        return Ok(false);
      }
      r := BookRefunded(key, local);
    }

    method CallProvider(key: ItemKey, amount: int) returns (r: Result<bool>)
      requires Valid() && Held(key) && Know(key).row.status == Refunding && Know(key).row.amount == amount
      modifies this`ticks, this`strays, this`heard, db, provider, suppliers`book, suppliers`inFlight, suppliers`drawn
      ensures Know(key) == old(Know(key))
      ensures r == Ok(true) ==> Machine.Payout(key, amount) in provider.payouts
      ensures r.Ok? ==> HeardOnce(key, ToRefund(amount, r.value))
      ensures r.Err? ==> r.fault == Crash && Died()
      ensures Waited(key, Nothing)
    {
      hide FactsOf, Kept, Traced, PaidAsOwed, Tolerable, Ready, Mine, Quiet, Hush, Land, Ids;
      var _ :- Await(key);
      RowIsThere(db.Snapshot(), config, key);
      ghost var payouts := provider.payouts;
      var answered := provider.Refund(key, amount);
      RefundIsOwed(db.Snapshot(), payouts, provider.payouts, key);
      heard := heard + [Heard(key, ToRefund(amount, answered))];
      return Ok(answered);
    }

    method BookRefunded(key: ItemKey, local: Item) returns (r: Result<bool>)
      requires Valid() && Held(key) && Know(key).row == local && local.status == Refunding
      requires Machine.Payout(key, local.amount) in provider.payouts
      modifies this`ticks, this`strays, db, provider, suppliers`book, suppliers`inFlight, suppliers`drawn
      ensures r.Ok? ==> r.value && GaveBack(provider.payouts, key, old(Know(key)), Know(key), ItemResult(None, false))
      ensures r.Err? ==> r.fault == Crash && Died() && Know(key) == old(Know(key))
      ensures Waited(key, Nothing)
    {
      hide FactsOf, Kept, Traced, PaidAsOwed, Tolerable, Ready, BookRefund, Mine, Quiet, Hush, Land, Ids;
      ghost var t0, payouts := db.Snapshot(), provider.payouts;
      var _ :- Await(key);
      assert forall p | p in payouts :: p in provider.payouts;
      ghost var t := db.Snapshot();
      RowIsThere(t, config, key);
      var now: int := *;
      RefundOwn(t, config, key, local, now);
      var booked := db.RefundItem(key, local, now);
      OwnAgain(t0, t, db.Snapshot(), config, key);
      TracedOwn(calls, lost, strays, suppliers.Shelves(), config, t, db.Snapshot(), key);
      OwedStays(provider.payouts, t, db.Snapshot());
      return match booked case Ok(_) => Ok(true) case Err(fault) => Err(fault);
    }

    // Nobody has the item: the decision, then the money.
    method GiveUp(key: ItemKey, item: Item, reason: RefundReason) returns (r: Result<bool>)
      requires Valid() && Held(key) && Know(key).row == item && item.status == Pending
      modifies this`ticks, this`strays, this`heard, db, provider, suppliers`book, suppliers`inFlight, suppliers`drawn
      ensures r.Ok? ==> GaveBack(provider.payouts, key, Decided(old(Know(key)), reason), Know(key), ItemResult(None, !r.value))
      ensures r.Ok? ==> HeardOnce(key, ToRefund(item.amount, r.value))
      ensures r.Err? ==> r.fault == Crash && Died()
      ensures Waited(key, Nothing)
    {
      hide FactsOf, Onward, Traced, PaidAsOwed, Tolerable, Ready, GaveBack, Accounted, Kept, Hush, Mine, DecisionTold;
      OnwardChains(Seen(), config, key, Nothing);
      var _ :- DecideRefund(key, item, reason);
      r := Refund(key, item.(status := Refunding, refundReason := Some(reason)));
    }

    method DeliverItem(key: ItemKey, item: Item) returns (r: Result<ItemResult>)
      requires Valid() && Held(key) && Know(key).row == item && item.status == Pending
      modifies this`ticks, this`strays, this`noted, this`calls, this`heard, this`lost, db, provider, suppliers
      ensures r.Err? ==> r.fault == Crash && Died()
      ensures Answered(r.Ok?)
      ensures r.Ok? ==> Handled(config, suppliers.book, provider.payouts, key, old(Know(key)), Know(key), r.value)
      ensures r.Ok? ==> |heard| > |old(heard)| && ItemHeard(heard[|heard| - 1].answer, old(Know(key)), Know(key), r.value)
      ensures Within(old(Spent()), Spent(), |config.suppliers| * config.maxRounds, config.maxAttempts, 0)
      ensures r.Ok? ==> LeftBehind(old(suppliers.Shelves()), suppliers.Shelves(), old(Know(key)), Know(key))
      ensures Waited(key, OneItem(item.id))
    {
      hide FactsOf, Onward, Traced, PaidAsOwed, Tolerable, Ready, OpenSuppliers, Ends, Handled, GaveBack, Within, LeftBehind, ChainLeaves, Mine, SoldBy, Kept, Hush, Quiet, ValidKey, Valid, ItemHeard, EndHeard, Decided;
      ghost var f, w0 := Know(key), Seen();
      OnwardChains(w0, config, key, OneItem(item.id));
      ghost var last, w1;
      var asked;
      asked, last, w1 := AskSuppliers(key, item);
      var end :- asked;
      ghost var f', w2 := Know(key), Seen();
      EndsOfItem(config, suppliers.book, f, f', item, end);
      if !end.NobodyHasIt? {
        OnwardChains(w2, config, key, Nothing);
        EndIsHandled(config, suppliers.book, provider.payouts, key, f, f', item, end);
        EndIsItemHeard(config, suppliers.book, old(heard), heard, f, f', item, end);
        ItemLeft(config, key, w0, w1, w2, w2, f, f', f', item.id, end, last);
        return Ok(ResultOf(end));
      }
      EndStands(config, suppliers.book, f, f', item, end);
      var returned :- GiveUp(key, item, end.reason);
      RefusedItem(config, key, w0, w1, w2, Seen(), f, f', Know(key), item, end, last, returned);
      return Ok(ItemResult(None, !returned));
    }

    // The suppliers in the order the catalog and the log give; `begun` is the world when the first is asked.
    method AskSuppliers(key: ItemKey, item: Item) returns (r: Result<ChainEnd>, ghost last: string, ghost begun: World)
      requires Valid() && Held(key) && Know(key).row == item && item.status == Pending
      modifies this`ticks, this`strays, this`noted, this`calls, this`heard, this`lost, db, provider, suppliers
      ensures r.Err? ==> r.fault == Crash && Died()
      ensures Answered(r.Ok?)
      ensures r.Ok? ==> Ends(config, suppliers.book, old(Know(key)), Know(key), item, r.value)
      ensures r.Ok? ==> |heard| >= |old(heard)| && EndHeard(old(heard), heard, Know(key).delivery, r.value)
      ensures r.Ok? ==>
                && Onward(old(Seen()), begun, config, key, Nothing)
                && ChainLeaves(begun.shelf, suppliers.Shelves(), old(Know(key)), Know(key), item.id, r.value, last)
      ensures Within(old(Spent()), Spent(), |config.suppliers| * config.maxRounds, config.maxAttempts, 0)
      ensures Waited(key, OneItem(item.id))
    {
      hide FactsOf, Onward, Traced, PaidAsOwed, Tolerable, Ready, OpenSuppliers, Covers, ChainOf, Ends, Within, ChainLeaves, Mine, Kept, Hush, Quiet, ValidKey, Valid, EndHeard;
      begun, last := Seen(), "";
      OnwardChains(begun, config, key, OneItem(item.id));
      OnwardChains(begun, config, key, Nothing);
      NoSupplierAsked(Spent(), |config.suppliers|, config.maxRounds, config.maxAttempts);
      var _ :- Await(key);
      var preferred: string := *;
      var chain :- SupplierChain(key, preferred);
      begun := Seen();
      r, last := TryChain(key, item, chain);
    }

    // ---- The order ----

    ghost predicate HeldOrder(o: nat)
      reads db
    {
      Held(ItemKey(o, 0))
    }

    method ReadItems(o: nat) returns (r: Result<seq<Item>>)
      requires Valid() && HeldOrder(o)
      modifies this`ticks, this`strays, db, provider, suppliers`book, suppliers`inFlight, suppliers`drawn
      ensures Valid() && HeldOrder(o) && Stands(old(Seen()), Seen(), config, o)
      ensures r.Err? ==> r.fault == Crash && Died()
      ensures r.Ok? ==> r.value == db.orders[o].items
      ensures ticks == old(ticks) + 1 && (r.Ok? <==> !dies(ticks)) && suppliers.drawn == old(suppliers.drawn) + 1
      ensures suppliers.chance(old(suppliers.drawn)).landed.None? ==> suppliers.Shelves() == old(suppliers.Shelves())
      ensures Alone() ==> db.Snapshot() == old(db.Snapshot())
    {
      hide FactsOf, Onward, Traced, PaidAsOwed, Tolerable, Ready, Stands, Mine, Quiet, Land, Ids;
      ghost var w := Seen();
      NothingLands();
      var paused := Await(ItemKey(o, 0));
      OnwardIsStands(w, Seen(), config, ItemKey(o, 0));
      return match paused case Ok(_) => Ok(db.orders[o].items) case Err(fault) => Err(fault);
    }

    method HandleItem(key: ItemKey, item: Item) returns (r: Result<ItemResult>)
      requires Valid() && Held(key) && Know(key).row == item
      modifies this`ticks, this`strays, this`noted, this`calls, this`heard, this`lost, db, provider, suppliers
      ensures r.Err? ==> r.fault == Crash && Died() && !IsSettled(old(Know(key)))
      ensures Answered(r.Ok?)
      ensures r.Ok? ==> Handled(config, suppliers.book, provider.payouts, key, old(Know(key)), Know(key), r.value)
      ensures r.Ok? ==> LeftBehind(old(suppliers.Shelves()), suppliers.Shelves(), old(Know(key)), Know(key))
      ensures r.Ok? ==>
                if IsSettled(old(Know(key))) then heard == old(heard)
                else |heard| > |old(heard)| && ItemHeard(heard[|heard| - 1].answer, old(Know(key)), Know(key), r.value)
      ensures Waited(key, OneItem(item.id))
    {
      hide FactsOf, Onward, Traced, PaidAsOwed, Tolerable, Ready, Handled, GaveBack, Within, Mine, LeftBehind, Quiet;
      ghost var f, w := Know(key), Seen();
      OnwardChains(Seen(), config, key, OneItem(item.id));
      if item.status == Pending {
        r := DeliverItem(key, item);
      } else if item.status == Refunding {
        var returned :- Refund(key, item);
        RefundIsHandled(config, suppliers.book, provider.payouts, key, f, Know(key), ItemResult(None, !returned));
        NothingAskedOfItem(w, Seen(), config, key);
        RefundLeaves(provider.payouts, key, f, Know(key), ItemResult(None, !returned));
        RefundIsItemHeard(provider.payouts, key, f, f, Know(key), returned);
        UnaskedLeft(w.shelf, suppliers.Shelves(), f, Know(key));
        r := Ok(ItemResult(None, !returned));
      } else {
        SettledIsHandled(config, suppliers.book, provider.payouts, key, f);
        AlreadyQuiet(w.shelf);
        UnaskedLeft(w.shelf, w.shelf, f, f);
        r := Ok(ItemResult(None, false));
      }
    }

    // The verdict, as one conditional update. Whoever waits for the order may take it from here on.
    method Finish(o: nat, deferredUntil: Option<int>, unresolved: bool) returns (r: Result<OrderStatus>, ghost w: World)
      requires Valid() && HeldOrder(o)
      modifies this`ticks, this`strays, db, provider, suppliers`book, suppliers`inFlight, suppliers`drawn
      ensures Valid()
      ensures !dies(old(ticks) + 1) && !dies(old(ticks) + 2) ==> r.Ok?
      ensures r.Ok? ==> ticks == old(ticks) + 2 && suppliers.drawn == old(suppliers.drawn) + 2
      ensures suppliers.chance(old(suppliers.drawn)).landed.None? && suppliers.chance(old(suppliers.drawn) + 1).landed.None? ==>
                suppliers.Shelves() == old(suppliers.Shelves())
      ensures Alone() ==> db.deliveries == old(db.deliveries) && db.discrepancies == old(db.discrepancies)
      ensures r.Err? ==> r.fault == Crash && Died() && Stands(old(Seen()), Seen(), config, o)
      ensures r.Ok? ==>
                && Stands(old(Seen()), w, config, o) && o < |w.t.orders|
                && var (to, extra) := Verdict(w.t.orders[o].items, if unresolved then None else deferredUntil);
                && r.value == to && Closes(w, Seen(), config, o, to, extra)
    {
      hide FactsOf, Traced, PaidAsOwed, Tolerable, Ready, Stands, Closes, Verdict, MoveOrder, OwnOrder;
      w := Seen();
      var items :- ReadItems(o);
      w := Seen();
      r := CloseOrder(o, items, if unresolved then None else deferredUntil);
      if r.Err? {
        StandsAgain(old(Seen()), w, Seen(), config, o);
      }
    }

    method CloseOrder(o: nat, items: seq<Item>, deferral: Option<int>) returns (r: Result<OrderStatus>)
      requires Valid() && HeldOrder(o) && items == db.orders[o].items
      modifies this`ticks, this`strays, db, provider, suppliers`book, suppliers`inFlight, suppliers`drawn
      ensures Valid()
      ensures ticks == old(ticks) + 1 && (r.Ok? <==> !dies(ticks)) && suppliers.drawn == old(suppliers.drawn) + 1
      ensures suppliers.chance(old(suppliers.drawn)).landed.None? ==> suppliers.Shelves() == old(suppliers.Shelves())
      ensures Alone() ==> db.deliveries == old(db.deliveries) && db.discrepancies == old(db.discrepancies)
      ensures r.Err? ==> r.fault == Crash && Died() && Stands(old(Seen()), Seen(), config, o)
      ensures r.Ok? ==> var (to, extra) := Verdict(items, deferral);
                        r.value == to && Closes(old(Seen()), Seen(), config, o, to, extra)
    {
      hide FactsOf, Onward, Traced, PaidAsOwed, Tolerable, Ready, Stands, Closes, Verdict, MoveOrder, OwnOrder, Mine, Quiet, Land, Ids, Hush, Accrues;
      ghost var w := Seen();
      NothingLands();
      var paused := Await(ItemKey(o, 0));
      ghost var w' := Seen();
      OnwardIsStands(w, w', config, ItemKey(o, 0));
      if paused.Err? {
        return Err(Crash);
      }
      StandingItems(w, w', config, o);
      FinishOwn(w'.t, config, o, deferral);
      NoPaidAt(items, deferral);
      var (to, extra) := Verdict(items, deferral);
      var moved := db.UpdateOrder(o, Delivering, to, extra);
      OwnOrderStays(w'.t, db.Snapshot(), config, o);
      TracedOwnOrder(calls, lost, strays, suppliers.Shelves(), config, w'.t, db.Snapshot(), o);
      OwedStays(provider.payouts, w'.t, db.Snapshot());
      MoveCloses(w', Seen(), config, o, to, extra);
      StandsThenCloses(w, w', Seen(), config, o, to, extra);
      return if moved then Ok(to) else Err(LostRace);
    }

    // A pass from reading the items to the update with the verdict.
    method RunPass(o: nat) returns (r: Result<OrderStatus>, ghost results: seq<ItemResult>)
      requires Valid() && HeldOrder(o)
      modifies this`ticks, this`strays, this`noted, this`calls, this`heard, this`lost, db, provider, suppliers
      ensures Valid() && old(calls) <= calls && old(ticks) <= ticks
      ensures StraysElsewhere(old(strays), strays, Ids(old(db.Snapshot()), o))
      ensures r.Err? ==> r.fault == Crash && Died() && SettledStand(config, old(Seen()), Seen(), o)
      ensures Answered(r.Ok?)
      ensures r.Ok? ==>
                && PassDone(config, old(Seen()), Seen(), o, results)
                && o < |db.orders| && r.value == db.orders[o].status && IsPaid(r.value)
    {
      hide FactsOf, Onward, Traced, PaidAsOwed, Tolerable, Ready, Stands, Closes, Progress, Handled, Sums, Verdict, PassDone, SettledStand, Shelved, LeftBehind, OthersQuiet, Mine, Accrues, AllExplained, Alone, StraysElsewhere, Ids, Accounted, HeardThrough, ItemHeard, OnlyAbout;
      ghost var w0 := Seen();
      TracedExplains(calls, lost, strays, w0.shelf, config, w0.t);
      CallsGrow(config);
      results := [];
      var read := ReadItems(o);
      StandingIsSettled(w0, Seen(), config, o);
      NoneStrayedYet(w0, o);
      NoneStrayedThen(config, w0, w0, Seen(), ItemKey(o, 0), Nothing);
      var items :- read;
      ghost var w1 := Seen();
      NoProgress(config, w1, o);
      NothingShelved(config, w1, o);
      NothingHeardYet(config, w1, o);
      AccruesAlready(w1.t);
      StandsAccrues(config, w0, w1, o);
      NothingSummed();
      var deferredUntil: Option<int>, unresolved := None, false;
      for k := 0 to |items|
        invariant Valid() && HeldOrder(o) && w0.calls <= calls && lost == old(lost) && old(ticks) <= ticks
        invariant NoneStrayed(w0, Seen(), o) && HeardThrough(config, w1, Seen(), o, results)
        invariant Shelved(config, w1, Seen(), o, k) && Accrues(w1.t, db.Snapshot())
        invariant |results| == k && Progress(config, w1.t, Seen(), o, results)
        invariant Sums(results, deferredUntil, unresolved)
      {
        ghost var w := Seen();
        ProgressSoFar(config, w1.t, w, o, results);
        ProgressIsSettled(config, w0, w1, w, o, results);
        var handled := HandleItem(ItemKey(o, k), items[k]);
        NoneStrayedThen(config, w0, w, Seen(), ItemKey(o, k), OneItem(items[k].id));
        if handled.Err? {
          CutShort(config, w0, w1, w, Seen(), o, OneItem(items[k].id), results);
        }
        var result :- handled;
        HandledShelf(config, w1, w, Seen(), o, results, items[k].id);
        OneMoreHeard(config, w1, w, Seen(), o, OneItem(items[k].id), results, result);
        OneMoreItem(config, w1.t, w, Seen(), o, OneItem(items[k].id), results, result);
        SumsOneMore(results, deferredUntil, unresolved, result);
        deferredUntil := Later(deferredUntil, result.deferredUntil);
        unresolved := unresolved || result.unresolved;
        results := results + [result];
      }
      ghost var w2, w3 := Seen(), Seen();
      ProgressIsSettled(config, w0, w1, w2, o, results);
      r, w3 := Finish(o, deferredUntil, unresolved);
      if r.Err? {
        CutShort(config, w0, w1, w2, Seen(), o, Nothing, results);
        NoneStrayedThen(config, w0, w2, Seen(), ItemKey(o, 0), Nothing);
      } else {
        VerdictIsPaid(w3.t.orders[o].items, if unresolved then None else deferredUntil);
        ClosedStatus(config, w3, Seen(), o, w3.t.orders[o].items, if unresolved then None else deferredUntil);
        var (to, extra) := Verdict(w3.t.orders[o].items, if unresolved then None else deferredUntil);
        NoneStrayedToTheEnd(config, w0, w2, w3, Seen(), o, to, extra);
        PassIsDone(config, w0, w1, w2, w3, Seen(), o, results, deferredUntil, unresolved);
      }
    }

    // ---- Between orders ----

    // Nothing is held: the other workers may do anything to any order.
    method Rest() returns (r: Result<()>)
      requires Valid()
      modifies this`ticks, this`strays, db, provider, suppliers`book, suppliers`inFlight, suppliers`drawn
      ensures Valid() && old(|db.orders|) <= |db.orders| && Accrues(old(db.Snapshot()), db.Snapshot())
      ensures r.Err? ==> r.fault == Crash && Died()
      ensures ticks == old(ticks) + 1 && (r.Ok? <==> !dies(ticks)) && suppliers.drawn == old(suppliers.drawn) + 1
      ensures suppliers.chance(old(suppliers.drawn)).landed.None? ==> suppliers.Shelves() == old(suppliers.Shelves())
      ensures Alone() ==> db.Snapshot() == old(db.Snapshot()).(events := db.events)
      ensures strays == Unexplained(db.Snapshot(), config, suppliers.Shelves(), None) - lost
    {
      hide FactsOf, Traced, PaidAsOwed, Ready, Tolerable, Accrues, Land, Unexplained;
      ghost var t := db.Snapshot();
      NothingLands();
      ticks := ticks + 1;
      OthersAccrue(others, config, ticks, t);
      db.Rollback(others(ticks, db.Snapshot(), None));
      AccruedFindings(t, db.Snapshot());
      ghost var shelf := suppliers.Shelves();
      OwedStays(provider.payouts, t, db.Snapshot());
      suppliers.Elsewhere([]);
      provider.Elsewhere(db.Snapshot(), None);
      TracedResting(calls, lost, strays, shelf, suppliers.Shelves(), config, t, db.Snapshot());
      if Alone() && forall n :: !suppliers.chance(n).strange {
        NoNewStrays(calls, lost, strays, shelf, [], suppliers.chance(suppliers.drawn - 1), config, t, None);
      }
      strays := Unexplained(db.Snapshot(), config, suppliers.Shelves(), None) - lost;
      return if dies(ticks) then Err(Crash) else Ok(());
    }

    // The history event of a move already committed.
    method Announce(o: nat, from: OrderStatus, to: OrderStatus) returns (r: Result<()>)
      requires Valid() && o < |db.orders| && IsPaid(from) && IsPaid(to)
      modifies this`ticks, this`strays, db, provider, suppliers`book, suppliers`inFlight, suppliers`drawn
      ensures Valid()
      ensures r.Err? ==> r.fault == Crash && Died()
      ensures ticks == old(ticks) + 1 && (r.Ok? <==> !dies(ticks)) && suppliers.drawn == old(suppliers.drawn) + 1
      ensures suppliers.chance(old(suppliers.drawn)).landed.None? ==> suppliers.Shelves() == old(suppliers.Shelves())
      ensures Alone() ==> db.Snapshot() == old(db.Snapshot()).(events := db.events)
      ensures r.Ok? ==>
                && db.events != []
                && var e := db.events[|db.events| - 1];
                e.order == o && e.body == OrderMoved(from, to, None)
    {
      hide Traced, PaidAsOwed, Tolerable, Ready, OwnOrder, Accrues;
      var _ :- Rest();
      ghost var t := db.Snapshot();
      var now: int := *;
      MoveLogged(t, config, o, from, to, now);
      db.InsertEvent(o, OrderMoved(from, to, None), now);
      OwnOrderStays(t, db.Snapshot(), config, o);
      TracedOwnOrder(calls, lost, strays, suppliers.Shelves(), config, t, db.Snapshot(), o);
      OwedStays(provider.payouts, t, db.Snapshot());
      return Ok(());
    }

    // The pass, and the event of its verdict as a commit of its own. `w` is the world the verdict
    // was committed in.
    method Deliver(o: nat) returns (r: Result<()>, ghost w: World, ghost results: seq<ItemResult>)
      requires Valid() && HeldOrder(o)
      modifies this`ticks, this`strays, this`noted, this`calls, this`heard, this`lost, db, provider, suppliers
      ensures Valid() && old(calls) <= calls && old(ticks) <= ticks
      ensures r.Err? ==> r.fault == Crash && Died()
      ensures Answered(r.Ok?) && StraysElsewhere(old(strays), w.strays, Ids(old(db.Snapshot()), o))
      ensures r.Ok? ==> PassDone(config, old(Seen()), w, o, results) && w.calls == calls
    {
      hide Traced, PaidAsOwed, Tolerable, Ready, PassDone;
      var status;
      status, results := RunPass(o);
      w := Seen();
      r := match status case Ok(_) => Ok(()) case Err(fault) => Err(fault);
      if status.Ok? {
        r := Announce(o, Delivering, status.value);
      }
    }
  }
}
