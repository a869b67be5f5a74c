/**
 What the suppliers' books and the tables have to do with each other: nothing is booked or under way
 under an id of one of our items that the attempt log, the rejections or a lost call does not explain.
 */
module Bookings {
  import opened Base
  import opened Tables
  import opened RequestIds
  import opened Consistency
  import opened Evidence
  import opened Passing
  import opened Requests
  import opened Suppliers
  import opened Outcomes

  // Since the log had `from` entries, a call under this id was left unanswered with the request
  // perhaps still under way.
  ghost predicate LeftOpen(log: seq<Attempt>, from: nat, k: Entry) {
    exists i :: from <= i < |log| && log[i].supplier == k.0 && log[i].requestId == k.1
                && (log[i].outcome == TimedOut || log[i].outcome == Broken)
  }

  lemma LeftOpenStays(log: seq<Attempt>, log': seq<Attempt>, from: nat, from': nat, k: Entry)
    requires LeftOpen(log, from, k) && log <= log' && from' <= from
    ensures LeftOpen(log', from', k)
  {
    var i :| from <= i < |log| && log[i].supplier == k.0 && log[i].requestId == k.1
             && (log[i].outcome == TimedOut || log[i].outcome == Broken);
    assert log'[i] == log[i];
  }

  predicate IsRejected(f: Facts, k: Entry) {
    k.0 in f.rejected && k.1 in f.rejected[k.0]
  }

  // The last thing heard of the supplier was an answer under this id that comes with a booked code.
  predicate HeardBooking(log: seq<Attempt>, k: Entry) {
    var a := LastHeard(log, k.0);
    a.Some? && a.value.requestId == k.1 && (a.value.outcome == AnsweredOk || a.value.outcome == Errored)
  }

  // Why there may be an entry, or a request under way, under this id of the item.
  ghost predicate Explains(f: Facts, shelf: Shelf, k: Entry) {
    || IsRejected(f, k)
    || LeftOpen(f.log, 0, k)
    || (k !in shelf.inFlight && (k in shelf.book ==> HeardBooking(f.log, k)))
  }

  ghost predicate ItemExplained(t: Tables, c: Config, shelf: Shelf, lost: set<Entry>, key: ItemKey) {
    forall k | Mine(RowAt(t, key).id, k) :: k in lost || Explains(FactsOf(t, c, key), shelf, k)
  }

  ghost predicate AllExplained(t: Tables, c: Config, shelf: Shelf, lost: set<Entry>) {
    forall key | ValidKey(t, key) :: ItemExplained(t, c, shelf, lost, key)
  }

  // The worker's calls are traced to the log, and the books to somebody's calls: `strays` are the
  // ids under which other workers left something behind that their logs do not explain.
  ghost predicate Traced(
    calls: seq<Call>, lost: set<Entry>, strays: set<Entry>, shelf: Shelf, c: Config, t: Tables)
  {
    CallsOk(calls, lost, c, t) && AllExplained(t, c, shelf, lost + strays)
  }

  // ---- Explanations last ----

  // Only a request already under way may still land.
  lemma QuietExplains(f: Facts, a: Shelf, b: Shelf, k: Entry)
    requires Explains(f, a, k) && Quiet(a, b, k)
    ensures Explains(f, b, k)
  {
    hide LeftOpen, HeardBooking;
  }

  // More was rejected, nothing was heard.
  lemma GrownExplains(f: Facts, f': Facts, shelf: Shelf, k: Entry)
    requires Explains(f, shelf, k) && f'.log == f.log && (IsRejected(f, k) ==> IsRejected(f', k))
    ensures Explains(f', shelf, k)
  {
    hide LeftOpen, HeardBooking;
  }

  // An empty book is only written down when nothing is booked, or what is booked is explained anyway.
  ghost predicate Fits(f: Facts, shelf: Shelf, lost: set<Entry>, a: Attempt) {
    var k := (a.supplier, a.requestId);
    && (a.outcome == NoStock || a.outcome == NoneIssued ==> k !in shelf.book || k in lost || IsRejected(f, k) || LeftOpen(f.log, 0, k))
    && (a.outcome == AttemptOutcome.Rejected ==> IsRejected(f, k))
  }

  lemma QuietFits(f: Facts, a: Shelf, b: Shelf, lost: set<Entry>, lost': set<Entry>, x: Attempt)
    requires Fits(f, a, lost, x) && lost <= lost'
    requires var k := (x.supplier, x.requestId); Quiet(a, b, k) && (k in lost || Explains(f, a, k))
    ensures Fits(f, b, lost', x)
  {
    hide LeftOpen, HeardBooking;
  }

  lemma AttemptExplains(f: Facts, shelf: Shelf, lost: set<Entry>, a: Attempt, k: Entry)
    requires NothingNewer(f, a.supplier, a.requestId) && Fits(f, shelf, lost, a)
    requires k !in lost && Explains(f, shelf, k)
    ensures Explains(f.(log := f.log + [a]), shelf, k)
  {
    var f' := f.(log := f.log + [a]);
    HeardAppend(f.log, a, k.0);
    hide LastHeard;
    if LeftOpen(f.log, 0, k) {
      LeftOpenStays(f.log, f'.log, 0, 0, k);
    } else if k == (a.supplier, a.requestId) && (a.outcome == TimedOut || a.outcome == Broken) {
      assert f'.log[|f.log|] == a;
    }
  }

  // What a served call leaves on the shelf is explained once its answer is written down.
  lemma ServedIsExplained(f: Facts, shelf: Shelf, k: Entry, limit: int, d: Draw)
    requires NothingNewer(f, k.0, k.1) && Explains(f, shelf, k) && !Serve(shelf, k, limit, d).0.RateLimited?
    ensures var (reply, shelf') := Serve(shelf, k, limit, d);
            Explains(f.(log := f.log + [Attempt(k.0, k.1, OutcomeOf(reply))]), shelf', k)
  {
    var (reply, shelf') := Serve(shelf, k, limit, d);
    var a := Attempt(k.0, k.1, OutcomeOf(reply));
    HeardAppend(f.log, a, k.0);
    hide LastHeard;
    if LeftOpen(f.log, 0, k) {
      LeftOpenStays(f.log, f.log + [a], 0, 0, k);
    } else if StillServed(reply) {
      assert (f.log + [a])[|f.log|] == a;
    }
  }

  // ---- Every step keeps the books traced ----

  // Entries that nothing explains, for items of orders this worker does not hold.
  ghost function Unexplained(t: Tables, c: Config, shelf: Shelf, held: Option<nat>): set<Entry> {
    set k | k in shelf.book.Keys + shelf.inFlight &&
            exists key :: ValidKey(t, key) && held != Some(key.order) && Mine(RowAt(t, key).id, k) && !Explains(FactsOf(t, c, key), shelf, k)
  }

  lemma UnheldExplained(t: Tables, c: Config, shelf: Shelf, held: Option<nat>, key: ItemKey)
    requires ValidKey(t, key) && held != Some(key.order)
    ensures ItemExplained(t, c, shelf, Unexplained(t, c, shelf, held), key)
  {
    hide FactsOf, LeftOpen, HeardBooking, Mine, RowAt;
    forall k | Mine(RowAt(t, key).id, k) && !Explains(FactsOf(t, c, key), shelf, k) ensures k in Unexplained(t, c, shelf, held) {
    }
  }

  // While an order is held, an entry becomes a stray when neither the log of its item nor a lost call
  // of ours explains it.
  ghost function Strayed(strays: set<Entry>, lost: set<Entry>, t: Tables, c: Config, shelf: Shelf, held: Option<nat>): set<Entry> {
    strays + (Unexplained(t, c, shelf, held) - lost)
  }

  // The ids of a held order's items never become strays.
  lemma HeldIsNoStray(strays: set<Entry>, lost: set<Entry>, t: Tables, c: Config, shelf: Shelf, o: nat)
    requires Ready(t, c) && o < |t.orders|
    ensures StraysElsewhere(strays, Strayed(strays, lost, t, c, shelf, Some(o)), Ids(t, o))
  {
    hide FactsOf, Explains, Mine, Ready;
    forall k | k in Strayed(strays, lost, t, c, shelf, Some(o)) && k !in strays ensures !Ours(Ids(t, o), k) {
      var key :| ValidKey(t, key) && key.order != o && Mine(RowAt(t, key).id, k);
      if i :| 0 <= i < |Ids(t, o)| && Mine(Ids(t, o)[i], k) {
        var own := ItemKey(o, i);
        assert ValidKey(t, own) && RowAt(t, own).id == Ids(t, o)[i];
        PlainIds(t, c, key);
        PlainIds(t, c, own);
        OneItemOnly(RowAt(t, key).id, RowAt(t, own).id, k);
        SameIdSameItem(t, c, key, own);
        assert false;
      }
    }
  }

  // While the others do nothing and nothing turns up but what was under way, there are no new strays.
  lemma NoNewStrays(
    calls: seq<Call>, lost: set<Entry>, strays: set<Entry>, a: Shelf, items: seq<string>, d: Draw, c: Config, t: Tables, held: Option<nat>)
    requires Traced(calls, lost, strays, a, c, t) && !d.strange
    ensures Unexplained(t, c, Land(a, items, d), held) <= lost + strays
    ensures Strayed(strays, lost, t, c, Land(a, items, d), held) == strays
  {
    hide FactsOf, Explains, Mine, Quiet, CallsOk, Land;
    var b := Land(a, items, d);
    NothingStrange(a, items, d);
    forall k | k in Unexplained(t, c, b, held) ensures k in lost + strays {
      var key :| ValidKey(t, key) && Mine(RowAt(t, key).id, k) && !Explains(FactsOf(t, c, key), b, k);
      assert ItemExplained(t, c, a, lost + strays, key);
      if k !in lost + strays {
        QuietExplains(FactsOf(t, c, key), a, b, k);
        assert false;
      }
    }
  }

  lemma EmptyShelf(t: Tables, c: Config, held: Option<nat>)
    ensures Unexplained(t, c, Shelf(map[], {}), held) == {}
  {
  }

  // The same facts, and at most landings of what was under way.
  lemma ItemStaysExplained(
    t: Tables, t': Tables, c: Config, a: Shelf, b: Shelf, lost: set<Entry>, lost': set<Entry>, key: ItemKey)
    requires ItemExplained(t, c, a, lost, key) && lost <= lost'
    requires var f, f' := FactsOf(t, c, key), FactsOf(t', c, key);
             && f'.row.id == f.row.id && f'.log == f.log
             && forall k | IsRejected(f, k) :: IsRejected(f', k)
    requires forall k | Mine(RowAt(t, key).id, k) :: Quiet(a, b, k)
    ensures ItemExplained(t', c, b, lost', key)
  {
    var f, f' := FactsOf(t, c, key), FactsOf(t', c, key);
    assert f.row == RowAt(t, key) && f'.row == RowAt(t', key);
    hide FactsOf, LeftOpen, HeardBooking, Mine, Quiet, IsRejected, Explains, RowAt;
    forall k | Mine(RowAt(t', key).id, k) && k !in lost' ensures Explains(f', b, k) {
      QuietExplains(f, a, b, k);
      GrownExplains(f, f', b, k);
    }
  }

  lemma AlreadyQuiet(a: Shelf)
    ensures forall k :: Quiet(a, a, k)
  {
  }

  lemma TracedExplains(
    calls: seq<Call>, lost: set<Entry>, strays: set<Entry>, shelf: Shelf, c: Config, t: Tables)
    requires Traced(calls, lost, strays, shelf, c, t)
    ensures AllExplained(t, c, shelf, lost + strays)
  {
  }

  lemma TracedAtFirst(shelf: Shelf, c: Config, t: Tables)
    ensures Traced([], {}, Unexplained(t, c, shelf, None), shelf, c, t)
  {
    hide FactsOf, Explains, Mine, Unexplained, RowAt;
    forall key | ValidKey(t, key) ensures ItemExplained(t, c, shelf, {} + Unexplained(t, c, shelf, None), key) {
      UnheldExplained(t, c, shelf, None, key);
    }
  }

  // Others have moved on, and what was under way may have landed.
  lemma TracedElsewhere(
    calls: seq<Call>, lost: set<Entry>, strays: set<Entry>, a: Shelf, b: Shelf, c: Config, t: Tables, t': Tables, o: nat)
    requires Traced(calls, lost, strays, a, c, t) && Foreign(t, t', c, o)
    requires forall k | Ours(Ids(t, o), k) :: Quiet(a, b, k)
    ensures Traced(calls, lost, Strayed(strays, lost, t', c, b, Some(o)), b, c, t')
  {
    var strays' := Strayed(strays, lost, t', c, b, Some(o));
    hide FactsOf, Explains, Mine, Quiet, Ready, Accrues, CallsOk, IsRejected, Unexplained, RowAt;
    CallsStay(calls, lost, c, t, t');
    forall key | ValidKey(t', key) ensures ItemExplained(t', c, b, lost + strays', key) {
      if key.order == o {
        HeldStaysExplained(a, b, c, t, t', lost + strays, lost + strays', key);
      } else {
        UnheldExplained(t', c, b, Some(o), key);
      }
    }
  }

  // The same with what becomes of the strays: none of the held order's, and none at all when nobody
  // else did anything.
  lemma MovedOn(
    calls: seq<Call>, lost: set<Entry>, strays: set<Entry>, a: Shelf, b: Shelf, d: Draw, c: Config, t: Tables, t': Tables, o: nat)
    requires Traced(calls, lost, strays, a, c, t) && Foreign(t, t', c, o) && Ready(t', c) && Accrues(t, t') && o < |t.orders|
    requires b == Land(a, Ids(t', o), d) && forall k | Ours(Ids(t', o), k) :: Quiet(a, b, k)
    ensures Ids(t', o) == Ids(t, o)
    ensures var strays' := Strayed(strays, lost, t', c, b, Some(o));
            && Traced(calls, lost, strays', b, c, t')
            && StraysElsewhere(strays, strays', Ids(t, o))
            && (t' == t && !d.strange ==> strays' == strays)
  {
    hide Traced, Foreign, Ready, Accrues, Land, Ours, Quiet, Strayed, StraysElsewhere, Ids;
    SameIds(t, t', o);
    OrdersStay(t, t');
    TracedElsewhere(calls, lost, strays, a, b, c, t, t', o);
    HeldIsNoStray(strays, lost, t', c, b, o);
    if t' == t && !d.strange {
      NoNewStrays(calls, lost, strays, a, Ids(t', o), d, c, t, Some(o));
    }
  }

  lemma OrdersStay(t: Tables, t': Tables)
    requires Accrues(t, t')
    ensures |t.orders| <= |t'.orders|
  {
  }

  lemma HeldStaysExplained(
    a: Shelf, b: Shelf, c: Config, t: Tables, t': Tables, lost: set<Entry>, lost': set<Entry>, key: ItemKey)
    requires ItemExplained(t, c, a, lost, key) && lost <= lost' && Foreign(t, t', c, key.order) && ValidKey(t', key)
    requires forall k | Ours(Ids(t, key.order), k) :: Quiet(a, b, k)
    ensures ItemExplained(t', c, b, lost', key)
  {
    hide Quiet, Ready, Accrues, IsRejected, RejectedBy, Explains, Mine;
    assert FactsOf(t', c, ItemKey(key.order, key.position)) == FactsOf(t, c, ItemKey(key.order, key.position));
    assert Ids(t, key.order)[key.position] == RowAt(t, key).id;
    ItemStaysExplained(t, t', c, a, b, lost, lost', key);
  }

  // Nothing is held.
  lemma TracedResting(
    calls: seq<Call>, lost: set<Entry>, strays: set<Entry>, a: Shelf, b: Shelf, c: Config, t: Tables, t': Tables)
    requires Traced(calls, lost, strays, a, c, t) && Accrues(t, t')
    ensures Traced(calls, lost, Unexplained(t', c, b, None) - lost, b, c, t')
  {
    hide FactsOf, Explains, Mine, Quiet, Accrues, CallsOk, Unexplained, RowAt;
    CallsStay(calls, lost, c, t, t');
    forall key | ValidKey(t', key) ensures ItemExplained(t', c, b, lost + (Unexplained(t', c, b, None) - lost), key) {
      UnheldExplained(t', c, b, None, key);
    }
  }

  // A statement about one item that writes no attempt.
  lemma TracedOwn(
    calls: seq<Call>, lost: set<Entry>, strays: set<Entry>, shelf: Shelf, c: Config, t: Tables, t': Tables, key: ItemKey)
    requires Traced(calls, lost, strays, shelf, c, t) && Own(t, t', c, key)
    requires var f, f' := FactsOf(t, c, key), FactsOf(t', c, key);
             f'.log == f.log && forall k | IsRejected(f, k) :: IsRejected(f', k)
    ensures Traced(calls, lost, strays, shelf, c, t')
  {
    hide FactsOf, Explains, Mine, Quiet, Ready, CallsOk, IsRejected, RowAt;
    CallsStay(calls, lost, c, t, t');
    SameRowIds(t, t', c, key);
    AlreadyQuiet(shelf);
    forall a | ValidKey(t', a) ensures ItemExplained(t', c, shelf, lost + strays, a) {
      assert ValidKey(t, a);
      ItemStaysExplained(t, t', c, shelf, shelf, lost + strays, lost + strays, a);
    }
  }

  lemma SameRowIds(t: Tables, t': Tables, c: Config, key: ItemKey)
    requires Accrues(t, t') && ValidKey(t, key)
    ensures FactsOf(t', c, key).row.id == FactsOf(t, c, key).row.id
  {
    assert ItemsAdvance(t.orders[key.order].items, t'.orders[key.order].items);
    assert ItemAdvances(t.orders[key.order].items[key.position], t'.orders[key.order].items[key.position]);
  }

  // A statement about an order.
  lemma TracedOrder(
    calls: seq<Call>, lost: set<Entry>, strays: set<Entry>, shelf: Shelf, c: Config, t: Tables, t': Tables)
    requires Traced(calls, lost, strays, shelf, c, t) && SameFacts(t, t', c) && Accrues(t, t')
    ensures Traced(calls, lost, strays, shelf, c, t')
  {
    hide FactsOf, Explains, Mine, Quiet, Accrues, CallsOk, IsRejected, RowAt;
    CallsStay(calls, lost, c, t, t');
    AlreadyQuiet(shelf);
    forall a | ValidKey(t', a) ensures ItemExplained(t', c, shelf, lost + strays, a) {
      assert ValidKey(t, a);
      ItemStaysExplained(t, t', c, shelf, shelf, lost + strays, lost + strays, a);
    }
  }

  lemma TracedOwnOrder(
    calls: seq<Call>, lost: set<Entry>, strays: set<Entry>, shelf: Shelf, c: Config, t: Tables, t': Tables, o: nat)
    requires Traced(calls, lost, strays, shelf, c, t) && OwnOrder(t, t', c, o)
    ensures Traced(calls, lost, strays, shelf, c, t')
  {
    hide Traced, Ready, FactsOf, Accrues;
    TracedOrder(calls, lost, strays, shelf, c, t, t');
  }

  // A statement that writes neither items nor evidence.
  lemma TracedAside(
    calls: seq<Call>, lost: set<Entry>, strays: set<Entry>, shelf: Shelf, c: Config, t: Tables, t': Tables)
    requires Traced(calls, lost, strays, shelf, c, t) && Accrues(t, t')
    requires SameItems(t, t') && t'.attempts == t.attempts && t'.discrepancies == t.discrepancies
    ensures Traced(calls, lost, strays, shelf, c, t')
  {
    hide Explains, Mine, Quiet, Accrues, CallsOk, RejectedBy;
    CallsStay(calls, lost, c, t, t');
    AlreadyQuiet(shelf);
    forall a | ValidKey(t', a) ensures ItemExplained(t', c, shelf, lost + strays, a) {
      assert ValidKey(t, a) && t'.orders[a.order].items == t.orders[a.order].items;
      ItemStaysExplained(t, t', c, shelf, shelf, lost + strays, lost + strays, a);
    }
  }

  lemma IdIsExplained(t: Tables, c: Config, shelf: Shelf, lost: set<Entry>, key: ItemKey, k: Entry)
    requires AllExplained(t, c, shelf, lost) && ValidKey(t, key) && Mine(FactsOf(t, c, key).row.id, k)
    ensures k in lost || Explains(FactsOf(t, c, key), shelf, k)
  {
    assert ItemExplained(t, c, shelf, lost, key);
    RowIsOfFacts(t, c, key);
  }

  lemma TracedId(
    calls: seq<Call>, lost: set<Entry>, strays: set<Entry>, shelf: Shelf, c: Config, t: Tables, key: ItemKey, k: Entry)
    requires Traced(calls, lost, strays, shelf, c, t) && ValidKey(t, key) && Mine(FactsOf(t, c, key).row.id, k)
    ensures k in lost + strays || Explains(FactsOf(t, c, key), shelf, k)
  {
    hide CallsOk, AllExplained, Explains, FactsOf, Mine;
    IdIsExplained(t, c, shelf, lost + strays, key, k);
  }

  lemma CallIsExplained(f: Facts, shelf: Shelf, k: Entry, limit: int, d: Draw)
    requires NothingNewer(f, k.0, k.1) && Explains(f, shelf, k)
    ensures var (reply, shelf') := Serve(shelf, k, limit, d);
            reply.RateLimited? || Explains(f.(log := f.log + [Attempt(k.0, k.1, OutcomeOf(reply))]), shelf', k)
  {
    hide Explains;
    if !Serve(shelf, k, limit, d).0.RateLimited? {
      ServedIsExplained(f, shelf, k, limit, d);
    }
  }

  // What the book showed.
  lemma AnswerFits(f: Facts, shelf: Shelf, lost: set<Entry>, a: Attempt)
    requires a.outcome != NoStock && a.outcome != AttemptOutcome.Rejected
    requires a.outcome == NoneIssued ==> (a.supplier, a.requestId) !in shelf.book
    ensures Fits(f, shelf, lost, a)
  {
  }

  lemma LostFits(f: Facts, shelf: Shelf, lost: set<Entry>, a: Attempt)
    requires (a.supplier, a.requestId) in lost && a.outcome != AttemptOutcome.Rejected
    ensures Fits(f, shelf, lost, a)
  {
  }

  lemma NeverTurnedDown(reply: IssueReply)
    ensures OutcomeOf(reply) != AttemptOutcome.Rejected
  {
  }

  lemma RejectGrows(f: Facts, supplier: string, requestId: string)
    requires supplier in f.rejected
    ensures forall k | IsRejected(f, k) :: IsRejected(Reject(f, supplier, requestId), k)
    ensures IsRejected(Reject(f, supplier, requestId), (supplier, requestId))
    ensures Reject(f, supplier, requestId).log == f.log
  {
  }

  // An attempt.
  lemma TracedAttempt(
    calls: seq<Call>, lost: set<Entry>, strays: set<Entry>, shelf: Shelf, c: Config, t: Tables, key: ItemKey, a: Attempt)
    requires Traced(calls, lost, strays, shelf, c, t) && Ready(t, c) && ValidKey(t, key)
    requires var f := FactsOf(t, c, key); MayRecord(c, f, a) && Fits(f, shelf, lost + strays, a)
    ensures Traced(calls, lost, strays, shelf, c, AddAttempt(t, key, a))
  {
    hide FactsOf, Explains, Mine, Quiet, Ready, CallsOk, IsRejected, RowAt, Fits, MayRecord, Accrues;
    var f, t' := FactsOf(t, c, key), AddAttempt(t, key, a);
    AttemptTouches(t, c, key, a);
    AttemptAccrues(t, key, a);
    CallsStay(calls, lost, c, t, t');
    AlreadyQuiet(shelf);
    NothingNewerToRecord(c, f, a);
    forall b | ValidKey(t', b) ensures ItemExplained(t', c, shelf, lost + strays, b) {
      assert ValidKey(t, b);
      if b == key {
        SameRowIds(t, t', c, key);
        forall k | Mine(RowAt(t', key).id, k) && k !in lost + strays ensures Explains(FactsOf(t', c, key), shelf, k) {
          RowIsOfFacts(t, c, key);
          RowIsOfFacts(t', c, key);
          AttemptExplains(f, shelf, lost + strays, a, k);
        }
      } else {
        ItemStaysExplained(t, t', c, shelf, shelf, lost + strays, lost + strays, b);
      }
    }
  }

  lemma RowIsOfFacts(t: Tables, c: Config, key: ItemKey)
    ensures FactsOf(t, c, key).row == RowAt(t, key)
  {
  }

  lemma NothingNewerToRecord(c: Config, f: Facts, a: Attempt)
    requires MayRecord(c, f, a)
    ensures NothingNewer(f, a.supplier, a.requestId)
  {
  }

  // A call, which only disturbs its own id; from here on it is lost until its answer is written down.
  lemma TracedCall(
    calls: seq<Call>, lost: set<Entry>, strays: set<Entry>, a: Shelf, b: Shelf, c: Config, t: Tables, x: Call)
    requires Traced(calls, lost, strays, a, c, t) && SoundCall(c, x)
    requires x.rejected == Rejections(t.discrepancies, x.key, x.supplier)
    requires forall k | k != (x.supplier, x.requestId) :: Quiet(a, b, k)
    requires !x.kind.IssueCall? ==> b == a
    ensures Traced(calls + [x], Losing(lost, x), strays, b, c, t)
  {
    hide FactsOf, Explains, Mine, Quiet, CallsOk, IsRejected, RowAt, SoundCall;
    CallAdded(calls, lost, c, t, x);
    var lost' := Losing(lost, x) + strays;
    AlreadyQuiet(a);
    forall key | ValidKey(t, key) ensures ItemExplained(t, c, b, lost', key) {
      forall k | Mine(RowAt(t, key).id, k) && k !in lost' ensures Explains(FactsOf(t, c, key), b, k) {
        QuietExplains(FactsOf(t, c, key), a, b, k);
      }
    }
  }

  // Its answer is written down.
  lemma TracedAnswer(
    calls: seq<Call>, lost: set<Entry>, strays: set<Entry>, shelf: Shelf, c: Config, t: Tables, key: ItemKey, k: Entry, before: bool)
    requires Traced(calls, lost, strays, shelf, c, t) && Ready(t, c) && ValidKey(t, key)
    requires Asked(t, k.0, k.1) && Mine(RowAt(t, key).id, k)
    requires before || k in strays || Explains(FactsOf(t, c, key), shelf, k)
    ensures Traced(calls, Written(lost, k, before), strays, shelf, c, t)
  {
    hide FactsOf, Explains, Quiet, Ready, CallsOk, IsRejected, Asked;
    CallWritten(calls, lost, c, t, k.0, k.1, before);
    forall b | ValidKey(t, b) ensures ItemExplained(t, c, shelf, Written(lost, k, before) + strays, b) {
      if b != key && Mine(RowAt(t, b).id, k) {
        PlainIds(t, c, b);
        PlainIds(t, c, key);
        OneItemOnly(RowAt(t, b).id, RowAt(t, key).id, k);
        SameIdSameItem(t, c, b, key);
      }
    }
  }

  lemma OneItemOnly(a: string, b: string, k: Entry)
    requires NoColon(a) && NoColon(b) && Mine(a, k) && Mine(b, k)
    ensures a == b
  {
    assert k.1 == a + ":" + k.1[|a| + 1..] == b + ":" + k.1[|b| + 1..];
    SplitAtFirstColon(a, k.1[|a| + 1..], b, k.1[|b| + 1..]);
  }

  // Nobody has asked for anything under the ids of new items, which are made up at random.
  predicate Unused(shelf: Shelf, units: seq<Unit>) {
    && (forall k, i | k in shelf.book && 0 <= i < |units| :: !Mine(units[i].id, k))
    && (forall k, i | k in shelf.inFlight && 0 <= i < |units| :: !Mine(units[i].id, k))
  }

  lemma TracedCreate(
    calls: seq<Call>, lost: set<Entry>, strays: set<Entry>, shelf: Shelf, c: Config, t: Tables,
    currency: string, units: seq<Unit>, now: int)
    requires Traced(calls, lost, strays, shelf, c, t) && Unused(shelf, units)
    requires CreateOrder(t, currency, units, now).Some? && Accrues(t, CreateOrder(t, currency, units, now).value)
    ensures Traced(calls, lost, strays, shelf, c, CreateOrder(t, currency, units, now).value)
  {
    var t' := CreateOrder(t, currency, units, now).value;
    hide Mine, Quiet, Accrues, CallsOk, IsRejected, LeftOpen, HeardBooking, RejectedBy, Clashes;
    CallsStay(calls, lost, c, t, t');
    AlreadyQuiet(shelf);
    forall b | ValidKey(t', b) ensures ItemExplained(t', c, shelf, lost + strays, b) {
      if ValidKey(t, b) {
        assert FactsOf(t', c, b) == FactsOf(t, c, b);
        ItemStaysExplained(t, t', c, shelf, shelf, lost + strays, lost + strays, b);
      } else {
        assert RowAt(t', b).id == units[b.position].id;
      }
    }
  }

  // Whatever a book shows under an id of one of our items left a trace: an attempt, a rejection, or
  // a call that was lost.
  lemma EntryWasAskedFor(
    calls: seq<Call>, lost: set<Entry>, strays: set<Entry>, shelf: Shelf, c: Config, t: Tables, key: ItemKey, k: Entry)
    requires Traced(calls, lost, strays, shelf, c, t) && ValidKey(t, key) && Mine(ItemAt(t, key).id, k)
    requires k in shelf.book || k in shelf.inFlight
    ensures || AskedUnder(t, k.0, k.1, key)
            || IsRejected(FactsOf(t, c, key), k)
            || (k in lost && Requested(calls, k.0, k.1))
            || k in strays
  {
    hide SoundCall, Asked, IsRejected, RejectedBy;
    if k !in lost + strays && !IsRejected(FactsOf(t, c, key), k) {
      assert ItemExplained(t, c, shelf, lost + strays, key);
      if !LeftOpen(FactsOf(t, c, key).log, 0, k) {
        HeardIsThere(FactsOf(t, c, key).log, k.0);
      }
    }
  }

  // A rejected id is a row among the discrepancies.
  lemma RejectedIsFound(t: Tables, c: Config, key: ItemKey, k: Entry)
    requires IsRejected(FactsOf(t, c, key), k)
    ensures exists i :: 0 <= i < |t.discrepancies| && Rejecting(t.discrepancies[i]) && t.discrepancies[i].item == Some(key)
                        && t.discrepancies[i].supplier == k.0 && t.discrepancies[i].requestId == k.1
  {
    RejectionIsRow(t.discrepancies, key, k);
  }

  lemma {:induction false} RejectionIsRow(found: seq<Discrepancy>, key: ItemKey, k: Entry)
    requires k.1 in Rejections(found, key, k.0)
    ensures exists i :: 0 <= i < |found| && Rejecting(found[i]) && found[i].item == Some(key)
                        && found[i].supplier == k.0 && found[i].requestId == k.1
  {
    var n := |found| - 1;
    var front := found[..n];
    if k.1 in Rejections(front, key, k.0) {
      RejectionIsRow(front, key, k);
      var i :| 0 <= i < n && Rejecting(front[i]) && front[i].item == Some(key) && front[i].supplier == k.0 && front[i].requestId == k.1;
      assert found[i] == front[i];
    } else {
      assert found[n].requestId == k.1;
    }
  }

  lemma {:induction false} HeardIsThere(log: seq<Attempt>, supplier: string)
    ensures LastHeard(log, supplier).Some? ==>
              LastHeard(log, supplier).value in log && LastHeard(log, supplier).value.supplier == supplier
  {
    if log != [] {
      HeardIsThere(log[..|log| - 1], supplier);
    }
  }
}
