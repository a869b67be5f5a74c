/**
 Suppliers as a worker sees them through the client: a write-once book per request id that other
 calls may fill at any time, and answers that need not agree with it. What chance decides is drawn
 from a sequence fixed beforehand, so everything proved holds for every such sequence.
 */
module Suppliers {
  import opened Base

  datatype IssueReply =
    | OkCode(code: string)
    | NoneInStock
    | Unreachable
    | ServerError
    | BrokenConnection
    | NoResponse
    | RateLimited(nextSlotAt: int)

  datatype LookupReply =
    | Found(code: string)
    | NotFound
    | LookupFailed(timedOut: bool)
    | LookupDeferred(nextSlotAt: int)

  type Entry = (string, string)

  // The suppliers' side: what they have booked, and which of our requests they may still be serving.
  datatype Shelf = Shelf(book: map<Entry, string>, inFlight: set<Entry>)

  // Entries are never changed or removed.
  predicate WriteOnce(b: map<Entry, string>, b': map<Entry, string>) {
    forall k | k in b :: k in b' && b'[k] == b[k]
  }

  lemma WriteOnceAgain(b: map<Entry, string>, b': map<Entry, string>, b'': map<Entry, string>)
    requires WriteOnce(b, b') && WriteOnce(b', b'')
    ensures WriteOnce(b, b'')
  {
  }

  // Every request id begins with the id of its item.
  predicate Mine(item: string, k: Entry) {
    item + ":" <= k.1
  }

  predicate Ours(items: seq<string>, k: Entry) {
    exists i :: 0 <= i < |items| && Mine(items[i], k)
  }

  // Nothing was asked under this id meanwhile: an entry can only have landed from a request that
  // was already under way.
  predicate Quiet(a: Shelf, b: Shelf, k: Entry) {
    && (k in b.book ==> k in a.book || k in a.inFlight)
    && (k in b.inFlight ==> k in a.inFlight)
  }

  // A code may have been booked by a call answered like this; and it may still be served.
  predicate MayBook(r: IssueReply) {
    r.OkCode? || r.ServerError? || StillServed(r)
  }

  predicate StillServed(r: IssueReply) {
    r.NoResponse? || r.BrokenConnection?
  }

  // ---- Chance ----

  datatype Draw = Draw(
    granted: bool,           // our own limit has slots left
    at: int,                 // when one is free, if not
    answer: IssueReply,      // what a call is answered
    books: Option<string>,   // the code it books, if it books one
    looks: bool,             // a lookup is answered from the book
    throttled: bool,         // if not, whether it was turned away
    timedOut: bool,          // or ran into the timeout
    landed: Option<Shelf>,   // what other calls, and late ones, made of the books
    strange: bool)           // whether requests are among them that nobody here made

  type Chance = nat -> Draw

  // One call as the supplier serves it. `Out of stock` is only answered when nothing is booked,
  // and a call that never arrived or was turned away books nothing.
  function Serve(s: Shelf, k: Entry, limit: int, d: Draw): (IssueReply, Shelf) {
    if limit > 0 && !d.granted then (RateLimited(d.at), s)
    else if d.answer.Unreachable? || d.answer.RateLimited? || (d.answer.NoneInStock? && k !in s.book) then (d.answer, s)
    else
      var reply := if d.answer.NoneInStock? then ServerError else d.answer;
      var book := if d.books.Some? && k !in s.book then s.book[k := d.books.value] else s.book;
      (reply, Shelf(book, if StillServed(reply) then s.inFlight + {k} else s.inFlight))
  }

  function Look(s: Shelf, k: Entry, d: Draw): LookupReply {
    if d.looks then (if k in s.book then Found(s.book[k]) else NotFound)
    else if d.throttled then LookupDeferred(d.at)
    else LookupFailed(d.timedOut)
  }

  // Nobody else asks under our ids.
  predicate MayLand(a: Shelf, b: Shelf, items: seq<string>) {
    && WriteOnce(a.book, b.book)
    && (forall k | k in b.book :: Ours(items, k) ==> Quiet(a, b, k))
    && (forall k | k in b.inFlight :: Ours(items, k) ==> Quiet(a, b, k))
  }

  // Nothing but requests already under way.
  predicate Solicited(a: Shelf, b: Shelf) {
    && (forall k | k in b.book :: Quiet(a, b, k))
    && (forall k | k in b.inFlight :: Quiet(a, b, k))
  }

  function Land(s: Shelf, items: seq<string>, d: Draw): Shelf {
    if d.landed.Some? && MayLand(s, d.landed.value, items) && (d.strange || Solicited(s, d.landed.value)) then d.landed.value else s
  }

  lemma NothingStrange(s: Shelf, items: seq<string>, d: Draw)
    requires !d.strange
    ensures forall k :: Quiet(s, Land(s, items, d), k)
  {
  }

  lemma NothingLands()
    ensures forall s, items, d: Draw | d.landed == None :: Land(s, items, d) == s
  {
  }

  class SupplierClient {
    var book: map<Entry, string>
    var inFlight: set<Entry>  // unanswered here, perhaps still being served there
    var issues: nat           // POST /issue calls made
    var lookups: nat          // GET /issued calls made
    var slots: nat            // slots of the rate limits spent
    var drawn: nat
    const limits: string -> int
    const chance: Chance

    function Shelves(): Shelf
      reads this
    {
      Shelf(book, inFlight)
    }

    constructor (limits: string -> int, chance: Chance)
      ensures Shelves() == Shelf(map[], {}) && issues == 0 && lookups == 0 && slots == 0 && drawn == 0
      ensures this.limits == limits && this.chance == chance
    {
      book, inFlight, issues, lookups, slots, drawn := map[], {}, 0, 0, 0, 0;
      this.limits, this.chance := limits, chance;
    }

    // Everybody else's calls, and requests of ours that were still under way.
    method Elsewhere(items: seq<string>)
      modifies this`book, this`inFlight, this`drawn
      ensures drawn == old(drawn) + 1 && Shelves() == Land(old(Shelves()), items, chance(old(drawn)))
      ensures WriteOnce(old(book), book)
      ensures forall k | Ours(items, k) :: Quiet(old(Shelves()), Shelves(), k)
    {
      var s := Land(Shelves(), items, chance(drawn));
      book, inFlight, drawn := s.book, s.inFlight, drawn + 1;
    }

    // Two slots pay for the call and for the book lookup that follows it.
    method Issue(supplier: string, requestId: string) returns (r: IssueReply)
      modifies this
      ensures drawn == old(drawn) + 1
      ensures (r, Shelves()) == Serve(old(Shelves()), (supplier, requestId), limits(supplier), chance(old(drawn)))
      ensures WriteOnce(old(book), book)
      ensures forall k | k != (supplier, requestId) :: Quiet(old(Shelves()), Shelves(), k)
      ensures !MayBook(r) ==> Shelves() == old(Shelves())
      ensures !StillServed(r) ==> inFlight == old(inFlight)
      ensures r.NoneInStock? ==> (supplier, requestId) !in book
      ensures lookups == old(lookups)
      ensures issues == old(issues) + 1 || (r.RateLimited? && issues == old(issues))
      ensures limits(supplier) >= 2 ==> slots - old(slots) == 2 * (issues - old(issues))
      ensures limits(supplier) == 1 ==> slots - old(slots) == issues - old(issues)
      ensures limits(supplier) <= 0 || chance(old(drawn)).granted ==> issues == old(issues) + 1
    {
      var d, k, limit := chance(drawn), (supplier, requestId), limits(supplier);
      drawn := drawn + 1;
      if limit > 0 {
        if !d.granted {
          return RateLimited(d.at);
        }
        slots := slots + if limit < 2 then 1 else 2;
      }
      issues := issues + 1;
      if d.answer.Unreachable? || d.answer.RateLimited? || (d.answer.NoneInStock? && k !in book) {
        return d.answer;
      }
      if d.books.Some? && k !in book {
        book := book[k := d.books.value];
      }
      r := if d.answer.NoneInStock? then ServerError else d.answer;
      if StillServed(r) {
        inFlight := inFlight + {k};
      }
    }

    // The book is the supplier's bill: what it shows is what it holds.
    method Lookup(supplier: string, requestId: string) returns (r: LookupReply)
      modifies this`lookups, this`drawn
      ensures drawn == old(drawn) + 1 && r == Look(Shelves(), (supplier, requestId), chance(old(drawn)))
      ensures r.Found? ==> (supplier, requestId) in book && book[(supplier, requestId)] == r.code
      ensures r.NotFound? ==> (supplier, requestId) !in book
      ensures lookups == old(lookups) + 1
    {
      var d, k := chance(drawn), (supplier, requestId);
      lookups, drawn := lookups + 1, drawn + 1;
      if d.looks {
        return if k in book then Found(book[k]) else NotFound;
      }
      return if d.throttled then LookupDeferred(d.at) else LookupFailed(d.timedOut);
    }
  }

  // ---- What stays quiet while something is asked ----

  datatype Scope =
    | Nothing
    | OneId(mine: Entry)
    | OneSupplier(item: string, supplier: string)
    | OneItem(item: string)

  predicate InScope(scope: Scope, k: Entry) {
    match scope
    case Nothing => false
    case OneId(mine) => k == mine
    case OneSupplier(item, supplier) => Mine(item, k) && k.0 == supplier
    case OneItem(item) => Mine(item, k)
  }

  // Our ids outside the scope were not asked under.
  ghost predicate Hush(a: Shelf, b: Shelf, items: seq<string>, scope: Scope) {
    forall k | Ours(items, k) && !InScope(scope, k) :: Quiet(a, b, k)
  }

  ghost predicate Wider(narrow: Scope, wide: Scope) {
    forall k | InScope(narrow, k) :: InScope(wide, k)
  }

  lemma HushAgain(a: Shelf, b: Shelf, c: Shelf, items: seq<string>, scope: Scope, scope': Scope)
    requires Hush(a, b, items, scope) && Hush(b, c, items, scope') && Wider(scope', scope)
    ensures Hush(a, c, items, scope)
  {
  }

  lemma HushAlready(a: Shelf, items: seq<string>, scope: Scope)
    ensures Hush(a, a, items, scope)
  {
  }
}

/** The payment provider's side of refunds: one payout per refund id, however often it is asked. */
module Provider {
  import opened Base
  import opened Tables
  import opened Consistency
  import opened Evidence
  import opened Machine

  // Every payout is of an item that is being given back, at its price, and no item is paid twice.
  ghost predicate PaidAsOwed(t: Tables, payouts: seq<Payout>) {
    && (forall i | 0 <= i < |payouts| :: OwedBack(t, payouts[i]))
    && (forall i, j | 0 <= i < j < |payouts| :: payouts[i].item != payouts[j].item)
  }

  lemma OwedStays(payouts: seq<Payout>, t: Tables, t': Tables)
    requires PaidAsOwed(t, payouts) && Accrues(t, t')
    ensures PaidAsOwed(t', payouts)
  {
    forall i | 0 <= i < |payouts| ensures OwedBack(t', payouts[i]) {
      var key := payouts[i].item;
      assert OwedBack(t, payouts[i]);
      assert ItemAdvances(t.orders[key.order].items[key.position], t'.orders[key.order].items[key.position]);
    }
  }

  lemma OneMoreOwed(payouts: seq<Payout>, t: Tables, key: ItemKey)
    requires PaidAsOwed(t, payouts) && ValidKey(t, key)
    requires ItemAt(t, key).status == Refunding || ItemAt(t, key).status == Refunded
    ensures PaidAsOwed(t, PayOut(payouts, key, ItemAt(t, key).amount))
    ensures Payout(key, ItemAt(t, key).amount) in PayOut(payouts, key, ItemAt(t, key).amount)
  {
    if i :| 0 <= i < |payouts| && payouts[i].item == key {
      assert OwedBack(t, payouts[i]);
    }
  }

  // The same for a call that may or may not have been recorded.
  lemma RefundIsOwed(t: Tables, payouts: seq<Payout>, payouts': seq<Payout>, key: ItemKey)
    requires PaidAsOwed(t, payouts) && ValidKey(t, key) && ItemAt(t, key).status == Refunding
    requires payouts' == payouts || (!PaidOut(payouts, key) && payouts' == payouts + [Payout(key, ItemAt(t, key).amount)])
    ensures PaidAsOwed(t, payouts')
    ensures PaidOut(payouts', key) ==> Payout(key, ItemAt(t, key).amount) in payouts'
  {
    OneMoreOwed(payouts, t, key);
    if PaidOut(payouts', key) {
      var i :| 0 <= i < |payouts'| && payouts'[i].item == key;
      assert OwedBack(t, payouts'[i]);
    }
  }

  class PaymentProvider {
    var payouts: seq<Payout>

    constructor ()
      ensures payouts == []
    {
      payouts := [];
    }

    // Other workers' refunds, of items of other orders than the one held.
    method Elsewhere(t: Tables, held: Option<nat>)
      requires PaidAsOwed(t, payouts)
      modifies this
      ensures PaidAsOwed(t, payouts) && old(payouts) <= payouts
      ensures forall i | |old(payouts)| <= i < |payouts| :: held != Some(payouts[i].item.order)
    {
      var keys: seq<ItemKey> := *;
      for k := 0 to |keys|
        invariant PaidAsOwed(t, payouts) && old(payouts) <= payouts
        invariant forall i | |old(payouts)| <= i < |payouts| :: held != Some(payouts[i].item.order)
      {
        var key := keys[k];
        if held != Some(key.order) && ValidKey(t, key) && ItemAt(t, key).status in {Refunding, Refunded} {
          OneMoreOwed(payouts, t, key);
          payouts := PayOut(payouts, key, ItemAt(t, key).amount);
        }
      }
    }

    // An unanswered call may have been recorded all the same.
    method Refund(key: ItemKey, amount: int) returns (ok: bool)
      modifies this
      ensures payouts == old(payouts) || (!PaidOut(old(payouts), key) && payouts == old(payouts) + [Payout(key, amount)])
      ensures ok ==> PaidOut(payouts, key)
    {
      var recorded: bool, answered: bool := *, *;
      if !recorded {
        return false;
      }
      payouts := PayOut(payouts, key, amount);
      assert PaidOut(payouts, key) by {
        if !PaidOut(old(payouts), key) {
          assert payouts[|old(payouts)|].item == key;
        }
      }
      return answered;
    }
  }
}
