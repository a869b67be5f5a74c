/**
 The outcomes of asking one supplier for one item, and what the tables and the supplier's book show
 behind each of them.
 */
module Outcomes {
  import opened Base
  import opened Tables
  import opened RequestIds
  import opened Consistency
  import opened Evidence
  import opened Passing
  import opened Requests
  import opened Suppliers
  import opened Replies
  import Machine

  datatype IssueOutcome =
    | Issued(code: string, verified: bool)
    | OutOfStock
    | Failed
    | Ambiguous
    | Deferred(nextSlotAt: int)

  datatype AcceptOutcome = Delivered | Rejected | Ambiguous | Deferred(nextSlotAt: int)

  // What the book makes of an answered code.
  datatype Booking = Confirmed(code: string) | Closed(outcome: AcceptOutcome)

  datatype SupplierOutcome = Delivered | OutOfStock | Failed | Ambiguous | Deferred(nextSlotAt: int)

  type Schedule = (nat, Tables, Option<nat>) -> Tables

  // Whatever the other workers do meanwhile, they do to orders this worker does not hold.
  ghost predicate Tolerable(others: Schedule, c: Config) {
    && (forall n: nat, t, o: nat | Ready(t, c) && o < |t.orders| :: Foreign(t, others(n, t, Some(o)), c, o))
    && (forall n: nat, t | Ready(t, c) ::
          var t' := others(n, t, None);
          Ready(t', c) && Accrues(t, t'))
  }

  // A held order after others have moved on.
  lemma OthersAreForeign(others: Schedule, c: Config, n: nat, t: Tables, key: ItemKey)
    requires Tolerable(others, c) && Ready(t, c) && ValidKey(t, key)
    ensures var t' := others(n, t, Some(key.order));
            && Foreign(t, t', c, key.order) && Ready(t', c) && Accrues(t, t')
            && ValidKey(t', key) && t'.orders[key.order].status == t.orders[key.order].status
  {
    hide Ready, FactsOf, Accrues;
    assert Foreign(t, others(n, t, Some(key.order)), c, key.order);
    assert Head(others(n, t, Some(key.order)).orders[key.order]) == Head(t.orders[key.order]);
  }

  lemma OthersAccrue(others: Schedule, c: Config, n: nat, t: Tables)
    requires Tolerable(others, c) && Ready(t, c)
    ensures Ready(others(n, t, None), c) && Accrues(t, others(n, t, None))
  {
    hide Ready, Accrues;
  }

  function OutcomeOf(r: IssueReply): AttemptOutcome {
    match r
    case OkCode(_) => AnsweredOk
    case NoneInStock => NoStock
    case Unreachable => NotSent
    case ServerError => Errored
    case BrokenConnection => Broken
    case NoResponse => TimedOut
    case RateLimited(_) => NotSent
  }

  // Everything that accumulates, seen at one moment; under the `lost` ids a call was made whose
  // answer is not written down, and the `strays` are nobody's that this worker knows of.
  datatype World =
    World(
      t: Tables, payouts: seq<Machine.Payout>, shelf: Shelf, calls: seq<Call>, heard: seq<Heard>,
      lost: set<Entry>, strays: set<Entry>)

  // Entries are taken for strays only under ids of other items.
  ghost predicate StraysElsewhere(a: set<Entry>, b: set<Entry>, items: seq<string>) {
    a <= b && forall k | k in b && k !in a :: !Ours(items, k)
  }

  lemma StraysAgain(a: set<Entry>, b: set<Entry>, c: set<Entry>, items: seq<string>)
    requires StraysElsewhere(a, b, items) && StraysElsewhere(b, c, items)
    ensures StraysElsewhere(a, c, items)
  {
  }

  lemma SameStrays(a: set<Entry>, items: seq<string>)
    ensures StraysElsewhere(a, a, items)
  {
  }

  // The ids of an order's items.
  function Ids(t: Tables, o: nat): seq<string> {
    if o < |t.orders| then seq(|t.orders[o].items|, j requires 0 <= j < |t.orders[o].items| => t.orders[o].items[j].id) else []
  }

  // The rest of the order is as it was, findings, payouts and calls accumulate, book entries stay,
  // all that was heard is about the item, none of the order's ids outside the scope was asked under, and none became a stray.
  ghost predicate Onward(w: World, w': World, c: Config, key: ItemKey, scope: Scope) {
    && Kept(w.t, w'.t, c, key)
    && w.payouts <= w'.payouts
    && WriteOnce(w.shelf.book, w'.shelf.book)
    && w.calls <= w'.calls
    && OnlyAbout(w.heard, w'.heard, key)
    && Hush(w.shelf, w'.shelf, Ids(w.t, key.order), scope)
    && StraysElsewhere(w.strays, w'.strays, Ids(w.t, key.order))
  }

  lemma SameIds(t: Tables, t': Tables, o: nat)
    requires Accrues(t, t') && o < |t.orders|
    ensures Ids(t', o) == Ids(t, o)
  {
    assert ItemsAdvance(t.orders[o].items, t'.orders[o].items);
    forall j | 0 <= j < |t.orders[o].items| ensures t'.orders[o].items[j].id == t.orders[o].items[j].id {
      assert ItemAdvances(t.orders[o].items[j], t'.orders[o].items[j]);
    }
  }

  lemma QuietIsHush(a: Shelf, b: Shelf, items: seq<string>)
    requires forall k | Ours(items, k) :: Quiet(a, b, k)
    ensures Hush(a, b, items, Nothing)
  {
  }

  lemma OwnIdsAreOurs(t: Tables, c: Config, key: ItemKey)
    requires ValidKey(t, key)
    ensures forall k | Mine(FactsOf(t, c, key).row.id, k) :: Ours(Ids(t, key.order), k)
  {
    assert Ids(t, key.order)[key.position] == FactsOf(t, c, key).row.id;
  }

  lemma AccruedIds(t: Tables, t': Tables, c: Config, key: ItemKey)
    requires Kept(t, t', c, key)
    ensures Ids(t', key.order) == Ids(t, key.order)
  {
    hide Accrues, SameBut;
    SameIds(t, t', key.order);
  }

  lemma OnwardIds(w: World, w': World, c: Config, key: ItemKey, scope: Scope)
    requires Onward(w, w', c, key, scope)
    ensures Ids(w'.t, key.order) == Ids(w.t, key.order)
  {
    hide Kept, Hush, WriteOnce;
    AccruedIds(w.t, w'.t, c, key);
  }

  // A call under one id of the item.
  lemma AskedOnward(w: World, w': World, c: Config, key: ItemKey, mine: Entry)
    requires ValidKey(w.t, key) && w'.t == w.t && w'.payouts == w.payouts && w.calls <= w'.calls && w'.strays == w.strays
    requires WriteOnce(w.shelf.book, w'.shelf.book) && OnlyAbout(w.heard, w'.heard, key)
    requires forall k | k != mine :: Quiet(w.shelf, w'.shelf, k)
    ensures Onward(w, w', c, key, OneId(mine))
  {
    hide SameBut, Accrues;
    KeptAlready(w.t, c, key);
  }

  // A call that changes no shelf.
  lemma UnaskedOnward(w: World, w': World, c: Config, key: ItemKey)
    requires ValidKey(w.t, key) && w' == w.(calls := w'.calls, heard := w'.heard, lost := w'.lost)
    requires w.calls <= w'.calls && OnlyAbout(w.heard, w'.heard, key)
    ensures Onward(w, w', c, key, Nothing)
  {
    hide SameBut, Accrues;
    KeptAlready(w.t, c, key);
  }

  // What is lost is not part of what goes on.
  lemma LostAside(w: World, w': World, c: Config, key: ItemKey, lost: set<Entry>)
    requires Onward(w, w', c, key, Nothing)
    ensures Onward(w, w'.(lost := lost), c, key, Nothing)
  {
    hide Kept, Hush, WriteOnce;
  }

  lemma AskingIsOfItem(c: Config, f: Facts, item: Item, supplier: string, requestId: string)
    requires MayAsk(c, f, item, supplier, requestId)
    ensures f.row == item
  {
  }

  // The attempt just written.
  lemma LastIsAsked(t: Tables, c: Config, key: ItemKey, a: Attempt)
    requires ValidKey(t, key) && FactsOf(t, c, key).log != [] && FactsOf(t, c, key).log[|FactsOf(t, c, key).log| - 1] == a
    ensures Asked(t, a.supplier, a.requestId)
  {
    var log := t.attempts[key];
    assert log[|log| - 1] == a;
    assert AskedUnder(t, a.supplier, a.requestId, key);
  }

  lemma OnwardAlready(w: World, c: Config, key: ItemKey, scope: Scope)
    requires ValidKey(w.t, key)
    ensures Onward(w, w, c, key, scope)
  {
    KeptAlready(w.t, c, key);
    HushAlready(w.shelf, Ids(w.t, key.order), scope);
  }

  // Nothing more is asked.
  lemma OnwardThen(w: World, w': World, w'': World, c: Config, key: ItemKey, scope: Scope)
    requires Onward(w, w', c, key, scope) && Onward(w', w'', c, key, Nothing)
    ensures Onward(w, w'', c, key, scope)
    ensures WriteOnce(w'.shelf.book, w''.shelf.book) && w'.t.discrepancies <= w''.t.discrepancies
  {
    OnwardWider(c, key, Nothing, scope);
    OnwardAgain(w, w', w'', c, key, scope);
    AccruedFindings(w'.t, w''.t);
    hide SameBut, Accrues, WriteOnce, Hush;
  }

  lemma OnwardAgain(w: World, w': World, w'': World, c: Config, key: ItemKey, scope: Scope)
    requires Onward(w, w', c, key, scope) && Onward(w', w'', c, key, scope)
    ensures Onward(w, w'', c, key, scope)
  {
    hide SameBut, Hush, Accrues, WriteOnce, StraysElsewhere, OnlyAbout;
    KeptAgain(w.t, w'.t, w''.t, c, key);
    SameIds(w.t, w'.t, key.order);
    HushAgain(w.shelf, w'.shelf, w''.shelf, Ids(w.t, key.order), scope, scope);
    StraysAgain(w.strays, w'.strays, w''.strays, Ids(w.t, key.order));
    AboutAgain(w.heard, w'.heard, w''.heard, key);
    WriteOnceAgain(w.shelf.book, w'.shelf.book, w''.shelf.book);
  }

  // What is quiet under a narrow scope is quiet under a wider one.
  lemma OnwardWider(c: Config, key: ItemKey, narrow: Scope, wide: Scope)
    requires Wider(narrow, wide)
    ensures forall w, w' | Onward(w, w', c, key, narrow) :: Onward(w, w', c, key, wide)
  {
    hide Kept, WriteOnce, Quiet, Ours, StraysElsewhere, OnlyAbout;
  }

  lemma OnwardChains(w: World, c: Config, key: ItemKey, scope: Scope)
    requires ValidKey(w.t, key)
    ensures Onward(w, w, c, key, scope)
    ensures forall w', w'' | Onward(w, w', c, key, scope) && Onward(w', w'', c, key, scope) :: Onward(w, w'', c, key, scope)
    ensures forall w', w'' | Onward(w', w'', c, key, Nothing) :: Onward(w', w'', c, key, scope)
    ensures forall w', w'', scope' | Onward(w', w'', c, key, scope') ::
              && WriteOnce(w'.shelf.book, w''.shelf.book)
              && w'.t.discrepancies <= w''.t.discrepancies
              && Kept(w'.t, w''.t, c, key)
  {
    KeptAlready(w.t, c, key);
    HushAlready(w.shelf, Ids(w.t, key.order), scope);
    SameStrays(w.strays, Ids(w.t, key.order));
    NothingAbout(w.heard, key);
    OnwardWider(c, key, Nothing, scope);
    hide SameBut, Hush, Ids, WriteOnce, StraysElsewhere, OnlyAbout;
    forall w', w'' | Onward(w, w', c, key, scope) && Onward(w', w'', c, key, scope) ensures Onward(w, w'', c, key, scope) {
      OnwardAgain(w, w', w'', c, key, scope);
    }
  }

  // An id of the item's own that was not asked under.
  lemma OnwardQuiet(w: World, w': World, c: Config, key: ItemKey, scope: Scope, k: Entry)
    requires Onward(w, w', c, key, scope) && Mine(FactsOf(w.t, c, key).row.id, k) && !InScope(scope, k)
    ensures Quiet(w.shelf, w'.shelf, k)
  {
    hide Mine, Quiet, SameBut, WriteOnce;
    var ids := Ids(w.t, key.order);
    assert ids[key.position] == FactsOf(w.t, c, key).row.id;
    assert Ours(ids, k);
  }

  // What the attempt log and the book show behind each outcome of a round that began with `n`
  // attempts in the log.
  ghost predicate Answers(log: seq<Attempt>, book: map<Entry, string>, mine: Entry, n: nat, o: IssueOutcome) {
    match o
    case Issued(code, verified) => NoneIsOpen(log) && (verified ==> mine in book && book[mine] == code)
    case OutOfStock => NoneIsOpen(log) && |log| > n && log[|log| - 1].outcome == NoStock
    case Failed => NoneIsOpen(log) && |log| > n && (log[|log| - 1].outcome == NoneIssued || NeverSent(log, n))
    case Ambiguous => OpenSuppliers(log) == [mine.0]
    case Deferred(_) => true
  }

  // How a look into the book is written down. An empty one counts as a timeout while a call of this
  // round may still arrive; a supplier already open when the round began is believed.
  function BookAttempt(booked: LookupReply, mine: Entry, flagged: bool, sawTimeout: bool): Attempt {
    Attempt(mine.0, mine.1, match booked
                            case LookupFailed(false) => Errored
                            case LookupFailed(true) => TimedOut
                            case NotFound => if sawTimeout && !flagged then TimedOut else NoneIssued
                            case _ => AnsweredOk)
  }

  function BookOutcome(booked: LookupReply, a: Attempt): IssueOutcome {
    if booked.Found? then IssueOutcome.Issued(booked.code, true)
    else if a.outcome == NoneIssued then IssueOutcome.Failed else IssueOutcome.Ambiguous
  }

  lemma BookAnswers(
    c: Config, f: Facts, item: Item, mine: Entry, n: nat, flagged: bool, sawTimeout: bool, booked: LookupReply, book: map<Entry, string>)
    requires Extends(f, f, mine.0, mine.1) && MayAsk(c, f, item, mine.0, mine.1) && n <= |f.log| && !booked.LookupDeferred?
    requires booked.Found? ==> mine in book && book[mine] == booked.code
    ensures var a := BookAttempt(booked, mine, flagged, sawTimeout);
            var log := f.log + [a];
            && MayRecord(c, f, a) && MayAsk(c, f.(log := log), item, mine.0, mine.1)
            && Extends(f, f.(log := log), mine.0, mine.1)
            && Answers(log, book, mine, n, BookOutcome(booked, a))
            && (forall o :: Said(log, n, o) <==> Said(f.log, n, o) || o == a.outcome)
  {
    var a := BookAttempt(booked, mine, flagged, sawTimeout);
    LogOpens(c, f, f, item, a);
    forall o ensures Said(f.log + [a], n, o) <==> Said(f.log, n, o) || o == a.outcome {
      SaidAppend(f.log, a, n, o);
    }
    hide MayAsk, MayRecord, OpenSuppliers, Said;
  }

  lemma DeferralAnswers(log: seq<Attempt>, book: map<Entry, string>, mine: Entry, n: nat, at: int)
    ensures Answers(log, book, mine, n, IssueOutcome.Deferred(at))
  {
  }

  lemma AnswersStay(log: seq<Attempt>, book: map<Entry, string>, book': map<Entry, string>, mine: Entry, n: nat, o: IssueOutcome)
    requires Answers(log, book, mine, n, o) && WriteOnce(book, book')
    ensures Answers(log, book', mine, n, o)
  {
    hide OpenSuppliers;
  }

  // What the answer to a call for a code settles; None when it settles nothing.
  predicate AttemptHeard(reply: IssueReply, o: Option<IssueOutcome>) {
    match reply
    case OkCode(code) => o == Some(IssueOutcome.Issued(code, false))
    case NoneInStock => o == Some(IssueOutcome.OutOfStock)
    case RateLimited(at) => o == Some(IssueOutcome.Deferred(at))
    case _ => o == None
  }

  // What the book settles once no answer did. An empty one is only final when no call of this round
  // can still arrive, or none did since the supplier was left open.
  predicate BookHeard(shown: LookupReply, flagged: bool, sawTimeout: bool, o: IssueOutcome) {
    match shown
    case Found(code) => o == IssueOutcome.Issued(code, true)
    case NotFound => o == if sawTimeout && !flagged then IssueOutcome.Ambiguous else IssueOutcome.Failed
    case LookupFailed(_) => o == IssueOutcome.Ambiguous
    case LookupDeferred(at) => o == IssueOutcome.Deferred(at)
  }

  // How a look into the book is written down; not at all when there was no slot for it.
  function BookLog(shown: LookupReply, mine: Entry, unclear: bool): seq<Attempt> {
    match shown
    case Found(_) => [Attempt(mine.0, mine.1, AnsweredOk)]
    case NotFound => [Attempt(mine.0, mine.1, if unclear then TimedOut else NoneIssued)]
    case LookupFailed(timedOut) => [Attempt(mine.0, mine.1, if timedOut then TimedOut else Errored)]
    case LookupDeferred(_) => []
  }

  // Behind each outcome of a round, the last answer under its id.
  predicate IssueHeard(a: Answer, mine: Entry, o: IssueOutcome) {
    match o
    case Issued(code, verified) => a == if verified then ToLookup(mine, Found(code)) else ToIssue(mine, OkCode(code))
    case OutOfStock => a == ToIssue(mine, NoneInStock)
    case Failed => a == ToLookup(mine, NotFound) || a == ToIssue(mine, Unreachable)
    case Ambiguous => a.ToLookup? && a.looked == mine && (a.shown.LookupFailed? || a.shown.NotFound?)
    case Deferred(at) => a == ToIssue(mine, RateLimited(at)) || a == ToLookup(mine, LookupDeferred(at))
  }

  // What the book makes of an answered code.
  predicate BookingHeard(shown: LookupReply, b: Booking) {
    match shown
    case Found(code) => b == Confirmed(code)
    case NotFound => b == Closed(AcceptOutcome.Rejected)
    case LookupFailed(_) => b == Closed(AcceptOutcome.Ambiguous)
    case LookupDeferred(at) => b == Closed(AcceptOutcome.Deferred(at))
  }

  // The findings due to what the book shows of an answered code: another code, or none at all.
  function BookingFindings(key: ItemKey, mine: Entry, answered: string, shown: LookupReply): seq<Discrepancy> {
    match shown
    case Found(code) =>
      if code != answered then [Discrepancy(mine.0, mine.1, Some(key), CodeMismatch, answered, Some(code))] else []
    case NotFound => [Discrepancy(mine.0, mine.1, Some(key), UnbookedCode, answered, None)]
    case _ => []
  }

  predicate AcceptHeard(shown: LookupReply, o: AcceptOutcome) {
    match shown
    case Found(_) => o.Delivered? || o.Rejected?
    case NotFound => o == AcceptOutcome.Rejected
    case LookupFailed(_) => o == AcceptOutcome.Ambiguous
    case LookupDeferred(at) => o == AcceptOutcome.Deferred(at)
  }

  // Behind each outcome of a supplier, the last answer it gave; None when its code was rejected.
  predicate RoundHeard(a: Answer, delivery: Option<Delivery>, o: Option<SupplierOutcome>) {
    match o
    case None => a.ToLookup? && (a.shown.Found? || a.shown.NotFound?)
    case Some(Delivered) => a.ToLookup? && a.shown.Found? && delivery == Some(Delivery(a.looked.1, a.looked.0, a.shown.code))
    case Some(OutOfStock) => a.ToIssue? && a.reply.NoneInStock?
    case Some(Failed) => (a.ToIssue? && a.reply.Unreachable?) || (a.ToLookup? && (a.shown.Found? || a.shown.NotFound?))
    case Some(Ambiguous) => a.ToLookup? && (a.shown.LookupFailed? || a.shown.NotFound?)
    case Some(Deferred(at)) => Refuses(a, at)
  }

  lemma IssuedIsHeard(a: Answer, mine: Entry, o: IssueOutcome, delivery: Option<Delivery>)
    requires IssueHeard(a, mine, o) && !o.Issued?
    ensures RoundHeard(a, delivery, Some(FromIssue(o)))
  {
  }

  // The answer that brought a code.
  lemma IssuedCode(a: Answer, mine: Entry, o: IssueOutcome)
    requires IssueHeard(a, mine, o) && o.Issued?
    ensures o.verified ==> a == ToLookup(mine, Found(o.code))
  {
  }

  // What is delivered is what the book was last seen to show.
  lemma AcceptedIsHeard(
    c: Config, found: seq<Discrepancy>, book: map<Entry, string>, key: ItemKey, f: Facts, f': Facts, item: Item,
    mine: Entry, answered: string, verified: bool, o: AcceptOutcome, shown: LookupReply)
    requires Accepts(found, book, key, f, f', item, mine, answered, verified, o) && AcceptHeard(shown, o)
    requires shown.Found? && o.Delivered? && mine in book ==> shown.code == book[mine]
    ensures RoundHeard(ToLookup(mine, shown), f'.delivery, if o.Rejected? then None else Some(FromAccept(o)))
  {
    hide OpenSuppliers;
  }

  // A supplier that was left with nothing new heard had no round left; one whose last code was
  // rejected has failed once no round is left either.
  predicate SupplierHeard(before: seq<Heard>, heard: seq<Heard>, delivery: Option<Delivery>, o: SupplierOutcome) {
    if |heard| <= |before| then o.Failed? else RoundHeard(heard[|heard| - 1].answer, delivery, Some(o))
  }

  // All rounds so far ended with a rejected code.
  predicate RejectionHeard(before: seq<Heard>, heard: seq<Heard>) {
    |heard| > |before| ==> RoundHeard(heard[|heard| - 1].answer, None, None)
  }

  // What an accepted, rejected or postponed code leaves behind; `f` are the facts before.
  ghost predicate Accepts(
    found: seq<Discrepancy>, book: map<Entry, string>, key: ItemKey, f: Facts, f': Facts, item: Item,
    mine: Entry, answered: string, verified: bool, o: AcceptOutcome)
  {
    match o
    case Delivered =>
      && mine in book
      && f' == f.(row := item.(status := ItemStatus.Delivered), delivery := Some(Delivery(mine.1, mine.0, book[mine])))
      && (book[mine] != answered ==>
            AlreadyFound(found, Discrepancy(mine.0, mine.1, Some(key), CodeMismatch, answered, Some(book[mine]))))
    case Rejected =>
      && mine.0 in f.rejected
      && f' == Reject(f, mine.0, mine.1).(log := f.log + [Attempt(mine.0, mine.1, AttemptOutcome.Rejected)])
      && NoneIsOpen(f'.log)
      && (|| (mine in book && Discrepancy(mine.0, mine.1, Some(key), DuplicateCodeKind, book[mine], None) in found)
          || (!verified && Discrepancy(mine.0, mine.1, Some(key), UnbookedCode, answered, None) in found))
    case Ambiguous => Extends(f, f', mine.0, mine.1) && OpenSuppliers(f'.log) == [mine.0] && !verified
    case Deferred(_) => f' == f && !verified
  }

  // What is known when a supplier is done with; `f` are the facts before it was tried.
  ghost predicate Tells(c: Config, book: map<Entry, string>, f: Facts, f': Facts, item: Item, supplier: string, o: SupplierOutcome) {
    && Tried(f, f', supplier)
    && match o
       case Delivered =>
         var mine := (supplier, RequestId(item.id, supplier, |f'.rejected[supplier]| + 1));
         && f'.row == item.(status := ItemStatus.Delivered) && NoneIsOpen(f'.log)
         && mine in book
         && f'.delivery == Some(Delivery(mine.1, supplier, book[mine]))
       case OutOfStock => StillPending(f, f', item) && NoneIsOpen(f'.log) && LastWord(f, f', NoStock)
       case Failed =>
         && StillPending(f, f', item)
         && NoneIsOpen(f'.log)
         && (|| LastWord(f, f', NoneIssued)
             || LastWord(f, f', NotSent)
             || (|f'.rejected[supplier]| >= c.maxRounds && (f'.log == f.log || LastWord(f, f', AttemptOutcome.Rejected))))
       case Ambiguous => StillPending(f, f', item) && OpenSuppliers(f'.log) == [supplier]
       case Deferred(_) => StillPending(f, f', item) && OnlyOpen(f'.log, supplier)
  }

  ghost predicate StillPending(f: Facts, f': Facts, item: Item) {
    f'.row == item && f'.delivery == f.delivery
  }

  lemma TellsAgain(
    c: Config, book: map<Entry, string>, f: Facts, f': Facts, f'': Facts, item: Item, supplier: string, o: SupplierOutcome)
    requires Tried(f, f', supplier) && StillPending(f, f', item)
    requires f'.log == f.log || LastWord(f, f', AttemptOutcome.Rejected)
    requires Tells(c, book, f', f'', item, supplier, o)
    ensures Tells(c, book, f, f'', item, supplier, o)
  {
    assert supplier in f.rejected;
    hide Tried, OpenSuppliers, RequestId;
    TriedChains(f, supplier);
  }

  // A supplier's rounds so far: all rejected, and the next one is number `round`.
  ghost predicate BetweenRounds(f0: Facts, f: Facts, item: Item, supplier: string, flagged: bool, round: nat) {
    && Tried(f0, f, supplier) && StillPending(f0, f, item)
    && (f.log == f0.log || LastWord(f0, f, AttemptOutcome.Rejected))
    && OnlyOpen(f.log, supplier) && (!flagged ==> NoneIsOpen(f.log))
    && round == |f.rejected[supplier]| + 1
  }

  lemma RoundsBegin(f: Facts, item: Item, supplier: string, flagged: bool)
    requires f.row == item && supplier in f.rejected
    requires OnlyOpen(f.log, supplier) && (!flagged ==> NoneIsOpen(f.log))
    ensures BetweenRounds(f, f, item, supplier, flagged, |f.rejected[supplier]| + 1)
  {
    hide OpenSuppliers;
  }

  lemma RoundMayBegin(
    t: Tables, c: Config, key: ItemKey, f0: Facts, item: Item, supplier: string, flagged: bool, round: nat)
    requires Ready(t, c) && ValidKey(t, key) && supplier in c.suppliers && item.status == Pending
    requires BetweenRounds(f0, FactsOf(t, c, key), item, supplier, flagged, round)
    ensures var f := FactsOf(t, c, key);
            if round <= c.maxRounds
            then
              && MayAsk(c, f, item, supplier, RequestId(item.id, supplier, round)) && (!flagged ==> NoneIsOpen(f.log))
              && Mine(item.id, (supplier, RequestId(item.id, supplier, round)))
            else forall book: map<Entry, string> :: Tells(c, book, f0, f, item, supplier, SupplierOutcome.Failed)
    ensures Tried(f0, FactsOf(t, c, key), supplier) && StillPending(f0, FactsOf(t, c, key), item)
    ensures var f := FactsOf(t, c, key); f.log == f0.log || LastWord(f0, f, AttemptOutcome.Rejected)
  {
    hide FactsOf, OpenSuppliers, OnlyOpen, RequestId, MayAsk;
    RoundOpens(t, c, key, item, supplier);
    BeginsWithItem(item.id, supplier, round);
  }

  lemma RoundWasRejected(f0: Facts, f: Facts, f': Facts, item: Item, supplier: string, flagged: bool, round: nat)
    requires BetweenRounds(f0, f, item, supplier, flagged, round)
    requires Tried(f, f', supplier) && StillPending(f, f', item) && LastWord(f, f', AttemptOutcome.Rejected)
    requires NoneIsOpen(f'.log) && OnlyOpen(f'.log, supplier)
    requires |f'.rejected[supplier]| == |f.rejected[supplier]| + 1
    ensures BetweenRounds(f0, f', item, supplier, flagged, round + 1)
  {
    hide OpenSuppliers;
    TriedChains(f0, supplier);
  }

  function FromIssue(o: IssueOutcome): SupplierOutcome {
    match o
    case OutOfStock => SupplierOutcome.OutOfStock
    case Failed => SupplierOutcome.Failed
    case Deferred(at) => SupplierOutcome.Deferred(at)
    case _ => SupplierOutcome.Ambiguous
  }

  function FromAccept(o: AcceptOutcome): SupplierOutcome {
    match o
    case Delivered => SupplierOutcome.Delivered
    case Deferred(at) => SupplierOutcome.Deferred(at)
    case _ => SupplierOutcome.Ambiguous
  }

  lemma AnswerTells(
    c: Config, book: map<Entry, string>, f: Facts, f': Facts, item: Item, supplier: string, requestId: string, o: IssueOutcome)
    requires MayAsk(c, f, item, supplier, requestId) && MayAsk(c, f', item, supplier, requestId)
    requires Extends(f, f', supplier, requestId)
    requires Answers(f'.log, book, (supplier, requestId), |f.log|, o)
    ensures Tried(f, f', supplier) && StillPending(f, f', item) && f'.rejected == f.rejected
    ensures !o.Issued? ==> Tells(c, book, f, f', item, supplier, FromIssue(o))
  {
    hide OpenSuppliers, RequestId;
    ExtendedIsTried(f, f', supplier, requestId);
  }

  // The same once the round's code has been settled; `f0` are the facts before the round.
  lemma AcceptTells(
    c: Config, found: seq<Discrepancy>, book: map<Entry, string>, key: ItemKey, f0: Facts, f: Facts, f': Facts, item: Item,
    supplier: string, requestId: string, answered: string, verified: bool, o: AcceptOutcome)
    requires Tried(f0, f, supplier) && StillPending(f0, f, item) && f.rejected == f0.rejected
    requires MayAsk(c, f, item, supplier, requestId) && NoneIsOpen(f.log)
    requires Accepts(found, book, key, f, f', item, (supplier, requestId), answered, verified, o)
    ensures Tried(f0, f', supplier)
    ensures !o.Rejected? ==> Tells(c, book, f0, f', item, supplier, FromAccept(o))
    ensures o.Rejected? ==>
              && StillPending(f0, f', item) && LastWord(f0, f', AttemptOutcome.Rejected)
              && NoneIsOpen(f'.log) && OnlyOpen(f'.log, supplier)
              && supplier in f'.rejected && |f'.rejected[supplier]| == |f0.rejected[supplier]| + 1
  {
    hide OpenSuppliers, RequestId, AlreadyFound;
    AcceptIsTried(c, found, book, key, f, f', item, supplier, requestId, answered, verified, o);
    TriedChains(f0, supplier);
  }

  lemma AcceptIsTried(
    c: Config, found: seq<Discrepancy>, book: map<Entry, string>, key: ItemKey, f: Facts, f': Facts, item: Item,
    supplier: string, requestId: string, answered: string, verified: bool, o: AcceptOutcome)
    requires MayAsk(c, f, item, supplier, requestId)
    requires Accepts(found, book, key, f, f', item, (supplier, requestId), answered, verified, o)
    ensures Tried(f, f', supplier)
  {
    hide OpenSuppliers, RequestId, AlreadyFound;
    if o.Rejected? {
      RejectedIsTried(f, supplier, requestId, Attempt(supplier, requestId, AttemptOutcome.Rejected));
    } else if o.Ambiguous? {
      ExtendedIsTried(f, f', supplier, requestId);
    }
  }

  datatype Tally = Tally(issues: int, lookups: int, slots: int)

  // What a number of rounds may cost: every call prepaid, unless the limit leaves room for one only.
  ghost predicate Within(a: Tally, b: Tally, rounds: int, attempts: int, limit: int) {
    && b.issues - a.issues <= rounds * attempts
    && b.lookups - a.lookups <= rounds
    && b.lookups - a.lookups <= b.issues - a.issues
    && Prepaid(a, b, limit)
  }

  // A call takes two slots where the limit has two to give.
  ghost predicate Prepaid(a: Tally, b: Tally, limit: int) {
    && (limit >= 2 ==> b.slots - a.slots == 2 * (b.issues - a.issues))
    && (limit == 1 ==> b.slots - a.slots == b.issues - a.issues)
  }

  // Calls never exceed the slots spent on them, except that under a limit of one a book lookup
  // finds no slot left to pay for it.
  lemma CallsAgainstSlots(a: Tally, b: Tally, rounds: int, attempts: int, limit: int)
    requires Within(a, b, rounds, attempts, limit) && limit > 0 && a.lookups <= b.lookups
    ensures (b.issues - a.issues) + (b.lookups - a.lookups) <= b.slots - a.slots <==> limit >= 2 || b.lookups == a.lookups
  {
  }

  lemma NothingSpent(a: Tally, attempts: int, limit: int)
    ensures Within(a, a, 0, attempts, limit)
  {
  }

  lemma OneMoreRound(a: Tally, b: Tally, c: Tally, rounds: int, attempts: int, limit: int)
    requires Within(a, b, rounds, attempts, limit) && Within(b, c, 1, attempts, limit)
    ensures Within(a, c, rounds + 1, attempts, limit)
  {
    assert (rounds + 1) * attempts == rounds * attempts + attempts;
  }

  // The same for whole suppliers, whose limits differ.
  lemma OneMoreSupplier(a: Tally, b: Tally, c: Tally, asked: nat, suppliers: nat, maxRounds: nat, attempts: nat, limit: int)
    requires asked < suppliers
    requires Within(a, b, asked * maxRounds, attempts, 0) && Within(b, c, maxRounds, attempts, limit)
    ensures Within(a, c, (asked + 1) * maxRounds, attempts, 0)
    ensures Within(a, c, suppliers * maxRounds, attempts, 0)
  {
    assert (asked + 1) * maxRounds == asked * maxRounds + maxRounds;
    assert (asked + 1) * maxRounds * attempts == asked * maxRounds * attempts + maxRounds * attempts;
    assert suppliers * maxRounds == (asked + 1) * maxRounds + (suppliers - asked - 1) * maxRounds;
    FewerRounds(a, c, (asked + 1) * maxRounds, suppliers * maxRounds, attempts, 0);
  }

  lemma NoSupplierAsked(a: Tally, suppliers: nat, maxRounds: nat, attempts: nat)
    ensures Within(a, a, 0 * maxRounds, attempts, 0)
    ensures Within(a, a, suppliers * maxRounds, attempts, 0)
  {
    FewerRounds(a, a, 0, suppliers * maxRounds, attempts, 0);
  }

  lemma FewerRounds(a: Tally, b: Tally, rounds: int, maxRounds: int, attempts: int, limit: int)
    requires Within(a, b, rounds, attempts, limit) && rounds <= maxRounds && attempts >= 0
    ensures Within(a, b, maxRounds, attempts, limit)
  {
    assert maxRounds * attempts == rounds * attempts + (maxRounds - rounds) * attempts;
  }

  lemma FoundStays(found: seq<Discrepancy>, found': seq<Discrepancy>, d: Discrepancy)
    requires AlreadyFound(found, d) && found <= found'
    ensures AlreadyFound(found', d)
  {
    var i :| 0 <= i < |found| && SameFinding(found[i], d);
    assert SameFinding(found'[i], d);
  }

  lemma RowStays(found: seq<Discrepancy>, found': seq<Discrepancy>, d: Discrepancy)
    requires d in found && found <= found'
    ensures d in found'
  {
    var i :| 0 <= i < |found| && found[i] == d;
    assert found'[i] == d;
  }

  lemma NothingSaid(log: seq<Attempt>)
    ensures forall o :: !Said(log, |log|, o)
    ensures NeverSent(log, |log|)
  {
  }

  lemma StillTaken(t: Tables, t': Tables, c: Config, key: ItemKey, code: string)
    requires CodeTaken(t, code) && Kept(t, t', c, key)
    ensures CodeTaken(t', code)
  {
    hide SameBut;
    var other :| other in t.deliveries && t.deliveries[other].code == code;
    assert other in t'.deliveries && t'.deliveries[other].code == code;
  }

  lemma FindingIsThere(t: Tables, d: Discrepancy)
    ensures AlreadyFound(AddDiscrepancy(t, d).discrepancies, d)
  {
    if !AlreadyFound(t.discrepancies, d) {
      assert SameFinding((t.discrepancies + [d])[|t.discrepancies|], d);
    }
  }

  lemma NotedIsSound(t: Tables, c: Config, kind: CallKind, key: ItemKey, item: Item, supplier: string, requestId: string)
    requires Ready(t, c) && ValidKey(t, key) && supplier in c.suppliers
    requires MayAsk(c, FactsOf(t, c, key), item, supplier, requestId)
    ensures var f := FactsOf(t, c, key);
            && supplier in f.rejected
            && var x := Call(kind, key, item.id, supplier, requestId, OpenSuppliers(f.log), f.rejected[supplier]);
            SoundCall(c, x) && x.rejected == Rejections(t.discrepancies, key, supplier)
  {
    hide Ready, OpenSuppliers, RequestId, Rejections, SoundCall;
    var f := FactsOf(t, c, key);
    AskingIsSound(t, c, key, Call(kind, key, item.id, supplier, requestId, OpenSuppliers(f.log), f.rejected[supplier]));
  }

  // What a call is made under, read off the tables.
  lemma AskingIsSound(t: Tables, c: Config, key: ItemKey, x: Call)
    requires Ready(t, c) && ValidKey(t, key) && x.supplier in c.suppliers && x.key == key
    requires x.item == ItemAt(t, key).id && OnlyOpen(AttemptsOf(t, key), x.supplier)
    requires x.open == OpenSuppliers(AttemptsOf(t, key))
    requires x.rejected == FactsOf(t, c, key).rejected[x.supplier] && |x.rejected| < c.maxRounds
    requires x.requestId == RequestId(x.item, x.supplier, |x.rejected| + 1)
    ensures SoundCall(c, x)
    ensures x.rejected == Rejections(t.discrepancies, key, x.supplier)
  {
    assert FactsOk(c, FactsOf(t, c, key));
    assert IdsOk(t);
  }
}
