/**
 What suppliers may still hold for an item when a pass leaves them: nothing that was not there or
 under way before, unless a call of the pass was left unanswered or its id was rejected and written
 down as a discrepancy. And when an item is settled, which earlier calls may have left a second code.
 */
module Leftovers {
  import opened Base
  import opened Tables
  import opened RequestIds
  import opened Consistency
  import opened Evidence
  import opened Passing
  import opened Suppliers
  import opened Outcomes
  import opened Bookings
  import opened Chain
  import opened PassResults
  import Machine

  // A call under this id got through.
  ghost predicate Reached(f: Facts, f': Facts, k: Entry) {
    exists i :: |f.log| <= i < |f'.log| && f'.log[i].supplier == k.0 && f'.log[i].requestId == k.1
                && f'.log[i].outcome != NotSent
  }

  // Between two moments: left open, rejected, or quiet. An id that was asked under is then booked
  // only if its request was under way already.
  ghost predicate Tidy(a: Shelf, b: Shelf, f: Facts, f': Facts, k: Entry) {
    || LeftOpen(f'.log, |f.log|, k)
    || (IsRejected(f', k) && !IsRejected(f, k))
    || (Quiet(a, b, k) && (Reached(f, f', k) && k in b.book ==> k in a.inFlight))
  }

  // Nothing is forgotten, and no id rejected before is presented again.
  ghost predicate Grown(f: Facts, f': Facts) {
    && f.log <= f'.log
    && (forall k | IsRejected(f, k) :: IsRejected(f', k))
    && (forall i | |f.log| <= i < |f'.log| :: !IsRejected(f, (f'.log[i].supplier, f'.log[i].requestId)))
  }

  lemma GrownAgain(f: Facts, f': Facts, f'': Facts)
    requires Grown(f, f') && Grown(f', f'')
    ensures Grown(f, f'')
  {
    hide IsRejected;
  }

  lemma TidyAgain(a: Shelf, b: Shelf, c: Shelf, f: Facts, f': Facts, f'': Facts, k: Entry)
    requires Tidy(a, b, f, f', k) && Tidy(b, c, f', f'', k) && Grown(f, f') && Grown(f', f'')
    ensures Tidy(a, c, f, f'', k)
  {
    hide IsRejected;
    if LeftOpen(f'.log, |f.log|, k) {
      LeftOpenStays(f'.log, f''.log, |f.log|, |f.log|, k);
    } else if LeftOpen(f''.log, |f'.log|, k) {
      LeftOpenStays(f''.log, f''.log, |f'.log|, |f.log|, k);
    } else if Reached(f, f'', k) && !Reached(f', f'', k) {
      var i :| |f.log| <= i < |f''.log| && f''.log[i].supplier == k.0 && f''.log[i].requestId == k.1
               && f''.log[i].outcome != NotSent;
      assert f'.log[i] == f''.log[i];
    }
  }

  // Nothing was written about the id.
  lemma QuietIsTidy(a: Shelf, b: Shelf, f: Facts, f': Facts, k: Entry)
    requires Quiet(a, b, k)
    requires forall i | |f.log| <= i < |f'.log| :: (f'.log[i].supplier, f'.log[i].requestId) != k
    ensures Tidy(a, b, f, f', k)
  {
    hide Quiet;
  }

  lemma SaidIsLeftOpen(f: Facts, f': Facts, k: Entry)
    requires Extends(f, f', k.0, k.1)
    ensures LeftOpen(f'.log, |f.log|, k) <==> Said(f'.log, |f.log|, TimedOut) || Said(f'.log, |f.log|, Broken)
  {
  }

  // One round's calls.
  lemma RoundIsTidy(a: Shelf, b: Shelf, f: Facts, f': Facts, k: Entry)
    requires Extends(f, f', k.0, k.1)
    requires || Said(f'.log, |f.log|, TimedOut) || Said(f'.log, |f.log|, Broken)
             || (Quiet(a, b, k) && (NeverSent(f'.log, |f.log|) || (k in b.book ==> k in a.inFlight)))
    ensures Tidy(a, b, f, f', k)
  {
    SaidIsLeftOpen(f, f', k);
  }

  // ---- One supplier ----

  ghost predicate SupplierTidy(a: Shelf, b: Shelf, f: Facts, f': Facts, item: string, supplier: string) {
    forall k | Mine(item, k) && k.0 == supplier :: Tidy(a, b, f, f', k)
  }

  ghost predicate Leaves(a: Shelf, b: Shelf, f: Facts, f': Facts, item: string, supplier: string, o: SupplierOutcome) {
    o.OutOfStock? || o.Failed? ==> SupplierTidy(a, b, f, f', item, supplier)
  }

  lemma TriedIsGrown(f: Facts, f': Facts, supplier: string)
    requires Tried(f, f', supplier)
    ensures Grown(f, f')
  {
    forall k | IsRejected(f, k) ensures IsRejected(f', k) {
      if k.0 == supplier {
        assert f.rejected[supplier] <= f'.rejected[supplier];
      }
    }
  }

  // A round disturbs no other id.
  lemma OneIdIsTidy(w: World, w': World, c: Config, key: ItemKey, item: string, k: Entry)
    requires Onward(w, w', c, key, OneId(k)) && FactsOf(w.t, c, key).row.id == item
    requires var f, f' := FactsOf(w.t, c, key), FactsOf(w'.t, c, key);
             && Tidy(w.shelf, w'.shelf, f, f', k)
             && forall i | |f.log| <= i < |f'.log| :: f'.log[i].supplier == k.0 && f'.log[i].requestId == k.1
    ensures SupplierTidy(w.shelf, w'.shelf, FactsOf(w.t, c, key), FactsOf(w'.t, c, key), item, k.0)
  {
    hide FactsOf, Onward, Tidy, Mine, Quiet;
    var f, f' := FactsOf(w.t, c, key), FactsOf(w'.t, c, key);
    forall x | Mine(item, x) && x.0 == k.0 && x != k ensures Tidy(w.shelf, w'.shelf, f, f', x) {
      OnwardQuiet(w, w', c, key, OneId(k), x);
      QuietIsTidy(w.shelf, w'.shelf, f, f', x);
    }
  }

  // A round that ended without a code.
  lemma RoundLeaves(
    w: World, w': World, c: Config, key: ItemKey, item: Item, supplier: string, requestId: string, o: IssueOutcome)
    requires Onward(w, w', c, key, OneId((supplier, requestId))) && FactsOf(w.t, c, key).row.id == item.id
    requires Extends(FactsOf(w.t, c, key), FactsOf(w'.t, c, key), supplier, requestId)
    requires o.OutOfStock? || o.Failed? ==>
               Tidy(w.shelf, w'.shelf, FactsOf(w.t, c, key), FactsOf(w'.t, c, key), (supplier, requestId))
    ensures o.OutOfStock? || o.Failed? ==>
              SupplierTidy(w.shelf, w'.shelf, FactsOf(w.t, c, key), FactsOf(w'.t, c, key), item.id, supplier)
  {
    hide FactsOf, Onward, Tidy, SupplierTidy;
    if o.OutOfStock? || o.Failed? {
      OneIdIsTidy(w, w', c, key, item.id, (supplier, requestId));
    }
  }

  // A round whose code was turned down; `f` are the facts when the code was answered.
  lemma RejectionLeaves(
    w: World, w': World, c: Config, key: ItemKey, found: seq<Discrepancy>, f: Facts, item: Item, supplier: string, requestId: string,
    answered: string, verified: bool)
    requires Onward(w, w', c, key, OneId((supplier, requestId))) && FactsOf(w.t, c, key).row.id == item.id
    requires Extends(FactsOf(w.t, c, key), f, supplier, requestId) && MayAsk(c, f, item, supplier, requestId)
    requires Accepts(found, w'.shelf.book, key, f, FactsOf(w'.t, c, key), item, (supplier, requestId), answered, verified, AcceptOutcome.Rejected)
    ensures SupplierTidy(w.shelf, w'.shelf, FactsOf(w.t, c, key), FactsOf(w'.t, c, key), item.id, supplier)
  {
    hide FactsOf, Onward, Tidy, SupplierTidy, OpenSuppliers, RequestId, LastHeard;
    var k := (supplier, requestId);
    assert IsRejected(FactsOf(w'.t, c, key), k) && !IsRejected(FactsOf(w.t, c, key), k);
    TurnedDownIsTidy(w.shelf, w'.shelf, FactsOf(w.t, c, key), FactsOf(w'.t, c, key), k);
    OneIdIsTidy(w, w', c, key, item.id, k);
  }

  lemma SupplierTidyAgain(a: Shelf, b: Shelf, c: Shelf, f: Facts, f': Facts, f'': Facts, item: string, supplier: string)
    requires SupplierTidy(a, b, f, f', item, supplier) && SupplierTidy(b, c, f', f'', item, supplier)
    requires Grown(f, f') && Grown(f', f'')
    ensures SupplierTidy(a, c, f, f'', item, supplier)
  {
    hide Mine, Tidy, Grown;
    forall k | Mine(item, k) && k.0 == supplier ensures Tidy(a, c, f, f'', k) {
      TidyAgain(a, b, c, f, f', f'', k);
    }
  }

  // Its id is among the rejected ones now.
  lemma TurnedDownIsTidy(a: Shelf, b: Shelf, f: Facts, f': Facts, k: Entry)
    requires IsRejected(f', k) && !IsRejected(f, k)
    ensures Tidy(a, b, f, f', k)
  {
  }

  // Where a supplier stands between two rounds, in the tables and on the shelves.
  ghost predicate RoundsGo(a: Shelf, b: Shelf, f0: Facts, f: Facts, item: Item, supplier: string, flagged: bool, round: nat) {
    && BetweenRounds(f0, f, item, supplier, flagged, round)
    && SupplierTidy(a, b, f0, f, item.id, supplier) && Grown(f0, f)
  }

  lemma RoundsStart(w0: World, w: World, c: Config, key: ItemKey, item: Item, supplier: string, flagged: bool)
    requires Onward(w0, w, c, key, Nothing)
    requires var f := FactsOf(w0.t, c, key);
             && FactsOf(w.t, c, key) == f && f.row == item && supplier in f.rejected
             && OnlyOpen(f.log, supplier) && (!flagged ==> NoneIsOpen(f.log))
    ensures var f := FactsOf(w0.t, c, key);
            RoundsGo(w0.shelf, w.shelf, f, f, item, supplier, flagged, |f.rejected[supplier]| + 1)
  {
    hide Onward, FactsOf, OpenSuppliers, Quiet, Mine, Tidy;
    var f := FactsOf(w0.t, c, key);
    RoundsBegin(f, item, supplier, flagged);
    forall k | Mine(item.id, k) && k.0 == supplier ensures Tidy(w0.shelf, w.shelf, f, f, k) {
      OnwardQuiet(w0, w, c, key, Nothing, k);
      QuietIsTidy(w0.shelf, w.shelf, f, f, k);
    }
  }

  lemma RoundOver(
    c: Config, a: Shelf, b: Shelf, b': Shelf, f0: Facts, f: Facts, f': Facts, item: Item, supplier: string, flagged: bool,
    round: nat, o: SupplierOutcome)
    requires RoundsGo(a, b, f0, f, item, supplier, flagged, round)
    requires Tells(c, b'.book, f, f', item, supplier, o) && Leaves(b, b', f, f', item.id, supplier, o)
    ensures Tells(c, b'.book, f0, f', item, supplier, o) && Leaves(a, b', f0, f', item.id, supplier, o)
  {
    TellsTried(c, b'.book, f, f', item, supplier, o);
    hide RequestId, OpenSuppliers, Tells, SupplierTidy, Tried, Grown;
    TellsAgain(c, b'.book, f0, f, f', item, supplier, o);
    TriedIsGrown(f, f', supplier);
    if o.OutOfStock? || o.Failed? {
      SupplierTidyAgain(a, b, b', f0, f, f', item.id, supplier);
    }
  }

  lemma RoundTurnedDown(
    a: Shelf, b: Shelf, b': Shelf, f0: Facts, f: Facts, f': Facts, item: Item, supplier: string, flagged: bool, round: nat)
    requires RoundsGo(a, b, f0, f, item, supplier, flagged, round)
    requires Tried(f, f', supplier) && StillPending(f, f', item) && LastWord(f, f', AttemptOutcome.Rejected)
    requires NoneIsOpen(f'.log) && OnlyOpen(f'.log, supplier)
    requires |f'.rejected[supplier]| == |f.rejected[supplier]| + 1
    requires SupplierTidy(b, b', f, f', item.id, supplier)
    ensures RoundsGo(a, b', f0, f', item, supplier, flagged, round + 1)
  {
    TriedIsGrown(f, f', supplier);
    GrownAgain(f0, f, f');
    hide RequestId, OpenSuppliers, SupplierTidy, Grown;
    SupplierTidyAgain(a, b, b', f0, f, f', item.id, supplier);
    RoundWasRejected(f0, f, f', item, supplier, flagged, round);
  }

  // The next round may begin, or the rounds are used up.
  lemma RoundIsNext(
    a: Shelf, w: World, c: Config, key: ItemKey, f0: Facts, item: Item, supplier: string, flagged: bool, round: nat)
    requires Ready(w.t, c) && ValidKey(w.t, key) && supplier in c.suppliers && item.status == Pending
    requires RoundsGo(a, w.shelf, f0, FactsOf(w.t, c, key), item, supplier, flagged, round)
    ensures var f := FactsOf(w.t, c, key);
            && f.row == item
            && if round <= c.maxRounds
               then
                 && MayAsk(c, f, item, supplier, RequestId(item.id, supplier, round)) && (!flagged ==> NoneIsOpen(f.log))
                 && Mine(item.id, (supplier, RequestId(item.id, supplier, round)))
               else
                 && Tells(c, w.shelf.book, f0, f, item, supplier, SupplierOutcome.Failed)
                 && Leaves(a, w.shelf, f0, f, item.id, supplier, SupplierOutcome.Failed)
  {
    hide Ready, FactsOf, RequestId, OpenSuppliers, Tells, MayAsk, Mine, Tried, SupplierTidy, Grown;
    RoundMayBegin(w.t, c, key, f0, item, supplier, flagged, round);
  }

  lemma RoundScope(c: Config, key: ItemKey, item: string, supplier: string, round: nat)
    ensures forall w, w' | Onward(w, w', c, key, OneId((supplier, RequestId(item, supplier, round)))) ::
              Onward(w, w', c, key, OneSupplier(item, supplier))
  {
    BeginsWithItem(item, supplier, round);
    OnwardWider(c, key, OneId((supplier, RequestId(item, supplier, round))), OneSupplier(item, supplier));
  }

  // ---- The suppliers in turn ----

  ghost predicate AllTidy(a: Shelf, b: Shelf, f: Facts, f': Facts, item: string) {
    forall k | Mine(item, k) :: Tidy(a, b, f, f', k)
  }

  ghost predicate TidyBut(a: Shelf, b: Shelf, f: Facts, f': Facts, item: string, last: string) {
    forall k | Mine(item, k) && k.0 != last :: Tidy(a, b, f, f', k)
  }

  lemma NothingLeftYet(a: Shelf, f: Facts, item: string)
    ensures AllTidy(a, a, f, f, item) && Grown(f, f)
  {
    hide Mine;
    forall k | Mine(item, k) ensures Tidy(a, a, f, f, k) {
      QuietIsTidy(a, a, f, f, k);
    }
  }

  // Asking one supplier disturbs no other one's ids.
  lemma OthersAreTidy(a: Shelf, w: World, w': World, c: Config, key: ItemKey, f0: Facts, item: string, asked: string)
    requires Onward(w, w', c, key, OneSupplier(item, asked)) && FactsOf(w.t, c, key).row.id == item
    requires Tried(FactsOf(w.t, c, key), FactsOf(w'.t, c, key), asked)
    requires AllTidy(a, w.shelf, f0, FactsOf(w.t, c, key), item) && Grown(f0, FactsOf(w.t, c, key))
    ensures TidyBut(a, w'.shelf, f0, FactsOf(w'.t, c, key), item, asked)
    ensures Grown(f0, FactsOf(w'.t, c, key)) && Grown(FactsOf(w.t, c, key), FactsOf(w'.t, c, key))
  {
    var f, f' := FactsOf(w.t, c, key), FactsOf(w'.t, c, key);
    TriedIsGrown(f, f', asked);
    GrownAgain(f0, f, f');
    hide FactsOf, Onward, Tidy, Mine, Quiet, Grown;
    forall k | Mine(item, k) && k.0 != asked ensures Tidy(a, w'.shelf, f0, f', k) {
      OnwardQuiet(w, w', c, key, OneSupplier(item, asked), k);
      QuietIsTidy(w.shelf, w'.shelf, f, f', k);
      TidyAgain(a, w.shelf, w'.shelf, f0, f, f', k);
    }
  }

  // The next supplier said no too.
  lemma OneMoreIsTidy(
    a: Shelf, w: World, w': World, c: Config, key: ItemKey, f0: Facts, item: string, asked: string, o: SupplierOutcome)
    requires Onward(w, w', c, key, OneSupplier(item, asked)) && FactsOf(w.t, c, key).row.id == item
    requires Tried(FactsOf(w.t, c, key), FactsOf(w'.t, c, key), asked)
    requires AllTidy(a, w.shelf, f0, FactsOf(w.t, c, key), item) && Grown(f0, FactsOf(w.t, c, key))
    requires Leaves(w.shelf, w'.shelf, FactsOf(w.t, c, key), FactsOf(w'.t, c, key), item, asked, o)
    requires o.OutOfStock? || o.Failed?
    ensures AllTidy(a, w'.shelf, f0, FactsOf(w'.t, c, key), item) && Grown(f0, FactsOf(w'.t, c, key))
  {
    OthersAreTidy(a, w, w', c, key, f0, item, asked);
    hide FactsOf, Onward, Tidy, Mine, Grown, Tried;
    var f, f' := FactsOf(w.t, c, key), FactsOf(w'.t, c, key);
    forall k | Mine(item, k) && k.0 == asked ensures Tidy(a, w'.shelf, f0, f', k) {
      TidyAgain(a, w.shelf, w'.shelf, f0, f, f', k);
    }
  }

  // However the chain ends, only the last supplier asked may hold something new; nobody does when
  // everybody said no.
  ghost predicate ChainLeaves(a: Shelf, b: Shelf, f: Facts, f': Facts, item: string, end: ChainEnd, last: string) {
    && Grown(f, f') && OnlyOpen(f'.log, last)
    && (if end.NobodyHasIt? then AllTidy(a, b, f, f', item) else TidyBut(a, b, f, f', item, last))
    && (end.NobodyHasIt? || end.Sold? ==> NoneIsOpen(f'.log))
    && (end.Sold? ==> SoldBy(f', last))
  }

  lemma ChainStops(
    a: Shelf, w: World, w': World, c: Config, key: ItemKey, f0: Facts, item: Item, asked: string, o: SupplierOutcome, end: ChainEnd)
    requires Onward(w, w', c, key, OneSupplier(item.id, asked)) && FactsOf(w.t, c, key).row == item
    requires Tells(c, w'.shelf.book, FactsOf(w.t, c, key), FactsOf(w'.t, c, key), item, asked, o) && EndOf(o) == Some(end)
    requires AllTidy(a, w.shelf, f0, FactsOf(w.t, c, key), item.id) && Grown(f0, FactsOf(w.t, c, key))
    ensures ChainLeaves(a, w'.shelf, f0, FactsOf(w'.t, c, key), item.id, end, asked)
  {
    hide FactsOf, Onward, Mine, Tidy, Grown, OpenSuppliers, RequestId, AllTidy, TidyBut;
    TellsTried(c, w'.shelf.book, FactsOf(w.t, c, key), FactsOf(w'.t, c, key), item, asked, o);
    OthersAreTidy(a, w, w', c, key, f0, item.id, asked);
  }

  lemma SaidNoIsNoneOpen(c: Config, f: Facts, f': Facts)
    requires AllSaidNo(c, f, f')
    ensures NoneIsOpen(f'.log)
  {
    hide SaidNo, OpenSuppliers;
  }

  lemma ChainIsThrough(a: Shelf, b: Shelf, f: Facts, f': Facts, item: string, reason: RefundReason)
    requires AllTidy(a, b, f, f', item) && Grown(f, f') && NoneIsOpen(f'.log)
    ensures ChainLeaves(a, b, f, f', item, NobodyHasIt(reason), "")
  {
  }

  lemma SupplierScope(c: Config, key: ItemKey, item: string, supplier: string)
    ensures forall w, w' | Onward(w, w', c, key, OneSupplier(item, supplier)) :: Onward(w, w', c, key, OneItem(item))
  {
    OnwardWider(c, key, OneSupplier(item, supplier), OneItem(item));
  }

  lemma TellsTried(c: Config, book: map<Entry, string>, f: Facts, f': Facts, item: Item, supplier: string, o: SupplierOutcome)
    requires Tells(c, book, f, f', item, supplier, o)
    ensures Tried(f, f', supplier)
  {
  }

  // ---- The item ----

  predicate SoldBy(f: Facts, supplier: string) {
    f.row.status == ItemStatus.Delivered && f.delivery.Some? && f.delivery.value.supplier == supplier
  }

  // Nobody was asked, or everybody was and said no.
  predicate NobodyLeft(f: Facts, f': Facts) {
    f.row.status != Pending || f'.row.status == Refunding || f'.row.status == Refunded
  }

  // Only the last supplier asked may hold something new: the seller, or the one still open.
  ghost predicate LeftWith(a: Shelf, b: Shelf, f: Facts, f': Facts, last: string) {
    && (forall k | Mine(f.row.id, k) && (k.0 != last || NobodyLeft(f, f')) :: Tidy(a, b, f, f', k))
    && (f.row.status == Pending ==>
          && OnlyOpen(f'.log, last)
          && (f'.row.status != Pending ==> NoneIsOpen(f'.log))
          && (f'.row.status == ItemStatus.Delivered ==> SoldBy(f', last)))
  }

  ghost predicate LeftBehind(a: Shelf, b: Shelf, f: Facts, f': Facts) {
    Grown(f, f') && exists last :: LeftWith(a, b, f, f', last)
  }

  // Nobody was asked for the item.
  ghost predicate ItemQuiet(a: Shelf, b: Shelf, item: string) {
    forall k | Mine(item, k) :: Quiet(a, b, k)
  }

  lemma ItemQuietAgain(a: Shelf, b: Shelf, c: Shelf, item: string)
    requires ItemQuiet(a, b, item) && ItemQuiet(b, c, item)
    ensures ItemQuiet(a, c, item)
  {
    hide Mine;
  }

  lemma HushIsItemQuiet(a: Shelf, b: Shelf, items: seq<string>, scope: Scope, j: nat)
    requires Hush(a, b, items, scope) && j < |items| && NoColon(items[j])
    requires match scope
             case Nothing => true
             case OneItem(other) => NoColon(other) && other != items[j]
             case _ => false
    ensures ItemQuiet(a, b, items[j])
  {
    hide Quiet;
    forall k | Mine(items[j], k) ensures Quiet(a, b, k) {
      if scope.OneItem? && Mine(scope.item, k) {
        OneItemOnly(items[j], scope.item, k);
      }
    }
  }

  lemma NothingAskedOfItem(w: World, w': World, c: Config, key: ItemKey)
    requires Onward(w, w', c, key, Nothing)
    ensures ItemQuiet(w.shelf, w'.shelf, FactsOf(w.t, c, key).row.id)
  {
    hide Onward, FactsOf, Quiet, Mine;
    forall k | Mine(FactsOf(w.t, c, key).row.id, k) ensures Quiet(w.shelf, w'.shelf, k) {
      OnwardQuiet(w, w', c, key, Nothing, k);
    }
  }

  lemma LeftBehindStays(a: Shelf, b: Shelf, b': Shelf, f: Facts, f': Facts)
    requires LeftBehind(a, b, f, f') && ItemQuiet(b, b', f.row.id)
    ensures LeftBehind(a, b', f, f')
  {
    NothingLeftYet(b, f', f.row.id);
    hide Tidy, Mine, Quiet, Grown, OpenSuppliers;
    var last :| LeftWith(a, b, f, f', last);
    forall k | Mine(f.row.id, k) && Tidy(a, b, f, f', k) ensures Tidy(a, b', f, f', k) {
      QuietIsTidy(b, b', f', f', k);
      TidyAgain(a, b, b', f, f', f', k);
    }
    assert LeftWith(a, b', f, f', last);
  }

  lemma LeftBehindBefore(a: Shelf, b: Shelf, b': Shelf, f: Facts, f': Facts)
    requires ItemQuiet(a, b, f.row.id) && LeftBehind(b, b', f, f')
    ensures LeftBehind(a, b', f, f')
  {
    NothingLeftYet(a, f, f.row.id);
    hide Tidy, Mine, Quiet, Grown, OpenSuppliers;
    var last :| LeftWith(b, b', f, f', last);
    forall k | Mine(f.row.id, k) && Tidy(b, b', f, f', k) ensures Tidy(a, b', f, f', k) {
      QuietIsTidy(a, b, f, f, k);
      TidyAgain(a, b, b', f, f, f', k);
    }
    assert LeftWith(a, b', f, f', last);
  }

  // The chain's end and, if it was refused, what the refund made of its row.
  lemma ChainLeft(a: Shelf, b: Shelf, f: Facts, f': Facts, f'': Facts, item: string, end: ChainEnd, last: string)
    requires ChainLeaves(a, b, f, f', item, end, last) && f.row.id == item && f.row.status == Pending
    requires f''.log == f'.log && f''.rejected == f'.rejected
    requires if end.NobodyHasIt? then f''.row.status == Refunding || f''.row.status == Refunded else f'' == f'
    requires end.Sold? <==> f''.row.status == ItemStatus.Delivered
    requires !end.NobodyHasIt? && !end.Sold? ==> f''.row.status == Pending
    ensures LeftBehind(a, b, f, f'')
  {
    SameLogTidy(a, b, f, f', f'');
    hide Tidy, Mine, Grown, OpenSuppliers;
    assert LeftWith(a, b, f, f'', last);
  }

  lemma SameLogTidy(a: Shelf, b: Shelf, f: Facts, f': Facts, f'': Facts)
    requires f''.log == f'.log && f''.rejected == f'.rejected
    ensures forall k :: Tidy(a, b, f, f', k) <==> Tidy(a, b, f, f'', k)
    ensures Grown(f, f') <==> Grown(f, f'')
  {
    hide Quiet, LeftOpen;
    assert forall k :: IsRejected(f'', k) <==> IsRejected(f', k);
    assert forall k :: Reached(f, f'', k) <==> Reached(f, f', k);
  }

  // The chain in the middle, nothing but waiting before it, and the refund, if any, after it.
  lemma ItemLeft(
    c: Config, key: ItemKey, w0: World, w1: World, w2: World, w3: World, f: Facts, f': Facts, f'': Facts, item: string,
    end: ChainEnd, last: string)
    requires Onward(w0, w1, c, key, Nothing) && FactsOf(w0.t, c, key).row.id == item && f.row.id == item
    requires ChainLeaves(w1.shelf, w2.shelf, f, f', item, end, last) && f.row.status == Pending
    requires Onward(w2, w3, c, key, Nothing) && FactsOf(w2.t, c, key).row.id == item
    requires f''.log == f'.log && f''.rejected == f'.rejected
    requires if end.NobodyHasIt? then f''.row.status == Refunding || f''.row.status == Refunded else f'' == f'
    requires end.Sold? <==> f''.row.status == ItemStatus.Delivered
    requires !end.NobodyHasIt? && !end.Sold? ==> f''.row.status == Pending
    ensures LeftBehind(w0.shelf, w3.shelf, f, f'')
  {
    hide Onward, FactsOf, Mine, LeftBehind, ChainLeaves;
    ChainLeft(w1.shelf, w2.shelf, f, f', f'', item, end, last);
    NothingAskedOfItem(w0, w1, c, key);
    NothingAskedOfItem(w2, w3, c, key);
    LeftBehindStays(w1.shelf, w2.shelf, w3.shelf, f, f'');
    LeftBehindBefore(w0.shelf, w1.shelf, w3.shelf, f, f'');
  }

  // An item nobody is asked for.
  lemma UnaskedLeft(a: Shelf, b: Shelf, f: Facts, f': Facts)
    requires ItemQuiet(a, b, f.row.id) && f.row.status != Pending && f'.log == f.log && f'.rejected == f.rejected
    ensures LeftBehind(a, b, f, f')
  {
    hide Tidy, Mine, Quiet;
    forall k | Mine(f.row.id, k) ensures Tidy(a, b, f, f', k) {
      QuietIsTidy(a, b, f, f', k);
    }
    assert LeftWith(a, b, f, f', "");
  }

  lemma EndsOfItem(c: Config, book: map<Entry, string>, f: Facts, f': Facts, item: Item, end: ChainEnd)
    requires Ends(c, book, f, f', item, end)
    ensures f'.row.id == item.id
    ensures f'.row == if end.Sold? then item.(status := ItemStatus.Delivered) else item
  {
    hide AllSaidNo, ReasonFor, SoldFrom, OpenSuppliers;
  }

  lemma RefusedLeaves(f: Facts, f': Facts, reason: RefundReason, payouts: seq<Machine.Payout>, key: ItemKey, res: ItemResult)
    requires GaveBack(payouts, key, Decided(f, reason), f', res) && f.row.status == Pending
    ensures f'.log == f.log && f'.rejected == f.rejected
    ensures f'.row.status == Refunding || f'.row.status == Refunded
  {
  }

  lemma RefundLeaves(payouts: seq<Machine.Payout>, key: ItemKey, f: Facts, f': Facts, res: ItemResult)
    requires GaveBack(payouts, key, f, f', res)
    ensures f'.log == f.log && f'.rejected == f.rejected
  {
  }

  // ---- A second code ----

  // Once an item is settled, a supplier that did not sell it has booked a code under an id not
  // rejected only if a call under that id was lost, timed out or broke, or if the supplier's last
  // word when the pass began was an `ok` nobody had checked.
  ghost predicate SecondCodes(c: Config, lost: set<Entry>, b: Shelf, f: Facts, f': Facts) {
    f.row.status == Pending && f'.row.status != Pending ==>
      forall k | Mine(f.row.id, k) && k.0 in c.suppliers && !SoldBy(f', k.0) && k in b.book && !IsRejected(f', k) ::
        || k in lost
        || LeftOpen(f'.log, 0, k)
        || LastHeard(f.log, k.0) == Some(Attempt(k.0, k.1, AnsweredOk))
  }

  // Whatever was last heard was heard before, or is one of the new attempts.
  lemma {:induction false} HeardLater(log: seq<Attempt>, log': seq<Attempt>, supplier: string)
    requires log <= log'
    ensures || LastHeard(log', supplier) == LastHeard(log, supplier)
            || exists i :: |log| <= i < |log'| && LastHeard(log', supplier) == Some(log'[i])
                           && log'[i].supplier == supplier && log'[i].outcome != NotSent
  {
    if |log'| > |log| {
      var front := log'[..|log'| - 1];
      HeardLater(log, front, supplier);
      assert forall i | 0 <= i < |front| :: front[i] == log'[i];
    } else {
      assert log' == log;
    }
  }

  // A supplier that was open under this id and no longer is was asked under it again.
  lemma OpenWasReached(c: Config, f: Facts, f': Facts, k: Entry)
    requires FactsOk(c, f) && FactsOk(c, f') && f'.row.id == f.row.id && Grown(f, f') && k.0 in c.suppliers
    requires LastHeard(f.log, k.0).Some? && LastHeard(f.log, k.0).value.requestId == k.1
    requires Unanswered(LastHeard(f.log, k.0).value.outcome) && NoneIsOpen(f'.log) && !IsRejected(f', k)
    ensures Reached(f, f', k)
  {
    var s := k.0;
    OpenIsTheLastWord(f.log, s);
    OpenIsTheLastWord(f'.log, s);
    HeardLater(f.log, f'.log, s);
    hide LastHeard, OpenSuppliers;
    var i :| |f.log| <= i < |f'.log| && LastHeard(f'.log, s) == Some(f'.log[i]) && f'.log[i].supplier == s
             && f'.log[i].outcome != NotSent;
    SameRound(c, f, f', k, f'.log[i].requestId);
  }

  lemma SameRound(c: Config, f: Facts, f': Facts, k: Entry, requestId: string)
    requires FactsOk(c, f) && FactsOk(c, f') && f'.row.id == f.row.id && k.0 in c.suppliers
    requires k.1 == NextId(f, k.0) && !IsRejected(f', k) && !IsRejected(f, (k.0, requestId))
    requires requestId == NextId(f', k.0) || IsRejected(f', (k.0, requestId))
    ensures requestId == k.1
  {
    var s := k.0;
    var n, n' := |f.rejected[s]|, |f'.rejected[s]|;
    hide FactsOk, RequestId;
    if n' > n {
      RoundIsRejected(c, f', s, n);
      assert false;
    }
    if n' < n {
      RoundIsRejected(c, f, s, n');
    }
    RejectedInFirst(c, f, f', s, requestId);
  }

  lemma RoundIsRejected(c: Config, f: Facts, s: string, r: nat)
    requires FactsOk(c, f) && s in c.suppliers && r < |f.rejected[s]|
    ensures RequestId(f.row.id, s, r + 1) in f.rejected[s]
  {
    hide RequestId, LastHeard, OpenSuppliers;
    assert f.rejected[s][r] == RequestId(f.row.id, s, r + 1);
  }

  // Fewer rounds rejected are the same rounds.
  lemma RejectedInFirst(c: Config, f: Facts, f': Facts, s: string, requestId: string)
    requires FactsOk(c, f) && FactsOk(c, f') && f'.row.id == f.row.id && s in c.suppliers
    requires |f'.rejected[s]| <= |f.rejected[s]|
    ensures requestId in f'.rejected[s] ==> requestId in f.rejected[s]
  {
    hide RequestId, LastHeard, OpenSuppliers;
    if requestId in f'.rejected[s] {
      var r :| 0 <= r < |f'.rejected[s]| && f'.rejected[s][r] == requestId;
      RoundIsRejected(c, f, s, r);
    }
  }

  lemma WhoHoldsASecond(c: Config, lost: set<Entry>, a: Shelf, b: Shelf, f: Facts, f': Facts)
    requires LeftBehind(a, b, f, f') && FactsOk(c, f) && FactsOk(c, f') && f'.row.id == f.row.id
    requires forall k | Mine(f.row.id, k) :: k in lost || Explains(f, a, k)
    ensures SecondCodes(c, lost, b, f, f')
  {
    hide FactsOk, Mine, Grown, Tidy;
    var last :| LeftWith(a, b, f, f', last);
    if f.row.status == Pending && f'.row.status != Pending {
      forall k | Mine(f.row.id, k) && k.0 in c.suppliers && !SoldBy(f', k.0) && k in b.book && !IsRejected(f', k) && k !in lost
        ensures LeftOpen(f'.log, 0, k) || LastHeard(f.log, k.0) == Some(Attempt(k.0, k.1, AnsweredOk))
      {
        SecondCode(c, a, b, f, f', k);
      }
    }
  }

  lemma SecondCode(c: Config, a: Shelf, b: Shelf, f: Facts, f': Facts, k: Entry)
    requires Tidy(a, b, f, f', k) && Explains(f, a, k) && Grown(f, f') && NoneIsOpen(f'.log)
    requires FactsOk(c, f) && FactsOk(c, f') && f'.row.id == f.row.id
    requires k.0 in c.suppliers && k in b.book && !IsRejected(f', k)
    ensures LeftOpen(f'.log, 0, k) || LastHeard(f.log, k.0) == Some(Attempt(k.0, k.1, AnsweredOk))
  {
    hide FactsOk, LastHeard, IsRejected, OpenSuppliers;
    if LeftOpen(f'.log, |f.log|, k) {
      LeftOpenStays(f'.log, f'.log, |f.log|, 0, k);
    } else if LeftOpen(f.log, 0, k) {
      LeftOpenStays(f.log, f'.log, 0, 0, k);
    } else {
      HeardIsThere(f.log, k.0);
      if LastHeard(f.log, k.0).value.outcome == Errored {
        OpenWasReached(c, f, f', k);
      }
    }
  }
}
