/** What one pass makes of each item of its order: what a refund is decided on, and what stays open. */
module PassResults {
  import opened Base
  import opened Tables
  import opened RequestIds
  import opened Evidence
  import opened Passing
  import opened Suppliers
  import opened Replies
  import opened Outcomes
  import opened Chain
  import opened Machine

  // A supplier's last word about the item since the log had `from` entries.
  function Word(log: seq<Attempt>, from: nat, supplier: string): Option<AttemptOutcome> {
    if |log| <= from then None
    else if log[|log| - 1].supplier == supplier then Some(log[|log| - 1].outcome)
    else Word(log[..|log| - 1], from, supplier)
  }

  // A definite no: out of stock, an empty book, never reached, or no request id left to ask with.
  ghost predicate SaidNo(c: Config, f: Facts, f': Facts, supplier: string) {
    && supplier in f'.rejected
    && match Word(f'.log, |f.log|, supplier)
       case Some(o) => o == NoStock || o == NoneIssued || o == NotSent
                       || (o == AttemptOutcome.Rejected && |f'.rejected[supplier]| >= c.maxRounds)
       case None => |f'.rejected[supplier]| >= c.maxRounds
  }

  ghost predicate SaidEmpty(f: Facts, f': Facts, supplier: string) {
    Word(f'.log, |f.log|, supplier) == Some(NoStock)
  }

  ghost predicate AllSaidNo(c: Config, f: Facts, f': Facts) {
    NoneIsOpen(f'.log) && forall s | s in c.suppliers :: SaidNo(c, f, f', s)
  }

  ghost function ReasonFor(c: Config, f: Facts, f': Facts): RefundReason {
    if forall s | s in c.suppliers :: SaidEmpty(f, f', s) then RefundReason.OutOfStock else SupplierFailed
  }

  lemma {:induction false} WordOfTail(log: seq<Attempt>, log': seq<Attempt>, from: nat, asked: string, s: string)
    requires log <= log' && from <= |log|
    requires forall i | |log| <= i < |log'| :: log'[i].supplier == asked
    ensures s != asked || log' == log ==> Word(log', from, s) == Word(log, from, s)
    ensures s == asked && |log'| > |log| ==> Word(log', from, s) == Some(log'[|log'| - 1].outcome)
  {
    if |log'| > |log| {
      if s != asked {
        WordOfTail(log, log'[..|log'| - 1], from, asked, s);
      }
    } else {
      assert log' == log;
    }
  }

  lemma OthersStand(c: Config, f0: Facts, f: Facts, f': Facts, asked: string, s: string)
    requires Tried(f, f', asked) && f0.log <= f.log && s != asked
    ensures SaidNo(c, f0, f', s) <==> SaidNo(c, f0, f, s)
    ensures Word(f'.log, |f0.log|, s) == Word(f.log, |f0.log|, s)
  {
    WordOfTail(f.log, f'.log, |f0.log|, asked, s);
  }

  // A definite outcome of a supplier not heard from before in this pass is its word for the pass.
  lemma NoIsSaid(
    c: Config, book: map<Entry, string>, f0: Facts, f: Facts, f': Facts, item: Item, s: string, o: SupplierOutcome)
    requires Tells(c, book, f, f', item, s, o) && (o.OutOfStock? || o.Failed?)
    requires f0.log <= f.log && Word(f.log, |f0.log|, s) == None
    ensures SaidNo(c, f0, f', s)
    ensures o.OutOfStock? <==> SaidEmpty(f0, f', s)
  {
    hide OpenSuppliers, RequestId;
    WordOfTail(f.log, f'.log, |f0.log|, s, s);
  }

  // The suppliers asked so far all said no, and the others have not been asked yet.
  ghost predicate AskedInTurn(c: Config, f0: Facts, f: Facts, chain: seq<Candidate>, outcomes: seq<SupplierOutcome>) {
    && f0.log <= f.log
    && |outcomes| <= |chain|
    && (forall j | 0 <= j < |outcomes| ::
          && SaidNo(c, f0, f, chain[j].supplier)
          && (outcomes[j].OutOfStock? <==> SaidEmpty(f0, f, chain[j].supplier)))
    && (forall j | |outcomes| <= j < |chain| :: Word(f.log, |f0.log|, chain[j].supplier) == None)
  }

  lemma AskedOneMore(
    c: Config, book: map<Entry, string>, f0: Facts, f: Facts, f': Facts, item: Item, open: seq<string>,
    chain: seq<Candidate>, outcomes: seq<SupplierOutcome>, o: SupplierOutcome)
    requires AskedInTurn(c, f0, f, chain, outcomes) && |outcomes| < |chain| && Covers(c.suppliers, open, chain)
    requires Tells(c, book, f, f', item, chain[|outcomes|].supplier, o) && (o.OutOfStock? || o.Failed?)
    ensures AskedInTurn(c, f0, f', chain, outcomes + [o])
    ensures f0.log <= f'.log && f'.refund == f.refund && StillPending(f, f', item) && NoneIsOpen(f'.log)
  {
    var n := |outcomes|;
    NoIsSaid(c, book, f0, f, f', item, chain[n].supplier, o);
    forall j | 0 <= j < |chain| && j != n
      ensures SaidNo(c, f0, f', chain[j].supplier) <==> SaidNo(c, f0, f, chain[j].supplier)
      ensures Word(f'.log, |f0.log|, chain[j].supplier) == Word(f.log, |f0.log|, chain[j].supplier)
    {
      OthersStand(c, f0, f, f', chain[n].supplier, chain[j].supplier);
    }
    hide Word, SaidNo, Covers, Tells;
    assert forall j | 0 <= j < n :: SaidEmpty(f0, f', chain[j].supplier) <==> SaidEmpty(f0, f, chain[j].supplier);
  }

  lemma EverybodyAsked(
    c: Config, f0: Facts, f: Facts, open: seq<string>, chain: seq<Candidate>, outcomes: seq<SupplierOutcome>)
    requires AskedInTurn(c, f0, f, chain, outcomes) && |outcomes| == |chain| && Covers(c.suppliers, open, chain)
    requires NoneIsOpen(f.log)
    ensures AllSaidNo(c, f0, f)
    ensures ReasonFor(c, f0, f) ==
            if forall j | 0 <= j < |outcomes| :: outcomes[j].OutOfStock? then RefundReason.OutOfStock else SupplierFailed
  {
    hide Word, SaidNo;
    forall s | s in c.suppliers ensures exists j :: 0 <= j < |chain| && chain[j].supplier == s {
    }
    if j :| 0 <= j < |outcomes| && !outcomes[j].OutOfStock? {
      assert !SaidEmpty(f0, f, chain[j].supplier) && chain[j].supplier in c.suppliers;
    }
  }

  // ---- Where the suppliers leave an item ----

  datatype ChainEnd = Sold | Waiting(until: int) | Unclear | NobodyHasIt(reason: RefundReason)

  // The code is the booked one, asked for under the first id not rejected.
  ghost predicate SoldFrom(c: Config, book: map<Entry, string>, f: Facts) {
    && f.delivery.Some?
    && var d := f.delivery.value;
    && d.supplier in c.suppliers && d.supplier in f.rejected
    && d.requestId == RequestId(f.row.id, d.supplier, |f.rejected[d.supplier]| + 1)
    && (d.supplier, d.requestId) in book && book[(d.supplier, d.requestId)] == d.code
  }

  ghost predicate Ends(c: Config, book: map<Entry, string>, f: Facts, f': Facts, item: Item, end: ChainEnd) {
    && f.log <= f'.log && f'.refund == f.refund
    && match end
       case Sold => f'.row == item.(status := ItemStatus.Delivered) && SoldFrom(c, book, f')
       case Waiting(_) => StillPending(f, f', item)
       case Unclear => StillPending(f, f', item) && |OpenSuppliers(f'.log)| == 1
       case NobodyHasIt(reason) =>
         StillPending(f, f', item) && AllSaidNo(c, f, f') && reason == ReasonFor(c, f, f')
  }

  function EndOf(o: SupplierOutcome): Option<ChainEnd> {
    match o
    case Delivered => Some(Sold)
    case Deferred(at) => Some(Waiting(at))
    case Ambiguous => Some(Unclear)
    case _ => None
  }

  lemma EndsHere(
    c: Config, book: map<Entry, string>, f0: Facts, f: Facts, f': Facts, item: Item, s: string, o: SupplierOutcome, end: ChainEnd)
    requires f0.log <= f.log && f.refund == f0.refund && StillPending(f0, f, item)
    requires Tells(c, book, f, f', item, s, o) && s in c.suppliers && EndOf(o) == Some(end)
    ensures Ends(c, book, f0, f', item, end)
  {
    hide OpenSuppliers, RequestId;
  }

  lemma NobodyAsked(c: Config, f: Facts, chain: seq<Candidate>)
    ensures AskedInTurn(c, f, f, chain, [])
  {
  }

  lemma NobodyIsLeft(c: Config, book: map<Entry, string>, f: Facts, f': Facts, item: Item, reason: RefundReason)
    requires f.log <= f'.log && f'.refund == f.refund && StillPending(f, f', item)
    requires AllSaidNo(c, f, f') && reason == ReasonFor(c, f, f')
    ensures Ends(c, book, f, f', item, NobodyHasIt(reason))
  {
    hide AllSaidNo, ReasonFor;
  }

  // ---- What the pass reports of an item ----

  // `deferredUntil` when only a slot was missing; `unresolved` when a supplier or the provider left the
  // question open.
  datatype ItemResult = ItemResult(deferredUntil: Option<int>, unresolved: bool)

  // The money went back, once the provider acknowledged it; otherwise nothing changed.
  ghost predicate GaveBack(payouts: seq<Payout>, key: ItemKey, f: Facts, f': Facts, res: ItemResult) {
    && res.deferredUntil.None?
    && if res.unresolved then f' == f
       else
         && f.row.refundReason.Some? && Payout(key, f.row.amount) in payouts
         && f' == f.(row := f.row.(status := Refunded), refund := Some(Refund(f.row.amount, f.row.refundReason.value)))
  }

  // The row once it was decided to give the money back.
  function Decided(f: Facts, reason: RefundReason): Facts {
    f.(row := f.row.(status := Refunding, refundReason := Some(reason)))
  }

  ghost predicate Handled(
    c: Config, book: map<Entry, string>, payouts: seq<Payout>, key: ItemKey, f: Facts, f': Facts, res: ItemResult)
  {
    match f.row.status
    case Refunding => GaveBack(payouts, key, f, f', res)
    case Pending =>
      && f.log <= f'.log
      && (match f'.row.status
          case Delivered =>
            && res == ItemResult(None, false)
            && f'.row == f.row.(status := ItemStatus.Delivered) && SoldFrom(c, book, f') && f'.refund == f.refund
          case Pending =>
            && f'.row == f.row && f'.delivery == f.delivery && f'.refund == f.refund
            && (res.deferredUntil.Some? <==> !res.unresolved)
            && (res.unresolved ==> |OpenSuppliers(f'.log)| == 1)
          case _ =>
            && AllSaidNo(c, f, f')
            && GaveBack(payouts, key, Decided(f.(log := f'.log, rejected := f'.rejected), ReasonFor(c, f, f')), f', res))
    case _ => f' == f && res == ItemResult(None, false)
  }

  // Behind the end of a chain, the last answer a supplier gave.
  predicate EndHeard(before: seq<Heard>, heard: seq<Heard>, delivery: Option<Delivery>, end: ChainEnd) {
    end.NobodyHasIt? ||
    (|heard| > |before| &&
     RoundHeard(heard[|heard| - 1].answer, delivery, Some(match end
                                                          case Sold => SupplierOutcome.Delivered
                                                          case Waiting(at) => SupplierOutcome.Deferred(at)
                                                          case _ => SupplierOutcome.Ambiguous)))
  }

  lemma EndIsHeard(
    before: seq<Heard>, h: seq<Heard>, h': seq<Heard>, delivery: Option<Delivery>, o: SupplierOutcome, end: ChainEnd)
    requires SupplierHeard(h, h', delivery, o) && EndOf(o) == Some(end) && |before| <= |h|
    ensures EndHeard(before, h', delivery, end)
  {
  }

  // Behind each result of an item, the last thing heard about it in the pass: a deferral names the
  // slot a supplier refused until, a delivery the code its book showed, a refund the price asked for
  // and whether the provider acknowledged it.
  ghost predicate ItemHeard(a: Answer, f: Facts, f': Facts, res: ItemResult) {
    && (forall at :: res.deferredUntil == Some(at) <==> Refuses(a, at))
    && match f'.row.status
       case Pending => res.unresolved ==> a.ToLookup? && (a.shown.LookupFailed? || a.shown.NotFound?)
       case Delivered => a.ToLookup? && a.shown.Found? && f'.delivery == Some(Delivery(a.looked.1, a.looked.0, a.shown.code))
       case _ => a == ToRefund(f.row.amount, !res.unresolved)
  }

  lemma EndIsItemHeard(
    c: Config, book: map<Entry, string>, before: seq<Heard>, heard: seq<Heard>, f: Facts, f': Facts, item: Item, end: ChainEnd)
    requires EndHeard(before, heard, f'.delivery, end) && !end.NobodyHasIt?
    requires Ends(c, book, f, f', item, end) && item.status == Pending
    ensures |heard| > |before| && ItemHeard(heard[|heard| - 1].answer, f, f', ResultOf(end))
  {
    hide AllSaidNo, OpenSuppliers, SoldFrom;
  }

  lemma RefundIsItemHeard(payouts: seq<Payout>, key: ItemKey, f: Facts, f': Facts, f'': Facts, returned: bool)
    requires GaveBack(payouts, key, f', f'', ItemResult(None, !returned)) && f'.row.status == Refunding
    requires f'.row.amount == f.row.amount
    ensures ItemHeard(ToRefund(f.row.amount, returned), f, f'', ItemResult(None, !returned))
  {
  }

  // Open afterwards exactly when the pass says so.
  lemma OpenIsReported(
    c: Config, book: map<Entry, string>, payouts: seq<Payout>, key: ItemKey, f: Facts, f': Facts, res: ItemResult)
    requires Handled(c, book, payouts, key, f, f', res)
    ensures IsOpen(f'.row.status) <==> res.deferredUntil.Some? || res.unresolved
    ensures !(res.deferredUntil.Some? && res.unresolved)
  {
    hide AllSaidNo, ReasonFor, SoldFrom, OpenSuppliers;
  }

  lemma HandledStays(
    c: Config, book: map<Entry, string>, book': map<Entry, string>, payouts: seq<Payout>, payouts': seq<Payout>,
    key: ItemKey, f: Facts, f': Facts, res: ItemResult)
    requires Handled(c, book, payouts, key, f, f', res) && WriteOnce(book, book') && payouts <= payouts'
    ensures Handled(c, book', payouts', key, f, f', res)
  {
    hide AllSaidNo, ReasonFor, OpenSuppliers, RequestId;
    assert forall p | p in payouts :: p in payouts';
  }

  function ResultOf(end: ChainEnd): ItemResult
    requires !end.NobodyHasIt?
  {
    match end
    case Sold => ItemResult(None, false)
    case Waiting(until) => ItemResult(Some(until), false)
    case Unclear => ItemResult(None, true)
  }

  lemma EndIsHandled(
    c: Config, book: map<Entry, string>, payouts: seq<Payout>, key: ItemKey, f: Facts, f': Facts, item: Item, end: ChainEnd)
    requires Ends(c, book, f, f', item, end) && f.row == item && item.status == Pending && !end.NobodyHasIt?
    ensures Handled(c, book, payouts, key, f, f', ResultOf(end))
  {
    hide AllSaidNo, OpenSuppliers, SoldFrom;
  }

  lemma RefusalIsHandled(
    c: Config, book: map<Entry, string>, payouts: seq<Payout>, key: ItemKey, f: Facts, f': Facts, f'': Facts, item: Item,
    reason: RefundReason, res: ItemResult)
    requires Ends(c, book, f, f', item, NobodyHasIt(reason)) && f.row == item && item.status == Pending
    requires GaveBack(payouts, key, Decided(f', reason), f'', res)
    ensures Handled(c, book, payouts, key, f, f'', res)
  {
    hide OpenSuppliers, Word;
    assert f''.log == f'.log && f''.rejected == f'.rejected;
    SaidAlike(c, f, f', f'');
    hide AllSaidNo, ReasonFor;
    assert f'.row == item && f'.delivery == f.delivery && f'.refund == f.refund;
    assert Decided(f.(log := f''.log, rejected := f''.rejected), reason) == Decided(f', reason);
  }

  lemma SaidAlike(c: Config, f: Facts, f': Facts, f'': Facts)
    requires f''.log == f'.log && f''.rejected == f'.rejected
    ensures AllSaidNo(c, f, f'') <==> AllSaidNo(c, f, f')
    ensures ReasonFor(c, f, f'') == ReasonFor(c, f, f')
  {
    assert forall s :: SaidNo(c, f, f'', s) <==> SaidNo(c, f, f', s);
    assert forall s :: SaidEmpty(f, f'', s) <==> SaidEmpty(f, f', s);
  }

  lemma EndStands(c: Config, book: map<Entry, string>, f: Facts, f': Facts, item: Item, end: ChainEnd)
    requires Ends(c, book, f, f', item, end) && end.NobodyHasIt?
    ensures StillPending(f, f', item)
    ensures forall book': map<Entry, string> :: Ends(c, book', f, f', item, end)
  {
    hide AllSaidNo, ReasonFor;
  }

  lemma RowIsThere(t: Tables, c: Config, key: ItemKey)
    requires ValidKey(t, key)
    ensures FactsOf(t, c, key).row == ItemAt(t, key)
  {
  }

  lemma DecideIsMove(t: Tables, key: ItemKey, reason: RefundReason)
    ensures Decide(t, key, reason) == MoveItem(t, key, Pending, Refunding, Some(reason))
  {
  }
}
