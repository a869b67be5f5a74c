/**
 What the attempt log and the discrepancy table say about one item, and what a pass over one
 order may rely on while other workers handle other orders.
 */
module Evidence {
  import opened Base
  import opened Tables
  import opened RequestIds
  import opened Consistency
  import Books

  // SUPPLIERS, SUPPLIER_MAX_ROUNDS, SUPPLIER_MAX_ATTEMPTS
  datatype Config = Config(suppliers: seq<string>, maxRounds: nat, maxAttempts: nat)

  ghost predicate ConfigOk(c: Config) {
    && c.suppliers != [] && c.maxAttempts >= 1
    && (forall i | 0 <= i < |c.suppliers| :: NoColon(c.suppliers[i]))
    && (forall i, j | 0 <= i < j < |c.suppliers| :: c.suppliers[i] != c.suppliers[j])
  }

  // ---- Suppliers left unanswered ----

  function Without(s: seq<string>, x: string): (r: seq<string>)
    ensures forall y :: y in r <==> y in s && y != x
    ensures |r| <= |s|
  {
    if s == [] then []
    else
      var rest := Without(s[..|s| - 1], x);
      if s[|s| - 1] == x then rest else rest + [s[|s| - 1]]
  }

  predicate Unanswered(o: AttemptOutcome) {
    o == TimedOut || o == Errored || o == Broken
  }

  predicate Definite(o: AttemptOutcome) {
    o == AnsweredOk || o == NoStock || o == NoneIssued || o == AttemptOutcome.Rejected
  }

  function Heard(open: seq<string>, a: Attempt): seq<string> {
    if Unanswered(a.outcome) then (if a.supplier in open then open else open + [a.supplier])
    else if Definite(a.outcome) then Without(open, a.supplier)
    else open
  }

  // The suppliers left unanswered, the longest waiting first.
  function OpenSuppliers(log: seq<Attempt>): seq<string> {
    if log == [] then [] else Heard(OpenSuppliers(log[..|log| - 1]), log[|log| - 1])
  }

  lemma OpenAppend(log: seq<Attempt>, a: Attempt)
    ensures OpenSuppliers(log + [a]) == Heard(OpenSuppliers(log), a)
  {
    assert (log + [a])[..|log|] == log;
  }

  // At most this one is unanswered.
  ghost predicate OnlyOpen(log: seq<Attempt>, supplier: string) {
    OpenSuppliers(log) == [] || OpenSuppliers(log) == [supplier]
  }

  ghost predicate NoneIsOpen(log: seq<Attempt>) {
    OpenSuppliers(log) == []
  }

  // The last attempt at a supplier that reached it.
  function LastHeard(log: seq<Attempt>, supplier: string): Option<Attempt> {
    if log == [] then None
    else if log[|log| - 1].supplier == supplier && log[|log| - 1].outcome != NotSent then Some(log[|log| - 1])
    else LastHeard(log[..|log| - 1], supplier)
  }

  lemma HeardAppend(log: seq<Attempt>, a: Attempt, supplier: string)
    ensures LastHeard(log + [a], supplier) ==
            if a.supplier == supplier && a.outcome != NotSent then Some(a) else LastHeard(log, supplier)
  {
    assert (log + [a])[..|log|] == log;
  }

  // A supplier is open exactly when the last attempt that reached it was left unanswered.
  lemma {:induction false} OpenIsTheLastWord(log: seq<Attempt>, supplier: string)
    ensures supplier in OpenSuppliers(log) <==>
            LastHeard(log, supplier).Some? && Unanswered(LastHeard(log, supplier).value.outcome)
  {
    if log != [] {
      OpenIsTheLastWord(log[..|log| - 1], supplier);
    }
  }

  // ---- Rejected rounds ----

  predicate Rejecting(d: Discrepancy) {
    d.kind == DuplicateCodeKind || d.kind == UnbookedCode
  }

  // The request ids rejected for an item at a supplier, oldest first.
  function Rejections(found: seq<Discrepancy>, key: ItemKey, supplier: string): seq<string> {
    if found == [] then []
    else
      var rest := Rejections(found[..|found| - 1], key, supplier);
      var d := found[|found| - 1];
      if Rejecting(d) && d.item == Some(key) && d.supplier == supplier then rest + [d.requestId] else rest
  }

  function FirstRounds(item: string, supplier: string, k: nat): seq<string> {
    seq(k, i requires 0 <= i < k => RequestId(item, supplier, i + 1))
  }

  // ---- Everything a pass knows about one item ----

  datatype Facts = Facts(
    row: Item,
    delivery: Option<Delivery>,
    refund: Option<Refund>,
    log: seq<Attempt>,
    rejected: map<string, seq<string>>)

  // A key of no item reads as a blank row.
  function RowAt(t: Tables, key: ItemKey): Item {
    if ValidKey(t, key) then ItemAt(t, key) else Item("", 0, Pending, None)
  }

  function FactsOf(t: Tables, c: Config, key: ItemKey): Facts {
    Facts(
      RowAt(t, key),
      if key in t.deliveries then Some(t.deliveries[key]) else None,
      if key in t.refunds then Some(t.refunds[key]) else None,
      AttemptsOf(t, key),
      RejectedBy(t.discrepancies, c, key))
  }

  function RejectedBy(found: seq<Discrepancy>, c: Config, key: ItemKey): map<string, seq<string>> {
    map s | s in c.suppliers :: Rejections(found, key, s)
  }

  // Every attempt presented an id of this very item and supplier; at most one supplier is open;
  // rejected ids are exactly the first rounds; a supplier whose rounds are used up is not open; and
  // nothing was heard about a round that has not begun.
  ghost predicate FactsOk(c: Config, f: Facts) {
    && OwnAttempts(c, f)
    && |OpenSuppliers(f.log)| <= 1
    && (forall s | s in OpenSuppliers(f.log) :: s in c.suppliers)
    && (forall s | s in c.suppliers ::
          && s in f.rejected
          && |f.rejected[s]| <= c.maxRounds
          && f.rejected[s] == FirstRounds(f.row.id, s, |f.rejected[s]|)
          && (|f.rejected[s]| == c.maxRounds ==> s !in OpenSuppliers(f.log))
          && NothingNewer(f, s, NextId(f, s)))
  }

  // The id the next call to this supplier would present.
  function NextId(f: Facts, supplier: string): string
    requires supplier in f.rejected
  {
    RequestId(f.row.id, supplier, |f.rejected[supplier]| + 1)
  }

  lemma NextIsNotRejected(f: Facts, supplier: string)
    requires NoColon(f.row.id) && NoColon(supplier) && supplier in f.rejected
    requires f.rejected[supplier] == FirstRounds(f.row.id, supplier, |f.rejected[supplier]|)
    ensures NextId(f, supplier) !in f.rejected[supplier]
  {
    if r :| 0 <= r < |f.rejected[supplier]| && f.rejected[supplier][r] == NextId(f, supplier) {
      RequestIdsInjective(f.row.id, supplier, r + 1, f.row.id, supplier, |f.rejected[supplier]| + 1);
      assert false;
    }
  }

  // What was last heard of the supplier was about this id, or about one rejected since.
  ghost predicate NothingNewer(f: Facts, supplier: string, requestId: string) {
    supplier in f.rejected &&
    var a := LastHeard(f.log, supplier);
    a.Some? ==> a.value.requestId == requestId || a.value.requestId in f.rejected[supplier]
  }

  ghost predicate OwnAttempts(c: Config, f: Facts) {
    forall i | 0 <= i < |f.log| :: OwnAttempt(c, f.row, f.log[i])
  }

  ghost predicate OwnAttempt(c: Config, item: Item, a: Attempt) {
    a.supplier in c.suppliers && OwnRequest(item, a.supplier, a.requestId)
  }

  ghost predicate RejectionsBelong(t: Tables, c: Config) {
    forall i | 0 <= i < |t.discrepancies| && Rejecting(t.discrepancies[i]) ::
      && t.discrepancies[i].item.Some?
      && ValidKey(t, t.discrepancies[i].item.value)
      && t.discrepancies[i].supplier in c.suppliers
  }

  ghost predicate EvidenceOk(t: Tables, c: Config) {
    && RejectionsBelong(t, c)
    && (forall key | key in t.attempts :: ValidKey(t, key))
    && forall key {:trigger FactsOk(c, FactsOf(t, c, key))} | ValidKey(t, key) :: FactsOk(c, FactsOf(t, c, key))
  }

  ghost predicate Ready(t: Tables, c: Config) {
    ConfigOk(c) && Consistent(t) && EvidenceOk(t, c)
  }

  // An attempt of this item at this supplier presented the id.
  predicate AskedUnder(t: Tables, supplier: string, requestId: string, key: ItemKey) {
    key in t.attempts && ValidKey(t, key) &&
    exists i :: 0 <= i < |t.attempts[key]| && t.attempts[key][i].supplier == supplier && t.attempts[key][i].requestId == requestId
  }

  ghost predicate Asked(t: Tables, supplier: string, requestId: string) {
    exists key :: AskedUnder(t, supplier, requestId, key)
  }

  // ---- Frames ----

  function Head(r: Order): Order {
    r.(items := [])
  }

  // Order `o` is as it was, item `k` (if any) aside.
  ghost predicate SameBut(t: Tables, t': Tables, c: Config, o: nat, k: int) {
    && o < |t.orders| && o < |t'.orders|
    && Head(t'.orders[o]) == Head(t.orders[o])
    && |t'.orders[o].items| == |t.orders[o].items|
    && forall j: nat | j < |t.orders[o].items| && j != k ::
         FactsOf(t', c, ItemKey(o, j)) == FactsOf(t, c, ItemKey(o, j))
  }

  // What no step of the program undoes: items advance, and deliveries, attempts and findings accumulate.
  ghost predicate Accrues(t: Tables, t': Tables) {
    && Advances(t, t')
    && (forall key | key in t.deliveries :: key in t'.deliveries && t'.deliveries[key] == t.deliveries[key])
    && (forall key | key in t.attempts :: key in t'.attempts && t.attempts[key] <= t'.attempts[key])
    && t.discrepancies <= t'.discrepancies
  }

  lemma AccruesAlready(t: Tables)
    ensures Accrues(t, t)
  {
    AdvancesReflexive(t);
  }

  lemma AccruesAgain(t: Tables, t': Tables, t'': Tables)
    requires Accrues(t, t') && Accrues(t', t'')
    ensures Accrues(t, t'')
  {
    AdvancesAgain(t, t', t'');
    hide Advances;
  }

  lemma AccruedFindings(t: Tables, t': Tables)
    requires Accrues(t, t')
    ensures t.discrepancies <= t'.discrepancies && |t.orders| <= |t'.orders|
  {
  }

  lemma AskedStays(t: Tables, t': Tables, supplier: string, requestId: string, key: ItemKey)
    requires Accrues(t, t') && AskedUnder(t, supplier, requestId, key)
    ensures AskedUnder(t', supplier, requestId, key)
  {
    var i :| 0 <= i < |t.attempts[key]| && t.attempts[key][i].supplier == supplier && t.attempts[key][i].requestId == requestId;
    assert t'.attempts[key][i] == t.attempts[key][i];
  }

  // What other workers may do meanwhile: anything the program does to other orders.
  ghost predicate Foreign(t: Tables, t': Tables, c: Config, o: nat) {
    Ready(t', c) && SameBut(t, t', c, o, -1) && Accrues(t, t')
  }

  lemma SameButAgain(t: Tables, t': Tables, t'': Tables, c: Config, o: nat, k: int)
    requires SameBut(t, t', c, o, k) && SameBut(t', t'', c, o, k)
    ensures SameBut(t, t'', c, o, k)
  {
    forall j: nat | j < |t.orders[o].items| && j != k
      ensures FactsOf(t'', c, ItemKey(o, j)) == FactsOf(t, c, ItemKey(o, j))
    {
      assert FactsOf(t', c, ItemKey(o, j)) == FactsOf(t, c, ItemKey(o, j));
    }
  }

  // ---- What a pass may do to the tables: rewrite one item's facts and nobody else's ----

  ghost predicate Touches(t: Tables, t': Tables, c: Config, key: ItemKey) {
    && ValidKey(t, key)
    && |t'.orders| == |t.orders|
    && (forall p: nat | p < |t.orders| ::
          Head(t'.orders[p]) == Head(t.orders[p]) && |t'.orders[p].items| == |t.orders[p].items|)
    && (forall a | a != key && ValidKey(t, a) :: FactsOf(t', c, a) == FactsOf(t, c, a))
  }

  ghost predicate Own(t: Tables, t': Tables, c: Config, key: ItemKey) {
    Ready(t', c) && Touches(t, t', c, key) && Accrues(t, t')
  }

  // To every other order that is what it has to expect anyway.
  lemma OwnIsForeign(t: Tables, t': Tables, c: Config, key: ItemKey, p: nat)
    requires Own(t, t', c, key) && p < |t.orders| && p != key.order
    ensures Foreign(t, t', c, p)
  {
    hide Ready, FactsOf, Accrues;
  }

  lemma EvidenceFollows(t: Tables, t': Tables, c: Config, key: ItemKey)
    requires EvidenceOk(t, c) && Touches(t, t', c, key)
    requires FactsOk(c, FactsOf(t', c, key))
    requires RejectionsBelong(t', c)
    requires t'.attempts.Keys <= t.attempts.Keys + {key}
    ensures EvidenceOk(t', c)
  {
    hide FactsOk, FactsOf, RejectionsBelong;
    forall b | ValidKey(t', b) ensures FactsOk(c, FactsOf(t', c, b)) {
      assert ValidKey(t, b);
    }
  }

  // Nothing else about the item matters.
  lemma SameEvidence(c: Config, f: Facts, f': Facts)
    requires FactsOk(c, f) && f'.row.id == f.row.id && f'.log == f.log && f'.rejected == f.rejected
    ensures FactsOk(c, f')
  {
    forall i | 0 <= i < |f'.log| ensures OwnAttempt(c, f'.row, f'.log[i]) {
      assert OwnAttempt(c, f.row, f.log[i]);
    }
  }

  lemma SameRejections(t: Tables, t': Tables, c: Config)
    requires RejectionsBelong(t, c) && t'.discrepancies == t.discrepancies
    requires forall a | ValidKey(t, a) :: ValidKey(t', a)
    ensures RejectionsBelong(t', c)
  {
  }

  // ---- Writing an attempt ----

  // The log may only ever leave this supplier open.
  ghost predicate MayRecord(c: Config, f: Facts, a: Attempt) {
    && OwnAttempt(c, f.row, a)
    && NothingNewer(f, a.supplier, a.requestId)
    && (a.requestId == NextId(f, a.supplier) || a.requestId in f.rejected[a.supplier])
    && (Unanswered(a.outcome) ==> OnlyOpen(f.log, a.supplier) && |f.rejected[a.supplier]| < c.maxRounds)
  }

  lemma AttemptFacts(c: Config, f: Facts, a: Attempt)
    requires FactsOk(c, f) && MayRecord(c, f, a)
    ensures FactsOk(c, f.(log := f.log + [a]))
  {
    OpenAppend(f.log, a);
    hide LastHeard, RequestId, OpenSuppliers, FirstRounds;
    forall s ensures LastHeard(f.log + [a], s) ==
                     if a.supplier == s && a.outcome != NotSent then Some(a) else LastHeard(f.log, s)
    {
      HeardAppend(f.log, a, s);
    }
  }

  lemma AttemptTouches(t: Tables, c: Config, key: ItemKey, a: Attempt)
    requires ValidKey(t, key)
    ensures Touches(t, AddAttempt(t, key, a), c, key)
    ensures var f := FactsOf(t, c, key); FactsOf(AddAttempt(t, key, a), c, key) == f.(log := f.log + [a])
  {
  }

  lemma AttemptKeeps(t: Tables, c: Config, key: ItemKey, a: Attempt)
    requires Ready(t, c) && ValidKey(t, key) && MayRecord(c, FactsOf(t, c, key), a)
    ensures Own(t, AddAttempt(t, key, a), c, key)
    ensures var f := FactsOf(t, c, key); FactsOf(AddAttempt(t, key, a), c, key) == f.(log := f.log + [a])
  {
    hide Consistent, Touches, OpenSuppliers, Accrues;
    var t' := AddAttempt(t, key, a);
    SameTables(t, t');
    AttemptTouches(t, c, key, a);
    AttemptAccrues(t, key, a);
    AttemptFacts(c, FactsOf(t, c, key), a);
    SameRejections(t, t', c);
    EvidenceFollows(t, t', c, key);
  }

  lemma AttemptAccrues(t: Tables, key: ItemKey, a: Attempt)
    ensures Accrues(t, AddAttempt(t, key, a))
  {
    AdvancesReflexive(t);
  }

  lemma SameTables(t: Tables, t': Tables)
    requires Consistent(t)
    requires t'.orders == t.orders && t'.deliveries == t.deliveries && t'.refunds == t.refunds
    requires t'.ledger == t.ledger && t'.payments == t.payments && t'.events == t.events
    ensures Consistent(t')
  {
    SameRows(t, t');
    assert MoneyOk(t') by {
      forall lens ensures Books.LogsAgree(t', lens) { assert Books.LogsAgree(t, lens); }
      forall scope ensures Books.LiveAgrees(t', scope) { assert Books.LiveAgrees(t, scope); }
    }
  }

  // ---- Writing a discrepancy ----

  lemma RejectionsAppend(found: seq<Discrepancy>, d: Discrepancy, key: ItemKey, supplier: string)
    ensures Rejections(found + [d], key, supplier) ==
            if Rejecting(d) && d.item == Some(key) && d.supplier == supplier then Rejections(found, key, supplier) + [d.requestId]
            else Rejections(found, key, supplier)
  {
    assert (found + [d])[..|found|] == found;
  }

  function Reject(f: Facts, supplier: string, requestId: string): Facts
    requires supplier in f.rejected
  {
    f.(rejected := f.rejected[supplier := f.rejected[supplier] + [requestId]])
  }

  lemma AddedRejections(found: seq<Discrepancy>, c: Config, d: Discrepancy, key: ItemKey)
    requires d.supplier in c.suppliers
    ensures var r := RejectedBy(found, c, key);
            RejectedBy(found + [d], c, key) ==
            if Rejecting(d) && d.item == Some(key) then r[d.supplier := r[d.supplier] + [d.requestId]] else r
  {
    forall s ensures Rejections(found + [d], key, s) ==
                     if Rejecting(d) && d.item == Some(key) && s == d.supplier then Rejections(found, key, s) + [d.requestId]
                     else Rejections(found, key, s)
    {
      RejectionsAppend(found, d, key, s);
    }
  }

  // A new row counts for its item and supplier if it rejects, and for nobody otherwise.
  lemma AddedFacts(t: Tables, c: Config, d: Discrepancy, key: ItemKey)
    requires ValidKey(t, key) && !AlreadyFound(t.discrepancies, d) && d.supplier in c.suppliers
    ensures FactsOf(AddDiscrepancy(t, d), c, key) ==
            if Rejecting(d) && d.item == Some(key) then Reject(FactsOf(t, c, key), d.supplier, d.requestId) else FactsOf(t, c, key)
  {
    AddedRejections(t.discrepancies, c, d, key);
    hide RejectedBy;
  }

  lemma AddTouches(t: Tables, c: Config, d: Discrepancy, key: ItemKey)
    requires ValidKey(t, key) && d.supplier in c.suppliers
    requires Rejecting(d) ==> d.item == Some(key)
    ensures Touches(t, AddDiscrepancy(t, d), c, key)
    ensures !Rejecting(d) ==> FactsOf(AddDiscrepancy(t, d), c, key) == FactsOf(t, c, key)
  {
    if !AlreadyFound(t.discrepancies, d) {
      forall a | ValidKey(t, a)
        ensures a != key || !Rejecting(d) ==> FactsOf(AddDiscrepancy(t, d), c, a) == FactsOf(t, c, a)
      {
        AddedFacts(t, c, d, a);
      }
    }
  }

  lemma AddKeeps(t: Tables, c: Config, d: Discrepancy, key: ItemKey)
    requires Ready(t, c) && ValidKey(t, key) && d.supplier in c.suppliers
    requires Rejecting(d) ==> d.item == Some(key)
    requires FactsOk(c, FactsOf(AddDiscrepancy(t, d), c, key))
    ensures Own(t, AddDiscrepancy(t, d), c, key)
  {
    hide Consistent, Touches, FactsOk, FactsOf, RejectionsBelong, AlreadyFound, Accrues;
    var t' := AddDiscrepancy(t, d);
    FindingAccrues(t, d);
    SameTables(t, t');
    AddTouches(t, c, d, key);
    AddedBelong(t, c, d, key);
    EvidenceFollows(t, t', c, key);
  }

  lemma FindingAccrues(t: Tables, d: Discrepancy)
    ensures Accrues(t, AddDiscrepancy(t, d))
  {
    AdvancesReflexive(t);
  }

  lemma AddedBelong(t: Tables, c: Config, d: Discrepancy, key: ItemKey)
    requires RejectionsBelong(t, c) && ValidKey(t, key) && d.supplier in c.suppliers
    requires Rejecting(d) ==> d.item == Some(key)
    ensures RejectionsBelong(AddDiscrepancy(t, d), c)
  {
  }

  // A finding that rejects nothing changes no item's facts.
  lemma FindingKeeps(t: Tables, c: Config, d: Discrepancy, key: ItemKey)
    requires Ready(t, c) && ValidKey(t, key) && !Rejecting(d) && d.supplier in c.suppliers
    ensures Own(t, AddDiscrepancy(t, d), c, key)
    ensures FactsOf(AddDiscrepancy(t, d), c, key) == FactsOf(t, c, key)
  {
    AddTouches(t, c, d, key);
    assert FactsOk(c, FactsOf(t, c, key));
    AddKeeps(t, c, d, key);
  }

  // Every rejected row is counted for its item and supplier.
  lemma {:induction false} CountedRejection(found: seq<Discrepancy>, i: nat)
    requires i < |found| && Rejecting(found[i]) && found[i].item.Some?
    ensures found[i].requestId in Rejections(found, found[i].item.value, found[i].supplier)
  {
    if i < |found| - 1 {
      CountedRejection(found[..|found| - 1], i);
    }
  }

  // The next round's id has never been rejected before, so its rejection is never ignored as a repeat.
  lemma NextRoundIsNew(t: Tables, c: Config, key: ItemKey, d: Discrepancy)
    requires Ready(t, c) && ValidKey(t, key) && d.supplier in c.suppliers && Rejecting(d)
    requires d.requestId == RequestId(ItemAt(t, key).id, d.supplier, |FactsOf(t, c, key).rejected[d.supplier]| + 1)
    ensures !AlreadyFound(t.discrepancies, d)
  {
    forall i | 0 <= i < |t.discrepancies| ensures !SameFinding(t.discrepancies[i], d) {
      var x := t.discrepancies[i];
      if SameFinding(x, d) {
        RejectedBefore(t, c, i, key, d.requestId);
        assert false;
      }
    }
  }

  lemma RejectedBefore(t: Tables, c: Config, i: nat, key: ItemKey, requestId: string)
    requires Ready(t, c) && ValidKey(t, key) && i < |t.discrepancies|
    requires Rejecting(t.discrepancies[i])
    requires t.discrepancies[i].supplier in c.suppliers
    requires var s := t.discrepancies[i].supplier;
             requestId == RequestId(ItemAt(t, key).id, s, |FactsOf(t, c, key).rejected[s]| + 1)
    ensures t.discrepancies[i].requestId != requestId
  {
    var x := t.discrepancies[i];
    var other, s := x.item.value, x.supplier;
    hide Consistent, OpenSuppliers, OwnAttempts, RequestId, Rejections;
    CountedRejection(t.discrepancies, i);
    var r := RejectedInRound(t, c, other, s, x.requestId);
    PlainIds(t, c, other);
    PlainIds(t, c, key);
    if x.requestId == requestId {
      RequestIdsInjective(ItemAt(t, other).id, s, r + 1, ItemAt(t, key).id, s, |FactsOf(t, c, key).rejected[s]| + 1);
      SameIdSameItem(t, c, other, key);
    }
  }

  lemma RejectedInRound(t: Tables, c: Config, key: ItemKey, s: string, requestId: string) returns (r: nat)
    requires Ready(t, c) && ValidKey(t, key) && s in c.suppliers
    requires requestId in Rejections(t.discrepancies, key, s)
    ensures s in FactsOf(t, c, key).rejected
    ensures r < |FactsOf(t, c, key).rejected[s]| && requestId == RequestId(ItemAt(t, key).id, s, r + 1)
  {
    hide Consistent, OpenSuppliers, OwnAttempts, RequestId;
    var f := FactsOf(t, c, key);
    assert FactsOk(c, f);
    r :| r < |f.rejected[s]| && f.rejected[s][r] == requestId;
  }

  lemma PlainIds(t: Tables, c: Config, key: ItemKey)
    requires Ready(t, c) && ValidKey(t, key)
    ensures NoColon(ItemAt(t, key).id)
  {
    assert IdsOk(t);
  }

  lemma SameIdSameItem(t: Tables, c: Config, a: ItemKey, b: ItemKey)
    requires Ready(t, c) && ValidKey(t, a) && ValidKey(t, b) && ItemAt(t, a).id == ItemAt(t, b).id
    ensures a == b
  {
    assert IdsOk(t);
  }

  lemma RejectFacts(c: Config, f: Facts, supplier: string, requestId: string)
    requires FactsOk(c, f) && NoneIsOpen(f.log) && supplier in c.suppliers && |f.rejected[supplier]| < c.maxRounds
    requires requestId == RequestId(f.row.id, supplier, |f.rejected[supplier]| + 1)
    ensures FactsOk(c, Reject(f, supplier, requestId))
  {
    hide LastHeard, OpenSuppliers, RequestId;
  }

  lemma RejectionKeeps(t: Tables, c: Config, key: ItemKey, d: Discrepancy)
    requires Ready(t, c) && ValidKey(t, key) && d.supplier in c.suppliers && Rejecting(d) && d.item == Some(key)
    requires var f := FactsOf(t, c, key);
             && NoneIsOpen(f.log)
             && |f.rejected[d.supplier]| < c.maxRounds
             && d.requestId == RequestId(f.row.id, d.supplier, |f.rejected[d.supplier]| + 1)
    ensures Own(t, AddDiscrepancy(t, d), c, key)
    ensures FactsOf(AddDiscrepancy(t, d), c, key) == Reject(FactsOf(t, c, key), d.supplier, d.requestId)
    ensures AddDiscrepancy(t, d).discrepancies == t.discrepancies + [d]
  {
    var f := FactsOf(t, c, key);
    NextRoundIsNew(t, c, key, d);
    assert FactsOk(c, f);
    RejectFacts(c, f, d.supplier, d.requestId);
    AddedFacts(t, c, d, key);
    AddKeeps(t, c, d, key);
  }
}
