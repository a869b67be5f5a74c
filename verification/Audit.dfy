/** The periodic audit of every supplier's statement, with everybody else at work at each await. */
module Audit {
  import opened Base
  import opened Tables
  import opened Consistency
  import opened Evidence
  import opened Requests
  import opened Storage
  import opened Outcomes
  import opened Findings

  datatype Statement = NotReached | NoSlot | Entries(entries: seq<StatementEntry>)

  datatype Finding = Finding(supplier: string, requestId: string, kind: DiscrepancyKind)

  // The tables, and every supplier call of the process with those not written down yet.
  datatype Moment = Moment(t: Tables, calls: seq<Call>, lost: set<(string, string)>)

  type Meanwhile = (nat, Moment) -> Moment

  ghost predicate MomentOk(m: Moment, c: Config) {
    Ready(m.t, c) && CallsOk(m.calls, m.lost, c, m.t)
  }

  // Whatever the passes, sweeps and webhooks do between two statements of the audit.
  ghost predicate Bearable(others: Meanwhile, c: Config) {
    forall n: nat, m | MomentOk(m, c) :: MomentOk(others(n, m), c) && Accrues(m.t, others(n, m).t)
  }

  ghost predicate Matches(d: Discrepancy, f: Finding) {
    f == Finding(d.supplier, d.requestId, d.kind)
  }

  // By what was read, or by the finding the audit made of it.
  ghost predicate Settled(v: Views, t: Tables, supplier: string, e: StatementEntry) {
    Accounted(v, supplier, e) || Explained(t, supplier, e.requestId)
  }

  ghost predicate AllAccounted(v: Views, supplier: string, entries: seq<StatementEntry>) {
    forall k | 0 <= k < |entries| :: Accounted(v, supplier, entries[k])
  }

  ghost predicate AllSettled(v: Views, t: Tables, supplier: string, entries: seq<StatementEntry>) {
    forall k | 0 <= k < |entries| :: Settled(v, t, supplier, entries[k])
  }

  // Each finding reported is a row of its own, written by this audit about an entry it read.
  ghost predicate Reported(v: Views, supplier: string, entries: seq<StatementEntry>,
                           rows: seq<Discrepancy>, found: seq<Finding>)
  {
    |rows| == |found| && forall k | 0 <= k < |found| ::
      Matches(rows[k], found[k]) && exists j :: 0 <= j < |entries| && Justified(v, supplier, entries[j], rows[k])
  }

  class SupplierAudit {
    const db: Database
    const config: Config
    const others: Meanwhile
    var ticks: nat
    var calls: seq<Call>
    var lost: set<(string, string)>
    ghost var rows: seq<Discrepancy>  // what the audit has written

    constructor (db: Database, config: Config, others: Meanwhile, calls: seq<Call>, lost: set<(string, string)>)
      requires Bearable(others, config) && MomentOk(Moment(db.Snapshot(), calls, lost), config)
      ensures Valid() && ticks == 0 && Now() == Moment(db.Snapshot(), calls, lost) && rows == []
      ensures this.db == db && this.config == config && this.others == others
    {
      this.db, this.config, this.others := db, config, others;
      this.calls, this.lost, ticks, rows := calls, lost, 0, [];
    }

    function Now(): Moment
      reads this, db
    {
      Moment(db.Snapshot(), calls, lost)
    }

    ghost predicate Valid()
      reads this, db
    {
      Bearable(others, config) && MomentOk(Now(), config)
    }

    ghost predicate Alone() {
      forall n, m :: others(n, m) == m
    }

    method Pause()
      requires Valid()
      modifies this`ticks, this`calls, this`lost, db
      ensures ticks == old(ticks) + 1 && Now() == others(ticks, old(Now()))
      ensures Accrues(old(db.Snapshot()), db.Snapshot())
      ensures Valid()
    {
      hide MomentOk, Accrues;
      ticks := ticks + 1;
      var m := others(ticks, Now());
      db.Rollback(m.t);
      calls, lost := m.calls, m.lost;
    }

    // Deliveries, then requests, then what is explained already.
    method Read() returns (v: Views)
      requires Valid()
      modifies this`ticks, this`calls, this`lost, db
      ensures ViewsOk(v, config) && Accrues(old(db.Snapshot()), v.delivered) && v.noted == db.Snapshot()
      ensures var m1 := others(old(ticks) + 1, old(Now()));
              var m2 := others(old(ticks) + 2, m1);
              v.delivered == m1.t && v.asked == m2.t && MomentOk(m2, config) && Now() == others(old(ticks) + 3, m2)
      ensures Alone() ==> v == Views(old(db.Snapshot()), old(db.Snapshot()), old(db.Snapshot()))
      ensures Valid()
    {
      hide Ready, CallsOk, Accrues;
      Pause();
      var delivered := db.Snapshot();
      Pause();
      var asked := db.Snapshot();
      Pause();
      v := Views(delivered, asked, db.Snapshot());
    }

    // `None` when there is nothing to find, or somebody has found it meanwhile.
    method CheckEntry(v: Views, supplier: string, e: StatementEntry) returns (found: Option<Finding>)
      requires Valid() && ViewsOk(v, config) && supplier in config.suppliers && Accrues(v.noted, db.Snapshot())
      modifies this, db
      ensures Accrues(old(db.Snapshot()), db.Snapshot())
      ensures Settled(v, db.Snapshot(), supplier, e)
      ensures Accounted(v, supplier, e) ==> found == None && Now() == old(Now()) && ticks == old(ticks)
      ensures found == None ==> rows == old(rows)
      ensures found.Some? ==>
                && rows != [] && rows == old(rows) + [rows[|rows| - 1]] && db.discrepancies != []
                && rows[|rows| - 1] == db.discrepancies[|db.discrepancies| - 1]
                && |db.discrepancies| > |old(db.discrepancies)|
                && Matches(rows[|rows| - 1], found.value) && Justified(v, supplier, e, rows[|rows| - 1])
      ensures Alone() ==> OnlyFindings(old(db.Snapshot()), db.Snapshot())
      ensures Valid()
    {
      hide Ready, CallsOk, Accrues, Accounted, Justified, Explained, AlreadyFound, Bearable;
      var d := Judge(v, supplier, e);
      AccruesAlready(db.Snapshot());
      if d.None? {
        return None;
      }
      JudgedIsUnaccounted(v, config, supplier, e, d.value);
      JudgedIsOf(v, supplier, e, d.value);
      Pause();
      ghost var t := db.Snapshot();
      FindingIsReady(t, config, d.value);
      FindingAccrues(t, d.value);
      FindingIsThere(t, d.value);
      var isNew := db.InsertDiscrepancy(d.value);
      CallsStay(calls, lost, config, t, db.Snapshot());
      AccruesAgain(old(db.Snapshot()), t, db.Snapshot());
      FoundIsExplained(db.Snapshot(), d.value);
      AccruedFindings(old(db.Snapshot()), t);
      if !isNew {
        return None;
      }
      rows := rows + [d.value];
      return Some(Finding(supplier, e.requestId, d.value.kind));
    }

    method CheckEntries(supplier: string, entries: seq<StatementEntry>) returns (found: seq<Finding>, ghost v: Views)
      requires Valid() && supplier in config.suppliers
      modifies this, db
      ensures ViewsOk(v, config) && Accrues(old(db.Snapshot()), v.delivered) && Accrues(v.noted, db.Snapshot())
      ensures AllSettled(v, db.Snapshot(), supplier, entries)
      ensures old(rows) <= rows && Reported(v, supplier, entries, rows[|old(rows)|..], found)
      ensures AllAccounted(v, supplier, entries) ==> found == [] && db.Snapshot() == v.noted
      ensures Alone() ==>
                && v == Views(old(db.Snapshot()), old(db.Snapshot()), old(db.Snapshot()))
                && OnlyFindings(old(db.Snapshot()), db.Snapshot())
      ensures Valid()
    {
      hide ViewsOk, Ready, CallsOk, Accrues, Bearable, Checked, Accounted, Settled, Matches, Justified, Alone, OnlyFindings;
      var views := Read();
      v := views;
      ghost var t0 := db.Snapshot();
      found := [];
      AccruesAlready(t0);
      NothingChecked(v, t0, supplier, Alone());
      assert rows[|old(rows)|..] == [];
      for k := 0 to |entries|
        invariant Valid() && Accrues(v.noted, db.Snapshot()) && old(rows) <= rows
        invariant Checked(v, t0, db.Snapshot(), supplier, entries[..k], rows[|old(rows)|..], found, Alone())
      {
        ghost var t, before := db.Snapshot(), rows;
        var more := CheckEntry(views, supplier, entries[k]);
        AccruesAgain(v.noted, t, db.Snapshot());
        ghost var row := if more.Some? then [rows[|rows| - 1]] else [];
        OneMoreChecked(v, t0, t, db.Snapshot(), supplier, entries[..k], entries[k], before[|old(rows)|..], found, row, more, Alone());
        assert entries[..k + 1] == entries[..k] + [entries[k]];
        assert rows[|old(rows)|..] == before[|old(rows)|..] + row;
        found := found + if more.Some? then [more.value] else [];
      }
      assert entries[..|entries|] == entries;
      CheckedMeans(v, t0, db.Snapshot(), supplier, entries, rows[|old(rows)|..], found, Alone());
    }

    // The statement is awaited too; nothing is checked when there is none.
    method CheckSupplier(supplier: string, statement: Statement) returns (found: seq<Finding>, ghost v: Views)
      requires Valid() && supplier in config.suppliers
      modifies this, db
      ensures ViewsOk(v, config) && Accrues(old(db.Snapshot()), v.delivered) && Accrues(v.noted, db.Snapshot())
      ensures Accrues(old(db.Snapshot()), db.Snapshot())
      ensures AllSettled(v, db.Snapshot(), supplier, EntriesOf(statement))
      ensures old(rows) <= rows && Reported(v, supplier, EntriesOf(statement), rows[|old(rows)|..], found)
      ensures AllAccounted(v, supplier, EntriesOf(statement)) ==> found == [] && db.Snapshot() == v.noted
      ensures Alone() ==>
                && v == Views(old(db.Snapshot()), old(db.Snapshot()), old(db.Snapshot()))
                && OnlyFindings(old(db.Snapshot()), db.Snapshot())
      ensures Valid()
    {
      hide CallsOk, Accrues, Accounted, Bearable, Reported, Ready, Settled;
      ghost var t0 := db.Snapshot();
      Pause();
      ghost var t := db.Snapshot();
      if statement.Entries? {
        found, v := CheckEntries(supplier, statement.entries);
        AccruesAgain(t0, t, v.delivered);
        AccruesAgain(v.delivered, v.asked, v.noted);
        AccruesAgain(v.delivered, v.noted, db.Snapshot());
        AccruesAgain(t0, v.delivered, db.Snapshot());
      } else {
        SameViews(t, config);
        found, v := [], Views(t, t, t);
        NoneReported(v, supplier, []);
        assert rows[|old(rows)|..] == [];
      }
    }

    // Every entry of every statement that was read is settled; what was found was written, for a
    // reason read off the tables; an audit that finds everything accounted for writes nothing. With
    // nobody else at work every entry is accounted for afterwards, so that a second audit finds nothing.
    method RunAudit(statements: seq<Statement>) returns (found: seq<Finding>, ghost views: seq<Views>)
      requires Valid() && |statements| == |config.suppliers|
      modifies this, db
      ensures |views| == |statements| && Seen(views, config, old(db.Snapshot()), db.Snapshot())
      ensures EverySettled(views, db.Snapshot(), config.suppliers, statements)
      ensures old(rows) <= rows && Backed(views, config.suppliers, statements, rows[|old(rows)|..], found)
      ensures EveryAccounted(views, config.suppliers, statements) ==> found == []
      ensures Alone() ==>
                && OnlyFindings(old(db.Snapshot()), db.Snapshot())
                && Clean(db.Snapshot(), config.suppliers, statements, |statements|)
                && (old(Clean(db.Snapshot(), config.suppliers, statements, |statements|)) ==>
                      found == [] && db.Snapshot() == old(db.Snapshot()))
      ensures Valid()
    {
      hide ViewsOk, Ready, CallsOk, Accrues, Accounted, Bearable, Seen, EverySettled, EveryAccounted, Backed, Clean, Reported, AllSettled, AllAccounted, EntriesOf;
      found, views := [], [];
      ghost var t0 := db.Snapshot();
      AccruesAlready(t0);
      NothingSeen(config, t0, config.suppliers, statements);
      assert rows[|old(rows)|..] == [];
      for i := 0 to |statements|
        invariant Valid() && |views| == i && Seen(views, config, t0, db.Snapshot()) && Accrues(t0, db.Snapshot())
        invariant EverySettled(views, db.Snapshot(), config.suppliers, statements)
        invariant old(rows) <= rows && Backed(views, config.suppliers, statements, rows[|old(rows)|..], found)
        invariant EveryAccounted(views, config.suppliers, statements) ==> found == []
        invariant Alone() ==>
            && OnlyFindings(t0, db.Snapshot())
            && Clean(db.Snapshot(), config.suppliers, statements, i)
            && (Clean(t0, config.suppliers, statements, i) ==> found == [] && db.Snapshot() == t0)
      {
        ghost var t, before := db.Snapshot(), rows;
        ghost var v;
        var more;
        more, v := CheckSupplier(config.suppliers[i], statements[i]);
        AccruesAgain(t0, t, db.Snapshot());
        SeenMore(views, v, config, t0, t, db.Snapshot());
        SettledMore(views, v, t, db.Snapshot(), config.suppliers, statements);
        if EveryAccounted(views + [v], config.suppliers, statements) {
          AccountedMore(views, v, config.suppliers, statements);
        }
        BackedMore(views, v, config.suppliers, statements, before[|old(rows)|..], found, rows[|before|..], more);
        assert rows[|old(rows)|..] == before[|old(rows)|..] + rows[|before|..];
        if Alone() {
          CleanMore(t, db.Snapshot(), t0, config.suppliers, statements, i);
        }
        found, views := found + more, views + [v];
      }
    }
  }

  // Only findings were added.
  ghost predicate OnlyFindings(t: Tables, t': Tables) {
    t' == t.(discrepancies := t'.discrepancies) && t.discrepancies <= t'.discrepancies
  }

  lemma JudgedIsOf(v: Views, supplier: string, e: StatementEntry, d: Discrepancy)
    requires Justified(v, supplier, e, d)
    ensures d.supplier == supplier && d.requestId == e.requestId
  {
  }

  lemma NoneReported(v: Views, supplier: string, entries: seq<StatementEntry>)
    ensures Reported(v, supplier, entries, [], [])
  {
  }

  // The entries of one supplier checked so far, on the tables `t0` when the first was.
  ghost predicate Checked(
    v: Views, t0: Tables, t: Tables, supplier: string, entries: seq<StatementEntry>,
    rows: seq<Discrepancy>, found: seq<Finding>, alone: bool)
  {
    && AllSettled(v, t, supplier, entries)
    && Reported(v, supplier, entries, rows, found)
    && (AllAccounted(v, supplier, entries) ==> found == [] && t == t0)
    && (alone ==> OnlyFindings(t0, t))
  }

  lemma NothingChecked(v: Views, t: Tables, supplier: string, alone: bool)
    ensures Checked(v, t, t, supplier, [], [], [], alone)
  {
  }

  lemma OneMoreChecked(
    v: Views, t0: Tables, t: Tables, t': Tables, supplier: string, entries: seq<StatementEntry>, e: StatementEntry,
    rows: seq<Discrepancy>, found: seq<Finding>, row: seq<Discrepancy>, more: Option<Finding>, alone: bool)
    requires Checked(v, t0, t, supplier, entries, rows, found, alone)
    requires Accrues(t, t') && Settled(v, t', supplier, e) && (alone ==> OnlyFindings(t, t'))
    requires Accounted(v, supplier, e) ==> more == None && t' == t
    requires if more.None? then row == [] else |row| == 1 && Matches(row[0], more.value) && Justified(v, supplier, e, row[0])
    ensures Checked(v, t0, t', supplier, entries + [e], rows + row,
                    found + (if more.Some? then [more.value] else []), alone)
  {
    hide Accrues, Accounted, Settled, Matches, Justified;
    StaySettled(v, t, t', supplier, entries);
    OneMoreReported(v, supplier, entries, e, rows, found, row, more);
    if AllAccounted(v, supplier, entries + [e]) {
      OneAccountedLess(v, supplier, entries, e);
    }
  }

  lemma OneAccountedLess(v: Views, supplier: string, entries: seq<StatementEntry>, e: StatementEntry)
    requires AllAccounted(v, supplier, entries + [e])
    ensures AllAccounted(v, supplier, entries) && Accounted(v, supplier, e)
  {
    hide Accounted;
    var all := entries + [e];
    assert all[|entries|] == e;
    forall k | 0 <= k < |entries| ensures Accounted(v, supplier, entries[k]) {
      assert all[k] == entries[k];
    }
  }

  lemma CheckedMeans(
    v: Views, t0: Tables, t: Tables, supplier: string, entries: seq<StatementEntry>,
    rows: seq<Discrepancy>, found: seq<Finding>, alone: bool)
    requires Checked(v, t0, t, supplier, entries, rows, found, alone)
    ensures AllSettled(v, t, supplier, entries) && Reported(v, supplier, entries, rows, found)
    ensures AllAccounted(v, supplier, entries) ==> found == [] && t == t0
    ensures alone ==> OnlyFindings(t0, t)
  {
  }

  lemma OneMoreReported(
    v: Views, supplier: string, entries: seq<StatementEntry>, e: StatementEntry,
    rows: seq<Discrepancy>, found: seq<Finding>, row: seq<Discrepancy>, more: Option<Finding>)
    requires Reported(v, supplier, entries, rows, found)
    requires if more.None? then row == [] else |row| == 1 && Matches(row[0], more.value) && Justified(v, supplier, e, row[0])
    ensures Reported(v, supplier, entries + [e], rows + row, found + (if more.Some? then [more.value] else []))
  {
    hide Justified, Matches;
    var all := entries + [e];
    assert all[|entries|] == e;
    forall k | 0 <= k < |found| ensures exists j :: 0 <= j < |all| && Justified(v, supplier, all[j], rows[k]) {
      var j :| 0 <= j < |entries| && Justified(v, supplier, entries[j], rows[k]);
      assert all[j] == entries[j];
    }
  }

  lemma StaySettled(v: Views, t: Tables, t': Tables, supplier: string, entries: seq<StatementEntry>)
    requires AllSettled(v, t, supplier, entries) && Accrues(t, t')
    ensures AllSettled(v, t', supplier, entries)
  {
    hide Accounted, Accrues, Explained;
    AccruedFindings(t, t');
    forall k | 0 <= k < |entries| ensures Settled(v, t', supplier, entries[k]) {
      assert Settled(v, t, supplier, entries[k]);
      if Explained(t, supplier, entries[k].requestId) {
        ExplainedStays(t, t', supplier, entries[k].requestId);
      }
    }
  }

  // ---- All suppliers ----

  // A statement that could not be read has nothing to check.
  function EntriesOf(statement: Statement): seq<StatementEntry> {
    if statement.Entries? then statement.entries else []
  }

  ghost predicate Seen(views: seq<Views>, c: Config, t0: Tables, t: Tables) {
    forall i | 0 <= i < |views| :: ViewsOk(views[i], c) && Accrues(t0, views[i].delivered) && Accrues(views[i].noted, t)
  }

  ghost predicate EverySettled(views: seq<Views>, t: Tables, suppliers: seq<string>, statements: seq<Statement>) {
    |views| <= |suppliers| == |statements| &&
    forall i | 0 <= i < |views| :: AllSettled(views[i], t, suppliers[i], EntriesOf(statements[i]))
  }

  ghost predicate EveryAccounted(views: seq<Views>, suppliers: seq<string>, statements: seq<Statement>) {
    |views| <= |suppliers| == |statements| &&
    forall i | 0 <= i < |views| :: AllAccounted(views[i], suppliers[i], EntriesOf(statements[i]))
  }

  ghost predicate Grounded(views: seq<Views>, suppliers: seq<string>, statements: seq<Statement>, row: Discrepancy) {
    |views| <= |suppliers| == |statements| &&
    exists i, j :: 0 <= i < |views| && 0 <= j < |EntriesOf(statements[i])|
                   && Justified(views[i], suppliers[i], EntriesOf(statements[i])[j], row)
  }

  ghost predicate Backed(
    views: seq<Views>, suppliers: seq<string>, statements: seq<Statement>, rows: seq<Discrepancy>, found: seq<Finding>)
  {
    |rows| == |found| && forall k | 0 <= k < |found| ::
      Matches(rows[k], found[k]) && Grounded(views, suppliers, statements, rows[k])
  }

  // Nothing to find on these tables, for the first suppliers.
  ghost predicate Clean(t: Tables, suppliers: seq<string>, statements: seq<Statement>, n: nat) {
    n <= |suppliers| == |statements| &&
    forall i | 0 <= i < n :: AllAccounted(Views(t, t, t), suppliers[i], EntriesOf(statements[i]))
  }

  lemma NothingSeen(c: Config, t: Tables, suppliers: seq<string>, statements: seq<Statement>)
    requires |suppliers| == |statements|
    ensures Seen([], c, t, t) && EverySettled([], t, suppliers, statements)
    ensures Backed([], suppliers, statements, [], []) && Clean(t, suppliers, statements, 0)
  {
  }

  lemma SameViews(t: Tables, c: Config)
    requires Ready(t, c)
    ensures ViewsOk(Views(t, t, t), c) && Accrues(t, t)
  {
    AccruesAlready(t);
  }

  lemma SeenMore(views: seq<Views>, v: Views, c: Config, t0: Tables, t: Tables, t': Tables)
    requires Seen(views, c, t0, t) && Accrues(t, t') && ViewsOk(v, c)
    requires Accrues(t0, t) && Accrues(t, v.delivered) && Accrues(v.noted, t')
    ensures Seen(views + [v], c, t0, t')
  {
    hide ViewsOk, Accrues;
    AccruesAgain(t0, t, v.delivered);
    forall i | 0 <= i < |views| ensures Accrues(views[i].noted, t') {
      AccruesAgain(views[i].noted, t, t');
    }
  }

  lemma SettledMore(views: seq<Views>, v: Views, t: Tables, t': Tables, suppliers: seq<string>, statements: seq<Statement>)
    requires |views| < |suppliers| && EverySettled(views, t, suppliers, statements) && Accrues(t, t')
    requires AllSettled(v, t', suppliers[|views|], EntriesOf(statements[|views|]))
    ensures EverySettled(views + [v], t', suppliers, statements)
  {
    hide AllSettled, Accrues;
    forall i | 0 <= i < |views| ensures AllSettled(views[i], t', suppliers[i], EntriesOf(statements[i])) {
      StaySettled(views[i], t, t', suppliers[i], EntriesOf(statements[i]));
    }
  }

  lemma AccountedMore(views: seq<Views>, v: Views, suppliers: seq<string>, statements: seq<Statement>)
    requires |views| < |suppliers| && EveryAccounted(views + [v], suppliers, statements)
    ensures EveryAccounted(views, suppliers, statements)
    ensures AllAccounted(v, suppliers[|views|], EntriesOf(statements[|views|]))
  {
    hide AllAccounted;
    var all := views + [v];
    assert all[|views|] == v;
    forall i | 0 <= i < |views| ensures AllAccounted(views[i], suppliers[i], EntriesOf(statements[i])) {
      assert all[i] == views[i];
    }
  }

  lemma BackedMore(
    views: seq<Views>, v: Views, suppliers: seq<string>, statements: seq<Statement>,
    rows: seq<Discrepancy>, found: seq<Finding>, rows': seq<Discrepancy>, found': seq<Finding>)
    requires |views| < |suppliers| == |statements| && Backed(views, suppliers, statements, rows, found)
    requires Reported(v, suppliers[|views|], EntriesOf(statements[|views|]), rows', found')
    ensures Backed(views + [v], suppliers, statements, rows + rows', found + found')
  {
    hide Justified, Matches;
    var all := views + [v];
    forall row | Grounded(views, suppliers, statements, row) ensures Grounded(all, suppliers, statements, row) {
      var i, j :| 0 <= i < |views| && 0 <= j < |EntriesOf(statements[i])|
                  && Justified(views[i], suppliers[i], EntriesOf(statements[i])[j], row);
      assert all[i] == views[i];
    }
    forall k | 0 <= k < |rows'| ensures Grounded(all, suppliers, statements, rows'[k]) {
      var j :| 0 <= j < |EntriesOf(statements[|views|])|
               && Justified(v, suppliers[|views|], EntriesOf(statements[|views|])[j], rows'[k]);
      assert all[|views|] == v;
    }
  }

  // With nobody else at work.
  lemma CleanMore(t: Tables, t': Tables, t0: Tables, suppliers: seq<string>, statements: seq<Statement>, n: nat)
    requires n < |suppliers| == |statements| && OnlyFindings(t, t') && Clean(t, suppliers, statements, n)
    requires AllSettled(Views(t, t, t), t', suppliers[n], EntriesOf(statements[n]))
    ensures Clean(t', suppliers, statements, n + 1)
    ensures Clean(t0, suppliers, statements, n + 1) ==>
              Clean(t0, suppliers, statements, n) && AllAccounted(Views(t0, t0, t0), suppliers[n], EntriesOf(statements[n]))
  {
    hide Accounted, Explained, EntriesOf;
    forall i | 0 <= i < n + 1 ensures AllAccounted(Views(t', t', t'), suppliers[i], EntriesOf(statements[i])) {
      var entries := EntriesOf(statements[i]);
      forall k | 0 <= k < |entries| ensures Accounted(Views(t', t', t'), suppliers[i], entries[k]) {
        if i < n {
          assert AllAccounted(Views(t, t, t), suppliers[i], entries);
        } else {
          assert Settled(Views(t, t, t), t', suppliers[i], entries[k]);
        }
        AccountedStays(t, t', suppliers[i], entries[k]);
      }
    }
  }

  lemma AccountedStays(t: Tables, t': Tables, supplier: string, e: StatementEntry)
    requires Settled(Views(t, t, t), t', supplier, e) && OnlyFindings(t, t')
    ensures Accounted(Views(t', t', t'), supplier, e)
  {
    hide Explained;
    if Explained(t, supplier, e.requestId) {
      ExplainedStays(t, t', supplier, e.requestId);
    } else if !Explained(t', supplier, e.requestId) {
      if key :| DeliveredUnder(t, supplier, e.requestId, key) && t.deliveries[key].code == e.code {
        assert DeliveredUnder(t', supplier, e.requestId, key);
      } else {
        var key :| AskedUnder(t, supplier, e.requestId, key) && IsOpen(ItemAt(t, key).status);
        assert AskedUnder(t', supplier, e.requestId, key);
      }
    }
  }
}
