/** The calls of one round: what is known while no answer has settled it, and once one has. */
module Rounds {
  import opened Base
  import opened Tables
  import opened RequestIds
  import opened Evidence
  import opened Passing
  import opened Suppliers
  import opened Replies
  import opened Outcomes
  import opened Bookings
  import opened Leftovers

  // A call of the round got no answer, and its request may still be under way.
  ghost predicate Hung(log: seq<Attempt>, n: nat) {
    Said(log, n, TimedOut) || Said(log, n, Broken)
  }

  // What a round that began with `n` attempts in the log has seen so far.
  ghost predicate SoFar(log: seq<Attempt>, n: nat, flagged: bool, sawTimeout: bool, sawError: bool) {
    && (sawTimeout <==> Said(log, n, TimedOut))
    && (sawError <==> Said(log, n, Errored) || Said(log, n, Broken))
    && (!flagged && !sawTimeout && !sawError ==> NoneIsOpen(log))
  }

  ghost predicate NothingDefinite(log: seq<Attempt>, from: nat, to: int) {
    forall i | from <= i < |log| && i < to :: !Definite(log[i].outcome)
  }

  // The last answer settled nothing; if all that is known is that no call was sent, it says so too.
  predicate SettledNothing(before: nat, heard: seq<Heard>, mine: Entry, unknown: bool) {
    && |heard| > before
    && var a := heard[|heard| - 1].answer;
    a.ToIssue? && a.asked == mine && AttemptHeard(a.reply, None) && (a.reply.Unreachable? || unknown)
  }

  // So many calls and no definite answer; `f0` and `a` are the facts and the shelf before the first.
  ghost predicate Undecided(
    f0: Facts, f: Facts, a: Shelf, b: Shelf, mine: Entry, before: nat, heard: seq<Heard>,
    flagged: bool, sawTimeout: bool, sawError: bool, attempts: int)
  {
    var log, n := f.log, |f0.log|;
    && Extends(f0, f, mine.0, mine.1) && |log| == n + attempts
    && SoFar(log, n, flagged, sawTimeout, sawError)
    && NothingDefinite(log, n, |log|)
    && (!Hung(log, n) && mine in b.inFlight ==> mine in a.inFlight)
    && (!sawTimeout && !sawError ==> NeverSent(log, n) && Quiet(a, b, mine))
    && before <= |heard|
    && (attempts > 0 ==> SettledNothing(before, heard, mine, sawTimeout || sawError))
  }

  lemma UndecidedAtFirst(f: Facts, a: Shelf, mine: Entry, heard: seq<Heard>, flagged: bool)
    requires !flagged ==> NoneIsOpen(f.log)
    ensures Undecided(f, f, a, a, mine, |heard|, heard, flagged, false, false, 0)
  {
    NothingSaid(f.log);
    hide OpenSuppliers;
  }

  // What a call shows that settled nothing.
  lemma StillUndecided(
    c: Config, f0: Facts, f: Facts, item: Item, a: Shelf, b0: Shelf, b: Shelf, key: ItemKey, mine: Entry, before: nat, heard: seq<Heard>,
    flagged: bool, sawTimeout: bool, sawError: bool, attempts: nat, reply: IssueReply)
    requires Undecided(f0, f, a, b0, mine, before, heard, flagged, sawTimeout, sawError, attempts)
    requires MayAsk(c, f, item, mine.0, mine.1) && AttemptHeard(reply, None)
    requires !MayBook(reply) ==> Quiet(b0, b, mine)
    requires !StillServed(reply) ==> (mine in b.inFlight ==> mine in b0.inFlight)
    ensures Undecided(f0, f.(log := f.log + [Attempt(mine.0, mine.1, OutcomeOf(reply))]), a, b, mine, before,
                      heard + [Heard(key, ToIssue(mine, reply))], flagged,
                      sawTimeout || reply.NoResponse?, sawError || reply.ServerError? || reply.BrokenConnection?, attempts + 1)
  {
    hide OpenSuppliers, MayAsk, Said, NeverSent;
    LogOpens(c, f0, f, item, Attempt(mine.0, mine.1, OutcomeOf(reply)));
  }

  // What a call shows that settled the round.
  lemma NowDecided(
    c: Config, f0: Facts, f: Facts, item: Item, a: Shelf, b0: Shelf, b: Shelf, mine: Entry, before: nat, heard: seq<Heard>,
    flagged: bool, sawTimeout: bool, sawError: bool, attempts: nat, reply: IssueReply)
    requires Undecided(f0, f, a, b0, mine, before, heard, flagged, sawTimeout, sawError, attempts)
    requires MayAsk(c, f, item, mine.0, mine.1) && (reply.OkCode? || reply.NoneInStock?)
    requires reply.NoneInStock? ==>
               && (mine in b.inFlight ==> mine in b0.inFlight)
               && (mine in b.book ==> mine in b0.inFlight)
    ensures var f', n := f.(log := f.log + [Attempt(mine.0, mine.1, OutcomeOf(reply))]), |f0.log|;
            && Extends(f0, f', mine.0, mine.1) && NothingDefinite(f'.log, n, |f'.log| - 1)
            && (reply.OkCode? ==> Answers(f'.log, b.book, mine, n, IssueOutcome.Issued(reply.code, false)))
            && (reply.NoneInStock? ==>
                  && Answers(f'.log, b.book, mine, n, IssueOutcome.OutOfStock)
                  && (mine in b.book ==> Hung(f'.log, n) || mine in a.inFlight)
                  && Tidy(a, b, f0, f', mine))
  {
    hide OpenSuppliers, MayAsk, Said, NeverSent, Tidy;
    LogOpens(c, f0, f, item, Attempt(mine.0, mine.1, OutcomeOf(reply)));
    if reply.NoneInStock? {
      RoundIsTidy(a, b, f0, f.(log := f.log + [Attempt(mine.0, mine.1, OutcomeOf(reply))]), mine);
    }
  }

  // Nothing but attempts under the round's id was written.
  lemma UndecidedExtends(
    f0: Facts, f: Facts, a: Shelf, b: Shelf, mine: Entry, before: nat, heard: seq<Heard>,
    flagged: bool, sawTimeout: bool, sawError: bool, attempts: nat)
    requires Undecided(f0, f, a, b, mine, before, heard, flagged, sawTimeout, sawError, attempts)
    ensures Extends(f0, f, mine.0, mine.1) && NothingDefinite(f.log, |f0.log|, |f.log| - 1) && before <= |heard|
  {
    hide OpenSuppliers, Said, NeverSent;
  }

  // After all calls allowed.
  lemma LeftUndecided(
    f0: Facts, f: Facts, a: Shelf, b: Shelf, mine: Entry, before: nat, heard: seq<Heard>,
    flagged: bool, sawTimeout: bool, sawError: bool, attempts: int)
    requires Undecided(f0, f, a, b, mine, before, heard, flagged, sawTimeout, sawError, attempts) && attempts >= 1
    ensures Extends(f0, f, mine.0, mine.1) && |f0.log| < |f.log| && SoFar(f.log, |f0.log|, flagged, sawTimeout, sawError)
    ensures SettledNothing(before, heard, mine, sawTimeout || sawError)
    ensures !flagged && !sawTimeout && !sawError ==>
              && IssueHeard(heard[|heard| - 1].answer, mine, IssueOutcome.Failed) && heard[|heard| - 1].answer.ToIssue?
              && Tidy(a, b, f0, f, mine) && NeverSent(f.log, |f0.log|) && Quiet(a, b, mine)
              && !Said(f.log, |f0.log|, TimedOut)
              && Answers(f.log, b.book, mine, |f0.log|, IssueOutcome.Failed)
    ensures !Hung(f.log, |f0.log|) && mine in b.inFlight ==> mine in a.inFlight
    ensures NothingDefinite(f.log, |f0.log|, |f.log| - 1)
  {
    hide OpenSuppliers, Said, Tidy;
    if !flagged && !sawTimeout && !sawError {
      RoundIsTidy(a, b, f0, f, mine);
    }
  }

  // What the book leaves once it has settled the round; `f` and `b` are the facts and the shelf when
  // it was asked.
  lemma BookSettles(
    f0: Facts, f: Facts, f': Facts, a: Shelf, b: Shelf, b': Shelf, mine: Entry, shown: LookupReply,
    flagged: bool, sawTimeout: bool, sawError: bool, o: IssueOutcome)
    requires Extends(f0, f, mine.0, mine.1) && Extends(f, f', mine.0, mine.1)
    requires SoFar(f.log, |f0.log|, flagged, sawTimeout, sawError)
    requires !Hung(f.log, |f0.log|) && mine in b.inFlight ==> mine in a.inFlight
    requires Quiet(b, b', mine) && BookHeard(shown, flagged, sawTimeout, o)
    requires f'.log == f.log + BookLog(shown, mine, o.Ambiguous?)
    requires o.Failed? && mine in b'.book ==> mine in b.inFlight
    ensures IssueHeard(ToLookup(mine, shown), mine, o)
    ensures o.Failed? ==>
              && Tidy(a, b', f0, f', mine)
              && (mine in b'.book ==> Hung(f'.log, |f0.log|) || mine in a.inFlight)
              && (!flagged ==>
                    && !Said(f'.log, |f0.log|, TimedOut)
                    && (!Said(f'.log, |f0.log|, Broken) ==> Quiet(a, b', mine)))
    ensures o.Ambiguous? && shown.NotFound? ==> !flagged && Said(f'.log[..|f'.log| - 1], |f0.log|, TimedOut)
    ensures o.Issued? ==> (sawError <==> Said(f'.log, |f0.log|, Errored) || Said(f'.log, |f0.log|, Broken))
  {
    var n := |f0.log|;
    assert f'.log[..|f.log|] == f.log;
    if |f'.log| > |f.log| {
      var last := f'.log[|f.log|];
      assert f'.log == f.log + [last];
      SaidAppend(f.log, last, n, TimedOut);
      SaidAppend(f.log, last, n, Broken);
      SaidAppend(f.log, last, n, Errored);
      assert f'.log[..|f'.log| - 1] == f.log;
    }
    hide OpenSuppliers, Said, Tidy;
    if o.Failed? {
      RoundIsTidy(a, b', f0, f', mine);
    }
  }

  // ---- The round's end ----

  // What a round leaves: an outcome of its supplier, or None when its code was rejected and the next
  // round may begin.
  ghost predicate RoundEnds(
    c: Config, a: Shelf, b: Shelf, f: Facts, f': Facts, item: Item, supplier: string,
    before: seq<Heard>, heard: seq<Heard>, o: Option<SupplierOutcome>)
  {
    && Tried(f, f', supplier)
    && (o.Some? ==> Tells(c, b.book, f, f', item, supplier, o.value))
    && (o.None? ==>
          && StillPending(f, f', item) && LastWord(f, f', AttemptOutcome.Rejected)
          && NoneIsOpen(f'.log) && OnlyOpen(f'.log, supplier)
          && supplier in f.rejected && supplier in f'.rejected && |f'.rejected[supplier]| == |f.rejected[supplier]| + 1)
    && (o.None? || o.value.OutOfStock? || o.value.Failed? ==> SupplierTidy(a, b, f, f', item.id, supplier))
    && |heard| > |before| && RoundHeard(heard[|heard| - 1].answer, f'.delivery, o)
  }

  lemma RoundEnded(
    c: Config, a: Shelf, b: Shelf, f: Facts, f': Facts, item: Item, supplier: string,
    before: seq<Heard>, heard: seq<Heard>, o: Option<SupplierOutcome>)
    requires RoundEnds(c, a, b, f, f', item, supplier, before, heard, o)
    ensures Tried(f, f', supplier)
    ensures o.Some? ==> Tells(c, b.book, f, f', item, supplier, o.value)
    ensures o.None? ==>
              && StillPending(f, f', item) && LastWord(f, f', AttemptOutcome.Rejected)
              && NoneIsOpen(f'.log) && OnlyOpen(f'.log, supplier)
              && supplier in f.rejected && supplier in f'.rejected && |f'.rejected[supplier]| == |f.rejected[supplier]| + 1
    ensures o.None? || o.value.OutOfStock? || o.value.Failed? ==> SupplierTidy(a, b, f, f', item.id, supplier)
    ensures |heard| > |before| && RoundHeard(heard[|heard| - 1].answer, f'.delivery, o)
  {
    hide Tried, Tells, LastWord, OpenSuppliers, SupplierTidy, RoundHeard;
  }

  // It ends without a code.
  lemma IssueEndsRound(
    w: World, w': World, c: Config, key: ItemKey, item: Item, supplier: string, requestId: string, o: IssueOutcome)
    requires Onward(w, w', c, key, OneId((supplier, requestId))) && !o.Issued?
    requires MayAsk(c, FactsOf(w.t, c, key), item, supplier, requestId) && MayAsk(c, FactsOf(w'.t, c, key), item, supplier, requestId)
    requires Extends(FactsOf(w.t, c, key), FactsOf(w'.t, c, key), supplier, requestId)
    requires Answers(FactsOf(w'.t, c, key).log, w'.shelf.book, (supplier, requestId), |FactsOf(w.t, c, key).log|, o)
    requires o.OutOfStock? || o.Failed? ==>
               Tidy(w.shelf, w'.shelf, FactsOf(w.t, c, key), FactsOf(w'.t, c, key), (supplier, requestId))
    requires |w'.heard| > |w.heard| && IssueHeard(w'.heard[|w'.heard| - 1].answer, (supplier, requestId), o)
    ensures RoundEnds(c, w.shelf, w'.shelf, FactsOf(w.t, c, key), FactsOf(w'.t, c, key), item, supplier, w.heard, w'.heard,
                      Some(FromIssue(o)))
  {
    hide FactsOf, Onward, Tidy, SupplierTidy, OpenSuppliers, RequestId, Extends, Answers, Tried, Tells, RoundHeard, IssueHeard;
    AskingIsOfItem(c, FactsOf(w.t, c, key), item, supplier, requestId);
    AnswerTells(c, w'.shelf.book, FactsOf(w.t, c, key), FactsOf(w'.t, c, key), item, supplier, requestId, o);
    RoundLeaves(w, w', c, key, item, supplier, requestId, o);
    IssuedIsHeard(w'.heard[|w'.heard| - 1].answer, (supplier, requestId), o, FactsOf(w'.t, c, key).delivery);
  }

  // It ends with what became of its code; `w1` is the world when the code was answered.
  lemma AcceptEndsRound(
    w: World, w1: World, w': World, c: Config, key: ItemKey, found: seq<Discrepancy>, f: Facts, item: Item,
    supplier: string, requestId: string, answered: string, verified: bool, o: AcceptOutcome)
    requires Onward(w, w', c, key, OneId((supplier, requestId))) && f == FactsOf(w1.t, c, key)
    requires MayAsk(c, FactsOf(w.t, c, key), item, supplier, requestId) && MayAsk(c, f, item, supplier, requestId) && NoneIsOpen(f.log)
    requires Extends(FactsOf(w.t, c, key), f, supplier, requestId)
    requires Tried(FactsOf(w.t, c, key), f, supplier) && StillPending(FactsOf(w.t, c, key), f, item)
    requires f.rejected == FactsOf(w.t, c, key).rejected
    requires Accepts(found, w'.shelf.book, key, f, FactsOf(w'.t, c, key), item, (supplier, requestId), answered, verified, o)
    requires |w1.heard| > |w.heard| && |w'.heard| >= |w1.heard|
    requires w'.heard[|w'.heard| - 1].answer.ToLookup? && w'.heard[|w'.heard| - 1].answer.looked == (supplier, requestId)
    requires var shown := w'.heard[|w'.heard| - 1].answer.shown;
             && AcceptHeard(shown, o)
             && (shown.Found? && o.Delivered? && (supplier, requestId) in w'.shelf.book ==>
                   shown.code == w'.shelf.book[(supplier, requestId)])
    ensures RoundEnds(c, w.shelf, w'.shelf, FactsOf(w.t, c, key), FactsOf(w'.t, c, key), item, supplier, w.heard, w'.heard,
                      if o.Rejected? then None else Some(FromAccept(o)))
  {
    hide FactsOf, Onward, Tidy, SupplierTidy, OpenSuppliers, RequestId, Extends, Accepts, Tried, Tells, RoundHeard, AcceptHeard, LastWord;
    var f0, f', mine := FactsOf(w.t, c, key), FactsOf(w'.t, c, key), (supplier, requestId);
    AskingIsOfItem(c, f0, item, supplier, requestId);
    AcceptTells(c, found, w'.shelf.book, key, f0, f, f', item, supplier, requestId, answered, verified, o);
    AcceptedIsHeard(c, found, w'.shelf.book, key, f, f', item, mine, answered, verified, o, w'.heard[|w'.heard| - 1].answer.shown);
    if o.Rejected? {
      RejectionLeaves(w, w', c, key, found, f, item, supplier, requestId, answered, verified);
    }
  }
}
