/**
 The concrete supplier: its own window counter, an array shifted in place, and its book and key pool.
 `now` is the process clock; chance is nondeterministic choice.
 */
module SupplierStub {
  import opened Base
  import opened Windows

  datatype Stats = Stats(total: nat, rejected: nat, peakInWindow: nat)

  function Max(a: nat, b: nat): nat {
    if a < b then b else a
  }

  // How many arrivals lie in the window that ends with `x`, its start excluded.
  function Crowd(h: seq<int>, window: nat, x: int): nat {
    |InWindow(h, x - window + 1, x)|
  }

  // How many of the arrivals had company above the limit in the window ending with them.
  function Turned(h: seq<int>, limit: int, window: nat): nat {
    if h == [] then 0
    else
      var x := h[|h| - 1];
      Turned(h[..|h| - 1], limit, window) + (if Crowd(h, window, x) > limit then 1 else 0)
  }

  // The largest number of arrivals any window ending with an arrival saw at that arrival.
  function Peak(h: seq<int>, window: nat): nat {
    if h == [] then 0
    else
      var x := h[|h| - 1];
      Max(Peak(h[..|h| - 1], window), Crowd(h, window, x))
  }

  predicate IsSuffix(s: seq<int>, h: seq<int>) {
    |s| <= |h| && s == h[|h| - |s|..]
  }

  lemma SuffixMoves(s: seq<int>, h: seq<int>, x: int)
    requires IsSuffix(s, h)
    ensures IsSuffix(s + [x], h + [x])
    ensures s != [] ==> IsSuffix(s[1..], h) && |s| <= |h| && s[0] == h[|h| - |s|]
  {
    var n := |h| - |s|;
    assert forall i | 0 <= i < |s| :: s[i] == h[n + i];
    assert s + [x] == (h + [x])[n..];
  }

  // The array holds the arrivals of the window ending with the last one, the statistics the rest.
  ghost predicate Counted(arrivals: seq<int>, stats: Stats, h: seq<int>, limit: int, window: nat) {
    && Sorted(h)
    && IsSuffix(arrivals, h)
    && (h != [] ==> forall i | 0 <= i < |h| - |arrivals| :: h[i] <= h[|h| - 1] - window)
    && stats == Stats(|h|, if limit > 0 then Turned(h, limit, window) else 0, Peak(h, window))
  }

  function Noted(stats: Stats, crowd: nat, limit: int): Stats {
    Stats(stats.total + 1, stats.rejected + (if limit > 0 && crowd > limit then 1 else 0), Max(stats.peakInWindow, crowd))
  }

  lemma OneMoreArrival(before: seq<int>, stats: Stats, h: seq<int>, kept: seq<int>, now: int, limit: int, window: nat)
    requires Counted(before, stats, h, limit, window) && window >= 1 && (h != [] ==> h[|h| - 1] <= now)
    requires IsSuffix(kept, h)
    requires |kept| <= |h| && forall i | 0 <= i < |h| - |kept| :: h[i] <= now - window
    requires InWindow(h + [now], now - window + 1, now) == kept + [now]
    ensures Counted(kept + [now], Noted(stats, |kept| + 1, limit), h + [now], limit, window)
  {
    hide Turned, Peak, InWindow, IsSuffix;
    var h' := h + [now];
    CountsOneMore(h, kept, now, limit, window);
    SuffixMoves(kept, h, now);
    assert h'[|h'| - 1] == now && forall i | 0 <= i < |h| :: h'[i] == h[i];
  }

  lemma CountsOneMore(h: seq<int>, kept: seq<int>, now: int, limit: int, window: nat)
    requires InWindow(h + [now], now - window + 1, now) == kept + [now]
    ensures Turned(h + [now], limit, window) == Turned(h, limit, window) + (if |kept| + 1 > limit then 1 else 0)
    ensures Peak(h + [now], window) == Max(Peak(h, window), |kept| + 1)
  {
    var h' := h + [now];
    assert h'[..|h'| - 1] == h && h'[|h'| - 1] == now;
    hide InWindow;
  }

  lemma InOrder(arrivals: seq<int>, stats: Stats, h: seq<int>, limit: int, window: nat)
    requires Counted(arrivals, stats, h, limit, window)
    ensures Sorted(h) && IsSuffix(arrivals, h) && |arrivals| <= |h|
    ensures h != [] ==> forall i | 0 <= i < |h| - |arrivals| :: h[i] <= h[|h| - 1] - window
  {
  }

  class WindowCounter {
    const rateLimit: int
    const rateWindowMs: nat
    var arrivals: seq<int>
    var stats: Stats
    ghost var history: seq<int>  // every arrival since the statistics were reset

    ghost predicate Valid()
      reads this
    {
      rateWindowMs >= 1 && Counted(arrivals, stats, history, rateLimit, rateWindowMs)
    }

    constructor (rateLimit: int, rateWindowMs: nat)
      requires rateWindowMs >= 1
      ensures Valid() && history == [] && this.rateLimit == rateLimit && this.rateWindowMs == rateWindowMs
    {
      this.rateLimit, this.rateWindowMs := rateLimit, rateWindowMs;
      arrivals, history, stats := [], [], Stats(0, 0, 0);
    }

    // One more arrival; admitted while the window that ends with it is within the limit.
    method Admit(now: int) returns (admitted: bool)
      requires Valid() && (history != [] ==> history[|history| - 1] <= now)
      modifies this
      ensures Valid() && history == old(history) + [now]
      ensures arrivals == InWindow(history, now - rateWindowMs + 1, now)
      ensures admitted <==> rateLimit <= 0 || |arrivals| <= rateLimit
    {
      hide Turned, Peak, InWindow, Sorted, Counted, IsSuffix;
      InOrder(arrivals, stats, history, rateLimit, rateWindowMs);
      while |arrivals| > 0 && arrivals[0] <= now - rateWindowMs
        invariant IsSuffix(arrivals, history) && |arrivals| <= |history|
        invariant forall i | 0 <= i < |history| - |arrivals| :: history[i] <= now - rateWindowMs
        invariant history == old(history) && stats == old(stats)
      {
        SuffixMoves(arrivals, history, now);
        arrivals := arrivals[1..];
      }
      WindowEnd(history, arrivals, now, rateWindowMs);
      OneMoreArrival(old(arrivals), stats, history, arrivals, now, rateLimit, rateWindowMs);
      arrivals, history := arrivals + [now], history + [now];
      stats := stats.(total := stats.total + 1, peakInWindow := Max(stats.peakInWindow, |arrivals|));
      if rateLimit > 0 && |arrivals| > rateLimit {
        stats := stats.(rejected := stats.rejected + 1);
        return false;
      }
      return true;
    }

    // Nobody was turned away exactly when the peak stayed within the limit.
    lemma NobodyTurnedAway()
      requires Valid() && rateLimit > 0
      ensures stats.rejected == 0 <==> stats.peakInWindow <= rateLimit
    {
      TurnedMeansPeak(history, rateLimit, rateWindowMs);
    }

    // The recorded peak is the largest number of arrivals in any window at all.
    lemma PeakIsTheMaximum(x: int)
      requires Valid()
      ensures Crowd(history, rateWindowMs, x) <= stats.peakInWindow
      ensures history != [] ==>
                exists y :: Crowd(history, rateWindowMs, y) == stats.peakInWindow
    {
      PeakBounds(history, rateWindowMs, x);
      if history != [] {
        var y := PeakReached(history, rateWindowMs);
      }
    }
  }

  // Shifting leaves the arrivals still inside the window that ends now.
  lemma WindowEnd(h: seq<int>, kept: seq<int>, now: int, window: nat)
    requires Sorted(h) && (h != [] ==> h[|h| - 1] <= now) && window >= 1
    requires IsSuffix(kept, h)
    requires forall i | 0 <= i < |h| - |kept| :: h[i] <= now - window
    requires kept != [] ==> kept[0] > now - window
    ensures InWindow(h + [now], now - window + 1, now) == kept + [now]
    ensures forall i | 0 <= i < |h| :: h[i] <= now - window <==> i < |h| - |kept|
  {
    hide InWindow;
    var n := |h| - |kept|;
    forall i | 0 <= i < |h| ensures h[i] <= now && (h[i] < now - window + 1 <==> i < n) {
      if i >= n {
        assert h[n] == kept[0] && h[n] <= h[i];
      }
    }
    SuffixIsWindow(h, kept, now, window - 1);
    WindowAppend(h, now, now - window + 1, now);
  }

  lemma {:induction false} TurnedMeansPeak(h: seq<int>, limit: int, window: nat)
    requires limit > 0
    ensures Turned(h, limit, window) == 0 <==> Peak(h, window) <= limit
  {
    if h != [] {
      TurnedMeansPeak(h[..|h| - 1], limit, window);
    }
  }

  lemma {:induction false} PeakBounds(h: seq<int>, window: nat, x: int)
    requires Sorted(h) && window >= 1
    ensures Crowd(h, window, x) <= Peak(h, window)
  {
    if h != [] {
      var n := |h| - 1;
      if h[n] <= x {
        // No arrival is later than the last one: the window may as well end there.
        EarlierEnd(h, x - window + 1, x, h[n]);
        WiderWindow(h, x - window + 1, h[n], h[n] - window + 1, h[n]);
      } else {
        PeakBounds(h[..n], window, x);
      }
    }
  }

  lemma {:induction false} EarlierEnd(h: seq<int>, from: int, to: int, to': int)
    requires to' <= to && forall i | 0 <= i < |h| :: h[i] <= to'
    ensures InWindow(h, from, to) == InWindow(h, from, to')
  {
    if h != [] {
      EarlierEnd(h[..|h| - 1], from, to, to');
    }
  }

  // Some window of the whole history holds that many.
  lemma {:induction false} PeakReached(h: seq<int>, window: nat) returns (y: int)
    requires h != [] && Sorted(h) && window >= 1
    ensures Crowd(h, window, y) == Peak(h, window)
  {
    var n := |h| - 1;
    y := h[n];
    if Peak(h, window) > Crowd(h, window, y) {
      var front := h[..n];
      if front != [] {
        y := PeakReached(front, window);
        PeakBounds(h, window, y);
      }
    }
  }

  // ---- The book and the key pool ----

  datatype Answer = AnswerOk(code: string) | AnswerOutOfStock | AnswerInternalError | AnswerRateLimited

  // What chance decides about one request.
  datatype Draws = Draws(fails: bool, duplicate: Option<string>, foreign: Option<string>, failsAfter: bool)

  class Stub {
    var book: map<string, string>          // request id -> code
    var keys: map<string, Option<string>>  // code -> the request it was reserved for
    var unavailableSkus: set<string>
    ghost var honest: bool                 // no code was ever booked twice on purpose

    // Reserved keys are booked; while honest, a booked code is reserved for that request alone.
    ghost predicate Valid()
      reads this
    {
      && (forall code | code in keys && keys[code].Some? :: keys[code].value in book && book[keys[code].value] == code)
      && (honest ==> forall r | r in book :: book[r] in keys && keys[book[r]] == Some(r))
    }

    constructor (codes: set<string>)
      ensures Valid() && honest && book == map[] && unavailableSkus == {}
      ensures keys == map code | code in codes :: None
    {
      book, unavailableSkus, honest := map[], {}, true;
      keys := map code | code in codes :: None;
    }

    method Configure(skus: set<string>)
      requires Valid()
      modifies this`unavailableSkus
      ensures unavailableSkus == skus
    {
      unavailableSkus := skus;
    }

    // One entry per request id, whatever is drawn.
    method Reserve(requestId: string, duplicate: Option<string>) returns (r: Answer)
      requires Valid()
      requires duplicate.Some? ==> exists q :: q in book && book[q] == duplicate.value
      modifies this`book, this`keys, this`honest
      ensures Valid() && (honest <==> old(honest) && (requestId in old(book) || duplicate.None?))
      ensures match r
              case AnswerOk(code) =>
                && book == old(book)[requestId := code]
                && (if requestId in old(book) then code == old(book)[requestId] && keys == old(keys)
                    else if duplicate.Some? then code == duplicate.value && keys == old(keys)
                    else code in old(keys) && old(keys)[code].None? && keys == old(keys)[code := Some(requestId)])
              case AnswerOutOfStock =>
                && book == old(book) && keys == old(keys) && requestId !in book && duplicate.None?
                && forall code | code in keys :: keys[code].Some?
              case _ => false
    {
      if requestId in book {
        return AnswerOk(book[requestId]);
      }
      if duplicate.Some? {
        book, honest := book[requestId := duplicate.value], false;
        return AnswerOk(duplicate.value);
      }
      if free :| free in keys && keys[free].None? {
        keys, book := keys[free := Some(requestId)], book[requestId := free];
        return AnswerOk(free);
      }
      return AnswerOutOfStock;
    }

    // POST /issue once admitted. The book is written before the answer is spoilt.
    method Issue(requestId: string, sku: string, admitted: bool, d: Draws) returns (r: Answer)
      requires Valid()
      requires d.duplicate.Some? ==> exists q :: q in book && book[q] == d.duplicate.value
      modifies this`book, this`keys, this`honest
      ensures Valid()
      ensures forall q | q in old(book) :: q in book && book[q] == old(book)[q]
      ensures book.Keys <= old(book).Keys + {requestId}
      ensures r.AnswerRateLimited? <==> !admitted
      ensures r.AnswerOutOfStock? <==>
              admitted && !d.fails &&
              (sku in unavailableSkus
               || (requestId !in old(book) && d.duplicate.None? && forall code | code in old(keys) :: old(keys)[code].Some?))
      ensures r.AnswerInternalError? <==> admitted && (d.fails || (d.failsAfter && !r.AnswerOutOfStock?))
      ensures r.AnswerOk? || (r.AnswerInternalError? && !d.fails) ==> requestId in book
      ensures requestId in book && requestId !in old(book) ==>
                if d.duplicate.Some? then book[requestId] == d.duplicate.value
                else book[requestId] in old(keys) && old(keys)[book[requestId]].None?
      ensures r.AnswerOk? ==> r.code == if d.foreign.Some? then d.foreign.value else book[requestId]
      ensures !admitted || d.fails || sku in unavailableSkus ==> book == old(book)
      // Out of stock is a definite no exactly when the request was not booked before its product
      // was declared unavailable.
      ensures r.AnswerOutOfStock? ==>
                && book == old(book)
                && (requestId in book <==> sku in unavailableSkus && requestId in old(book))
    {
      if !admitted {
        return AnswerRateLimited;
      }
      if d.fails {
        return AnswerInternalError;
      }
      if sku in unavailableSkus {
        return AnswerOutOfStock;
      }
      r := Reserve(requestId, d.duplicate);
      if r.AnswerOk? && d.foreign.Some? {
        r := AnswerOk(d.foreign.value);
      }
      if r.AnswerOk? && d.failsAfter {
        return AnswerInternalError;
      }
    }

    // An honest supplier never books one code for two requests.
    lemma HonestBookIsInjective(q: string, r: string)
      requires Valid() && honest && q in book && r in book && book[q] == book[r]
      ensures q == r
    {
      assert keys[book[q]] == Some(q) && keys[book[r]] == Some(r);
    }
  }

  // A run in which `out of stock` is answered for a request whose code is booked.
  method OutOfStockButBooked(requestId: string, sku: string, code: string) returns (first: Answer, second: Answer, booked: bool)
    ensures first == AnswerOk(code) && second == AnswerOutOfStock && booked
  {
    var stub := new Stub({code});
    assert code in stub.keys;
    first := stub.Issue(requestId, sku, true, Draws(false, None, None, false));
    stub.Configure({sku});
    second := stub.Issue(requestId, sku, true, Draws(false, None, None, false));
    booked := requestId in stub.book;
  }
}
