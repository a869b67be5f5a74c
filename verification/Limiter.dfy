/**
 The sliding-window limit per supplier: a table of stamps swept on every acquisition, against the
 history of all stamps ever taken. `now` is the transaction's clock, read under the supplier's lock.
 */
module Limiter {
  import opened Windows

  datatype Slot = Granted | Refused(nextSlotAt: int)

  datatype Usage = Usage(used: nat, available: int, nextSlotIn: int)

  const SAFETY_MS := 100

  function Min(a: int, b: int): int {
    if a < b then a else b
  }

  function Max(a: int, b: int): int {
    if a < b then b else a
  }

  // Whether `cost` slots fit, judged by the whole history; all there are count as enough.
  ghost predicate Admits(h: seq<int>, limit: int, width: int, cost: int, now: int) {
    |InWindow(h, now - width, now)| + (if cost <= limit then cost else limit) <= limit
  }

  function At(m: map<string, seq<int>>, supplier: string): seq<int> {
    if supplier in m then m[supplier] else []
  }

  // The table is the recent end of the history; what was swept is out of every window to come, and
  // no closed window ever held more than the limit.
  ghost predicate Tracks(rows: seq<int>, h: seq<int>, clock: int, limit: int, width: int) {
    && Sorted(h)
    && |rows| <= |h| && rows == h[|h| - |rows|..]
    && (forall i | 0 <= i < |h| :: h[i] <= clock)
    && (forall i | 0 <= i < |h| - |rows| :: h[i] < clock - width)
    && (forall i | 0 <= i < |rows| :: rows[i] >= clock - width)
    && (limit > 0 ==> Spaced(h, limit, width))
  }

  lemma SweepTracks(rows: seq<int>, kept: seq<int>, h: seq<int>, clock: int, now: int, limit: int, width: int)
    requires Tracks(rows, h, clock, limit, width) && clock <= now
    requires |kept| <= |rows| && kept == rows[|rows| - |kept|..]
    requires forall i | 0 <= i < |rows| :: rows[i] < now - width <==> i < |rows| - |kept|
    ensures Tracks(kept, h, now, limit, width)
    ensures InWindow(h, now - width, now) == kept
  {
    forall i | 0 <= i < |h| ensures h[i] < now - width <==> i < |h| - |kept| {
      if i >= |h| - |rows| {
        assert h[i] == rows[i - (|h| - |rows|)];
      }
    }
    SuffixIsWindow(h, kept, now, width);
  }

  // Stamps that would come too close to the new ones are still in the table, and counted.
  lemma GrantIsSpaced(h: seq<int>, used: nat, now: int, limit: nat, width: int, taken: nat)
    requires Spaced(h, limit, width) && used <= |h| && used + taken <= limit
    requires forall i | 0 <= i < |h| - used :: h[i] < now - width
    ensures Spaced(h + Repeat(now, taken), limit, width)
  {
    var h' := h + Repeat(now, taken);
    forall i, j | 0 <= i && i + limit <= j < |h'| ensures h'[j] - h'[i] > width {
      if j >= |h| {
        assert h'[j] == now && h'[i] == h[i];
      } else {
        assert h'[j] == h[j] && h'[i] == h[i];
      }
    }
  }

  lemma GrantTracks(kept: seq<int>, h: seq<int>, now: int, limit: int, width: int, taken: nat)
    requires Tracks(kept, h, now, limit, width) && 0 < limit && |kept| + taken <= limit && width >= 0
    requires InWindow(h, now - width, now) == kept
    ensures Tracks(kept + Repeat(now, taken), h + Repeat(now, taken), now, limit, width)
    ensures InWindow(h + Repeat(now, taken), now - width, now) == kept + Repeat(now, taken)
  {
    hide Spaced, InWindow, Sorted;
    var added := Repeat(now, taken);
    hide Repeat;
    WindowConcat(h, added, now - width, now);
    WindowOfAll(added, now - width, now);
    GrantIsSpaced(h, |kept|, now, limit, width, taken);
    StaysSorted(h, added, now);
    assert (h + added)[|h| - |kept|..] == kept + added;
    assert forall i | 0 <= i < |h| - |kept| :: (h + added)[i] == h[i];
  }

  lemma StaysSorted(h: seq<int>, later: seq<int>, now: int)
    requires Sorted(h) && (forall i | 0 <= i < |h| :: h[i] <= now) && (forall i | 0 <= i < |later| :: later[i] == now)
    ensures Sorted(h + later) && forall i | 0 <= i < |h + later| :: (h + later)[i] <= now
  {
  }

  // What a reader finds. One whose clock is behind the last acquisition's finds everything that is left.
  lemma ReadTracks(rows: seq<int>, kept: seq<int>, h: seq<int>, clock: int, now: int, limit: int, width: int)
    requires Tracks(rows, h, clock, limit, width)
    requires |kept| <= |rows| && kept == rows[|rows| - |kept|..]
    requires forall i | 0 <= i < |rows| :: rows[i] < now - width <==> i < |rows| - |kept|
    ensures var at := if now < clock then clock else now;
            Tracks(kept, h, at, limit, width) && InWindow(h, at - width, at) == kept
  {
    if now < clock {
      assert rows != [] ==> rows[0] >= now - width;
    }
    SweepTracks(rows, kept, h, clock, if now < clock then clock else now, limit, width);
  }

  lemma NothingTracked(now: int, limit: int, width: int)
    ensures Tracks([], [], now, limit, width) && InWindow([], now - width, now) == []
  {
  }

  class SupplierLimiter {
    const limits: string -> int
    const windowMs: nat
    var calls: map<string, seq<int>>           // the table, by supplier
    ghost var history: map<string, seq<int>>   // every stamp ever inserted
    ghost var clocks: map<string, int>         // the last clock seen under each supplier's lock

    function Width(): int {
      windowMs + SAFETY_MS
    }

    ghost predicate Fits(supplier: string, now: int)
      reads this
    {
      supplier in clocks ==> clocks[supplier] <= now
    }

    // The moment a reader whose clock shows `now` sees the table at.
    ghost function AsOf(supplier: string, now: int): int
      reads this
    {
      if supplier in clocks && now < clocks[supplier] then clocks[supplier] else now
    }

    ghost predicate SupplierOk(supplier: string)
      reads this
    {
      var h := At(history, supplier);
      if supplier in clocks then Tracks(At(calls, supplier), h, clocks[supplier], limits(supplier), Width())
      else h == [] && At(calls, supplier) == []
    }

    ghost predicate Valid()
      reads this
    {
      forall s :: SupplierOk(s)
    }

    constructor (limits: string -> int, windowMs: nat)
      ensures Valid() && history == map[] && this.limits == limits && this.windowMs == windowMs
    {
      this.limits, this.windowMs := limits, windowMs;
      calls, history, clocks := map[], map[], map[];
    }

    // DELETE ... WHERE at < threshold
    static method Swept(rows: seq<int>, threshold: int) returns (kept: seq<int>)
      requires Sorted(rows)
      ensures |kept| <= |rows| && kept == rows[|rows| - |kept|..]
      ensures forall i | 0 <= i < |rows| :: rows[i] < threshold <==> i < |rows| - |kept|
    {
      kept := [];
      ghost var dropped := 0;
      for k := 0 to |rows|
        invariant |kept| <= k && kept == rows[k - |kept|..k]
        invariant forall i | 0 <= i < k :: rows[i] < threshold <==> i < k - |kept|
      {
        assert k > 0 ==> rows[k - 1] <= rows[k];
        if rows[k] >= threshold {
          kept := kept + [rows[k]];
        }
      }
    }

    // All `cost` stamps are added, or the table is only swept.
    method TryAcquire(supplier: string, cost: nat, now: int) returns (slot: Slot)
      requires Valid() && Fits(supplier, now)
      modifies this
      ensures Valid()
      ensures limits(supplier) <= 0 ==> slot.Granted? && history == old(history)
      ensures limits(supplier) > 0 ==>
                var h, h', w := old(At(history, supplier)), At(history, supplier), InWindow(old(At(history, supplier)), now - Width(), now);
                var n := if cost <= limits(supplier) then cost else limits(supplier);
                && supplier in clocks && clocks[supplier] == now
                && (slot.Granted? <==> |w| + n <= limits(supplier))
                && history == old(history)[supplier := h'] && h <= h'
                && |h'| == |h| + (if slot.Granted? then n else 0)
                && (forall i | |h| <= i < |h'| :: h'[i] == now)
                && At(calls, supplier) == InWindow(At(history, supplier), now - Width(), now)
                && (slot.Refused? ==> w != [] && slot.nextSlotAt == w[0] + Width() >= now)
      ensures calls == old(calls)[supplier := At(calls, supplier)] || limits(supplier) <= 0
    {
      hide Tracks, InWindow, SupplierOk, Sorted;
      var limit := limits(supplier);
      if limit <= 0 {
        return Granted;
      }
      var taken := Min(cost, limit);
      var rows := Unexpired(supplier, now);
      ghost var h := At(history, supplier);
      if |rows| + taken <= limit {
        GrantTracks(rows, h, now, limit, Width(), taken);
        Store(supplier, rows + Repeat(now, taken), h + Repeat(now, taken), now);
        return Granted;
      }
      Store(supplier, rows, h, now);
      return Refused(rows[0] + Width());
    }

    // The rows a reader whose clock shows `now` finds in the window. Those that the last acquisition
    // swept away are gone, even for a clock behind its own.
    method Unexpired(supplier: string, now: int) returns (rows: seq<int>)
      requires Valid()
      ensures var at := AsOf(supplier, now);
              && Tracks(rows, At(history, supplier), at, limits(supplier), Width())
              && rows == InWindow(At(history, supplier), at - Width(), at)
      ensures rows != [] ==> rows[0] >= now - Width()
    {
      hide Tracks, InWindow;
      assert SupplierOk(supplier);
      TracksSorted(supplier);
      rows := Swept(At(calls, supplier), now - Width());
      if supplier in clocks {
        ReadTracks(At(calls, supplier), rows, At(history, supplier), clocks[supplier], now, limits(supplier), Width());
      } else {
        NothingTracked(now, limits(supplier), Width());
      }
      assert rows != [] ==> rows[0] in rows;
    }

    // What the transaction leaves of this supplier's rows.
    method Store(supplier: string, rows: seq<int>, ghost h: seq<int>, now: int)
      requires Valid() && Tracks(rows, h, now, limits(supplier), Width())
      modifies this
      ensures Valid()
      ensures calls == old(calls)[supplier := rows] && clocks == old(clocks)[supplier := now]
      ensures history == old(history)[supplier := h]
    {
      hide Tracks;
      calls, history, clocks := calls[supplier := rows], history[supplier := h], clocks[supplier := now];
      forall s | s != supplier ensures SupplierOk(s) {
        assert old(SupplierOk(s));
      }
    }

    // How full the window is, and when it next has room. No lock is taken: `now` is the database's
    // clock, which may be behind the last acquisition's, and `shown` the process's own.
    method ReadUsage(supplier: string, now: int, shown: int) returns (u: Usage)
      requires Valid()
      ensures var w := InWindow(At(history, supplier), AsOf(supplier, now) - Width(), AsOf(supplier, now));
              && u.used == |w|
              && (limits(supplier) > 0 ==>
                    && u.available == (if u.used < limits(supplier) then limits(supplier) - u.used else 0)
                    && (u.available > 0 <==> Admits(At(history, supplier), limits(supplier), Width(), 1, AsOf(supplier, now)))
                    && u.nextSlotIn == if u.available > 0 || w[0] + Width() < shown then 0 else w[0] + Width() - shown)
    {
      hide Tracks, InWindow, Repeat, SupplierOk;
      var rows := Unexpired(supplier, now);
      var limit := limits(supplier);
      return Usage(|rows|, Max(0, limit - |rows|),
                   if limit > 0 && |rows| >= limit then Max(0, rows[0] + Width() - shown) else 0);
    }

    lemma TracksSorted(supplier: string)
      requires SupplierOk(supplier)
      ensures Sorted(At(calls, supplier))
    {
    }

    // What the supplier is promised.
    lemma NeverMoreThanTheLimit(supplier: string, from: int)
      requires Valid() && limits(supplier) > 0
      ensures |InWindow(At(history, supplier), from, from + windowMs + 100)| <= limits(supplier)
    {
      assert SupplierOk(supplier);
      if supplier in clocks {
        SpacedIsBounded(At(history, supplier), limits(supplier), Width(), from);
      }
    }
  }

  // ---- What a refusal promises ----

  // Until the slot time given, whatever others take meanwhile, nothing of that cost fits.
  lemma RefusedUntilThen(h: seq<int>, later: seq<int>, limit: int, width: int, cost: int, now: int, cost': int, now': int)
    requires limit > 0 && !Admits(h, limit, width, cost, now) && cost <= cost'
    requires InWindow(h, now - width, now) != []
    requires Sorted(h) && now <= now' <= InWindow(h, now - width, now)[0] + width
    ensures !Admits(h + later, limit, width, cost', now')
  {
    hide InWindow, Sorted;
    var w := InWindow(h, now - width, now);
    WindowConcat(h, later, now' - width, now');
    FromTheOldest(h, now - width, now);
    WiderWindow(h, w[0], now, now' - width, now');
  }

  // Narrowing a window to its oldest stamp loses nothing.
  lemma FromTheOldest(h: seq<int>, from: int, to: int)
    requires Sorted(h) && InWindow(h, from, to) != []
    ensures InWindow(h, InWindow(h, from, to)[0], to) == InWindow(h, from, to)
  {
    hide InWindow;
    var w := InWindow(h, from, to);
    var i, j := WindowIsSlice(h, from, to);
    assert w[0] in w;
    forall k | 0 <= k < |h| && from <= h[k] <= to ensures h[k] >= w[0] {
      InTheWindow(h, k, from, to);
      var x :| i <= x < j && h[x] == h[k];
    }
    SameStamps(h, from, w[0], to);
  }

  lemma {:induction false} SameStamps(h: seq<int>, from: int, from': int, to: int)
    requires forall k | 0 <= k < |h| :: from <= h[k] <= to <==> from' <= h[k] <= to
    ensures InWindow(h, from, to) == InWindow(h, from', to)
  {
    if h != [] {
      SameStamps(h[..|h| - 1], from, from', to);
    }
  }

  // Once the newest stamp has left the window everything fits.
  lemma AdmittedAfterTheNewest(h: seq<int>, limit: int, width: int, cost: int, now: int)
    requires limit > 0 && Sorted(h) && (h != [] ==> h[|h| - 1] + width < now)
    ensures Admits(h, limit, width, cost, now)
  {
    WindowOfNone(h, now - width, now);
  }
}
