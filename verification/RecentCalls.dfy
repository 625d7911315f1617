// The 60-second window of completed upstream calls, per second and credential.
module RecentCalls {
  import opened UsageTotals
  import opened Collections

  // Seconds.
  function RpmWindow(): int { 60 }

  type Recent = map<int, map<nat, nat>>

  function CountAt(recent: Recent, t: int, c: nat): nat {
    if t in recent && c in recent[t] then recent[t][c] else 0
  }

  // The event is a call of credential `c` in (lo, hi] that was not in the future when ingested.
  predicate Counts(e: Event, lo: int, hi: int, c: nat) {
    && e.rec.credentialId == c
    && lo < e.Time() <= hi
    && e.Time() <= e.now
  }

  // Count over the whole log: the reference answer.
  function Calls(log: seq<Event>, lo: int, hi: int, c: nat): nat {
    if log == [] then 0
    else Calls(log[..|log| - 1], lo, hi, c) + if Counts(log[|log| - 1], lo, hi, c) then 1 else 0
  }

  // No clock reading in the log is later than `bound`.
  predicate Bounded(log: seq<Event>, bound: int) {
    forall i :: 0 <= i < |log| ==> log[i].now <= bound
  }

  // What the window map must be, given everything ever ingested. The clock may have moved
  // backwards at any point: the map is only known to be exact for the last RpmWindow() seconds before
  // a bound on all readings, and never to count too much.
  ghost predicate RecentOk(recent: Recent, log: seq<Event>) {
    && (forall t, c :: c != 0 ==> CountAt(recent, t, c) <= Calls(log, t - 1, t, c))
    && (forall bound, t, c :: c != 0 && Bounded(log, bound) && t > bound - RpmWindow() ==>
          CountAt(recent, t, c) == Calls(log, t - 1, t, c))
    && (forall bound, t :: Bounded(log, bound) && t in recent ==> t <= bound)
    && (forall t, u :: t in recent && u in recent ==> t - u < RpmWindow())
    && (forall t, c :: t in recent && c in recent[t] ==> c != 0 && recent[t][c] > 0)
  }

  // The last key of the ordered map, or `floor` when every key is smaller.
  method LatestKey(recent: Recent, floor: int) returns (latest: int)
    ensures latest == floor || latest in recent
    ensures floor <= latest
    ensures forall t :: t in recent ==> t <= latest
  {
    latest := floor;
    var todo := recent.Keys;
    while todo != {}
      invariant todo <= recent.Keys
      invariant latest == floor || latest in recent
      invariant floor <= latest
      invariant forall t :: t in recent && t !in todo ==> t <= latest
      decreases |todo|
    {
      var t := AnyMember(todo);
      if t > latest { latest := t; }
      todo := todo - {t};
    }
  }

  function Bump(recent: Recent, t: int, c: nat): Recent {
    var counts := if t in recent then recent[t] else map[];
    recent[t := counts[c := CountAt(recent, t, c) + 1]]
  }

  // Drops what has left the window as seen from the latest of the clock and the recorded calls,
  // then records this call if it is inside the window and not in the future.
  method RecordRecent(recent: Recent, rec: UsageRecord, now: int, ghost log: seq<Event>) returns (out: Recent)
    requires RecentOk(recent, log)
    ensures RecentOk(out, log + [Event(rec, now)])
  {
    hide RecentOk, Bump;
    var latest := LatestKey(recent, now);
    var cutoff := latest - RpmWindow();
    out := map t | t in recent && t > cutoff :: recent[t];
    ghost var kept := out;
    var requestTs := if rec.ts.Some? then rec.ts.value else now;
    if rec.credentialId != 0 && requestTs > cutoff && requestTs <= now {
      out := Bump(out, requestTs, rec.credentialId);
    }
    WindowMoves(recent, log, Event(rec, now), latest, kept, out);
  }

  lemma WindowMoves(recent: Recent, log: seq<Event>, e: Event, latest: int, kept: Recent, out: Recent)
    requires RecentOk(recent, log) && e.now <= latest && (latest == e.now || latest in recent)
    requires forall t :: t in recent ==> t <= latest
    requires kept == map t | t in recent && t > latest - RpmWindow() :: recent[t]
    requires out == if e.rec.credentialId != 0 && latest - RpmWindow() < e.Time() <= e.now
                    then Bump(kept, e.Time(), e.rec.credentialId) else kept
    ensures RecentOk(out, log + [e])
  {
    BoundsAppend(log, e);
    forall t, c | c != 0
      ensures CountAt(out, t, c) <= Calls(log + [e], t - 1, t, c)
      ensures forall bound :: Bounded(log + [e], bound) && t > bound - RpmWindow() ==>
        CountAt(out, t, c) == Calls(log + [e], t - 1, t, c)
    {
      CallsAppend(log, e, t - 1, t, c);
      assert CountAt(recent, t, c) <= Calls(log, t - 1, t, c);
      assert CountAt(kept, t, c) == if t > latest - RpmWindow() then CountAt(recent, t, c) else 0;
      assert CountAt(out, t, c)
          == CountAt(kept, t, c) + if Counts(e, t - 1, t, c) && t > latest - RpmWindow() then 1 else 0;
    }
  }

  lemma CallsAppend(log: seq<Event>, e: Event, lo: int, hi: int, c: nat)
    ensures Calls(log + [e], lo, hi, c) == Calls(log, lo, hi, c) + if Counts(e, lo, hi, c) then 1 else 0
  {
    assert (log + [e])[..|log|] == log;
  }

  lemma BoundsAppend(log: seq<Event>, e: Event)
    ensures forall bound :: Bounded(log + [e], bound) <==> Bounded(log, bound) && e.now <= bound
  {
    forall bound ensures Bounded(log + [e], bound) <==> Bounded(log, bound) && e.now <= bound {
      if Bounded(log + [e], bound) {
        assert (log + [e])[|log|].now <= bound;
        forall i | 0 <= i < |log| ensures log[i].now <= bound {
          assert (log + [e])[i].now <= bound;
        }
      }
    }
  }

  // The keys lie within one window, so there are at most 60 of them.
  lemma RecentSize(recent: Recent, log: seq<Event>)
    requires RecentOk(recent, log)
    ensures |recent| <= 60
  {
    if recent.Keys != {} {
      var low := Smallest(recent.Keys);
      var span := Span(low, RpmWindow());
      assert recent.Keys <= span;
      assert span == recent.Keys + (span - recent.Keys);
      assert |recent| == |recent.Keys|;
    }
  }

  lemma {:induction false} Smallest(s: set<int>) returns (low: int)
    requires s != {}
    ensures low in s && forall t :: t in s ==> low <= t
    decreases |s|
  {
    var x := SomeMember(s);
    var rest := s - {x};
    if rest == {} {
      assert s == {x};
      low := x;
    } else {
      low := Smallest(rest);
      assert forall t :: t in s ==> t == x || t in rest;
      if x < low { low := x; }
    }
  }

  function Span(low: int, n: nat): (s: set<int>)
    ensures |s| == n
    ensures forall t :: t in s <==> low <= t < low + n
  {
    if n == 0 then {} else Span(low, n - 1) + {low + n - 1}
  }

  // Adding up the map's seconds in (lo, hi].
  function WindowCount(recent: Recent, lo: int, hi: int, c: nat): nat
    decreases hi - lo
  {
    if hi <= lo then 0 else WindowCount(recent, lo, hi - 1, c) + CountAt(recent, hi, c)
  }

  lemma {:induction false} CallsSplit(log: seq<Event>, lo: int, mid: int, hi: int, c: nat)
    requires lo <= mid <= hi
    ensures Calls(log, lo, hi, c) == Calls(log, lo, mid, c) + Calls(log, mid, hi, c)
  {
    if log != [] {
      CallsSplit(log[..|log| - 1], lo, mid, hi, c);
    }
  }

  lemma {:induction false} CallsNone(log: seq<Event>, lo: int, hi: int, c: nat)
    requires hi <= lo
    ensures Calls(log, lo, hi, c) == 0
  {
    if log != [] {
      CallsNone(log[..|log| - 1], lo, hi, c);
    }
  }

  // The map never counts a call twice or one outside the range.
  lemma {:induction false} WindowAtMost(recent: Recent, log: seq<Event>, lo: int, hi: int, c: nat)
    requires RecentOk(recent, log) && c != 0
    ensures WindowCount(recent, lo, hi, c) <= Calls(log, lo, hi, c)
    decreases hi - lo
  {
    if hi > lo {
      WindowAtMost(recent, log, lo, hi - 1, c);
      CallsSplit(log, lo, hi - 1, hi, c);
    }
  }

  // And it misses none of the last RpmWindow() seconds before a bound on the readings.
  lemma {:induction false} WindowExact(recent: Recent, log: seq<Event>, bound: int, lo: int, hi: int, c: nat)
    requires RecentOk(recent, log) && c != 0
    requires Bounded(log, bound) && bound - RpmWindow() <= lo
    ensures WindowCount(recent, lo, hi, c) == Calls(log, lo, hi, c)
    decreases hi - lo
  {
    if hi > lo {
      WindowExact(recent, log, bound, lo, hi - 1, c);
      CallsSplit(log, lo, hi - 1, hi, c);
    } else {
      CallsNone(log, lo, hi, c);
    }
  }

  // For a query at any time `q` whatever: nothing is counted that should not be, and nothing is
  // missed that is within RpmWindow() of both `q` and every clock reading.
  lemma WindowBounds(recent: Recent, log: seq<Event>, bound: int, q: int, c: nat)
    requires RecentOk(recent, log) && c != 0 && Bounded(log, bound)
    ensures WindowCount(recent, q - RpmWindow(), q, c) <= Calls(log, q - RpmWindow(), q, c)
    ensures Calls(log, (if q < bound then bound else q) - RpmWindow(), q, c)
        <= WindowCount(recent, q - RpmWindow(), q, c)
  {
    var lo := (if q < bound then bound else q) - RpmWindow();
    WindowAtMost(recent, log, q - RpmWindow(), q, c);
    WindowExact(recent, log, bound, lo, q, c);
    WindowShrinks(recent, q - RpmWindow(), lo, q, c);
  }

  lemma {:induction false} WindowShrinks(recent: Recent, lo: int, mid: int, hi: int, c: nat)
    requires lo <= mid
    ensures WindowCount(recent, mid, hi, c) <= WindowCount(recent, lo, hi, c)
    decreases hi - mid
  {
    if hi > mid {
      WindowShrinks(recent, lo, mid, hi - 1, c);
    }
  }
}
