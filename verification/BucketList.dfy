// The bounded bucket list: sorted by time, oldest evicted first.
module BucketList {
  import opened UsageTotals
  import opened UsageBuckets
  import opened Wrappers

  function TimesOf(buckets: seq<Bucket>): (ts: seq<int>)
    ensures |ts| == |buckets|
    ensures forall i :: 0 <= i < |ts| ==> ts[i] == buckets[i].ts
  {
    seq(|buckets|, i requires 0 <= i < |buckets| => buckets[i].ts)
  }

  predicate Sorted(ts: seq<int>) {
    forall i, j :: 0 <= i < j < |ts| ==> ts[i] < ts[j]
  }

  // `ts` keeps the largest times of `seen`, up to `max` of them: a time is missing only when the
  // list is full of strictly later ones.
  predicate KeepsLatest(ts: seq<int>, seen: set<int>, max: nat) {
    && Sorted(ts)
    && |ts| <= max
    && (forall i :: 0 <= i < |ts| ==> ts[i] in seen)
    && (forall t :: t in seen && t !in ts ==> |ts| == max && forall i :: 0 <= i < |ts| ==> t < ts[i])
  }

  ghost predicate AllGroupBy(buckets: seq<Bucket>, log: seq<Event>, clock: int -> int) {
    forall i :: 0 <= i < |buckets| ==> IsGroupBy(buckets[i], log, clock)
  }

  // What a bucket list must be, given everything ever logged.
  ghost predicate Represents(buckets: seq<Bucket>, log: seq<Event>, clock: int -> int, max: nat) {
    && KeepsLatest(TimesOf(buckets), Times(log, clock), max)
    && AllGroupBy(buckets, log, clock)
  }

  // Buckets of other times are unaffected by an event.
  lemma OtherTime(b: Bucket, log: seq<Event>, e: Event, clock: int -> int)
    requires IsGroupBy(b, log, clock) && clock(e.Time()) != b.ts
    ensures IsGroupBy(b, log + [e], clock)
  {
    forall f: Filter | f.time == In({b.ts}) ensures Total(log + [e], clock, f) == Total(log, clock, f) {
      TotalAppend(log, e, clock, f);
    }
    assert KeysOk(b.byKey, b.ts, log + [e], clock);
    assert ModelsOk(b.byModel, b.ts, log + [e], clock);
    assert KeyModelsOk(b.byKeyModel, b.ts, log + [e], clock);
    assert CredentialsOk(b.byCredential, b.ts, log + [e], clock);
    assert KeyCredentialsOk(b.byKeyCredential, b.ts, log + [e], clock);
  }

  // A bucket with empty maps is the group-by of a time that was never logged.
  function EmptyBucket(ts: int): Bucket {
    Bucket(ts, Zero(), map[], map[], map[], map[], map[])
  }

  lemma EmptyIsGroupBy(ts: int, log: seq<Event>, clock: int -> int)
    requires ts !in Times(log, clock)
    ensures IsGroupBy(EmptyBucket(ts), log, clock)
  {
    forall f: Filter | f.time == In({ts}) ensures Total(log, clock, f) == Zero() {
      forall i | 0 <= i < |log| ensures !Selects(f, clock, log[i]) {
        assert log[i] in log;
      }
      TotalEmpty(log, clock, f);
    }
    var b := EmptyBucket(ts);
    assert KeysOk(b.byKey, ts, log, clock);
    assert ModelsOk(b.byModel, ts, log, clock);
    assert KeyModelsOk(b.byKeyModel, ts, log, clock);
    assert CredentialsOk(b.byCredential, ts, log, clock);
    assert KeyCredentialsOk(b.byKeyCredential, ts, log, clock);
  }

  function Inserted<T>(s: seq<T>, k: nat, x: T): (r: seq<T>)
    requires k <= |s|
    ensures |r| == |s| + 1 && r[k] == x
    ensures forall i :: 0 <= i < k ==> r[i] == s[i]
    ensures forall i :: k < i < |r| ==> r[i] == s[i - 1]
  {
    s[..k] + [x] + s[k..]
  }

  // Sorting a list whose last element was just pushed onto a sorted rest: the element moves to
  // its place `k`, everything else keeps its order.
  method SortByTime(buckets: seq<Bucket>) returns (sorted: seq<Bucket>, ghost k: nat)
    requires |buckets| > 0 && Sorted(TimesOf(buckets[..|buckets| - 1]))
    requires buckets[|buckets| - 1].ts !in TimesOf(buckets[..|buckets| - 1])
    ensures k < |buckets|
    ensures sorted == Inserted(buckets[..|buckets| - 1], k, buckets[|buckets| - 1])
    ensures Sorted(TimesOf(sorted))
  {
    var init, last := buckets[..|buckets| - 1], buckets[|buckets| - 1];
    ghost var ts := TimesOf(init);
    var j := |init|;
    while j > 0 && init[j - 1].ts > last.ts
      invariant 0 <= j <= |init|
      invariant forall i :: j <= i < |init| ==> last.ts < ts[i]
    {
      j := j - 1;
    }
    k := j;
    sorted := init[..j] + [last] + init[j..];
    assert j > 0 ==> ts[j - 1] != last.ts;
    InsertedSorted(ts, k, last.ts);
    InsertedTimes(init, k, last);
  }

  lemma InsertedTimes(s: seq<Bucket>, k: nat, b: Bucket)
    requires k <= |s|
    ensures TimesOf(Inserted(s, k, b)) == Inserted(TimesOf(s), k, b.ts)
  {
  }

  lemma InsertedSorted(s: seq<int>, k: nat, x: int)
    requires k <= |s| && Sorted(s)
    requires forall i :: k <= i < |s| ==> x < s[i]
    requires k > 0 ==> s[k - 1] < x
    ensures Sorted(Inserted(s, k, x))
  {
    forall i | 0 <= i < k ensures s[i] < x {
      assert s[i] <= s[k - 1];
    }
  }

  // Inserting a time already evicted puts it first, where it is evicted again at once.
  lemma LateTimeEvicted(ts: seq<int>, seen: set<int>, max: nat, k: nat, t: int)
    requires KeepsLatest(ts, seen, max) && k <= |ts|
    requires t in seen && t !in ts && Sorted(Inserted(ts, k, t))
    ensures |ts| == max && k == 0
  {
    var front := Inserted(ts, k, t)[0];
  }

  lemma InsertedMembers(ts: seq<int>, k: nat, t: int)
    requires k <= |ts|
    ensures forall u :: u in Inserted(ts, k, t) <==> u == t || u in ts
  {
    var full := Inserted(ts, k, t);
    forall u ensures u in full <==> u == t || u in ts {
      assert full[k] == t;
      if u in ts {
        var i :| 0 <= i < |ts| && ts[i] == u;
        assert full[if i < k then i else i + 1] == u;
      }
    }
  }

  // A new time is kept when there is room; otherwise the smallest goes.
  lemma NewTimeKept(ts: seq<int>, seen: set<int>, max: nat, k: nat, t: int)
    requires KeepsLatest(ts, seen, max) && k <= |ts|
    requires t !in seen && Sorted(Inserted(ts, k, t))
    ensures |ts| < max ==> KeepsLatest(Inserted(ts, k, t), seen + {t}, max)
    ensures |ts| == max ==> KeepsLatest(Inserted(ts, k, t)[1..], seen + {t}, max)
  {
    InsertedMembers(ts, k, t);
    if |ts| == max {
      NewTimeOverfills(ts, seen, max, k, t);
    }
  }

  lemma {:induction false} NewTimeOverfills(ts: seq<int>, seen: set<int>, max: nat, k: nat, t: int)
    requires KeepsLatest(ts, seen, max) && k <= |ts| == max
    requires t !in seen && Sorted(Inserted(ts, k, t))
    ensures KeepsLatest(Inserted(ts, k, t)[1..], seen + {t}, max)
  {
    InsertedMembers(ts, k, t);
    var full := Inserted(ts, k, t);
    var out := full[1..];
    assert full == [full[0]] + out;
    assert forall i :: 0 <= i < |out| ==> full[0] < out[i];
    if k == 0 {
      assert out == ts;
    } else {
      assert full[0] == ts[0];
    }
    forall u | u in seen + {t} && u !in out
      ensures forall i :: 0 <= i < |out| ==> u < out[i]
    {
      assert u == full[0] || (u in seen && u !in ts);
    }
  }

  lemma {:induction false} InsertedGroupBy(buckets: seq<Bucket>, k: nat, entry: Bucket, log: seq<Event>, e: Event,
                                           clock: int -> int)
    requires k <= |buckets| && AllGroupBy(buckets, log, clock)
    requires clock(e.Time()) !in TimesOf(buckets) && IsGroupBy(entry, log + [e], clock)
    ensures AllGroupBy(Inserted(buckets, k, entry), log + [e], clock)
  {
    OtherTimes(buckets, log, e, clock);
    var full := Inserted(buckets, k, entry);
    forall j | 0 <= j < |full| ensures IsGroupBy(full[j], log + [e], clock) {
      if j != k {
        assert full[j] == buckets[if j < k then j else j - 1];
      }
    }
  }

  lemma OtherTimes(buckets: seq<Bucket>, log: seq<Event>, e: Event, clock: int -> int)
    requires AllGroupBy(buckets, log, clock) && clock(e.Time()) !in TimesOf(buckets)
    ensures AllGroupBy(buckets, log + [e], clock)
  {
    forall j | 0 <= j < |buckets| ensures IsGroupBy(buckets[j], log + [e], clock) {
      assert TimesOf(buckets)[j] == buckets[j].ts;
      OtherTime(buckets[j], log, e, clock);
    }
  }

  lemma {:induction false} UpdatedGroupBy(buckets: seq<Bucket>, i: nat, b: Bucket, log: seq<Event>, e: Event,
                                          clock: int -> int)
    requires i < |buckets| && Sorted(TimesOf(buckets)) && AllGroupBy(buckets, log, clock)
    requires b.ts == buckets[i].ts == clock(e.Time()) && IsGroupBy(b, log + [e], clock)
    ensures AllGroupBy(buckets[i := b], log + [e], clock)
    ensures TimesOf(buckets[i := b]) == TimesOf(buckets)
  {
    hide IsGroupBy;
    forall j | 0 <= j < |buckets| && j != i ensures IsGroupBy(buckets[j], log + [e], clock) {
      assert TimesOf(buckets)[j] != TimesOf(buckets)[i];
      OtherTime(buckets[j], log, e, clock);
    }
  }

  // Writing to an existing bucket.
  lemma UpdateRepresents(buckets: seq<Bucket>, i: nat, b: Bucket, log: seq<Event>, e: Event, clock: int -> int,
                         max: nat)
    requires Represents(buckets, log, clock, max)
    requires i < |buckets| && b.ts == buckets[i].ts == clock(e.Time()) && IsGroupBy(b, log + [e], clock)
    ensures Represents(buckets[i := b], log + [e], clock, max)
  {
    hide AllGroupBy, IsGroupBy;
    TimesAppend(log, e, clock);
    UpdatedGroupBy(buckets, i, b, log, e, clock);
    assert TimesOf(buckets)[i] in Times(log, clock);
    assert Times(log + [e], clock) == Times(log, clock);
  }

  // A record for a time already evicted is inserted at the front and evicted again at once, so it
  // never leaves a partial bucket behind.
  lemma {:induction false} LateRepresents(buckets: seq<Bucket>, k: nat, entry: Bucket, log: seq<Event>, e: Event,
                                          clock: int -> int, max: nat)
    requires Represents(buckets, log, clock, max)
    requires k <= |buckets| && entry.ts == clock(e.Time()) && entry.ts !in TimesOf(buckets)
    requires entry.ts in Times(log, clock)
    requires Sorted(TimesOf(Inserted(buckets, k, entry)))
    ensures |buckets| == max && Inserted(buckets, k, entry)[1..] == buckets
    ensures Represents(buckets, log + [e], clock, max)
  {
    InsertedTimes(buckets, k, entry);
    LateTimeEvicted(TimesOf(buckets), Times(log, clock), max, k, entry.ts);
    TimesAppend(log, e, clock);
    assert Times(log + [e], clock) == Times(log, clock);
    OtherTimes(buckets, log, e, clock);
  }

  // A record for a time never seen before.
  lemma {:induction false} NewRepresents(buckets: seq<Bucket>, k: nat, entry: Bucket, log: seq<Event>, e: Event,
                                         clock: int -> int, max: nat)
    requires Represents(buckets, log, clock, max)
    requires k <= |buckets| && entry.ts == clock(e.Time()) && entry.ts !in TimesOf(buckets)
    requires entry.ts !in Times(log, clock) && IsGroupBy(entry, log + [e], clock)
    requires Sorted(TimesOf(Inserted(buckets, k, entry)))
    ensures |buckets| < max ==> Represents(Inserted(buckets, k, entry), log + [e], clock, max)
    ensures |buckets| == max ==> Represents(Inserted(buckets, k, entry)[1..], log + [e], clock, max)
  {
    var full := Inserted(buckets, k, entry);
    TimesAppend(log, e, clock);
    InsertedTimes(buckets, k, entry);
    NewTimeKept(TimesOf(buckets), Times(log, clock), max, k, entry.ts);
    InsertedGroupBy(buckets, k, entry, log, e, clock);
    TailGroupBy(full, log + [e], clock);
  }

  lemma TailGroupBy(buckets: seq<Bucket>, log: seq<Event>, clock: int -> int)
    requires buckets != [] && AllGroupBy(buckets, log, clock)
    ensures AllGroupBy(buckets[1..], log, clock)
    ensures TimesOf(buckets[1..]) == TimesOf(buckets)[1..]
  {
  }

  lemma BucketIsGroupBy(buckets: seq<Bucket>, i: nat, log: seq<Event>, clock: int -> int, max: nat)
    requires Represents(buckets, log, clock, max) && i < |buckets|
    ensures IsGroupBy(buckets[i], log, clock)
  {
  }

  // Writes a record to the bucket of its time, creating and sorting in a bucket when there is
  // none, and evicting from the front while the list is over capacity.
  method UpsertBucket(buckets: seq<Bucket>, ts: int, rec: UsageRecord, max: nat,
                      ghost now: int, ghost log: seq<Event>, ghost clock: int -> int)
    returns (out: seq<Bucket>)
    requires ts == clock(Event(rec, now).Time())
    requires Represents(buckets, log, clock, max)
    ensures Represents(out, log + [Event(rec, now)], clock, max)
  {
    hide *;
    ghost var e := Event(rec, now);
    var i := 0;
    while i < |buckets| && buckets[i].ts != ts
      invariant 0 <= i <= |buckets|
      invariant forall j :: 0 <= j < i ==> buckets[j].ts != ts
    {
      i := i + 1;
    }
    if i < |buckets| {
      BucketIsGroupBy(buckets, i, log, clock, max);
      var b := AddRecordToBucket(buckets[i], rec, now, log, clock);
      UpdateRepresents(buckets, i, b, log, e, clock, max);
      out := buckets[i := b];
    } else {
      out := InsertBucket(buckets, ts, rec, max, now, log, clock);
    }
  }

  method InsertBucket(buckets: seq<Bucket>, ts: int, rec: UsageRecord, max: nat,
                      ghost now: int, ghost log: seq<Event>, ghost clock: int -> int)
    returns (out: seq<Bucket>)
    requires ts == clock(Event(rec, now).Time()) && ts !in TimesOf(buckets)
    requires Represents(buckets, log, clock, max)
    ensures Represents(out, log + [Event(rec, now)], clock, max)
  {
    ghost var e := Event(rec, now);
    ghost var before := if ts in Times(log, clock) then [] else log;
    EmptyIsGroupBy(ts, before, clock);
    var entry := AddRecordToBucket(EmptyBucket(ts), rec, now, before, clock);
    ghost var k;
    assert (buckets + [entry])[..|buckets|] == buckets;
    out, k := SortByTime(buckets + [entry]);
    ghost var full := out;
    while |out| > max
      invariant out == full || (|full| == max + 1 && out == full[1..])
    {
      out := out[1..];
    }
    if ts in Times(log, clock) {
      LateRepresents(buckets, k, entry, log, e, clock, max);
    } else {
      NewRepresents(buckets, k, entry, log, e, clock, max);
    }
  }

  function Later(seen: set<int>, t: int): set<int> {
    set u | u in seen && u > t
  }

  // The `max` largest members: those with fewer than `max` larger ones.
  function Retained(seen: set<int>, max: nat): set<int> {
    set t | t in seen && |Later(seen, t)| < max
  }

  function Elements(ts: seq<int>): set<int> {
    set t | t in ts
  }

  lemma {:induction false} SortedElements(ts: seq<int>)
    requires Sorted(ts)
    ensures |Elements(ts)| == |ts|
  {
    if ts != [] {
      SortedElements(ts[1..]);
      assert ts == [ts[0]] + ts[1..];
      assert Elements(ts) == {ts[0]} + Elements(ts[1..]);
    }
  }

  lemma SubsetSize(a: set<int>, b: set<int>)
    requires a <= b
    ensures |a| <= |b|
  {
    assert b == a + (b - a);
  }

  // The bucket list holds exactly the `max` largest distinct times ever seen.
  lemma KeepsExactlyRetained(ts: seq<int>, seen: set<int>, max: nat)
    requires KeepsLatest(ts, seen, max)
    ensures Elements(ts) == Retained(seen, max)
  {
    forall t | t in seen ensures t in ts <==> |Later(seen, t)| < max {
      if t in ts {
        KeptHasFewLater(ts, seen, max, t);
      } else {
        SortedElements(ts);
        assert Elements(ts) <= Later(seen, t);
        SubsetSize(Elements(ts), Later(seen, t));
      }
    }
  }

  lemma KeptHasFewLater(ts: seq<int>, seen: set<int>, max: nat, t: int)
    requires KeepsLatest(ts, seen, max) && t in ts
    ensures |Later(seen, t)| < max
  {
    var i :| 0 <= i < |ts| && ts[i] == t;
    var tail := ts[i + 1..];
    SortedElements(tail);
    forall u | u in Later(seen, t) ensures u in tail {
      var j :| 0 <= j < |ts| && ts[j] == u;
      assert u == tail[j - i - 1];
    }
    assert Later(seen, t) <= Elements(tail);
    SubsetSize(Later(seen, t), Elements(tail));
  }

  lemma {:induction false} SortedUnique(a: seq<int>, b: seq<int>)
    requires Sorted(a) && Sorted(b) && Elements(a) == Elements(b)
    ensures a == b
  {
    SortedElements(a);
    SortedElements(b);
    if a != [] {
      assert a[0] in Elements(b) && b[0] in Elements(a);
      assert a[0] == b[0];
      assert a == [a[0]] + a[1..] && b == [b[0]] + b[1..];
      forall t ensures t in Elements(a[1..]) <==> t in Elements(b[1..]) {
        assert t in Elements(a) <==> t == a[0] || t in Elements(a[1..]);
        assert t in Elements(b) <==> t == b[0] || t in Elements(b[1..]);
        assert a[0] !in a[1..] && b[0] !in b[1..];
      }
      SortedUnique(a[1..], b[1..]);
    }
  }

  // Two logs with the same events, in any order, leave equal bucket lists.
  lemma RepresentsUnique(a: seq<Bucket>, logA: seq<Event>, b: seq<Bucket>, logB: seq<Event>, clock: int -> int,
                         max: nat)
    requires multiset(logA) == multiset(logB)
    requires Represents(a, logA, clock, max) && Represents(b, logB, clock, max)
    ensures a == b
  {
    TimesPermuted(logA, logB, clock);
    KeepsExactlyRetained(TimesOf(a), Times(logA, clock), max);
    KeepsExactlyRetained(TimesOf(b), Times(logB, clock), max);
    SortedUnique(TimesOf(a), TimesOf(b));
    forall i | 0 <= i < |a| ensures a[i] == b[i] {
      assert TimesOf(a)[i] == TimesOf(b)[i];
      GroupByUnique(a[i], logA, b[i], logB, clock);
    }
  }

  // ----- clock readings -----

  // The event with its effective time written into the record and no clock reading.
  function Stamp(e: Event): Event {
    Event(e.rec.(ts := Some(e.Time())), 0)
  }

  function Stamped(log: seq<Event>): seq<Event> {
    if log == [] then [] else [Stamp(log[0])] + Stamped(log[1..])
  }

  lemma {:induction false} StampedTotal(log: seq<Event>, clock: int -> int, f: Filter)
    ensures Total(Stamped(log), clock, f) == Total(log, clock, f)
  {
    hide Zero, Plus, Selects;
    if log != [] {
      StampedTotal(log[1..], clock, f);
      StampFields(log[0], clock, f);
      hide Stamp;
      assert Stamped(log)[0] == Stamp(log[0]) && Stamped(log)[1..] == Stamped(log[1..]);
    }
  }

  lemma StampFields(e: Event, clock: int -> int, f: Filter)
    ensures Stamp(e).Time() == e.Time() && StatsOf(Stamp(e).rec) == StatsOf(e.rec)
    ensures Selects(f, clock, Stamp(e)) <==> Selects(f, clock, e)
  {
  }

  lemma {:induction false} StampedTimes(log: seq<Event>, clock: int -> int)
    ensures Times(Stamped(log), clock) == Times(log, clock)
  {
    if log != [] {
      StampedTimes(log[1..], clock);
      StampFields(log[0], clock, Filter(Any, Any, Any, Any));
      hide Stamp;
      TimesCons(log[0], log[1..], clock);
      TimesCons(Stamp(log[0]), Stamped(log[1..]), clock);
      assert log == [log[0]] + log[1..];
    }
  }

  lemma TimesCons(e: Event, log: seq<Event>, clock: int -> int)
    ensures Times([e] + log, clock) == {clock(e.Time())} + Times(log, clock)
  {
    assert forall x :: x in [e] + log <==> x == e || x in log;
  }

  lemma StampedGroupBy(b: Bucket, log: seq<Event>, clock: int -> int)
    requires IsGroupBy(b, log, clock)
    ensures IsGroupBy(b, Stamped(log), clock)
  {
    hide Stamped, Total;
    forall f ensures Total(Stamped(log), clock, f) == Total(log, clock, f) {
      StampedTotal(log, clock, f);
    }
    assert KeysOk(b.byKey, b.ts, Stamped(log), clock);
    assert ModelsOk(b.byModel, b.ts, Stamped(log), clock);
    assert KeyModelsOk(b.byKeyModel, b.ts, Stamped(log), clock);
    assert CredentialsOk(b.byCredential, b.ts, Stamped(log), clock);
    assert KeyCredentialsOk(b.byKeyCredential, b.ts, Stamped(log), clock);
  }

  lemma {:induction false} StampedRepresents(buckets: seq<Bucket>, log: seq<Event>, clock: int -> int, max: nat)
    requires Represents(buckets, log, clock, max)
    ensures Represents(buckets, Stamped(log), clock, max)
  {
    hide IsGroupBy, Stamped;
    StampedTimes(log, clock);
    forall i | 0 <= i < |buckets| ensures IsGroupBy(buckets[i], Stamped(log), clock) {
      StampedGroupBy(buckets[i], log, clock);
    }
  }

  // Clock readings matter only where a record has no time of its own: logs with the same records at
  // the same effective times, in any order, leave equal bucket lists.
  lemma {:induction false} StampsDecide(a: seq<Bucket>, logA: seq<Event>, b: seq<Bucket>, logB: seq<Event>,
                                        clock: int -> int, max: nat)
    requires multiset(Stamped(logA)) == multiset(Stamped(logB))
    requires Represents(a, logA, clock, max) && Represents(b, logB, clock, max)
    ensures a == b
  {
    hide Represents, Stamped;
    StampedRepresents(a, logA, clock, max);
    StampedRepresents(b, logB, clock, max);
    RepresentsUnique(a, Stamped(logA), b, Stamped(logB), clock, max);
  }
}
