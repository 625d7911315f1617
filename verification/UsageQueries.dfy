// Queries over a bucket list: each agrees with a plain filter-and-sum over the request log.
module UsageQueries {
  import opened Collections
  import opened UsageTotals
  import opened UsageBuckets
  import opened BucketList
  import opened Wrappers

  // Requested credential whitelist, as a condition on the log. Credential 0 stands for "never
  // reached an upstream": it has no credential cell, so no whitelist can bring it in.
  function CredentialDim(allow: Option<set<nat>>): Dim<nat> {
    match allow
    case None => Any
    case Some(a) => In(a - {0})
  }

  function KeyDim(key: Option<nat>): Dim<nat> {
    match key
    case None => Any
    case Some(k) => In({k})
  }

  // Which bucket starts a query looks at: a half-open interval, or one local calendar day.
  datatype Window = Between(lo: int, hi: int) | OnDay(dateOf: int -> int, day: int) {
    predicate Has(t: int) {
      match this
      case Between(lo, hi) => lo <= t < hi
      case OnDay(f, d) => f(t) == d
    }
  }

  // The bucket times a query covers: retained, and inside the window.
  ghost function Covered(log: seq<Event>, clock: int -> int, max: nat, window: Window): set<int> {
    set t | t in Retained(Times(log, clock), max) && window.Has(t)
  }

  // A query from `lo` to `hi` covers the retained times from `lo` on and before `hi`; a query for a
  // date those on that date.
  lemma CoveredMeans(log: seq<Event>, clock: int -> int, max: nat, lo: int, hi: int, f: int -> int, date: int, t: int)
    ensures t in Covered(log, clock, max, Between(lo, hi))
        <==> t in Times(log, clock) && |Later(Times(log, clock), t)| < max && lo <= t < hi
    ensures t in Covered(log, clock, max, OnDay(f, date))
        <==> t in Times(log, clock) && |Later(Times(log, clock), t)| < max && f(t) == date
  {
    hide Times, Later;
  }

  function InWindow(ts: seq<int>, window: Window): set<int> {
    set t | t in ts && window.Has(t)
  }

  // The covered times among the first `n` buckets.
  ghost function CoveredIn(buckets: seq<Bucket>, n: nat, window: Window): set<int>
    requires n <= |buckets|
  {
    set i | 0 <= i < n && window.Has(buckets[i].ts) :: buckets[i].ts
  }

  lemma CoveredStep(buckets: seq<Bucket>, n: nat, window: Window)
    requires n < |buckets| && Sorted(TimesOf(buckets))
    ensures buckets[n].ts !in CoveredIn(buckets, n, window)
    ensures CoveredIn(buckets, n + 1, window)
         == CoveredIn(buckets, n, window) + if window.Has(buckets[n].ts) then {buckets[n].ts} else {}
  {
    assert forall i :: 0 <= i < n ==> TimesOf(buckets)[i] < TimesOf(buckets)[n];
  }

  lemma CoveredAll(buckets: seq<Bucket>, log: seq<Event>, clock: int -> int, max: nat, window: Window)
    requires KeepsLatest(TimesOf(buckets), Times(log, clock), max)
    ensures CoveredIn(buckets, |buckets|, window) == Covered(log, clock, max, window)
  {
    var ts := TimesOf(buckets);
    KeepsExactlyRetained(ts, Times(log, clock), max);
    forall t ensures t in CoveredIn(buckets, |buckets|, window) <==> t in Elements(ts) && window.Has(t) {
      if t in ts {
        var i :| 0 <= i < |ts| && ts[i] == t;
        assert buckets[i].ts == t;
      }
    }
  }

  // Extending a time set by one more bucket adds that bucket's own total.
  lemma TimeStep(log: seq<Event>, clock: int -> int, w: set<int>, t: int, f: Filter)
    requires t !in w
    ensures Total(log, clock, f.(time := In(w + {t})))
         == Plus(Total(log, clock, f.(time := In(w))), Total(log, clock, f.(time := In({t}))))
  {
    TotalSplit(log, clock, f.(time := In(w + {t})), f.(time := In(w)), f.(time := In({t})));
  }

  lemma NoTimes(log: seq<Event>, clock: int -> int, f: Filter)
    ensures Total(log, clock, f.(time := In({}))) == Zero()
  {
    TotalEmpty(log, clock, f.(time := In({})));
  }

  predicate Admits<K>(allow: Option<set<K>>, k: K) {
    allow.Some? ==> k in allow.value
  }

  // Adds a cell to an accumulator; an absent entry starts from zero.
  function AddCell<K>(acc: map<K, Stats>, k: K, s: Stats): map<K, Stats> {
    acc[k := if k in acc then Plus(acc[k], s) else s]
  }

  // `out` is `acc` with the cells of `group` under the keys of `done` added in.
  ghost predicate Merged<K(!new)>(out: map<K, Stats>, acc: map<K, Stats>, group: map<K, Stats>, done: set<K>) {
    && done <= group.Keys
    && out.Keys == acc.Keys + done
    && (forall k :: k in done ==> out[k] == if k in acc then Plus(acc[k], group[k]) else group[k])
    && (forall k :: k in acc && k !in done ==> out[k] == acc[k])
  }

  // Adds every cell of `group` that `allow` admits to the accumulator.
  method MergeInto<K(==, !new)>(acc: map<K, Stats>, group: map<K, Stats>, allow: Option<set<K>>)
    returns (out: map<K, Stats>, ghost done: set<K>)
    ensures forall k :: k in done <==> k in group && Admits(allow, k)
    ensures Merged(out, acc, group, done)
  {
    out := acc;
    done := {};
    var todo := group.Keys;
    while todo != {}
      invariant todo <= group.Keys
      invariant forall k :: k in done <==> k in group && k !in todo && Admits(allow, k)
      invariant Merged(out, acc, group, done)
      decreases |todo|
    {
      var k := AnyMember(todo);
      todo := todo - {k};
      if allow.Some? && k !in allow.value {
        continue;
      }
      MergeStep(out, acc, group, done, k);
      out := AddCell(out, k, group[k]);
      done := done + {k};
    }
  }

  lemma MergeStep<K(!new)>(out: map<K, Stats>, acc: map<K, Stats>, group: map<K, Stats>, done: set<K>, k: K)
    requires Merged(out, acc, group, done) && k in group && k !in done
    ensures Merged(AddCell(out, k, group[k]), acc, group, done + {k})
  {
    var out' := AddCell(out, k, group[k]);
    assert forall x :: x != k && x in out ==> out'[x] == out[x];
    assert k in acc ==> out[k] == acc[k];
  }

  // The accumulator entry of `k` is the total, or there is none and nothing was selected.
  predicate Accumulates<K>(acc: map<K, Stats>, k: K, t: Stats) {
    if k in acc then acc[k] == t else t.calls == 0
  }

  // Merging in one more bucket extends the covered times by that bucket's.
  lemma MergedAccumulates<K(!new)>(out: map<K, Stats>, acc: map<K, Stats>, group: map<K, Stats>, done: set<K>, k: K,
                                   log: seq<Event>, clock: int -> int, f: Filter, w: set<int>, t: int)
    requires Merged(out, acc, group, done) && t !in w
    requires Accumulates(acc, k, Total(log, clock, f.(time := In(w))))
    requires if k in done then group[k] == Total(log, clock, f.(time := In({t})))
             else Total(log, clock, f.(time := In({t}))).calls == 0
    ensures Accumulates(out, k, Total(log, clock, f.(time := In(w + {t}))))
  {
    TimeStep(log, clock, w, t, f);
    TotalEmpty(log, clock, f.(time := In(w)));
    TotalEmpty(log, clock, f.(time := In({t})));
    PlusCases(Total(log, clock, f.(time := In(w))), Total(log, clock, f.(time := In({t}))));
  }

  lemma PlusCases(a: Stats, b: Stats)
    ensures a == Zero() ==> Plus(a, b) == b
    ensures b == Zero() ==> Plus(a, b) == a
    ensures Plus(a, b).calls == a.calls + b.calls
  {
    PlusZero(a);
    PlusZero(b);
  }

  // Adds up the cells of the whitelisted credentials.
  method SumAllowed(group: map<nat, Stats>, allow: set<nat>, ghost log: seq<Event>, ghost clock: int -> int,
                    ghost f: Filter)
    returns (s: Stats)
    requires CredentialGroup(group, log, clock, f)
    ensures s == Total(log, clock, f.(cred := In(allow - {0})))
  {
    s := Zero();
    var todo := group.Keys;
    ghost var done: set<nat> := {};
    TotalEmpty(log, clock, f.(cred := In(done)));
    while todo != {}
      invariant todo <= group.Keys
      invariant done == (group.Keys - todo) * allow
      invariant s == Total(log, clock, f.(cred := In(done)))
      decreases |todo|
    {
      var c := AnyMember(todo);
      todo := todo - {c};
      if c in allow {
        AddCredential(group, log, clock, f, done, c);
        s := Plus(s, group[c]);
        done := done + {c};
      }
    }
    assert done == group.Keys * allow;
    OnlyGroupCounts(group, log, clock, f, allow);
  }

  // The cells are the per-credential totals of `f`, over the credentials that reached an upstream.
  ghost predicate CredentialGroup(group: map<nat, Stats>, log: seq<Event>, clock: int -> int, f: Filter) {
    && 0 !in group
    && forall c: nat :: c != 0 ==> Cell(group, c, Total(log, clock, f.(cred := In({c}))))
  }

  lemma AddCredential(group: map<nat, Stats>, log: seq<Event>, clock: int -> int, f: Filter, done: set<nat>, c: nat)
    requires CredentialGroup(group, log, clock, f) && c in group && c !in done
    ensures Total(log, clock, f.(cred := In(done + {c}))) == Plus(Total(log, clock, f.(cred := In(done))), group[c])
  {
    TotalSplit(log, clock, f.(cred := In(done + {c})), f.(cred := In(done)), f.(cred := In({c})));
  }

  lemma OnlyGroupCounts(group: map<nat, Stats>, log: seq<Event>, clock: int -> int, f: Filter, allow: set<nat>)
    requires CredentialGroup(group, log, clock, f)
    ensures Total(log, clock, f.(cred := In(group.Keys * allow))) == Total(log, clock, f.(cred := In(allow - {0})))
  {
    var seen, asked := f.(cred := In(group.Keys * allow)), f.(cred := In(allow - {0}));
    forall i | 0 <= i < |log| ensures Selects(asked, clock, log[i]) <==> Selects(seen, clock, log[i]) {
      var c := log[i].rec.credentialId;
      TotalEmpty(log, clock, f.(cred := In({c})));
    }
    TotalCongruent(log, clock, asked, seen);
  }

  // The entries of a map, each exactly once.
  ghost predicate Lists<K(!new), V>(out: seq<(K, V)>, m: map<K, V>) {
    && (forall i :: 0 <= i < |out| ==> out[i].0 in m && out[i].1 == m[out[i].0])
    && (forall k :: k in m ==> exists i :: 0 <= i < |out| && out[i].0 == k)
    && (forall i, j :: 0 <= i < j < |out| ==> out[i].0 != out[j].0)
  }

  predicate Descending<K, V>(out: seq<(K, V)>, calls: V -> int) {
    forall i, j :: 0 <= i < j < |out| ==> calls(out[i].1) >= calls(out[j].1)
  }

  // A map's entries by call count, most calls first; ties come in any order.
  ghost predicate Ranks<K(!new), V>(out: seq<(K, V)>, m: map<K, V>, calls: V -> int) {
    Lists(out, m) && Descending(out, calls)
  }

  method Rank<K(==, !new), V>(m: map<K, V>, calls: V -> int) returns (out: seq<(K, V)>)
    ensures Ranks(out, m, calls)
  {
    out := [];
    var todo := m.Keys;
    while todo != {}
      invariant todo <= m.Keys
      invariant Ranks(out, m - todo, calls)
      decreases |todo|
    {
      var k := AnyMember(todo);
      var i := 0;
      while i < |out| && calls(out[i].1) >= calls(m[k])
        invariant 0 <= i <= |out|
        invariant forall j :: 0 <= j < i ==> calls(out[j].1) >= calls(m[k])
      {
        i := i + 1;
      }
      ListsInsert(out, m - todo, i, k, m[k]);
      DescendingInsert(out, i, (k, m[k]), calls);
      out := Inserted(out, i, (k, m[k]));
      assert m - (todo - {k}) == (m - todo)[k := m[k]];
      todo := todo - {k};
    }
    assert m - todo == m;
  }

  lemma ListsInsert<K(!new), V>(out: seq<(K, V)>, m: map<K, V>, i: nat, k: K, v: V)
    requires Lists(out, m) && k !in m && i <= |out|
    ensures Lists(Inserted(out, i, (k, v)), m[k := v])
  {
    var r, m' := Inserted(out, i, (k, v)), m[k := v];
    forall j | 0 <= j < |r| ensures r[j].0 in m' && r[j].1 == m'[r[j].0] && (j != i ==> r[j].0 in m) {
      if j < i {
        assert r[j] == out[j];
      } else if j > i {
        assert r[j] == out[j - 1];
      }
    }
    forall x: K | x in m' ensures exists j :: 0 <= j < |r| && r[j].0 == x {
      if x == k {
        assert r[i].0 == x;
      } else {
        var j :| 0 <= j < |out| && out[j].0 == x;
        assert r[if j < i then j else j + 1].0 == x;
      }
    }
    forall a, b | 0 <= a < b < |r| ensures r[a].0 != r[b].0 {
      if a != i && b != i {
        var a', b' := if a < i then a else a - 1, if b < i then b else b - 1;
        assert r[a] == out[a'] && r[b] == out[b'];
      }
    }
  }

  lemma DescendingInsert<K, V>(out: seq<(K, V)>, i: nat, x: (K, V), calls: V -> int)
    requires Descending(out, calls) && i <= |out|
    requires forall j :: 0 <= j < i ==> calls(out[j].1) >= calls(x.1)
    requires i < |out| ==> calls(out[i].1) < calls(x.1)
    ensures Descending(Inserted(out, i, x), calls)
  {
    var r := Inserted(out, i, x);
    assert forall j :: i <= j < |out| ==> calls(out[j].1) < calls(x.1);
    forall a, b | 0 <= a < b < |r| ensures calls(r[a].1) >= calls(r[b].1) {
      assert a < i ==> r[a] == out[a];
      assert a > i ==> r[a] == out[a - 1];
      assert b < i ==> r[b] == out[b];
      assert b > i ==> r[b] == out[b - 1];
    }
  }

  // Two filters that differ only in selecting the same key, stated as the bucket cells state it.
  lemma KeyGroup(b: Bucket, key: Option<nat>, log: seq<Event>, clock: int -> int)
    requires IsGroupBy(b, log, clock)
    ensures CredentialGroup(CredentialsFor(b, key), log, clock, Filter(In({b.ts}), KeyDim(key), Any, Any))
    ensures forall m :: Cell(ModelsFor(b, key), m, Total(log, clock, Filter(In({b.ts}), KeyDim(key), In({m}), Any)))
  {
    var group, models := CredentialsFor(b, key), ModelsFor(b, key);
    match key {
      case None =>
        forall c: nat | c != 0 ensures Cell(group, c, Total(log, clock, Filter(In({b.ts}), Any, Any, In({c})))) {
          assert Cell(b.byCredential, c, Total(log, clock, ByCredential(b.ts, c)));
        }
        forall m ensures Cell(models, m, Total(log, clock, Filter(In({b.ts}), Any, In({m}), Any))) {
          assert Cell(b.byModel, m, Total(log, clock, ByModel(b.ts, m)));
        }
      case Some(k) =>
        assert 0 !in GetGroup(b.byKeyCredential, k);
        forall c: nat | c != 0 ensures Cell(group, c, Total(log, clock, Filter(In({b.ts}), In({k}), Any, In({c})))) {
          assert Cell(GetGroup(b.byKeyCredential, k), c, Total(log, clock, ByKeyCredential(b.ts, k, c)));
        }
        forall m ensures Cell(models, m, Total(log, clock, Filter(In({b.ts}), In({k}), In({m}), Any))) {
          assert Cell(GetGroup(b.byKeyModel, k), m, Total(log, clock, ByKeyModel(b.ts, k, m)));
        }
    }
  }

  // The group of a bucket a query for `key` reads; a missing group is skipped like an empty one.
  function CredentialsFor(b: Bucket, key: Option<nat>): map<nat, Stats> {
    match key
    case Some(k) => GetGroup(b.byKeyCredential, k)
    case None => b.byCredential
  }

  function ModelsFor(b: Bucket, key: Option<nat>): map<string, Stats> {
    match key
    case Some(k) => GetGroup(b.byKeyModel, k)
    case None => b.byModel
  }

  // One point of a time series.
  method PointStats(b: Bucket, key: Option<nat>, allow: Option<set<nat>>, ghost log: seq<Event>,
                    ghost clock: int -> int)
    returns (s: Stats)
    requires IsGroupBy(b, log, clock)
    ensures s == Total(log, clock, Filter(In({b.ts}), KeyDim(key), Any, CredentialDim(allow)))
  {
    match allow {
      case None =>
        match key {
          case Some(k) =>
            CellValue(b.byKey, k, log, clock, ByKey(b.ts, k));
            s := GetStats(b.byKey, k);
          case None =>
            s := b.overall;
        }
      case Some(a) =>
        KeyGroup(b, key, log, clock);
        s := SumAllowed(CredentialsFor(b, key), a, log, clock, Filter(In({b.ts}), KeyDim(key), Any, Any));
    }
  }

  // The key was used in the bucket at `t`.
  predicate KeySeen(log: seq<Event>, clock: int -> int, t: int, key: Option<nat>) {
    key.Some? ==> Total(log, clock, ByKey(t, key.value)).calls > 0
  }

  // The naive series: each of the given bucket times that is in the window and saw the key, with
  // the filtered sum over the log.
  function Series(ts: seq<int>, window: Window, key: Option<nat>, allow: Option<set<nat>>,
                  log: seq<Event>, clock: int -> int): seq<(int, Stats)> {
    if ts == [] then []
    else
      var t := ts[|ts| - 1];
      var init := Series(ts[..|ts| - 1], window, key, allow, log, clock);
      if window.Has(t) && KeySeen(log, clock, t, key)
      then init + [(t, Total(log, clock, Filter(In({t}), KeyDim(key), Any, CredentialDim(allow))))]
      else init
  }

  method Timeseries(buckets: seq<Bucket>, window: Window, key: Option<nat>, allow: Option<set<nat>>,
                    ghost log: seq<Event>, ghost clock: int -> int)
    returns (points: seq<(int, Stats)>)
    requires AllGroupBy(buckets, log, clock)
    ensures points == Series(TimesOf(buckets), window, key, allow, log, clock)
  {
    hide IsGroupBy, KeySeen, Total;
    points := [];
    for i := 0 to |buckets|
      invariant points == Series(TimesOf(buckets)[..i], window, key, allow, log, clock)
    {
      var b := buckets[i];
      assert TimesOf(buckets)[..i + 1][..i] == TimesOf(buckets)[..i];
      KeySeenInBucket(b, key, log, clock);
      if window.Has(b.ts) && (key.None? || key.value in b.byKey) {
        var s := PointStats(b, key, allow, log, clock);
        points := points + [(b.ts, s)];
      }
    }
    assert TimesOf(buckets)[..|buckets|] == TimesOf(buckets);
  }

  lemma KeySeenInBucket(b: Bucket, key: Option<nat>, log: seq<Event>, clock: int -> int)
    requires IsGroupBy(b, log, clock)
    ensures KeySeen(log, clock, b.ts, key) <==> key.None? || key.value in b.byKey
  {
    assert key.Some? ==> Cell(b.byKey, key.value, Total(log, clock, ByKey(b.ts, key.value)));
  }

  // One point, in time order, for every covered bucket in which the key was used.
  ghost predicate IsSeries(points: seq<(int, Stats)>, covered: set<int>, log: seq<Event>, clock: int -> int,
                           key: Option<nat>, allow: Option<set<nat>>) {
    && (forall i, j :: 0 <= i < j < |points| ==> points[i].0 < points[j].0)
    && (forall i :: 0 <= i < |points| ==> points[i].0 in covered && KeySeen(log, clock, points[i].0, key))
    && (forall i :: 0 <= i < |points| ==>
          points[i].1 == Total(log, clock, Filter(In({points[i].0}), KeyDim(key), Any, CredentialDim(allow))))
    && (forall t :: t in covered && KeySeen(log, clock, t, key) ==> exists i :: 0 <= i < |points| && points[i].0 == t)
  }

  lemma {:induction false} SeriesIsSeries(ts: seq<int>, window: Window, key: Option<nat>, allow: Option<set<nat>>,
                                          log: seq<Event>, clock: int -> int)
    requires Sorted(ts)
    ensures IsSeries(Series(ts, window, key, allow, log, clock), InWindow(ts, window), log, clock, key, allow)
    ensures forall p :: p in Series(ts, window, key, allow, log, clock) ==> p.0 in ts
  {
    if ts != [] {
      var init, t := ts[..|ts| - 1], ts[|ts| - 1];
      assert ts == init + [t];
      SeriesIsSeries(init, window, key, allow, log, clock);
      var before := InWindow(init, window);
      var points := Series(init, window, key, allow, log, clock);
      if window.Has(t) {
        assert InWindow(ts, window) == before + {t};
        if KeySeen(log, clock, t, key) {
          forall j | 0 <= j < |points| ensures points[j].0 < t {
            assert points[j] in points;
          }
          SeriesAppend(points, before, t, Total(log, clock, Filter(In({t}), KeyDim(key), Any, CredentialDim(allow))),
                       log, clock, key, allow);
        }
      } else {
        assert InWindow(ts, window) == before;
      }
    }
  }

  lemma SeriesAppend(points: seq<(int, Stats)>, covered: set<int>, t: int, s: Stats, log: seq<Event>, clock: int -> int,
                     key: Option<nat>, allow: Option<set<nat>>)
    requires IsSeries(points, covered, log, clock, key, allow)
    requires forall j :: 0 <= j < |points| ==> points[j].0 < t
    requires KeySeen(log, clock, t, key)
    requires s == Total(log, clock, Filter(In({t}), KeyDim(key), Any, CredentialDim(allow)))
    ensures IsSeries(points + [(t, s)], covered + {t}, log, clock, key, allow)
  {
    hide Total, KeySeen;
    var r := points + [(t, s)];
    forall u | u in covered + {t} && KeySeen(log, clock, u, key) ensures exists i :: 0 <= i < |r| && r[i].0 == u {
      if u == t {
        assert r[|points|].0 == u;
      } else {
        var i :| 0 <= i < |points| && points[i].0 == u;
        assert r[i].0 == u;
      }
    }
  }

  function CallsOf(s: Stats): int { s.calls }

  // Per-model totals over the covered buckets.
  ghost predicate ModelTotals(acc: map<string, Stats>, covered: set<int>, log: seq<Event>, clock: int -> int,
                              key: Option<nat>)
  {
    forall m :: Accumulates(acc, m, Total(log, clock, Filter(In(covered), KeyDim(key), In({m}), Any)))
  }

  ghost predicate Positive<K(!new)>(acc: map<K, Stats>) {
    forall k :: k in acc ==> acc[k].calls > 0
  }

  method ModelDistribution(buckets: seq<Bucket>, window: Window, key: Option<nat>, ghost log: seq<Event>,
                           ghost clock: int -> int)
    returns (acc: map<string, Stats>)
    requires Sorted(TimesOf(buckets)) && AllGroupBy(buckets, log, clock)
    ensures ModelTotals(acc, CoveredIn(buckets, |buckets|, window), log, clock, key)
    ensures Positive(acc)
  {
    hide ModelTotals, IsGroupBy;
    acc := map[];
    NoModels(log, clock, key);
    assert CoveredIn(buckets, 0, window) == {};
    for i := 0 to |buckets|
      invariant ModelTotals(acc, CoveredIn(buckets, i, window), log, clock, key)
      invariant Positive(acc)
    {
      CoveredStep(buckets, i, window);
      if window.Has(buckets[i].ts) {
        acc := AddModels(acc, buckets[i], CoveredIn(buckets, i, window), log, clock, key);
      } else {
        assert CoveredIn(buckets, i + 1, window) == CoveredIn(buckets, i, window);
      }
    }
  }

  method AddModels(acc: map<string, Stats>, b: Bucket, ghost w: set<int>, ghost log: seq<Event>,
                   ghost clock: int -> int,
                   key: Option<nat>)
    returns (out: map<string, Stats>)
    requires IsGroupBy(b, log, clock) && b.ts !in w
    requires ModelTotals(acc, w, log, clock, key) && Positive(acc)
    ensures ModelTotals(out, w + {b.ts}, log, clock, key) && Positive(out)
  {
    KeyGroup(b, key, log, clock);
    ghost var done;
    out, done := MergeInto(acc, ModelsFor(b, key), None);
    ModelStep(out, acc, ModelsFor(b, key), done, w, b.ts, log, clock, key);
  }

  lemma NoModels(log: seq<Event>, clock: int -> int, key: Option<nat>)
    ensures ModelTotals(map[], {}, log, clock, key)
  {
    forall m ensures Total(log, clock, Filter(In({}), KeyDim(key), In({m}), Any)).calls == 0 {
      NoTimes(log, clock, Filter(In({}), KeyDim(key), In({m}), Any));
    }
  }

  lemma ModelStep(out: map<string, Stats>, acc: map<string, Stats>, group: map<string, Stats>, done: set<string>,
                  w: set<int>, t: int, log: seq<Event>, clock: int -> int, key: Option<nat>)
    requires Merged(out, acc, group, done) && t !in w && Positive(acc)
    requires forall k :: k in done <==> k in group
    requires ModelTotals(acc, w, log, clock, key)
    requires forall m :: Cell(group, m, Total(log, clock, Filter(In({t}), KeyDim(key), In({m}), Any)))
    ensures ModelTotals(out, w + {t}, log, clock, key)
    ensures Positive(out)
  {
    forall m ensures Accumulates(out, m, Total(log, clock, Filter(In(w + {t}), KeyDim(key), In({m}), Any)))
      ensures m in out ==> out[m].calls > 0
    {
      assert Cell(group, m, Total(log, clock, Filter(In({t}), KeyDim(key), In({m}), Any)));
      MergedAccumulates(out, acc, group, done, m, log, clock, Filter(Any, KeyDim(key), In({m}), Any), w, t);
    }
  }

  // Per-credential totals over the covered buckets, of the whitelisted credentials that reached an
  // upstream.
  ghost predicate CredentialTotals(acc: map<nat, Stats>, covered: set<int>, log: seq<Event>, clock: int -> int,
                                   key: Option<nat>, allow: Option<set<nat>>) {
    && (forall c :: c in acc ==> c != 0 && Admits(allow, c))
    && (forall c: nat :: c != 0 && Admits(allow, c) ==>
          Accumulates(acc, c, Total(log, clock, Filter(In(covered), KeyDim(key), Any, In({c})))))
  }

  method CredentialDistribution(buckets: seq<Bucket>, window: Window, key: Option<nat>, allow: Option<set<nat>>,
                                ghost log: seq<Event>, ghost clock: int -> int)
    returns (acc: map<nat, Stats>)
    requires Sorted(TimesOf(buckets)) && AllGroupBy(buckets, log, clock)
    ensures CredentialTotals(acc, CoveredIn(buckets, |buckets|, window), log, clock, key, allow)
    ensures Positive(acc)
  {
    hide CredentialTotals, IsGroupBy;
    acc := map[];
    ghost var w: set<int> := {};
    NoCredentials(log, clock, key, allow);
    assert CoveredIn(buckets, 0, window) == {};
    for i := 0 to |buckets|
      invariant w == CoveredIn(buckets, i, window)
      invariant CredentialTotals(acc, w, log, clock, key, allow) && Positive(acc)
    {
      CoveredStep(buckets, i, window);
      if window.Has(buckets[i].ts) {
        acc := AddCredentials(acc, buckets[i], w, log, clock, key, allow);
        w := w + {buckets[i].ts};
      }
    }
  }

  method AddCredentials(acc: map<nat, Stats>, b: Bucket, ghost w: set<int>, ghost log: seq<Event>,
                        ghost clock: int -> int,
                        key: Option<nat>, allow: Option<set<nat>>)
    returns (out: map<nat, Stats>)
    requires IsGroupBy(b, log, clock) && b.ts !in w
    requires CredentialTotals(acc, w, log, clock, key, allow) && Positive(acc)
    ensures CredentialTotals(out, w + {b.ts}, log, clock, key, allow) && Positive(out)
  {
    KeyGroup(b, key, log, clock);
    ghost var done;
    out, done := MergeInto(acc, CredentialsFor(b, key), allow);
    CredentialStep(out, acc, CredentialsFor(b, key), done, w, b.ts, log, clock, key, allow);
  }

  lemma NoCredentials(log: seq<Event>, clock: int -> int, key: Option<nat>, allow: Option<set<nat>>)
    ensures CredentialTotals(map[], {}, log, clock, key, allow)
  {
    forall c: nat ensures Total(log, clock, Filter(In({}), KeyDim(key), Any, In({c}))).calls == 0 {
      NoTimes(log, clock, Filter(In({}), KeyDim(key), Any, In({c})));
    }
  }

  lemma CredentialStep(out: map<nat, Stats>, acc: map<nat, Stats>, group: map<nat, Stats>, done: set<nat>,
                       w: set<int>, t: int, log: seq<Event>, clock: int -> int, key: Option<nat>,
                       allow: Option<set<nat>>)
    requires Merged(out, acc, group, done) && t !in w && Positive(acc)
    requires forall k :: k in done <==> k in group && Admits(allow, k)
    requires CredentialTotals(acc, w, log, clock, key, allow)
    requires CredentialGroup(group, log, clock, Filter(In({t}), KeyDim(key), Any, Any))
    ensures CredentialTotals(out, w + {t}, log, clock, key, allow)
    ensures Positive(out)
  {
    forall c: nat | c != 0 && Admits(allow, c)
      ensures Accumulates(out, c, Total(log, clock, Filter(In(w + {t}), KeyDim(key), Any, In({c}))))
      ensures c in out ==> out[c].calls > 0
    {
      assert Cell(group, c, Total(log, clock, Filter(In({t}), KeyDim(key), Any, In({c}))));
      MergedAccumulates(out, acc, group, done, c, log, clock, Filter(Any, KeyDim(key), Any, In({c})), w, t);
    }
  }

  // Per-key totals over the covered buckets.
  ghost predicate KeyTotals(acc: map<nat, Stats>, covered: set<int>, log: seq<Event>, clock: int -> int,
                            allow: Option<set<nat>>)
  {
    forall k: nat :: Accumulates(acc, k, Total(log, clock, Filter(In(covered), In({k}), Any, CredentialDim(allow))))
  }

  // An answer: every counted key with calls, once, with its total, most calls first.
  ghost predicate RanksTotals<K(!new)>(out: seq<(K, Stats)>, counted: K -> bool, total: K -> Stats) {
    && (forall i :: 0 <= i < |out| ==> counted(out[i].0) && out[i].1 == total(out[i].0) && out[i].1.calls > 0)
    && (forall k :: counted(k) && total(k).calls > 0 ==> exists i :: 0 <= i < |out| && out[i].0 == k)
    && (forall i, j :: 0 <= i < j < |out| ==> out[i].0 != out[j].0 && out[i].1.calls >= out[j].1.calls)
  }

  lemma RankedTotals<K(!new)>(out: seq<(K, Stats)>, acc: map<K, Stats>, counted: K -> bool, total: K -> Stats)
    requires Ranks(out, acc, CallsOf) && Positive(acc)
    requires forall k :: k in acc ==> counted(k)
    requires forall k :: counted(k) ==> Accumulates(acc, k, total(k))
    ensures RanksTotals(out, counted, total)
  {
    forall i | 0 <= i < |out| ensures counted(out[i].0) && out[i].1 == total(out[i].0) && out[i].1.calls > 0 {
      assert Accumulates(acc, out[i].0, total(out[i].0));
    }
    forall k | counted(k) && total(k).calls > 0 ensures exists i :: 0 <= i < |out| && out[i].0 == k {
      assert Accumulates(acc, k, total(k));
      assert k in acc;
    }
    forall i, j | 0 <= i < j < |out| ensures out[i].0 != out[j].0 && out[i].1.calls >= out[j].1.calls {
      assert CallsOf(out[i].1) >= CallsOf(out[j].1);
    }
  }

  // What each query asks of the log, per key of its answer.
  ghost function ModelTotal(covered: set<int>, log: seq<Event>, clock: int -> int, key: Option<nat>): string -> Stats {
    m => Total(log, clock, Filter(In(covered), KeyDim(key), In({m}), Any))
  }

  ghost function CredentialTotal(covered: set<int>, log: seq<Event>, clock: int -> int, key: Option<nat>): nat -> Stats
  {
    (c: nat) => Total(log, clock, Filter(In(covered), KeyDim(key), Any, In({c})))
  }

  ghost function KeyTotal(covered: set<int>, log: seq<Event>, clock: int -> int, allow: Option<set<nat>>): nat -> Stats
  {
    (k: nat) => Total(log, clock, Filter(In(covered), In({k}), Any, CredentialDim(allow)))
  }

  // What a bucket contributes per key: its key cells, or with a whitelist the sums of the
  // whitelisted credential cells of each key (which may be zero).
  method KeyContribution(b: Bucket, allow: Option<set<nat>>, ghost log: seq<Event>, ghost clock: int -> int)
    returns (group: map<nat, Stats>)
    requires IsGroupBy(b, log, clock)
    ensures KeyTotals(group, {b.ts}, log, clock, allow)
  {
    match allow {
      case None =>
        group := b.byKey;
        forall k: nat ensures Accumulates(group, k, Total(log, clock, Filter(In({b.ts}), In({k}), Any, Any))) {
          assert Cell(b.byKey, k, Total(log, clock, ByKey(b.ts, k)));
        }
      case Some(a) =>
        group := WhitelistedKeys(b.byKeyCredential, b.ts, a, log, clock);
    }
  }

  function KeyAllowed(t: int, k: nat, a: set<nat>): Filter {
    Filter(In({t}), In({k}), Any, In(a - {0}))
  }

  method WhitelistedKeys(groups: map<nat, map<nat, Stats>>, t: int, a: set<nat>, ghost log: seq<Event>,
                         ghost clock: int -> int)
    returns (group: map<nat, Stats>)
    requires KeyCredentialsOk(groups, t, log, clock)
    ensures KeyTotals(group, {t}, log, clock, Some(a))
  {
    hide KeyTotals, AllowedSums, KeyCredentialsOk, CredentialGroup, Total;
    group := map[];
    var todo := groups.Keys;
    AllVisited(todo);
    NothingAllowed(t, a, log, clock);
    while todo != {}
      invariant todo <= groups.Keys
      invariant AllowedSums(group, groups.Keys - todo, t, a, log, clock)
      decreases |todo|
    {
      var k, rest := TakeMember(todo);
      VisitedGrows(groups.Keys, todo, k);
      KeyCells(groups, t, k, log, clock);
      var s := SumAllowed(groups[k], a, log, clock, ByKey(t, k));
      AllowedSumsStep(group, groups.Keys - todo, k, s, t, a, log, clock);
      group, todo := group[k := s], rest;
    }
    WhitelistedComplete(groups, t, a, group, log, clock);
  }

  ghost predicate AllowedSums(group: map<nat, Stats>, keys: set<nat>, t: int, a: set<nat>, log: seq<Event>,
                              clock: int -> int)
  {
    && group.Keys == keys
    && forall k :: k in group ==> group[k] == Total(log, clock, KeyAllowed(t, k, a))
  }

  lemma NothingAllowed(t: int, a: set<nat>, log: seq<Event>, clock: int -> int)
    ensures AllowedSums(map[], {}, t, a, log, clock)
  {
  }

  lemma AllowedSumsStep(group: map<nat, Stats>, keys: set<nat>, k: nat, s: Stats, t: int, a: set<nat>,
                        log: seq<Event>, clock: int -> int)
    requires AllowedSums(group, keys, t, a, log, clock)
    requires s == Total(log, clock, KeyAllowed(t, k, a))
    ensures AllowedSums(group[k := s], keys + {k}, t, a, log, clock)
  {
  }

  lemma KeyCells(groups: map<nat, map<nat, Stats>>, t: int, k: nat, log: seq<Event>, clock: int -> int)
    requires KeyCredentialsOk(groups, t, log, clock)
    ensures CredentialGroup(GetGroup(groups, k), log, clock, ByKey(t, k))
  {
    var group := GetGroup(groups, k);
    assert 0 !in GetGroup(groups, k);
    forall c: nat | c != 0 ensures Cell(group, c, Total(log, clock, ByKey(t, k).(cred := In({c})))) {
      assert Cell(GetGroup(groups, k), c, Total(log, clock, ByKeyCredential(t, k, c)));
    }
  }

  lemma WhitelistedComplete(groups: map<nat, map<nat, Stats>>, t: int, a: set<nat>, group: map<nat, Stats>,
                            log: seq<Event>, clock: int -> int)
    requires KeyCredentialsOk(groups, t, log, clock)
    requires AllowedSums(group, groups.Keys, t, a, log, clock)
    ensures KeyTotals(group, {t}, log, clock, Some(a))
  {
    forall k: nat
      ensures Accumulates(group, k, Total(log, clock, Filter(In({t}), In({k}), Any, CredentialDim(Some(a)))))
    {
      if k !in group {
        TotalEmpty(log, clock, ByKeyUpstream(t, k));
        TotalEmpty(log, clock, KeyAllowed(t, k, a));
        forall i | 0 <= i < |log| ensures !Selects(KeyAllowed(t, k, a), clock, log[i]) {
          assert !Selects(ByKeyUpstream(t, k), clock, log[i]);
        }
      }
    }
  }

  method KeyDistribution(buckets: seq<Bucket>, window: Window, allow: Option<set<nat>>, ghost log: seq<Event>,
                         ghost clock: int -> int)
    returns (acc: map<nat, Stats>)
    requires Sorted(TimesOf(buckets)) && AllGroupBy(buckets, log, clock)
    ensures KeyTotals(acc, CoveredIn(buckets, |buckets|, window), log, clock, allow)
    ensures Positive(acc)
  {
    acc := map[];
    NoKeys(log, clock, allow);
    assert CoveredIn(buckets, 0, window) == {};
    for i := 0 to |buckets|
      invariant KeyTotals(acc, CoveredIn(buckets, i, window), log, clock, allow)
    {
      CoveredStep(buckets, i, window);
      if window.Has(buckets[i].ts) {
        acc := AddKeys(acc, buckets[i], CoveredIn(buckets, i, window), log, clock, allow);
      } else {
        assert CoveredIn(buckets, i + 1, window) == CoveredIn(buckets, i, window);
      }
    }
    ghost var all := acc;
    // Keys without a counted call are not reported.
    acc := map k | k in acc && acc[k].calls > 0 :: acc[k];
    KeepPositive(all, acc, CoveredIn(buckets, |buckets|, window), log, clock, allow);
  }

  method AddKeys(acc: map<nat, Stats>, b: Bucket, ghost w: set<int>, ghost log: seq<Event>, ghost clock: int -> int,
                 allow: Option<set<nat>>)
    returns (out: map<nat, Stats>)
    requires IsGroupBy(b, log, clock) && b.ts !in w
    requires KeyTotals(acc, w, log, clock, allow)
    ensures KeyTotals(out, w + {b.ts}, log, clock, allow)
  {
    var group := KeyContribution(b, allow, log, clock);
    ghost var done;
    out, done := MergeInto(acc, group, None);
    KeyStep(out, acc, group, done, w, b.ts, log, clock, allow);
  }

  lemma KeepPositive(all: map<nat, Stats>, acc: map<nat, Stats>, covered: set<int>, log: seq<Event>, clock: int -> int,
                     allow: Option<set<nat>>)
    requires KeyTotals(all, covered, log, clock, allow)
    requires forall k :: k in acc <==> k in all && all[k].calls > 0
    requires forall k :: k in acc ==> acc[k] == all[k]
    ensures KeyTotals(acc, covered, log, clock, allow)
  {
    forall k: nat
      ensures Accumulates(acc, k, Total(log, clock, Filter(In(covered), In({k}), Any, CredentialDim(allow))))
    {
      assert Accumulates(all, k, Total(log, clock, Filter(In(covered), In({k}), Any, CredentialDim(allow))));
    }
  }

  lemma NoKeys(log: seq<Event>, clock: int -> int, allow: Option<set<nat>>)
    ensures KeyTotals(map[], {}, log, clock, allow)
  {
    forall k: nat ensures Total(log, clock, Filter(In({}), In({k}), Any, CredentialDim(allow))).calls == 0 {
      NoTimes(log, clock, Filter(In({}), In({k}), Any, CredentialDim(allow)));
    }
  }

  lemma KeyStep(out: map<nat, Stats>, acc: map<nat, Stats>, group: map<nat, Stats>, done: set<nat>,
                w: set<int>, t: int, log: seq<Event>, clock: int -> int, allow: Option<set<nat>>)
    requires Merged(out, acc, group, done) && t !in w
    requires forall k :: k in done <==> k in group
    requires KeyTotals(acc, w, log, clock, allow)
    requires KeyTotals(group, {t}, log, clock, allow)
    ensures KeyTotals(out, w + {t}, log, clock, allow)
  {
    forall k: nat
      ensures Accumulates(out, k, Total(log, clock, Filter(In(w + {t}), In({k}), Any, CredentialDim(allow))))
    {
      assert Accumulates(group, k, Total(log, clock, Filter(In({t}), In({k}), Any, CredentialDim(allow))));
      MergedAccumulates(out, acc, group, done, k, log, clock, Filter(Any, In({k}), Any, CredentialDim(allow)), w, t);
    }
  }
}
