// The usage aggregator: hour buckets, day buckets and the recent-call window, kept in step with
// everything ever ingested.
module UsageAggregation {
  import opened Collections
  import opened UsageTotals
  import opened UsageBuckets
  import opened BucketList
  import opened UsageQueries
  import opened RecentCalls
  import opened Wrappers

  datatype Granularity = Hour | Day

  // 31 days of hours, and 31 days.
  function Capacity(g: Granularity): nat {
    match g
    case Hour => 24 * 31
    case Day => 31
  }

  datatype Activity = Activity(todayCalls: int, rpm: int)

  function GetActivity(m: map<nat, Activity>, c: nat): Activity {
    if c in m then m[c] else Activity(0, 0)
  }

  class UsageAggregator {
    // Local time: the start of the hour and of the day a time falls in, and its calendar date.
    const hourOf: int -> int
    const dayOf: int -> int
    const dateOf: int -> int
    var hourBuckets: seq<Bucket>
    var dayBuckets: seq<Bucket>
    var recent: Recent
    ghost var log: seq<Event>

    ghost predicate Valid()
      reads this
    {
      && Represents(hourBuckets, log, hourOf, Capacity(Hour))
      && Represents(dayBuckets, log, dayOf, Capacity(Day))
      && RecentOk(recent, log)
    }

    constructor (hourOf: int -> int, dayOf: int -> int, dateOf: int -> int)
      ensures Valid() && log == []
      ensures this.hourOf == hourOf && this.dayOf == dayOf && this.dateOf == dateOf
    {
      this.hourOf, this.dayOf, this.dateOf := hourOf, dayOf, dateOf;
      hourBuckets, dayBuckets, recent := [], [], map[];
      log := [];
    }

    function Clock(g: Granularity): int -> int {
      match g
      case Hour => hourOf
      case Day => dayOf
    }

    function SelectBuckets(g: Granularity): seq<Bucket>
      reads this
    {
      match g
      case Hour => hourBuckets
      case Day => dayBuckets
    }

    method IngestAt(rec: UsageRecord, now: int)
      requires Valid()
      modifies this
      ensures Valid()
      ensures log == old(log) + [Event(rec, now)]
    {
      var time := if rec.ts.Some? then rec.ts.value else now;
      hourBuckets := UpsertBucket(hourBuckets, hourOf(time), rec, Capacity(Hour), now, log, hourOf);
      dayBuckets := UpsertBucket(dayBuckets, dayOf(time), rec, Capacity(Day), now, log, dayOf);
      recent := RecordRecent(recent, rec, now, log);
      log := log + [Event(rec, now)];
    }

    method QueryTimeseries(lo: int, hi: int, g: Granularity, key: Option<nat>, allow: Option<set<nat>>)
      returns (points: seq<(int, Stats)>)
      requires Valid()
      ensures IsSeries(points, Covered(log, Clock(g), Capacity(g), Between(lo, hi)), log, Clock(g), key, allow)
      ensures forall i :: 0 <= i < |points| ==>
        && lo <= points[i].0 < hi
        && AddsUp(points[i].1, log, Clock(g), Filter(In({points[i].0}), KeyDim(key), Any, CredentialDim(allow)))
    {
      hide Series, IsSeries, Retained, AllGroupBy, RecentOk, AddsUp;
      points := Timeseries(SelectBuckets(g), Between(lo, hi), key, allow, log, Clock(g));
      ghost var ts := TimesOf(SelectBuckets(g));
      SeriesIsSeries(ts, Between(lo, hi), key, allow, log, Clock(g));
      KeepsExactlyRetained(ts, Times(log, Clock(g)), Capacity(g));
      assert forall t :: t in ts <==> t in Elements(ts);
      assert InWindow(ts, Between(lo, hi)) == Covered(log, Clock(g), Capacity(g), Between(lo, hi));
      SeriesAddsUp(points, InWindow(ts, Between(lo, hi)), log, Clock(g), key, allow);
    }

    method QueryByModel(lo: int, hi: int, g: Granularity, key: Option<nat>) returns (out: seq<(string, Stats)>)
      requires Valid()
      ensures RanksTotals(out, m => true,
                          ModelTotal(Covered(log, Clock(g), Capacity(g), Between(lo, hi)), log, Clock(g), key))
      ensures forall i :: 0 <= i < |out| ==>
        AddsUp(out[i].1, log, Clock(g),
               Filter(In(Covered(log, Clock(g), Capacity(g), Between(lo, hi))), KeyDim(key), In({out[i].0}), Any))
    {
      hide RanksTotals, Ranks, Positive, Total, IsGroupBy, AllGroupBy, RecentOk, Sorted, Covered, CoveredIn, AddsUp;
      var totals := ModelDistribution(SelectBuckets(g), Between(lo, hi), key, log, Clock(g));
      ghost var covered := Covered(log, Clock(g), Capacity(g), Between(lo, hi));
      CoveredAll(SelectBuckets(g), log, Clock(g), Capacity(g), Between(lo, hi));
      out := Rank(totals, CallsOf);
      RankedTotals(out, totals, m => true, ModelTotal(covered, log, Clock(g), key));
      ModelsAddUp(out, covered, log, Clock(g), key);
    }

    // Credential 0 is never in the answer.
    method QueryByCredential(lo: int, hi: int, g: Granularity, key: Option<nat>, allow: Option<set<nat>>)
      returns (out: seq<(nat, Stats)>)
      requires Valid()
      ensures RanksTotals(out, c => c != 0 && Admits(allow, c),
                          CredentialTotal(Covered(log, Clock(g), Capacity(g), Between(lo, hi)), log, Clock(g), key))
      ensures forall i :: 0 <= i < |out| ==>
        AddsUp(out[i].1, log, Clock(g),
               Filter(In(Covered(log, Clock(g), Capacity(g), Between(lo, hi))), KeyDim(key), Any, In({out[i].0})))
    {
      hide RanksTotals, Ranks, Positive, Total, IsGroupBy, AllGroupBy, RecentOk, Sorted, Covered, CoveredIn, AddsUp;
      var totals := CredentialDistribution(SelectBuckets(g), Between(lo, hi), key, allow, log, Clock(g));
      ghost var covered := Covered(log, Clock(g), Capacity(g), Between(lo, hi));
      CoveredAll(SelectBuckets(g), log, Clock(g), Capacity(g), Between(lo, hi));
      out := Rank(totals, CallsOf);
      RankedTotals(out, totals, c => c != 0 && Admits(allow, c), CredentialTotal(covered, log, Clock(g), key));
      CredentialsAddUp(out, allow, covered, log, Clock(g), key);
    }

    method QueryByKey(lo: int, hi: int, g: Granularity, allow: Option<set<nat>>) returns (out: seq<(nat, Stats)>)
      requires Valid()
      ensures RanksTotals(out, k => true,
                          KeyTotal(Covered(log, Clock(g), Capacity(g), Between(lo, hi)), log, Clock(g), allow))
      ensures forall i :: 0 <= i < |out| ==>
        AddsUp(out[i].1, log, Clock(g),
               Filter(In(Covered(log, Clock(g), Capacity(g), Between(lo, hi))), In({out[i].0}), Any,
                      CredentialDim(allow)))
    {
      hide RanksTotals, Ranks, Positive, Total, IsGroupBy, AllGroupBy, RecentOk, Sorted, Covered, CoveredIn, AddsUp;
      var totals := KeyDistribution(SelectBuckets(g), Between(lo, hi), allow, log, Clock(g));
      ghost var covered := Covered(log, Clock(g), Capacity(g), Between(lo, hi));
      CoveredAll(SelectBuckets(g), log, Clock(g), Capacity(g), Between(lo, hi));
      out := Rank(totals, CallsOf);
      RankedTotals(out, totals, k => true, KeyTotal(covered, log, Clock(g), allow));
      KeysAddUp(out, covered, log, Clock(g), allow);
    }

    // The retained records of one calendar date and one credential.
    ghost function OnDate(date: int, c: nat): Filter
      reads this
    {
      Filter(In(Covered(log, dayOf, Capacity(Day), OnDay(dateOf, date))), Any, Any, In({c}))
    }

    // Today's calls and the calls of the last minute, per upstream credential.
    method QueryCredentialActivity(now: int) returns (activity: map<nat, Activity>)
      requires Valid()
      ensures 0 !in activity
      ensures forall c :: c in activity ==> activity[c] != Activity(0, 0)
      ensures forall c :: c != 0 ==>
        GetActivity(activity, c).todayCalls == Total(log, dayOf, OnDate(dateOf(now), c)).calls
      ensures forall c :: c != 0 ==> GetActivity(activity, c).rpm == WindowCount(recent, now - 60, now, c)
      ensures forall c :: c != 0 && Bounded(log, now) ==>
        GetActivity(activity, c).rpm == Calls(log, now - 60, now, c)
    {
      var today := CredentialDistribution(dayBuckets, OnDay(dateOf, dateOf(now)), None, None, log, dayOf);
      CoveredAll(dayBuckets, log, dayOf, Capacity(Day), OnDay(dateOf, dateOf(now)));
      var counts := SumWindow(recent, now, log);
      activity := map c | c in today.Keys + counts.Keys ::
        Activity(GetStats(today, c).calls, if c in counts then counts[c] else 0);
      forall c: nat | c != 0
        ensures GetActivity(activity, c).todayCalls == Total(log, dayOf, OnDate(dateOf(now), c)).calls
        ensures Bounded(log, now) ==>
          WindowCount(recent, now - RpmWindow(), now, c) == Calls(log, now - RpmWindow(), now, c)
      {
        assert Accumulates(today, c, Total(log, dayOf, OnDate(dateOf(now), c)));
        if Bounded(log, now) {
          WindowExact(recent, log, now, now - RpmWindow(), now, c);
        }
      }
    }
  }

  // The counts of the seconds in (lo, hi], of the credentials that have any.
  ghost predicate WindowCounts(counts: map<nat, nat>, recent: Recent, lo: int, hi: int) {
    && 0 !in counts
    && forall c: nat :: c != 0 ==>
         if c in counts then counts[c] > 0 && counts[c] == WindowCount(recent, lo, hi, c)
         else WindowCount(recent, lo, hi, c) == 0
  }

  method SumWindow(recent: Recent, now: int, ghost log: seq<Event>) returns (counts: map<nat, nat>)
    requires RecentOk(recent, log)
    ensures WindowCounts(counts, recent, now - RpmWindow(), now)
  {
    counts := map[];
    for t := now - RpmWindow() + 1 to now + 1
      invariant WindowCounts(counts, recent, now - RpmWindow(), t - 1)
    {
      if t in recent {
        assert forall c :: c in recent[t] ==> c != 0 && recent[t][c] > 0;
        assert forall c :: CountAt(recent, t, c) == CountOf(recent[t], c);
        counts := AddSecond(counts, recent[t]);
      }
    }
  }

  function CountOf<K>(m: map<K, nat>, c: K): nat {
    if c in m then m[c] else 0
  }

  // `out` is `counts` with the counts of `second` under the credentials of `done` added in.
  ghost predicate SecondAdded<K(!new)>(out: map<K, nat>, counts: map<K, nat>, second: map<K, nat>, done: set<K>) {
    && done <= second.Keys
    && out.Keys == counts.Keys + done
    && forall c :: c in out ==> out[c] == CountOf(counts, c) + if c in done then second[c] else 0
  }

  // Adds one second's counts.
  method AddSecond<K(==, !new)>(counts: map<K, nat>, second: map<K, nat>) returns (out: map<K, nat>)
    ensures SecondAdded(out, counts, second, second.Keys)
  {
    out := counts;
    var todo := second.Keys;
    AllVisited(todo);
    while todo != {}
      invariant todo <= second.Keys
      invariant SecondAdded(out, counts, second, second.Keys - todo)
      decreases |todo|
    {
      var c, rest := TakeMember(todo);
      VisitedGrows(second.Keys, todo, c);
      SecondStep(out, counts, second, second.Keys - todo, c);
      out := out[c := CountOf(out, c) + second[c]];
      todo := rest;
    }
  }

  lemma SecondStep<K(!new)>(out: map<K, nat>, counts: map<K, nat>, second: map<K, nat>, done: set<K>, c: K)
    requires SecondAdded(out, counts, second, done) && c in second && c !in done
    ensures SecondAdded(out[c := CountOf(out, c) + second[c]], counts, second, done + {c})
  {
    assert c in out ==> out[c] == CountOf(counts, c);
  }

  // The aggregator holds the last 744 hours and the last 31 days that saw a record.
  lemma KeepsMonth(a: UsageAggregator, t: int)
    requires a.Valid()
    ensures t in TimesOf(a.hourBuckets)
        <==> t in Times(a.log, a.hourOf) && |Later(Times(a.log, a.hourOf), t)| < 744
    ensures t in TimesOf(a.dayBuckets) <==> t in Times(a.log, a.dayOf) && |Later(Times(a.log, a.dayOf), t)| < 31
  {
    hide AllGroupBy, RecentOk, TimesOf, Times, Later;
    var hours, days := TimesOf(a.hourBuckets), TimesOf(a.dayBuckets);
    KeepsExactlyRetained(hours, Times(a.log, a.hourOf), Capacity(Hour));
    KeepsExactlyRetained(days, Times(a.log, a.dayOf), Capacity(Day));
    assert t in hours <==> t in Elements(hours);
    assert t in days <==> t in Elements(days);
  }

  // ----- the columns of the answers -----

  lemma SeriesAddsUp(points: seq<(int, Stats)>, covered: set<int>, log: seq<Event>, clock: int -> int,
                     key: Option<nat>, allow: Option<set<nat>>)
    requires IsSeries(points, covered, log, clock, key, allow)
    ensures forall i :: 0 <= i < |points| ==>
      AddsUp(points[i].1, log, clock, Filter(In({points[i].0}), KeyDim(key), Any, CredentialDim(allow)))
  {
    hide AddsUp, Total, KeySeen;
    forall i | 0 <= i < |points|
      ensures AddsUp(points[i].1, log, clock, Filter(In({points[i].0}), KeyDim(key), Any, CredentialDim(allow)))
    {
      TotalAddsUp(log, clock, Filter(In({points[i].0}), KeyDim(key), Any, CredentialDim(allow)));
    }
  }

  lemma ModelsAddUp(out: seq<(string, Stats)>, covered: set<int>, log: seq<Event>, clock: int -> int, key: Option<nat>)
    requires RanksTotals(out, m => true, ModelTotal(covered, log, clock, key))
    ensures forall i :: 0 <= i < |out| ==>
      AddsUp(out[i].1, log, clock, Filter(In(covered), KeyDim(key), In({out[i].0}), Any))
  {
    hide AddsUp, Total;
    forall i | 0 <= i < |out|
      ensures AddsUp(out[i].1, log, clock, Filter(In(covered), KeyDim(key), In({out[i].0}), Any))
    {
      TotalAddsUp(log, clock, Filter(In(covered), KeyDim(key), In({out[i].0}), Any));
    }
  }

  lemma CredentialsAddUp(out: seq<(nat, Stats)>, allow: Option<set<nat>>, covered: set<int>, log: seq<Event>,
                         clock: int -> int, key: Option<nat>)
    requires RanksTotals(out, c => c != 0 && Admits(allow, c), CredentialTotal(covered, log, clock, key))
    ensures forall i :: 0 <= i < |out| ==>
      AddsUp(out[i].1, log, clock, Filter(In(covered), KeyDim(key), Any, In({out[i].0})))
  {
    hide AddsUp, Total;
    forall i | 0 <= i < |out|
      ensures AddsUp(out[i].1, log, clock, Filter(In(covered), KeyDim(key), Any, In({out[i].0})))
    {
      TotalAddsUp(log, clock, Filter(In(covered), KeyDim(key), Any, In({out[i].0})));
    }
  }

  lemma KeysAddUp(out: seq<(nat, Stats)>, covered: set<int>, log: seq<Event>, clock: int -> int,
                  allow: Option<set<nat>>)
    requires RanksTotals(out, k => true, KeyTotal(covered, log, clock, allow))
    ensures forall i :: 0 <= i < |out| ==>
      AddsUp(out[i].1, log, clock, Filter(In(covered), In({out[i].0}), Any, CredentialDim(allow)))
  {
    hide AddsUp, Total;
    forall i | 0 <= i < |out|
      ensures AddsUp(out[i].1, log, clock, Filter(In(covered), In({out[i].0}), Any, CredentialDim(allow)))
    {
      TotalAddsUp(log, clock, Filter(In(covered), In({out[i].0}), Any, CredentialDim(allow)));
    }
  }

  // The order of ingestion, and the clock readings of records that carry their own time, leave no
  // trace in the buckets: the same records at the same effective times give equal buckets.
  lemma OrderIndependent(a: UsageAggregator, b: UsageAggregator)
    requires a.Valid() && b.Valid()
    requires a.hourOf == b.hourOf && a.dayOf == b.dayOf
    requires multiset(Stamped(a.log)) == multiset(Stamped(b.log))
    ensures a.hourBuckets == b.hourBuckets && a.dayBuckets == b.dayBuckets
  {
    hide Represents, Stamped, RecentOk;
    StampsDecide(a.hourBuckets, a.log, b.hourBuckets, b.log, a.hourOf, Capacity(Hour));
    StampsDecide(a.dayBuckets, a.log, b.dayBuckets, b.log, a.dayOf, Capacity(Day));
  }

  // A whitelist query counts what a literal whitelist filter over the log counts exactly when the
  // whitelist leaves 0 out, or no covered record has credential 0: those are in no credential cell.
  lemma WhitelistWithZero(log: seq<Event>, clock: int -> int, f: Filter, allow: set<nat>)
    ensures Total(log, clock, f.(cred := CredentialDim(Some(allow)))) == Total(log, clock, f.(cred := In(allow)))
      <==> 0 !in allow || Total(log, clock, f.(cred := In({0}))).calls == 0
  {
    if 0 in allow {
      TotalSplit(log, clock, f.(cred := In(allow)), f.(cred := In(allow - {0})), f.(cred := In({0})));
      TotalEmpty(log, clock, f.(cred := In({0})));
      AbsorbsNothing(Total(log, clock, f.(cred := In(allow - {0}))), Total(log, clock, f.(cred := In({0}))));
    } else {
      assert allow - {0} == allow;
    }
  }

  lemma AbsorbsNothing(a: Stats, z: Stats)
    requires z.calls == 0 ==> z == Zero()
    ensures Plus(a, z) == a <==> z.calls == 0
  {
    if z.calls == 0 {
      PlusZero(a);
    } else {
      assert Plus(a, z).calls != a.calls;
    }
  }
}
