// The request log and the plain fold over it: what every aggregate is measured against.
module UsageTotals {
  import opened Wrappers

  // One usage record. `ts` is the outcome of parsing the record's RFC 3339 text to whole Unix
  // seconds; None when it does not parse.
  datatype UsageRecord = UsageRecord(
    ts: Option<int>,
    keyId: nat,
    credentialId: nat,
    model: string,
    inputTokens: nat,
    outputTokens: nat,
    cacheCreationTokens: nat,
    cacheReadTokens: nat,
    credits: real,
    status: string)

  // A record together with the clock reading at the moment it was ingested.
  datatype Event = Event(rec: UsageRecord, now: int) {
    // An unparsable timestamp is replaced by the clock reading.
    function Time(): int {
      if rec.ts.Some? then rec.ts.value else now
    }
  }

  datatype Stats = Stats(
    inputTokens: int,
    outputTokens: int,
    cacheCreationTokens: int,
    cacheReadTokens: int,
    calls: int,
    errors: int,
    credits: real)

  function Zero(): Stats {
    Stats(0, 0, 0, 0, 0, 0, 0.0)
  }

  function Plus(a: Stats, b: Stats): Stats {
    Stats(a.inputTokens + b.inputTokens,
          a.outputTokens + b.outputTokens,
          a.cacheCreationTokens + b.cacheCreationTokens,
          a.cacheReadTokens + b.cacheReadTokens,
          a.calls + b.calls,
          a.errors + b.errors,
          a.credits + b.credits)
  }

  function StatsOf(rec: UsageRecord): Stats {
    Stats(rec.inputTokens, rec.outputTokens, rec.cacheCreationTokens, rec.cacheReadTokens,
          1, if rec.status != "success" then 1 else 0, rec.credits)
  }

  // A condition on one column of the log.
  datatype Dim<T> = Any | In(members: set<T>) | Except(excluded: set<T>) {
    predicate Has(x: T) {
      match this
      case Any => true
      case In(s) => x in s
      case Except(s) => x !in s
    }
  }

  datatype Filter = Filter(time: Dim<int>, key: Dim<nat>, model: Dim<string>, cred: Dim<nat>)

  // `clock` maps a time to the start of the bucket it falls in.
  predicate Selects(f: Filter, clock: int -> int, e: Event) {
    && f.time.Has(clock(e.Time()))
    && f.key.Has(e.rec.keyId)
    && f.model.Has(e.rec.model)
    && f.cred.Has(e.rec.credentialId)
  }

  // The records a filter keeps, in log order.
  function Select(log: seq<Event>, clock: int -> int, f: Filter): seq<UsageRecord> {
    if log == [] then []
    else if Selects(f, clock, log[0]) then [log[0].rec] + Select(log[1..], clock, f)
    else Select(log[1..], clock, f)
  }

  function Sum(recs: seq<UsageRecord>): (t: Stats)
    ensures t.calls == |recs|
  {
    if recs == [] then Zero() else Plus(StatsOf(recs[0]), Sum(recs[1..]))
  }

  // Filter the whole log, then add up: the reference for every pre-aggregated answer.
  function Total(log: seq<Event>, clock: int -> int, f: Filter): Stats {
    Sum(Select(log, clock, f))
  }

  // The distinct bucket times that occur in the log.
  function Times(log: seq<Event>, clock: int -> int): set<int> {
    set e | e in log :: clock(e.Time())
  }

  lemma PlusZero(a: Stats)
    ensures Plus(Zero(), a) == a && Plus(a, Zero()) == a
  {
  }

  lemma PlusSwap(a: Stats, b: Stats, c: Stats)
    ensures Plus(a, Plus(b, c)) == Plus(Plus(a, b), c)
    ensures Plus(a, Plus(b, c)) == Plus(b, Plus(a, c))
  {
  }

  lemma SumCons(r: UsageRecord, recs: seq<UsageRecord>)
    ensures Sum([r] + recs) == Plus(StatsOf(r), Sum(recs))
  {
    assert ([r] + recs)[1..] == recs;
  }

  // `whole` selects the event exactly when one, and only one, of `left` and `right` does.
  predicate Splits(clock: int -> int, whole: Filter, left: Filter, right: Filter, e: Event) {
    && (Selects(whole, clock, e) <==> Selects(left, clock, e) || Selects(right, clock, e))
    && !(Selects(left, clock, e) && Selects(right, clock, e))
  }

  // A filter that is the disjoint union of two others sums to the sum of their totals.
  lemma {:induction false} TotalSplit(log: seq<Event>, clock: int -> int, whole: Filter, left: Filter, right: Filter)
    requires forall i :: 0 <= i < |log| ==> Splits(clock, whole, left, right, log[i])
    ensures Total(log, clock, whole) == Plus(Total(log, clock, left), Total(log, clock, right))
  {
    if log == [] {
      PlusZero(Zero());
    } else {
      var rest, r := log[1..], log[0].rec;
      TotalSplit(rest, clock, whole, left, right);
      assert Splits(clock, whole, left, right, log[0]);
      SumCons(r, Select(rest, clock, whole));
      SumCons(r, Select(rest, clock, left));
      SumCons(r, Select(rest, clock, right));
      PlusSwap(StatsOf(r), Total(rest, clock, left), Total(rest, clock, right));
    }
  }

  // Filters that agree on every logged event have the same total.
  lemma {:induction false} TotalCongruent(log: seq<Event>, clock: int -> int, f: Filter, g: Filter)
    requires forall i :: 0 <= i < |log| ==> (Selects(f, clock, log[i]) <==> Selects(g, clock, log[i]))
    ensures Total(log, clock, f) == Total(log, clock, g)
  {
    if log != [] {
      TotalCongruent(log[1..], clock, f, g);
    }
  }

  // A total is zero, and counts no call, exactly when no event is selected.
  lemma {:induction false} TotalEmpty(log: seq<Event>, clock: int -> int, f: Filter)
    ensures Total(log, clock, f).calls == 0 <==> forall i :: 0 <= i < |log| ==> !Selects(f, clock, log[i])
    ensures Total(log, clock, f).calls == 0 ==> Total(log, clock, f) == Zero()
  {
    if log != [] {
      TotalEmpty(log[1..], clock, f);
    }
  }

  lemma {:induction false} SelectConcat(a: seq<Event>, b: seq<Event>, clock: int -> int, f: Filter)
    ensures Select(a + b, clock, f) == Select(a, clock, f) + Select(b, clock, f)
  {
    if a == [] {
      assert a + b == b;
    } else {
      SelectConcat(a[1..], b, clock, f);
      assert (a + b)[1..] == a[1..] + b;
    }
  }

  lemma {:induction false} SumConcat(a: seq<UsageRecord>, b: seq<UsageRecord>)
    ensures Sum(a + b) == Plus(Sum(a), Sum(b))
  {
    if a == [] {
      assert a + b == b;
      PlusZero(Sum(b));
    } else {
      SumConcat(a[1..], b);
      assert (a + b)[1..] == a[1..] + b;
      PlusSwap(StatsOf(a[0]), Sum(a[1..]), Sum(b));
    }
  }

  lemma TotalConcat(a: seq<Event>, b: seq<Event>, clock: int -> int, f: Filter)
    ensures Total(a + b, clock, f) == Plus(Total(a, clock, f), Total(b, clock, f))
  {
    SelectConcat(a, b, clock, f);
    SumConcat(Select(a, clock, f), Select(b, clock, f));
  }

  lemma TotalAppend(log: seq<Event>, e: Event, clock: int -> int, f: Filter)
    ensures Total(log + [e], clock, f)
         == if Selects(f, clock, e) then Plus(Total(log, clock, f), StatsOf(e.rec)) else Total(log, clock, f)
  {
    SelectConcat(log, [e], clock, f);
    if Selects(f, clock, e) {
      assert Select([e], clock, f) == [e.rec];
      SumConcat(Select(log, clock, f), [e.rec]);
      assert Sum([e.rec]) == StatsOf(e.rec);
    } else {
      assert Select([e], clock, f) == [];
      assert Select(log, clock, f) + [] == Select(log, clock, f);
    }
  }

  // Arrival order does not matter.
  lemma {:induction false} TotalPermuted(a: seq<Event>, b: seq<Event>, clock: int -> int, f: Filter)
    requires multiset(a) == multiset(b)
    ensures Total(a, clock, f) == Total(b, clock, f)
    decreases |a|
  {
    if a == [] {
      assert |multiset(b)| == 0;
    } else {
      var i := FindInPermutation(a, b);
      var before, after := b[..i], b[i + 1..];
      TotalPermuted(a[1..], before + after, clock, f);
      assert a == [a[0]] + a[1..];
      assert b == before + ([a[0]] + after);
      TotalConcat([a[0]], a[1..], clock, f);
      TotalConcat(before, after, clock, f);
      TotalConcat(before, [a[0]] + after, clock, f);
      TotalConcat([a[0]], after, clock, f);
      PlusSwap(Total([a[0]], clock, f), Total(before, clock, f), Total(after, clock, f));
    }
  }

  lemma FindInPermutation(a: seq<Event>, b: seq<Event>) returns (i: nat)
    requires a != [] && multiset(a) == multiset(b)
    ensures i < |b| && b[i] == a[0] && multiset(a[1..]) == multiset(b[..i] + b[i + 1..])
  {
    assert a == [a[0]] + a[1..];
    assert a[0] in multiset(b);
    i :| 0 <= i < |b| && b[i] == a[0];
    assert b == b[..i] + [a[0]] + b[i + 1..];
    assert multiset(b) == multiset(b[..i]) + multiset{a[0]} + multiset(b[i + 1..]);
    assert multiset(b[..i] + b[i + 1..]) == multiset(b) - multiset{a[0]};
    assert multiset(a[1..]) == multiset(a) - multiset{a[0]};
  }

  lemma TimesAppend(log: seq<Event>, e: Event, clock: int -> int)
    ensures Times(log + [e], clock) == Times(log, clock) + {clock(e.Time())}
  {
    assert forall x :: x in log + [e] <==> x in log || x == e;
  }

  lemma TimesPermuted(a: seq<Event>, b: seq<Event>, clock: int -> int)
    requires multiset(a) == multiset(b)
    ensures Times(a, clock) == Times(b, clock)
  {
    assert forall e :: e in a <==> e in multiset(a);
    assert forall e :: e in b <==> e in multiset(b);
  }

  // ----- what a total holds, column by column -----

  // The amounts of the selected records, added up.
  function SumOf(log: seq<Event>, clock: int -> int, f: Filter, amount: UsageRecord -> int): int {
    if log == [] then 0
    else (if Selects(f, clock, log[0]) then amount(log[0].rec) else 0) + SumOf(log[1..], clock, f, amount)
  }

  function CreditsOf(log: seq<Event>, clock: int -> int, f: Filter): real {
    if log == [] then 0.0
    else (if Selects(f, clock, log[0]) then log[0].rec.credits else 0.0) + CreditsOf(log[1..], clock, f)
  }

  // How many selected records satisfy `p`.
  function CountOf(log: seq<Event>, clock: int -> int, f: Filter, p: UsageRecord -> bool): nat {
    if log == [] then 0
    else (if Selects(f, clock, log[0]) && p(log[0].rec) then 1 else 0) + CountOf(log[1..], clock, f, p)
  }

  // Each column is the sum of that column over the selected records; calls are their number, errors
  // the number of those whose status is not "success".
  ghost predicate AddsUp(t: Stats, log: seq<Event>, clock: int -> int, f: Filter) {
    && t.inputTokens == SumOf(log, clock, f, (r: UsageRecord) => r.inputTokens)
    && t.outputTokens == SumOf(log, clock, f, (r: UsageRecord) => r.outputTokens)
    && t.cacheCreationTokens == SumOf(log, clock, f, (r: UsageRecord) => r.cacheCreationTokens)
    && t.cacheReadTokens == SumOf(log, clock, f, (r: UsageRecord) => r.cacheReadTokens)
    && t.calls == CountOf(log, clock, f, (r: UsageRecord) => true)
    && t.errors == CountOf(log, clock, f, (r: UsageRecord) => r.status != "success")
    && t.credits == CreditsOf(log, clock, f)
  }

  lemma {:induction false} TotalAddsUp(log: seq<Event>, clock: int -> int, f: Filter)
    ensures AddsUp(Total(log, clock, f), log, clock, f)
  {
    hide Selects;
    if log != [] {
      TotalAddsUp(log[1..], clock, f);
      SumCons(log[0].rec, Select(log[1..], clock, f));
    }
  }
}
