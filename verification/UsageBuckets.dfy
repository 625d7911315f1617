// Time buckets: the six group-by maps of one bucket, and the bounded, sorted bucket list.
module UsageBuckets {
  import opened UsageTotals

  datatype Bucket = Bucket(
    ts: int,
    overall: Stats,
    byKey: map<nat, Stats>,
    byModel: map<string, Stats>,
    byCredential: map<nat, Stats>,
    byKeyModel: map<nat, map<string, Stats>>,
    byKeyCredential: map<nat, map<nat, Stats>>)

  function GetStats<K>(m: map<K, Stats>, k: K): Stats {
    if k in m then m[k] else Zero()
  }

  function GetGroup<K, L>(m: map<K, map<L, Stats>>, k: K): map<L, Stats> {
    if k in m then m[k] else map[]
  }

  function AddTo<K>(m: map<K, Stats>, k: K, rec: UsageRecord): map<K, Stats> {
    m[k := Plus(GetStats(m, k), StatsOf(rec))]
  }

  // The filters a bucket's cells stand for.
  function AtTime(ts: int): Filter { Filter(In({ts}), Any, Any, Any) }
  function ByKey(ts: int, k: nat): Filter { Filter(In({ts}), In({k}), Any, Any) }
  function ByModel(ts: int, m: string): Filter { Filter(In({ts}), Any, In({m}), Any) }
  function ByKeyModel(ts: int, k: nat, m: string): Filter { Filter(In({ts}), In({k}), In({m}), Any) }
  function ByCredential(ts: int, c: nat): Filter { Filter(In({ts}), Any, Any, In({c})) }
  function ByKeyCredential(ts: int, k: nat, c: nat): Filter { Filter(In({ts}), In({k}), Any, In({c})) }
  function ByKeyUpstream(ts: int, k: nat): Filter { Filter(In({ts}), In({k}), Any, Except({0})) }

  // A map cell holds a total, and is present exactly when that total counts a call.
  predicate Cell<K>(m: map<K, Stats>, k: K, t: Stats) {
    if k in m then t.calls > 0 && m[k] == t else t.calls == 0
  }

  ghost predicate KeysOk(m: map<nat, Stats>, ts: int, log: seq<Event>, clock: int -> int) {
    forall k :: Cell(m, k, Total(log, clock, ByKey(ts, k)))
  }

  ghost predicate ModelsOk(m: map<string, Stats>, ts: int, log: seq<Event>, clock: int -> int) {
    forall x :: Cell(m, x, Total(log, clock, ByModel(ts, x)))
  }

  ghost predicate KeyModelsOk(m: map<nat, map<string, Stats>>, ts: int, log: seq<Event>, clock: int -> int) {
    && (forall k :: k in m <==> Total(log, clock, ByKey(ts, k)).calls > 0)
    && (forall k, x :: Cell(GetGroup(m, k), x, Total(log, clock, ByKeyModel(ts, k, x))))
  }

  ghost predicate CredentialsOk(m: map<nat, Stats>, ts: int, log: seq<Event>, clock: int -> int) {
    && 0 !in m
    && (forall c :: c != 0 ==> Cell(m, c, Total(log, clock, ByCredential(ts, c))))
  }

  ghost predicate KeyCredentialsOk(m: map<nat, map<nat, Stats>>, ts: int, log: seq<Event>, clock: int -> int) {
    && (forall k :: k in m <==> Total(log, clock, ByKeyUpstream(ts, k)).calls > 0)
    && (forall k :: 0 !in GetGroup(m, k))
    && (forall k, c :: c != 0 ==> Cell(GetGroup(m, k), c, Total(log, clock, ByKeyCredential(ts, k, c))))
  }

  // The bucket is the full group-by, in all six groupings, of the log's records of its time.
  // Records with credential 0 never reached an upstream and are left out of the credential maps.
  ghost predicate IsGroupBy(b: Bucket, log: seq<Event>, clock: int -> int) {
    && b.overall == Total(log, clock, AtTime(b.ts))
    && KeysOk(b.byKey, b.ts, log, clock)
    && ModelsOk(b.byModel, b.ts, log, clock)
    && KeyModelsOk(b.byKeyModel, b.ts, log, clock)
    && CredentialsOk(b.byCredential, b.ts, log, clock)
    && KeyCredentialsOk(b.byKeyCredential, b.ts, log, clock)
  }

  // Every cell adds up, column by column, over the records of its time and its key, model or
  // credential.
  ghost predicate CellsAddUp(b: Bucket, log: seq<Event>, clock: int -> int) {
    && AddsUp(b.overall, log, clock, AtTime(b.ts))
    && (forall k :: k in b.byKey ==> AddsUp(b.byKey[k], log, clock, ByKey(b.ts, k)))
    && (forall m :: m in b.byModel ==> AddsUp(b.byModel[m], log, clock, ByModel(b.ts, m)))
    && (forall k, m :: m in GetGroup(b.byKeyModel, k) ==>
          AddsUp(GetGroup(b.byKeyModel, k)[m], log, clock, ByKeyModel(b.ts, k, m)))
    && (forall c :: c in b.byCredential ==> AddsUp(b.byCredential[c], log, clock, ByCredential(b.ts, c)))
    && (forall k, c :: c in GetGroup(b.byKeyCredential, k) ==>
          AddsUp(GetGroup(b.byKeyCredential, k)[c], log, clock, ByKeyCredential(b.ts, k, c)))
  }

  lemma GroupByAddsUp(b: Bucket, log: seq<Event>, clock: int -> int)
    requires IsGroupBy(b, log, clock)
    ensures CellsAddUp(b, log, clock)
  {
    hide AddsUp, Total, GetGroup;
    TotalAddsUp(log, clock, AtTime(b.ts));
    forall k | k in b.byKey ensures AddsUp(b.byKey[k], log, clock, ByKey(b.ts, k)) {
      TotalAddsUp(log, clock, ByKey(b.ts, k));
    }
    forall m | m in b.byModel ensures AddsUp(b.byModel[m], log, clock, ByModel(b.ts, m)) {
      TotalAddsUp(log, clock, ByModel(b.ts, m));
    }
    forall k, m | m in GetGroup(b.byKeyModel, k)
      ensures AddsUp(GetGroup(b.byKeyModel, k)[m], log, clock, ByKeyModel(b.ts, k, m))
    {
      TotalAddsUp(log, clock, ByKeyModel(b.ts, k, m));
    }
    forall c | c in b.byCredential ensures AddsUp(b.byCredential[c], log, clock, ByCredential(b.ts, c)) {
      TotalAddsUp(log, clock, ByCredential(b.ts, c));
    }
    forall k, c | c in GetGroup(b.byKeyCredential, k)
      ensures AddsUp(GetGroup(b.byKeyCredential, k)[c], log, clock, ByKeyCredential(b.ts, k, c))
    {
      TotalAddsUp(log, clock, ByKeyCredential(b.ts, k, c));
    }
  }

  // One cell moves with its total.
  lemma CellStep<K>(m: map<K, Stats>, k: K, log: seq<Event>, e: Event, clock: int -> int, f: Filter)
    requires Cell(m, k, Total(log, clock, f))
    ensures Selects(f, clock, e) ==> Cell(AddTo(m, k, e.rec), k, Total(log + [e], clock, f))
    ensures !Selects(f, clock, e) ==> Cell(m, k, Total(log + [e], clock, f))
  {
    TotalAppend(log, e, clock, f);
    TotalEmpty(log, clock, f);
  }

  lemma AddKey(m: map<nat, Stats>, ts: int, log: seq<Event>, e: Event, clock: int -> int)
    requires KeysOk(m, ts, log, clock) && clock(e.Time()) == ts
    ensures KeysOk(AddTo(m, e.rec.keyId, e.rec), ts, log + [e], clock)
  {
    forall k ensures Cell(AddTo(m, e.rec.keyId, e.rec), k, Total(log + [e], clock, ByKey(ts, k))) {
      CellStep(m, k, log, e, clock, ByKey(ts, k));
    }
  }

  lemma AddModel(m: map<string, Stats>, ts: int, log: seq<Event>, e: Event, clock: int -> int)
    requires ModelsOk(m, ts, log, clock) && clock(e.Time()) == ts
    ensures ModelsOk(AddTo(m, e.rec.model, e.rec), ts, log + [e], clock)
  {
    forall x ensures Cell(AddTo(m, e.rec.model, e.rec), x, Total(log + [e], clock, ByModel(ts, x))) {
      CellStep(m, x, log, e, clock, ByModel(ts, x));
    }
  }

  lemma AddKeyModel(m: map<nat, map<string, Stats>>, ts: int, log: seq<Event>, e: Event, clock: int -> int)
    requires KeyModelsOk(m, ts, log, clock) && clock(e.Time()) == ts
    ensures KeyModelsOk(m[e.rec.keyId := AddTo(GetGroup(m, e.rec.keyId), e.rec.model, e.rec)], ts, log + [e], clock)
  {
    var r := e.rec;
    var m' := m[r.keyId := AddTo(GetGroup(m, r.keyId), r.model, r)];
    forall k ensures k in m' <==> Total(log + [e], clock, ByKey(ts, k)).calls > 0 {
      TotalAppend(log, e, clock, ByKey(ts, k));
    }
    forall k, x ensures Cell(GetGroup(m', k), x, Total(log + [e], clock, ByKeyModel(ts, k, x))) {
      CellStep(GetGroup(m, k), x, log, e, clock, ByKeyModel(ts, k, x));
    }
  }

  lemma AddCredential(m: map<nat, Stats>, ts: int, log: seq<Event>, e: Event, clock: int -> int)
    requires CredentialsOk(m, ts, log, clock) && clock(e.Time()) == ts
    ensures CredentialsOk(if e.rec.credentialId == 0 then m else AddTo(m, e.rec.credentialId, e.rec),
                          ts, log + [e], clock)
  {
    var m' := if e.rec.credentialId == 0 then m else AddTo(m, e.rec.credentialId, e.rec);
    forall c | c != 0 ensures Cell(m', c, Total(log + [e], clock, ByCredential(ts, c))) {
      CellStep(m, c, log, e, clock, ByCredential(ts, c));
    }
  }

  lemma AddKeyCredential(m: map<nat, map<nat, Stats>>, ts: int, log: seq<Event>, e: Event, clock: int -> int)
    requires KeyCredentialsOk(m, ts, log, clock) && clock(e.Time()) == ts
    ensures KeyCredentialsOk(
      if e.rec.credentialId == 0 then m
      else m[e.rec.keyId := AddTo(GetGroup(m, e.rec.keyId), e.rec.credentialId, e.rec)], ts, log + [e], clock)
  {
    var r := e.rec;
    var m' := if r.credentialId == 0 then m else m[r.keyId := AddTo(GetGroup(m, r.keyId), r.credentialId, r)];
    forall k ensures k in m' <==> Total(log + [e], clock, ByKeyUpstream(ts, k)).calls > 0 {
      TotalAppend(log, e, clock, ByKeyUpstream(ts, k));
    }
    forall k ensures 0 !in GetGroup(m', k) {
      assert 0 !in GetGroup(m, k);
    }
    forall k, c | c != 0 ensures Cell(GetGroup(m', k), c, Total(log + [e], clock, ByKeyCredential(ts, k, c))) {
      CellStep(GetGroup(m, k), c, log, e, clock, ByKeyCredential(ts, k, c));
    }
  }

  // Adds one record of the bucket's own time to every grouping.
  method AddRecordToBucket(bucket: Bucket, rec: UsageRecord, ghost now: int, ghost log: seq<Event>,
                           ghost clock: int -> int)
    returns (b: Bucket)
    requires IsGroupBy(bucket, log, clock)
    requires clock(Event(rec, now).Time()) == bucket.ts
    ensures b.ts == bucket.ts
    ensures IsGroupBy(b, log + [Event(rec, now)], clock)
  {
    ghost var e := Event(rec, now);
    TotalAppend(log, e, clock, AtTime(bucket.ts));
    AddKey(bucket.byKey, bucket.ts, log, e, clock);
    AddModel(bucket.byModel, bucket.ts, log, e, clock);
    AddKeyModel(bucket.byKeyModel, bucket.ts, log, e, clock);
    AddCredential(bucket.byCredential, bucket.ts, log, e, clock);
    AddKeyCredential(bucket.byKeyCredential, bucket.ts, log, e, clock);
    b := bucket.(overall := Plus(bucket.overall, StatsOf(rec)));
    b := b.(byKey := AddTo(b.byKey, rec.keyId, rec));
    b := b.(byModel := AddTo(b.byModel, rec.model, rec));
    b := b.(byKeyModel := b.byKeyModel[rec.keyId := AddTo(GetGroup(b.byKeyModel, rec.keyId), rec.model, rec)]);
    if rec.credentialId == 0 {
      return;
    }
    b := b.(byCredential := AddTo(b.byCredential, rec.credentialId, rec));
    b := b.(byKeyCredential :=
      b.byKeyCredential[rec.keyId := AddTo(GetGroup(b.byKeyCredential, rec.keyId), rec.credentialId, rec)]);
  }

  lemma SameCell<K>(a: map<K, Stats>, b: map<K, Stats>, k: K,
                    logA: seq<Event>, logB: seq<Event>, clock: int -> int, f: Filter)
    requires multiset(logA) == multiset(logB)
    requires Cell(a, k, Total(logA, clock, f)) && Cell(b, k, Total(logB, clock, f))
    ensures (k in a <==> k in b) && (k in a ==> a[k] == b[k])
  {
    TotalPermuted(logA, logB, clock, f);
  }

  lemma KeyCellsUnique(a: map<nat, Stats>, b: map<nat, Stats>, ts: int, logA: seq<Event>, logB: seq<Event>,
                       clock: int -> int)
    requires multiset(logA) == multiset(logB)
    requires KeysOk(a, ts, logA, clock) && KeysOk(b, ts, logB, clock)
    ensures a == b
  {
    forall k ensures (k in a <==> k in b) && (k in a ==> a[k] == b[k]) {
      SameCell(a, b, k, logA, logB, clock, ByKey(ts, k));
    }
  }

  lemma ModelCellsUnique(a: map<string, Stats>, b: map<string, Stats>, ts: int, logA: seq<Event>, logB: seq<Event>,
                         clock: int -> int)
    requires multiset(logA) == multiset(logB)
    requires ModelsOk(a, ts, logA, clock) && ModelsOk(b, ts, logB, clock)
    ensures a == b
  {
    forall k ensures (k in a <==> k in b) && (k in a ==> a[k] == b[k]) {
      SameCell(a, b, k, logA, logB, clock, ByModel(ts, k));
    }
  }

  lemma CredentialCellsUnique(a: map<nat, Stats>, b: map<nat, Stats>, ts: int, logA: seq<Event>, logB: seq<Event>,
                              clock: int -> int)
    requires multiset(logA) == multiset(logB)
    requires CredentialsOk(a, ts, logA, clock) && CredentialsOk(b, ts, logB, clock)
    ensures a == b
  {
    forall k ensures (k in a <==> k in b) && (k in a ==> a[k] == b[k]) {
      if k != 0 {
        SameCell(a, b, k, logA, logB, clock, ByCredential(ts, k));
      }
    }
  }

  lemma KeyModelCellsUnique(a: map<nat, map<string, Stats>>, b: map<nat, map<string, Stats>>, ts: int,
                            logA: seq<Event>, logB: seq<Event>, clock: int -> int)
    requires multiset(logA) == multiset(logB)
    requires KeyModelsOk(a, ts, logA, clock) && KeyModelsOk(b, ts, logB, clock)
    ensures a == b
  {
    forall k ensures (k in a <==> k in b) && (k in a ==> a[k] == b[k]) {
      TotalPermuted(logA, logB, clock, ByKey(ts, k));
      var x, y := GetGroup(a, k), GetGroup(b, k);
      forall m ensures (m in x <==> m in y) && (m in x ==> x[m] == y[m]) {
        SameCell(x, y, m, logA, logB, clock, ByKeyModel(ts, k, m));
      }
      assert x == y;
    }
  }

  lemma KeyCredentialCellsUnique(a: map<nat, map<nat, Stats>>, b: map<nat, map<nat, Stats>>, ts: int,
                                 logA: seq<Event>, logB: seq<Event>, clock: int -> int)
    requires multiset(logA) == multiset(logB)
    requires KeyCredentialsOk(a, ts, logA, clock) && KeyCredentialsOk(b, ts, logB, clock)
    ensures a == b
  {
    forall k ensures (k in a <==> k in b) && (k in a ==> a[k] == b[k]) {
      TotalPermuted(logA, logB, clock, ByKeyUpstream(ts, k));
      var x, y := GetGroup(a, k), GetGroup(b, k);
      assert 0 !in x && 0 !in y;
      forall c ensures (c in x <==> c in y) && (c in x ==> x[c] == y[c]) {
        if c != 0 {
          SameCell(x, y, c, logA, logB, clock, ByKeyCredential(ts, k, c));
        }
      }
      assert x == y;
    }
  }

  // The contents of a bucket are determined by the multiset of logged events.
  lemma GroupByUnique(a: Bucket, logA: seq<Event>, b: Bucket, logB: seq<Event>, clock: int -> int)
    requires multiset(logA) == multiset(logB)
    requires a.ts == b.ts && IsGroupBy(a, logA, clock) && IsGroupBy(b, logB, clock)
    ensures a == b
  {
    TotalPermuted(logA, logB, clock, AtTime(a.ts));
    KeyCellsUnique(a.byKey, b.byKey, a.ts, logA, logB, clock);
    ModelCellsUnique(a.byModel, b.byModel, a.ts, logA, logB, clock);
    CredentialCellsUnique(a.byCredential, b.byCredential, a.ts, logA, logB, clock);
    KeyModelCellsUnique(a.byKeyModel, b.byKeyModel, a.ts, logA, logB, clock);
    KeyCredentialCellsUnique(a.byKeyCredential, b.byKeyCredential, a.ts, logA, logB, clock);
    assert a == Bucket(a.ts, a.overall, a.byKey, a.byModel, a.byCredential, a.byKeyModel, a.byKeyCredential);
    assert b == Bucket(b.ts, b.overall, b.byKey, b.byModel, b.byCredential, b.byKeyModel, b.byKeyCredential);
  }

  // Adding up a map's values, in whatever order.
  ghost function PickKey<K>(m: map<K, Stats>): (k: K)
    requires m != map[]
    ensures k in m
  {
    assert m.Keys != {};
    var k :| k in m.Keys; k
  }

  ghost function SumValues<K>(m: map<K, Stats>): Stats
    decreases |m|
  {
    if m == map[] then Zero() else
      var k := PickKey(m);
      Plus(m[k], SumValues(m - {k}))
  }

  lemma {:induction false} SumOverKeys(m: map<nat, Stats>, log: seq<Event>, clock: int -> int, f: Filter)
    requires forall k :: k in m ==> m[k] == Total(log, clock, f.(key := In({k})))
    ensures SumValues(m) == Total(log, clock, f.(key := In(m.Keys)))
    decreases |m|
  {
    if m == map[] {
      TotalEmpty(log, clock, f.(key := In(m.Keys)));
    } else {
      var k := PickKey(m);
      var rest := m - {k};
      SumOverKeys(rest, log, clock, f);
      TotalSplit(log, clock, f.(key := In(m.Keys)), f.(key := In({k})), f.(key := In(rest.Keys)));
    }
  }

  lemma {:induction false} SumOverModels(m: map<string, Stats>, log: seq<Event>, clock: int -> int, f: Filter)
    requires forall k :: k in m ==> m[k] == Total(log, clock, f.(model := In({k})))
    ensures SumValues(m) == Total(log, clock, f.(model := In(m.Keys)))
    decreases |m|
  {
    if m == map[] {
      TotalEmpty(log, clock, f.(model := In(m.Keys)));
    } else {
      var k := PickKey(m);
      var rest := m - {k};
      SumOverModels(rest, log, clock, f);
      TotalSplit(log, clock, f.(model := In(m.Keys)), f.(model := In({k})), f.(model := In(rest.Keys)));
    }
  }

  lemma {:induction false} SumOverCredentials(m: map<nat, Stats>, log: seq<Event>, clock: int -> int, f: Filter)
    requires forall k :: k in m ==> m[k] == Total(log, clock, f.(cred := In({k})))
    ensures SumValues(m) == Total(log, clock, f.(cred := In(m.Keys)))
    decreases |m|
  {
    if m == map[] {
      TotalEmpty(log, clock, f.(cred := In(m.Keys)));
    } else {
      var k := PickKey(m);
      var rest := m - {k};
      SumOverCredentials(rest, log, clock, f);
      TotalSplit(log, clock, f.(cred := In(m.Keys)), f.(cred := In({k})), f.(cred := In(rest.Keys)));
    }
  }

  // The maps of a bucket are consistent marginals of one another.
  lemma Marginals(b: Bucket, log: seq<Event>, clock: int -> int)
    requires IsGroupBy(b, log, clock)
    ensures SumValues(b.byKey) == b.overall
    ensures SumValues(b.byModel) == b.overall
    ensures b.overall == Plus(SumValues(b.byCredential), Total(log, clock, ByCredential(b.ts, 0)))
    ensures forall k :: SumValues(GetGroup(b.byKeyModel, k)) == GetStats(b.byKey, k)
    ensures forall m :: SumValues(Column(b.byKeyModel, m)) == GetStats(b.byModel, m)
    ensures forall c :: SumValues(Column(b.byKeyCredential, c)) == GetStats(b.byCredential, c)
    ensures forall k :: (GetStats(b.byKey, k)
      == Plus(SumValues(GetGroup(b.byKeyCredential, k)), Total(log, clock, ByKeyCredential(b.ts, k, 0))))
  {
    KeyMarginal(b, log, clock);
    ModelMarginal(b, log, clock);
    CredentialMarginal(b, log, clock);
    forall k ensures SumValues(GetGroup(b.byKeyModel, k)) == GetStats(b.byKey, k) {
      KeyModelMarginal(b, k, log, clock);
    }
    forall m ensures SumValues(Column(b.byKeyModel, m)) == GetStats(b.byModel, m) {
      ModelColumn(b, m, log, clock);
    }
    forall c ensures SumValues(Column(b.byKeyCredential, c)) == GetStats(b.byCredential, c) {
      CredentialColumn(b, c, log, clock);
    }
    forall k ensures GetStats(b.byKey, k)
      == Plus(SumValues(GetGroup(b.byKeyCredential, k)), Total(log, clock, ByKeyCredential(b.ts, k, 0)))
    {
      KeyCredentialMarginal(b, k, log, clock);
    }
  }

  // The cells of one inner key, across all outer keys.
  function Column<K, L>(m: map<K, map<L, Stats>>, x: L): map<K, Stats> {
    map k | k in m && x in m[k] :: m[k][x]
  }

  // An absent cell stands for a zero total.
  lemma CellValue<K>(m: map<K, Stats>, k: K, log: seq<Event>, clock: int -> int, f: Filter)
    requires Cell(m, k, Total(log, clock, f))
    ensures GetStats(m, k) == Total(log, clock, f)
  {
    TotalEmpty(log, clock, f);
  }

  lemma KeyMarginal(b: Bucket, log: seq<Event>, clock: int -> int)
    requires IsGroupBy(b, log, clock)
    ensures SumValues(b.byKey) == b.overall
  {
    var f := AtTime(b.ts);
    forall k | k in b.byKey ensures b.byKey[k] == Total(log, clock, f.(key := In({k}))) {
      assert Cell(b.byKey, k, Total(log, clock, ByKey(b.ts, k)));
    }
    SumOverKeys(b.byKey, log, clock, f);
    forall i | 0 <= i < |log|
      ensures Selects(f, clock, log[i]) <==> Selects(f.(key := In(b.byKey.Keys)), clock, log[i])
    {
      TotalEmpty(log, clock, ByKey(b.ts, log[i].rec.keyId));
    }
    TotalCongruent(log, clock, f, f.(key := In(b.byKey.Keys)));
  }

  lemma ModelMarginal(b: Bucket, log: seq<Event>, clock: int -> int)
    requires IsGroupBy(b, log, clock)
    ensures SumValues(b.byModel) == b.overall
  {
    var f := AtTime(b.ts);
    forall k | k in b.byModel ensures b.byModel[k] == Total(log, clock, f.(model := In({k}))) {
      assert Cell(b.byModel, k, Total(log, clock, ByModel(b.ts, k)));
    }
    SumOverModels(b.byModel, log, clock, f);
    forall i | 0 <= i < |log|
      ensures Selects(f, clock, log[i]) <==> Selects(f.(model := In(b.byModel.Keys)), clock, log[i])
    {
      TotalEmpty(log, clock, ByModel(b.ts, log[i].rec.model));
    }
    TotalCongruent(log, clock, f, f.(model := In(b.byModel.Keys)));
  }

  lemma CredentialMarginal(b: Bucket, log: seq<Event>, clock: int -> int)
    requires IsGroupBy(b, log, clock)
    ensures SumValues(b.byCredential) == Total(log, clock, AtTime(b.ts).(cred := Except({0})))
    ensures b.overall == Plus(SumValues(b.byCredential), Total(log, clock, ByCredential(b.ts, 0)))
  {
    var f := AtTime(b.ts);
    var upstream := f.(cred := Except({0}));
    var seen := f.(cred := In(b.byCredential.Keys));
    forall k | k in b.byCredential ensures b.byCredential[k] == Total(log, clock, f.(cred := In({k}))) {
      assert Cell(b.byCredential, k, Total(log, clock, ByCredential(b.ts, k)));
    }
    SumOverCredentials(b.byCredential, log, clock, f);
    forall i | 0 <= i < |log| ensures Selects(upstream, clock, log[i]) <==> Selects(seen, clock, log[i]) {
      TotalEmpty(log, clock, ByCredential(b.ts, log[i].rec.credentialId));
    }
    TotalCongruent(log, clock, upstream, seen);
    TotalSplit(log, clock, f, upstream, ByCredential(b.ts, 0));
  }

  lemma KeyModelMarginal(b: Bucket, k: nat, log: seq<Event>, clock: int -> int)
    requires IsGroupBy(b, log, clock)
    ensures SumValues(GetGroup(b.byKeyModel, k)) == GetStats(b.byKey, k)
  {
    var f, group := ByKey(b.ts, k), GetGroup(b.byKeyModel, k);
    forall m | m in group ensures group[m] == Total(log, clock, f.(model := In({m}))) {
      assert Cell(group, m, Total(log, clock, ByKeyModel(b.ts, k, m)));
    }
    SumOverModels(group, log, clock, f);
    forall i | 0 <= i < |log|
      ensures Selects(f, clock, log[i]) <==> Selects(f.(model := In(group.Keys)), clock, log[i])
    {
      TotalEmpty(log, clock, ByKeyModel(b.ts, k, log[i].rec.model));
    }
    TotalCongruent(log, clock, f, f.(model := In(group.Keys)));
    CellValue(b.byKey, k, log, clock, f);
  }

  lemma KeyCredentialMarginal(b: Bucket, k: nat, log: seq<Event>, clock: int -> int)
    requires IsGroupBy(b, log, clock)
    ensures SumValues(GetGroup(b.byKeyCredential, k)) == Total(log, clock, ByKeyUpstream(b.ts, k))
    ensures GetStats(b.byKey, k)
      == Plus(SumValues(GetGroup(b.byKeyCredential, k)), Total(log, clock, ByKeyCredential(b.ts, k, 0)))
  {
    hide SumValues, Total;
    var f, group := ByKey(b.ts, k), GetGroup(b.byKeyCredential, k);
    var seen := f.(cred := In(group.Keys));
    assert 0 !in group;
    forall c | c in group ensures group[c] == Total(log, clock, f.(cred := In({c}))) {
      assert Cell(group, c, Total(log, clock, ByKeyCredential(b.ts, k, c)));
    }
    SumOverCredentials(group, log, clock, f);
    forall i | 0 <= i < |log| ensures Selects(ByKeyUpstream(b.ts, k), clock, log[i]) <==> Selects(seen, clock, log[i]) {
      TotalEmpty(log, clock, ByKeyCredential(b.ts, k, log[i].rec.credentialId));
    }
    TotalCongruent(log, clock, ByKeyUpstream(b.ts, k), seen);
    TotalSplit(log, clock, f, ByKeyUpstream(b.ts, k), ByKeyCredential(b.ts, k, 0));
    CellValue(b.byKey, k, log, clock, f);
  }

  lemma ModelColumn(b: Bucket, m: string, log: seq<Event>, clock: int -> int)
    requires IsGroupBy(b, log, clock)
    ensures SumValues(Column(b.byKeyModel, m)) == GetStats(b.byModel, m)
  {
    var f, column := ByModel(b.ts, m), Column(b.byKeyModel, m);
    forall k | k in column ensures column[k] == Total(log, clock, f.(key := In({k}))) {
      assert Cell(GetGroup(b.byKeyModel, k), m, Total(log, clock, ByKeyModel(b.ts, k, m)));
    }
    SumOverKeys(column, log, clock, f);
    forall i | 0 <= i < |log|
      ensures Selects(f, clock, log[i]) <==> Selects(f.(key := In(column.Keys)), clock, log[i])
    {
      var k := log[i].rec.keyId;
      TotalEmpty(log, clock, ByKeyModel(b.ts, k, m));
      assert Cell(GetGroup(b.byKeyModel, k), m, Total(log, clock, ByKeyModel(b.ts, k, m)));
    }
    TotalCongruent(log, clock, f, f.(key := In(column.Keys)));
    CellValue(b.byModel, m, log, clock, f);
  }

  lemma CredentialColumn(b: Bucket, c: nat, log: seq<Event>, clock: int -> int)
    requires IsGroupBy(b, log, clock)
    ensures SumValues(Column(b.byKeyCredential, c)) == GetStats(b.byCredential, c)
  {
    var column := Column(b.byKeyCredential, c);
    if c == 0 {
      forall k ensures k !in column {
        assert 0 !in GetGroup(b.byKeyCredential, k);
      }
      assert column == map[];
    } else {
      var f := ByCredential(b.ts, c);
      forall k | k in column ensures column[k] == Total(log, clock, f.(key := In({k}))) {
        assert Cell(GetGroup(b.byKeyCredential, k), c, Total(log, clock, ByKeyCredential(b.ts, k, c)));
      }
      SumOverKeys(column, log, clock, f);
      forall i | 0 <= i < |log|
        ensures Selects(f, clock, log[i]) <==> Selects(f.(key := In(column.Keys)), clock, log[i])
      {
        var k := log[i].rec.keyId;
        TotalEmpty(log, clock, ByKeyCredential(b.ts, k, c));
        assert Cell(GetGroup(b.byKeyCredential, k), c, Total(log, clock, ByKeyCredential(b.ts, k, c)));
      }
      TotalCongruent(log, clock, f, f.(key := In(column.Keys)));
      CellValue(b.byCredential, c, log, clock, f);
    }
  }
}
