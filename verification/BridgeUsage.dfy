// The usage report of a bridge run: what aggregate_usage adds up over the rounds.
module BridgeUsage {
  import opened Collections
  import opened JsonValues

  function CreditKey(): string { "credit_usage" }

  // The value of field `key` after merging `v` into `was` (Null when the field is missing).
  function MergedField(key: string, was: Json, v: Json): Json
    decreases v, 1
  {
    if IsI64(v) then Num(SaturatingAdd(IntOrZero(was), v.n))
    else if key == CreditKey() then Float(NumberOf(was) + NumberOf(v))
    else if v.Obj? then Obj(Merge(if was.Obj? then was.fields else map[], v))
    else v
  }

  function Merge(total: map<string, Json>, usage: Json): map<string, Json>
    decreases usage, 0
  {
    if usage.Obj? then
      map k | k in total.Keys + usage.fields.Keys ::
        if k in usage.fields then MergedField(k, Get(Obj(total), k), usage.fields[k]) else total[k]
    else total
  }

  // The new value of one field.
  method MergeField(key: string, was: Json, v: Json) returns (r: Json)
    ensures r == MergedField(key, was, v)
    decreases v, 1
  {
    if IsI64(v) {
      r := Num(SaturatingAdd(IntOrZero(was), v.n));
    } else if key == CreditKey() {
      r := Float(NumberOf(was) + NumberOf(v));
    } else if v.Obj? {
      var inner := AggregateUsage(if was.Obj? then was.fields else map[], v);
      r := Obj(inner);
    } else {
      r := v;
    }
  }

  ghost predicate MergedSoFar(r: map<string, Json>, total: map<string, Json>, fields: map<string, Json>,
                              todo: set<string>)
  {
    && r.Keys == total.Keys + (fields.Keys - todo)
    && (forall k :: k in fields && k !in todo ==> r[k] == MergedField(k, Get(Obj(total), k), fields[k]))
    && (forall k :: k in total && (k !in fields || k in todo) ==> r[k] == total[k])
  }

  lemma MergeStart(total: map<string, Json>, fields: map<string, Json>)
    ensures MergedSoFar(total, total, fields, fields.Keys)
  {
    hide MergedField;
    AllVisited(fields.Keys);
  }

  lemma MergeUntouched(r: map<string, Json>, total: map<string, Json>, fields: map<string, Json>, todo: set<string>,
                       key: string)
    requires MergedSoFar(r, total, fields, todo) && todo <= fields.Keys && key in todo
    ensures Get(Obj(r), key) == Get(Obj(total), key)
  {
    hide MergedField;
  }

  lemma MergeStep(r: map<string, Json>, total: map<string, Json>, fields: map<string, Json>, todo: set<string>,
                  key: string, x: Json)
    requires MergedSoFar(r, total, fields, todo) && todo <= fields.Keys && key in todo
    requires x == MergedField(key, Get(Obj(total), key), fields[key])
    ensures MergedSoFar(r[key := x], total, fields, todo - {key})
  {
    hide MergedField;
    VisitedGrows(fields.Keys, todo, key);
  }

  lemma MergeDone(r: map<string, Json>, total: map<string, Json>, usage: Json)
    requires usage.Obj? && MergedSoFar(r, total, usage.fields, {})
    ensures r == Merge(total, usage)
  {
    hide MergedField, Get;
    AllVisited(usage.fields.Keys);
  }

  // The loop over the fields, which may come in any order.
  method AggregateUsage(total: map<string, Json>, usage: Json) returns (r: map<string, Json>)
    ensures r == Merge(total, usage)
    decreases usage, 0
  {
    r := total;
    if usage.Obj? {
      hide MergedField, Merge, MergedSoFar, Get;
      var todo := usage.fields.Keys;
      MergeStart(total, usage.fields);
      while todo != {}
        invariant todo <= usage.fields.Keys
        invariant MergedSoFar(r, total, usage.fields, todo)
        decreases |todo|
      {
        var key, rest := TakeMember(todo);
        MergeUntouched(r, total, usage.fields, todo, key);
        var x := MergeField(key, Get(Obj(r), key), usage.fields[key]);
        MergeStep(r, total, usage.fields, todo, key, x);
        r, todo := r[key := x], rest;
      }
      MergeDone(r, total, usage);
    }
  }

  // ----- one field: exactly when the merged number is the sum -----

  // An integer adds to an integer unless it saturates, and replaces anything else; a credit adds;
  // every other value replaces.
  predicate KeepsSum(key: string, was: Json, v: Json) {
    if IsI64(v) && IsI64(was) then InI64(was.n + v.n)
    else (!IsI64(v) && key == CreditKey()) || NumberOf(was) == 0.0
  }

  lemma FieldSum(key: string, was: Json, v: Json)
    ensures NumberOf(MergedField(key, was, v)) == NumberOf(was) + NumberOf(v) <==> KeepsSum(key, was, v)
  {
    hide CreditKey, I64Min, I64Max, Merge;
    if IsI64(v) && IsI64(was) {
      IntSum(was.n, v.n);
    }
  }

  lemma IntSum(a: int, b: int)
    ensures SaturatingAdd(a, b) as real == a as real + b as real <==> InI64(a + b)
  {
    assert a as real + b as real == (a + b) as real;
  }

  // Half a credit, then a whole one written as an integer: the half is lost.
  lemma IntegerCreditLosesFraction()
    ensures NumberOf(MergedField("credit_usage", Float(0.5), Num(1))) == 1.0
    ensures NumberOf(MergedField("credit_usage", Float(0.5), Float(1.0))) == 1.5
  {
  }

  // ----- whole reports, whole runs -----

  // What kind of value each field of a report holds.
  datatype Shape = Counter | Credit | Label | Group(fields: map<string, Shape>)

  predicate Fits(j: Json, s: Shape) {
    match s
    case Counter => IsI64(j)
    case Credit => j.Float?
    case Label => !j.Num? && !j.Float? && !j.Obj?
    case Group(shapes) =>
      j.Obj? && forall k :: k in j.fields ==>
        k in shapes && (shapes[k].Credit? <==> k == CreditKey()) && Fits(j.fields[k], shapes[k])
  }

  // The number found by following `path` from field to field; 0 when there is none.
  function AmountAt(j: Json, path: seq<string>): real {
    if path == [] then NumberOf(j)
    else if j.Obj? && path[0] in j.fields then AmountAt(j.fields[path[0]], path[1..])
    else 0.0
  }

  predicate InRange(x: real) {
    I64Min() as real <= x <= I64Max() as real
  }

  lemma {:induction false} FieldFits(key: string, was: Json, v: Json, s: Shape)
    requires Fits(v, s) && (was == Null || Fits(was, s)) && (s.Credit? <==> key == CreditKey())
    ensures Fits(MergedField(key, was, v), s)
    decreases s
  {
    hide CreditKey;
    if s.Group? {
      var total := if was.Obj? then was.fields else map[];
      var merged := Merge(total, v);
      forall k | k in merged ensures
        k in s.fields && (s.fields[k].Credit? <==> k == CreditKey()) && Fits(merged[k], s.fields[k])
      {
        if k in v.fields {
          FieldFits(k, Get(Obj(total), k), v.fields[k], s.fields[k]);
        }
      }
    }
  }

  // Merging adds the amounts at every path, as long as that sum is an i64.
  lemma {:induction false} FieldAmount(key: string, was: Json, v: Json, s: Shape, path: seq<string>)
    requires Fits(v, s) && (was == Null || Fits(was, s)) && (s.Credit? <==> key == CreditKey())
    requires InRange(AmountAt(was, path) + AmountAt(v, path))
    ensures AmountAt(MergedField(key, was, v), path) == AmountAt(was, path) + AmountAt(v, path)
    decreases path
  {
    hide CreditKey;
    if path == [] {
      if s.Counter? {
        IntRange(IntOrZero(was), v.n);
      }
    } else if s.Group? {
      var k := path[0];
      var total := if was.Obj? then was.fields else map[];
      if k in v.fields {
        assert AmountAt(Get(Obj(total), k), path[1..]) == AmountAt(was, path) by {
          NullAmount(path[1..]);
        }
        FieldAmount(k, Get(Obj(total), k), v.fields[k], s.fields[k], path[1..]);
      }
    }
  }

  lemma NullAmount(path: seq<string>)
    ensures AmountAt(Null, path) == 0.0
  {
  }

  lemma IntRange(a: int, b: int)
    requires InRange(a as real + b as real)
    ensures SaturatingAdd(a, b) as real == a as real + b as real
  {
    assert a as real + b as real == (a + b) as real;
  }

  // The report after the rounds whose own reports are `us`.
  function Reported(us: seq<Json>): map<string, Json> {
    if us == [] then map[] else Merge(Reported(us[..|us| - 1]), us[|us| - 1])
  }

  function SumAt(us: seq<Json>, path: seq<string>): real {
    if us == [] then 0.0 else SumAt(us[..|us| - 1], path) + AmountAt(us[|us| - 1], path)
  }

  // No running total along the way leaves the i64 range.
  predicate NoOverflow(us: seq<Json>, path: seq<string>) {
    us == [] || (NoOverflow(us[..|us| - 1], path) && InRange(SumAt(us, path)))
  }

  predicate AllFit(us: seq<Json>, s: Shape) {
    s.Group? && forall i :: 0 <= i < |us| ==> Fits(us[i], s)
  }

  // Reports of one shape add up pointwise: at every path the run reports the sum over its rounds.
  lemma {:induction false} ReportIsPointwiseSum(us: seq<Json>, s: Shape, path: seq<string>)
    requires AllFit(us, s) && NoOverflow(us, path)
    ensures Fits(Obj(Reported(us)), s)
    ensures AmountAt(Obj(Reported(us)), path) == SumAt(us, path)
  {
    if us == [] {
      EmptyReport(s, path);
    } else {
      hide Merge, MergedField, Fits, AmountAt, InRange;
      var earlier, last := us[..|us| - 1], us[|us| - 1];
      ReportIsPointwiseSum(earlier, s, path);
      MergeAmount(Reported(earlier), last, s, path);
    }
  }

  lemma EmptyReport(s: Shape, path: seq<string>)
    requires s.Group?
    ensures Fits(Obj(map[]), s) && AmountAt(Obj(map[]), path) == 0.0
  {
  }

  lemma MergeAmount(total: map<string, Json>, usage: Json, s: Shape, path: seq<string>)
    requires s.Group? && Fits(Obj(total), s) && Fits(usage, s)
    requires InRange(AmountAt(Obj(total), path) + AmountAt(usage, path))
    ensures Fits(Obj(Merge(total, usage)), s)
    ensures AmountAt(Obj(Merge(total, usage)), path) == AmountAt(Obj(total), path) + AmountAt(usage, path)
  {
    NotCredit();
    assert MergedField([], Obj(total), usage) == Obj(Merge(total, usage));
    FieldFits([], Obj(total), usage, s);
    FieldAmount([], Obj(total), usage, s, path);
  }

  lemma NotCredit()
    ensures [] != CreditKey()
  {
  }

  // ----- any reports: exactly when they add up -----

  // Following `path` inside the field, the merged amount is the sum.
  predicate KeepsSumAt(key: string, was: Json, v: Json, path: seq<string>)
    decreases path
  {
    if path == [] then KeepsSum(key, was, v)
    else if IsI64(v) || key == CreditKey() then AmountAt(was, path) + AmountAt(v, path) == 0.0
    else if v.Obj? then
      path[0] in v.fields ==> KeepsSumAt(path[0], Get(was, path[0]), v.fields[path[0]], path[1..])
    else AmountAt(was, path) == 0.0
  }

  lemma {:induction false} FieldSumAt(key: string, was: Json, v: Json, path: seq<string>)
    ensures AmountAt(MergedField(key, was, v), path) == AmountAt(was, path) + AmountAt(v, path)
        <==> KeepsSumAt(key, was, v, path)
    decreases path
  {
    hide CreditKey;
    if path == [] {
      FieldSum(key, was, v);
    } else if !IsI64(v) && key != CreditKey() && v.Obj? {
      hide MergedField;
      InsideMerged(key, was, v, path);
      if path[0] in v.fields {
        FieldSumAt(path[0], Get(was, path[0]), v.fields[path[0]], path[1..]);
      }
    }
  }

  lemma AmountInside(j: Json, path: seq<string>)
    requires path != []
    ensures AmountAt(j, path) == AmountAt(Get(j, path[0]), path[1..])
  {
    NullAmount(path[1..]);
  }

  // One step into a merged object.
  lemma InsideMerged(key: string, was: Json, v: Json, path: seq<string>)
    requires path != [] && v.Obj? && key != CreditKey()
    ensures AmountAt(was, path) == AmountAt(Get(was, path[0]), path[1..])
    ensures AmountAt(v, path) == AmountAt(Get(v, path[0]), path[1..])
    ensures path[0] in v.fields ==>
      AmountAt(MergedField(key, was, v), path)
      == AmountAt(MergedField(path[0], Get(was, path[0]), v.fields[path[0]]), path[1..])
    ensures path[0] !in v.fields ==>
      AmountAt(MergedField(key, was, v), path) == AmountAt(was, path) && AmountAt(v, path) == 0.0
  {
    hide CreditKey, AmountAt;
    AmountInside(was, path);
    AmountInside(v, path);
    AmountInside(MergedField(key, was, v), path);
    NullAmount(path[1..]);
    var k, total := path[0], if was.Obj? then was.fields else map[];
    assert MergedField(key, was, v) == Obj(Merge(total, v));
    assert Get(Obj(total), k) == Get(was, k);
    if k in v.fields {
      assert Get(Obj(Merge(total, v)), k) == MergedField(k, Get(was, k), v.fields[k]);
    } else {
      assert Get(Obj(Merge(total, v)), k) == Get(was, k);
    }
  }

  // No number in it is negative.
  predicate NonNegative(j: Json) {
    match j
    case Num(n) => n >= 0
    case Float(x) => x >= 0.0
    case Obj(fields) => forall k :: k in fields ==> NonNegative(fields[k])
    case _ => true
  }

  lemma {:induction false} NonNegativeAmount(j: Json, path: seq<string>)
    requires NonNegative(j)
    ensures AmountAt(j, path) >= 0.0
    decreases path
  {
    if path != [] && j.Obj? && path[0] in j.fields {
      NonNegativeAmount(j.fields[path[0]], path[1..]);
    }
  }

  // Merging keeps numbers non-negative, and never reports more than the sum.
  lemma {:induction false} MergedNonNegative(key: string, was: Json, v: Json)
    requires NonNegative(was) && NonNegative(v)
    ensures NonNegative(MergedField(key, was, v))
    decreases v
  {
    hide CreditKey;
    if !IsI64(v) && key != CreditKey() && v.Obj? {
      var total := if was.Obj? then was.fields else map[];
      var merged := Merge(total, v);
      forall k | k in merged ensures NonNegative(merged[k]) {
        if k in v.fields {
          MergedNonNegative(k, Get(Obj(total), k), v.fields[k]);
        }
      }
    }
  }

  lemma {:induction false} NeverMore(key: string, was: Json, v: Json, path: seq<string>)
    requires NonNegative(was) && NonNegative(v)
    ensures AmountAt(MergedField(key, was, v), path) <= AmountAt(was, path) + AmountAt(v, path)
    decreases path
  {
    hide CreditKey;
    NonNegativeAmount(was, path);
    NonNegativeAmount(v, path);
    if path == [] {
      if IsI64(v) {
        SaturatesDown(IntOrZero(was), v.n);
      }
    } else if !IsI64(v) && key != CreditKey() && v.Obj? {
      hide MergedField;
      InsideMerged(key, was, v, path);
      if path[0] in v.fields {
        NeverMore(path[0], Get(was, path[0]), v.fields[path[0]], path[1..]);
      }
    }
  }

  lemma SaturatesDown(a: int, b: int)
    requires a >= 0 && b >= 0
    ensures SaturatingAdd(a, b) as real <= a as real + b as real
  {
    assert a as real + b as real == (a + b) as real;
  }

  // Every merge of the run keeps the sum at the path.
  predicate AllKeep(us: seq<Json>, path: seq<string>) {
    us == [] || (AllKeep(us[..|us| - 1], path) && StepKeeps(Reported(us[..|us| - 1]), us[|us| - 1], path))
  }

  predicate StepKeeps(total: map<string, Json>, usage: Json, path: seq<string>) {
    if usage.Obj? then KeepsSumAt([], Obj(total), usage, path) else AmountAt(usage, path) == 0.0
  }

  predicate AllNonNegative(us: seq<Json>) {
    forall i :: 0 <= i < |us| ==> NonNegative(us[i])
  }

  // Reports of any shapes without negative numbers: at a path the run reports the sum over its
  // rounds exactly when every merge keeps it there.
  lemma {:induction false} ReportAddsUpIff(us: seq<Json>, path: seq<string>)
    requires AllNonNegative(us)
    ensures NonNegative(Obj(Reported(us)))
    ensures AmountAt(Obj(Reported(us)), path) <= SumAt(us, path)
    ensures AmountAt(Obj(Reported(us)), path) == SumAt(us, path) <==> AllKeep(us, path)
  {
    if us == [] {
      NothingReported(path);
    } else {
      hide Merge, MergedField, AmountAt, NonNegative, StepKeeps;
      var earlier, last := us[..|us| - 1], us[|us| - 1];
      ReportAddsUpIff(earlier, path);
      MergeStepIff(Reported(earlier), last, path);
    }
  }

  lemma NothingReported(path: seq<string>)
    ensures NonNegative(Obj(map[])) && AmountAt(Obj(map[]), path) == 0.0
  {
  }

  lemma MergeStepIff(total: map<string, Json>, usage: Json, path: seq<string>)
    requires NonNegative(Obj(total)) && NonNegative(usage)
    ensures NonNegative(Obj(Merge(total, usage)))
    ensures AmountAt(Obj(Merge(total, usage)), path) <= AmountAt(Obj(total), path) + AmountAt(usage, path)
    ensures AmountAt(Obj(Merge(total, usage)), path) == AmountAt(Obj(total), path) + AmountAt(usage, path)
        <==> StepKeeps(total, usage, path)
  {
    if usage.Obj? {
      NotCredit();
      assert MergedField([], Obj(total), usage) == Obj(Merge(total, usage));
      MergedNonNegative([], Obj(total), usage);
      NeverMore([], Obj(total), usage, path);
      FieldSumAt([], Obj(total), usage, path);
    } else {
      NonNegativeAmount(usage, path);
    }
  }
}
