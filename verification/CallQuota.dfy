// A call quota checked at admission and counted at settlement, under concurrent requests.
module CallQuota {
  import opened ClientKeys
  import opened Wrappers

  // One key and the requests admitted with it that have neither succeeded nor failed yet.
  datatype State = State(entry: ClientKey, inFlight: nat)

  datatype Step = Admit(now: string) | Succeed(usage: Usage, now: string) | Fail

  // At most `cap` requests are in flight at once.
  function Next(s: State, step: Step, cap: nat): Option<State> {
    match step
    case Admit(now) =>
      if s.inFlight < cap && Denied(s.entry, s.entry.id).None?
      then Some(State(Touched(s.entry, now), s.inFlight + 1)) else None
    case Succeed(usage, now) =>
      if s.inFlight > 0 then Some(State(Charged(s.entry, usage, true, now), s.inFlight - 1)) else None
    case Fail =>
      if s.inFlight > 0 then Some(s.(inFlight := s.inFlight - 1)) else None
  }

  // The state after the steps, if all of them can happen.
  function After(s: State, steps: seq<Step>, cap: nat): Option<State>
    decreases |steps|
  {
    if steps == [] then Some(s)
    else match Next(s, steps[0], cap)
      case None => None
      case Some(t) => After(t, steps[1..], cap)
  }

  predicate Limited(e: ClientKey, limit: nat) {
    e.billingMode == Calls && e.maxCalls == Some(limit)
  }

  lemma DeniedWhen(e: ClientKey, limit: nat)
    requires Limited(e, limit)
    ensures Denied(e, e.id).None? <==> e.totalSuccessfulCalls < limit
  {
  }

  lemma TouchedCount(e: ClientKey, limit: nat, now: string)
    requires Limited(e, limit)
    ensures Limited(Touched(e, now), limit) && Touched(e, now).totalSuccessfulCalls == e.totalSuccessfulCalls
  {
  }

  lemma ChargedCount(e: ClientKey, limit: nat, usage: Usage, now: string)
    requires Limited(e, limit)
    ensures Limited(Charged(e, usage, true, now), limit)
    ensures Charged(e, usage, true, now).totalSuccessfulCalls
         == if e.totalSuccessfulCalls < U64Max() then e.totalSuccessfulCalls + 1 else e.totalSuccessfulCalls
  {
  }

  // Successes plus requests in flight stay below limit + cap.
  predicate Bounded(s: State, limit: nat, cap: nat, before: nat) {
    && Limited(s.entry, limit)
    && (if before < limit then s.entry.totalSuccessfulCalls + s.inFlight < limit + cap
        else s.inFlight == 0 && s.entry.totalSuccessfulCalls == before)
  }

  lemma NextBounded(s: State, step: Step, limit: nat, cap: nat, before: nat)
    requires Bounded(s, limit, cap, before) && Next(s, step, cap).Some?
    ensures Bounded(Next(s, step, cap).value, limit, cap, before)
  {
    hide Touched, Charged, Denied;
    match step
    case Admit(now) =>
      DeniedWhen(s.entry, limit);
      TouchedCount(s.entry, limit, now);
    case Succeed(usage, now) =>
      ChargedCount(s.entry, limit, usage, now);
    case Fail =>
  }

  lemma {:induction false} RunBounded(s: State, steps: seq<Step>, limit: nat, cap: nat, before: nat)
    requires Bounded(s, limit, cap, before) && After(s, steps, cap).Some?
    ensures Bounded(After(s, steps, cap).value, limit, cap, before)
    decreases |steps|
  {
    hide Next, Bounded;
    if steps != [] {
      NextBounded(s, steps[0], limit, cap, before);
      RunBounded(Next(s, steps[0], cap).value, steps[1..], limit, cap, before);
    }
  }

  // In every interleaving the successes never exceed limit + cap - 1; a key at its limit, so any
  // key with limit 0, is never admitted again.
  lemma SuccessesBounded(e: ClientKey, steps: seq<Step>, limit: nat, cap: nat)
    requires Limited(e, limit) && cap > 0 && After(State(e, 0), steps, cap).Some?
    ensures var end := After(State(e, 0), steps, cap).value;
            if e.totalSuccessfulCalls < limit then end.entry.totalSuccessfulCalls <= limit + cap - 1
            else end.entry.totalSuccessfulCalls == e.totalSuccessfulCalls && end.inFlight == 0 && steps == []
  {
    hide Next;
    RunBounded(State(e, 0), steps, limit, cap, e.totalSuccessfulCalls);
    if e.totalSuccessfulCalls >= limit && steps != [] {
      NothingHappens(State(e, 0), steps[0], limit, cap);
    }
  }

  lemma NothingHappens(s: State, step: Step, limit: nat, cap: nat)
    requires Limited(s.entry, limit) && s.entry.totalSuccessfulCalls >= limit && s.inFlight == 0
    ensures Next(s, step, cap).None?
  {
    hide Touched, Charged, Denied;
    DeniedWhen(s.entry, limit);
  }

  // ----- the bound is reached -----

  function Repeat(step: Step, n: nat): seq<Step> {
    if n == 0 then [] else [step] + Repeat(step, n - 1)
  }

  // One after another until one call is left, then `cap` at once.
  function Burst(admit: Step, succeed: Step, limit: nat, cap: nat): seq<Step>
    requires limit > 0
  {
    if limit == 1 then Repeat(admit, cap) + Repeat(succeed, cap)
    else [admit, succeed] + Burst(admit, succeed, limit - 1, cap)
  }

  lemma {:induction false} AfterConcat(s: State, a: seq<Step>, b: seq<Step>, cap: nat)
    ensures After(s, a + b, cap)
         == match After(s, a, cap) { case None => None case Some(t) => After(t, b, cap) }
    decreases |a|
  {
    hide Next;
    if a == [] {
      assert a + b == b;
    } else {
      assert (a + b)[0] == a[0] && (a + b)[1..] == a[1..] + b;
      if Next(s, a[0], cap).Some? {
        AfterConcat(Next(s, a[0], cap).value, a[1..], b, cap);
      }
    }
  }

  // A state with these counts, whatever else the entry holds.
  predicate At(s: Option<State>, limit: nat, successes: nat, inFlight: nat) {
    && s.Some? && Limited(s.value.entry, limit)
    && s.value.entry.totalSuccessfulCalls == successes && s.value.inFlight == inFlight
  }

  lemma AdmitAt(s: State, limit: nat, successes: nat, inFlight: nat, cap: nat, now: string)
    requires At(Some(s), limit, successes, inFlight) && successes < limit && inFlight < cap
    ensures At(Next(s, Admit(now), cap), limit, successes, inFlight + 1)
  {
    hide Touched, Denied;
    DeniedWhen(s.entry, limit);
    TouchedCount(s.entry, limit, now);
  }

  lemma SucceedAt(s: State, limit: nat, successes: nat, inFlight: nat, cap: nat, usage: Usage, now: string)
    requires At(Some(s), limit, successes, inFlight) && successes < U64Max() && inFlight > 0
    ensures At(Next(s, Succeed(usage, now), cap), limit, successes + 1, inFlight - 1)
  {
    hide Charged;
    ChargedCount(s.entry, limit, usage, now);
  }

  lemma {:induction false} AdmitMany(s: State, limit: nat, successes: nat, inFlight: nat, cap: nat, n: nat, now: string)
    requires At(Some(s), limit, successes, inFlight) && successes < limit && inFlight + n <= cap
    ensures At(After(s, Repeat(Admit(now), n), cap), limit, successes, inFlight + n)
    decreases n
  {
    if n > 0 {
      hide Next, At, Limited;
      AdmitAt(s, limit, successes, inFlight, cap, now);
      AtSome(Next(s, Admit(now), cap), limit, successes, inFlight + 1);
      AdmitMany(Next(s, Admit(now), cap).value, limit, successes, inFlight + 1, cap, n - 1, now);
      assert Repeat(Admit(now), n)[1..] == Repeat(Admit(now), n - 1);
    }
  }

  lemma AtSome(s: Option<State>, limit: nat, successes: nat, inFlight: nat)
    requires At(s, limit, successes, inFlight)
    ensures s.Some? && At(Some(s.value), limit, successes, inFlight)
  {
  }

  lemma {:induction false} SucceedMany(s: State, limit: nat, successes: nat, cap: nat, n: nat, usage: Usage,
                                       now: string)
    requires At(Some(s), limit, successes, n) && successes + n <= U64Max()
    ensures At(After(s, Repeat(Succeed(usage, now), n), cap), limit, successes + n, 0)
    decreases n
  {
    if n > 0 {
      hide Next, At, Limited, U64Max;
      SucceedAt(s, limit, successes, n, cap, usage, now);
      AtSome(Next(s, Succeed(usage, now), cap), limit, successes + 1, n - 1);
      SucceedMany(Next(s, Succeed(usage, now), cap).value, limit, successes + 1, cap, n - 1, usage, now);
      assert Repeat(Succeed(usage, now), n)[1..] == Repeat(Succeed(usage, now), n - 1);
    }
  }

  lemma {:induction false} BurstReaches(s: State, left: nat, limit: nat, successes: nat, cap: nat, usage: Usage,
                                        now: string)
    requires At(Some(s), limit, successes, 0) && left > 0 && successes + left == limit
    requires cap > 0 && limit + cap - 1 <= U64Max()
    ensures At(After(s, Burst(Admit(now), Succeed(usage, now), left, cap), cap), limit, limit + cap - 1, 0)
    decreases left
  {
    hide Next, At, Limited, U64Max;
    var admit, succeed := Admit(now), Succeed(usage, now);
    if left == 1 {
      AdmitMany(s, limit, successes, 0, cap, cap, now);
      AtSome(After(s, Repeat(admit, cap), cap), limit, successes, cap);
      AfterConcat(s, Repeat(admit, cap), Repeat(succeed, cap), cap);
      SucceedMany(After(s, Repeat(admit, cap), cap).value, limit, successes, cap, cap, usage, now);
    } else {
      AdmitAt(s, limit, successes, 0, cap, now);
      AtSome(Next(s, admit, cap), limit, successes, 1);
      var t := Next(s, admit, cap).value;
      SucceedAt(t, limit, successes, 1, cap, usage, now);
      AtSome(Next(t, succeed, cap), limit, successes + 1, 0);
      var u := Next(t, succeed, cap).value;
      BurstReaches(u, left - 1, limit, successes + 1, cap, usage, now);
      var rest := Burst(admit, succeed, left - 1, cap);
      var steps := [admit, succeed] + rest;
      assert steps[0] == admit && steps[1..] == [succeed] + rest;
      assert steps[1..][0] == succeed && steps[1..][1..] == rest;
      assert After(s, steps, cap) == After(t, steps[1..], cap);
      assert After(t, steps[1..], cap) == After(u, rest, cap);
    }
  }

  // So the bound is tight: some run with a fresh key reaches it.
  lemma BoundIsTight(e: ClientKey, limit: nat, cap: nat, usage: Usage, now: string)
    requires Limited(e, limit) && e.totalSuccessfulCalls == 0 && limit > 0 && cap > 0 && limit + cap - 1 <= U64Max()
    ensures exists steps :: After(State(e, 0), steps, cap).Some?
                            && After(State(e, 0), steps, cap).value.entry.totalSuccessfulCalls == limit + cap - 1
  {
    hide After, Burst;
    BurstReaches(State(e, 0), limit, limit, 0, cap, usage, now);
    var steps := Burst(Admit(now), Succeed(usage, now), limit, cap);
    assert At(After(State(e, 0), steps, cap), limit, limit + cap - 1, 0);
  }
}
