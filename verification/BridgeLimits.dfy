// Retrying a rate-limited continuation, and the search allowance of each round.
module BridgeLimits {
  import opened JsonValues
  import opened BridgeUsage
  import opened Wrappers

  // ----- retries -----

  // The Retry-After header: seconds, a date (RFC 2822 text, as Unix seconds), or neither.
  datatype RetryAfter = Missing | Seconds(seconds: nat) | Date(at: int) | Unreadable

  function MaxRetries(): nat { 2 }

  // The bridge deadline of 120 s in nanoseconds, and one second.
  function Deadline(): int { 120 * Second() }

  function Second(): int { 1_000_000_000 }

  // The wait the server asked for; 5 s and then 10 s when it did not say.
  function AskedSeconds(header: RetryAfter, now: int, retry: nat): Option<nat> {
    match header
    case Missing => Some(if retry == 0 then 5 else 10)
    case Seconds(s) => Some(s)
    case Date(at) => Some(if at > now then at - now else 0)
    case Unreadable => None
  }

  // A delay is what the header asks for, rounded up to a second: never shorter, and for a date not
  // over before it.
  predicate Honours(header: RetryAfter, now: int, retry: nat, delay: nat) {
    match header
    case Missing => (retry == 0 && delay == 5) || (retry == 1 && delay == 10)
    case Seconds(s) => delay >= s && delay >= 1 && (delay == s || delay == 1)
    case Date(at) => now + delay >= at && delay >= 1 && (now + delay == at || delay == 1)
    case Unreadable => false
  }

  // The delay in seconds before retry number `retry`, `elapsed` nanoseconds into the run.
  function RetryDelay(status: int, header: RetryAfter, now: int, retry: nat, elapsed: nat): (r: Option<nat>)
    ensures r.Some? ==> status == 429 && retry < 2 && Honours(header, now, retry, r.value)
  {
    if status != 429 || retry >= MaxRetries() then None
    else match AskedSeconds(header, now, retry)
      case None => None
      case Some(seconds) =>
        var delay := if seconds < 1 then 1 else seconds;
        if elapsed > Deadline() then None
        else if (Deadline() - elapsed) / Second() > delay + 1 then Some(delay)
        else None
  }

  // A delay is granted exactly for a 429 answered in the first two tries, when it honours the header
  // and ends at least two seconds before the deadline of 120 s.
  predicate Grantable(status: int, header: RetryAfter, now: int, retry: nat, elapsed: nat, delay: nat) {
    && status == 429 && retry < 2
    && Honours(header, now, retry, delay)
    && elapsed + (delay + 2) * 1_000_000_000 <= 120_000_000_000
  }

  lemma GrantedIff(status: int, header: RetryAfter, now: int, retry: nat, elapsed: nat, delay: nat)
    ensures RetryDelay(status, header, now, retry, elapsed) == Some(delay)
        <==> Grantable(status, header, now, retry, elapsed, delay)
  {
    if elapsed <= Deadline() {
      WholeSeconds(Deadline() - elapsed, delay + 2);
    }
  }

  lemma WholeSeconds(n: nat, k: nat)
    ensures n / Second() >= k <==> n >= k * Second()
  {
  }

  // ----- searches -----

  datatype Tool = Tool(name: string, kind: Option<string>, maxUses: Option<int>)

  function I32Max(): int { 0x7FFF_FFFF }

  function I32Min(): int { -0x8000_0000 }

  predicate StartsWith(s: string, p: string) {
    |p| <= |s| && s[..|p|] == p
  }

  // The limits the request came with, for its web search tools in order.
  function SearchLimits(tools: seq<Tool>): seq<(string, Option<int>)> {
    if tools == [] then []
    else (if tools[0].kind.Some? && StartsWith(tools[0].kind.value, "web_search_")
          then [(tools[0].name, tools[0].maxUses)] else [])
         + SearchLimits(tools[1..])
  }

  // The first entry of that name.
  function LimitOf(limits: seq<(string, Option<int>)>, name: string): Option<int> {
    if limits == [] then None
    else if limits[0].0 == name then limits[0].1
    else LimitOf(limits[1..], name)
  }

  // The searches reported so far: capped at the largest i32, then cast to i32.
  function SearchesUsed(report: map<string, Json>): int {
    var n := IntOrZero(Get(Get(Obj(report), "server_tool_use"), "web_search_requests"));
    if n > I32Max() then I32Max() else (n - I32Min()) % 0x1_0000_0000 + I32Min()
  }

  // limit.saturating_sub(used).max(0)
  function Remaining(limit: int, used: int): int {
    var left := limit - used;
    if left > I32Max() then I32Max() else if left < 0 then 0 else left
  }

  function Capped(tool: Tool, limits: seq<(string, Option<int>)>, used: int): Tool {
    var limit := LimitOf(limits, tool.name);
    if limit.Some? then tool.(maxUses := Some(Remaining(limit.value, used))) else tool
  }

  function CappedTools(tools: seq<Tool>, limits: seq<(string, Option<int>)>, used: int): (r: seq<Tool>)
    ensures |r| == |tools|
    ensures forall i :: 0 <= i < |r| ==> r[i] == Capped(tools[i], limits, used)
  {
    if tools == [] then [] else [Capped(tools[0], limits, used)] + CappedTools(tools[1..], limits, used)
  }

  predicate IsWebSearch(tool: Tool) {
    tool.kind.Some? && |tool.kind.value| >= 11 && tool.kind.value[..11] == "web_search_"
  }

  // Tool `j` is the first web search tool of that name.
  predicate FirstNamed(tools: seq<Tool>, j: nat, name: string)
    requires j < |tools|
  {
    && IsWebSearch(tools[j]) && tools[j].name == name
    && forall k :: 0 <= k < j ==> !(IsWebSearch(tools[k]) && tools[k].name == name)
  }

  lemma {:induction false} LimitIsFirst(tools: seq<Tool>, name: string)
    ensures (forall j :: 0 <= j < |tools| ==> !FirstNamed(tools, j, name)) ==>
      LimitOf(SearchLimits(tools), name) == None
    ensures forall j :: 0 <= j < |tools| && FirstNamed(tools, j, name) ==>
      LimitOf(SearchLimits(tools), name) == tools[j].maxUses
  {
    if tools != [] {
      var rest := tools[1..];
      LimitIsFirst(rest, name);
      hide LimitOf, SearchLimits;
      LimitStep(tools, name);
      hide IsWebSearch;
      if IsWebSearch(tools[0]) && tools[0].name == name {
        assert FirstNamed(tools, 0, name);
      } else {
        forall j | 0 <= j < |rest| ensures FirstNamed(rest, j, name) <==> FirstNamed(tools, j + 1, name) {
          assert rest[j] == tools[j + 1];
          assert forall k :: 0 <= k < j ==> rest[k] == tools[k + 1];
        }
        forall j | 0 <= j < |tools| && FirstNamed(tools, j, name)
          ensures LimitOf(SearchLimits(tools), name) == tools[j].maxUses
        {
          assert FirstNamed(rest, j - 1, name);
        }
      }
    }
  }

  lemma LimitStep(tools: seq<Tool>, name: string)
    requires tools != []
    ensures LimitOf(SearchLimits(tools), name)
         == if IsWebSearch(tools[0]) && tools[0].name == name then tools[0].maxUses
            else LimitOf(SearchLimits(tools[1..]), name)
  {
    var rest := SearchLimits(tools[1..]);
    assert |"web_search_"| == 11;
    if IsWebSearch(tools[0]) {
      assert ([(tools[0].name, tools[0].maxUses)] + rest)[1..] == rest;
    } else {
      assert [] + rest == rest;
    }
  }

  lemma RemainingMeans(limit: int, used: int)
    requires 0 <= used
    ensures Remaining(limit, used)
         == if limit <= used then 0 else if limit - used <= 2_147_483_647 then limit - used else 2_147_483_647
  {
  }

  // What a round is sent for tool `i`: the first web search tool of its name gives the limit, of
  // which the searches so far are taken off; without one the tool stays as it is.
  lemma CappedMeans(tools: seq<Tool>, used: int, i: nat)
    requires i < |tools| && 0 <= used
    ensures var r := CappedTools(tools, SearchLimits(tools), used)[i];
            && r.name == tools[i].name && r.kind == tools[i].kind
            && (forall j :: 0 <= j < |tools| && FirstNamed(tools, j, tools[i].name) && tools[j].maxUses.Some? ==>
                  var limit := tools[j].maxUses.value;
                  r.maxUses == Some(if limit <= used then 0
                                    else if limit - used <= 2_147_483_647 then limit - used else 2_147_483_647))
            && ((forall j :: 0 <= j < |tools| && FirstNamed(tools, j, tools[i].name) ==> tools[j].maxUses.None?) ==>
                  r == tools[i])
  {
    hide FirstNamed, LimitOf, SearchLimits, Remaining;
    var name, limit := tools[i].name, LimitOf(SearchLimits(tools), tools[i].name);
    assert limit.None? ==> CappedTools(tools, SearchLimits(tools), used)[i] == tools[i];
    assert limit.Some? ==>
      CappedTools(tools, SearchLimits(tools), used)[i] == tools[i].(maxUses := Some(Remaining(limit.value, used)));
    hide CappedTools, Capped;
    LimitIsFirst(tools, name);
    if limit.Some? {
      RemainingMeans(limit.value, used);
      var j :| 0 <= j < |tools| && FirstNamed(tools, j, name);
      assert tools[j].maxUses == limit;
    }
  }

  method CapTools(tools: seq<Tool>, limits: seq<(string, Option<int>)>, used: int) returns (r: seq<Tool>)
    ensures r == CappedTools(tools, limits, used)
  {
    hide Capped;
    r := tools;
    for i := 0 to |tools|
      invariant |r| == |tools|
      invariant forall k :: 0 <= k < i ==> r[k] == Capped(tools[k], limits, used)
      invariant forall k :: i <= k < |tools| ==> r[k] == tools[k]
    {
      assert r[i] == tools[i];
      r := r[i := Capped(r[i], limits, used)];
    }
  }

  // One round's report counts its searches, or does not mention them.
  predicate CountsSearches(usage: Json) {
    usage.Obj? && "server_tool_use" in usage.fields ==>
      var s := usage.fields["server_tool_use"];
      s.Obj? && ("web_search_requests" in s.fields ==> IsI64(s.fields["web_search_requests"]))
  }

  function Searches(usage: Json): int {
    IntOrZero(Get(Get(usage, "server_tool_use"), "web_search_requests"))
  }

  // Merging adds the searches exactly when the report counts them, or there were none before.
  lemma MergeSearches(total: map<string, Json>, usage: Json)
    ensures Searches(Obj(Merge(total, usage))) == SaturatingAdd(Searches(Obj(total)), Searches(usage))
        <==> CountsSearches(usage) || Searches(Obj(total)) == 0
  {
    hide CreditKey;
    KeysNotCredit();
    if usage.Obj? && "server_tool_use" in usage.fields {
      var s := usage.fields["server_tool_use"];
      var was := Get(Obj(total), "server_tool_use");
      assert Get(Obj(Merge(total, usage)), "server_tool_use") == MergedField("server_tool_use", was, s);
      if s.Obj? {
        InnerSearches(if was.Obj? then was.fields else map[], s);
      }
    }
  }

  lemma KeysNotCredit()
    ensures "server_tool_use" != CreditKey() && "web_search_requests" != CreditKey()
  {
    assert |"server_tool_use"| == 15 && |CreditKey()| == 12 && |"web_search_requests"| == 19;
  }

  lemma InnerSearches(inner: map<string, Json>, s: Json)
    requires s.Obj?
    ensures var was := IntOrZero(Get(Obj(inner), "web_search_requests"));
            var more := IntOrZero(Get(s, "web_search_requests"));
            IntOrZero(Get(Obj(Merge(inner, s)), "web_search_requests")) == SaturatingAdd(was, more)
            <==> ("web_search_requests" in s.fields ==> IsI64(s.fields["web_search_requests"])) || was == 0
  {
    hide CreditKey;
    KeysNotCredit();
  }

  // ----- searches over a run's reports -----

  // Each round searches no more than the limit leaves of the searches reported before it.
  predicate RoundsHonour(us: seq<Json>, limit: int) {
    us == [] ||
    (var earlier := us[..|us| - 1];
     RoundsHonour(earlier, limit)
     && 0 <= Searches(us[|us| - 1]) <= Remaining(limit, SearchesUsed(Reported(earlier))))
  }

  function TotalSearches(us: seq<Json>): int {
    if us == [] then 0 else TotalSearches(us[..|us| - 1]) + Searches(us[|us| - 1])
  }

  // The last report loses the searches counted before it.
  predicate Forgets(us: seq<Json>)
    requires us != []
  {
    !CountsSearches(us[|us| - 1]) && Searches(Obj(Reported(us[..|us| - 1]))) != 0
  }

  function Forgotten(us: seq<Json>): nat {
    if us == [] then 0 else Forgotten(us[..|us| - 1]) + (if Forgets(us) then 1 else 0)
  }

  // However often the count is lost, it is within the limit.
  lemma {:induction false} CountWithinLimit(us: seq<Json>, limit: int)
    requires RoundsHonour(us, limit) && I32Min() <= limit <= I32Max()
    ensures 0 <= Searches(Obj(Reported(us))) <= (if limit < 0 then 0 else limit)
    ensures Searches(Obj(Reported(us))) == SearchesUsed(Reported(us))
  {
    if us != [] {
      hide Merge, Get, CountsSearches, Searches;
      var earlier, last := us[..|us| - 1], us[|us| - 1];
      CountWithinLimit(earlier, limit);
      MergeSearches(Reported(earlier), last);
      if Forgets(us) {
        LosesSearches(Reported(earlier), last);
      }
      UsedIsCounted(Reported(us));
    } else {
      NoSearches();
    }
  }

  // One more round either adds its searches to the count, or loses the count and searches nothing.
  lemma NextCount(us: seq<Json>, limit: int)
    requires us != [] && RoundsHonour(us, limit) && I32Min() <= limit <= I32Max()
    ensures var was, now := Searches(Obj(Reported(us[..|us| - 1]))), Searches(Obj(Reported(us)));
            && RoundsHonour(us[..|us| - 1], limit) && Searches(us[|us| - 1]) >= 0
            && if Forgets(us) then was > 0 && now == 0 && Searches(us[|us| - 1]) == 0
               else now == was + Searches(us[|us| - 1])
  {
    hide Merge, Get, CountsSearches, Searches;
    var earlier, last := us[..|us| - 1], us[|us| - 1];
    CountWithinLimit(earlier, limit);
    MergeSearches(Reported(earlier), last);
    if Forgets(us) {
      LosesSearches(Reported(earlier), last);
    }
  }

  // What was searched is the count, and at most the limit for each time it was lost. Two reports in a
  // row do not lose it.
  lemma {:induction false} SearchesBounded(us: seq<Json>, limit: int)
    requires RoundsHonour(us, limit) && I32Min() <= limit <= I32Max()
    ensures var allowed, counted := if limit < 0 then 0 else limit, Searches(Obj(Reported(us)));
            && counted <= TotalSearches(us) <= allowed * Forgotten(us) + counted
            && 2 * Forgotten(us) + (if counted > 0 then 1 else 0) <= |us|
  {
    hide Merge, Get, CountsSearches, Searches, RoundsHonour, Forgets, Reported;
    if us != [] {
      var earlier := us[..|us| - 1];
      NextCount(us, limit);
      CountWithinLimit(earlier, limit);
      SearchesBounded(earlier, limit);
      OneMoreTime(if limit < 0 then 0 else limit, Forgotten(earlier));
    } else {
      NoSearches();
      NothingReported();
    }
  }

  lemma NothingReported()
    ensures Reported([]) == map[]
  {
  }

  lemma OneMoreTime(allowed: nat, times: nat)
    ensures allowed * (times + 1) == allowed * times + allowed
  {
  }

  lemma UsedIsCounted(report: map<string, Json>)
    ensures 0 <= Searches(Obj(report)) <= I32Max() ==> SearchesUsed(report) == Searches(Obj(report))
    ensures Searches(Obj(report)) > 2_147_483_647 ==> SearchesUsed(report) == 2_147_483_647
  {
    hide Get;
  }

  lemma LosesSearches(total: map<string, Json>, usage: Json)
    requires !CountsSearches(usage)
    ensures Searches(Obj(Merge(total, usage))) == 0 == Searches(usage)
  {
    hide CreditKey;
    KeysNotCredit();
    var s, was := usage.fields["server_tool_use"], Get(Obj(total), "server_tool_use");
    assert Get(Obj(Merge(total, usage)), "server_tool_use") == MergedField("server_tool_use", was, s);
    if s.Obj? {
      InnerLost(if was.Obj? then was.fields else map[], s);
    }
  }

  lemma InnerLost(inner: map<string, Json>, s: Json)
    requires s.Obj? && "web_search_requests" in s.fields && !IsI64(s.fields["web_search_requests"])
    ensures IntOrZero(Get(Obj(Merge(inner, s)), "web_search_requests")) == 0
  {
    hide CreditKey;
    KeysNotCredit();
  }

  // The report counts all that was searched exactly when no report loses the count.
  lemma {:induction false} CountedIff(us: seq<Json>, limit: int)
    requires RoundsHonour(us, limit) && I32Min() <= limit <= I32Max()
    ensures Searches(Obj(Reported(us))) == TotalSearches(us) <==> Forgotten(us) == 0
  {
    hide Merge, Get, CountsSearches, Searches, RoundsHonour, Forgets, Reported;
    if us != [] {
      NextCount(us, limit);
      CountedIff(us[..|us| - 1], limit);
      SearchesBounded(us[..|us| - 1], limit);
    } else {
      NoSearches();
      NothingReported();
    }
  }

  // Then the whole run stays within the limit.
  lemma SearchesWithinLimit(us: seq<Json>, limit: int)
    requires RoundsHonour(us, limit) && I32Min() <= limit <= I32Max() && Forgotten(us) == 0
    ensures 0 <= TotalSearches(us) <= (if limit < 0 then 0 else limit)
    ensures SearchesUsed(Reported(us)) == TotalSearches(us) == Searches(Obj(Reported(us)))
  {
    hide *;
    CountWithinLimit(us, limit);
    CountedIff(us, limit);
  }

  // Whatever is lost, four rounds search at most twice the limit.
  lemma FourRoundsSearchTwice(us: seq<Json>, limit: int)
    requires RoundsHonour(us, limit) && I32Min() <= limit <= I32Max() && |us| <= 4
    ensures 0 <= TotalSearches(us) <= 2 * (if limit < 0 then 0 else limit)
  {
    hide *;
    CountWithinLimit(us, limit);
    SearchesBounded(us, limit);
    var allowed := if limit < 0 then 0 else limit;
    var times := Forgotten(us);
    assert times <= 2;
    assert allowed * times == if times == 0 then 0 else if times == 1 then allowed else 2 * allowed;
  }

  lemma NoSearches()
    ensures Searches(Obj(map[])) == 0
  {
  }

  function SearchReport(n: int): Json {
    Obj(map["server_tool_use" := Obj(map["web_search_requests" := Num(n)])])
  }

  function NullReport(): Json {
    Obj(map["server_tool_use" := Null])
  }

  // Three rounds within the limit they are given search twice the limit.
  lemma {:induction false} TwiceTheLimit(limit: int)
    requires 0 < limit <= I32Max()
    ensures var us := [SearchReport(limit), NullReport(), SearchReport(limit)];
            RoundsHonour(us, limit) && TotalSearches(us) == 2 * limit && Searches(Obj(Reported(us))) == limit
  {
    hide *;
    var a, b := SearchReport(limit), NullReport();
    HonourPush([], a, limit);
    HonourPush([a], b, limit);
    HonourPush([a, b], a, limit);
    assert [] + [a] == [a] && [a] + [b] == [a, b] && [a, b] + [a] == [a, b, a];
    ReportSearches(limit);
    HonourStart(limit);
    MergeSearches(Reported([]), a);
    MergeSearches(Reported([a, b]), a);
    LosesSearches(Reported([a]), b);
    UsedIsCounted(Reported([]));
    UsedIsCounted(Reported([a]));
    UsedIsCounted(Reported([a, b]));
    Saturates(limit);
  }

  lemma HonourStart(limit: int)
    requires 0 < limit <= I32Max()
    ensures RoundsHonour([], limit) && TotalSearches([]) == 0 && Searches(Obj(Reported([]))) == 0
    ensures Remaining(limit, 0) == limit && Remaining(limit, limit) == 0 && 0 <= limit <= I32Max()
  {
    NoSearches();
  }

  lemma Saturates(n: int)
    requires 0 <= n <= I32Max()
    ensures SaturatingAdd(0, n) == n
  {
  }

  lemma HonourPush(us: seq<Json>, u: Json, limit: int)
    ensures RoundsHonour(us + [u], limit)
        <==> RoundsHonour(us, limit) && 0 <= Searches(u) <= Remaining(limit, SearchesUsed(Reported(us)))
    ensures TotalSearches(us + [u]) == TotalSearches(us) + Searches(u)
    ensures Reported(us + [u]) == Merge(Reported(us), u)
  {
    hide Searches, Merge, SearchesUsed, Remaining;
    assert (us + [u])[..|us|] == us;
  }

  lemma ReportSearches(n: int)
    requires 0 <= n <= I32Max()
    ensures Searches(SearchReport(n)) == n && CountsSearches(SearchReport(n))
    ensures Searches(NullReport()) == 0 && !CountsSearches(NullReport())
  {
  }

  // A report whose search section is null makes the bridge forget the searches before it.
  lemma NullSectionForgets(total: map<string, Json>)
    ensures Searches(Obj(Merge(total, NullReport()))) == 0
  {
    LosesSearches(total, NullReport());
  }
}
