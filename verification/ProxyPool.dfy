// The proxy pool: an in-memory list whose every change is saved or undone.
module ProxyPool {
  import opened Text
  import opened Wrappers

  datatype Endpoint = Endpoint(protocol: string, host: string, port: nat, username: Option<string>,
                               password: Option<string>)

  datatype Health = Unknown | Healthy | Unhealthy

  datatype ProxyEntry = ProxyEntry(
    id: nat,
    name: string,
    endpoint: Endpoint,
    enabled: bool,
    health: Health,
    latencyMs: Option<nat>,
    lastCheckedAt: Option<string>,
    consecutiveFailures: nat,
    autoDisabled: bool,
    autoDetected: bool,
    lastError: Option<string>,
    exit: Option<string>)

  datatype Patch = Patch(
    name: Option<string>,
    protocol: Option<string>,
    host: Option<string>,
    port: Option<nat>,
    username: Option<string>,
    password: Option<string>)

  datatype PoolError = NotFound | Duplicate(url: string) | Invalid(reason: string) | Persist

  // How endpoints are normalized, read from a line, named and shown.
  datatype Rules = Rules(
    normalize: Endpoint -> Result<Endpoint, string>,
    parse: string -> Result<Endpoint, string>,
    defaultName: Endpoint -> string,
    displayUrl: Endpoint -> string)

  function FreshEntry(id: nat, name: string, endpoint: Endpoint): ProxyEntry {
    ProxyEntry(id, name, endpoint, true, Unknown, None, None, 0, false, false, None, None)
  }

  // An entry as it is when new: enabled, never checked, not found by detection.
  predicate IsNew(e: ProxyEntry, id: nat, endpoint: Endpoint) {
    && e.id == id && e.endpoint == endpoint
    && e.enabled && !e.autoDisabled && !e.autoDetected && e.health.Unknown? && e.consecutiveFailures == 0
    && e.latencyMs.None? && e.lastCheckedAt.None? && e.lastError.None? && e.exit.None?
  }

  lemma FreshIsNew(id: nat, name: string, endpoint: Endpoint)
    ensures IsNew(FreshEntry(id, name, endpoint), id, endpoint) && FreshEntry(id, name, endpoint).name == name
  {
  }

  // ----- the list -----

  predicate Listed(entries: seq<ProxyEntry>, endpoint: Endpoint) {
    exists i :: 0 <= i < |entries| && entries[i].endpoint == endpoint
  }

  predicate WellKept(entries: seq<ProxyEntry>, nextId: nat) {
    && (forall i, j :: 0 <= i < j < |entries| ==> entries[i].endpoint != entries[j].endpoint)
    && (forall i, j :: 0 <= i < j < |entries| ==> entries[i].id != entries[j].id)
    && (forall i :: 0 <= i < |entries| ==> entries[i].id < nextId)
  }

  lemma PushKeeps(entries: seq<ProxyEntry>, nextId: nat, name: string, endpoint: Endpoint)
    requires WellKept(entries, nextId) && !Listed(entries, endpoint)
    ensures WellKept(entries + [FreshEntry(nextId, name, endpoint)], nextId + 1)
  {
  }

  method FindEndpoint(entries: seq<ProxyEntry>, endpoint: Endpoint) returns (index: Option<nat>)
    ensures index.Some? <==> Listed(entries, endpoint)
    ensures index.Some? ==> index.value < |entries| && entries[index.value].endpoint == endpoint
  {
    for i := 0 to |entries|
      invariant forall k :: 0 <= k < i ==> entries[k].endpoint != endpoint
    {
      if entries[i].endpoint == endpoint {
        return Some(i);
      }
    }
    index := None;
  }

  predicate HasId(entries: seq<ProxyEntry>, id: nat) {
    exists i :: 0 <= i < |entries| && entries[i].id == id
  }

  method FindId(entries: seq<ProxyEntry>, id: nat) returns (index: Option<nat>)
    ensures index.Some? <==> HasId(entries, id)
    ensures index.Some? ==> index.value < |entries| && entries[index.value].id == id
  {
    for i := 0 to |entries|
      invariant forall k :: 0 <= k < i ==> entries[k].id != id
    {
      if entries[i].id == id {
        return Some(i);
      }
    }
    index := None;
  }

  // ----- the lines of a batch -----

  datatype LineOutcome =
    | Skipped
    | Bad(line: nat, reason: string)
    | AlreadyListed(line: nat, url: string)
    | Added(entry: ProxyEntry)

  predicate Ignored(raw: string) {
    Trim(raw) == "" || Trim(raw)[0] == '#'
  }

  // What becomes of the next line, with the pool and the next id as they are then.
  function LineOf(raw: string, line: nat, entries: seq<ProxyEntry>, nextId: nat, rules: Rules): LineOutcome {
    if Ignored(raw) then Skipped
    else match rules.parse(Trim(raw))
      case Err(e) => Bad(line, e)
      case Ok(endpoint) =>
        if Listed(entries, endpoint) then AlreadyListed(line, rules.displayUrl(endpoint))
        else Added(FreshEntry(nextId, rules.defaultName(endpoint), endpoint))
  }

  function AddedEntries(outcomes: seq<LineOutcome>): seq<ProxyEntry> {
    if outcomes == [] then []
    else AddedEntries(outcomes[..|outcomes| - 1])
         + (if outcomes[|outcomes| - 1].Added? then [outcomes[|outcomes| - 1].entry] else [])
  }

  // The failures among the lines, in order.
  function Failures(outcomes: seq<LineOutcome>): seq<LineOutcome> {
    if outcomes == [] then []
    else Failures(outcomes[..|outcomes| - 1])
         + (if outcomes[|outcomes| - 1].Bad? || outcomes[|outcomes| - 1].AlreadyListed?
            then [outcomes[|outcomes| - 1]] else [])
  }

  // One outcome per line.
  function Outcomes(lines: seq<string>, entries: seq<ProxyEntry>, nextId: nat, rules: Rules): (r: seq<LineOutcome>)
    ensures |r| == |lines|
  {
    if lines == [] then []
    else
      var before := Outcomes(lines[..|lines| - 1], entries, nextId, rules);
      var added := AddedEntries(before);
      before + [LineOf(lines[|lines| - 1], |lines|, entries + added, nextId + |added|, rules)]
  }

  lemma OutcomesPush(lines: seq<string>, i: nat, entries: seq<ProxyEntry>, nextId: nat, rules: Rules)
    requires i < |lines|
    ensures var before := Outcomes(lines[..i], entries, nextId, rules);
            var added := AddedEntries(before);
            Outcomes(lines[..i + 1], entries, nextId, rules)
            == before + [LineOf(lines[i], i + 1, entries + added, nextId + |added|, rules)]
  {
    hide LineOf, AddedEntries;
    assert lines[..i + 1][..i] == lines[..i];
  }

  lemma PushOutcome(before: seq<LineOutcome>, o: LineOutcome)
    ensures AddedEntries(before + [o]) == AddedEntries(before) + (if o.Added? then [o.entry] else [])
    ensures Failures(before + [o]) == Failures(before) + (if o.Bad? || o.AlreadyListed? then [o] else [])
  {
    assert (before + [o])[..|before|] == before;
  }

  lemma NoLines(entries: seq<ProxyEntry>, nextId: nat, rules: Rules)
    ensures Outcomes([], entries, nextId, rules) == [] && AddedEntries([]) == [] && entries + [] == entries
  {
    hide LineOf;
  }

  // The pool with the added entries is well kept.
  lemma {:induction false} BatchKeeps(lines: seq<string>, entries: seq<ProxyEntry>, nextId: nat, rules: Rules)
    requires WellKept(entries, nextId)
    ensures var added := AddedEntries(Outcomes(lines, entries, nextId, rules));
            WellKept(entries + added, nextId + |added|)
  {
    hide WellKept, AddedEntries, Listed, FreshEntry, LineOf, Outcomes;
    if lines == [] {
      NoLines(entries, nextId, rules);
    } else {
      var n := |lines| - 1;
      assert lines[..n + 1] == lines;
      OutcomesPush(lines, n, entries, nextId, rules);
      var before := Outcomes(lines[..n], entries, nextId, rules);
      var added := AddedEntries(before);
      BatchKeeps(lines[..n], entries, nextId, rules);
      var o := LineOf(lines[n], n + 1, entries + added, nextId + |added|, rules);
      PushOutcome(before, o);
      if o.Added? {
        LineAdds(lines[n], n + 1, entries + added, nextId + |added|, rules);
        PushKeeps(entries + added, nextId + |added|, rules.defaultName(o.entry.endpoint), o.entry.endpoint);
        assert entries + (added + [o.entry]) == entries + added + [o.entry];
      } else {
        assert added + [] == added;
      }
    }
  }

  lemma LineAdds(raw: string, line: nat, entries: seq<ProxyEntry>, nextId: nat, rules: Rules)
    requires LineOf(raw, line, entries, nextId, rules).Added?
    ensures var e := LineOf(raw, line, entries, nextId, rules).entry;
            !Listed(entries, e.endpoint) && e == FreshEntry(nextId, rules.defaultName(e.endpoint), e.endpoint)
  {
  }

  // Line i names the endpoint.
  predicate Names(raw: string, endpoint: Endpoint, rules: Rules) {
    !Ignored(raw) && rules.parse(Trim(raw)) == Ok(endpoint)
  }

  // Some line names it.
  predicate NamedIn(lines: seq<string>, endpoint: Endpoint, rules: Rules) {
    exists j :: 0 <= j < |lines| && Names(lines[j], endpoint, rules)
  }

  // The endpoints in the pool before line i: those there at first and those named by earlier lines.
  lemma {:induction false} ListedBefore(lines: seq<string>, entries: seq<ProxyEntry>, nextId: nat, rules: Rules,
                                        endpoint: Endpoint)
    ensures Listed(entries + AddedEntries(Outcomes(lines, entries, nextId, rules)), endpoint)
        <==> Listed(entries, endpoint) || NamedIn(lines, endpoint, rules)
  {
    hide AddedEntries, FreshEntry, Listed, LineOf, Outcomes, Names;
    if lines == [] {
      NoLines(entries, nextId, rules);
    } else {
      hide NamedIn;
      var n := |lines| - 1;
      assert lines[..n + 1] == lines;
      OutcomesPush(lines, n, entries, nextId, rules);
      var before := Outcomes(lines[..n], entries, nextId, rules);
      var added := AddedEntries(before);
      ListedBefore(lines[..n], entries, nextId, rules, endpoint);
      var o := LineOf(lines[n], n + 1, entries + added, nextId + |added|, rules);
      PushOutcome(before, o);
      NamedSplit(lines, endpoint, rules);
      LineNames(lines[n], n + 1, entries + added, nextId + |added|, rules, endpoint);
      if o.Added? {
        LineAdds(lines[n], n + 1, entries + added, nextId + |added|, rules);
        FreshFields(nextId + |added|, rules.defaultName(o.entry.endpoint), o.entry.endpoint);
        assert entries + (added + [o.entry]) == entries + added + [o.entry];
        ListedPush(entries + added, o.entry, endpoint);
      } else {
        assert added + [] == added;
      }
    }
  }

  lemma FreshFields(id: nat, name: string, endpoint: Endpoint)
    ensures FreshEntry(id, name, endpoint).endpoint == endpoint
  {
  }

  lemma ListedPush(entries: seq<ProxyEntry>, e: ProxyEntry, endpoint: Endpoint)
    ensures Listed(entries + [e], endpoint) <==> Listed(entries, endpoint) || e.endpoint == endpoint
  {
    var more := entries + [e];
    if Listed(entries, endpoint) {
      var i :| 0 <= i < |entries| && entries[i].endpoint == endpoint;
      assert more[i].endpoint == endpoint;
    }
    assert more[|entries|] == e;
  }

  lemma {:induction false} NamedSplit(lines: seq<string>, endpoint: Endpoint, rules: Rules)
    requires lines != []
    ensures NamedIn(lines, endpoint, rules)
        <==> NamedIn(lines[..|lines| - 1], endpoint, rules) || Names(lines[|lines| - 1], endpoint, rules)
  {
    hide Names;
    var n := |lines| - 1;
    if NamedIn(lines[..n], endpoint, rules) {
      var j :| 0 <= j < n && Names(lines[..n][j], endpoint, rules);
      assert Names(lines[j], endpoint, rules);
    }
    if NamedIn(lines, endpoint, rules) {
      var j :| 0 <= j < |lines| && Names(lines[j], endpoint, rules);
      assert j < n ==> lines[..n][j] == lines[j];
    }
  }

  // A line that names the endpoint leaves it listed: by adding it, or because it was already.
  lemma LineNames(raw: string, line: nat, entries: seq<ProxyEntry>, nextId: nat, rules: Rules, endpoint: Endpoint)
    ensures var o := LineOf(raw, line, entries, nextId, rules);
            && (o.Added? ==> (Names(raw, endpoint, rules) <==> o.entry.endpoint == endpoint))
            && (!o.Added? && Names(raw, endpoint, rules) ==> Listed(entries, endpoint))
  {
    hide Ignored, Trim, Listed;
  }

  lemma {:induction false} OutcomeAt(lines: seq<string>, i: nat, entries: seq<ProxyEntry>, nextId: nat, rules: Rules)
    requires i < |lines|
    ensures var added := AddedEntries(Outcomes(lines[..i], entries, nextId, rules));
            Outcomes(lines, entries, nextId, rules)[i]
            == LineOf(lines[i], i + 1, entries + added, nextId + |added|, rules)
  {
    hide LineOf, AddedEntries;
    var n := |lines| - 1;
    if i == n {
    } else {
      OutcomeAt(lines[..n], i, entries, nextId, rules);
      assert lines[..n][..i] == lines[..i];
    }
  }

  // What happens to line i, from the text of the lines alone: it is skipped when blank or a
  // comment, added when its endpoint is new to the pool and to the earlier lines, and an error
  // otherwise.
  lemma LineFate(lines: seq<string>, i: nat, entries: seq<ProxyEntry>, nextId: nat, rules: Rules)
    requires i < |lines|
    ensures var o := Outcomes(lines, entries, nextId, rules)[i];
            var named := rules.parse(Trim(lines[i]));
            if Ignored(lines[i]) then o == Skipped
            else if named.Err? then o == Bad(i + 1, named.error)
            else if Listed(entries, named.value) || NamedIn(lines[..i], named.value, rules)
            then o == AlreadyListed(i + 1, rules.displayUrl(named.value))
            else o.Added? && o.entry.id >= nextId && IsNew(o.entry, o.entry.id, named.value)
                 && o.entry.name == rules.defaultName(named.value)
  {
    hide AddedEntries, Listed, Ignored, Outcomes, Trim, NamedIn;
    OutcomeAt(lines, i, entries, nextId, rules);
    var named := rules.parse(Trim(lines[i]));
    if named.Ok? {
      ListedBefore(lines[..i], entries, nextId, rules, named.value);
    }
  }

  function Significant(lines: seq<string>): nat {
    if lines == [] then 0
    else Significant(lines[..|lines| - 1]) + (if Ignored(lines[|lines| - 1]) then 0 else 1)
  }

  // Every line that is not skipped is either added or an error.
  lemma {:induction false} EveryLineAccounted(lines: seq<string>, entries: seq<ProxyEntry>, nextId: nat, rules: Rules)
    ensures var o := Outcomes(lines, entries, nextId, rules);
            |AddedEntries(o)| + |Failures(o)| == Significant(lines)
  {
    hide Ignored, AddedEntries, Failures, LineOf, Outcomes, Significant;
    if lines == [] {
      NoLines(entries, nextId, rules);
      NoOutcomes();
      SignificantPush([]);
    } else {
      var n := |lines| - 1;
      EveryLineAccounted(lines[..n], entries, nextId, rules);
      assert lines[..n + 1] == lines;
      OutcomesPush(lines, n, entries, nextId, rules);
      var before := Outcomes(lines[..n], entries, nextId, rules);
      var added := AddedEntries(before);
      var o := LineOf(lines[n], n + 1, entries + added, nextId + |added|, rules);
      PushOutcome(before, o);
      LineKind(lines[n], n + 1, entries + added, nextId + |added|, rules);
      SignificantPush(lines);
    }
  }

  lemma LineKind(raw: string, line: nat, entries: seq<ProxyEntry>, nextId: nat, rules: Rules)
    ensures var o := LineOf(raw, line, entries, nextId, rules);
            if Ignored(raw) then o == Skipped else o.Added? || o.Bad? || o.AlreadyListed?
  {
    hide Ignored, Listed, Trim;
  }

  lemma SignificantPush(lines: seq<string>)
    ensures Significant([]) == 0
    ensures lines != [] ==>
      Significant(lines) == Significant(lines[..|lines| - 1]) + (if Ignored(lines[|lines| - 1]) then 0 else 1)
  {
    hide Ignored;
  }

  lemma NoOutcomes()
    ensures AddedEntries([]) == [] && Failures([]) == []
  {
  }

  // ----- editing -----

  function Or<T>(new_: Option<T>, was: T): T {
    if new_.Some? then new_.value else was
  }

  function PatchedEndpoint(e: Endpoint, p: Patch): Endpoint {
    Endpoint(Or(p.protocol, e.protocol), Or(p.host, e.host), Or(p.port, e.port),
             if p.username.Some? then p.username else e.username,
             if p.password.Some? then p.password else e.password)
  }

  // Each part of the address is the patch's when that names it, and stays otherwise.
  predicate Merges(e: Endpoint, p: Patch, r: Endpoint) {
    && (if p.protocol.Some? then r.protocol == p.protocol.value else r.protocol == e.protocol)
    && (if p.host.Some? then r.host == p.host.value else r.host == e.host)
    && (if p.port.Some? then r.port == p.port.value else r.port == e.port)
    && (if p.username.Some? then r.username == p.username else r.username == e.username)
    && (if p.password.Some? then r.password == p.password else r.password == e.password)
  }

  lemma PatchedMerges(e: Endpoint, p: Patch)
    ensures Merges(e, p, PatchedEndpoint(e, p))
  {
  }

  // Without the results of health checks, and without the disabling they caused.
  function Unchecked(e: ProxyEntry): ProxyEntry {
    e.(health := Unknown, latencyMs := None, lastCheckedAt := None, consecutiveFailures := 0, lastError := None,
       exit := None, autoDisabled := false, enabled := e.enabled || e.autoDisabled)
  }

  function Updated(e: ProxyEntry, endpoint: Endpoint, name: Option<string>, rules: Rules): ProxyEntry {
    var named := if name.None? then e
                 else e.(name := if Trim(name.value) == "" then rules.defaultName(endpoint) else Trim(name.value));
    var checked := if endpoint != e.endpoint then Unchecked(named) else named;
    checked.(endpoint := endpoint)
  }

  function Switched(e: ProxyEntry, enabled: bool): ProxyEntry {
    if enabled then e.(enabled := true, autoDisabled := false, consecutiveFailures := 0) else e.(enabled := false)
  }

  lemma ReplaceKeeps(entries: seq<ProxyEntry>, nextId: nat, index: nat, e: ProxyEntry)
    requires WellKept(entries, nextId) && index < |entries| && e.id == entries[index].id
    requires forall i :: 0 <= i < |entries| && entries[i].id != e.id ==> entries[i].endpoint != e.endpoint
    ensures WellKept(entries[index := e], nextId)
  {
  }

  lemma RemoveKeeps(entries: seq<ProxyEntry>, nextId: nat, index: nat)
    requires WellKept(entries, nextId) && index < |entries|
    ensures WellKept(entries[..index] + entries[index + 1..], nextId)
  {
  }

  predicate TakenByOther(entries: seq<ProxyEntry>, id: nat, endpoint: Endpoint) {
    exists i :: 0 <= i < |entries| && entries[i].id != id && entries[i].endpoint == endpoint
  }

  // A changed endpoint forgets the health checks and lifts the disabling they caused, never a
  // manual one; an unchanged endpoint keeps both.
  lemma UpdatedFields(e: ProxyEntry, endpoint: Endpoint, name: Option<string>, rules: Rules)
    ensures var u := Updated(e, endpoint, name, rules);
            && u.id == e.id && u.endpoint == endpoint && u.autoDetected == e.autoDetected
            && (name.None? ==> u.name == e.name)
            && (name.Some? && !Blank(name.value) ==> u.name == Trim(name.value))
            && (name.Some? && Blank(name.value) ==> u.name == rules.defaultName(endpoint))
            && (endpoint == e.endpoint ==>
                  u.enabled == e.enabled && u.health == e.health && u.autoDisabled == e.autoDisabled
                  && u.exit == e.exit)
            && (endpoint != e.endpoint ==>
                  u.health == Unknown && u.exit == None && !u.autoDisabled && u.consecutiveFailures == 0
                  && u.latencyMs == None && u.lastCheckedAt == None && u.lastError == None
                  && (u.enabled <==> e.enabled || e.autoDisabled))
  {
    if name.Some? {
      BlankWhen(name.value);
    }
  }

  lemma BlankWhen(s: string)
    ensures Trim(s) == "" <==> Blank(s)
  {
    hide Trim, Blank;
    if Trim(s) == "" {
      var before, after := TrimCuts(s);
      BlankConcat(before, after);
      assert before + "" + after == before + after;
    } else if Blank(s) {
      TrimBlank(s);
    }
  }

  lemma BlankConcat(a: string, b: string)
    requires Blank(a) && Blank(b)
    ensures Blank(a + b)
  {
  }

  lemma SwitchedFields(e: ProxyEntry, enabled: bool)
    ensures Switched(e, enabled).id == e.id && Switched(e, enabled).endpoint == e.endpoint
    ensures Switched(e, enabled).enabled == enabled && Switched(e, enabled).health == e.health
    ensures !enabled ==> Switched(e, enabled).autoDisabled == e.autoDisabled
    ensures enabled ==> !Switched(e, enabled).autoDisabled && Switched(e, enabled).consecutiveFailures == 0
    ensures Switched(e, enabled).(enabled := e.enabled, autoDisabled := e.autoDisabled,
                                  consecutiveFailures := e.consecutiveFailures) == e
    ensures !enabled ==> Switched(e, enabled).consecutiveFailures == e.consecutiveFailures
  {
  }

  lemma MoreIds(entries: seq<ProxyEntry>, nextId: nat)
    requires WellKept(entries, nextId)
    ensures WellKept(entries, nextId + 1)
  {
  }

  lemma ManyIds(entries: seq<ProxyEntry>, nextId: nat, n: nat)
    requires WellKept(entries, nextId)
    ensures WellKept(entries, nextId + n)
  {
  }

  // ----- operations on the pool as a value -----

  datatype Pool = Pool(entries: seq<ProxyEntry>, nextId: nat)

  datatype Op =
    | Adding(name: Option<string>, endpoint: Endpoint)
    | FindingOrAdding(endpoint: Endpoint)
    | Batching(urls: seq<string>)
    | Updating(id: nat, patch: Patch)
    | Deleting(id: nat)
    | Switching(id: nat, enabled: bool)

  function ChosenName(name: Option<string>, endpoint: Endpoint, rules: Rules): string {
    if name.Some? && Trim(name.value) != "" then Trim(name.value) else rules.defaultName(endpoint)
  }

  // A new entry takes an id even when saving fails.
  function WithNew(p: Pool, name: Option<string>, endpoint: Endpoint, saves: bool, rules: Rules): Pool {
    var norm := rules.normalize(endpoint);
    if norm.Err? || Listed(p.entries, norm.value) then p
    else
      var entry := FreshEntry(p.nextId, ChosenName(name, norm.value, rules), norm.value);
      Pool(if saves then p.entries + [entry] else p.entries, p.nextId + 1)
  }

  function WithLines(p: Pool, urls: seq<string>, saves: bool, rules: Rules): Pool {
    var added := AddedEntries(Outcomes(urls, p.entries, p.nextId, rules));
    Pool(if saves then p.entries + added else p.entries, p.nextId + |added|)
  }

  function IndexOf(entries: seq<ProxyEntry>, id: nat): (k: nat)
    ensures k <= |entries|
    ensures k < |entries| ==> entries[k].id == id
    ensures HasId(entries, id) <==> k < |entries|
  {
    if entries == [] then 0 else if entries[0].id == id then 0 else
      var k := IndexOf(entries[1..], id);
      assert forall i :: 1 <= i < |entries| ==> entries[i] == entries[1..][i - 1];
      k + 1
  }

  function EditedAt(p: Pool, k: nat, patch: Patch, rules: Rules): Pool
    requires k < |p.entries|
  {
    var was := p.entries[k];
    var norm := rules.normalize(PatchedEndpoint(was.endpoint, patch));
    if norm.Err? || TakenByOther(p.entries, was.id, norm.value) then p
    else p.(entries := p.entries[k := Updated(was, norm.value, patch.name, rules)])
  }

  function Applied(p: Pool, op: Op, saves: bool, rules: Rules): Pool {
    match op
    case Adding(name, endpoint) => WithNew(p, name, endpoint, saves, rules)
    case FindingOrAdding(endpoint) => WithNew(p, None, endpoint, saves, rules)
    case Batching(urls) => WithLines(p, urls, saves, rules)
    case Updating(id, patch) =>
      var k := IndexOf(p.entries, id);
      if k < |p.entries| && saves then EditedAt(p, k, patch, rules) else p
    case Deleting(id) =>
      var k := IndexOf(p.entries, id);
      if k < |p.entries| && saves then p.(entries := p.entries[..k] + p.entries[k + 1..]) else p
    case Switching(id, enabled) =>
      var k := IndexOf(p.entries, id);
      if k < |p.entries| && saves then p.(entries := p.entries[k := Switched(p.entries[k], enabled)]) else p
  }

  function After(p: Pool, ops: seq<Op>, saves: seq<bool>, rules: Rules): Pool
    requires |saves| == |ops|
    decreases |ops|
  {
    if ops == [] then p else After(Applied(p, ops[0], saves[0], rules), ops[1..], saves[1..], rules)
  }

  // One operation keeps endpoints and ids distinct, and an id that is gone stays gone.
  lemma AppliedKeeps(p: Pool, op: Op, saves: bool, rules: Rules, gone: nat)
    requires WellKept(p.entries, p.nextId)
    ensures var q := Applied(p, op, saves, rules);
            && WellKept(q.entries, q.nextId) && p.nextId <= q.nextId
            && (gone < p.nextId && !HasId(p.entries, gone) ==> !HasId(q.entries, gone))
  {
    hide WithNew, WithLines, EditedAt, Switched, WellKept, HasId;
    match op
    case Adding(name, endpoint) => NewKeeps(p, name, endpoint, saves, rules, gone);
    case FindingOrAdding(endpoint) => NewKeeps(p, None, endpoint, saves, rules, gone);
    case Batching(urls) => LinesKeep(p, urls, saves, rules, gone);
    case Updating(id, patch) =>
      if IndexOf(p.entries, id) < |p.entries| {
        EditKeeps(p, IndexOf(p.entries, id), patch, rules, gone);
      }
    case Deleting(id) =>
      var k := IndexOf(p.entries, id);
      if k < |p.entries| {
        RemoveKeeps(p.entries, p.nextId, k);
        RemoveIds(p.entries, k, gone);
      }
    case Switching(id, enabled) =>
      var k := IndexOf(p.entries, id);
      if k < |p.entries| {
        SwitchedFields(p.entries[k], enabled);
        OthersDiffer(p.entries, p.nextId, k);
        ReplaceKeeps(p.entries, p.nextId, k, Switched(p.entries[k], enabled));
        ReplaceIds(p.entries, k, Switched(p.entries[k], enabled), gone);
      }
  }

  lemma OthersDiffer(entries: seq<ProxyEntry>, nextId: nat, k: nat)
    requires WellKept(entries, nextId) && k < |entries|
    ensures forall i :: 0 <= i < |entries| && entries[i].id != entries[k].id ==>
      entries[i].endpoint != entries[k].endpoint
  {
  }

  lemma RemoveIds(entries: seq<ProxyEntry>, k: nat, gone: nat)
    requires k < |entries|
    ensures HasId(entries[..k] + entries[k + 1..], gone) ==> HasId(entries, gone)
  {
  }

  lemma ReplaceIds(entries: seq<ProxyEntry>, k: nat, e: ProxyEntry, gone: nat)
    requires k < |entries| && e.id == entries[k].id
    ensures HasId(entries[k := e], gone) ==> HasId(entries, gone)
  {
    if HasId(entries[k := e], gone) {
      var i :| 0 <= i < |entries| && entries[k := e][i].id == gone;
      assert entries[i].id == gone;
    }
  }

  lemma NewKeeps(p: Pool, name: Option<string>, endpoint: Endpoint, saves: bool, rules: Rules, gone: nat)
    requires WellKept(p.entries, p.nextId)
    ensures var q := WithNew(p, name, endpoint, saves, rules);
            && WellKept(q.entries, q.nextId) && p.nextId <= q.nextId
            && (gone < p.nextId && !HasId(p.entries, gone) ==> !HasId(q.entries, gone))
  {
    hide Listed, ChosenName, WellKept;
    var norm := rules.normalize(endpoint);
    if norm.Ok? && !Listed(p.entries, norm.value) {
      PushKeeps(p.entries, p.nextId, ChosenName(name, norm.value, rules), norm.value);
      MoreIds(p.entries, p.nextId);
    }
  }

  lemma LinesKeep(p: Pool, urls: seq<string>, saves: bool, rules: Rules, gone: nat)
    requires WellKept(p.entries, p.nextId)
    ensures var q := WithLines(p, urls, saves, rules);
            && WellKept(q.entries, q.nextId) && p.nextId <= q.nextId
            && (gone < p.nextId && !HasId(p.entries, gone) ==> !HasId(q.entries, gone))
  {
    hide AddedEntries, Outcomes, WellKept;
    var added := AddedEntries(Outcomes(urls, p.entries, p.nextId, rules));
    BatchKeeps(urls, p.entries, p.nextId, rules);
    ManyIds(p.entries, p.nextId, |added|);
    AddedIds(urls, p.entries, p.nextId, rules);
  }

  // A batch hands out consecutive ids.
  lemma {:induction false} AddedIds(lines: seq<string>, entries: seq<ProxyEntry>, nextId: nat, rules: Rules)
    ensures var added := AddedEntries(Outcomes(lines, entries, nextId, rules));
            forall k :: 0 <= k < |added| ==> added[k].id == nextId + k
  {
    hide AddedEntries, Listed, LineOf, Outcomes;
    if lines == [] {
      NoLines(entries, nextId, rules);
    } else {
      var n := |lines| - 1;
      assert lines[..n + 1] == lines;
      OutcomesPush(lines, n, entries, nextId, rules);
      var before := Outcomes(lines[..n], entries, nextId, rules);
      var added := AddedEntries(before);
      AddedIds(lines[..n], entries, nextId, rules);
      var o := LineOf(lines[n], n + 1, entries + added, nextId + |added|, rules);
      PushOutcome(before, o);
      if o.Added? {
        LineAdds(lines[n], n + 1, entries + added, nextId + |added|, rules);
      }
    }
  }

  lemma EditKeeps(p: Pool, k: nat, patch: Patch, rules: Rules, gone: nat)
    requires WellKept(p.entries, p.nextId) && k < |p.entries|
    ensures var q := EditedAt(p, k, patch, rules);
            && WellKept(q.entries, q.nextId) && p.nextId == q.nextId
            && (!HasId(p.entries, gone) ==> !HasId(q.entries, gone))
  {
    hide Updated, PatchedEndpoint, WellKept, HasId;
    var was := p.entries[k];
    var norm := rules.normalize(PatchedEndpoint(was.endpoint, patch));
    if norm.Ok? && !TakenByOther(p.entries, was.id, norm.value) {
      UpdatedFields(was, norm.value, patch.name, rules);
      ReplaceKeeps(p.entries, p.nextId, k, Updated(was, norm.value, patch.name, rules));
      ReplaceIds(p.entries, k, Updated(was, norm.value, patch.name, rules), gone);
    }
  }

  // Over every run, whichever saves fail: endpoints and ids stay distinct, the next id never falls,
  // and an id that was handed out and is gone is never handed out again.
  lemma {:induction false} RunKeeps(p: Pool, ops: seq<Op>, saves: seq<bool>, rules: Rules, gone: nat)
    requires |saves| == |ops| && WellKept(p.entries, p.nextId)
    ensures var q := After(p, ops, saves, rules);
            && WellKept(q.entries, q.nextId) && p.nextId <= q.nextId
            && (gone < p.nextId && !HasId(p.entries, gone) ==> !HasId(q.entries, gone))
    decreases |ops|
  {
    hide Applied, WellKept, HasId;
    if ops != [] {
      AppliedKeeps(p, ops[0], saves[0], rules, gone);
      RunKeeps(Applied(p, ops[0], saves[0], rules), ops[1..], saves[1..], rules, gone);
    }
  }

  // ----- starting again -----

  function MaxId(entries: seq<ProxyEntry>): (m: nat)
    ensures forall i :: 0 <= i < |entries| ==> entries[i].id <= m
    ensures m == 0 || HasId(entries, m)
  {
    if entries == [] then 0
    else
      var m := MaxId(entries[..|entries| - 1]);
      assert forall i :: 0 <= i < |entries| - 1 ==> entries[i] == entries[..|entries| - 1][i];
      assert entries[|entries| - 1].id >= m ==> HasId(entries, entries[|entries| - 1].id);
      if entries[|entries| - 1].id > m then entries[|entries| - 1].id else m
  }

  // A new process knows the saved list only.
  function Reloaded(entries: seq<ProxyEntry>): Pool {
    Pool(entries, MaxId(entries) + 1)
  }

  // It goes on with the old ids exactly when the last id handed out is still in use, or none was;
  // otherwise it hands out old ids again.
  lemma ReloadKeepsIdsIff(p: Pool)
    requires WellKept(p.entries, p.nextId) && p.nextId > 0
    ensures Reloaded(p.entries).nextId <= p.nextId
    ensures Reloaded(p.entries).nextId == p.nextId <==> p.nextId == 1 || HasId(p.entries, p.nextId - 1)
    ensures WellKept(p.entries, Reloaded(p.entries).nextId)
  {
    if HasId(p.entries, p.nextId - 1) {
      var i :| 0 <= i < |p.entries| && p.entries[i].id == p.nextId - 1;
    }
  }

  // Adding an entry, deleting it and starting again hands its id out again.
  lemma {:induction false} IdReusedAfterReload(entries: seq<ProxyEntry>, name: Option<string>, endpoint: Endpoint,
                                               rules: Rules)
    requires rules.normalize(endpoint).Ok? && !Listed(entries, rules.normalize(endpoint).value)
    ensures var id := Reloaded(entries).nextId;
            var added := After(Reloaded(entries), [Adding(name, endpoint)], [true], rules);
            var removed := After(added, [Deleting(id)], [true], rules);
            var again := After(Reloaded(removed.entries), [Adding(name, endpoint)], [true], rules);
            && HasId(added.entries, id) && !HasId(removed.entries, id) && removed.nextId == id + 1
            && HasId(again.entries, id)
  {
    hide ChosenName, Listed;
    var p := Reloaded(entries);
    var added := WithNew(p, name, endpoint, true, rules);
    OneOp(p, Adding(name, endpoint), true, rules);
    OneOp(added, Deleting(p.nextId), true, rules);
    assert added.entries[|entries|].id == p.nextId;
    assert !HasId(entries, p.nextId);
    LastIndex(entries, added.entries[|entries|]);
    var k := IndexOf(added.entries, p.nextId);
    assert added.entries[..k] + added.entries[k + 1..] == entries;
  }

  lemma LastIndex(entries: seq<ProxyEntry>, e: ProxyEntry)
    requires !HasId(entries, e.id)
    ensures IndexOf(entries + [e], e.id) == |entries|
  {
    var more := entries + [e];
    assert more[|entries|].id == e.id;
    assert forall i :: 0 <= i < |entries| ==> more[i] == entries[i];
  }

  lemma OneOp(p: Pool, op: Op, saves: bool, rules: Rules)
    ensures After(p, [op], [saves], rules) == Applied(p, op, saves, rules)
  {
    hide Applied;
    assert [op][1..] == [] && [saves][1..] == [];
  }

  class ProxyPoolManager {
    var entries: seq<ProxyEntry>
    var nextId: nat
    // The list as last saved.
    var disk: seq<ProxyEntry>
    const rules: Rules

    predicate Valid()
      reads this
    {
      entries == disk && WellKept(entries, nextId)
    }

    function State(): Pool
      reads this
    {
      Pool(entries, nextId)
    }

    // From a saved list, as it is: well kept exactly when its ids and endpoints are distinct.
    constructor (saved: seq<ProxyEntry>, rules: Rules)
      ensures entries == disk == saved && this.rules == rules
      ensures State() == Reloaded(saved)
      ensures Valid() <==>
        forall i, j :: 0 <= i < j < |saved| ==> saved[i].endpoint != saved[j].endpoint && saved[i].id != saved[j].id
    {
      var maxId: nat := 0;
      for i := 0 to |saved|
        invariant maxId == MaxId(saved[..i])
      {
        assert saved[..i + 1][..i] == saved[..i];
        maxId := if saved[i].id > maxId then saved[i].id else maxId;
      }
      assert saved[..|saved|] == saved;
      entries, disk, nextId, this.rules := saved, saved, maxId + 1, rules;
    }

    // Saving replaces the file as a whole, or fails and leaves it.
    method Save(ok: bool)
      modifies this`disk
      ensures disk == if ok then entries else old(disk)
    {
      if ok {
        disk := entries;
      }
    }

    // Pushes a new entry and saves, or takes it back.
    method PushAndSave(name: string, endpoint: Endpoint, saves: bool) returns (r: Result<ProxyEntry, PoolError>)
      requires Valid() && !Listed(entries, endpoint)
      modifies this
      ensures Valid() && nextId == old(nextId) + 1
      ensures r == if saves then Ok(FreshEntry(old(nextId), name, endpoint)) else Err(Persist)
      ensures entries == if saves then old(entries) + [r.value] else old(entries)
    {
      hide Listed, FreshEntry;
      PushKeeps(entries, nextId, name, endpoint);
      MoreIds(entries, nextId);
      var entry := FreshEntry(nextId, name, endpoint);
      nextId := nextId + 1;
      entries := entries + [entry];
      Save(saves);
      if !saves {
        entries := entries[..|entries| - 1];
        return Err(Persist);
      }
      r := Ok(entry);
    }

    method Add(name: Option<string>, endpoint: Endpoint, saves: bool) returns (r: Result<ProxyEntry, PoolError>)
      requires Valid()
      modifies this
      ensures Valid()
      ensures var norm := rules.normalize(endpoint);
              if norm.Err? then r == Err(Invalid(norm.error)) && nextId == old(nextId)
              else if Listed(old(entries), norm.value) then
                r == Err(Duplicate(rules.displayUrl(norm.value))) && nextId == old(nextId)
              else nextId == old(nextId) + 1 && if !saves then r == Err(Persist)
              else r == Ok(FreshEntry(old(nextId), ChosenName(name, norm.value, rules), norm.value))
      ensures entries == if r.Ok? then old(entries) + [r.value] else old(entries)
      ensures r.Ok? ==>
        rules.normalize(endpoint).Ok? && IsNew(r.value, old(nextId), rules.normalize(endpoint).value)
        && r.value.name == if name.Some? && Trim(name.value) != "" then Trim(name.value)
                           else rules.defaultName(rules.normalize(endpoint).value)
    {
      hide FreshEntry, Trim, Listed, WellKept, IsNew;
      var norm := rules.normalize(endpoint);
      if norm.Err? {
        return Err(Invalid(norm.error));
      }
      var found := FindEndpoint(entries, norm.value);
      if found.Some? {
        return Err(Duplicate(rules.displayUrl(norm.value)));
      }
      var chosen := if name.Some? && Trim(name.value) != "" then Trim(name.value) else rules.defaultName(norm.value);
      FreshIsNew(nextId, chosen, norm.value);
      r := PushAndSave(chosen, norm.value, saves);
    }

    method FindOrAdd(endpoint: Endpoint, saves: bool) returns (r: Result<(ProxyEntry, bool), PoolError>)
      requires Valid()
      modifies this
      ensures Valid()
      ensures var norm := rules.normalize(endpoint);
              if norm.Err? then r == Err(Invalid(norm.error)) && nextId == old(nextId)
              else if Listed(old(entries), norm.value) then
                r.Ok? && !r.value.1 && r.value.0 in old(entries) && r.value.0.endpoint == norm.value
                && nextId == old(nextId)
              else nextId == old(nextId) + 1
                   && r == if saves then Ok((FreshEntry(old(nextId), rules.defaultName(norm.value), norm.value), true))
                           else Err(Persist)
      ensures entries == if r.Ok? && r.value.1 then old(entries) + [r.value.0] else old(entries)
    {
      hide FreshEntry, Listed, WellKept;
      var norm := rules.normalize(endpoint);
      if norm.Err? {
        return Err(Invalid(norm.error));
      }
      var found := FindEndpoint(entries, norm.value);
      if found.Some? {
        return Ok((entries[found.value], false));
      }
      var pushed := PushAndSave(rules.defaultName(norm.value), norm.value, saves);
      if pushed.Err? {
        return Err(pushed.error);
      }
      r := Ok((pushed.value, true));
    }

    // All the new entries are saved together, or none stays.
    method BatchAdd(urls: seq<string>, saves: bool)
      returns (added: seq<ProxyEntry>, errors: seq<LineOutcome>, persistFailed: bool)
      requires Valid()
      modifies this
      ensures Valid()
      ensures var outcomes := Outcomes(urls, old(entries), old(nextId), rules);
              && errors == Failures(outcomes)
              && persistFailed == (AddedEntries(outcomes) != [] && !saves)
              && added == (if persistFailed then [] else AddedEntries(outcomes))
              && nextId == old(nextId) + |AddedEntries(outcomes)|
      ensures entries == old(entries) + added
    {
      hide FreshEntry, Listed, WellKept, Ignored, Trim, Outcomes, AddedEntries, Failures;
      ghost var first, firstId := entries, nextId;
      ghost var outcomes: seq<LineOutcome> := [];
      added, errors, persistFailed := [], [], false;
      var originalLen := |entries|;
      OutcomesStart(urls, first, firstId, rules);
      for i := 0 to |urls|
        invariant outcomes == Outcomes(urls[..i], first, firstId, rules)
        invariant added == AddedEntries(outcomes) && errors == Failures(outcomes)
        invariant entries == first + added && nextId == firstId + |added| && disk == first
      {
        OutcomesPush(urls, i, first, firstId, rules);
        ghost var o := LineOf(urls[i], i + 1, entries, nextId, rules);
        PushOutcome(outcomes, o);
        outcomes := outcomes + [o];
        var line := Trim(urls[i]);
        IgnoredWhen(urls[i]);
        if line == "" || line[0] == '#' {
          continue;
        }
        var parsed := rules.parse(line);
        if parsed.Err? {
          errors := errors + [Bad(i + 1, parsed.error)];
          continue;
        }
        var found := FindEndpoint(entries, parsed.value);
        if found.Some? {
          errors := errors + [AlreadyListed(i + 1, rules.displayUrl(parsed.value))];
          continue;
        }
        var entry := FreshEntry(nextId, rules.defaultName(parsed.value), parsed.value);
        nextId := nextId + 1;
        entries := entries + [entry];
        added := added + [entry];
      }
      assert urls[..|urls|] == urls;
      BatchKeeps(urls, first, firstId, rules);
      if added != [] {
        Save(saves);
        if !saves {
          entries := entries[..originalLen];
          ManyIds(first, firstId, |added|);
          added := [];
          persistFailed := true;
        }
      }
    }

    method Update(id: nat, patch: Patch, saves: bool) returns (r: Result<(ProxyEntry, bool), PoolError>)
      requires Valid()
      modifies this`entries, this`disk
      ensures Valid()
      ensures !HasId(old(entries), id) ==> r == Err(NotFound)
      ensures forall i :: 0 <= i < |old(entries)| && old(entries)[i].id == id ==>
        var was := old(entries)[i];
        var norm := rules.normalize(PatchedEndpoint(was.endpoint, patch));
        if norm.Err? then r == Err(Invalid(norm.error))
        else if TakenByOther(old(entries), id, norm.value) then r == Err(Duplicate(rules.displayUrl(norm.value)))
        else if !saves then r == Err(Persist)
        else r == Ok((Updated(was, norm.value, patch.name, rules), norm.value != was.endpoint))
             && entries == old(entries)[i := r.value.0]
      ensures r.Ok? ==> forall i :: 0 <= i < |old(entries)| && old(entries)[i].id == id ==>
        exists asked ::
          Merges(old(entries)[i].endpoint, patch, asked) && rules.normalize(asked) == Ok(r.value.0.endpoint)
      ensures r.Err? ==> entries == old(entries)
    {
      hide Updated, PatchedEndpoint, Merges;
      var index := FindId(entries, id);
      if index.None? {
        return Err(NotFound);
      }
      var was := entries[index.value];
      PatchedMerges(was.endpoint, patch);
      var norm := rules.normalize(PatchedEndpoint(was.endpoint, patch));
      if norm.Err? {
        return Err(Invalid(norm.error));
      }
      var taken := FindTaken(entries, id, norm.value);
      if taken {
        return Err(Duplicate(rules.displayUrl(norm.value)));
      }
      var entry := Updated(was, norm.value, patch.name, rules);
      UpdatedFields(was, norm.value, patch.name, rules);
      ReplaceKeeps(entries, nextId, index.value, entry);
      var previous := entries[index.value];
      entries := entries[index.value := entry];
      Save(saves);
      if !saves {
        entries := entries[index.value := previous];
        return Err(Persist);
      }
      r := Ok((entry, norm.value != was.endpoint));
    }

    method Delete(id: nat, saves: bool) returns (r: Result<(), PoolError>)
      requires Valid()
      modifies this`entries, this`disk
      ensures Valid()
      ensures r == if !HasId(old(entries), id) then Err(NotFound) else if saves then Ok(()) else Err(Persist)
      ensures r.Err? ==> entries == old(entries)
      ensures r.Ok? ==> forall i :: 0 <= i < |old(entries)| && old(entries)[i].id == id ==>
        entries == old(entries)[..i] + old(entries)[i + 1..]
    {
      var index := FindId(entries, id);
      if index.None? {
        return Err(NotFound);
      }
      var k := index.value;
      RemoveKeeps(entries, nextId, k);
      var removed := entries[k];
      entries := entries[..k] + entries[k + 1..];
      Save(saves);
      if !saves {
        entries := entries[..k] + [removed] + entries[k..];
        assert entries == old(entries);
        return Err(Persist);
      }
      r := Ok(());
    }

    method SetEnabled(id: nat, enabled: bool, saves: bool) returns (r: Result<(), PoolError>)
      requires Valid()
      modifies this`entries, this`disk
      ensures Valid()
      ensures r == if !HasId(old(entries), id) then Err(NotFound) else if saves then Ok(()) else Err(Persist)
      ensures r.Err? ==> entries == old(entries)
      ensures r.Ok? ==> forall i :: 0 <= i < |old(entries)| && old(entries)[i].id == id ==>
        entries == old(entries)[i := Switched(old(entries)[i], enabled)]
    {
      hide Switched;
      var index := FindId(entries, id);
      if index.None? {
        return Err(NotFound);
      }
      var previous := entries[index.value];
      SwitchedFields(previous, enabled);
      ReplaceKeeps(entries, nextId, index.value, Switched(previous, enabled));
      entries := entries[index.value := Switched(previous, enabled)];
      Save(saves);
      if !saves {
        entries := entries[index.value := previous];
        return Err(Persist);
      }
      r := Ok(());
    }

    // One operation of a run.
    method Apply(op: Op, saves: bool)
      requires Valid()
      modifies this
      ensures Valid() && State() == Applied(old(State()), op, saves, rules)
    {
      hide FreshEntry, Listed, WellKept, Trim, Outcomes, AddedEntries, Failures, Updated, PatchedEndpoint, Switched,
           TakenByOther, HasId;
      match op
      case Adding(name, endpoint) =>
        var _ := Add(name, endpoint, saves);
      case FindingOrAdding(endpoint) =>
        var _ := FindOrAdd(endpoint, saves);
      case Batching(urls) =>
        var _, _, _ := BatchAdd(urls, saves);
      case Updating(id, patch) =>
        ghost var k := IndexOf(entries, id);
        var _ := Update(id, patch, saves);
      case Deleting(id) =>
        ghost var k := IndexOf(entries, id);
        var _ := Delete(id, saves);
      case Switching(id, enabled) =>
        ghost var k := IndexOf(entries, id);
        var _ := SetEnabled(id, enabled, saves);
    }

    // Any run of operations, whichever saves fail.
    method Run(ops: seq<Op>, saves: seq<bool>)
      requires Valid() && |saves| == |ops|
      modifies this
      ensures Valid() && State() == After(old(State()), ops, saves, rules)
    {
      hide Applied, WellKept;
      for i := 0 to |ops|
        invariant Valid() && After(State(), ops[i..], saves[i..], rules) == After(old(State()), ops, saves, rules)
      {
        assert ops[i..][0] == ops[i] && ops[i..][1..] == ops[i + 1..];
        assert saves[i..][0] == saves[i] && saves[i..][1..] == saves[i + 1..];
        Apply(ops[i], saves[i]);
      }
    }
  }

  lemma OutcomesStart(lines: seq<string>, entries: seq<ProxyEntry>, nextId: nat, rules: Rules)
    ensures Outcomes(lines[..0], entries, nextId, rules) == [] && AddedEntries([]) == [] && Failures([]) == []
  {
  }

  lemma IgnoredWhen(raw: string)
    ensures Ignored(raw) <==> Trim(raw) == "" || Trim(raw)[0] == '#'
  {
  }

  method FindTaken(entries: seq<ProxyEntry>, id: nat, endpoint: Endpoint) returns (taken: bool)
    ensures taken == TakenByOther(entries, id, endpoint)
  {
    for i := 0 to |entries|
      invariant forall k :: 0 <= k < i ==> entries[k].id == id || entries[k].endpoint != endpoint
    {
      if entries[i].id != id && entries[i].endpoint == endpoint {
        return true;
      }
    }
    taken := false;
  }
}
