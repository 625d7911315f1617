// Client keys as values: the key table, what each operation makes of it, and what every run keeps.
module ClientKeys {
  import opened Text
  import opened Wrappers

  datatype BillingMode = Credits | Calls

  datatype ClientKey = ClientKey(
    id: nat,
    key: string,
    name: string,
    description: Option<string>,
    disabled: bool,
    createdAt: string,
    lastUsedAt: Option<string>,
    totalCalls: nat,
    totalSuccessfulCalls: nat,
    billingMode: BillingMode,
    maxCalls: Option<nat>,
    totalInputTokens: nat,
    totalOutputTokens: nat,
    totalCacheCreationTokens: nat,
    totalCacheReadTokens: nat,
    totalCredits: real,
    maxCredits: Option<real>,
    group: Option<string>,
    isSystem: bool,
    cacheMetering: bool,
    cacheReadLimitPercent: Option<nat>)

  // The key table. The index by plaintext is determined by it, see Inverse.
  datatype Keys = Keys(entries: map<nat, ClientKey>, nextId: nat)

  datatype KeyAuth =
    | Ok(id: nat)
    | OverLimit(id: nat, usedCredits: real, creditLimit: real)
    | CallsOverLimit(id: nat, usedCalls: nat, callLimit: nat)
    | NotFound

  datatype Usage = Usage(inputTokens: nat, outputTokens: nat, cacheCreationTokens: nat, cacheReadTokens: nat,
                         credits: real)

  // ----- the table's invariant -----

  predicate Distinct(entries: map<nat, ClientKey>) {
    forall a, b :: a in entries && b in entries && entries[a].key == entries[b].key ==> a == b
  }

  predicate WellKept(s: Keys) {
    && s.nextId > 0
    && Distinct(s.entries)
    && (forall id :: id in s.entries ==> s.entries[id].id == id && id < s.nextId)
  }

  // The index maps exactly the plaintexts in use, each to its entry.
  predicate Inverse(byKey: map<string, nat>, entries: map<nat, ClientKey>) {
    && (forall k :: k in byKey ==> byKey[k] in entries && entries[byKey[k]].key == k)
    && (forall id :: id in entries ==> entries[id].key in byKey && byKey[entries[id].key] == id)
  }

  predicate OnlyZeroIsSystem(s: Keys) {
    forall id :: id in s.entries && s.entries[id].isSystem ==> id == 0
  }

  predicate Holds(entries: map<nat, ClientKey>, key: string) {
    exists id :: id in entries && entries[id].key == key
  }

  lemma InverseDistinct(byKey: map<string, nat>, entries: map<nat, ClientKey>)
    requires Inverse(byKey, entries)
    ensures Distinct(entries)
    ensures forall k :: k in byKey <==> Holds(entries, k)
  {
    forall k ensures k in byKey <==> Holds(entries, k) {
      if Holds(entries, k) {
        var id :| id in entries && entries[id].key == k;
      }
    }
  }

  // The index has exactly the plaintexts in use, each pointing at some entry that has it.
  ghost predicate Usable(byKey: map<string, nat>, entries: map<nat, ClientKey>) {
    && (forall k :: k in byKey <==> Holds(entries, k))
    && (forall k :: k in byKey ==> byKey[k] in entries && entries[byKey[k]].key == k)
  }

  // Such an index is exact exactly when no two entries share a plaintext.
  lemma UsableExactIff(byKey: map<string, nat>, entries: map<nat, ClientKey>)
    requires Usable(byKey, entries)
    ensures Inverse(byKey, entries) <==> Distinct(entries)
  {
    if Inverse(byKey, entries) {
      InverseDistinct(byKey, entries);
    } else if Distinct(entries) {
      forall id | id in entries ensures entries[id].key in byKey && byKey[entries[id].key] == id {
        assert Holds(entries, entries[id].key);
      }
    }
  }

  // There is only one exact index.
  lemma InverseUnique(a: map<string, nat>, b: map<string, nat>, entries: map<nat, ClientKey>)
    requires Inverse(a, entries) && Inverse(b, entries)
    ensures a == b
  {
    forall k | k in a ensures k in b && b[k] == a[k] {
    }
    forall k | k in b ensures k in a {
    }
  }

  // ----- operations -----

  function NonBlank(group: Option<string>): Option<string> {
    if group.Some? && !Blank(group.value) then group else None
  }

  function NewKey(id: nat, plaintext: string, name: string, description: Option<string>, group: Option<string>,
                  isSystem: bool, now: string): ClientKey
  {
    ClientKey(id, plaintext, name, description, false, now, None, 0, 0, Credits, None, 0, 0, 0, 0, 0.0, None,
              group, isSystem, true, None)
  }

  function Created(s: Keys, name: string, description: Option<string>, group: Option<string>, plaintext: string,
                   now: string): Keys
  {
    if Holds(s.entries, plaintext) then s
    else Keys(s.entries[s.nextId := NewKey(s.nextId, plaintext, name, description, NonBlank(group), false, now)],
              s.nextId + 1)
  }

  // The system entry after a synchronisation.
  function SystemEntry(s: Keys, name: string, description: Option<string>, plaintext: string, now: string): ClientKey {
    if 0 !in s.entries then NewKey(0, plaintext, name, description, None, true, now)
    else if s.entries[0].key != plaintext then s.entries[0].(key := plaintext, disabled := false, isSystem := true)
    else s.entries[0].(isSystem := true)
  }

  // An entry survives unless it holds the new or the previous system plaintext.
  predicate Survives(s: Keys, id: nat, plaintext: string)
    requires id in s.entries
  {
    s.entries[id].key != plaintext && (0 in s.entries ==> s.entries[id].key != s.entries[0].key)
  }

  function Synced(s: Keys, name: string, description: Option<string>, plaintext: string, now: string): Keys {
    var others :=
      map id | id in s.entries && id != 0 && Survives(s, id, plaintext) :: s.entries[id].(isSystem := false);
    Keys(others[0 := SystemEntry(s, name, description, plaintext, now)], s.nextId)
  }

  predicate Deletable(s: Keys, id: nat) {
    id in s.entries && !s.entries[id].isSystem
  }

  function Deleted(s: Keys, id: nat): Keys {
    if Deletable(s, id) then s.(entries := s.entries - {id}) else s
  }

  function Replaced(s: Keys, id: nat, entry: ClientKey): Keys {
    s.(entries := s.entries[id := entry])
  }

  function Rotated(s: Keys, id: nat, newKey: string): Keys {
    if id in s.entries then Replaced(s, id, s.entries[id].(key := newKey)) else s
  }

  function Reset(e: ClientKey): ClientKey {
    e.(totalCalls := 0, totalSuccessfulCalls := 0, totalInputTokens := 0, totalOutputTokens := 0,
       totalCacheCreationTokens := 0, totalCacheReadTokens := 0, totalCredits := 0.0)
  }

  // Each part is left alone when None.
  datatype MetaChange = MetaChange(
    name: Option<string>,
    description: Option<Option<string>>,
    group: Option<Option<string>>,
    billing: Option<(BillingMode, Option<nat>)>)

  function Updated(e: ClientKey, m: MetaChange): ClientKey {
    e.(name := if m.name.Some? then m.name.value else e.name,
       description := if m.description.Some? then m.description.value else e.description,
       group := if m.group.Some? then NonBlank(m.group.value) else e.group,
       billingMode := if m.billing.Some? then m.billing.value.0 else e.billingMode,
       maxCalls := if m.billing.Some? then m.billing.value.1 else e.maxCalls)
  }

  function U64Max(): nat { 0xFFFF_FFFF_FFFF_FFFF }

  // A counter at the largest u64 stays there.
  function CountedCall(e: ClientKey): ClientKey {
    if e.totalSuccessfulCalls < U64Max() then e.(totalSuccessfulCalls := e.totalSuccessfulCalls + 1) else e
  }

  function Charged(e: ClientKey, usage: Usage, countCall: bool, now: string): ClientKey {
    var c := if countCall then CountedCall(e) else e;
    c.(totalInputTokens := c.totalInputTokens + usage.inputTokens,
       totalOutputTokens := c.totalOutputTokens + usage.outputTokens,
       totalCacheCreationTokens := c.totalCacheCreationTokens + usage.cacheCreationTokens,
       totalCacheReadTokens := c.totalCacheReadTokens + usage.cacheReadTokens,
       totalCredits := if usage.credits > 0.0 then c.totalCredits + usage.credits else c.totalCredits,
       lastUsedAt := Some(now))
  }

  // Why a request with this key is turned away, if it is.
  function Denied(e: ClientKey, id: nat): Option<KeyAuth> {
    match e.billingMode
    case Credits =>
      if e.maxCredits.Some? && e.totalCredits >= e.maxCredits.value
      then Some(OverLimit(id, e.totalCredits, e.maxCredits.value)) else None
    case Calls =>
      if e.maxCalls.Some? && e.totalSuccessfulCalls >= e.maxCalls.value
      then Some(CallsOverLimit(id, e.totalSuccessfulCalls, e.maxCalls.value)) else None
  }

  // The quota of the entry's billing mode is not used up.
  predicate HasRoom(e: ClientKey) {
    match e.billingMode
    case Credits => e.maxCredits.None? || e.totalCredits < e.maxCredits.value
    case Calls => e.maxCalls.None? || e.totalSuccessfulCalls < e.maxCalls.value
  }

  // A request is denied exactly when there is no room, with the numbers of the mode.
  lemma DeniedIff(e: ClientKey, id: nat)
    ensures Denied(e, id).None? <==> HasRoom(e)
    ensures !HasRoom(e) && e.billingMode.Credits? ==>
      e.maxCredits.Some? && Denied(e, id) == Some(OverLimit(id, e.totalCredits, e.maxCredits.value))
    ensures !HasRoom(e) && e.billingMode.Calls? ==>
      e.maxCalls.Some? && Denied(e, id) == Some(CallsOverLimit(id, e.totalSuccessfulCalls, e.maxCalls.value))
  {
  }

  function Touched(e: ClientKey, now: string): ClientKey {
    e.(totalCalls := e.totalCalls + 1, lastUsedAt := Some(now))
  }

  // ----- what the operations make of an entry, field by field -----

  // A key as it is when new: enabled, unused, unlimited and billed by credits; a blank group is none.
  predicate IsNewKey(e: ClientKey, id: nat, plaintext: string, name: string, description: Option<string>,
                     group: Option<string>, now: string)
  {
    && e.id == id && e.key == plaintext && e.name == name && e.description == description
    && !e.disabled && !e.isSystem && e.createdAt == now && e.lastUsedAt.None?
    && e.totalCalls == 0 && e.totalSuccessfulCalls == 0 && e.totalInputTokens == 0 && e.totalOutputTokens == 0
    && e.totalCacheCreationTokens == 0 && e.totalCacheReadTokens == 0 && e.totalCredits == 0.0
    && e.billingMode.Credits? && e.maxCalls.None? && e.maxCredits.None?
    && e.cacheMetering && e.cacheReadLimitPercent.None?
    && e.group == (if group.Some? && exists i :: 0 <= i < |group.value| && !IsWhitespace(group.value[i])
                   then group else None)
  }

  lemma NewIsNewKey(id: nat, plaintext: string, name: string, description: Option<string>, group: Option<string>,
                    now: string)
    ensures IsNewKey(NewKey(id, plaintext, name, description, NonBlank(group), false, now), id, plaintext, name,
                     description, group, now)
  {
  }

  // An edit changes the parts it names and no other.
  predicate Edits(e: ClientKey, u: ClientKey, m: MetaChange) {
    && (m.name.Some? ==> u.name == m.name.value) && (m.name.None? ==> u.name == e.name)
    && (m.description.Some? ==> u.description == m.description.value)
    && (m.description.None? ==> u.description == e.description)
    && (m.group == Some(None) ==> u.group.None?) && (m.group.None? ==> u.group == e.group)
    && (m.group.Some? && m.group.value.Some? ==>
          u.group == if Blank(m.group.value.value) then None else m.group.value)
    && (m.billing.Some? ==> (u.billingMode, u.maxCalls) == m.billing.value)
    && (m.billing.None? ==> u.billingMode == e.billingMode && u.maxCalls == e.maxCalls)
    && u.(name := e.name, description := e.description, group := e.group, billingMode := e.billingMode,
          maxCalls := e.maxCalls) == e
  }

  lemma UpdatedEdits(e: ClientKey, m: MetaChange)
    ensures Edits(e, Updated(e, m), m)
  {
  }

  // A reset zeroes the counters and leaves everything else, the limits included.
  predicate Resets(e: ClientKey, r: ClientKey) {
    && r.totalCalls == 0 && r.totalSuccessfulCalls == 0 && r.totalInputTokens == 0 && r.totalOutputTokens == 0
    && r.totalCacheCreationTokens == 0 && r.totalCacheReadTokens == 0 && r.totalCredits == 0.0
    && r.(totalCalls := e.totalCalls, totalSuccessfulCalls := e.totalSuccessfulCalls,
          totalInputTokens := e.totalInputTokens, totalOutputTokens := e.totalOutputTokens,
          totalCacheCreationTokens := e.totalCacheCreationTokens,
          totalCacheReadTokens := e.totalCacheReadTokens, totalCredits := e.totalCredits) == e
  }

  lemma ResetResets(e: ClientKey)
    ensures Resets(e, Reset(e))
  {
  }

  // A charge adds each amount to its own total, counts the call if it counts, and notes the time.
  predicate Charges(e: ClientKey, c: ClientKey, u: Usage, countCall: bool, now: string) {
    && c.totalInputTokens == e.totalInputTokens + u.inputTokens
    && c.totalOutputTokens == e.totalOutputTokens + u.outputTokens
    && c.totalCacheCreationTokens == e.totalCacheCreationTokens + u.cacheCreationTokens
    && c.totalCacheReadTokens == e.totalCacheReadTokens + u.cacheReadTokens
    && c.totalCredits == e.totalCredits + (if u.credits > 0.0 then u.credits else 0.0)
    && c.totalSuccessfulCalls == e.totalSuccessfulCalls
         + (if countCall && e.totalSuccessfulCalls < 18_446_744_073_709_551_615 then 1 else 0)
    && c.lastUsedAt == Some(now)
    && c.(totalInputTokens := e.totalInputTokens, totalOutputTokens := e.totalOutputTokens,
          totalCacheCreationTokens := e.totalCacheCreationTokens,
          totalCacheReadTokens := e.totalCacheReadTokens, totalCredits := e.totalCredits,
          totalSuccessfulCalls := e.totalSuccessfulCalls, lastUsedAt := e.lastUsedAt) == e
  }

  lemma ChargedCharges(e: ClientKey, u: Usage, countCall: bool, now: string)
    ensures Charges(e, Charged(e, u, countCall, now), u, countCall, now)
  {
  }

  // ----- every operation keeps the invariant -----

  // Changing an entry without its id and plaintext is always safe.
  lemma ReplaceKeeps(s: Keys, id: nat, entry: ClientKey)
    requires WellKept(s) && id in s.entries && entry.id == id && entry.key == s.entries[id].key
    ensures WellKept(Replaced(s, id, entry))
    ensures OnlyZeroIsSystem(s) && entry.isSystem == s.entries[id].isSystem ==> OnlyZeroIsSystem(Replaced(s, id, entry))
  {
  }

  lemma CreateKeeps(s: Keys, name: string, description: Option<string>, group: Option<string>, plaintext: string,
                    now: string)
    requires WellKept(s)
    ensures WellKept(Created(s, name, description, group, plaintext, now))
    ensures OnlyZeroIsSystem(s) ==> OnlyZeroIsSystem(Created(s, name, description, group, plaintext, now))
    ensures Holds(Created(s, name, description, group, plaintext, now).entries, plaintext)
  {
    hide NewKey;
    var r := Created(s, name, description, group, plaintext, now);
    NewKeyFields(s.nextId, plaintext, name, description, NonBlank(group), false, now);
    if !Holds(s.entries, plaintext) {
      assert r.entries[s.nextId].key == plaintext;
      forall a, b | a in r.entries && b in r.entries && r.entries[a].key == r.entries[b].key ensures a == b {
      }
    }
  }

  lemma NewKeyFields(id: nat, plaintext: string, name: string, description: Option<string>, group: Option<string>,
                     isSystem: bool, now: string)
    ensures var e := NewKey(id, plaintext, name, description, group, isSystem, now);
            e.id == id && e.key == plaintext && e.isSystem == isSystem && !e.disabled
  {
  }

  lemma SystemEntryFields(s: Keys, name: string, description: Option<string>, plaintext: string, now: string)
    requires 0 in s.entries ==> s.entries[0].id == 0
    ensures var e := SystemEntry(s, name, description, plaintext, now);
            && e.id == 0 && e.key == plaintext && e.isSystem
            && (0 !in s.entries || s.entries[0].key != plaintext ==> !e.disabled)
            && (0 in s.entries && s.entries[0].key == plaintext ==> e.disabled == s.entries[0].disabled)
  {
  }

  lemma SyncKeeps(s: Keys, name: string, description: Option<string>, plaintext: string, now: string)
    requires WellKept(s)
    ensures WellKept(Synced(s, name, description, plaintext, now))
    ensures OnlyZeroIsSystem(Synced(s, name, description, plaintext, now))
  {
    hide SystemEntry;
    SystemEntryFields(s, name, description, plaintext, now);
    var r := Synced(s, name, description, plaintext, now);
    forall a, b | a in r.entries && b in r.entries && r.entries[a].key == r.entries[b].key ensures a == b {
    }
  }

  lemma DeleteKeeps(s: Keys, id: nat)
    requires WellKept(s)
    ensures WellKept(Deleted(s, id)) && (OnlyZeroIsSystem(s) ==> OnlyZeroIsSystem(Deleted(s, id)))
    ensures Deletable(s, id) ==> !Holds(Deleted(s, id).entries, s.entries[id].key)
  {
  }

  // Rotation keeps the invariant exactly when no other entry holds the new plaintext.
  lemma RotateKeepsIff(s: Keys, id: nat, newKey: string)
    requires WellKept(s) && id in s.entries
    ensures WellKept(Rotated(s, id, newKey)) <==> !Holds(s.entries - {id}, newKey)
    ensures OnlyZeroIsSystem(s) ==> OnlyZeroIsSystem(Rotated(s, id, newKey))
  {
    var r := Rotated(s, id, newKey).entries;
    if Holds(s.entries - {id}, newKey) {
      var other :| other in s.entries - {id} && (s.entries - {id})[other].key == newKey;
      assert r[other].key == r[id].key;
    } else {
      forall a, b | a in r && b in r && r[a].key == r[b].key ensures a == b {
        if a != id {
          assert a in s.entries - {id} && (s.entries - {id})[a] == r[a];
        }
        if b != id {
          assert b in s.entries - {id} && (s.entries - {id})[b] == r[b];
        }
      }
    }
  }

  // ----- authentication -----

  // Entry `id` is enabled and has this plaintext.
  predicate Matches(s: Keys, presented: string, id: nat) {
    id in s.entries && !s.entries[id].disabled && s.entries[id].key == presented
  }

  // At most one entry does, so a scan finds the same one in any order.
  lemma MatchUnique(s: Keys, presented: string, a: nat, b: nat)
    requires WellKept(s) && Matches(s, presented, a) && Matches(s, presented, b)
    ensures a == b
  {
  }

  // A new system value: it authenticates as 0, the previous one as nobody, and every other
  // plaintext as before.
  lemma SyncRevokes(s: Keys, name: string, description: Option<string>, plaintext: string, now: string,
                    presented: string, id: nat)
    requires WellKept(s) && (0 in s.entries ==> s.entries[0].key != plaintext)
    ensures var r := Synced(s, name, description, plaintext, now);
            if presented == plaintext then Matches(r, presented, id) <==> id == 0
            else if 0 in s.entries && presented == s.entries[0].key then !Matches(r, presented, id)
            else Matches(r, presented, id) <==> Matches(s, presented, id)
  {
    hide SystemEntry;
    SystemEntryFields(s, name, description, plaintext, now);
  }

  // It keeps the metadata and statistics of the system entry, and of every entry it spares.
  lemma SyncPreserves(s: Keys, name: string, description: Option<string>, plaintext: string, now: string, id: nat)
    requires WellKept(s) && id in s.entries
    ensures var r := Synced(s, name, description, plaintext, now).entries;
            && (id in r <==> id == 0 || Survives(s, id, plaintext))
            && (id in r && id != 0 ==> r[id].(isSystem := s.entries[id].isSystem) == s.entries[id])
            && (id == 0 ==> r[0].(key := s.entries[0].key, disabled := s.entries[0].disabled,
                                  isSystem := s.entries[0].isSystem) == s.entries[0])
  {
    if id == 0 {
      SystemEntryKeeps(s, name, description, plaintext, now);
    } else {
      hide SystemEntry, WellKept;
      FlagOnly(s.entries[id]);
    }
  }

  lemma SystemEntryKeeps(s: Keys, name: string, description: Option<string>, plaintext: string, now: string)
    requires 0 in s.entries
    ensures var e := SystemEntry(s, name, description, plaintext, now);
            e.(key := s.entries[0].key, disabled := s.entries[0].disabled, isSystem := s.entries[0].isSystem)
            == s.entries[0]
  {
  }

  lemma FlagOnly(e: ClientKey)
    ensures e.(isSystem := false).(isSystem := e.isSystem) == e
  {
  }

  // Rotation changes the plaintext alone: putting the old one back restores the table.
  lemma RotatePreserves(s: Keys, id: nat, newKey: string)
    requires id in s.entries
    ensures Rotated(Rotated(s, id, newKey), id, s.entries[id].key) == s
  {
    KeyOnly(s.entries[id], newKey);
    var r := Rotated(Rotated(s, id, newKey), id, s.entries[id].key);
    assert r.entries == s.entries;
  }

  lemma KeyOnly(e: ClientKey, newKey: string)
    ensures e.(key := newKey).(key := e.key) == e
  {
  }

  // Synchronising makes a table well kept exactly when no two entries it spares share a plaintext:
  // it removes duplicates of the system plaintexts only.
  lemma SyncRepairsIff(s: Keys, name: string, description: Option<string>, plaintext: string, now: string)
    requires s.nextId > 0 && forall id :: id in s.entries ==> s.entries[id].id == id && id < s.nextId
    ensures WellKept(Synced(s, name, description, plaintext, now))
        <==> forall a, b :: SharePlaintext(s, a, b) && a != 0 && b != 0 && Survives(s, a, plaintext) ==> a == b
  {
    hide SystemEntry;
    SystemEntryFields(s, name, description, plaintext, now);
    var r := Synced(s, name, description, plaintext, now).entries;
    if forall a, b :: SharePlaintext(s, a, b) && a != 0 && b != 0 && Survives(s, a, plaintext) ==> a == b {
      forall a, b | a in r && b in r && r[a].key == r[b].key ensures a == b {
        assert a != 0 && b != 0 ==> SharePlaintext(s, a, b);
      }
    } else {
      var a, b :| SharePlaintext(s, a, b) && a != 0 && b != 0 && Survives(s, a, plaintext) && a != b;
      assert r[a].key == r[b].key;
    }
  }

  predicate SharePlaintext(s: Keys, a: nat, b: nat) {
    a in s.entries && b in s.entries && s.entries[a].key == s.entries[b].key
  }

  // So two ordinary keys that share another plaintext stay, and no map is their index.
  lemma SyncDoesNotRepair(s: Keys, name: string, description: Option<string>, plaintext: string, now: string,
                          a: nat, b: nat, byKey: map<string, nat>)
    requires SharePlaintext(s, a, b) && a != b && a != 0 && b != 0 && Survives(s, a, plaintext)
    ensures !Inverse(byKey, Synced(s, name, description, plaintext, now).entries)
  {
    hide SystemEntry;
    var r := Synced(s, name, description, plaintext, now).entries;
    assert a in r && b in r && r[a].key == r[b].key;
  }

  // Synchronising the same value again changes nothing.
  lemma SyncIdempotent(s: Keys, name: string, description: Option<string>, plaintext: string, now: string,
                       name2: string, description2: Option<string>, now2: string)
    requires WellKept(s)
    ensures var r := Synced(s, name, description, plaintext, now);
            Synced(r, name2, description2, plaintext, now2) == r
  {
    var r := Synced(s, name, description, plaintext, now);
    var again := Synced(r, name2, description2, plaintext, now2);
    SystemEntryFields(s, name, description, plaintext, now);
    SystemEntryAgain(r, name2, description2, plaintext, now2);
    hide SystemEntry;
    forall id ensures id in again.entries <==> id in r.entries {
    }
    forall id | id in r.entries ensures again.entries[id] == r.entries[id] {
      if id != 0 {
        NotSystem(s.entries[id]);
      }
    }
    assert again.entries == r.entries;
  }

  lemma SystemEntryAgain(r: Keys, name: string, description: Option<string>, plaintext: string, now: string)
    requires 0 in r.entries && r.entries[0].key == plaintext && r.entries[0].isSystem
    ensures SystemEntry(r, name, description, plaintext, now) == r.entries[0]
  {
  }

  lemma NotSystem(e: ClientKey)
    ensures e.(isSystem := false).(isSystem := false) == e.(isSystem := false)
    ensures e.(isSystem := false).key == e.key
  {
  }

  // ----- runs -----

  datatype Op =
    | Create(name: string, description: Option<string>, group: Option<string>, plaintext: string)
    | Sync(name: string, description: Option<string>, plaintext: string)
    | Delete(id: nat)
    | Rotate(id: nat, newKey: string)
    | Disable(id: nat, disabled: bool)
    | UpdateMeta(id: nat, change: MetaChange)
    | ResetStats(id: nat)
    | LimitCredits(id: nat, limit: Option<real>)
    | Charge(id: nat, usage: Usage, countCall: bool)
    | Verify(presented: string)

  // Some enabled entry has this plaintext and is within its quota.
  ghost predicate Admits(s: Keys, presented: string) {
    exists id :: Matches(s, presented, id) && Denied(s.entries[id], id).None?
  }

  // Authentication counts an admitted request.
  ghost function Verified(s: Keys, presented: string, now: string): Keys {
    if Admits(s, presented) then
      var id :| Matches(s, presented, id) && Denied(s.entries[id], id).None?;
      Replaced(s, id, Touched(s.entries[id], now))
    else s
  }

  lemma VerifiedAt(s: Keys, presented: string, now: string, id: nat)
    requires WellKept(s) && Matches(s, presented, id)
    ensures Verified(s, presented, now)
         == if Denied(s.entries[id], id).None? then Replaced(s, id, Touched(s.entries[id], now)) else s
  {
    hide Touched, Replaced, Denied, WellKept, Matches;
    forall other ensures Matches(s, presented, other) ==> other == id {
      if Matches(s, presented, other) {
        MatchUnique(s, presented, other, id);
      }
    }
  }

  // A credit limit is not negative.
  predicate Acceptable(limit: Option<real>) {
    limit.None? || limit.value >= 0.0
  }

  ghost function Apply(s: Keys, op: Op, now: string): Keys {
    match op
    case Create(n, d, g, p) => Created(s, n, d, g, p, now)
    case Sync(n, d, p) => Synced(s, n, d, p, now)
    case Delete(id) => Deleted(s, id)
    case Rotate(id, k) => Rotated(s, id, k)
    case Disable(id, b) => if id in s.entries then Replaced(s, id, s.entries[id].(disabled := b)) else s
    case UpdateMeta(id, m) => if id in s.entries then Replaced(s, id, Updated(s.entries[id], m)) else s
    case ResetStats(id) => if id in s.entries then Replaced(s, id, Reset(s.entries[id])) else s
    case LimitCredits(id, limit) =>
      if id in s.entries && Acceptable(limit) then Replaced(s, id, s.entries[id].(maxCredits := limit)) else s
    case Charge(id, u, c) => if id in s.entries then Replaced(s, id, Charged(s.entries[id], u, c, now)) else s
    case Verify(k) => Verified(s, k, now)
  }

  // A generated key that no other entry holds.
  predicate FreshKey(s: Keys, op: Op) {
    op.Rotate? ==> !Holds(s.entries - {op.id}, op.newKey)
  }

  lemma ApplyKeeps(s: Keys, op: Op, now: string)
    requires WellKept(s) && FreshKey(s, op)
    ensures WellKept(Apply(s, op, now))
    ensures OnlyZeroIsSystem(s) || op.Sync? ==> OnlyZeroIsSystem(Apply(s, op, now))
    ensures s.nextId <= Apply(s, op, now).nextId
  {
    hide WellKept, OnlyZeroIsSystem, Created, Synced, Deleted, Rotated, Holds;
    match op
    case Create(n, d, g, p) => CreateKeeps(s, n, d, g, p, now); NextIds(s, op, now);
    case Sync(n, d, p) => SyncKeeps(s, n, d, p, now); NextIds(s, op, now);
    case Delete(id) => DeleteKeeps(s, id); NextIds(s, op, now);
    case Rotate(id, k) =>
      if id in s.entries {
        RotateKeepsIff(s, id, k);
      } else {
        MissingRotate(s, id, k);
      }
      NextIds(s, op, now);
    case Disable(id, b) => if id in s.entries { SameKey(s, id); ReplaceKeeps(s, id, s.entries[id].(disabled := b)); }
    case UpdateMeta(id, m) => if id in s.entries { SameKey(s, id); ReplaceKeeps(s, id, Updated(s.entries[id], m)); }
    case ResetStats(id) => if id in s.entries { SameKey(s, id); ReplaceKeeps(s, id, Reset(s.entries[id])); }
    case LimitCredits(id, limit) =>
      if id in s.entries && Acceptable(limit) {
        SameKey(s, id);
        ReplaceKeeps(s, id, s.entries[id].(maxCredits := limit));
      }
    case Charge(id, u, c) =>
      if id in s.entries {
        SameKey(s, id);
        ReplaceKeeps(s, id, Charged(s.entries[id], u, c, now));
      }
    case Verify(k) => VerifyKeeps(s, k, now);
  }

  lemma VerifyKeeps(s: Keys, presented: string, now: string)
    requires WellKept(s)
    ensures WellKept(Verified(s, presented, now)) && s.nextId == Verified(s, presented, now).nextId
    ensures OnlyZeroIsSystem(s) ==> OnlyZeroIsSystem(Verified(s, presented, now))
  {
    hide Touched, OnlyZeroIsSystem, WellKept, Denied;
    if Admits(s, presented) {
      var id :| Matches(s, presented, id) && Denied(s.entries[id], id).None?;
      VerifiedAt(s, presented, now, id);
      SameKey(s, id);
      TouchedFields(s.entries[id], now);
      ReplaceKeeps(s, id, Touched(s.entries[id], now));
    }
  }

  lemma TouchedFields(e: ClientKey, now: string)
    ensures var t := Touched(e, now);
            t.id == e.id && t.key == e.key && t.isSystem == e.isSystem && TotalsOf(t) == TotalsOf(e)
  {
  }

  lemma SameKey(s: Keys, id: nat)
    requires WellKept(s) && id in s.entries
    ensures s.entries[id].id == id
  {
  }

  lemma MissingRotate(s: Keys, id: nat, newKey: string)
    requires id !in s.entries
    ensures Rotated(s, id, newKey) == s
  {
  }

  lemma NextIds(s: Keys, op: Op, now: string)
    ensures s.nextId <= Apply(s, op, now).nextId
  {
    hide SystemEntry, NewKey, Charged, Reset, Touched, Survives, Admits;
  }

  ghost function After(s: Keys, ops: seq<Op>, now: seq<string>): Keys
    requires |now| == |ops|
    decreases |ops|
  {
    if ops == [] then s else After(Apply(s, ops[0], now[0]), ops[1..], now[1..])
  }

  ghost predicate AllFresh(s: Keys, ops: seq<Op>, now: seq<string>)
    requires |now| == |ops|
    decreases |ops|
  {
    ops == [] || (FreshKey(s, ops[0]) && AllFresh(Apply(s, ops[0], now[0]), ops[1..], now[1..]))
  }

  // Over every run with fresh generated keys.
  lemma {:induction false} RunKeeps(s: Keys, ops: seq<Op>, now: seq<string>)
    requires |now| == |ops| && WellKept(s) && AllFresh(s, ops, now)
    ensures WellKept(After(s, ops, now))
    ensures OnlyZeroIsSystem(s) ==> OnlyZeroIsSystem(After(s, ops, now))
    decreases |ops|
  {
    hide WellKept, OnlyZeroIsSystem, Apply, FreshKey;
    if ops != [] {
      ApplyKeeps(s, ops[0], now[0]);
      RunKeeps(Apply(s, ops[0], now[0]), ops[1..], now[1..]);
    }
  }

  // ----- what a key is charged -----

  function TotalsOf(e: ClientKey): Usage {
    Usage(e.totalInputTokens, e.totalOutputTokens, e.totalCacheCreationTokens, e.totalCacheReadTokens, e.totalCredits)
  }

  function PlusUsage(a: Usage, b: Usage): Usage {
    Usage(a.inputTokens + b.inputTokens, a.outputTokens + b.outputTokens,
          a.cacheCreationTokens + b.cacheCreationTokens, a.cacheReadTokens + b.cacheReadTokens, a.credits + b.credits)
  }

  // Credits that are not positive are ignored.
  function Billable(u: Usage): Usage {
    u.(credits := if u.credits > 0.0 then u.credits else 0.0)
  }

  function ChargedTo(op: Op, id: nat): Usage {
    if op.Charge? && op.id == id then Billable(op.usage) else Usage(0, 0, 0, 0, 0.0)
  }

  // Everything a run charges to one key.
  function AllCharges(ops: seq<Op>, id: nat): Usage {
    if ops == [] then Usage(0, 0, 0, 0, 0.0) else PlusUsage(ChargedTo(ops[0], id), AllCharges(ops[1..], id))
  }

  lemma PlusUsageAssociates(a: Usage, b: Usage, c: Usage)
    ensures PlusUsage(PlusUsage(a, b), c) == PlusUsage(a, PlusUsage(b, c))
  {
  }

  lemma PlusNothing(a: Usage)
    ensures PlusUsage(a, Usage(0, 0, 0, 0, 0.0)) == a
  {
  }

  lemma ChargeTotals(e: ClientKey, usage: Usage, countCall: bool, now: string)
    ensures TotalsOf(Charged(e, usage, countCall, now)) == PlusUsage(TotalsOf(e), Billable(usage))
  {
  }

  // Entry 0 is there and is the system key.
  predicate HasSystem(s: Keys) {
    0 in s.entries && s.entries[0].isSystem
  }

  // The system key stays: it is not deleted, and a synchronisation keeps it.
  lemma SystemStays(s: Keys, op: Op, now: string)
    requires WellKept(s) && HasSystem(s)
    ensures HasSystem(Apply(s, op, now))
  {
    hide Touched, Charged, Reset, NewKey, WellKept, Verified, Updated;
    NextIsPositive(s);
    match op
    case Charge(i, u, c) =>
      if i in s.entries {
        SameSystem(s.entries[i], u, c, now);
      }
    case ResetStats(i) =>
      if i in s.entries {
        SameSystem(s.entries[i], Usage(0, 0, 0, 0, 0.0), false, now);
      }
    case UpdateMeta(i, m) =>
      if i in s.entries {
        SystemUpdated(s.entries[i], m);
      }
    case Verify(k) => VerifyKeepsSystem(s, k, now);
    case _ =>
  }

  lemma NextIsPositive(s: Keys)
    requires WellKept(s)
    ensures s.nextId > 0
  {
  }

  lemma SameSystem(e: ClientKey, u: Usage, countCall: bool, now: string)
    ensures Charged(e, u, countCall, now).isSystem == e.isSystem && Reset(e).isSystem == e.isSystem
  {
  }

  lemma SystemUpdated(e: ClientKey, m: MetaChange)
    ensures Updated(e, m).isSystem == e.isSystem
  {
  }

  lemma VerifyKeepsSystem(s: Keys, presented: string, now: string)
    requires WellKept(s) && HasSystem(s)
    ensures HasSystem(Verified(s, presented, now))
  {
    hide Touched, WellKept, Denied;
    if Admits(s, presented) {
      var hit :| Matches(s, presented, hit) && Denied(s.entries[hit], hit).None?;
      VerifiedAt(s, presented, now, hit);
      TouchedFields(s.entries[hit], now);
    }
  }

  // One operation moves a key's totals by what it charges to that key. A key other than 0 that is
  // gone stays gone.
  lemma StepCharges(s: Keys, op: Op, now: string, id: nat)
    requires WellKept(s) && (id == 0 ==> HasSystem(s)) && id < s.nextId && op != ResetStats(id)
    ensures id in Apply(s, op, now).entries ==> id in s.entries
    ensures id in Apply(s, op, now).entries ==>
      TotalsOf(Apply(s, op, now).entries[id]) == PlusUsage(TotalsOf(s.entries[id]), ChargedTo(op, id))
  {
    if id in s.entries {
      PlusNothing(TotalsOf(s.entries[id]));
    }
    hide PlusUsage, TotalsOf, Charged, Touched, Reset, SystemEntry, NewKey, WellKept, Verified, Billable, Updated;
    match op
    case Charge(i, u, c) =>
      if i in s.entries {
        ChargeTotals(s.entries[i], u, c, now);
      }
    case Verify(k) =>
      VerifyCharges(s, k, now, id);
    case Sync(n, d, p) =>
      if id in s.entries {
        OtherTotals(s.entries[id], "", false);
      }
    case Rotate(i, k) =>
      if i in s.entries {
        OtherTotals(s.entries[i], k, false);
      }
    case Disable(i, b) =>
      if i in s.entries {
        OtherTotals(s.entries[i], "", b);
      }
    case UpdateMeta(i, m) =>
      if i in s.entries {
        MetaTotals(s.entries[i], m);
      }
    case LimitCredits(i, limit) =>
      if i in s.entries {
        LimitTotals(s.entries[i], limit);
      }
    case _ =>
  }

  lemma LimitTotals(e: ClientKey, limit: Option<real>)
    ensures TotalsOf(e.(maxCredits := limit)) == TotalsOf(e)
  {
  }

  lemma OtherTotals(e: ClientKey, key: string, flag: bool)
    ensures TotalsOf(e.(key := key)) == TotalsOf(e)
    ensures TotalsOf(e.(disabled := flag)) == TotalsOf(e)
    ensures TotalsOf(e.(isSystem := flag)) == TotalsOf(e)
  {
  }

  lemma MetaTotals(e: ClientKey, m: MetaChange)
    ensures TotalsOf(Updated(e, m)) == TotalsOf(e)
  {
  }

  lemma VerifyCharges(s: Keys, presented: string, now: string, id: nat)
    requires WellKept(s)
    ensures id in Verified(s, presented, now).entries <==> id in s.entries
    ensures id in s.entries ==> TotalsOf(Verified(s, presented, now).entries[id]) == TotalsOf(s.entries[id])
  {
    hide Touched, WellKept, Denied, TotalsOf;
    if Admits(s, presented) {
      var hit :| Matches(s, presented, hit) && Denied(s.entries[hit], hit).None?;
      VerifiedAt(s, presented, now, hit);
      TouchedFields(s.entries[hit], now);
    }
  }

  // No operation of the run resets the key.
  predicate NeverReset(ops: seq<Op>, id: nat) {
    forall i :: 0 <= i < |ops| ==> ops[i] != ResetStats(id)
  }

  // Over every run, whatever happens in between, a key that is still there has moved by exactly what
  // was charged to it: nothing is lost, counted twice or put on another key. This holds for the system
  // key too, which is always still there.
  lemma {:induction false} ChargesAddUp(s: Keys, ops: seq<Op>, now: seq<string>, id: nat)
    requires |now| == |ops| && WellKept(s) && AllFresh(s, ops, now)
    requires (id == 0 ==> HasSystem(s)) && id < s.nextId && NeverReset(ops, id) && id in After(s, ops, now).entries
    ensures id in s.entries
    ensures TotalsOf(After(s, ops, now).entries[id]) == PlusUsage(TotalsOf(s.entries[id]), AllCharges(ops, id))
    decreases |ops|
  {
    if ops == [] {
      PlusNothing(TotalsOf(s.entries[id]));
    } else {
      hide WellKept, Apply, FreshKey, PlusUsage, TotalsOf, ChargedTo;
      var t := Apply(s, ops[0], now[0]);
      assert ops[0] != ResetStats(id);
      ApplyKeeps(s, ops[0], now[0]);
      if id == 0 {
        SystemStays(s, ops[0], now[0]);
      }
      ChargesAddUp(t, ops[1..], now[1..], id);
      StepCharges(s, ops[0], now[0], id);
      PlusUsageAssociates(TotalsOf(s.entries[id]), ChargedTo(ops[0], id), AllCharges(ops[1..], id));
    }
  }

  // ----- a quota that is used up -----

  // The operation changes what the key may use.
  predicate EditsQuota(op: Op, id: nat) {
    || op == ResetStats(id)
    || (op.LimitCredits? && op.id == id)
    || (op.UpdateMeta? && op.id == id && op.change.billing.Some?)
  }

  predicate NeverEdited(ops: seq<Op>, id: nat) {
    forall i :: 0 <= i < |ops| ==> !EditsQuota(ops[i], id)
  }

  // Entry b has no more room than a, and was admitted as often.
  predicate NoMoreRoom(a: ClientKey, b: ClientKey) {
    !HasRoom(b) && b.totalCalls == a.totalCalls
  }

  lemma SameRoom(e: ClientKey, key: string, flag: bool)
    requires !HasRoom(e)
    ensures NoMoreRoom(e, e) && NoMoreRoom(e, e.(key := key)) && NoMoreRoom(e, e.(disabled := flag))
    ensures NoMoreRoom(e, e.(isSystem := flag))
    ensures NoMoreRoom(e, e.(key := key, disabled := false, isSystem := true))
  {
  }

  lemma ChargedRoom(e: ClientKey, u: Usage, countCall: bool, now: string)
    requires !HasRoom(e)
    ensures NoMoreRoom(e, Charged(e, u, countCall, now))
  {
  }

  lemma UpdatedRoom(e: ClientKey, m: MetaChange)
    requires !HasRoom(e) && m.billing.None?
    ensures NoMoreRoom(e, Updated(e, m))
  {
  }

  lemma StepExhausted(s: Keys, op: Op, now: string, id: nat)
    requires WellKept(s) && id in s.entries && (id == 0 ==> HasSystem(s)) && !HasRoom(s.entries[id])
    requires !EditsQuota(op, id)
    ensures id in Apply(s, op, now).entries ==> NoMoreRoom(s.entries[id], Apply(s, op, now).entries[id])
  {
    var e := s.entries[id];
    SameRoom(e, e.key, e.disabled);
    NextIsPositive(s);
    hide HasRoom, NoMoreRoom, Charged, Touched, Reset, NewKey, WellKept, Verified, Updated, Acceptable;
    match op
    case Charge(i, u, c) => ChargedRoom(e, u, c, now);
    case Verify(k) => VerifyExhausted(s, k, now, id);
    case Sync(n, d, p) => SameRoom(e, p, true); SameRoom(e, p, false);
    case Rotate(i, k) => SameRoom(e, k, false);
    case Disable(i, b) => SameRoom(e, "", b);
    case UpdateMeta(i, m) =>
      if i == id {
        UpdatedRoom(e, m);
      }
    case Create(n, d, g, p) => NewerId(s);
    case _ =>
  }

  lemma NewerId(s: Keys)
    requires WellKept(s)
    ensures s.nextId !in s.entries
  {
  }

  lemma VerifyExhausted(s: Keys, presented: string, now: string, id: nat)
    requires WellKept(s) && id in s.entries && !HasRoom(s.entries[id])
    ensures id in Verified(s, presented, now).entries && Verified(s, presented, now).entries[id] == s.entries[id]
  {
    hide Touched, WellKept, Denied, HasRoom;
    if Admits(s, presented) {
      var hit :| Matches(s, presented, hit) && Denied(s.entries[hit], hit).None?;
      VerifiedAt(s, presented, now, hit);
      DeniedIff(s.entries[hit], hit);
    }
  }

  // A key whose quota is used up is not admitted in any run that neither resets it nor edits its
  // limits or its billing, however much is charged to it meanwhile.
  lemma {:induction false} ExhaustedStays(s: Keys, ops: seq<Op>, now: seq<string>, id: nat)
    requires |now| == |ops| && WellKept(s) && AllFresh(s, ops, now)
    requires id in s.entries && (id == 0 ==> HasSystem(s)) && !HasRoom(s.entries[id]) && NeverEdited(ops, id)
    ensures id in After(s, ops, now).entries ==> NoMoreRoom(s.entries[id], After(s, ops, now).entries[id])
    decreases |ops|
  {
    hide WellKept, Apply, FreshKey, HasRoom, EditsQuota;
    if ops == [] {
      SameRoom(s.entries[id], "", false);
    } else {
      var t := Apply(s, ops[0], now[0]);
      ApplyKeeps(s, ops[0], now[0]);
      assert !EditsQuota(ops[0], id);
      StepExhausted(s, ops[0], now[0], id);
      if id == 0 {
        SystemStays(s, ops[0], now[0]);
      }
      if id in t.entries {
        ExhaustedStays(t, ops[1..], now[1..], id);
      } else {
        BelowNext(s, id);
        GoneStaysGone(t, ops[1..], now[1..], id);
      }
    }
  }

  lemma BelowNext(s: Keys, id: nat)
    requires WellKept(s) && id in s.entries
    ensures id < s.nextId
  {
  }

  lemma StepGone(s: Keys, op: Op, now: string, id: nat)
    requires WellKept(s) && id !in s.entries && id != 0 && id < s.nextId
    ensures id !in Apply(s, op, now).entries
  {
    hide Charged, Touched, Reset, NewKey, WellKept, Verified, Updated, SystemEntry;
    if op.Verify? {
      VerifyCharges(s, op.presented, now, id);
    }
  }

  lemma {:induction false} GoneStaysGone(s: Keys, ops: seq<Op>, now: seq<string>, id: nat)
    requires |now| == |ops| && WellKept(s) && AllFresh(s, ops, now)
    requires id !in s.entries && id != 0 && id < s.nextId
    ensures id !in After(s, ops, now).entries
    decreases |ops|
  {
    hide WellKept, Apply, FreshKey;
    if ops != [] {
      ApplyKeeps(s, ops[0], now[0]);
      StepGone(s, ops[0], now[0], id);
      GoneStaysGone(Apply(s, ops[0], now[0]), ops[1..], now[1..], id);
    }
  }

  // Ids are never handed out twice: an id below the next id stays below it.
  lemma NewIdIsNew(s: Keys, name: string, description: Option<string>, group: Option<string>, plaintext: string,
                   now: string)
    requires WellKept(s) && !Holds(s.entries, plaintext)
    ensures s.nextId !in s.entries
    ensures Matches(Created(s, name, description, group, plaintext, now), plaintext, s.nextId)
  {
    NewKeyFields(s.nextId, plaintext, name, description, NonBlank(group), false, now);
  }
}
