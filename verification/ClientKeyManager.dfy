// The key manager: the table, an index by plaintext, and the operations that keep both in step.
module ClientKeyManagement {
  import opened ClientKeys
  import opened Collections
  import opened Wrappers

  // The index of the entries visited so far.
  ghost predicate Indexes(byKey: map<string, nat>, entries: map<nat, ClientKey>, done: set<nat>) {
    && (forall k :: k in byKey ==> byKey[k] in entries && byKey[k] in done && entries[byKey[k]].key == k)
    && (forall id :: id in entries && id in done ==> entries[id].key in byKey)
  }

  lemma IndexStep(byKey: map<string, nat>, entries: map<nat, ClientKey>, done: set<nat>, id: nat)
    requires Indexes(byKey, entries, done) && id in entries && id !in done
    ensures Indexes(byKey[entries[id].key := id], entries, done + {id})
  {
  }

  lemma IndexEnd(byKey: map<string, nat>, entries: map<nat, ClientKey>)
    requires Indexes(byKey, entries, entries.Keys)
    ensures Usable(byKey, entries)
  {
  }

  // The index of a table, by a scan in any order; later entries overwrite earlier ones.
  method BuildIndex(entries: map<nat, ClientKey>) returns (byKey: map<string, nat>)
    ensures Usable(byKey, entries)
    ensures Inverse(byKey, entries) <==> Distinct(entries)
  {
    byKey := map[];
    var todo := entries.Keys;
    AllVisited(todo);
    while todo != {}
      invariant todo <= entries.Keys
      invariant Indexes(byKey, entries, entries.Keys - todo)
      decreases |todo|
    {
      hide Indexes;
      var id, rest := TakeMember(todo);
      VisitedGrows(entries.Keys, todo, id);
      IndexStep(byKey, entries, entries.Keys - todo, id);
      byKey := byKey[entries[id].key := id];
      todo := rest;
    }
    IndexEnd(byKey, entries);
    UsableExactIff(byKey, entries);
  }

  predicate Spared(id: nat, entry: ClientKey, plaintext: string, previous: Option<string>) {
    id == 0 || (entry.key != plaintext && previous != Some(entry.key))
  }

  // retain: what is left of the table when the doomed entries go.
  method RetainSurvivors(entries: map<nat, ClientKey>, plaintext: string, previous: Option<string>)
    returns (kept: map<nat, ClientKey>)
    ensures kept == map id | id in entries && Spared(id, entries[id], plaintext, previous) :: entries[id]
  {
    hide Spared;
    kept := map[];
    var todo := entries.Keys;
    AllVisited(todo);
    while todo != {}
      invariant todo <= entries.Keys
      invariant forall id :: id in kept <==> id in entries.Keys - todo && Spared(id, entries[id], plaintext, previous)
      invariant forall id :: id in kept ==> kept[id] == entries[id]
      decreases |todo|
    {
      var id, rest := TakeMember(todo);
      VisitedGrows(entries.Keys, todo, id);
      if Spared(id, entries[id], plaintext, previous) {
        kept := kept[id := entries[id]];
      }
      todo := rest;
    }
  }

  function Cleared(id: nat, entry: ClientKey): ClientKey {
    if id == 0 then entry else entry.(isSystem := false)
  }

  // Every entry but 0 loses the system flag.
  method ClearSystemFlags(entries: map<nat, ClientKey>) returns (r: map<nat, ClientKey>)
    ensures r == map id | id in entries :: Cleared(id, entries[id])
  {
    hide Cleared;
    r := entries;
    var todo := entries.Keys;
    AllVisited(todo);
    while todo != {}
      invariant todo <= entries.Keys && r.Keys == entries.Keys
      invariant forall id :: id in todo ==> r[id] == entries[id]
      invariant forall id :: id in entries.Keys - todo ==> r[id] == Cleared(id, entries[id])
      decreases |todo|
    {
      var id, rest := TakeMember(todo);
      VisitedGrows(entries.Keys, todo, id);
      r := r[id := Cleared(id, r[id])];
      todo := rest;
    }
  }

  lemma SyncPieces(s: Keys, name: string, description: Option<string>, plaintext: string, now: string,
                   with: map<nat, ClientKey>, kept: map<nat, ClientKey>, cleared: map<nat, ClientKey>)
    requires with == s.entries[0 := SystemEntry(s, name, description, plaintext, now)]
    requires var previous := if 0 in s.entries then Some(s.entries[0].key) else None;
             kept == map id | id in with && Spared(id, with[id], plaintext, previous) :: with[id]
    requires cleared == map id | id in kept :: Cleared(id, kept[id])
    ensures Keys(cleared, s.nextId) == Synced(s, name, description, plaintext, now)
  {
    hide SystemEntry;
    var r := Synced(s, name, description, plaintext, now);
    forall id ensures id in cleared <==> id in r.entries {
    }
    forall id | id in cleared ensures cleared[id] == r.entries[id] {
    }
    assert cleared == r.entries;
  }

  // What a loop over a saved list leaves: for each id its last entry, for each plaintext the id of
  // its last entry.
  function TableFrom(list: seq<ClientKey>): map<nat, ClientKey> {
    if list == [] then map[]
    else var e := list[|list| - 1]; TableFrom(list[..|list| - 1])[e.id := e]
  }

  function IndexFrom(list: seq<ClientKey>): map<string, nat> {
    if list == [] then map[]
    else var e := list[|list| - 1]; IndexFrom(list[..|list| - 1])[e.key := e.id]
  }

  function MaxId(list: seq<ClientKey>): nat {
    if list == [] then 0
    else
      var before, e := MaxId(list[..|list| - 1]), list[|list| - 1];
      if e.id > before then e.id else before
  }

  predicate LastOfId(list: seq<ClientKey>, i: nat)
    requires i < |list|
  {
    forall j :: i < j < |list| ==> list[j].id != list[i].id
  }

  predicate LastOfKey(list: seq<ClientKey>, i: nat)
    requires i < |list|
  {
    forall j :: i < j < |list| ==> list[j].key != list[i].key
  }

  // An entry is the last of its id exactly when it is the last of its plaintext.
  predicate Agrees(list: seq<ClientKey>) {
    forall i :: 0 <= i < |list| ==> (LastOfId(list, i) <==> LastOfKey(list, i))
  }

  lemma {:induction false} TableHas(list: seq<ClientKey>, i: nat)
    requires i < |list|
    ensures list[i].id in TableFrom(list) && list[i].id <= MaxId(list)
    ensures LastOfId(list, i) ==> TableFrom(list)[list[i].id] == list[i]
  {
    var n := |list| - 1;
    if i < n {
      TableHas(list[..n], i);
      assert LastOfId(list, i) ==> LastOfId(list[..n], i) && list[n].id != list[i].id;
    }
  }

  lemma {:induction false} TableFromLast(list: seq<ClientKey>, id: nat) returns (i: nat)
    requires id in TableFrom(list)
    ensures i < |list| && list[i].id == id && LastOfId(list, i) && TableFrom(list)[id] == list[i]
  {
    var n := |list| - 1;
    if list[n].id == id {
      i := n;
    } else {
      i := TableFromLast(list[..n], id);
      assert forall j :: i < j < n ==> list[..n][j] == list[j];
    }
  }

  lemma {:induction false} IndexHas(list: seq<ClientKey>, i: nat)
    requires i < |list|
    ensures list[i].key in IndexFrom(list)
    ensures LastOfKey(list, i) ==> IndexFrom(list)[list[i].key] == list[i].id
  {
    var n := |list| - 1;
    if i < n {
      IndexHas(list[..n], i);
      assert LastOfKey(list, i) ==> LastOfKey(list[..n], i) && list[n].key != list[i].key;
    }
  }

  lemma {:induction false} IndexFromLast(list: seq<ClientKey>, k: string) returns (i: nat)
    requires k in IndexFrom(list)
    ensures i < |list| && list[i].key == k && LastOfKey(list, i) && IndexFrom(list)[k] == list[i].id
  {
    var n := |list| - 1;
    if list[n].key == k {
      i := n;
    } else {
      i := IndexFromLast(list[..n], k);
      assert forall j :: i < j < n ==> list[..n][j] == list[j];
    }
  }

  // The index is exact exactly when last of id and last of plaintext agree.
  lemma LoadedExactIff(list: seq<ClientKey>)
    ensures Inverse(IndexFrom(list), TableFrom(list)) <==> Agrees(list)
  {
    hide TableFrom, IndexFrom;
    if Agrees(list) {
      AgreeingIsExact(list);
    }
    if Inverse(IndexFrom(list), TableFrom(list)) {
      ExactAgrees(list);
    }
  }

  lemma AgreeingIsExact(list: seq<ClientKey>)
    requires Agrees(list)
    ensures Inverse(IndexFrom(list), TableFrom(list))
  {
    hide TableFrom, IndexFrom, LastOfId, LastOfKey;
    var es, ks := TableFrom(list), IndexFrom(list);
    forall k | k in ks ensures ks[k] in es && es[ks[k]].key == k {
      var i := IndexFromLast(list, k);
      TableHas(list, i);
    }
    forall id | id in es ensures es[id].key in ks && ks[es[id].key] == id {
      var i := TableFromLast(list, id);
      IndexHas(list, i);
    }
  }

  lemma ExactAgrees(list: seq<ClientKey>)
    requires Inverse(IndexFrom(list), TableFrom(list))
    ensures Agrees(list)
  {
    hide TableFrom, IndexFrom;
    forall i | 0 <= i < |list| ensures LastOfId(list, i) <==> LastOfKey(list, i) {
      TableHas(list, i);
      IndexHas(list, i);
      var k := IndexFromLast(list, list[i].key);
      TableHas(list, k);
      var l := TableFromLast(list, list[i].id);
      IndexHas(list, l);
    }
  }

  lemma {:induction false} LoadedIds(list: seq<ClientKey>)
    ensures forall id :: id in TableFrom(list) ==> TableFrom(list)[id].id == id <= MaxId(list)
  {
    if list != [] {
      LoadedIds(list[..|list| - 1]);
    }
  }

  // With distinct ids that is: no two entries share a plaintext.
  lemma DistinctIdsAgreeIff(list: seq<ClientKey>)
    requires forall i, j :: 0 <= i < j < |list| ==> list[i].id != list[j].id
    ensures Agrees(list) <==> forall i, j :: 0 <= i < j < |list| ==> list[i].key != list[j].key
  {
    if Agrees(list) {
      forall i, j | 0 <= i < j < |list| ensures list[i].key != list[j].key {
        assert LastOfId(list, i);
        assert LastOfKey(list, i);
      }
    }
  }

  // A repeated id is enough to break it, although one entry survives: its earlier plaintext stays
  // in the index.
  lemma RepeatedIdLeavesStaleKey(e: ClientKey, earlier: string, later: string)
    requires earlier != later
    ensures var list := [e.(key := earlier), e.(key := later)];
            Distinct(TableFrom(list)) && !Inverse(IndexFrom(list), TableFrom(list))
  {
    var first, second := e.(key := earlier), e.(key := later);
    StaleKey(first, second);
  }

  lemma StaleKey(first: ClientKey, second: ClientKey)
    requires first.id == second.id && first.key != second.key
    ensures Distinct(TableFrom([first, second])) && !Inverse(IndexFrom([first, second]), TableFrom([first, second]))
  {
    var list := [first, second];
    assert list[..1] == [first] && list[..1][..0] == [];
    assert TableFrom([first]) == map[first.id := first];
    assert TableFrom(list) == map[second.id := second];
    LoadedExactIff(list);
    assert LastOfKey(list, 0) && !LastOfId(list, 0);
  }

  class ClientKeyManager {
    var entries: map<nat, ClientKey>
    var byKey: map<string, nat>
    var nextId: nat

    function View(): Keys
      reads this
    {
      Keys(entries, nextId)
    }

    predicate Valid()
      reads this
    {
      WellKept(View()) && Inverse(byKey, entries)
    }

    constructor ()
      ensures Valid() && entries == map[] && nextId == 1
    {
      entries, byKey, nextId := map[], map[], 1;
    }

    // From a saved list, whatever it holds. The table keeps the last entry of each id; it and the
    // index are in step exactly when last of id and last of plaintext agree.
    constructor Load(list: seq<ClientKey>)
      ensures entries == TableFrom(list) && byKey == IndexFrom(list) && nextId == MaxId(list) + 1
      ensures forall id :: id in entries ==> entries[id].id == id < nextId
      ensures Valid() <==> Agrees(list)
    {
      var es: map<nat, ClientKey>, ks: map<string, nat>, maxId: nat := map[], map[], 0;
      for i := 0 to |list|
        invariant es == TableFrom(list[..i]) && ks == IndexFrom(list[..i]) && maxId == MaxId(list[..i])
      {
        assert list[..i + 1][..i] == list[..i];
        var e := list[i];
        maxId := if e.id > maxId then e.id else maxId;
        ks := ks[e.key := e.id];
        es := es[e.id := e];
      }
      assert list[..|list|] == list;
      LoadedIds(list);
      LoadedExactIff(list);
      if Inverse(ks, es) {
        InverseDistinct(ks, es);
      }
      entries, byKey, nextId := es, ks, maxId + 1;
    }

    method CreateWithKey(name: string, description: Option<string>, group: Option<string>, plaintext: string,
                         now: string)
      returns (entry: ClientKey)
      requires Valid()
      modifies this
      ensures Valid() && View() == Created(old(View()), name, description, group, plaintext, now)
      ensures entry.key == plaintext && entry.id in entries && entries[entry.id] == entry
      ensures if Holds(old(entries), plaintext) then entries == old(entries)
              else IsNewKey(entry, old(nextId), plaintext, name, description, group, now)
                   && entries == old(entries)[old(nextId) := entry]
    {
      hide WellKept, Inverse, Holds, NewKey, IsNewKey;
      InverseDistinct(byKey, entries);
      CreateKeeps(View(), name, description, group, plaintext, now);
      if plaintext in byKey {
        IndexedEntry(View(), byKey, plaintext);
        return entries[byKey[plaintext]];
      }
      NewKeyFields(nextId, plaintext, name, description, NonBlank(group), false, now);
      NewIsNewKey(nextId, plaintext, name, description, group, now);
      NewIndexed(View(), byKey, NewKey(nextId, plaintext, name, description, NonBlank(group), false, now));
      var id := nextId;
      nextId := nextId + 1;
      entry := NewKey(id, plaintext, name, description, NonBlank(group), false, now);
      byKey := byKey[plaintext := id];
      entries := entries[id := entry];
    }

    // Returns whether anything changed, which is when the table is saved. The index is rebuilt from
    // any table, and exact exactly when no two entries left share a plaintext.
    method SyncSystemKey(name: string, description: Option<string>, plaintext: string, now: string)
      returns (changed: bool)
      modifies this
      ensures View() == Synced(old(View()), name, description, plaintext, now)
      ensures Usable(byKey, entries) && (Inverse(byKey, entries) <==> Distinct(entries))
      ensures changed <==> View() != old(View()) || byKey != old(byKey)
      ensures 0 !in old(entries) ==>
        0 in entries && entries[0].isSystem
        && IsNewKey(entries[0].(isSystem := false), 0, plaintext, name, description, None, now)
      ensures old(Valid()) ==> Valid() && OnlyZeroIsSystem(View()) && (changed <==> View() != old(View()))
    {
      hide WellKept, Synced, SystemEntry, Inverse, Usable, OnlyZeroIsSystem, IsNewKey;
      ghost var s := View();
      var previous := if 0 in entries then Some(entries[0].key) else None;
      var before, index := entries, byKey;
      var zero := SystemEntry(View(), name, description, plaintext, now);
      NewSystemEntry(View(), name, description, plaintext, now);
      entries := entries[0 := zero];
      var with := entries;
      entries := RetainSurvivors(entries, plaintext, previous);
      var kept := entries;
      entries := ClearSystemFlags(entries);
      SyncPieces(s, name, description, plaintext, now, with, kept, entries);
      byKey := BuildIndex(entries);
      changed := entries != before || byKey != index;
      if WellKept(s) && Inverse(index, before) {
        SyncKeeps(s, name, description, plaintext, now);
        TableOf(View());
        if entries == before {
          InverseUnique(byKey, index, entries);
        }
      }
    }

    method Delete(id: nat) returns (removed: bool)
      requires Valid()
      modifies this
      ensures Valid() && View() == Deleted(old(View()), id)
      ensures removed <==> Deletable(old(View()), id)
    {
      DeleteKeeps(View(), id);
      if id in entries && entries[id].isSystem {
        return false;
      }
      if id in entries {
        var e := entries[id];
        entries := entries - {id};
        byKey := byKey - {e.key};
        removed := true;
      } else {
        removed := false;
      }
    }

    // `newKey` is the generated plaintext.
    method Rotate(id: nat, newKey: string) returns (snapshot: Option<ClientKey>)
      requires Valid()
      modifies this
      ensures View() == Rotated(old(View()), id, newKey)
      ensures snapshot == if id in old(entries) then Some(entries[id]) else None
      ensures Valid() <==> id !in old(entries) || !Holds(old(entries) - {id}, newKey)
    {
      if id !in entries {
        return None;
      }
      RotateKeepsIff(View(), id, newKey);
      var oldKey := entries[id].key;
      byKey := byKey - {oldKey};
      entries := entries[id := entries[id].(key := newKey)];
      byKey := byKey[newKey := id];
      snapshot := Some(entries[id]);
      if !Holds(old(entries) - {id}, newKey) {
        assert Inverse(byKey, entries) by {
          forall k | k in byKey ensures byKey[k] in entries && entries[byKey[k]].key == k {
          }
          forall other | other in entries ensures entries[other].key in byKey && byKey[entries[other].key] == other {
            if other != id {
              assert other in old(entries) - {id} && (old(entries) - {id})[other] == entries[other];
            }
          }
        }
      }
    }

    // The scan compares every enabled entry, in any order, and keeps the last hit. It finds exactly
    // what the index finds.
    method FindEnabled(presented: string) returns (hit: Option<nat>)
      requires Valid()
      ensures hit == if presented in byKey && !entries[byKey[presented]].disabled then Some(byKey[presented]) else None
      ensures hit.Some? ==> Matches(View(), presented, hit.value)
      ensures hit.None? ==> forall id :: !Matches(View(), presented, id)
    {
      hit := None;
      var todo := entries.Keys;
      AllVisited(todo);
      while todo != {}
        invariant todo <= entries.Keys
        invariant hit.Some? ==> Matches(View(), presented, hit.value)
        invariant hit.None? ==> forall id :: id in entries.Keys - todo ==> !Matches(View(), presented, id)
        decreases |todo|
      {
        var id, rest := TakeMember(todo);
        VisitedGrows(entries.Keys, todo, id);
        if !entries[id].disabled && entries[id].key == presented {
          hit := Some(id);
        }
        todo := rest;
      }
    }

    method VerifyAndTouchEx(presented: string, now: string) returns (auth: KeyAuth)
      requires Valid()
      modifies this`entries
      ensures Valid()
      ensures auth == NotFound <==> forall id :: !Matches(old(View()), presented, id)
      ensures forall id :: Matches(old(View()), presented, id) ==>
        var e := old(entries)[id];
        && (auth == KeyAuth.Ok(id) <==> HasRoom(e))
        && (HasRoom(e) ==> entries == old(entries)[id := e.(totalCalls := e.totalCalls + 1, lastUsedAt := Some(now))])
        && (!HasRoom(e) ==> entries == old(entries))
        && (!HasRoom(e) && e.billingMode.Credits? ==>
              e.maxCredits.Some? && auth == OverLimit(id, e.totalCredits, e.maxCredits.value))
        && (!HasRoom(e) && e.billingMode.Calls? ==>
              e.maxCalls.Some? && auth == CallsOverLimit(id, e.totalSuccessfulCalls, e.maxCalls.value))
      ensures auth == NotFound ==> entries == old(entries)
      ensures View() == Verified(old(View()), presented, now)
    {
      hide Touched, Denied, WellKept, HasRoom;
      var hit := FindEnabled(presented);
      if hit.None? {
        return NotFound;
      }
      var id := hit.value;
      OnlyMatch(View(), presented, id);
      DeniedIff(entries[id], id);
      TouchedIs(entries[id], now);
      VerifiedAt(View(), presented, now, id);
      hide Verified;
      var denied := Denied(entries[id], id);
      DeniedIsNotFoundFree(entries[id], id);
      if denied.Some? {
        return denied.value;
      }
      TouchKeeps(View(), id, now);
      entries := entries[id := Touched(entries[id], now)];
      auth := KeyAuth.Ok(id);
    }

    // Stores a changed entry under its id and plaintext.
    method Store(id: nat, entry: ClientKey)
      requires Valid() && id in entries && entry.id == id && entry.key == entries[id].key
      modifies this`entries
      ensures Valid() && View() == Replaced(old(View()), id, entry)
    {
      ReplaceKeeps(View(), id, entry);
      entries := entries[id := entry];
    }

    method RecordUsage(id: nat, usage: Usage, countCall: bool, now: string)
      requires Valid()
      modifies this`entries
      ensures Valid() && View() == Apply(old(View()), Charge(id, usage, countCall), now)
      ensures id in old(entries) ==>
        id in entries && Charges(old(entries)[id], entries[id], usage, countCall, now)
        && entries == old(entries)[id := entries[id]]
    {
      hide Charged, WellKept, Charges;
      if id in entries {
        ChargedCharges(entries[id], usage, countCall, now);
        ChargeKeeps(View(), id, usage, countCall, now);
        Store(id, Charged(entries[id], usage, countCall, now));
      }
    }

    method SetDisabled(id: nat, disabled: bool) returns (updated: bool)
      requires Valid()
      modifies this`entries
      ensures Valid() && View() == Apply(old(View()), Disable(id, disabled), "")
      ensures updated <==> id in old(entries)
    {
      hide WellKept, Replaced;
      updated := id in entries;
      if updated {
        SameKey(View(), id);
        Store(id, entries[id].(disabled := disabled));
      }
    }

    method SetMeta(id: nat, change: MetaChange) returns (updated: bool)
      requires Valid()
      modifies this`entries
      ensures Valid() && View() == Apply(old(View()), UpdateMeta(id, change), "")
      ensures updated <==> id in old(entries)
      ensures updated ==> id in entries && Edits(old(entries)[id], entries[id], change)
    {
      hide WellKept, Edits, Updated;
      updated := id in entries;
      if updated {
        UpdatedEdits(entries[id], change);
        SameKey(View(), id);
        Store(id, Updated(entries[id], change));
      }
    }

    method ResetTotals(id: nat) returns (updated: bool)
      requires Valid()
      modifies this`entries
      ensures Valid() && View() == Apply(old(View()), ResetStats(id), "")
      ensures updated <==> id in old(entries)
      ensures updated ==> id in entries && Resets(old(entries)[id], entries[id])
    {
      hide WellKept, Resets, Reset;
      updated := id in entries;
      if updated {
        ResetResets(entries[id]);
        SameKey(View(), id);
        Store(id, Reset(entries[id]));
      }
    }

    // A negative limit is refused.
    method SetMaxCredits(id: nat, limit: Option<real>) returns (updated: bool)
      requires Valid()
      modifies this`entries
      ensures Valid() && View() == Apply(old(View()), LimitCredits(id, limit), "")
      ensures updated <==> id in old(entries) && (limit.Some? ==> limit.value >= 0.0)
    {
      hide WellKept, Replaced;
      if limit.Some? && limit.value < 0.0 {
        return false;
      }
      updated := id in entries;
      if updated {
        SameKey(View(), id);
        Store(id, entries[id].(maxCredits := limit));
      }
    }

    // Any one operation, with the table and the index together.
    method Perform(op: Op, now: string)
      requires Valid() && FreshKey(View(), op)
      modifies this
      ensures Valid() && View() == Apply(old(View()), op, now)
    {
      hide WellKept, Inverse, Created, Synced, Deleted, Rotated, Verified, Charged, Updated, Reset;
      match op {
        case Create(n, d, g, p) => var _ := CreateWithKey(n, d, g, p, now);
        case Sync(n, d, p) => var _ := SyncSystemKey(n, d, p, now);
        case Delete(id) => var _ := Delete(id);
        case Rotate(id, k) => var _ := Rotate(id, k);
        case Disable(id, b) => var _ := SetDisabled(id, b);
        case UpdateMeta(id, m) => var _ := SetMeta(id, m);
        case ResetStats(id) => var _ := ResetTotals(id);
        case LimitCredits(id, l) => var _ := SetMaxCredits(id, l);
        case Charge(id, u, c) => RecordUsage(id, u, c, now);
        case Verify(k) => var _ := VerifyAndTouchEx(k, now);
      }
    }

    // Over every run of operations with fresh generated keys the index stays exact, and the table is
    // the one the operations make.
    method Run(ops: seq<Op>, now: seq<string>)
      requires |now| == |ops| && Valid() && AllFresh(View(), ops, now)
      modifies this
      ensures Valid() && View() == After(old(View()), ops, now)
      ensures OnlyZeroIsSystem(old(View())) ==> OnlyZeroIsSystem(View())
    {
      hide WellKept, Inverse, Apply, FreshKey, OnlyZeroIsSystem;
      RunKeepsValid(this, ops, now);
      ghost var s := View();
      for i := 0 to |ops|
        invariant Valid() && AllFresh(View(), ops[i..], now[i..])
        invariant After(View(), ops[i..], now[i..]) == After(s, ops, now)
      {
        assert ops[i..][0] == ops[i] && now[i..][0] == now[i];
        assert ops[i..][1..] == ops[i + 1..] && now[i..][1..] == now[i + 1..];
        Perform(ops[i], now[i]);
      }
    }
  }

  lemma NewSystemEntry(s: Keys, name: string, description: Option<string>, plaintext: string, now: string)
    ensures Synced(s, name, description, plaintext, now).entries[0] == SystemEntry(s, name, description, plaintext, now)
    ensures 0 !in s.entries ==>
      var e := SystemEntry(s, name, description, plaintext, now);
      e.isSystem && IsNewKey(e.(isSystem := false), 0, plaintext, name, description, None, now)
  {
  }

  lemma IndexedEntry(s: Keys, byKey: map<string, nat>, key: string)
    requires WellKept(s) && Inverse(byKey, s.entries) && key in byKey
    ensures byKey[key] in s.entries && s.entries[byKey[key]].key == key && s.entries[byKey[key]].id == byKey[key]
  {
  }

  lemma NewIndexed(s: Keys, byKey: map<string, nat>, entry: ClientKey)
    requires WellKept(s) && Inverse(byKey, s.entries) && entry.id == s.nextId && entry.key !in byKey
    ensures Inverse(byKey[entry.key := s.nextId], s.entries[s.nextId := entry])
  {
  }

  lemma RunKeepsValid(m: ClientKeyManager, ops: seq<Op>, now: seq<string>)
    requires |now| == |ops| && m.Valid() && AllFresh(m.View(), ops, now)
    ensures OnlyZeroIsSystem(m.View()) ==> OnlyZeroIsSystem(After(m.View(), ops, now))
  {
    RunKeeps(m.View(), ops, now);
  }

  lemma TableOf(s: Keys)
    requires WellKept(s)
    ensures Distinct(s.entries)
  {
  }

  lemma OnlyMatch(s: Keys, presented: string, id: nat)
    requires WellKept(s) && Matches(s, presented, id)
    ensures forall other :: Matches(s, presented, other) ==> other == id
  {
    forall other | Matches(s, presented, other) ensures other == id {
      MatchUnique(s, presented, other, id);
    }
  }

  lemma TouchedIs(e: ClientKey, now: string)
    ensures Touched(e, now) == e.(totalCalls := e.totalCalls + 1, lastUsedAt := Some(now))
  {
  }

  lemma DeniedIsNotFoundFree(e: ClientKey, id: nat)
    ensures Denied(e, id).Some? ==> Denied(e, id).value != NotFound && !Denied(e, id).value.Ok?
  {
  }

  lemma TouchKeeps(s: Keys, id: nat, now: string)
    requires WellKept(s) && id in s.entries
    ensures WellKept(Replaced(s, id, Touched(s.entries[id], now)))
    ensures Touched(s.entries[id], now).key == s.entries[id].key
  {
    ReplaceKeeps(s, id, Touched(s.entries[id], now));
  }

  lemma ChargeKeeps(s: Keys, id: nat, usage: Usage, countCall: bool, now: string)
    requires WellKept(s) && id in s.entries
    ensures WellKept(Replaced(s, id, Charged(s.entries[id], usage, countCall, now)))
    ensures Charged(s.entries[id], usage, countCall, now).id == id
    ensures Charged(s.entries[id], usage, countCall, now).key == s.entries[id].key
  {
    ReplaceKeeps(s, id, Charged(s.entries[id], usage, countCall, now));
  }
}
