/** The equipment store and its change log (src/utils/storage.ts).

    The two persisted collections, kept under the keys `equipment_inventory`
    and `equipment_history`, are the two fields of `EquipmentStore`. Every
    successful add, update or delete changes the record list and then puts
    exactly one entry at the FRONT of the log. The pure `StoreState` and the
    step functions `AddStep`, `UpdateStep`, `DeleteStep` say what each method
    does to the pair; the lemmas below them state what the store promises. */
module Storage {
  import opened EquipmentTypes
  import opened Seqs

  // ---------------------------------------------------------------------
  // Looking records up

  /** Some record of `s` has identifier `id`. */
  ghost predicate HasId(s: seq<Equipment>, id: string)
  {
    exists i :: 0 <= i < |s| && s[i].id == id
  }

  /** `k` is the first position of `s` holding a record with identifier `id`. */
  predicate IsFirstMatch(s: seq<Equipment>, id: string, k: int)
  {
    0 <= k < |s| && s[k].id == id && forall j :: 0 <= j < k ==> s[j].id != id
  }

  /** `findIndex(eq => eq.id === id)`: the first matching position, or -1. */
  function FindIndex(s: seq<Equipment>, id: string): (r: int)
    ensures -1 <= r < |s|
    ensures r == -1 <==> !HasId(s, id)
    ensures r != -1 ==> IsFirstMatch(s, id, r)
  {
    if s == [] then -1
    else if s[0].id == id then 0
    else
      var k := FindIndex(s[1..], id);
      if k == -1 then -1 else k + 1
  }

  /** `find(eq => eq.id === id)`: the first matching record, if any. */
  function Find(s: seq<Equipment>, id: string): (r: Option<Equipment>)
    ensures r.Some? <==> HasId(s, id)
    ensures r.Some? ==> exists k :: IsFirstMatch(s, id, k) && s[k] == r.value
  {
    var k := FindIndex(s, id);
    if k == -1 then None else Some(s[k])
  }

  /** `filter(eq => eq.id !== id)`: every record whose identifier differs. */
  function RemoveId(s: seq<Equipment>, id: string): seq<Equipment>
  {
    Filter(s, (e: Equipment) => e.id != id)
  }

  /** The records whose identifier is `id`. */
  function WithId(s: seq<Equipment>, id: string): seq<Equipment>
  {
    Filter(s, (e: Equipment) => e.id == id)
  }

  /** No two records share an identifier. */
  ghost predicate UniqueIds(s: seq<Equipment>)
  {
    forall i, j :: 0 <= i < j < |s| ==> s[i].id != s[j].id
  }

  // ---------------------------------------------------------------------
  // Change summaries

  /** The summary used when none of the four tracked fields differ. */
  const NoChangeSummary: string := "Actualización de datos"

  /** One `"<label>: <old> → <new>"` fragment. */
  function Fragment(fieldLabel: string, before: string, after: string): string
  {
    fieldLabel + ": " + before + " \U{2192} " + after
  }

  /** The four tracked fields agree. */
  predicate SameTracked(before: Equipment, after: Equipment)
  {
    && before.name == after.name
    && before.location == after.location
    && before.assignedUser == after.assignedUser
    && before.status == after.status
  }

  /** The fragments pushed by the four conditionals, in source order. */
  function ChangeFragments(before: Equipment, after: Equipment): seq<string>
  {
    (if before.name != after.name then [Fragment("Nombre", before.name, after.name)] else [])
    + (if before.location != after.location then [Fragment("Ubicación", before.location, after.location)] else [])
    + (if before.assignedUser != after.assignedUser then [Fragment("Usuario", before.assignedUser, after.assignedUser)] else [])
    + (if before.status != after.status then [Fragment("Estado", StatusName(before.status), StatusName(after.status))] else [])
  }

  /** `generateChangesSummary`: the fragments joined with ", ", or the fixed
      fallback when there are none. Never empty, and the fallback appears
      exactly when the four tracked fields agree. */
  function ChangesSummary(before: Equipment, after: Equipment): (r: string)
    ensures r != []
    ensures r == NoChangeSummary <==> SameTracked(before, after)
  {
    var fragments := ChangeFragments(before, after);
    if |fragments| > 0 then
      var r := Join(fragments, ", ");
      assert fragments[0][0] in {'N', 'U', 'E'};
      assert r[0] == fragments[0][0];
      r
    else
      NoChangeSummary
  }

  /** The tracked fields of a record, in comparison order, as strings. */
  function TrackedValues(e: Equipment): seq<string>
  {
    [e.name, e.location, e.assignedUser, StatusName(e.status)]
  }

  /** The label of each tracked field, in comparison order. */
  const TrackedLabels: seq<string> := ["Nombre", "Ubicación", "Usuario", "Estado"]

  /** Reference definition of the diff: one fragment for every tracked
      field, from position `k` on, whose value differs. */
  function DiffFrom(before: Equipment, after: Equipment, k: nat): seq<string>
    requires k <= 4
    decreases 4 - k
  {
    if k == 4 then []
    else
      var a, b := TrackedValues(before)[k], TrackedValues(after)[k];
      (if a != b then [Fragment(TrackedLabels[k], a, b)] else []) + DiffFrom(before, after, k + 1)
  }

  /** The summary lists one fragment per differing tracked field, in the
      fixed order name, location, assigned user, status. */
  lemma SummaryFollowsFieldOrder(before: Equipment, after: Equipment)
    ensures ChangeFragments(before, after) == DiffFrom(before, after, 0)
    ensures !SameTracked(before, after) ==> ChangesSummary(before, after) == Join(DiffFrom(before, after, 0), ", ")
  {
    StatusesAreClosed(before.status, after.status);
  }

  /** Fields other than the four tracked ones never reach the summary. */
  lemma SummaryIgnoresUntracked(before: Equipment, after: Equipment, before': Equipment, after': Equipment)
    requires TrackedValues(before) == TrackedValues(before') && TrackedValues(after) == TrackedValues(after')
    ensures ChangesSummary(before, after) == ChangesSummary(before', after')
  {
    StatusesAreClosed(before.status, before'.status);
    StatusesAreClosed(after.status, after'.status);
    assert before.name == before'.name && before.location == before'.location;
    assert before.assignedUser == before'.assignedUser && after.assignedUser == after'.assignedUser;
  }

  /** A change of exactly one tracked field is summarised by that field's
      fragment alone. */
  lemma SingleChangeSummary(before: Equipment, after: Equipment, k: nat)
    requires k < 4
    requires forall j :: 0 <= j < 4 && j != k ==> TrackedValues(before)[j] == TrackedValues(after)[j]
    requires TrackedValues(before)[k] != TrackedValues(after)[k]
    ensures ChangesSummary(before, after)
         == Fragment(TrackedLabels[k], TrackedValues(before)[k], TrackedValues(after)[k])
  {
    SummaryFollowsFieldOrder(before, after);
    assert TrackedValues(before)[0] == before.name;
  }

  // ---------------------------------------------------------------------
  // History entries and store transitions

  /** The summary of a creation. */
  function CreationSummary(e: Equipment): string
  {
    "Equipo creado: " + e.name + " (" + TypeName(e.equipmentType) + ")"
  }

  /** The summary of a deletion. */
  function DeletionSummary(name: string): string
  {
    "Equipo eliminado: " + name
  }

  /** The contents of the two persisted collections. */
  datatype StoreState = StoreState(equipment: seq<Equipment>, history: seq<HistoryEntry>)

  /** `addEquipment`: append the record (no uniqueness check) and log a
      creation. */
  function AddStep(st: StoreState, e: Equipment, user: string, entryId: string, timestamp: string): (r: StoreState)
    ensures |r.equipment| == |st.equipment| + 1
    ensures r.equipment[..|st.equipment|] == st.equipment && r.equipment[|st.equipment|] == e
    ensures |r.history| == |st.history| + 1 && r.history[1..] == st.history
    ensures r.history[0].action == Create && r.history[0].equipmentId == e.id
    ensures r.history[0].equipmentName == e.name && r.history[0].changes == CreationSummary(e)
    ensures r.history[0].id == entryId && r.history[0].user == user && r.history[0].timestamp == timestamp
  {
    StoreState(st.equipment + [e],
      [HistoryEntry(entryId, e.id, e.name, Create, CreationSummary(e), user, timestamp)] + st.history)
  }

  /** `updateEquipment`: replace the first record with identifier `id` and
      log the update under the NEW name; nothing at all when `id` is absent. */
  function UpdateStep(st: StoreState, id: string, updated: Equipment, user: string, entryId: string, timestamp: string): (r: StoreState)
    ensures !HasId(st.equipment, id) ==> r == st
    ensures |r.equipment| == |st.equipment|
    ensures forall k :: 0 <= k < |st.equipment| ==>
      r.equipment[k] == if IsFirstMatch(st.equipment, id, k) then updated else st.equipment[k]
    ensures HasId(st.equipment, id) ==>
      && |r.history| == |st.history| + 1 && r.history[1..] == st.history
      && r.history[0].action == Update && r.history[0].equipmentId == id
      && r.history[0].equipmentName == updated.name
      && r.history[0].id == entryId && r.history[0].user == user && r.history[0].timestamp == timestamp
    ensures forall k :: IsFirstMatch(st.equipment, id, k) ==>
      r.history[0].changes == ChangesSummary(st.equipment[k], updated)
  {
    var index := FindIndex(st.equipment, id);
    if index == -1 then st
    else
      StoreState(st.equipment[index := updated],
        [HistoryEntry(entryId, id, updated.name, Update, ChangesSummary(st.equipment[index], updated), user, timestamp)]
        + st.history)
  }

  /** `deleteEquipment`: drop every record with identifier `id` and log the
      deletion under the name of the first of them; nothing at all when `id`
      is absent. */
  function DeleteStep(st: StoreState, id: string, user: string, entryId: string, timestamp: string): (r: StoreState)
    ensures !HasId(st.equipment, id) ==> r == st
    ensures HasId(st.equipment, id) ==>
      && (forall i :: 0 <= i < |r.equipment| ==> r.equipment[i].id != id && r.equipment[i] in st.equipment)
      && (forall i :: 0 <= i < |st.equipment| && st.equipment[i].id != id ==> st.equipment[i] in r.equipment)
      && |r.history| == |st.history| + 1 && r.history[1..] == st.history
      && r.history[0].action == Delete && r.history[0].equipmentId == id
      && r.history[0].id == entryId && r.history[0].user == user && r.history[0].timestamp == timestamp
    ensures forall k :: IsFirstMatch(st.equipment, id, k) ==>
      r.history[0].equipmentName == st.equipment[k].name
      && r.history[0].changes == DeletionSummary(st.equipment[k].name)
  {
    match Find(st.equipment, id)
    case None => st
    case Some(equipment) =>
      StoreState(RemoveId(st.equipment, id),
        [HistoryEntry(entryId, id, equipment.name, Delete, DeletionSummary(equipment.name), user, timestamp)]
        + st.history)
  }

  /** Deleting keeps the other records in their relative order and removes
      exactly the records carrying the identifier. */
  lemma DeleteKeepsOrder(st: StoreState, id: string, user: string, entryId: string, timestamp: string)
    requires HasId(st.equipment, id)
    ensures IsSubsequence(DeleteStep(st, id, user, entryId, timestamp).equipment, st.equipment)
    ensures |DeleteStep(st, id, user, entryId, timestamp).equipment| + |WithId(st.equipment, id)| == |st.equipment|
  {
    FilterIsSubsequence(st.equipment, (e: Equipment) => e.id != id);
    FilterSplitsLength(st.equipment, (e: Equipment) => e.id != id, (e: Equipment) => e.id == id);
  }

  // ---------------------------------------------------------------------
  // Identifier uniqueness (the store does not enforce it; callers do)

  /** Adding a record whose identifier is fresh keeps identifiers unique. */
  lemma AddKeepsIdsUnique(st: StoreState, e: Equipment, user: string, entryId: string, timestamp: string)
    requires UniqueIds(st.equipment) && !HasId(st.equipment, e.id)
    ensures UniqueIds(AddStep(st, e, user, entryId, timestamp).equipment)
  {
    var r := AddStep(st, e, user, entryId, timestamp).equipment;
    forall i, j | 0 <= i < j < |r| ensures r[i].id != r[j].id {
      if j == |st.equipment| {
        assert r[i] == st.equipment[i];
      } else {
        assert r[i] == st.equipment[i] && r[j] == st.equipment[j];
      }
    }
  }

  /** An update that keeps the identifier it was addressed by keeps
      identifiers unique. */
  lemma UpdateKeepsIdsUnique(st: StoreState, id: string, updated: Equipment, user: string, entryId: string, timestamp: string)
    requires UniqueIds(st.equipment) && updated.id == id
    ensures UniqueIds(UpdateStep(st, id, updated, user, entryId, timestamp).equipment)
  {
    var r := UpdateStep(st, id, updated, user, entryId, timestamp).equipment;
    forall i, j | 0 <= i < j < |r| ensures r[i].id != r[j].id {
      assert r[i].id == st.equipment[i].id && r[j].id == st.equipment[j].id;
    }
  }

  /** Filtering a list with unique identifiers keeps them unique. */
  lemma {:induction false} RemoveIdKeepsIdsUnique(s: seq<Equipment>, id: string)
    requires UniqueIds(s)
    ensures UniqueIds(RemoveId(s, id))
  {
    if s != [] {
      RemoveIdKeepsIdsUnique(s[1..], id);
      var rest := RemoveId(s[1..], id);
      assert UniqueIds(s[1..]) by {
        forall i, j | 0 <= i < j < |s[1..]| ensures s[1..][i].id != s[1..][j].id {
          assert s[1..][i] == s[i + 1] && s[1..][j] == s[j + 1];
        }
      }
      forall k | 0 <= k < |rest| ensures rest[k].id != s[0].id {
        var m :| 0 <= m < |s[1..]| && s[1..][m] == rest[k];
        assert s[m + 1] == rest[k];
      }
    }
  }

  /** Deleting keeps identifiers unique. */
  lemma DeleteKeepsIdsUnique(st: StoreState, id: string, user: string, entryId: string, timestamp: string)
    requires UniqueIds(st.equipment)
    ensures UniqueIds(DeleteStep(st, id, user, entryId, timestamp).equipment)
  {
    RemoveIdKeepsIdsUnique(st.equipment, id);
  }

  // ---------------------------------------------------------------------
  // Runs of operations

  /** One call into the store. */
  datatype Op =
    | AddOp(equipment: Equipment)
    | UpdateOp(targetId: string, updated: Equipment)
    | DeleteOp(targetId: string)

  /** A call with its acting user and the entry identifier and timestamp
      that the platform would generate for its history entry. */
  datatype Request = Request(op: Op, user: string, entryId: string, timestamp: string)

  function Apply(st: StoreState, rq: Request): StoreState
  {
    match rq.op
    case AddOp(e) => AddStep(st, e, rq.user, rq.entryId, rq.timestamp)
    case UpdateOp(id, u) => UpdateStep(st, id, u, rq.user, rq.entryId, rq.timestamp)
    case DeleteOp(id) => DeleteStep(st, id, rq.user, rq.entryId, rq.timestamp)
  }

  /** The request changes the store: adds always do, updates and deletes
      only when the identifier is present. */
  predicate Hits(st: StoreState, rq: Request)
  {
    match rq.op
    case AddOp(_) => true
    case UpdateOp(id, _) => FindIndex(st.equipment, id) != -1
    case DeleteOp(id) => FindIndex(st.equipment, id) != -1
  }

  /** The requests applied in order. */
  function Run(st: StoreState, rqs: seq<Request>): StoreState
    decreases |rqs|
  {
    if rqs == [] then st else Run(Apply(st, rqs[0]), rqs[1..])
  }

  /** How many of the requests change the store when applied in order. */
  function HitCount(st: StoreState, rqs: seq<Request>): nat
    decreases |rqs|
  {
    if rqs == [] then 0 else (if Hits(st, rqs[0]) then 1 else 0) + HitCount(Apply(st, rqs[0]), rqs[1..])
  }

  /** One request adds one log entry at the front when it hits and leaves
      the store as it was when it misses. */
  lemma ApplyPrependsOneEntry(st: StoreState, rq: Request)
    ensures Hits(st, rq) ==> |Apply(st, rq).history| == |st.history| + 1 && Apply(st, rq).history[1..] == st.history
    ensures !Hits(st, rq) ==> Apply(st, rq) == st
  {
  }

  /** The log is append-only: after any run, the old log is still there,
      untouched and in order, behind exactly one new entry per request that
      hit. */
  lemma {:induction false} RunIsAppendOnly(st: StoreState, rqs: seq<Request>)
    ensures |Run(st, rqs).history| == |st.history| + HitCount(st, rqs)
    ensures Run(st, rqs).history[HitCount(st, rqs)..] == st.history
    decreases |rqs|
  {
    if rqs != [] {
      var next := Apply(st, rqs[0]);
      ApplyPrependsOneEntry(st, rqs[0]);
      RunIsAppendOnly(next, rqs[1..]);
      var n := HitCount(next, rqs[1..]);
      if Hits(st, rqs[0]) {
        assert Run(st, rqs).history[n + 1..] == next.history[1..];
      }
    }
  }

  /** The records carried by a run of additions. */
  function AddedRecords(rqs: seq<Request>): seq<Equipment>
    requires forall i :: 0 <= i < |rqs| ==> rqs[i].op.AddOp?
  {
    if rqs == [] then [] else [rqs[0].op.equipment] + AddedRecords(rqs[1..])
  }

  /** A run of additions with distinct identifiers, none already stored,
      appends exactly those records, in order, one per identifier. */
  lemma {:induction false} AddsWithFreshIdsStayUnique(st: StoreState, rqs: seq<Request>)
    requires forall i :: 0 <= i < |rqs| ==> rqs[i].op.AddOp?
    requires UniqueIds(st.equipment + AddedRecords(rqs))
    ensures Run(st, rqs).equipment == st.equipment + AddedRecords(rqs)
    ensures UniqueIds(Run(st, rqs).equipment)
    decreases |rqs|
  {
    if rqs != [] {
      var rq := rqs[0];
      var next := Apply(st, rq);
      assert next.equipment == st.equipment + [rq.op.equipment];
      assert st.equipment + AddedRecords(rqs) == next.equipment + AddedRecords(rqs[1..]);
      AddsWithFreshIdsStayUnique(next, rqs[1..]);
    }
  }

  /** The scenario record: desktop "e1" named "PC-01", active. */
  predicate IsScenarioRecord(e1: Equipment)
  {
    e1.id == "e1" && e1.name == "PC-01" && e1.equipmentType == Desktop && e1.status == Active
  }

  /** Adding "PC-01" to an empty store as "admin" lists it and logs its
      creation. */
  lemma ScenarioAdd(e1: Equipment)
    requires IsScenarioRecord(e1)
    ensures var st1 := AddStep(StoreState([], []), e1, "admin", "h1", "t1");
      && st1.equipment == [e1] && |st1.history| == 1
      && st1.history[0].action == Create && st1.history[0].equipmentName == "PC-01" && st1.history[0].user == "admin"
      && st1.history[0].changes == "Equipo creado: PC-01 (desktop)"
  {
    assert CreationSummary(e1) == "Equipo creado: PC-01 (desktop)";
  }

  /** Moving it to maintenance keeps one record and logs the status change
      alone. */
  lemma ScenarioUpdate(e1: Equipment)
    requires IsScenarioRecord(e1)
    ensures var st2 := UpdateStep(AddStep(StoreState([], []), e1, "admin", "h1", "t1"), "e1", e1.(status := Maintenance), "admin", "h2", "t2");
      && st2.equipment == [e1.(status := Maintenance)] && |st2.history| == 2
      && st2.history[0].changes == "Estado: active \U{2192} maintenance"
  {
    var st1 := AddStep(StoreState([], []), e1, "admin", "h1", "t1");
    assert IsFirstMatch(st1.equipment, "e1", 0);
    SingleChangeSummary(e1, e1.(status := Maintenance), 3);
    assert Fragment("Estado", "active", "maintenance") == "Estado: active \U{2192} maintenance";
  }

  /** Deleting it empties the list and leaves three log entries, the
      deletion first. */
  lemma ScenarioDelete(e1: Equipment)
    requires IsScenarioRecord(e1)
    ensures var st1 := AddStep(StoreState([], []), e1, "admin", "h1", "t1");
      var st2 := UpdateStep(st1, "e1", e1.(status := Maintenance), "admin", "h2", "t2");
      var st3 := DeleteStep(st2, "e1", "admin", "h3", "t3");
      && st3.equipment == [] && |st3.history| == 3
      && st3.history[0].action == Delete && st3.history[1] == st2.history[0] && st3.history[2] == st1.history[0]
  {
    var st1 := AddStep(StoreState([], []), e1, "admin", "h1", "t1");
    assert IsFirstMatch(st1.equipment, "e1", 0);
    var e2 := e1.(status := Maintenance);
    var st2 := UpdateStep(st1, "e1", e2, "admin", "h2", "t2");
    assert st2.equipment == [e2];
    assert IsFirstMatch(st2.equipment, "e1", 0);
    DeleteKeepsOrder(st2, "e1", "admin", "h3", "t3");
    assert WithId(st2.equipment, "e1") == [e2];
  }

  // ---------------------------------------------------------------------
  // The store

  /** The persisted equipment list and change log. */
  class EquipmentStore {
    var equipment: seq<Equipment>
    var history: seq<HistoryEntry>

    function State(): StoreState
      reads this
    {
      StoreState(equipment, history)
    }

    /** A store whose two keys are absent reads as empty. */
    constructor ()
      ensures equipment == [] && history == []
    {
      equipment := [];
      history := [];
    }

    /** `getEquipment`. */
    method GetEquipment() returns (r: seq<Equipment>)
      ensures r == equipment
    {
      r := equipment;
    }

    /** `saveEquipment`: overwrite the whole list; the log is untouched. */
    method SaveEquipment(s: seq<Equipment>)
      modifies this`equipment
      ensures equipment == s
    {
      equipment := s;
    }

    /** `getHistory`. */
    method GetHistory() returns (r: seq<HistoryEntry>)
      ensures r == history
    {
      r := history;
    }

    /** `addHistoryEntry`: `unshift` the entry; the records are untouched. */
    method AddHistoryEntry(entry: HistoryEntry)
      modifies this`history
      ensures history == [entry] + old(history)
    {
      var log := GetHistory();
      log := [entry] + log;
      history := log;
    }

    /** `addEquipment`. */
    method AddEquipment(e: Equipment, user: string, entryId: string, timestamp: string)
      modifies this
      ensures State() == AddStep(old(State()), e, user, entryId, timestamp)
    {
      var all := GetEquipment();
      all := all + [e];
      SaveEquipment(all);
      AddHistoryEntry(HistoryEntry(entryId, e.id, e.name, Create, CreationSummary(e), user, timestamp));
    }

    /** `updateEquipment`. */
    method UpdateEquipment(id: string, updated: Equipment, user: string, entryId: string, timestamp: string)
      modifies this
      ensures State() == UpdateStep(old(State()), id, updated, user, entryId, timestamp)
    {
      var all := GetEquipment();
      var index := FindIndex(all, id);
      if index != -1 {
        var oldEquipment := all[index];
        all := all[index := updated];
        SaveEquipment(all);
        var changes := ChangesSummary(oldEquipment, updated);
        AddHistoryEntry(HistoryEntry(entryId, id, updated.name, Update, changes, user, timestamp));
      }
    }

    /** `deleteEquipment`. */
    method DeleteEquipment(id: string, user: string, entryId: string, timestamp: string)
      modifies this
      ensures State() == DeleteStep(old(State()), id, user, entryId, timestamp)
    {
      var all := GetEquipment();
      var found := Find(all, id);
      if found.Some? {
        var filtered := RemoveId(all, id);
        SaveEquipment(filtered);
        var name := found.value.name;
        AddHistoryEntry(HistoryEntry(entryId, id, name, Delete, DeletionSummary(name), user, timestamp));
      }
    }
  }
}
