/**
 * The mock REST store of mission records, kept under one persisted key
 * ("solar_missions") as a whole serialized list.
 *
 * The persisted key is `storage` (None while the key is absent); serializing
 * and parsing are an exact round trip, so the stored value is the list itself.
 * Every `setItem` on the key is also appended to `writes`, so that "this call
 * writes nothing" is a statement about the store. The clock (`new Date()`) and
 * the generated id (`mission-${Date.now()}`) are parameters.
 */
module MissionService {
  import opened Wrappers
  import opened Seqs
  import opened Text

  datatype Status = Planned | Active | Completed | Aborted

  /** A stored mission record; timestamps are ISO date strings. */
  datatype Mission = Mission(
    id: string,
    name: string,
    destination: string,
    status: Status,
    launchDate: string,
    crew: int,
    objective: string,
    notes: string,
    createdAt: string,
    updatedAt: string)

  /** What a caller passes to createMission: a Mission without id and timestamps. */
  datatype MissionData = MissionData(
    name: string,
    destination: string,
    status: Status,
    launchDate: string,
    crew: int,
    objective: string,
    notes: string)

  /** A `Partial<Mission>`: each field is either supplied (Some) or absent (None). */
  datatype MissionPatch = MissionPatch(
    id: Option<string>,
    name: Option<string>,
    destination: Option<string>,
    status: Option<Status>,
    launchDate: Option<string>,
    crew: Option<int>,
    objective: Option<string>,
    notes: Option<string>,
    createdAt: Option<string>,
    updatedAt: Option<string>)

  const NoChanges := MissionPatch(None, None, None, None, None, None, None, None, None, None)

  /** The two records seeded on first access, both stamped with `now`. */
  function DefaultMissions(now: string): (r: seq<Mission>)
    ensures |r| == 2 && r[0].id != r[1].id
    ensures forall j :: 0 <= j < |r| ==> r[j].createdAt == now && r[j].updatedAt == now
  {
    [ Mission("mission-001", "ARTEMIS-X", "Mars", Planned, "2025-06-15", 4,
              "Establish first human colony foothold", "Awaiting final equipment tests", now, now),
      Mission("mission-002", "EUROPA PROBE", "Jupiter", Active, "2024-03-22", 0,
              "Subsurface ocean exploration", "Currently in transit, all systems nominal", now, now) ]
  }

  /** The list getStoredMissions returns for a given state of the key. */
  function Snapshot(stored: Option<seq<Mission>>, now: string): seq<Mission> {
    stored.GetOr(DefaultMissions(now))
  }

  /** The writes getStoredMissions performs: one seed write when the key is absent. */
  function SeedWrites(stored: Option<seq<Mission>>, now: string): seq<seq<Mission>> {
    if stored.None? then [DefaultMissions(now)] else []
  }

  /** The caller-supplied part of a record: everything except id and timestamps. */
  function DataOf(m: Mission): MissionData {
    MissionData(m.name, m.destination, m.status, m.launchDate, m.crew, m.objective, m.notes)
  }

  /** The record createMission builds: the caller's fields, the new id, both timestamps `now`. */
  function NewMission(data: MissionData, id: string, now: string): (r: Mission)
    ensures DataOf(r) == data
    ensures r.id == id && r.createdAt == now && r.updatedAt == now
  {
    Mission(id, data.name, data.destination, data.status, data.launchDate, data.crew,
            data.objective, data.notes, now, now)
  }

  /** `{...m, ...patch, updatedAt: now}`: supplied fields win, then updatedAt is forced. */
  function Merge(m: Mission, patch: MissionPatch, now: string): (r: Mission)
    ensures r.updatedAt == now
    ensures patch == NoChanges ==> r == m.(updatedAt := now)
    ensures patch.id.None? && patch.createdAt.None? ==> r.id == m.id && r.createdAt == m.createdAt
  {
    Mission(
      patch.id.GetOr(m.id),
      patch.name.GetOr(m.name),
      patch.destination.GetOr(m.destination),
      patch.status.GetOr(m.status),
      patch.launchDate.GetOr(m.launchDate),
      patch.crew.GetOr(m.crew),
      patch.objective.GetOr(m.objective),
      patch.notes.GetOr(m.notes),
      patch.createdAt.GetOr(m.createdAt),
      now)
  }

  function HasId(id: string): Mission -> bool {
    (m: Mission) => m.id == id
  }

  function LacksId(id: string): Mission -> bool {
    (m: Mission) => m.id != id
  }

  /** `missions.find((m) => m.id === id) || null`. */
  function FindMission(ms: seq<Mission>, id: string): (r: Option<Mission>)
    ensures r.None? <==> forall j :: 0 <= j < |ms| ==> ms[j].id != id
    ensures r.Some? ==> exists i :: IsFirst(ms, HasId(id), i) && r.value == ms[i]
  {
    Find(ms, HasId(id))
  }

  /** The list updateMission writes back, or None when no record has the id. */
  function UpdateList(ms: seq<Mission>, id: string, patch: MissionPatch, now: string): (r: Option<seq<Mission>>)
    ensures r.None? <==> forall j :: 0 <= j < |ms| ==> ms[j].id != id
    ensures r.Some? ==> |r.value| == |ms|
    ensures r.Some? ==> exists i :: IsFirst(ms, HasId(id), i)
                                    && r.value[i] == Merge(ms[i], patch, now)
                                    && forall j :: 0 <= j < |ms| && j != i ==> r.value[j] == ms[j]
  {
    match FindFirst(ms, HasId(id))
    case None => None
    case Some(i) => Some(ms[i := Merge(ms[i], patch, now)])
  }

  /** `missions.filter((m) => m.id !== id)`: the list deleteMission writes back. */
  function RemoveMission(ms: seq<Mission>, id: string): (r: seq<Mission>)
    ensures forall i :: 0 <= i < |r| ==> r[i].id != id && r[i] in ms
    ensures forall j :: 0 <= j < |ms| && ms[j].id != id ==> ms[j] in r
    ensures IsSubsequence(r, ms)
    ensures forall m :: multiset(r)[m] == if m.id != id then multiset(ms)[m] else 0
    ensures |r| == |ms| <==> forall j :: 0 <= j < |ms| ==> ms[j].id != id
  {
    FilterIsSubsequence(ms, LacksId(id));
    FilterMultiplicity(ms, LacksId(id));
    FilterLengthUnchanged(ms, LacksId(id));
    Filter(ms, LacksId(id))
  }

  /** The search predicate: the lowered query occurs in the lowered name, destination or objective. */
  predicate MatchesQuery(m: Mission, query: string)
    ensures query == "" ==> MatchesQuery(m, query)
    ensures MatchesQuery(m, query) <==>
              || (exists i :: OccursAt(Lower(m.name), Lower(query), i))
              || (exists i :: OccursAt(Lower(m.destination), Lower(query), i))
              || (exists i :: OccursAt(Lower(m.objective), Lower(query), i))
  {
    var q := Lower(query);
    IncludesSpec(Lower(m.name), q);
    IncludesSpec(Lower(m.destination), q);
    IncludesSpec(Lower(m.objective), q);
    Includes(Lower(m.name), q) || Includes(Lower(m.destination), q) || Includes(Lower(m.objective), q)
  }

  function Matching(query: string): Mission -> bool {
    (m: Mission) => MatchesQuery(m, query)
  }

  /** The list searchMissions returns. */
  function SearchList(ms: seq<Mission>, query: string): (r: seq<Mission>)
    ensures forall i :: 0 <= i < |r| ==> r[i] in ms && MatchesQuery(r[i], query)
    ensures forall j :: 0 <= j < |ms| && MatchesQuery(ms[j], query) ==> ms[j] in r
    ensures IsSubsequence(r, ms)
    ensures forall m :: multiset(r)[m] == if MatchesQuery(m, query) then multiset(ms)[m] else 0
  {
    FilterIsSubsequence(ms, Matching(query));
    FilterMultiplicity(ms, Matching(query));
    Filter(ms, Matching(query))
  }

  /** The seed holds ARTEMIS-X under mission-001 and EUROPA PROBE under mission-002. */
  lemma SeedContents(now: string)
    ensures var d := DefaultMissions(now);
            && d[0].id == "mission-001" && d[0].name == "ARTEMIS-X" && d[0].destination == "Mars"
            && d[1].id == "mission-002" && d[1].name == "EUROPA PROBE" && d[1].destination == "Jupiter"
  {
  }

  /** Supplied fields override the old ones, absent fields keep them, and updatedAt is `now` regardless. */
  lemma MergeFields(m: Mission, patch: MissionPatch, now: string)
    ensures var r := Merge(m, patch, now);
            && r.updatedAt == now
            && (patch.id.Some? ==> r.id == patch.id.value) && (patch.id.None? ==> r.id == m.id)
            && (patch.name.Some? ==> r.name == patch.name.value) && (patch.name.None? ==> r.name == m.name)
            && (patch.destination.Some? ==> r.destination == patch.destination.value)
            && (patch.destination.None? ==> r.destination == m.destination)
            && (patch.status.Some? ==> r.status == patch.status.value) && (patch.status.None? ==> r.status == m.status)
            && (patch.launchDate.Some? ==> r.launchDate == patch.launchDate.value)
            && (patch.launchDate.None? ==> r.launchDate == m.launchDate)
            && (patch.crew.Some? ==> r.crew == patch.crew.value) && (patch.crew.None? ==> r.crew == m.crew)
            && (patch.objective.Some? ==> r.objective == patch.objective.value)
            && (patch.objective.None? ==> r.objective == m.objective)
            && (patch.notes.Some? ==> r.notes == patch.notes.value) && (patch.notes.None? ==> r.notes == m.notes)
            && (patch.createdAt.Some? ==> r.createdAt == patch.createdAt.value)
            && (patch.createdAt.None? ==> r.createdAt == m.createdAt)
  {
  }

  /** Patching only the status leaves the record as it was except status and updatedAt. */
  lemma MergeStatusOnly(m: Mission, status: Status, now: string)
    ensures Merge(m, NoChanges.(status := Some(status)), now) == m.(status := status, updatedAt := now)
  {
  }

  /** After an append, find returns the new record unless an earlier record already had its id. */
  lemma {:induction false} FindAfterAppend(ms: seq<Mission>, m: Mission)
    ensures FindMission(ms + [m], m.id) == (if exists j :: 0 <= j < |ms| && ms[j].id == m.id
                                            then FindMission(ms, m.id) else Some(m))
  {
    var p := HasId(m.id);
    var s := ms + [m];
    assert forall j :: 0 <= j < |ms| ==> s[j] == ms[j];
    assert p(s[|ms|]);
    var i := FindFirst(s, p).value;
    assert FindMission(s, m.id) == Some(s[i]);
    if exists j :: 0 <= j < |ms| && ms[j].id == m.id {
      var k := FindFirst(ms, p).value;
      assert IsFirst(s, p, k);
      FirstIsUnique(s, p, i, k);
      assert FindMission(ms, m.id) == Some(ms[k]);
    } else {
      assert IsFirst(s, p, |ms|);
      FirstIsUnique(s, p, i, |ms|);
    }
  }

  /** After an update that does not rename the record, reading the id returns the merged record. */
  lemma {:induction false} FindAfterUpdate(ms: seq<Mission>, id: string, patch: MissionPatch, now: string, i: int)
    requires IsFirst(ms, HasId(id), i)
    requires patch.id.None? || patch.id == Some(id)
    ensures UpdateList(ms, id, patch, now).Some?
    ensures FindMission(UpdateList(ms, id, patch, now).value, id) == Some(Merge(ms[i], patch, now))
  {
    var u := UpdateList(ms, id, patch, now).value;
    var k :| IsFirst(ms, HasId(id), k) && u[k] == Merge(ms[k], patch, now)
             && forall j :: 0 <= j < |ms| && j != k ==> u[j] == ms[j];
    FirstIsUnique(ms, HasId(id), i, k);
    assert IsFirst(u, HasId(id), i);
    var r := FindMission(u, id);
    var i' :| IsFirst(u, HasId(id), i') && r.value == u[i'];
    FirstIsUnique(u, HasId(id), i, i');
  }

  /** After a delete nothing with the id is left, so a second delete changes nothing. */
  lemma DeleteTwice(ms: seq<Mission>, id: string)
    ensures FindMission(RemoveMission(ms, id), id).None?
    ensures RemoveMission(RemoveMission(ms, id), id) == RemoveMission(ms, id)
  {
    FilterIdempotent(ms, LacksId(id));
  }

  /** An empty query matches every record, so the search returns the whole list. */
  lemma SearchEmptyQuery(ms: seq<Mission>)
    ensures SearchList(ms, "") == ms
  {
    FilterKeepsAll(ms, Matching(""));
  }

  /** The search ignores the case of the query. */
  lemma SearchIgnoresQueryCase(ms: seq<Mission>, query: string)
    ensures SearchList(ms, query) == SearchList(ms, Lower(query))
  {
    LowerIdempotent(query);
    FilterAgrees(ms, Matching(query), Matching(Lower(query)));
  }

  /** Upper-casing the query or a record's searched fields does not change whether it matches. */
  lemma MatchIgnoresUpperCase(m: Mission, query: string)
    ensures MatchesQuery(m, Upper(query)) <==> MatchesQuery(m, query)
    ensures var shouted := m.(name := Upper(m.name), destination := Upper(m.destination),
                              objective := Upper(m.objective));
            MatchesQuery(shouted, query) <==> MatchesQuery(m, query)
  {
    LowerOfUpper(query);
    LowerOfUpper(m.name);
    LowerOfUpper(m.destination);
    LowerOfUpper(m.objective);
  }

  /** The seeded EUROPA PROBE record is found by "europa" and by "PROBE". */
  lemma SearchEuropaProbe(now: string)
    ensures DefaultMissions(now)[1] in SearchList(DefaultMissions(now), "europa")
    ensures DefaultMissions(now)[1] in SearchList(DefaultMissions(now), "PROBE")
  {
    var m := DefaultMissions(now)[1];
    assert Lower(m.name) == "europa probe";
    assert Lower("europa") == "europa";
    assert Lower("PROBE") == "probe";
    assert OccursAt("europa probe", "europa", 0);
    IncludesSpec("europa probe", "europa");
    assert OccursAt("europa probe", "probe", 7);
    IncludesSpec("europa probe", "probe");
  }

  /** The persisted key and the history of what was written to it. */
  class MissionStore {
    var storage: Option<seq<Mission>>
    var writes: seq<seq<Mission>>

    /** Whatever was written last is what the key holds. */
    ghost predicate Valid()
      reads this
    {
      writes != [] ==> storage == Some(writes[|writes| - 1])
    }

    /** A store over a key found in the given state (absent, or holding a list). */
    constructor (stored: Option<seq<Mission>>)
      ensures Valid() && storage == stored && writes == []
    {
      storage := stored;
      writes := [];
    }

    /** saveMissions: overwrite the key with the whole list. */
    method SaveMissions(ms: seq<Mission>)
      modifies this
      ensures Valid()
      ensures storage == Some(ms) && writes == old(writes) + [ms]
    {
      storage := Some(ms);
      writes := writes + [ms];
    }

    /** getStoredMissions: return the stored list, seeding and persisting the defaults on first access. */
    method GetStoredMissions(now: string) returns (ms: seq<Mission>)
      requires Valid()
      modifies this
      ensures Valid()
      ensures ms == Snapshot(old(storage), now)
      ensures old(storage).Some? ==> ms == old(storage).value && storage == old(storage)
      ensures old(storage).None? ==> ms == DefaultMissions(now)
      ensures storage == Some(ms)
      ensures writes == old(writes) + SeedWrites(old(storage), now)
    {
      if storage.Some? {
        ms := storage.value;
        return;
      }
      ms := DefaultMissions(now);
      SaveMissions(ms);
    }

    /** createMission: append a new record and persist; the record is returned. */
    method CreateMission(data: MissionData, newId: string, now: string) returns (m: Mission)
      requires Valid()
      modifies this
      ensures Valid()
      ensures m == NewMission(data, newId, now)
      ensures storage == Some(Snapshot(old(storage), now) + [m])
      ensures writes == old(writes) + SeedWrites(old(storage), now) + [storage.value]
    {
      var missions := GetStoredMissions(now);
      m := NewMission(data, newId, now);
      missions := missions + [m];
      SaveMissions(missions);
    }

    /** getAllMissions. */
    method GetAllMissions(now: string) returns (ms: seq<Mission>)
      requires Valid()
      modifies this
      ensures Valid()
      ensures ms == Snapshot(old(storage), now) && storage == Some(ms)
      ensures writes == old(writes) + SeedWrites(old(storage), now)
    {
      ms := GetStoredMissions(now);
    }

    /** getMissionById: the first record with the id, or None for `null`. */
    method GetMissionById(id: string, now: string) returns (r: Option<Mission>)
      requires Valid()
      modifies this
      ensures Valid()
      ensures r == FindMission(Snapshot(old(storage), now), id)
      ensures storage == Some(Snapshot(old(storage), now))
      ensures writes == old(writes) + SeedWrites(old(storage), now)
    {
      var missions := GetStoredMissions(now);
      r := FindMission(missions, id);
    }

    /** updateMission: merge `updates` into the first record with the id and persist. */
    method UpdateMission(id: string, updates: MissionPatch, now: string) returns (r: Option<Mission>)
      requires Valid()
      modifies this
      ensures Valid()
      ensures var snap := Snapshot(old(storage), now);
              match FindFirst(snap, HasId(id))
              case None =>
                && r.None?
                && storage == Some(snap)
                && writes == old(writes) + SeedWrites(old(storage), now)
              case Some(i) =>
                && storage == UpdateList(snap, id, updates, now)
                && r == Some(Merge(snap[i], updates, now))
                && r.value == storage.value[i]
                && writes == old(writes) + SeedWrites(old(storage), now) + [storage.value]
    {
      var missions := GetStoredMissions(now);
      var index := FindFirst(missions, HasId(id));
      if index.None? {
        return None;
      }
      var i := index.value;
      missions := missions[i := Merge(missions[i], updates, now)];
      SaveMissions(missions);
      r := Some(missions[i]);
    }

    /** deleteMission: drop every record with the id; persist and report true only if one was dropped. */
    method DeleteMission(id: string, now: string) returns (removed: bool)
      requires Valid()
      modifies this
      ensures Valid()
      ensures var snap := Snapshot(old(storage), now);
              && (removed <==> exists j :: 0 <= j < |snap| && snap[j].id == id)
              && storage == Some(RemoveMission(snap, id))
              && (!removed ==> storage == Some(snap))
              && writes == old(writes) + SeedWrites(old(storage), now)
                            + (if removed then [RemoveMission(snap, id)] else [])
    {
      var missions := GetStoredMissions(now);
      var filtered := RemoveMission(missions, id);
      if |filtered| == |missions| {
        FilterKeepsAll(missions, LacksId(id));
        return false;
      }
      SaveMissions(filtered);
      removed := true;
    }

    /** searchMissions: the records matching the query, in stored order. */
    method SearchMissions(query: string, now: string) returns (found: seq<Mission>)
      requires Valid()
      modifies this
      ensures Valid()
      ensures found == SearchList(Snapshot(old(storage), now), query)
      ensures storage == Some(Snapshot(old(storage), now))
      ensures writes == old(writes) + SeedWrites(old(storage), now)
    {
      var missions := GetStoredMissions(now);
      found := SearchList(missions, query);
    }
  }

  /** Seeding happens once: a second read returns the same records and writes nothing more. */
  method ReadTwice(store: MissionStore, now: string, later: string) returns (first: seq<Mission>, second: seq<Mission>)
    requires store.Valid()
    modifies store
    ensures first == second == Snapshot(old(store.storage), now)
    ensures store.writes == old(store.writes) + SeedWrites(old(store.storage), now)
    ensures store.writes != [] ==> store.writes[|store.writes| - 1] == first
  {
    first := store.GetAllMissions(now);
    second := store.GetAllMissions(later);
  }

  /** A second delete of the same id reports false and writes nothing. */
  method DeleteSameIdTwice(store: MissionStore, id: string, now: string) returns (first: bool, second: bool)
    requires store.Valid()
    modifies store
    ensures !second
    ensures var snap := Snapshot(old(store.storage), now);
            && (first <==> exists j :: 0 <= j < |snap| && snap[j].id == id)
            && store.storage == Some(RemoveMission(snap, id))
            && store.writes == old(store.writes) + SeedWrites(old(store.storage), now)
                               + (if first then [RemoveMission(snap, id)] else [])
            && (store.writes != [] ==> store.writes[|store.writes| - 1] == RemoveMission(snap, id))
  {
    first := store.DeleteMission(id, now);
    ghost var between := store.writes;
    DeleteTwice(Snapshot(old(store.storage), now), id);
    second := store.DeleteMission(id, now);
    assert store.writes == between;
  }

  /** A created record can be read back by its id when no earlier record already had that id. */
  method CreateThenRead(store: MissionStore, data: MissionData, newId: string, now: string)
    returns (created: Mission, read: Option<Mission>)
    requires store.Valid()
    requires forall m :: m in Snapshot(store.storage, now) ==> m.id != newId
    modifies store
    ensures read == Some(created)
    ensures created.id == newId && created.createdAt == created.updatedAt == now
  {
    ghost var snap := Snapshot(store.storage, now);
    created := store.CreateMission(data, newId, now);
    FindAfterAppend(snap, created);
    read := store.GetMissionById(newId, now);
  }
}
