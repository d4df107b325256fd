# cosmic-console: mission store and planet data, modelled in Dafny

This project models the data-access core of cosmic-console. The app shows facts about the planets and keeps a user-managed list of space "missions" in the browser's local storage. The model covers three parts.

- **Mission store** (`src/services/missionService.ts`). A mock REST store keeps the whole mission list under one persisted key, `solar_missions`. It is modelled as the class `MissionService.MissionStore`. Its field `storage: Option<seq<Mission>>` is the key; `None` means the key is absent. A second field, `writes`, logs every value written to the key, so the contracts can state exactly when a call writes nothing. On first access the store seeds two records (ARTEMIS-X and EUROPA PROBE) and writes them. Create appends a record, update merges a partial record into the first record with the id, and delete filters the list. Each of them writes the whole list back. Read-one is a `find`, and search is a case-insensitive substring filter. The list logic is written as pure functions over the list that was read (`FindMission`, `UpdateList`, `RemoveMission`, `SearchList`). Each method's postcondition ties the new storage, the new write log and the result to these functions.
- **Planet enrichment merge** (`getEnrichedPlanetData` in `src/services/planetApi.ts`). `PlanetApi.EnrichedPlanetData` maps over the local catalog. Each entry is matched to the first remote body whose English name equals the entry's name, ignoring case. A matched entry gets an `apiData` sub-record; an unmatched entry is returned unchanged. The result of the remote fetch is an input: `None` when the request failed or the response had no `bodies` list, `Some(bodies)` otherwise.
- **Planet list filter** (`filteredPlanets` in `src/pages/Planets.tsx`). `PlanetsPage.FilteredPlanets` keeps a planet when its type passes the selected filter and its lowered name contains the lowered search term.

Supporting modules: `Wrappers` (Option), `Seqs` (`filter`, `find` and `findIndex` as functions, with their laws) and `Text` (`toLowerCase` as per-character ASCII lowering, and `includes`).

The model states what the code does, including where it falls short of the intent that ids are unique and immutable and that `updatedAt` only moves forward:
- Ids are `mission-${Date.now()}` (src/services/missionService.ts:68). Two creates in the same millisecond get the same id, so ids are not unique. The new id is an input, and no lemma assumes uniqueness. `FindAfterAppend` states what a read returns when the id was already taken.
- `updates` is spread after the old record (src/services/missionService.ts:97-101). A supplied `id` or `createdAt` therefore replaces the old value; neither is immutable.
- `updatedAt` becomes the current time. It is not guaranteed to be later than the old value.

## Model

| member | source | states |
|---|---|---|
| `MissionService.MissionStore.constructor` | src/services/missionService.ts:17-20 | The store starts over the key in its given state (absent or holding a list), with nothing written yet. |
| `MissionService.MissionStore.SaveMissions` | src/services/missionService.ts:55-57 | The key then holds exactly the given list, and that list is appended to the write log. |
| `MissionService.MissionStore.GetStoredMissions` | src/services/missionService.ts:19-53 | If the key holds a list, that list is returned and nothing is written. If the key is absent, the two default records are returned and written exactly once. |
| `MissionService.DefaultMissions` | src/services/missionService.ts:25-50 | The seed is exactly two records with distinct ids, and every timestamp in it is the current time. |
| `MissionService.SeedContents` | src/services/missionService.ts:26-49 | The seed holds ARTEMIS-X (Mars) under mission-001 and EUROPA PROBE (Jupiter) under mission-002. |
| `MissionService.ReadTwice` | src/services/missionService.ts:19-53 | Seeding happens once: two reads return the same list, and at most the one seed write happens. When anything has been written, the last write is the list that was read. |
| `MissionService.NewMission` | src/services/missionService.ts:66-71 | The new record carries exactly the caller's fields (its caller-supplied part is the input again), the given id, and createdAt = updatedAt = now. |
| `MissionService.MissionStore.CreateMission` | src/services/missionService.ts:63-75 | The stored list becomes the old list plus one record appended at the end. That record has the caller's fields, the given id, and createdAt = updatedAt = now. It is returned, and the grown list is written once. |
| `MissionService.FindAfterAppend` | src/services/missionService.ts:63-88 | After an append, finding the new record's id returns the new record, unless an earlier record already had that id. In that case it returns the earlier record. |
| `MissionService.CreateThenRead` | src/services/missionService.ts:63-88 | When no record has the new id, reading it back after create returns the created record. |
| `MissionService.MissionStore.GetAllMissions` | src/services/missionService.ts:78-81 | Returns the stored list (seeded on first access) and writes nothing else. |
| `Seqs.Find` | src/services/missionService.ts:87 | `find` returns None exactly when no element passes. Otherwise it returns the element at the first passing position. |
| `MissionService.FindMission` | src/services/missionService.ts:87 | Returns None exactly when no record has the id. Otherwise it returns the record at the first position with that id. |
| `MissionService.MissionStore.GetMissionById` | src/services/missionService.ts:84-88 | Returns the first stored record with the id, or None. It writes nothing apart from the first-access seed. |
| `Seqs.FindFirst` | src/services/missionService.ts:94 | `findIndex` returns None exactly when no element passes. Otherwise it returns the first passing position. |
| `Seqs.FirstIsUnique` | src/services/missionService.ts:94 | Only one position can be the first match. |
| `MissionService.UpdateList` | src/services/missionService.ts:94-102 | Returns None exactly when no record has the id. Otherwise the list keeps its length: the first record with the id is replaced by the merged record and every other position is unchanged. |
| `MissionService.MergeFields` | src/services/missionService.ts:97-101 | Each supplied field replaces the old value, including id and createdAt. Each absent field keeps its old value. updatedAt equals now even when the patch supplies one. |
| `MissionService.MergeStatusOnly` | src/services/missionService.ts:97-101 | A patch of only the status yields the old record with the new status and updatedAt = now. |
| `MissionService.Merge` | src/services/missionService.ts:97-101 | The merged record's updatedAt is now. An empty patch changes only updatedAt. A patch without id and createdAt keeps both. |
| `MissionService.MissionStore.UpdateMission` | src/services/missionService.ts:91-104 | For a missing id: returns None, leaves the stored list unchanged, and writes nothing apart from the seed. For a present id: stores the UpdateList result, writes it once, and returns the merged record at the first matching position. |
| `MissionService.FindAfterUpdate` | src/services/missionService.ts:84-103 | After an update that keeps the id, reading that id returns the merged record. |
| `Seqs.Filter` | src/services/missionService.ts:110 | `filter` keeps every passing element and only elements of the input that pass. The result is never longer than the input. |
| `Seqs.FilterIsSubsequence` | src/pages/Planets.tsx:27 | A filter result is a subsequence of its input, so it keeps the input's order. |
| `Seqs.FilterAppend` | src/services/missionService.ts:110 | Filtering a concatenation is the concatenation of the filtered parts. |
| `Seqs.FilterAgrees` | src/services/missionService.ts:121-126 | Two predicates that agree on every element give the same filter result. |
| `Seqs.FilterKeepsAll` | src/services/missionService.ts:110-111 | When every element passes, the filter returns its input unchanged. |
| `Seqs.FilterLengthUnchanged` | src/services/missionService.ts:110-111 | The filtered length equals the input length exactly when every element passes. This is the test deleteMission uses to decide "not found". |
| `Seqs.FilterIdempotent` | src/services/missionService.ts:110 | Filtering twice with the same predicate equals filtering once. |
| `MissionService.RemoveMission` | src/services/missionService.ts:110-111 | The result is a subsequence of the list that keeps every copy of each record whose id differs from the argument and no record with the id, so it is exactly the kept records in order. Its length is unchanged exactly when no record has the id. |
| `MissionService.MissionStore.DeleteMission` | src/services/missionService.ts:107-114 | Returns true exactly when some record has the id. The stored list then drops every record with that id. When the result is false the stored list is unchanged, and the list is written only when the result is true. |
| `MissionService.DeleteTwice` | src/services/missionService.ts:107-114 | After a delete, no record has the id, and deleting it again leaves the list unchanged. |
| `MissionService.DeleteSameIdTwice` | src/services/missionService.ts:107-114 | On the store, a second delete of the same id returns false. Across both calls the write log grows only by the seed write and the first delete's write, so the second delete writes nothing. When anything has been written, the last write is the filtered list. |
| `Text.IncludesSpec` | src/services/missionService.ts:123-125 | `includes` holds exactly when the needle occurs at some position of the haystack. |
| `Text.Includes` | src/services/missionService.ts:123-125 | A needle longer than the haystack is never included, and the empty needle is always included. |
| `Text.Lower` | src/services/missionService.ts:120 | Lowering keeps the length, maps each character A-Z to its letter a-z, and keeps every character outside A-Z. |
| `Text.LowerOfUpper` | src/services/missionService.ts:120 | Upper-casing a string before lowering it gives the same result as lowering it directly, so spellings that differ only in case lower to the same string. |
| `Seqs.FilterMultiplicity` | src/services/missionService.ts:110 | A filter keeps every copy of a passing value and no copy of a failing one. |
| `Text.LowerIdempotent` | src/services/missionService.ts:120 | Lowering a string twice equals lowering it once. |
| `MissionService.MatchesQuery` | src/services/missionService.ts:122-125 | A record matches exactly when the lowered query occurs in its lowered name, destination or objective. The empty query matches every record. |
| `MissionService.SearchList` | src/services/missionService.ts:120-126 | The search result is a subsequence of the list that keeps every copy of each matching record and no other record, so it is exactly the matching records in stored order. |
| `MissionService.MissionStore.SearchMissions` | src/services/missionService.ts:117-127 | Returns SearchList of the stored list and writes nothing apart from the first-access seed. |
| `MissionService.SearchEmptyQuery` | src/services/missionService.ts:120-126 | An empty query returns every record. |
| `MissionService.MatchIgnoresUpperCase` | src/services/missionService.ts:120-125 | Upper-casing the query, or the record's name, destination and objective, does not change whether the record matches. |
| `MissionService.SearchIgnoresQueryCase` | src/services/missionService.ts:120-126 | The search result does not change when the query is lowered first. |
| `MissionService.SearchEuropaProbe` | src/services/missionService.ts:38-49 | The seeded EUROPA PROBE record is found by "europa" and by "PROBE". |
| `PlanetApi.MoonCount` | src/services/planetApi.ts:91 | The moon count is the length of the body's moon list, or 0 when the list is null. |
| `PlanetApi.ApiDataOf` | src/services/planetApi.ts:84-92 | The sub-record copies gravity, avgTemp, density, meanRadius, sideralOrbit and sideralRotation from the body. Its moonCount is the moon list's length, or 0 when the list is null. |
| `PlanetApi.MatchFor` | src/services/planetApi.ts:77-79 | There is no match exactly when the fetch failed or no body's English name equals the entry's name ignoring case. Otherwise the match is the first such body. |
| `PlanetApi.EnrichOne` | src/services/planetApi.ts:81-95 | The entry keeps every local field. Without a match it is returned as it is; with one, its apiData is built from the matched body. |
| `PlanetApi.EnrichedPlanetData` | src/services/planetApi.ts:76-96 | The result has exactly one entry per catalog entry, in the same order. Each entry is its catalog entry after the per-entry merge. |
| `PlanetApi.EnrichKeepsEntries` | src/services/planetApi.ts:76-96 | Remote data never adds, drops or reorders entries, and never changes any local field; only `apiData` can differ. |
| `PlanetApi.NoRemoteNoChange` | src/services/planetApi.ts:74-95 | When the fetch failed (null), the result equals the local catalog. |
| `PlanetApi.EmptyRemoteNoChange` | src/services/planetApi.ts:76-95 | When the fetch returns no bodies, the result equals the local catalog. |
| `PlanetApi.EnrichedExactlyWhenMatched` | src/services/planetApi.ts:77-95 | For a local catalog entry: it is enriched exactly when some body's English name equals its name, ignoring case. The first such body is used: its six numbers are copied and its moon list gives moonCount. Otherwise the entry is returned as it is. |
| `PlanetApi.SameNameIgnoresCase` | src/services/planetApi.ts:77-79 | Lowering either name first does not change whether they match. |
| `PlanetsPage.MatchesFilter` | src/pages/Planets.tsx:28-32 | Only the values "all", "terrestrial", "gas" and "ice" accept anything. Apart from "all", a value accepts only "Terrestrial", "Gas Giant" or "Ice Giant". |
| `PlanetsPage.MatchesSearch` | src/pages/Planets.tsx:34 | A name passes exactly when the lowered term occurs in the lowered name. The empty term accepts every name. |
| `PlanetsPage.FilteredPlanets` | src/pages/Planets.tsx:27-37 | The result is a subsequence of the list that keeps every copy of each planet passing both the type filter and the name search, and no other planet. So it is exactly the accepted planets in list order. |
| `PlanetsPage.AllAcceptsEveryType` | src/pages/Planets.tsx:29 | Filter "all" accepts every type. |
| `PlanetsPage.CategoryFiltersAreExact` | src/pages/Planets.tsx:30-32 | "terrestrial" accepts exactly "Terrestrial", "gas" exactly "Gas Giant", "ice" exactly "Ice Giant". |
| `PlanetsPage.UnknownFilterRejects` | src/pages/Planets.tsx:28-32 | Any other filter value rejects every type. |
| `PlanetsPage.UnknownFilterListsNothing` | src/pages/Planets.tsx:27-37 | With any other filter value, the list is empty. |
| `PlanetsPage.EmptySearchAcceptsAll` | src/pages/Planets.tsx:34 | An empty search term accepts every name. |
| `PlanetsPage.SearchIgnoresCase` | src/pages/Planets.tsx:34 | Lowering the name or the term first does not change the search. |
| `PlanetsPage.SearchIgnoresUpperCase` | src/pages/Planets.tsx:34 | Upper-casing the name or the search term does not change the search. |
| `PlanetsPage.NoCriteriaListsAll` | src/pages/Planets.tsx:27-37 | With filter "all" and an empty term, every planet is listed, in order. |
| `PlanetsPage.FilteredPlanetsAppend` | src/pages/Planets.tsx:27-37 | Filtering a concatenated list is the concatenation of the filtered parts. |

## Left out

- Malformed remote payloads. At src/services/planetApi.ts:77-78, `toLowerCase` throws when a body before the first match has a null or missing `englishName`, and `find` throws when `bodies` is present but not an array. A null or missing `bodies` behaves like a failed fetch: `apiData?.find` at line 77 stops at the `?.`, and every entry comes back unchanged, which is the model's `None`. `getEnrichedPlanetData` then rejects, and the planet page (src/pages/Planets.tsx:18-19) keeps its unenriched list. The model takes the remote list as well-formed `NasaPlanet` values, so `PlanetApi.EnrichKeepsEntries` and `PlanetApi.NoRemoteNoChange` are stated only for well-formed payloads.
- Network I/O. The `axios.get` calls, their 5-second timeout and the console logging in `fetchPlanetsFromApi` and `fetchPlanetDetails` (src/services/planetApi.ts:42-70) are foreign calls. Only their outcome is modelled, as an optional input. `fetchPlanetDetails` has no logic beyond that call.
- The artificial `delay` and the Promise plumbing (src/services/missionService.ts:60). They only add latency.
- `localStorage` and JSON. The key is a field, and `JSON.stringify`/`JSON.parse` are treated as an exact round trip. Parsing a corrupt stored value (src/services/missionService.ts:22) is not modelled. `if (stored)` is modelled as "key present", because only `JSON.stringify` writes the key and it never produces an empty string.
- The clock and id generation. `new Date().toISOString()` and `Date.now()` are passed in as `now` and `newId`. The source reads the clock separately for each timestamp; the model uses one `now` per call, so timestamps that land in different milliseconds within one call are not modelled.
- `MissionService.MergeFields`: a `Partial<Mission>` field given explicitly as `undefined` would overwrite the old value with `undefined`. The model only distinguishes supplied and absent fields.
- Remote floating-point fields are copied values (`real`) and no arithmetic is done on them. Remote body fields that the merge does not read (mass, volume, orbit shape, discovery data and so on) are not in `NasaPlanet`.
- The local catalog `src/data/planets` is not part of this model; it is a parameter. Its field types beyond those in `PlanetCardProps` are not known, so they are strings here. The field `type` is named `planetType`.
- Unicode case mapping. `toLowerCase` lowers only A-Z.
- React rendering, component state, routing, toasts and timers, and the three.js scene. None of them hold data logic beyond display counts.
- `parseInt(value) || 0` in the mission form. It is JS number parsing inside a UI handler.
