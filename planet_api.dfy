/**
 * The planet data gateway's merge: every entry of the bundled local catalog,
 * enriched with a sub-record from the remote body list when one of the remote
 * bodies has the same English name (ignoring case).
 *
 * The outcome of the remote fetch is an input: None when the request failed
 * (the source's `null`) or the response had no `bodies` list (`undefined`,
 * which `apiData?.find` treats like `null`), Some(bodies) otherwise. Remote
 * numbers are copied, never computed with, and are `real` here.
 */
module PlanetApi {
  import opened Wrappers
  import opened Seqs
  import opened Text

  /** The derived sub-record attached to a matched catalog entry. */
  datatype ApiData = ApiData(
    gravity: real,
    avgTemp: real,
    density: real,
    meanRadius: real,
    sideralOrbit: real,
    sideralRotation: real,
    moonCount: nat)

  /** A catalog entry; local entries have no `apiData`, enriched ones have it. */
  datatype Planet = Planet(
    id: int,
    name: string,
    planetType: string,
    distance: string,
    moons: int,
    color: string,
    temperature: string,
    diameter: string,
    gravity: string,
    dayLength: string,
    yearLength: string,
    atmosphere: string,
    description: string,
    funFact: string,
    apiData: Option<ApiData>)

  datatype Moon = Moon(moon: string)

  /** The fields of a remote body that the merge reads. */
  datatype NasaPlanet = NasaPlanet(
    englishName: string,
    moons: Option<seq<Moon>>,
    density: real,
    gravity: real,
    meanRadius: real,
    sideralOrbit: real,
    sideralRotation: real,
    avgTemp: real)

  /** The bundled catalog: no entry carries remote data. */
  predicate IsLocalCatalog(catalog: seq<Planet>) {
    forall i :: 0 <= i < |catalog| ==> catalog[i].apiData.None?
  }

  /** The matching rule: English name and local name are equal once lowered. */
  predicate SameName(body: NasaPlanet, local: Planet) {
    Lower(body.englishName) == Lower(local.name)
  }

  function NamedLike(local: Planet): NasaPlanet -> bool {
    (b: NasaPlanet) => SameName(b, local)
  }

  /** `apiPlanet.moons?.length || 0`: the length of the moon list, 0 when it is null. */
  function MoonCount(body: NasaPlanet): (n: nat)
    ensures body.moons.None? ==> n == 0
    ensures body.moons.Some? ==> n == |body.moons.value|
  {
    match body.moons
    case None => 0
    case Some(list) => if |list| == 0 then 0 else |list|
  }

  /** The sub-record built from a matched body. */
  function ApiDataOf(body: NasaPlanet): (a: ApiData)
    ensures a.gravity == body.gravity && a.avgTemp == body.avgTemp && a.density == body.density
    ensures a.meanRadius == body.meanRadius
    ensures a.sideralOrbit == body.sideralOrbit && a.sideralRotation == body.sideralRotation
    ensures a.moonCount == if body.moons.Some? then |body.moons.value| else 0
  {
    ApiData(body.gravity, body.avgTemp, body.density, body.meanRadius,
            body.sideralOrbit, body.sideralRotation, MoonCount(body))
  }

  /** `apiData?.find(...)`: the first remote body named like the local entry. */
  function MatchFor(local: Planet, remote: Option<seq<NasaPlanet>>): (r: Option<NasaPlanet>)
    ensures r.None? <==> remote.None? || forall k :: 0 <= k < |remote.value| ==> !SameName(remote.value[k], local)
    ensures r.Some? ==> exists k :: IsFirst(remote.value, NamedLike(local), k) && r.value == remote.value[k]
  {
    match remote
    case None => None
    case Some(bodies) => Find(bodies, NamedLike(local))
  }

  /** One step of the map: `{...localPlanet, apiData: {...}}` when matched, the local entry otherwise. */
  function EnrichOne(local: Planet, remote: Option<seq<NasaPlanet>>): (r: Planet)
    ensures r.(apiData := local.apiData) == local
    ensures MatchFor(local, remote).None? ==> r == local
    ensures MatchFor(local, remote).Some? ==> r.apiData == Some(ApiDataOf(MatchFor(local, remote).value))
  {
    match MatchFor(local, remote)
    case None => local
    case Some(body) => local.(apiData := Some(ApiDataOf(body)))
  }

  /** getEnrichedPlanetData: the catalog mapped entry by entry. */
  function EnrichedPlanetData(catalog: seq<Planet>, remote: Option<seq<NasaPlanet>>): (r: seq<Planet>)
    ensures |r| == |catalog|
    ensures forall i :: 0 <= i < |r| ==> r[i] == EnrichOne(catalog[i], remote)
  {
    if catalog == [] then []
    else [EnrichOne(catalog[0], remote)] + EnrichedPlanetData(catalog[1..], remote)
  }

  /** Remote data never adds, drops or reorders entries, and never changes a local field. */
  lemma EnrichKeepsEntries(catalog: seq<Planet>, remote: Option<seq<NasaPlanet>>)
    ensures var r := EnrichedPlanetData(catalog, remote);
            && |r| == |catalog|
            && forall i :: 0 <= i < |r| ==> r[i].(apiData := catalog[i].apiData) == catalog[i]
  {
  }

  /** A failed fetch leaves the catalog exactly as it is. */
  lemma NoRemoteNoChange(catalog: seq<Planet>)
    ensures EnrichedPlanetData(catalog, None) == catalog
  {
  }

  /** A successful fetch with no bodies leaves the catalog exactly as it is. */
  lemma EmptyRemoteNoChange(catalog: seq<Planet>)
    ensures EnrichedPlanetData(catalog, Some([])) == catalog
  {
  }

  /**
   * A local entry is enriched exactly when some remote body has its name, and
   * then from the first such body: its six numbers are copied and its moon list
   * gives the moon count. Otherwise the entry is returned as it is.
   */
  lemma {:induction false} EnrichedExactlyWhenMatched(
    catalog: seq<Planet>, bodies: seq<NasaPlanet>, i: int)
    requires IsLocalCatalog(catalog)
    requires 0 <= i < |catalog|
    ensures var e := EnrichedPlanetData(catalog, Some(bodies))[i];
            && (e.apiData.Some? <==> exists k :: 0 <= k < |bodies| && SameName(bodies[k], catalog[i]))
            && (e.apiData.None? ==> e == catalog[i])
            && (e.apiData.Some? ==> exists k :: (IsFirst(bodies, NamedLike(catalog[i]), k)
                 && e == catalog[i].(apiData := Some(ApiDataOf(bodies[k])))
                 && e.apiData.value.gravity == bodies[k].gravity
                 && e.apiData.value.avgTemp == bodies[k].avgTemp
                 && e.apiData.value.density == bodies[k].density
                 && e.apiData.value.meanRadius == bodies[k].meanRadius
                 && e.apiData.value.sideralOrbit == bodies[k].sideralOrbit
                 && e.apiData.value.sideralRotation == bodies[k].sideralRotation
                 && e.apiData.value.moonCount == (if bodies[k].moons.Some? then |bodies[k].moons.value| else 0)))
  {
    var local := catalog[i];
    var e := EnrichedPlanetData(catalog, Some(bodies))[i];
    assert e == EnrichOne(local, Some(bodies));
    match FindFirst(bodies, NamedLike(local))
    case None =>
      assert !exists k :: 0 <= k < |bodies| && SameName(bodies[k], local);
    case Some(k) =>
      assert NamedLike(local)(bodies[k]);
      assert e == local.(apiData := Some(ApiDataOf(bodies[k])));
  }

  /** The name match ignores case on both sides. */
  lemma SameNameIgnoresCase(body: NasaPlanet, local: Planet)
    ensures SameName(body, local) <==> SameName(body.(englishName := Lower(body.englishName)), local)
    ensures SameName(body, local) <==> SameName(body, local.(name := Lower(local.name)))
  {
  }
}
