/**
 * The planet list page's `filteredPlanets`: a planet is shown when its type
 * passes the selected type filter and its name contains the search term,
 * both compared as the page does (exact type strings, lowered names).
 */
module PlanetsPage {
  import opened Seqs
  import opened Text
  import opened PlanetApi

  /** The type filter: "all", or one of three filter values each naming one exact type. */
  predicate MatchesFilter(filter: string, planetType: string)
    ensures MatchesFilter(filter, planetType) ==>
              filter == "all" || filter == "terrestrial" || filter == "gas" || filter == "ice"
    ensures filter != "all" && MatchesFilter(filter, planetType) ==>
              planetType == "Terrestrial" || planetType == "Gas Giant" || planetType == "Ice Giant"
  {
    || filter == "all"
    || (filter == "terrestrial" && planetType == "Terrestrial")
    || (filter == "gas" && planetType == "Gas Giant")
    || (filter == "ice" && planetType == "Ice Giant")
  }

  /** The name search: the lowered term occurs in the lowered name. */
  predicate MatchesSearch(name: string, searchTerm: string)
    ensures searchTerm == "" ==> MatchesSearch(name, searchTerm)
    ensures MatchesSearch(name, searchTerm) <==> exists i :: OccursAt(Lower(name), Lower(searchTerm), i)
  {
    IncludesSpec(Lower(name), Lower(searchTerm));
    Includes(Lower(name), Lower(searchTerm))
  }

  /** The page's predicate: both tests pass. */
  predicate Accepts(planet: Planet, filter: string, searchTerm: string) {
    MatchesFilter(filter, planet.planetType) && MatchesSearch(planet.name, searchTerm)
  }

  function Accepting(filter: string, searchTerm: string): Planet -> bool {
    (p: Planet) => Accepts(p, filter, searchTerm)
  }

  /** filteredPlanets: the accepted planets, in list order. */
  function FilteredPlanets(planets: seq<Planet>, filter: string, searchTerm: string): (r: seq<Planet>)
    ensures forall i :: 0 <= i < |r| ==> r[i] in planets && Accepts(r[i], filter, searchTerm)
    ensures forall j :: 0 <= j < |planets| && Accepts(planets[j], filter, searchTerm) ==> planets[j] in r
    ensures IsSubsequence(r, planets)
    ensures forall p :: multiset(r)[p] == if Accepts(p, filter, searchTerm) then multiset(planets)[p] else 0
  {
    FilterIsSubsequence(planets, Accepting(filter, searchTerm));
    FilterMultiplicity(planets, Accepting(filter, searchTerm));
    Filter(planets, Accepting(filter, searchTerm))
  }

  /** "all" accepts every type. */
  lemma AllAcceptsEveryType(planetType: string)
    ensures MatchesFilter("all", planetType)
  {
  }

  /** Each category filter accepts exactly one type string. */
  lemma CategoryFiltersAreExact(planetType: string)
    ensures MatchesFilter("terrestrial", planetType) <==> planetType == "Terrestrial"
    ensures MatchesFilter("gas", planetType) <==> planetType == "Gas Giant"
    ensures MatchesFilter("ice", planetType) <==> planetType == "Ice Giant"
  {
  }

  /** Any other filter value rejects every planet. */
  lemma UnknownFilterRejects(filter: string, planetType: string)
    requires filter != "all" && filter != "terrestrial" && filter != "gas" && filter != "ice"
    ensures !MatchesFilter(filter, planetType)
  {
  }

  /** The empty search term accepts every name. */
  lemma EmptySearchAcceptsAll(name: string)
    ensures MatchesSearch(name, "")
  {
  }

  /** The name search ignores case on both sides. */
  lemma SearchIgnoresCase(name: string, searchTerm: string)
    ensures MatchesSearch(name, searchTerm) <==> MatchesSearch(Lower(name), Lower(searchTerm))
  {
    LowerIdempotent(name);
    LowerIdempotent(searchTerm);
  }

  /** Upper-casing the name or the term does not change the search. */
  lemma SearchIgnoresUpperCase(name: string, searchTerm: string)
    ensures MatchesSearch(Upper(name), searchTerm) <==> MatchesSearch(name, searchTerm)
    ensures MatchesSearch(name, Upper(searchTerm)) <==> MatchesSearch(name, searchTerm)
  {
    LowerOfUpper(name);
    LowerOfUpper(searchTerm);
  }

  /** With filter "all" and an empty search term, every planet is listed. */
  lemma NoCriteriaListsAll(planets: seq<Planet>)
    ensures FilteredPlanets(planets, "all", "") == planets
  {
    FilterKeepsAll(planets, Accepting("all", ""));
  }

  /** With an unknown filter value nothing is listed. */
  lemma UnknownFilterListsNothing(planets: seq<Planet>, filter: string, searchTerm: string)
    requires filter != "all" && filter != "terrestrial" && filter != "gas" && filter != "ice"
    ensures FilteredPlanets(planets, filter, searchTerm) == []
  {
  }

  /** Filtering a concatenated list filters each part, keeping them in order. */
  lemma FilteredPlanetsAppend(a: seq<Planet>, b: seq<Planet>, filter: string, searchTerm: string)
    ensures FilteredPlanets(a + b, filter, searchTerm)
            == FilteredPlanets(a, filter, searchTerm) + FilteredPlanets(b, filter, searchTerm)
  {
    FilterAppend(a, b, Accepting(filter, searchTerm));
  }
}
