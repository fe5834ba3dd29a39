/**
 * The destination list of the "Destinations" page (src/pages/Destinations.tsx): a
 * search box and a continent menu, combined by conjunction, over the list in order.
 */
module Destinations {
  import Text
  import Seqs

  datatype Destination = Destination(
    id: nat,
    name: string,
    country: string,
    continent: string,
    highlights: seq<string>)

  /** The sentinel first entry of the continent menu. */
  const AllContinents := "All Continents"

  function SearchFields(d: Destination): seq<string>
  {
    [d.name, d.country] + d.highlights
  }

  /** `name`, `country` or some highlight contains the query, ignoring case. */
  function MatchesSearch(d: Destination, query: string): bool
  {
    Text.MatchesFields(d.name, d.country, d.highlights, query)
  }

  /** `matchesContinent`. */
  function MatchesContinent(selected: string, d: Destination): bool
  {
    selected == "" || selected == AllContinents || d.continent == selected
  }

  function Keep(d: Destination, query: string, selected: string): bool
  {
    MatchesSearch(d, query) && MatchesContinent(selected, d)
  }

  /** `filteredDestinations`. */
  function FilterDestinations(ds: seq<Destination>, query: string, selected: string): (r: seq<Destination>)
    ensures |r| <= |ds|
    ensures forall k :: 0 <= k < |r| ==> MatchesSearch(r[k], query) && MatchesContinent(selected, r[k])
  {
    Seqs.Filter(ds, d => Keep(d, query, selected))
  }

  /** The number shown in the "N Destinations Available" heading. */
  function AvailableCount(ds: seq<Destination>, query: string, selected: string): (n: nat)
    ensures n <= |ds|
  {
    |FilterDestinations(ds, query, selected)|
  }

  // ------------------------------------------------------------------ properties

  /** A destination is listed exactly when it is in the input and both the search and the continent match. */
  lemma FilterDestinationsMembership(ds: seq<Destination>, query: string, selected: string, d: Destination)
    ensures d in FilterDestinations(ds, query, selected)
      <==> d in ds && Text.SearchHit(SearchFields(d), query)
           && (selected == "" || selected == AllContinents || d.continent == selected)
  {
    Seqs.FilterMembership(ds, x => Keep(x, query, selected), d);
    Text.MatchesFieldsIsSearchHit(d.name, d.country, d.highlights, query);
  }

  /** The result is an order-keeping sub-sequence. */
  lemma FilterDestinationsSubsequence(ds: seq<Destination>, query: string, selected: string)
    ensures Seqs.IsSubsequence(FilterDestinations(ds, query, selected), ds)
  {
    Seqs.FilterIsSubsequence(ds, x => Keep(x, query, selected));
  }

  /** An empty search matches every destination, so only the continent decides. */
  lemma EmptySearchOnlyContinent(ds: seq<Destination>, selected: string)
    ensures FilterDestinations(ds, "", selected) == Seqs.Filter(ds, d => MatchesContinent(selected, d))
  {
    forall k | 0 <= k < |ds| ensures Keep(ds[k], "", selected) == MatchesContinent(selected, ds[k]) {
      Text.EmptyQueryMatches(SearchFields(ds[k]));
      Text.MatchesFieldsIsSearchHit(ds[k].name, ds[k].country, ds[k].highlights, "");
      Text.AnyMatchesIsSearchHit(SearchFields(ds[k]), "");
    }
    Seqs.FilterCongruent(ds, x => Keep(x, "", selected), d => MatchesContinent(selected, d));
  }

  /** An empty or "All Continents" menu with an empty search lists every destination, in order. */
  lemma NoConstraintKeepsAll(ds: seq<Destination>, selected: string)
    requires selected == "" || selected == AllContinents
    ensures FilterDestinations(ds, "", selected) == ds
  {
    EmptySearchOnlyContinent(ds, selected);
    Seqs.FilterKeepsAll(ds, d => MatchesContinent(selected, d));
  }
}
