/**
 * The guide list of the "Find Guides" page (src/pages/FindGuides.tsx): the guides
 * that satisfy every criterion the search panel has set, in list order.
 */
module FindGuides {
  import opened Wrappers
  import Text
  import Seqs
  import opened SearchFilters

  /** A guide card; `rating` is in tenths of a star (4.9 is 49). */
  datatype Guide = Guide(
    id: nat,
    name: string,
    location: string,
    rating: nat,
    hourlyRate: int,
    specializations: seq<string>,
    languages: seq<string>)

  /** The fields the search box looks in: name, location, then every specialization. */
  function SearchFields(g: Guide): seq<string>
  {
    [g.name, g.location] + g.specializations
  }

  /** `name`, `location` or some specialization contains the query, ignoring case. */
  function MatchesSearch(g: Guide, query: string): bool
  {
    Text.MatchesFields(g.name, g.location, g.specializations, query)
  }

  /** The filter callback, one early return per criterion. */
  function Keep(g: Guide, c: Criteria): bool
  {
    if c.searchQuery != "" && !MatchesSearch(g, c.searchQuery) then false
    else if c.location != "" && g.location != c.location then false
    else if c.rating != "" && (var t := Text.ParseTenths(c.rating); t.Some? && g.rating < t.value) then false
    else if c.priceRange.Some?
         && (g.hourlyRate < c.priceRange.value.low || g.hourlyRate > c.priceRange.value.high) then false
    else if c.language != "" && c.language !in g.languages then false
    else if c.specialty != "" && c.specialty !in g.specializations then false
    else true
  }

  /** `filteredGuides`. */
  function FilterGuides(guides: seq<Guide>, c: Criteria): (r: seq<Guide>)
    ensures |r| <= |guides|
    ensures forall k :: 0 <= k < |r| ==> Keep(r[k], c)
  {
    Seqs.Filter(guides, g => Keep(g, c))
  }

  // ------------------------------------------------------------------ properties

  /** The result is an order-keeping sub-sequence, with every guide at most as often as in the input. */
  lemma FilterGuidesSubsequence(guides: seq<Guide>, c: Criteria, g: Guide)
    ensures Seqs.IsSubsequence(FilterGuides(guides, c), guides)
    ensures multiset(FilterGuides(guides, c))[g] <= multiset(guides)[g]
  {
    Seqs.FilterIsSubsequence(guides, x => Keep(x, c));
    Seqs.FilterMultiplicity(guides, x => Keep(x, c), g);
  }

  /** With nothing set (`{}`), every guide is listed, in order. */
  lemma NoCriteriaKeepsAll(guides: seq<Guide>)
    ensures FilterGuides(guides, NoCriteria) == guides
  {
    Seqs.FilterKeepsAll(guides, g => Keep(g, NoCriteria));
  }

  /** Membership: a guide is listed exactly when it is in the input and passes every criterion. */
  lemma FilterGuidesMembership(guides: seq<Guide>, c: Criteria, g: Guide)
    ensures g in FilterGuides(guides, c) <==> g in guides && Keep(g, c)
  {
    Seqs.FilterMembership(guides, x => Keep(x, c), g);
  }

  /**
   * A non-empty query keeps a guide that passes the other criteria exactly when the
   * lower-cased query occurs in its lower-cased name, location or some specialization.
   */
  lemma SearchIff(guides: seq<Guide>, c: Criteria, g: Guide)
    requires c.searchQuery != ""
    requires g in guides && Keep(g, c.(searchQuery := ""))
    ensures g in FilterGuides(guides, c) <==> Text.SearchHit(SearchFields(g), c.searchQuery)
  {
    FilterGuidesMembership(guides, c, g);
    Text.MatchesFieldsIsSearchHit(g.name, g.location, g.specializations, c.searchQuery);
  }

  /** Every listed guide satisfies each criterion that is set. */
  lemma ResultSatisfiesCriteria(guides: seq<Guide>, c: Criteria, g: Guide)
    requires g in FilterGuides(guides, c)
    ensures c.searchQuery != "" ==> Text.SearchHit(SearchFields(g), c.searchQuery)
    ensures c.location != "" ==> g.location == c.location
    ensures c.rating != "" && Text.ParseTenths(c.rating).Some? ==> g.rating >= Text.ParseTenths(c.rating).value
    ensures c.priceRange.Some? ==> c.priceRange.value.low <= g.hourlyRate <= c.priceRange.value.high
    ensures c.language != "" ==> c.language in g.languages
    ensures c.specialty != "" ==> c.specialty in g.specializations
  {
    FilterGuidesMembership(guides, c, g);
    Text.MatchesFieldsIsSearchHit(g.name, g.location, g.specializations, c.searchQuery);
  }

  /** A rating that does not parse (`NaN`) removes no guide, since `rating < NaN` is false. */
  lemma UnparsedRatingImposesNothing(guides: seq<Guide>, c: Criteria)
    requires Text.ParseTenths(c.rating).None?
    ensures FilterGuides(guides, c) == FilterGuides(guides, c.(rating := ""))
  {
    var c' := c.(rating := "");
    Seqs.FilterCongruent(guides, g => Keep(g, c), g => Keep(g, c'));
  }

  /** Filtering the result again with the same criteria gives the result back. */
  lemma FilterGuidesIdempotent(guides: seq<Guide>, c: Criteria)
    ensures FilterGuides(FilterGuides(guides, c), c) == FilterGuides(guides, c)
  {
    Seqs.FilterIdempotent(guides, g => Keep(g, c));
  }

  /** The date range and the group size are ignored for guides. */
  lemma DateAndGroupSizeIgnored(guides: seq<Guide>, c: Criteria, d: Option<DateRange>, size: string)
    ensures FilterGuides(guides, c.(dateRange := d, groupSize := size)) == FilterGuides(guides, c)
  {
    var c' := c.(dateRange := d, groupSize := size);
    Seqs.FilterCongruent(guides, g => Keep(g, c'), g => Keep(g, c));
  }

  /** The four entries of the rating menu read as 4.5, 4.0, 3.5 and 3.0 stars. */
  lemma RatingMenuParses()
    ensures Text.ParseTenths("4.5") == Some(45) && Text.ParseTenths("4.0") == Some(40)
    ensures Text.ParseTenths("3.5") == Some(35) && Text.ParseTenths("3.0") == Some(30)
  {
    Text.ParseShowTenths(45);
    Text.ParseShowTenths(40);
    Text.ParseShowTenths(35);
    Text.ParseShowTenths(30);
    assert Text.ShowTenths(45) == "4.5";
    assert Text.ShowTenths(40) == "4.0";
    assert Text.ShowTenths(35) == "3.5";
    assert Text.ShowTenths(30) == "3.0";
  }

  const Maria := Guide(1, "Maria Rodriguez", "Barcelona, Spain", 49, 45,
                       ["Architecture", "Food Tours", "History"], ["English", "Spanish", "French"])
  const Ahmed := Guide(2, "Ahmed Hassan", "Cairo, Egypt", 48, 35,
                       ["Ancient History", "Museums", "Cultural Tours"], ["Arabic", "English", "German"])

  /** A 4.0 minimum keeps both 4.9 and 4.8; a price band of [0, 40] keeps only the 35-an-hour guide. */
  lemma RatingAndPriceScenario()
    ensures FilterGuides([Maria, Ahmed], NoCriteria.(rating := "4.0")) == [Maria, Ahmed]
    ensures FilterGuides([Maria, Ahmed], NoCriteria.(priceRange := Some(PriceRange(0, 40)))) == [Ahmed]
  {
    RatingMenuParses();
    var c := NoCriteria.(rating := "4.0");
    assert Keep(Maria, c) && Keep(Ahmed, c);
    Seqs.FilterKeepsAll([Maria, Ahmed], g => Keep(g, c));
    var p := NoCriteria.(priceRange := Some(PriceRange(0, 40)));
    assert !Keep(Maria, p) && Keep(Ahmed, p);
    assert [Maria, Ahmed][1..] == [Ahmed];
    Seqs.FilterKeepsAll([Ahmed], g => Keep(g, p));
    assert FilterGuides([Maria, Ahmed], p) == FilterGuides([Ahmed], p);
  }
}
