/**
 * The itinerary list of the "Itineraries" page (src/pages/Itineraries.tsx): a search
 * box and a duration menu, combined by conjunction, over the list in order.
 */
module Itineraries {
  import Text
  import Seqs

  /** An itinerary card; `duration` is in days. */
  datatype Itinerary = Itinerary(
    id: nat,
    title: string,
    destination: string,
    duration: int,
    price: int,
    highlights: seq<string>)

  /** The entries of the duration menu. */
  const AnyDuration := "Any Duration"
  const ShortTrip := "1-3 days"
  const MediumTrip := "4-7 days"
  const LongTrip := "8+ days"

  function SearchFields(it: Itinerary): seq<string>
  {
    [it.title, it.destination] + it.highlights
  }

  /** `title`, `destination` or some highlight contains the query, ignoring case. */
  function MatchesSearch(it: Itinerary, query: string): bool
  {
    Text.MatchesFields(it.title, it.destination, it.highlights, query)
  }

  /** `matchesDuration`. */
  function MatchesDuration(selected: string, duration: int): bool
  {
    || selected == ""
    || selected == AnyDuration
    || (selected == ShortTrip && duration <= 3)
    || (selected == MediumTrip && duration >= 4 && duration <= 7)
    || (selected == LongTrip && duration >= 8)
  }

  function Keep(it: Itinerary, query: string, selected: string): bool
  {
    MatchesSearch(it, query) && MatchesDuration(selected, it.duration)
  }

  /** `filteredItineraries`. */
  function FilterItineraries(its: seq<Itinerary>, query: string, selected: string): (r: seq<Itinerary>)
    ensures |r| <= |its|
    ensures forall k :: 0 <= k < |r| ==> MatchesSearch(r[k], query) && MatchesDuration(selected, r[k].duration)
  {
    Seqs.Filter(its, it => Keep(it, query, selected))
  }

  /** The number shown in the "N Itineraries Found" heading. */
  function FoundCount(its: seq<Itinerary>, query: string, selected: string): (n: nat)
    ensures n <= |its|
  {
    |FilterItineraries(its, query, selected)|
  }

  // ------------------------------------------------------------------ properties

  /** The three day buckets partition the integers: every duration is in exactly one. */
  lemma BucketsPartition(d: int)
    ensures MatchesDuration(ShortTrip, d) || MatchesDuration(MediumTrip, d) || MatchesDuration(LongTrip, d)
    ensures !(MatchesDuration(ShortTrip, d) && MatchesDuration(MediumTrip, d))
    ensures !(MatchesDuration(ShortTrip, d) && MatchesDuration(LongTrip, d))
    ensures !(MatchesDuration(MediumTrip, d) && MatchesDuration(LongTrip, d))
  {
  }

  /** What each bucket keeps, and that a menu value the code does not know keeps nothing. */
  lemma DurationBuckets(selected: string, d: int)
    ensures selected == "" || selected == AnyDuration ==> MatchesDuration(selected, d)
    ensures selected == ShortTrip ==> (MatchesDuration(selected, d) <==> d <= 3)
    ensures selected == MediumTrip ==> (MatchesDuration(selected, d) <==> 4 <= d <= 7)
    ensures selected == LongTrip ==> (MatchesDuration(selected, d) <==> d >= 8)
    ensures selected !in {"", AnyDuration, ShortTrip, MediumTrip, LongTrip} ==> !MatchesDuration(selected, d)
  {
  }

  /** An itinerary is listed exactly when it is in the input, the search matches and the duration matches. */
  lemma FilterItinerariesMembership(its: seq<Itinerary>, query: string, selected: string, it: Itinerary)
    ensures it in FilterItineraries(its, query, selected)
      <==> it in its && Text.SearchHit(SearchFields(it), query) && MatchesDuration(selected, it.duration)
  {
    Seqs.FilterMembership(its, x => Keep(x, query, selected), it);
    Text.MatchesFieldsIsSearchHit(it.title, it.destination, it.highlights, query);
  }

  /** The result is an order-keeping sub-sequence of the list. */
  lemma FilterItinerariesSubsequence(its: seq<Itinerary>, query: string, selected: string)
    ensures Seqs.IsSubsequence(FilterItineraries(its, query, selected), its)
  {
    Seqs.FilterIsSubsequence(its, x => Keep(x, query, selected));
  }

  /** An empty search and an empty or "Any Duration" menu list every itinerary, in order. */
  lemma EmptySearchKeepsAll(its: seq<Itinerary>, selected: string)
    requires selected == "" || selected == AnyDuration
    ensures FilterItineraries(its, "", selected) == its
  {
    forall k | 0 <= k < |its| ensures Keep(its[k], "", selected) {
      Text.EmptyQueryMatches(SearchFields(its[k]));
      Text.MatchesFieldsIsSearchHit(its[k].title, its[k].destination, its[k].highlights, "");
      Text.AnyMatchesIsSearchHit(SearchFields(its[k]), "");
    }
    Seqs.FilterKeepsAll(its, x => Keep(x, "", selected));
  }

  /** A duration menu value the code does not know lists nothing. */
  lemma UnknownDurationKeepsNone(its: seq<Itinerary>, query: string, selected: string)
    requires selected !in {"", AnyDuration, ShortTrip, MediumTrip, LongTrip}
    ensures FilterItineraries(its, query, selected) == []
  {
    Seqs.FilterKeepsNone(its, x => Keep(x, query, selected));
  }

  /** The three buckets split the search results: their counts add up to the "Any Duration" count. */
  lemma {:induction false} BucketCountsAddUp(its: seq<Itinerary>, query: string)
    ensures FoundCount(its, query, ShortTrip) + FoundCount(its, query, MediumTrip)
          + FoundCount(its, query, LongTrip) == FoundCount(its, query, AnyDuration)
  {
    if its != [] {
      BucketCountsAddUp(its[1..], query);
      BucketsPartition(its[0].duration);
    }
  }
}
