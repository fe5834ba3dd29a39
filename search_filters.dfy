/**
 * The advanced search panel (src/components/SearchFilters.tsx): nine pieces of form
 * state, a duplicate-free list of active-filter chips, and the criteria record it
 * hands to the listing page.
 */
module SearchFilters {
  import opened Wrappers
  import Seqs

  /** The inclusive `[low, high]` price slider. */
  datatype PriceRange = PriceRange(low: int, high: int)

  datatype DateRange = DateRange(start: string, end: string)

  /**
   * The criteria record handed to `onFiltersChange`. An empty string or `None`
   * stands for a field that is absent or falsy; `{}` is `NoCriteria`.
   */
  datatype Criteria = Criteria(
    searchQuery: string,
    location: string,
    priceRange: Option<PriceRange>,
    rating: string,
    language: string,
    specialty: string,
    dateRange: Option<DateRange>,
    groupSize: string)

  /** The empty record `{}` sent by "Clear All" (and the page's initial state). */
  const NoCriteria := Criteria("", "", None, "", "", "", None, "")

  const DefaultPriceRange := PriceRange(0, 500)
  const EmptyDateRange := DateRange("", "")

  /** The `type` property of the panel. */
  datatype PanelType = Guides | ItineraryPanel | Hotels

  const GuideSpecialties: seq<string> := [
    "Architecture", "Food Tours", "History", "Museums", "Cultural Tours",
    "Nature & Adventure", "Photography", "Art & Design", "Religious Sites",
    "Local Experiences", "Shopping", "Nightlife"
  ]

  const ItinerarySpecialties: seq<string> := [
    "Cultural & Historical", "Adventure & Nature", "Food & Wine",
    "Architecture & Art", "Religious & Spiritual", "Beach & Coastal",
    "Urban Exploration", "Wildlife & Safari", "Photography Tours",
    "Luxury Experiences", "Family-Friendly", "Romantic Getaways"
  ]

  /** The specialty menu offered by a panel of the given type. */
  function Specialties(kind: PanelType): (r: seq<string>)
    ensures r == ItinerarySpecialties <==> kind == ItineraryPanel
    ensures r == GuideSpecialties <==> kind != ItineraryPanel
  {
    assert GuideSpecialties[0] != ItinerarySpecialties[0];
    if kind == ItineraryPanel then ItinerarySpecialties else GuideSpecialties
  }

  /** The chip text `${filterType}: ${value}`. */
  function Label(filterType: string, value: string): (r: string)
    ensures |r| == |filterType| + 2 + |value|
    ensures r[..|filterType|] == filterType && r[|filterType|..|filterType| + 2] == ": "
    ensures r[|filterType| + 2..] == value
  {
    filterType + ": " + value
  }

  /** Labels built from the same type are equal exactly when the values are. */
  lemma LabelInjective(t: string, v: string, w: string)
    ensures Label(t, v) == Label(t, w) <==> v == w
  {
    if Label(t, v) == Label(t, w) {
      assert v == Label(t, v)[|t| + 2..];
    }
  }

  /** `addFilter` on the chip list: append the chip unless it is already shown. */
  function AddLabel(chips: seq<string>, chip: string): (r: seq<string>)
    ensures chip in r
    ensures Seqs.NoDuplicates(chips) ==> Seqs.NoDuplicates(r)
    ensures chip in chips ==> r == chips
    ensures chip !in chips ==> |r| == |chips| + 1 && r[..|chips|] == chips && r[|chips|] == chip
  {
    if chip in chips then chips else chips + [chip]
  }

  /** Adding a chip twice is the same as adding it once. */
  lemma AddLabelIdempotent(chips: seq<string>, chip: string)
    ensures AddLabel(AddLabel(chips, chip), chip) == AddLabel(chips, chip)
  {
  }

  /** Removing the chip just added to a list that lacked it gives the list back. */
  lemma {:induction false} RemoveUndoesAdd(chips: seq<string>, chip: string)
    requires chip !in chips
    ensures Seqs.Remove(AddLabel(chips, chip), chip) == chips
  {
    RemoveLast(chips, chip);
  }

  lemma {:induction false} RemoveLast(chips: seq<string>, chip: string)
    requires chip !in chips
    ensures Seqs.Remove(chips + [chip], chip) == chips
  {
    if chips == [] {
      assert [chip][1..] == [];
    } else {
      assert (chips + [chip])[1..] == chips[1..] + [chip];
      RemoveLast(chips[1..], chip);
      assert chips == [chips[0]] + chips[1..];
    }
  }

  class FilterPanel {
    const kind: PanelType
    var searchQuery: string
    var location: string
    var priceRange: PriceRange
    var rating: string
    var language: string
    var specialty: string
    var dateRange: DateRange
    var groupSize: string
    var selectedFilters: seq<string>

    /** The chip list never shows a chip twice. */
    ghost predicate Valid()
      reads this
    {
      Seqs.NoDuplicates(selectedFilters)
    }

    /** Every field at its default: what the panel starts with and what "Clear All" restores. */
    ghost predicate AtDefaults()
      reads this
    {
      && searchQuery == "" && location == "" && priceRange == DefaultPriceRange
      && rating == "" && language == "" && specialty == ""
      && dateRange == EmptyDateRange && groupSize == "" && selectedFilters == []
    }

    constructor (kind: PanelType)
      ensures this.kind == kind
      ensures Valid() && AtDefaults()
    {
      this.kind := kind;
      searchQuery, location, priceRange := "", "", DefaultPriceRange;
      rating, language, specialty := "", "", "";
      dateRange, groupSize, selectedFilters := EmptyDateRange, "", [];
    }

    /** `handleFilterChange`: emit the eight current field values; nothing changes. */
    method HandleFilterChange() returns (c: Criteria)
      ensures c.searchQuery == searchQuery && c.location == location
      ensures c.priceRange == Some(priceRange) && c.rating == rating
      ensures c.language == language && c.specialty == specialty
      ensures c.dateRange == Some(dateRange) && c.groupSize == groupSize
    {
      c := Criteria(searchQuery, location, Some(priceRange), rating, language, specialty,
                    Some(dateRange), groupSize);
    }

    /** `addFilter(filterType, value)`. */
    method AddFilter(filterType: string, value: string)
      requires Valid()
      modifies this`selectedFilters
      ensures Valid()
      ensures selectedFilters == AddLabel(old(selectedFilters), Label(filterType, value))
    {
      var chip := filterType + ": " + value;
      if chip !in selectedFilters {
        selectedFilters := selectedFilters + [chip];
      }
    }

    /** `removeFilter(filter)`. */
    method RemoveFilter(filter: string)
      requires Valid()
      modifies this`selectedFilters
      ensures Valid()
      ensures selectedFilters == Seqs.Remove(old(selectedFilters), filter)
    {
      Seqs.RemoveSpec(selectedFilters, filter);
      selectedFilters := Seqs.Remove(selectedFilters, filter);
    }

    /** `clearAllFilters`: every field back to its default, then `onFiltersChange({})`. */
    method ClearAllFilters() returns (c: Criteria)
      modifies this
      ensures Valid() && AtDefaults()
      ensures c == NoCriteria
    {
      searchQuery := "";
      location := "";
      priceRange := DefaultPriceRange;
      rating := "";
      language := "";
      specialty := "";
      dateRange := EmptyDateRange;
      groupSize := "";
      selectedFilters := [];
      c := Criteria("", "", None, "", "", "", None, "");
    }

    /** The search box. */
    method SetSearchQuery(value: string)
      modifies this`searchQuery
      ensures searchQuery == value
    {
      searchQuery := value;
    }

    /** The location menu: set the field and add a "Location" chip. */
    method SelectLocation(value: string)
      requires Valid()
      modifies this`location, this`selectedFilters
      ensures Valid() && location == value
      ensures selectedFilters == AddLabel(old(selectedFilters), Label("Location", value))
    {
      location := value;
      AddFilter("Location", value);
    }

    /** The price slider; it adds no chip. */
    method SetPriceRange(value: PriceRange)
      modifies this`priceRange
      ensures priceRange == value
    {
      priceRange := value;
    }

    /** The rating menu: set the field and add a "Rating: <value>+ stars" chip. */
    method SelectRating(value: string)
      requires Valid()
      modifies this`rating, this`selectedFilters
      ensures Valid() && rating == value
      ensures selectedFilters == AddLabel(old(selectedFilters), Label("Rating", value + "+ stars"))
    {
      rating := value;
      AddFilter("Rating", value + "+ stars");
    }

    /** The language menu: set the field and add a "Language" chip. */
    method SelectLanguage(value: string)
      requires Valid()
      modifies this`language, this`selectedFilters
      ensures Valid() && language == value
      ensures selectedFilters == AddLabel(old(selectedFilters), Label("Language", value))
    {
      language := value;
      AddFilter("Language", value);
    }

    /** The start and end date inputs; they add no chip. */
    method SetDateStart(value: string)
      modifies this`dateRange
      ensures dateRange == old(dateRange).(start := value)
    {
      dateRange := dateRange.(start := value);
    }

    method SetDateEnd(value: string)
      modifies this`dateRange
      ensures dateRange == old(dateRange).(end := value)
    {
      dateRange := dateRange.(end := value);
    }

    /** The specialty menu: set the field and add a "Specialty" chip. */
    method SelectSpecialty(value: string)
      requires Valid()
      modifies this`specialty, this`selectedFilters
      ensures Valid() && specialty == value
      ensures selectedFilters == AddLabel(old(selectedFilters), Label("Specialty", value))
    {
      specialty := value;
      AddFilter("Specialty", value);
    }

    /** The group-size menu: set the field and add a "Group Size" chip. */
    method SelectGroupSize(value: string)
      requires Valid()
      modifies this`groupSize, this`selectedFilters
      ensures Valid() && groupSize == value
      ensures selectedFilters == AddLabel(old(selectedFilters), Label("Group Size", value))
    {
      groupSize := value;
      AddFilter("Group Size", value);
    }
  }
}
