# Tour-guide marketplace front end: the client-side rules

This project models, in Dafny, the small amount of logic the marketplace's React
front end computes on its own. Everything else is rendering or calls to the hosted
backend. The model covers:

- the three listing filters: guides (`FindGuides`), itineraries (`Itineraries`) and destinations (`Destinations`);
- the advanced search panel, with its active-filter chips (`SearchFilters`);
- the booking card's price, required fields and `isBooking` flag (`BookingCard`);
- the guide's booking dashboard: status tabs, counters, badges, offered status changes and status updates (`GuideBookings`);
- sending a chat message and the relative-time label (`MessagingSystem`);
- the guide's availability calendar (`GuideCalendar`).

Three shared modules support them:
- `Wrappers` holds `Option`, which stands for `undefined` and empty form fields.
- `Text` holds ASCII case mapping, `includes`, `trim`, decimal rendering and parsing, and capitalisation.
- `Seqs` holds an order-keeping filter. It comes with sub-sequence, membership, multiplicity, idempotence and congruence lemmas, which every listing filter reuses.

Each filter page is a pure function over a sequence. The search panel, the booking
form, the booking table, the chat and the calendar update their state in place, so
each is a `class`. Its methods have `modifies` clauses and `ensures` that give the
new state in terms of the old one. Backend tables are in-memory values. A backend
error is a boolean parameter.

Three behaviours of the code are easy to misread, and the model keeps them as the code has them:

- `totalPrice` reads the group size with `parseInt(groupSize)` and no default. An empty group size therefore gives `NaN`, not a group of one (`BookingCard.TotalPrice` returns `None`). Only the duration defaults to 1, through `parseInt(duration || "1")`.
- The guide filter has no "any location" sentinel. An empty location is the only value that imposes no constraint. The date range and group size in the criteria are ignored for guides (`FindGuides.DateAndGroupSizeIgnored`); they do not narrow the list.
- "Apply Filters" always sends a price range, and an array is truthy. So after it is pressed the guide list is limited to rates within `[0, 500]` unless the slider moves, until "Clear All" sends the empty criteria record `{}` (`SearchFilters.FilterPanel.ClearAllFilters`).

Ratings are in tenths of a star. `FindGuides` parses the rating criterion with
`Text.ParseTenths`. A string it cannot read plays the part of `NaN`, and it removes
no guide, because `rating < NaN` is false in JavaScript. A guide booked without a
duration is priced, and submitted, as one hour, although the card says "Minimum 2 hours booking".

## Model

| member | source | states |
|---|---|---|
| Text.Includes | src/pages/FindGuides.tsx:105-107 | `String.prototype.includes`, trying each start position from the left; what it decides is stated by `Text.IncludesIff` |
| Text.Lower | src/pages/FindGuides.tsx:105-107 | `toLowerCase`: same length, each character lower-cased (ASCII); `Text.LowerIdempotent` shows a second pass changes nothing |
| Text.AnyMatches | src/pages/FindGuides.tsx:107 | `some(s => s.toLowerCase().includes(query))` holds iff some field matches; `Text.AnyMatchesIsSearchHit` relates it to occurrence |
| Text.IncludesIff | src/pages/FindGuides.tsx:105-107 | `includes` holds exactly when the query occurs at some index of the string |
| Text.AnyMatchesIsSearchHit | src/pages/FindGuides.tsx:105-107 | the case-insensitive `some` over fields holds exactly when the lower-cased query occurs in some lower-cased field |
| Text.MatchesFields | src/pages/Itineraries.tsx:113-115 | the three-clause search of the listing pages; stated by `Text.MatchesFieldsIsSearchHit` |
| Text.MatchesFieldsIsSearchHit | src/pages/Itineraries.tsx:113-115 | the search every listing page runs (first field, second field, or some of the list field: FindGuides.tsx:105-107, Itineraries.tsx:113-115, Destinations.tsx:124-126) holds iff the lower-cased query occurs in some lower-cased field |
| Text.Trim | src/components/MessagingSystem.tsx:117 | `trim()` drops leading and trailing white space; `Text.TrimEmptyIff` states when nothing is left |
| Text.ParseTenths | src/pages/FindGuides.tsx:112 | `parseFloat` of the rating criterion in tenths for "D+" and "D+.D", `None` standing for NaN; `Text.ParseShowTenths` and `FindGuides.RatingMenuParses` state its values |
| Text.TrimEmptyIff | src/components/MessagingSystem.tsx:117 | a string is empty after `trim` exactly when every character is white space |
| Text.NatToString | src/components/MessagingSystem.tsx:120 | `Date.now().toString()`: decimal digits only; `Text.NatToStringInjective` shows distinct times give distinct strings |
| Text.ParseShowTenths | src/pages/FindGuides.tsx:112 | parsing a one-decimal rating gives its value in tenths back |
| Text.NatToStringInjective | src/components/MessagingSystem.tsx:120 | distinct numbers render as distinct decimal strings |
| Text.Capitalize | src/components/GuideBookings.tsx:154 | same length; the first character upper-cased, the rest unchanged |
| FindGuides.MatchesSearch | src/pages/FindGuides.tsx:105-107 | name, location or some specialization contains the query, ignoring case; stated by `FindGuides.SearchIff` through `Text.MatchesFieldsIsSearchHit` |
| FindGuides.Keep | src/pages/FindGuides.tsx:104-115 | the filter callback's early-return chain; what a kept guide satisfies is stated by `FindGuides.ResultSatisfiesCriteria` and `FindGuides.SearchIff` |
| FindGuides.FilterGuides | src/pages/FindGuides.tsx:103-118 | never longer than the input, and every listed guide passes `Keep`; membership, order and multiplicity are in `FilterGuidesMembership` and `FilterGuidesSubsequence` |
| FindGuides.FilterGuidesSubsequence | src/pages/FindGuides.tsx:103 | the result is an order-keeping sub-sequence, no guide more often than in the input |
| FindGuides.NoCriteriaKeepsAll | src/pages/FindGuides.tsx:103-118 | with no criteria set, every guide is listed in the original order |
| FindGuides.FilterGuidesMembership | src/pages/FindGuides.tsx:103-118 | a guide is listed iff it is in the input and passes every early-return check |
| FindGuides.SearchIff | src/pages/FindGuides.tsx:104-108 | for a non-empty query, a guide passing the other checks is kept iff the lower-cased query occurs in its name, location or some specialization |
| FindGuides.ResultSatisfiesCriteria | src/pages/FindGuides.tsx:104-115 | every listed guide matches the search, equals the location, meets the rating, lies in the inclusive price band and has the language and specialty, for each criterion set |
| FindGuides.UnparsedRatingImposesNothing | src/pages/FindGuides.tsx:112 | a rating that parses to NaN removes no guide |
| FindGuides.FilterGuidesIdempotent | src/pages/FindGuides.tsx:103-118 | filtering the result again with the same criteria returns it unchanged |
| FindGuides.DateAndGroupSizeIgnored | src/pages/FindGuides.tsx:103-118 | the date range and group size in the criteria do not affect the guide list |
| FindGuides.RatingMenuParses | src/components/SearchFilters.tsx:180-183 | the four rating menu entries read as 45, 40, 35 and 30 tenths |
| FindGuides.RatingAndPriceScenario | src/pages/FindGuides.tsx:112-113 | with two sample guides, a 4.0 minimum keeps both and a [0, 40] band keeps only the cheaper one |
| Itineraries.MatchesSearch | src/pages/Itineraries.tsx:113-115 | title, destination or some highlight contains the query, ignoring case; stated by `Itineraries.FilterItinerariesMembership` |
| Itineraries.MatchesDuration | src/pages/Itineraries.tsx:116-119 | the duration menu's buckets; stated by `Itineraries.DurationBuckets` and `Itineraries.BucketsPartition` |
| Itineraries.FilterItineraries | src/pages/Itineraries.tsx:112-121 | never longer than the input, and every listed itinerary matches the search and the duration |
| Itineraries.FilterItinerariesMembership | src/pages/Itineraries.tsx:112-121 | an itinerary is listed iff it is in the input, the search matches and the duration matches |
| Itineraries.FilterItinerariesSubsequence | src/pages/Itineraries.tsx:112-121 | the result is an order-keeping sub-sequence of the list |
| Itineraries.BucketsPartition | src/pages/Itineraries.tsx:117-119 | every integer duration lies in exactly one of the three day buckets |
| Itineraries.DurationBuckets | src/pages/Itineraries.tsx:116-119 | empty or "Any Duration" keeps all; "1-3 days" keeps d <= 3, "4-7 days" 4 <= d <= 7, "8+ days" d >= 8; any other value keeps none |
| Itineraries.EmptySearchKeepsAll | src/pages/Itineraries.tsx:113-116 | an empty search with no duration constraint lists every itinerary in order |
| Itineraries.UnknownDurationKeepsNone | src/pages/Itineraries.tsx:116-119 | an unknown non-empty duration value lists nothing |
| Itineraries.FoundCount | src/pages/Itineraries.tsx:179 | the count shown never exceeds the number of itineraries |
| Itineraries.BucketCountsAddUp | src/pages/Itineraries.tsx:116-120 | for any search, the three bucket counts add up to the "Any Duration" count |
| Destinations.MatchesSearch | src/pages/Destinations.tsx:124-126 | name, country or some highlight contains the query, ignoring case; stated by `Destinations.FilterDestinationsMembership` |
| Destinations.MatchesContinent | src/pages/Destinations.tsx:127 | empty, "All Continents" or the destination's own continent; stated through `Destinations.FilterDestinationsMembership` and `Destinations.NoConstraintKeepsAll` |
| Destinations.FilterDestinations | src/pages/Destinations.tsx:123-129 | never longer than the input, and every listed destination matches the search and the continent |
| Destinations.FilterDestinationsMembership | src/pages/Destinations.tsx:123-129 | a destination is listed iff it is in the input, the search matches and the continent is empty, "All Continents" or equal |
| Destinations.FilterDestinationsSubsequence | src/pages/Destinations.tsx:123-129 | the result is an order-keeping sub-sequence of the list |
| Destinations.AvailableCount | src/pages/Destinations.tsx:187 | the count shown never exceeds the number of destinations |
| Destinations.EmptySearchOnlyContinent | src/pages/Destinations.tsx:124-128 | with an empty search only the continent decides |
| Destinations.NoConstraintKeepsAll | src/pages/Destinations.tsx:127 | an empty search with an empty or "All Continents" menu lists every destination in order |
| Seqs.Filter | src/pages/FindGuides.tsx:103 | `Array.prototype.filter`: no longer than the input, every element kept passes; the sub-sequence, membership and multiplicity lemmas of `Seqs` state the rest |
| Seqs.Remove | src/components/SearchFilters.tsx:75 | `filter(f => f !== filter)`; its contract is `Seqs.RemoveSpec` |
| SearchFilters.Specialties | src/components/SearchFilters.tsx:51 | the itinerary specialties iff the panel type is itineraries, otherwise the guide specialties |
| SearchFilters.Label | src/components/SearchFilters.tsx:68 | the chip text is the type, then ": ", then the value |
| SearchFilters.LabelInjective | src/components/SearchFilters.tsx:68 | two chips of one type are equal iff their values are |
| SearchFilters.AddLabel | src/components/SearchFilters.tsx:67-72 | the label ends up present; a present label leaves the list unchanged; an absent one is appended at the end; no duplicate is ever introduced |
| SearchFilters.AddLabelIdempotent | src/components/SearchFilters.tsx:69-71 | adding the same chip twice equals adding it once |
| SearchFilters.RemoveUndoesAdd | src/components/SearchFilters.tsx:67-76 | removing a just-added new chip restores the list |
| Seqs.RemoveSpec | src/components/SearchFilters.tsx:75 | removal drops the chip, keeps every other chip in order, and keeps the list duplicate-free |
| SearchFilters.FilterPanel.constructor | src/components/SearchFilters.tsx:17-25 | the panel starts at its defaults with no chips |
| SearchFilters.FilterPanel.HandleFilterChange | src/components/SearchFilters.tsx:53-65 | emits exactly the eight current field values and changes nothing |
| SearchFilters.FilterPanel.AddFilter | src/components/SearchFilters.tsx:67-72 | the chip list becomes AddLabel of the old list, and stays duplicate-free |
| SearchFilters.FilterPanel.RemoveFilter | src/components/SearchFilters.tsx:74-76 | the chip list becomes the old list without that chip, and stays duplicate-free |
| SearchFilters.FilterPanel.ClearAllFilters | src/components/SearchFilters.tsx:78-89 | every field returns to its default, price [0, 500] and no chips, and the empty criteria record is emitted |
| SearchFilters.FilterPanel.SetSearchQuery | src/components/SearchFilters.tsx:99 | the search box sets the query |
| SearchFilters.FilterPanel.SelectLocation | src/components/SearchFilters.tsx:130-133 | sets the location and adds the "Location" chip |
| SearchFilters.FilterPanel.SetPriceRange | src/components/SearchFilters.tsx:154 | the slider sets the range and adds no chip |
| SearchFilters.FilterPanel.SelectRating | src/components/SearchFilters.tsx:172-175 | sets the rating and adds the "Rating: v+ stars" chip |
| SearchFilters.FilterPanel.SelectLanguage | src/components/SearchFilters.tsx:194-197 | sets the language and adds the "Language" chip |
| SearchFilters.FilterPanel.SetDateStart | src/components/SearchFilters.tsx:221 | sets the start date, keeping the end date |
| SearchFilters.FilterPanel.SetDateEnd | src/components/SearchFilters.tsx:229 | sets the end date, keeping the start date |
| SearchFilters.FilterPanel.SelectSpecialty | src/components/SearchFilters.tsx:239-242 | sets the specialty and adds the "Specialty" chip |
| SearchFilters.FilterPanel.SelectGroupSize | src/components/SearchFilters.tsx:260-263 | sets the group size and adds the "Group Size" chip |
| BookingCard.BasePrice | src/components/BookingCard.tsx:28 | the hourly rate for a guide, the price otherwise |
| BookingCard.DurationOrOne | src/components/BookingCard.tsx:30 | an unset duration counts as 1 |
| BookingCard.TotalPrice | src/components/BookingCard.tsx:29-31 | a total exists exactly when a group size is given; an empty group size is NaN |
| BookingCard.GuideTotal | src/components/BookingCard.tsx:29-30 | for a guide the total is rate x duration x group size, an unset duration pricing as 1 |
| BookingCard.FlatTotal | src/components/BookingCard.tsx:31 | for an itinerary or hotel the total is price x group size, whatever the duration |
| BookingCard.TotalGrowsPerPerson | src/components/BookingCard.tsx:29-31 | each extra person adds the one-person total |
| BookingCard.MenuTotalsAtLeastBase | src/components/BookingCard.tsx:139-159 | for menu choices (1..10 people, 2..8 hours) and a non-negative price, the total is at least the base price, and at least twice the rate for a guide |
| BookingCard.TotalExamples | src/components/BookingCard.tsx:29-31 | 45 x 2 hours x 3 people is 270; 100 x 2 people is 200 |
| BookingCard.EmptyGroupSizeIsNaN | src/components/BookingCard.tsx:30-31 | there is no total without a group size |
| BookingCard.Complete | src/components/BookingCard.tsx:34 | a date and a group size are both set; `BookingCard.BuildBooking` and `HandleBooking` refuse exactly the forms that are not complete |
| BookingCard.BuildBooking | src/components/BookingCard.tsx:34-54 | a record exists iff date and group size are set; its total equals the displayed total; its duration is the parsed duration (default 1) for a guide and the item's otherwise |
| BookingCard.BookingForm.DisplayedTotal | src/components/BookingCard.tsx:29-31 | the `totalPrice` shown on the card; `BeginBooking` and `HandleBooking` state that the submitted total equals it |
| BookingCard.BookingForm.constructor | src/components/BookingCard.tsx:20-25 | the form starts with group size 1, nothing else set, not booking |
| BookingCard.BookingForm.SetDate | src/components/BookingCard.tsx:124 | the date input sets the date |
| BookingCard.BookingForm.SelectGroupSize | src/components/BookingCard.tsx:134-143 | a menu group size sets the group size and makes the total defined |
| BookingCard.BookingForm.SelectDuration | src/components/BookingCard.tsx:154-163 | a menu duration sets the duration, at least 2 hours |
| BookingCard.BookingForm.SetSpecialRequests | src/components/BookingCard.tsx:175 | the text area sets the special requests |
| BookingCard.BookingForm.SetPaymentMethod | src/components/BookingCard.tsx:185 | the menu sets the payment method |
| BookingCard.BookingForm.BeginBooking | src/components/BookingCard.tsx:33-54 | an incomplete form is refused with the flag untouched; otherwise isBooking is raised and the record built, with the displayed total |
| BookingCard.BookingForm.FinishBooking | src/components/BookingCard.tsx:56-76 | the record is handed to the callback when there is one; the outcome is failure iff the callback throws; isBooking is lowered either way |
| BookingCard.BookingForm.HandleBooking | src/components/BookingCard.tsx:33-77 | refused iff the date or group size is missing, with nothing submitted; otherwise exactly the built record is submitted and the outcome is "Booking Confirmed" unless the callback throws; isBooking ends false |
| GuideBookings.WithStatus | src/components/GuideBookings.tsx:161 | `bookings.filter(b => b.status === status)`; stated by `GuideBookings.FilterBookingsSpec` and, for the counters, `GuideBookings.StatsSpec` |
| GuideBookings.FilterBookings | src/components/GuideBookings.tsx:159-162 | the tab's list; stated by `GuideBookings.FilterBookingsSpec` |
| GuideBookings.ComputeStats | src/components/GuideBookings.tsx:285-290 | the four counters; stated by `GuideBookings.StatsSpec` |
| GuideBookings.FilterBookingsSpec | src/components/GuideBookings.tsx:159-162 | "all" returns every booking; any other tab returns exactly the bookings of that status, in order, each as often as in the input |
| GuideBookings.StatusCountsBounded | src/components/GuideBookings.tsx:285-290 | the per-status counts together never exceed the number of bookings |
| GuideBookings.StatsSpec | src/components/GuideBookings.tsx:285-290 | total is the number of bookings, the other counters are the tab sizes, and pending + confirmed + completed <= total |
| GuideBookings.OfferedTransitions | src/components/GuideBookings.tsx:241-268 | the status-change buttons a card shows; stated by `GuideBookings.OfferedTransitionsSpec` and `GuideBookings.OfferedPathsAreShort` |
| GuideBookings.OfferedTransitionsSpec | src/components/GuideBookings.tsx:241-268 | pending offers exactly confirmed and rejected, confirmed offers only completed, others none; every offer moves forward |
| GuideBookings.OfferedPathsAreShort | src/components/GuideBookings.tsx:241-268 | any run of offered changes has at most two steps and ends rejected, completed, or confirmed after one step |
| GuideBookings.StatusBadge | src/components/GuideBookings.tsx:140-157 | `getStatusBadge`; stated by `GuideBookings.StatusBadgeSpec` |
| GuideBookings.StatusBadgeSpec | src/components/GuideBookings.tsx:140-157 | an unknown status gets the pending configuration; the text is the status with its first character upper-cased |
| GuideBookings.SuccessMessageAsWritten | src/components/GuideBookings.tsx:126 | the success message as written, shown by `BookingTable.UpdateBookingStatus`; stated by `GuideBookings.CompletedAnnouncedAsRejected` |
| GuideBookings.SuccessMessage | src/components/GuideBookings.tsx:126 | the corrected success message; stated by `GuideBookings.SuccessMessageDistinguishesOffers` |
| GuideBookings.CompletedAnnouncedAsRejected | src/components/GuideBookings.tsx:126 | as written, marking a booking completed shows "Booking rejected" |
| GuideBookings.SuccessMessageDistinguishesOffers | src/components/GuideBookings.tsx:126 | corrected: distinct offered changes get distinct messages; accept and reject read as in the source |
| GuideBookings.SetStatus | src/components/GuideBookings.tsx:117-120 | the bookings with that id take the new status; all others are unchanged |
| GuideBookings.BookingTable.constructor | src/components/GuideBookings.tsx:50 | the table holds the given bookings |
| GuideBookings.BookingTable.UpdateBookingStatus | src/components/GuideBookings.tsx:115-138 | on success the table holds the new status and the message as written is shown ("Booking rejected" for completed); on error nothing changes |
| GuideBookings.ConfirmMovesCount | src/components/GuideBookings.tsx:287-288 | confirming a pending booking with a unique id moves one from the pending count to the confirmed count |
| MessagingSystem.UpdatePreview | src/components/MessagingSystem.tsx:134-138 | only conversations whose id is the selected one take the new preview and time; the others are unchanged |
| MessagingSystem.UpdatePreviewOthersUnchanged | src/components/MessagingSystem.tsx:134-138 | with no conversation of the selected id, nothing changes |
| MessagingSystem.SenderId | src/components/MessagingSystem.tsx:121 | the `user?.id` fallback to "current-user": the user's id when it is present and non-empty, otherwise "current-user"; never empty |
| MessagingSystem.OutgoingMessage | src/components/MessagingSystem.tsx:119-128 | the message a send builds; stated by `MessagingSystem.SendAppendsOne` and `MessagingSystem.OutgoingIdsDistinct` |
| MessagingSystem.OutgoingIdsDistinct | src/components/MessagingSystem.tsx:120 | messages sent at distinct times get distinct ids |
| MessagingSystem.SendAppendsOne | src/components/MessagingSystem.tsx:119-130 | a send adds one unread text message with the untrimmed content at the end, earlier messages untouched; its sender is the user's id, or "current-user" when there is no user or the id is empty |
| MessagingSystem.Chat.constructor | src/components/MessagingSystem.tsx:36-105 | the chat starts with the given conversations, selection and messages, and an empty input |
| MessagingSystem.Chat.SetNewMessage | src/components/MessagingSystem.tsx:290 | typing sets the input |
| MessagingSystem.Chat.SelectConversation | src/components/MessagingSystem.tsx:165 | clicking a conversation selects it |
| MessagingSystem.Chat.SendMessage | src/components/MessagingSystem.tsx:116-139 | a blank-after-trim input changes nothing; otherwise one message is appended, the input cleared, and only the selected conversation's preview updated |
| MessagingSystem.FormatTime | src/components/MessagingSystem.tsx:143-151 | under a minute is "Just now", then minutes 1..59, then hours 1..23, then the date; the number is the floor of the difference |
| MessagingSystem.Render | src/components/MessagingSystem.tsx:147-150 | the text of each time label; stated by `MessagingSystem.RenderExamples` |
| MessagingSystem.FormatTimeMonotonic | src/components/MessagingSystem.tsx:147-150 | an older time never shows in a more recent bucket or with a smaller number |
| MessagingSystem.RenderExamples | src/components/MessagingSystem.tsx:147-149 | ten minutes shows "10m ago", two hours "2h ago", a negative difference "Just now" |
| GuideCalendar.GetDateStatus | src/components/GuideCalendar.tsx:108-115 | no record is no status, a record not available is booked, otherwise available |
| GuideCalendar.BookedDates | src/components/GuideCalendar.tsx:51-54 | the `bookedDates` list as a set; stated by `GuideCalendar.BookedDatesSpec` and `GuideCalendar.BookedDatesAfterToggle` |
| GuideCalendar.Toggled | src/components/GuideCalendar.tsx:68-87 | the table after a toggle; stated by `GuideCalendar.ToggledSpec` and `GuideCalendar.ToggleTwiceRestores` |
| GuideCalendar.BookedDatesSpec | src/components/GuideCalendar.tsx:51-54 | a date is booked iff its record says not available |
| GuideCalendar.ToggledSpec | src/components/GuideCalendar.tsx:68-87 | the toggled date flips, or becomes available when it had no record; every other date is unchanged |
| GuideCalendar.ToggleTwiceRestores | src/components/GuideCalendar.tsx:70-76 | toggling a recorded date twice restores the table |
| GuideCalendar.BookedDatesAfterToggle | src/components/GuideCalendar.tsx:51-87 | after a toggle the booked dates gain the date iff it was available, and lose it otherwise |
| GuideCalendar.Calendar.DateStatus | src/components/GuideCalendar.tsx:108-115 | the status of a date; with the calendar consistent, booked exactly when the date is among the shown booked dates |
| GuideCalendar.Calendar.constructor | src/components/GuideCalendar.tsx:21-26 | the calendar starts empty, with consistent booked dates |
| GuideCalendar.Calendar.LoadAvailability | src/components/GuideCalendar.tsx:34-61 | loaded rows replace the table and the booked dates are derived from them; on error nothing is replaced |
| GuideCalendar.Calendar.ToggleAvailability | src/components/GuideCalendar.tsx:63-106 | a no-op on another guide's calendar or on error; otherwise the table becomes the toggled table, with booked dates kept consistent |

## Findings

| source | as written | input that shows it | evidently intended | confidence | as-written member | corrected member |
|---|---|---|---|---|---|---|
| src/components/GuideBookings.tsx:126 | the success message says "accepted" for "confirmed" and "rejected" for every other new status | pressing "Mark as Completed" on a confirmed booking (new status "completed") | a completed booking is announced as completed, not rejected | not executed; high | GuideBookings.CompletedAnnouncedAsRejected | GuideBookings.SuccessMessageDistinguishesOffers |

`GuideBookings.SuccessMessageAsWritten` models the message as written, and
`BookingTable.UpdateBookingStatus` shows it, as the component does.
`GuideBookings.SuccessMessage` is the corrected wording, one per offered change.

## Left out

- Backend calls, realtime channels and subscriptions are not modelled. This covers `loadBookings`, `subscribeToBookings`, every `supabase.from(...)` call and all of GuideMessaging.tsx. Their effect appears only as an in-memory table plus a `backendFails` parameter.
- The order of reloaded bookings (`created_at` descending) is not modelled; `UpdateBookingStatus` keeps the table's order.
- In `loadAvailability`, the current-month window is left out because it depends on the clock.
- The generated schema types, the presentational components and the mock profile data are left out. They hold no behaviour.
- Case folding is ASCII only. JavaScript's full Unicode `toLowerCase` and `toUpperCase` are not modelled.
- FindGuides.UnparsedRatingImposesNothing: `parseFloat` is modelled only for "D+" and "D+.D" strings. A string such as "4.25" or "4abc" reads as NaN here, whereas JavaScript would read a number.
- Floating point is not modelled. Ratings are integers in tenths; prices and totals are unbounded integers, with no rounding.
- `Date.now()`, `new Date()` and `toLocaleDateString` become parameters. The send time is `now: nat`, and the date text is an opaque string in `MessagingSystem.Render`.
- The simulated two-second delay, the toasts and scrolling are not modelled. The toasts appear only as `Outcome` and `Notice` values. The card's "Send message" toast (`handleMessage`) is presentational.
- `toggleAvailability` is not modelled as an `await` between the update and the reload. The model applies the update and the reload as one step.
- In the calendar, a date maps to at most one record; the source's `find` takes the first of possibly several. The displayed `bookedDates` is a set of date strings, not a list of `Date` objects.
- `getStatusBadge` does not model JavaScript's prototype lookup. A status such as "constructor" would find an inherited property in the source; the model gives it the pending configuration.
- BookingCard.TotalPrice: `parseInt` coercion of arbitrary strings is not modelled. Group size and duration are `Option<nat>`, empty meaning unset.
