/**
 * The booking form (src/components/BookingCard.tsx): the displayed price, the
 * required-field check, the booking record handed to the page, and the
 * `isBooking` flag that is up while a booking is in flight.
 */
module BookingCard {
  import opened Wrappers

  /** The `type` property: guides are priced per hour, the others per person. */
  datatype ServiceType = Guide | ItineraryService | Hotel

  /** The fields of `item` the form reads. */
  datatype Item = Item(id: nat, hourlyRate: int, price: int, duration: Option<int>)

  /** The choices of the group-size and duration menus. */
  const GroupSizeOptions: seq<nat> := [1, 2, 3, 4, 5, 6, 7, 8, 9, 10]
  const DurationOptions: seq<nat> := [2, 3, 4, 5, 6, 7, 8]

  /** `basePrice`: the hourly rate for a guide, the price per person otherwise. */
  function BasePrice(kind: ServiceType, item: Item): (r: int)
    ensures kind == Guide ==> r == item.hourlyRate
    ensures kind != Guide ==> r == item.price
  {
    if kind == Guide then item.hourlyRate else item.price
  }

  /** `parseInt(duration || "1")`: an unset duration counts as one hour. */
  function DurationOrOne(duration: Option<nat>): (r: nat)
    ensures duration.None? ==> r == 1
    ensures duration.Some? ==> r == duration.value
  {
    duration.GetOr(1)
  }

  /**
   * `totalPrice`. The group size is read with `parseInt(groupSize)` and no default,
   * so an empty group size gives `NaN`, modelled as `None`.
   */
  function TotalPrice(kind: ServiceType, item: Item, duration: Option<nat>, groupSize: Option<nat>): (r: Option<int>)
    ensures r.Some? <==> groupSize.Some?
  {
    match groupSize
    case None => None
    case Some(g) =>
      if kind == Guide then Some(BasePrice(kind, item) * DurationOrOne(duration) * g)
      else Some(BasePrice(kind, item) * g)
  }

  /** The record handed to `onBookingSubmit`. */
  datatype BookingData = BookingData(
    kind: ServiceType,
    itemId: nat,
    date: string,
    groupSize: nat,
    duration: Option<int>,
    specialRequests: string,
    totalAmount: int,
    paymentMethod: string)

  /** The form's inputs. */
  datatype Form = Form(
    selectedDate: string,
    groupSize: Option<nat>,
    duration: Option<nat>,
    specialRequests: string,
    paymentMethod: string)

  /** Both the date and the group size are required. */
  predicate Complete(f: Form)
  {
    f.selectedDate != "" && f.groupSize.Some?
  }

  /** `bookingData`, built only once the required fields are present (the early return otherwise). */
  function BuildBooking(kind: ServiceType, item: Item, f: Form): (r: Option<BookingData>)
    ensures r.Some? <==> Complete(f)
    ensures r.Some? ==> TotalPrice(kind, item, f.duration, f.groupSize) == Some(r.value.totalAmount)
    ensures r.Some? ==> r.value.date == f.selectedDate && r.value.groupSize == f.groupSize.value
    ensures r.Some? ==> r.value.kind == kind && r.value.itemId == item.id
    ensures r.Some? && kind == Guide ==> r.value.duration == Some(DurationOrOne(f.duration) as int)
    ensures r.Some? && kind != Guide ==> r.value.duration == item.duration
    ensures r.Some? ==> r.value.specialRequests == f.specialRequests && r.value.paymentMethod == f.paymentMethod
  {
    if !Complete(f) then None
    else
      var total := TotalPrice(kind, item, f.duration, f.groupSize).value;
      Some(BookingData(kind, item.id, f.selectedDate, f.groupSize.value,
                       if kind == Guide then Some(DurationOrOne(f.duration) as int) else item.duration,
                       f.specialRequests, total, f.paymentMethod))
  }

  // ------------------------------------------------------------------ properties of the price

  /** For a guide the total is rate x hours x people, an unset duration counting as one hour. */
  lemma GuideTotal(item: Item, duration: Option<nat>, g: nat)
    ensures TotalPrice(Guide, item, duration, Some(g)) == Some(item.hourlyRate * DurationOrOne(duration) * g)
    ensures TotalPrice(Guide, item, None, Some(g)) == TotalPrice(Guide, item, Some(1), Some(g))
  {
  }

  /** For an itinerary or a hotel the total is price x people, whatever the duration. */
  lemma FlatTotal(kind: ServiceType, item: Item, d1: Option<nat>, d2: Option<nat>, g: nat)
    requires kind != Guide
    ensures TotalPrice(kind, item, d1, Some(g)) == Some(item.price * g)
    ensures TotalPrice(kind, item, d1, Some(g)) == TotalPrice(kind, item, d2, Some(g))
  {
  }

  /** One more person adds the price of one person (for a guide: rate x hours). */
  lemma TotalGrowsPerPerson(kind: ServiceType, item: Item, duration: Option<nat>, g: nat)
    ensures TotalPrice(kind, item, duration, Some(g + 1)).value
         == TotalPrice(kind, item, duration, Some(g)).value + TotalPrice(kind, item, duration, Some(1)).value
  {
    var b := BasePrice(kind, item);
    if kind == Guide {
      var d := DurationOrOne(duration);
      assert b * d * (g + 1) == b * d * g + b * d * 1;
    } else {
      assert b * (g + 1) == b * g + b * 1;
    }
  }

  lemma MulMonotone(a: int, x: int, y: int)
    requires 0 <= a && x <= y
    ensures a * x <= a * y
  {
  }

  /** With a non-negative price, every choice on the menus gives a total of at least the base price. */
  lemma MenuTotalsAtLeastBase(kind: ServiceType, item: Item, d: nat, g: nat)
    requires 0 <= BasePrice(kind, item)
    requires d in DurationOptions && g in GroupSizeOptions
    ensures BasePrice(kind, item) <= TotalPrice(kind, item, Some(d), Some(g)).value
    ensures kind == Guide ==> 2 * BasePrice(kind, item) <= TotalPrice(kind, item, Some(d), Some(g)).value
  {
    var b := BasePrice(kind, item);
    assert 2 <= d && 1 <= g;
    if kind == Guide {
      MulMonotone(b, 2, d);
      var bd := b * d;
      MulMonotone(bd, 1, g);
      assert TotalPrice(kind, item, Some(d), Some(g)).value == bd * g;
    } else {
      MulMonotone(b, 1, g);
      assert TotalPrice(kind, item, Some(d), Some(g)).value == b * g;
    }
  }

  /** Two worked examples: a guide at 45 for 3 people and 2 hours, a trip at 100 for 2 people. */
  lemma TotalExamples()
    ensures TotalPrice(Guide, Item(1, 45, 0, None), Some(2), Some(3)) == Some(270)
    ensures TotalPrice(ItineraryService, Item(2, 0, 100, None), None, Some(2)) == Some(200)
  {
  }

  /** An empty group size shows `NaN` even for a guide with a duration. */
  lemma EmptyGroupSizeIsNaN(kind: ServiceType, item: Item, duration: Option<nat>)
    ensures TotalPrice(kind, item, duration, None) == None
  {
  }

  // ------------------------------------------------------------------ the form

  /** The outcome of pressing "Book": refused (toast "Missing Information"), confirmed, or failed. */
  datatype Outcome = MissingInformation | Confirmed | Failed

  class BookingForm {
    const kind: ServiceType
    const item: Item
    var selectedDate: string
    var groupSize: Option<nat>
    var duration: Option<nat>
    var specialRequests: string
    var paymentMethod: string
    var isBooking: bool
    /** The records handed to `onBookingSubmit`, oldest first. */
    var submitted: seq<BookingData>

    function CurrentForm(): Form
      reads this
    {
      Form(selectedDate, groupSize, duration, specialRequests, paymentMethod)
    }

    /** The total shown on the card. */
    function DisplayedTotal(): Option<int>
      reads this
    {
      TotalPrice(kind, item, duration, groupSize)
    }

    /** The card's initial state: group size 1, everything else empty. */
    constructor (kind: ServiceType, item: Item)
      ensures this.kind == kind && this.item == item
      ensures selectedDate == "" && groupSize == Some(1) && duration == None
      ensures specialRequests == "" && paymentMethod == ""
      ensures !isBooking && submitted == []
    {
      this.kind, this.item := kind, item;
      selectedDate, groupSize, duration := "", Some(1), None;
      specialRequests, paymentMethod := "", "";
      isBooking, submitted := false, [];
    }

    /** The date input. */
    method SetDate(date: string)
      modifies this`selectedDate
      ensures selectedDate == date
    {
      selectedDate := date;
    }

    /** The group-size menu. */
    method SelectGroupSize(size: nat)
      requires size in GroupSizeOptions
      modifies this`groupSize
      ensures groupSize == Some(size) && DisplayedTotal().Some?
    {
      groupSize := Some(size);
    }

    /** The duration menu, shown for guides only. */
    method SelectDuration(hours: nat)
      requires kind == Guide && hours in DurationOptions
      modifies this`duration
      ensures duration == Some(hours) && DurationOrOne(duration) >= 2
    {
      duration := Some(hours);
    }

    method SetSpecialRequests(text: string)
      modifies this`specialRequests
      ensures specialRequests == text
    {
      specialRequests := text;
    }

    method SetPaymentMethod(choice: string)
      modifies this`paymentMethod
      ensures paymentMethod == choice
    {
      paymentMethod := choice;
    }

    /**
     * The part of `handleBooking` before the `await`: refuse an incomplete form,
     * otherwise raise `isBooking` and build the record.
     */
    method BeginBooking() returns (data: Option<BookingData>)
      modifies this`isBooking
      ensures data == BuildBooking(kind, item, CurrentForm())
      ensures data.None? ==> isBooking == old(isBooking)
      ensures data.Some? ==> isBooking && data.value.totalAmount == DisplayedTotal().value
    {
      if selectedDate == "" || groupSize.None? {
        data := None;
        return;
      }
      isBooking := true;
      var total := TotalPrice(kind, item, duration, groupSize).value;
      data := Some(BookingData(kind, item.id, selectedDate, groupSize.value,
                               if kind == Guide then Some(DurationOrOne(duration) as int) else item.duration,
                               specialRequests, total, paymentMethod));
    }

    /**
     * The part after the `await`: hand the record to the page when it passed a
     * callback, report the outcome, and in the `finally` block lower `isBooking`.
     * `callbackThrows` stands for the page's callback throwing.
     */
    method FinishBooking(data: BookingData, hasCallback: bool, callbackThrows: bool) returns (outcome: Outcome)
      modifies this`isBooking, this`submitted
      ensures !isBooking
      ensures submitted == if hasCallback then old(submitted) + [data] else old(submitted)
      ensures outcome == if hasCallback && callbackThrows then Failed else Confirmed
    {
      outcome := Confirmed;
      if hasCallback {
        submitted := submitted + [data];
        if callbackThrows {
          outcome := Failed;
        }
      }
      isBooking := false;
    }

    /** `handleBooking` from the click to the `finally` block. */
    method HandleBooking(hasCallback: bool, callbackThrows: bool) returns (outcome: Outcome)
      requires !isBooking
      modifies this`isBooking, this`submitted
      ensures !isBooking
      ensures outcome == MissingInformation <==> !Complete(CurrentForm())
      ensures Complete(CurrentForm()) ==> outcome == if hasCallback && callbackThrows then Failed else Confirmed
      ensures outcome == MissingInformation ==> submitted == old(submitted)
      ensures outcome != MissingInformation && hasCallback ==>
        submitted == old(submitted) + [BuildBooking(kind, item, CurrentForm()).value]
      ensures outcome != MissingInformation && hasCallback ==>
        submitted[|submitted| - 1].totalAmount == DisplayedTotal().value
      ensures !hasCallback ==> submitted == old(submitted)
    {
      var data := BeginBooking();
      if data.None? {
        return MissingInformation;
      }
      outcome := FinishBooking(data.value, hasCallback, callbackThrows);
    }
  }
}
