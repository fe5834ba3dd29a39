/**
 * A guide's availability calendar (src/components/GuideCalendar.tsx). Dates are the
 * `yyyy-MM-dd` strings the component keys its records by; the backend table is an
 * in-memory map from date to record.
 */
module GuideCalendar {

  datatype Availability = Availability(isAvailable: bool, slotsBooked: nat)

  /** `getDateStatus`: nothing set, booked, or available. */
  datatype DateStatus = NotSet | Booked | Available

  function GetDateStatus(table: map<string, Availability>, date: string): (r: DateStatus)
    ensures r == NotSet <==> date !in table
    ensures r == Booked <==> date in table && !table[date].isAvailable
    ensures r == Available <==> date in table && table[date].isAvailable
  {
    if date !in table then NotSet
    else if !table[date].isAvailable then Booked
    else Available
  }

  /** `bookedDates`: the dates whose record says not available. */
  function BookedDates(table: map<string, Availability>): set<string>
  {
    set date | date in table && !table[date].isAvailable
  }

  /** The table after toggling `date`: flip an existing record, or add an available one. */
  function Toggled(table: map<string, Availability>, date: string): map<string, Availability>
  {
    if date in table then table[date := table[date].(isAvailable := !table[date].isAvailable)]
    else table[date := Availability(true, 0)]
  }

  // ------------------------------------------------------------------ properties

  lemma BookedDatesSpec(table: map<string, Availability>, date: string)
    ensures date in BookedDates(table) <==> GetDateStatus(table, date) == Booked
  {
  }

  /** Toggling changes the status of that date only: NotSet and Booked become Available, Available becomes Booked. */
  lemma ToggledSpec(table: map<string, Availability>, date: string, other: string)
    ensures GetDateStatus(Toggled(table, date), date) ==
      (if GetDateStatus(table, date) == Available then Booked else Available)
    ensures other != date ==> GetDateStatus(Toggled(table, date), other) == GetDateStatus(table, other)
    ensures other != date && other in table ==> other in Toggled(table, date) && Toggled(table, date)[other] == table[other]
    ensures Toggled(table, date).Keys == table.Keys + {date}
  {
  }

  /** Toggling a date that has a record twice restores the table. */
  lemma ToggleTwiceRestores(table: map<string, Availability>, date: string)
    requires date in table
    ensures Toggled(Toggled(table, date), date) == table
  {
    var once := Toggled(table, date);
    assert once[date].(isAvailable := !once[date].isAvailable) == table[date];
  }

  /** The booked dates after a toggle: the toggled date joins them exactly when it was available. */
  lemma BookedDatesAfterToggle(table: map<string, Availability>, date: string)
    ensures BookedDates(Toggled(table, date)) ==
      if GetDateStatus(table, date) == Available then BookedDates(table) + {date}
      else BookedDates(table) - {date}
  {
    var after := Toggled(table, date);
    forall d ensures d in BookedDates(after) <==>
      d in (if GetDateStatus(table, date) == Available then BookedDates(table) + {date} else BookedDates(table) - {date})
    {
      BookedDatesSpec(after, d);
      BookedDatesSpec(table, d);
      ToggledSpec(table, date, d);
    }
  }

  class Calendar {
    const isOwnCalendar: bool
    var availability: map<string, Availability>
    var bookedDates: set<string>

    /** The booked dates shown are those of the loaded records. */
    ghost predicate Valid()
      reads this
    {
      bookedDates == BookedDates(availability)
    }

    constructor (isOwnCalendar: bool)
      ensures this.isOwnCalendar == isOwnCalendar
      ensures Valid() && availability == map[]
    {
      this.isOwnCalendar := isOwnCalendar;
      availability := map[];
      bookedDates := {};
    }

    /** `loadAvailability` with the rows the backend returned; on an error nothing is replaced. */
    method LoadAvailability(rows: map<string, Availability>, backendFails: bool)
      requires Valid()
      modifies this
      ensures Valid()
      ensures backendFails ==> availability == old(availability) && bookedDates == old(bookedDates)
      ensures !backendFails ==> availability == rows && Valid()
    {
      if backendFails {
        return;
      }
      availability := rows;
      bookedDates := set date | date in rows && !rows[date].isAvailable;
    }

    /**
     * `toggleAvailability(date)` followed by the reload: a no-op on another guide's
     * calendar or on a backend error, otherwise the toggled table.
     */
    method ToggleAvailability(date: string, backendFails: bool)
      requires Valid()
      modifies this
      ensures Valid()
      ensures !isOwnCalendar || backendFails ==> availability == old(availability) && bookedDates == old(bookedDates)
      ensures isOwnCalendar && !backendFails ==> availability == Toggled(old(availability), date)
    {
      if !isOwnCalendar {
        return;
      }
      if backendFails {
        return;
      }
      var updated := if date in availability
        then availability[date := availability[date].(isAvailable := !availability[date].isAvailable)]
        else availability[date := Availability(true, 0)];
      LoadAvailability(updated, false);
    }

    /** The status the calendar shows agrees with the booked dates it keeps. */
    function DateStatus(date: string): (r: DateStatus)
      reads this
      ensures Valid() ==> (r == Booked <==> date in bookedDates)
    {
      GetDateStatus(availability, date)
    }
  }
}
