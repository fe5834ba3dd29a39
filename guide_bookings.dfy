/**
 * A guide's booking dashboard (src/components/GuideBookings.tsx): the status tabs,
 * the counters, the status badge, which status changes each card offers, and the
 * status update applied to an in-memory booking table.
 */
module GuideBookings {
  import Text
  import Seqs

  datatype Booking = Booking(
    id: string,
    bookingDate: string,
    status: string,
    totalAmount: int,
    groupSize: nat,
    specialRequests: string,
    paymentStatus: string,
    createdAt: string)

  const Pending := "pending"
  const Confirmed := "confirmed"
  const Rejected := "rejected"
  const Completed := "completed"
  const AllTab := "all"

  /** The bookings whose status is `status`, in order. */
  function WithStatus(bookings: seq<Booking>, status: string): seq<Booking>
  {
    Seqs.Filter(bookings, (b: Booking) => b.status == status)
  }

  /** `filterBookings(status)`: the "all" tab shows everything. */
  function FilterBookings(bookings: seq<Booking>, status: string): seq<Booking>
  {
    if status == AllTab then bookings else WithStatus(bookings, status)
  }

  datatype Stats = Stats(total: nat, pending: nat, confirmed: nat, completed: nat)

  /** `stats`. */
  function ComputeStats(bookings: seq<Booking>): Stats
  {
    Stats(|bookings|, |WithStatus(bookings, Pending)|, |WithStatus(bookings, Confirmed)|,
          |WithStatus(bookings, Completed)|)
  }

  // ------------------------------------------------------------------ tabs and counters

  lemma FilterBookingsSpec(bookings: seq<Booking>, status: string, b: Booking)
    ensures status == AllTab ==> FilterBookings(bookings, status) == bookings
    ensures status != AllTab ==> Seqs.IsSubsequence(FilterBookings(bookings, status), bookings)
    ensures status != AllTab ==> (b in FilterBookings(bookings, status) <==> b in bookings && b.status == status)
    ensures status != AllTab ==>
      multiset(FilterBookings(bookings, status))[b] == if b.status == status then multiset(bookings)[b] else 0
  {
    Seqs.FilterIsSubsequence(bookings, (x: Booking) => x.status == status);
    Seqs.FilterMembership(bookings, (x: Booking) => x.status == status, b);
    Seqs.FilterMultiplicity(bookings, (x: Booking) => x.status == status, b);
  }

  /** A booking is counted under at most one of pending, confirmed and completed. */
  lemma {:induction false} StatusCountsBounded(bookings: seq<Booking>)
    ensures |WithStatus(bookings, Pending)| + |WithStatus(bookings, Confirmed)|
          + |WithStatus(bookings, Completed)| + |WithStatus(bookings, Rejected)| <= |bookings|
  {
    if bookings != [] {
      StatusCountsBounded(bookings[1..]);
    }
  }

  /** The counters: total is the number of bookings and the three others never add up to more. */
  lemma StatsSpec(bookings: seq<Booking>)
    ensures ComputeStats(bookings).total == |bookings|
    ensures ComputeStats(bookings).pending == |FilterBookings(bookings, Pending)|
    ensures ComputeStats(bookings).confirmed == |FilterBookings(bookings, Confirmed)|
    ensures ComputeStats(bookings).completed == |FilterBookings(bookings, Completed)|
    ensures ComputeStats(bookings).pending + ComputeStats(bookings).confirmed
          + ComputeStats(bookings).completed <= ComputeStats(bookings).total
  {
    StatusCountsBounded(bookings);
  }

  // ------------------------------------------------------------------ offered status changes

  /** The buttons a card shows: Accept and Reject on a pending booking, Mark as Completed on a confirmed one. */
  function OfferedTransitions(status: string): seq<string>
  {
    if status == Pending then [Confirmed, Rejected]
    else if status == Confirmed then [Completed]
    else []
  }

  /** A booking's place in its lifecycle: pending, then confirmed, then done. */
  function Stage(status: string): nat
  {
    if status == Pending then 0 else if status == Confirmed then 1 else 2
  }

  lemma OfferedTransitionsSpec(status: string, next: string)
    ensures next in OfferedTransitions(status) <==>
      (status == Pending && (next == Confirmed || next == Rejected)) || (status == Confirmed && next == Completed)
    ensures next in OfferedTransitions(status) ==> Stage(next) > Stage(status)
    ensures status == Rejected || status == Completed ==> OfferedTransitions(status) == []
  {
  }

  /** `path` is a run of status changes, each offered by the card it starts from. */
  predicate OfferedPath(status: string, path: seq<string>)
    decreases |path|
  {
    path == [] || (path[0] in OfferedTransitions(status) && OfferedPath(path[0], path[1..]))
  }

  /** Every run of offered changes ends after at most two steps: the lifecycle has no cycle. */
  lemma {:induction false} OfferedPathsAreShort(status: string, path: seq<string>)
    requires OfferedPath(status, path)
    decreases |path|
    ensures |path| + Stage(status) <= 2
    ensures path != [] ==>
      (path[|path| - 1] == Rejected || path[|path| - 1] == Completed
       || (path[|path| - 1] == Confirmed && |path| + Stage(status) == 1))
  {
    if path != [] {
      OfferedTransitionsSpec(status, path[0]);
      OfferedPathsAreShort(path[0], path[1..]);
    }
  }

  // ------------------------------------------------------------------ badge

  datatype BadgeVariant = Default | Secondary | DestructiveBadge | Outline
  datatype Icon = AlertCircle | CheckCircle | XCircle
  datatype Badge = Badge(variant: BadgeVariant, icon: Icon, text: string)

  /** `getStatusBadge`: the configuration for the four known statuses, the pending one for any other. */
  function StatusBadge(status: string): Badge
  {
    var text := Text.Capitalize(status);
    if status == Confirmed then Badge(Default, CheckCircle, text)
    else if status == Rejected then Badge(DestructiveBadge, XCircle, text)
    else if status == Completed then Badge(Secondary, CheckCircle, text)
    else Badge(Outline, AlertCircle, text)
  }

  lemma StatusBadgeSpec(status: string)
    ensures status !in {Confirmed, Rejected, Completed} ==>
      StatusBadge(status).variant == StatusBadge(Pending).variant && StatusBadge(status).icon == StatusBadge(Pending).icon
    ensures |StatusBadge(status).text| == |status|
    ensures status != "" ==>
      StatusBadge(status).text[0] == Text.UpperChar(status[0]) && StatusBadge(status).text[1..] == status[1..]
    ensures StatusBadge(Pending).text == "Pending" && StatusBadge(Completed).text == "Completed"
  {
  }

  // ------------------------------------------------------------------ status update

  /** The success toast of `updateBookingStatus`, as written: anything but "confirmed" reads "rejected". */
  function SuccessMessageAsWritten(newStatus: string): string
  {
    "Booking " + (if newStatus == Confirmed then "accepted" else "rejected")
  }

  /** Marking a booking completed announces that it was rejected. */
  lemma CompletedAnnouncedAsRejected()
    ensures Completed in OfferedTransitions(Confirmed)
    ensures SuccessMessageAsWritten(Completed) == "Booking rejected"
    ensures SuccessMessageAsWritten(Completed) == SuccessMessageAsWritten(Rejected)
  {
  }

  /** The success toast as evidently intended: one wording per offered change. */
  function SuccessMessage(newStatus: string): string
  {
    "Booking " + (if newStatus == Confirmed then "accepted"
                  else if newStatus == Completed then "completed"
                  else "rejected")
  }

  /** Distinct offered changes are announced differently; accepting and rejecting read as before. */
  lemma SuccessMessageDistinguishesOffers(s1: string, n1: string, s2: string, n2: string)
    requires n1 in OfferedTransitions(s1) && n2 in OfferedTransitions(s2)
    ensures SuccessMessage(n1) == SuccessMessage(n2) <==> n1 == n2
    ensures n1 != Completed ==> SuccessMessage(n1) == SuccessMessageAsWritten(n1)
  {
    OfferedTransitionsSpec(s1, n1);
    OfferedTransitionsSpec(s2, n2);
    if n1 != n2 {
      var m1, m2 := SuccessMessage(n1), SuccessMessage(n2);
      assert m1[8] != m2[8];
    }
  }

  /** Set the status of every booking with the given id; all else is unchanged. */
  function SetStatus(bookings: seq<Booking>, id: string, newStatus: string): (r: seq<Booking>)
    ensures |r| == |bookings|
    ensures forall k :: 0 <= k < |r| && bookings[k].id == id ==> r[k] == bookings[k].(status := newStatus)
    ensures forall k :: 0 <= k < |r| && bookings[k].id != id ==> r[k] == bookings[k]
  {
    if bookings == [] then []
    else [if bookings[0].id == id then bookings[0].(status := newStatus) else bookings[0]]
         + SetStatus(bookings[1..], id, newStatus)
  }

  datatype Notice = Success(message: string) | Error(message: string)

  /** The guide's bookings, standing in for the `bookings` table the component reloads. */
  class BookingTable {
    var bookings: seq<Booking>

    constructor (initial: seq<Booking>)
      ensures bookings == initial
    {
      bookings := initial;
    }

    /**
     * `updateBookingStatus`: on success the table holds the new status (what the
     * reload after the update shows) and the toast reads as written, so that a
     * completed booking is announced as rejected; on a backend error nothing changes.
     */
    method UpdateBookingStatus(id: string, newStatus: string, backendFails: bool) returns (notice: Notice)
      modifies this
      ensures backendFails ==> bookings == old(bookings) && notice == Error("Failed to update booking status")
      ensures !backendFails ==> bookings == SetStatus(old(bookings), id, newStatus)
      ensures !backendFails ==> notice == Success(SuccessMessageAsWritten(newStatus))
    {
      if backendFails {
        notice := Error("Failed to update booking status");
        return;
      }
      bookings := SetStatus(bookings, id, newStatus);
      notice := Success(SuccessMessageAsWritten(newStatus));
    }
  }

  /** No two bookings share an id. */
  predicate UniqueIds(bookings: seq<Booking>)
  {
    forall i, j :: 0 <= i < j < |bookings| ==> bookings[i].id != bookings[j].id
  }

  lemma SetStatusAbsent(bookings: seq<Booking>, id: string, newStatus: string)
    requires forall k :: 0 <= k < |bookings| ==> bookings[k].id != id
    ensures SetStatus(bookings, id, newStatus) == bookings
  {
  }

  /** Confirming a pending booking moves it from the pending count to the confirmed count. */
  lemma {:induction false} ConfirmMovesCount(bookings: seq<Booking>, id: string, k: nat)
    requires UniqueIds(bookings)
    requires k < |bookings| && bookings[k].id == id && bookings[k].status == Pending
    ensures |WithStatus(SetStatus(bookings, id, Confirmed), Pending)| + 1 == |WithStatus(bookings, Pending)|
    ensures |WithStatus(SetStatus(bookings, id, Confirmed), Confirmed)| == |WithStatus(bookings, Confirmed)| + 1
  {
    var head, tail := bookings[0], bookings[1..];
    var after := SetStatus(bookings, id, Confirmed);
    assert after == [after[0]] + SetStatus(tail, id, Confirmed);
    if k == 0 {
      SetStatusAbsent(tail, id, Confirmed);
      assert after[0].status == Confirmed;
    } else {
      assert head.id != id;
      ConfirmMovesCount(tail, id, k - 1);
    }
  }
}
