/**
 * The server-rendered booking pages: `booking_create` (form validation, the view's own
 * overlap re-check, then the save), the booking list and detail pages, and the tournament list.
 */
module Views {
  import opened Wrappers
  import opened Clock
  import opened Query
  import opened Models
  import opened Forms
  import opened Store

  /** The view's overlap test: `start_time__lt=end, end_time__gt=start`. */
  predicate ViewOverlaps(b: Booking, start: int, end: int)
  {
    b.start < end && b.end > start
  }

  /** The view's re-check query: confirmed bookings on the court and date overlapping the slot. */
  function Overlapping(rows: seq<Booking>, court: int, date: int, start: int, end: int): (r: seq<Booking>)
    ensures forall b :: b in r <==>
      b in rows && b.court.id == court && b.date == date && ViewOverlaps(b, start, end) && b.status == Confirmed
  {
    Filter(rows, (b: Booking) => b.court.id == court && b.date == date && ViewOverlaps(b, start, end) && b.status == Confirmed)
  }

  /** The two overlap tests, written differently in the form and the view, agree. */
  lemma OverlapTestsAgree(b: Booking, start: int, end: int)
    ensures Overlaps(start, end, b) <==> ViewOverlaps(b, start, end)
  {
  }

  predicate Complete(d: Draft)
  {
    d.court.Some? && d.date.Some? && d.start.Some? && d.end.Some? && d.players.Some?
  }

  /** Once `clean` has passed for a new booking, the view's re-check on the same table finds nothing. */
  lemma RecheckFindsNothing(d: Draft, rows: seq<Booking>)
    requires Complete(d) && Errors(d, None, rows) == []
    ensures Overlapping(rows, d.court.value.id, d.date.value, d.start.value, d.end.value) == []
  {
    CleanAcceptsIff(d, None, rows);
    var court, date, start, end := d.court.value.id, d.date.value, d.start.value, d.end.value;
    forall b | b in rows ensures !(b.court.id == court && b.date == date && ViewOverlaps(b, start, end) && b.status == Confirmed) {
      OverlapTestsAgree(b, start, end);
      if b.court.id == court && b.date == date && b.status == Confirmed {
        assert Competing(b, court, date, None);
      }
    }
    FirstIsMember(Overlapping(rows, court, date, start, end));
  }

  datatype CreatePage =
    | FormErrors(errors: seq<string>)
    | SlotTaken(message: string)
    | Redirect(to: string, message: string)
    | IntegrityError

  const SlotTakenMessage: string := "Selected slot is already booked for this court"
  const ConfirmedMessage: string := "Booking confirmed"

  /** What a POST to `booking_create` shows, and the table afterwards. */
  function CreateEffect(rows: seq<Booking>, nextId: int, user: int, d: Draft): (CreatePage, seq<Booking>)
    requires FieldsValid(d)
  {
    if !Complete(d) || Errors(d, None, rows) != [] then (FormErrors(Errors(d, None, rows)), rows)
    else
      var b := NewBooking(nextId, user, d.court.value, d.date.value, d.start.value, d.end.value, d.players.value);
      if Overlapping(rows, b.court.id, b.date, b.start, b.end) != [] then (SlotTaken(SlotTakenMessage), rows)
      else if !ConfirmedSlotsUnique(rows + [b]) then (IntegrityError, rows)
      else (Redirect("booking_list", ConfirmedMessage), rows + [b])
  }

  /**
   * `booking_create` on a POST: validate, re-check for overlaps, and save the booking for
   * the requesting user with the model's defaults (confirmed, total price 0).
   */
  method BookingCreate(table: BookingTable, user: int, d: Draft) returns (page: CreatePage)
    requires table.Valid() && FieldsValid(d)
    modifies table
    ensures table.Valid()
    ensures table.nextId == old(table.nextId) + (if |table.rows| > |old(table.rows)| then 1 else 0)
    ensures (page, table.rows) == CreateEffect(old(table.rows), old(table.nextId), user, d)
  {
    var outcome := Clean(d, None, table.rows);
    if outcome.Rejected? || !Complete(d) {
      page := FormErrors(if outcome.Rejected? then outcome.errors else []);
      return;
    }
    var booking := NewBooking(0, user, d.court.value, d.date.value, d.start.value, d.end.value, d.players.value);
    var overlaps := Overlapping(table.rows, booking.court.id, booking.date, booking.start, booking.end);
    if overlaps != [] {
      page := SlotTaken(SlotTakenMessage);
    } else {
      ghost var stored := booking.(id := table.nextId);
      assert stored == NewBooking(table.nextId, user, d.court.value, d.date.value, d.start.value, d.end.value, d.players.value);
      var id := table.Insert(booking);
      if id.Some? {
        page := Redirect("booking_list", ConfirmedMessage);
      } else {
        page := IntegrityError;
      }
    }
  }

  /** A booking saved from the form is confirmed and unpriced: this path never calls `calculate_price`. */
  lemma CreatedBookingIsUnpriced(rows: seq<Booking>, nextId: int, user: int, d: Draft)
    requires FieldsValid(d) && CreateEffect(rows, nextId, user, d).0.Redirect?
    ensures var after := CreateEffect(rows, nextId, user, d).1;
      after == rows + [after[|rows|]] &&
      after[|rows|].status == Confirmed && after[|rows|].totalPrice == 0.0 && after[|rows|].user == user &&
      MinPlayers <= after[|rows|].players <= MaxPlayers
  {
  }

  /** A successful create adds one confirmed booking that overlaps no confirmed booking on its court and date. */
  lemma CreateKeepsSlotsDisjoint(rows: seq<Booking>, nextId: int, user: int, d: Draft)
    requires SlotsDisjoint(rows) && FieldsValid(d)
    ensures SlotsDisjoint(CreateEffect(rows, nextId, user, d).1)
  {
    if CreateEffect(rows, nextId, user, d).0.Redirect? {
      var b := RedirectAppends(rows, nextId, user, d);
      AcceptedSlotIsFree(rows, d, b);
      AppendFreeKeepsDisjoint(rows, b);
    } else {
      RefusalKeepsRows(rows, nextId, user, d);
    }
  }

  /** Every outcome of a create other than the redirect leaves the table as it was. */
  lemma RefusalKeepsRows(rows: seq<Booking>, nextId: int, user: int, d: Draft)
    requires FieldsValid(d) && !CreateEffect(rows, nextId, user, d).0.Redirect?
    ensures CreateEffect(rows, nextId, user, d).1 == rows
  {
  }

  /** A create that redirects passed `clean` and appended the form's booking. */
  lemma RedirectAppends(rows: seq<Booking>, nextId: int, user: int, d: Draft) returns (b: Booking)
    requires FieldsValid(d) && CreateEffect(rows, nextId, user, d).0.Redirect?
    ensures Complete(d) && Errors(d, None, rows) == []
    ensures b.court == d.court.value && b.date == d.date.value && b.start == d.start.value && b.end == d.end.value
    ensures CreateEffect(rows, nextId, user, d).1 == rows + [b]
  {
    b := NewBooking(nextId, user, d.court.value, d.date.value, d.start.value, d.end.value, d.players.value);
  }

  /** A draft that passes `clean` overlaps no confirmed booking on its court and date. */
  lemma AcceptedSlotIsFree(rows: seq<Booking>, d: Draft, b: Booking)
    requires Complete(d) && Errors(d, None, rows) == []
    requires b.court == d.court.value && b.date == d.date.value && b.start == d.start.value && b.end == d.end.value
    ensures forall x :: x in rows && x.status == Confirmed && x.court.id == b.court.id && x.date == b.date ==>
      !Overlaps(b.start, b.end, x)
  {
    CleanAcceptsIff(d, None, rows);
    forall x | x in rows && x.status == Confirmed && x.court.id == b.court.id && x.date == b.date
      ensures !Overlaps(b.start, b.end, x)
    {
      assert Competing(x, b.court.id, b.date, None);
    }
  }

  /** Appending a booking that overlaps no confirmed booking on its court and date keeps the slots disjoint. */
  lemma AppendFreeKeepsDisjoint(rows: seq<Booking>, b: Booking)
    requires SlotsDisjoint(rows)
    requires forall x :: x in rows && x.status == Confirmed && x.court.id == b.court.id && x.date == b.date ==>
      !Overlaps(b.start, b.end, x)
    ensures SlotsDisjoint(rows + [b])
  {
    var after := rows + [b];
    forall i, j |
      0 <= i < |after| && 0 <= j < |after| && i != j &&
      after[i].status == Confirmed && after[j].status == Confirmed &&
      after[i].court.id == after[j].court.id && after[i].date == after[j].date
      ensures !Overlaps(after[i].start, after[i].end, after[j])
    {
      if i == |rows| {
        assert after[j] in rows;
      } else if j == |rows| {
        assert after[i] in rows;
      } else {
        assert after[i] == rows[i] && after[j] == rows[j];
      }
    }
  }

  /** A run of booking-form submissions, one (user, form) pair at a time, from a table state. */
  function CreateAll(rows: seq<Booking>, nextId: int, requests: seq<(int, Draft)>): seq<Booking>
    requires forall q :: q in requests ==> FieldsValid(q.1)
    decreases |requests|
  {
    if requests == [] then rows
    else
      var after := CreateEffect(rows, nextId, requests[0].0, requests[0].1).1;
      CreateAll(after, if |after| > |rows| then nextId + 1 else nextId, requests[1..])
  }

  /** After any sequence of form submissions, confirmed bookings on the same court and date are pairwise disjoint. */
  lemma {:induction false} CreatesKeepSlotsDisjoint(rows: seq<Booking>, nextId: int, requests: seq<(int, Draft)>)
    requires SlotsDisjoint(rows)
    requires forall q :: q in requests ==> FieldsValid(q.1)
    ensures SlotsDisjoint(CreateAll(rows, nextId, requests))
    decreases |requests|
  {
    if requests != [] {
      var after := CreateEffect(rows, nextId, requests[0].0, requests[0].1).1;
      CreateKeepsSlotsDisjoint(rows, nextId, requests[0].0, requests[0].1);
      CreatesKeepSlotsDisjoint(after, if |after| > |rows| then nextId + 1 else nextId, requests[1..]);
    }
  }

  /** `booking_list`: the user's bookings, latest date first, earliest start first within a day. */
  function BookingList(rows: seq<Booking>, user: int): (r: seq<Booking>)
    ensures multiset(r) == multiset(BookingsOf(rows, user))
    ensures forall b :: b in r <==> b in rows && b.user == user
    ensures forall i, j :: 0 <= i < j < |r| ==>
      r[i].date > r[j].date || (r[i].date == r[j].date && r[i].start <= r[j].start)
  {
    var mine := BookingsOf(rows, user);
    SortByMembers(mine, BookingOrder);
    SortBy(mine, BookingOrder)
  }

  /** `get_object_or_404(Booking, pk=pk, user=request.user)`: `None` is the 404. */
  function BookingDetail(rows: seq<Booking>, pk: int, user: int): (r: Option<Booking>)
    ensures r.Some? <==> exists b :: b in rows && b.id == pk && b.user == user
    ensures r.Some? ==> r.value in rows && r.value.id == pk && r.value.user == user
  {
    if rows == [] then None
    else if rows[0].id == pk && rows[0].user == user then Some(rows[0])
    else
      assert forall b :: b in rows <==> b == rows[0] || b in rows[1..];
      BookingDetail(rows[1..], pk, user)
  }

  function TournamentOrder(t: Tournament): Key
  {
    Key(t.startDate, 0)
  }

  /** `tournament_list`: the tournaments that are upcoming today, earliest start first. */
  function TournamentList(tournaments: seq<Tournament>, today: int): (r: seq<Tournament>)
    ensures forall t :: t in r <==> t in tournaments && IsUpcoming(t, today)
    ensures forall t :: multiset(r)[t] == if t.startDate >= today then multiset(tournaments)[t] else 0
    ensures forall i, j :: 0 <= i < j < |r| ==> r[i].startDate <= r[j].startDate
  {
    var upcoming := Filter(tournaments, (t: Tournament) => IsUpcoming(t, today));
    SortByMembers(upcoming, TournamentOrder);
    SortBy(upcoming, TournamentOrder)
  }
}
