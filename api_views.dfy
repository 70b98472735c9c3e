/**
 * The REST booking endpoints: a user's booking queryset, the upcoming and past lists, the
 * cancel action, and a venue's per-court availability for a date.
 */
module ApiViews {
  import opened Wrappers
  import opened Clock
  import opened Query
  import opened Models
  import opened Forms
  import opened Store

  function UpcomingOrder(b: Booking): Key
  {
    Key(b.date, b.start)
  }

  function PastOrder(b: Booking): Key
  {
    Key(-b.date, -(b.start as int))
  }

  /** `upcoming`: the user's confirmed bookings from today on, by date then start time. */
  function Upcoming(rows: seq<Booking>, user: int, today: int): (r: seq<Booking>)
    ensures forall b :: b in r <==> b in rows && b.user == user && b.date >= today && b.status == Confirmed
    ensures forall b :: multiset(r)[b] == if b.user == user && b.date >= today && b.status == Confirmed then multiset(rows)[b] else 0
    ensures forall i, j :: 0 <= i < j < |r| ==>
      r[i].date < r[j].date || (r[i].date == r[j].date && r[i].start <= r[j].start)
  {
    var rs := Filter(rows, (b: Booking) => b.user == user && b.date >= today && b.status == Confirmed);
    SortByMembers(rs, UpcomingOrder);
    SortBy(rs, UpcomingOrder)
  }

  /** `past`: the user's bookings of any status before today, latest date and start first. */
  function Past(rows: seq<Booking>, user: int, today: int): (r: seq<Booking>)
    ensures forall b :: b in r <==> b in rows && b.user == user && b.date < today
    ensures forall b :: multiset(r)[b] == if b.user == user && b.date < today then multiset(rows)[b] else 0
    ensures forall i, j :: 0 <= i < j < |r| ==>
      r[i].date > r[j].date || (r[i].date == r[j].date && r[i].start >= r[j].start)
  {
    var rs := Filter(rows, (b: Booking) => b.user == user && b.date < today);
    SortByMembers(rs, PastOrder);
    SortBy(rs, PastOrder)
  }

  /** Upcoming and past split the user's confirmed bookings by date: every one is in exactly one list. */
  lemma UpcomingPastPartition(rows: seq<Booking>, user: int, today: int, b: Booking)
    requires b in rows && b.user == user && b.status == Confirmed
    ensures (b in Upcoming(rows, user, today)) != (b in Past(rows, user, today))
  {
  }

  datatype ApiResponse =
    | Ok200(message: string)
    | BadRequest400(error: string)
    | Forbidden403(error: string)
    | NotFound404
    | ServerError500

  /** `get_object()` through `get_queryset()`: the position of the requester's booking with the key. */
  function FindOwn(rows: seq<Booking>, pk: int, user: int): (r: Option<nat>)
    ensures r.Some? ==> r.value < |rows| && rows[r.value].id == pk && rows[r.value].user == user
    ensures r.None? <==> forall b :: b in rows ==> !(b.id == pk && b.user == user)
  {
    if rows == [] then None
    else if rows[|rows| - 1].id == pk && rows[|rows| - 1].user == user then Some(|rows| - 1)
    else
      assert rows == rows[..|rows| - 1] + [rows[|rows| - 1]];
      FindOwn(rows[..|rows| - 1], pk, user)
  }

  /** The response of `cancel` and the table afterwards. */
  function CancelEffect(rows: seq<Booking>, requester: int, pk: int): (ApiResponse, seq<Booking>)
  {
    match FindOwn(rows, pk, requester)
    case None => (NotFound404, rows)
    case Some(i) =>
      if rows[i].user != requester then (Forbidden403("Not authorized"), rows)
      else if rows[i].status == Cancelled then (BadRequest400("Already cancelled"), rows)
      else
        var after := rows[i := rows[i].(status := Cancelled)];
        if ConfirmedSlotsUnique(after) then (Ok200("Booking cancelled"), after) else (ServerError500, rows)
  }

  /** `BookingViewSet.cancel`. */
  method Cancel(table: BookingTable, requester: int, pk: int) returns (resp: ApiResponse)
    requires table.Valid()
    modifies table
    ensures table.Valid()
    ensures table.nextId == old(table.nextId)
    ensures (resp, table.rows) == CancelEffect(old(table.rows), requester, pk)
  {
    var found := FindOwn(table.rows, pk, requester);
    if found.None? {
      return NotFound404;
    }
    var booking := table.rows[found.value];
    if booking.user != requester {
      return Forbidden403("Not authorized");
    }
    if booking.status == Cancelled {
      return BadRequest400("Already cancelled");
    }
    var ok := table.Save(found.value, booking.(status := Cancelled));
    resp := if ok then Ok200("Booking cancelled") else ServerError500;
  }

  /**
   * Someone else's booking is not in the requester's queryset, so the answer is a 404 and the
   * ownership check after it never fires.
   */
  lemma CancelByNonOwner(rows: seq<Booking>, requester: int, pk: int)
    requires forall b :: b in rows && b.id == pk ==> b.user != requester
    ensures CancelEffect(rows, requester, pk) == (NotFound404, rows)
  {
  }

  lemma CancelNeverForbidden(rows: seq<Booking>, requester: int, pk: int)
    ensures !CancelEffect(rows, requester, pk).0.Forbidden403?
  {
  }

  /** Cancelling a cancelled booking is refused and changes nothing. */
  lemma CancelAlreadyCancelled(rows: seq<Booking>, requester: int, pk: int, i: nat)
    requires i < |rows| && rows[i].id == pk && rows[i].user == requester && rows[i].status == Cancelled
    requires IdsDistinct(rows)
    ensures CancelEffect(rows, requester, pk) == (BadRequest400("Already cancelled"), rows)
  {
    var j := FindOwn(rows, pk, requester).value;
    assert j == i;
  }

  /**
   * Under the slot constraint the table keeps, cancelling one's own booking that is not yet
   * cancelled always succeeds, from any status, completed included, and touches only that row.
   */
  lemma CancelSucceeds(rows: seq<Booking>, requester: int, pk: int, i: nat)
    requires i < |rows| && rows[i].id == pk && rows[i].user == requester && rows[i].status != Cancelled
    requires IdsDistinct(rows) && ConfirmedSlotsUnique(rows)
    ensures CancelEffect(rows, requester, pk) == (Ok200("Booking cancelled"), rows[i := rows[i].(status := Cancelled)])
  {
    var j := FindOwn(rows, pk, requester).value;
    assert j == i;
    var after := rows[i := rows[i].(status := Cancelled)];
    assert ConfirmedSlotsUnique(after) by {
      forall a, b | 0 <= a < |after| && 0 <= b < |after| && a != b &&
        after[a].status == Confirmed && after[b].status == Confirmed
        ensures !(after[a].court.id == after[b].court.id && after[a].date == after[b].date && after[a].start == after[b].start)
      {
        assert after[a] == rows[a] && after[b] == rows[b];
      }
    }
  }

  /** Cancelling never brings two confirmed bookings into overlap. */
  lemma CancelKeepsSlotsDisjoint(rows: seq<Booking>, requester: int, pk: int)
    requires SlotsDisjoint(rows)
    ensures SlotsDisjoint(CancelEffect(rows, requester, pk).1)
  {
    var after := CancelEffect(rows, requester, pk).1;
    forall a, b |
      0 <= a < |after| && 0 <= b < |after| && a != b &&
      after[a].status == Confirmed && after[b].status == Confirmed &&
      after[a].court.id == after[b].court.id && after[a].date == after[b].date
      ensures !Overlaps(after[a].start, after[a].end, after[b])
    {
      assert after[a] == rows[a] && after[b] == rows[b];
    }
  }

  /**
   * As written, `unique_together` includes the status, so two cancelled bookings of one slot
   * collide: a user who booked a slot, cancelled, booked it again and cancels again has the
   * second cancellation refused by the database.
   */
  lemma SecondCancelRefusedAsWritten()
    ensures var court := NewCourt(1, 1, "Court 1");
      var first := NewBooking(1, 5, court, 100, 36000, 39600, 8).(status := Cancelled);
      var second := NewBooking(2, 5, court, 100, 36000, 39600, 8);
      var rows := [first, second];
      && UniqueTogether(rows)
      && FindOwn(rows, 2, 5) == Some(1)
      && !UniqueTogether(rows[1 := second.(status := Cancelled)])
      && CancelEffect(rows, 5, 2).0 == Ok200("Booking cancelled")
  {
    var court := NewCourt(1, 1, "Court 1");
    var first := NewBooking(1, 5, court, 100, 36000, 39600, 8).(status := Cancelled);
    var second := NewBooking(2, 5, court, 100, 36000, 39600, 8);
    var rows := [first, second];
    var after := rows[1 := second.(status := Cancelled)];
    assert after[0].court.id == after[1].court.id && after[0].date == after[1].date &&
      after[0].start == after[1].start && after[0].status == after[1].status;
    assert ConfirmedSlotsUnique(after);
  }

  /** One court's entry in the availability response. */
  datatype CourtSlots = CourtSlots(courtName: string, bookedSlots: seq<(string, string)>)

  datatype AvailabilityResponse = AvailabilityError(error: string) | AvailabilityMap(courts: map<int, CourtSlots>)

  /** `{'start': str(s), 'end': str(e)}` for each confirmed booking on the court and date, in query order. */
  function BookedSlots(rows: seq<Booking>, court: int, date: int): (r: seq<(string, string)>)
    ensures |r| == |Candidates(rows, court, date, None)|
    ensures forall k :: 0 <= k < |r| ==>
      var b := Candidates(rows, court, date, None)[k];
      r[k] == (HhMmSs(b.start), HhMmSs(b.end))
  {
    var bs := Candidates(rows, court, date, None);
    seq(|bs|, k requires 0 <= k < |bs| => (HhMmSs(bs[k].start), HhMmSs(bs[k].end)))
  }

  /**
   * `VenueViewSet.availability` for the venue whose courts are `courts`.  `dateParam` is the
   * raw query parameter ("" when absent) and `parsed` what `strptime(dateParam, '%Y-%m-%d')` gives.
   */
  method Availability(courts: seq<Court>, rows: seq<Booking>, dateParam: string, parsed: Option<int>)
    returns (resp: AvailabilityResponse)
    requires forall i, j :: 0 <= i < j < |courts| ==> courts[i].id != courts[j].id
    ensures dateParam == "" <==> resp == AvailabilityError("date parameter required")
    ensures dateParam != "" && parsed.None? <==> resp == AvailabilityError("Invalid date format (use YYYY-MM-DD)")
    ensures dateParam != "" && parsed.Some? <==> resp.AvailabilityMap?
    ensures resp.AvailabilityMap? ==>
      && parsed.Some?
      && resp.courts.Keys == (set c | c in courts && c.active :: c.id)
      && forall c :: c in courts && c.active ==>
           resp.courts[c.id] == CourtSlots(c.name, BookedSlots(rows, c.id, parsed.value))
  {
    if dateParam == "" {
      return AvailabilityError("date parameter required");
    }
    if parsed.None? {
      return AvailabilityError("Invalid date format (use YYYY-MM-DD)");
    }
    var active := Filter(courts, (c: Court) => c.active);
    ActiveIdsDistinct(courts, active);
    var availability := CollectAvailability(active, rows, parsed.value);
    resp := AvailabilityMap(availability);
  }

  /** The loop of `availability` over the active courts, filling the response dictionary. */
  method CollectAvailability(active: seq<Court>, rows: seq<Booking>, date: int) returns (availability: map<int, CourtSlots>)
    requires forall c, d :: c in active && d in active && c.id == d.id ==> c == d
    ensures availability.Keys == (set c | c in active :: c.id)
    ensures forall c :: c in active ==> availability[c.id] == CourtSlots(c.name, BookedSlots(rows, c.id, date))
  {
    availability := map[];
    var i := 0;
    while i < |active|
      invariant 0 <= i <= |active|
      invariant availability.Keys == (set c | c in active[..i] :: c.id)
      invariant forall c :: c in active[..i] ==> availability[c.id] == CourtSlots(c.name, BookedSlots(rows, c.id, date))
    {
      var court := active[i];
      AvailabilityStep(active, rows, date, i, availability);
      availability := availability[court.id := CourtSlots(court.name, BookedSlots(rows, court.id, date))];
      i := i + 1;
    }
    assert active[..i] == active;
  }

  /** Adding the entry of court `i` extends the response to the first `i + 1` courts. */
  lemma AvailabilityStep(active: seq<Court>, rows: seq<Booking>, date: int, i: nat, availability: map<int, CourtSlots>)
    requires i < |active|
    requires forall c, d :: c in active && d in active && c.id == d.id ==> c == d
    requires availability.Keys == (set c | c in active[..i] :: c.id)
    requires forall c :: c in active[..i] ==> availability[c.id] == CourtSlots(c.name, BookedSlots(rows, c.id, date))
    ensures var next := availability[active[i].id := CourtSlots(active[i].name, BookedSlots(rows, active[i].id, date))];
      && next.Keys == (set c | c in active[..i + 1] :: c.id)
      && forall c :: c in active[..i + 1] ==> next[c.id] == CourtSlots(c.name, BookedSlots(rows, c.id, date))
  {
    var court := active[i];
    var next := availability[court.id := CourtSlots(court.name, BookedSlots(rows, court.id, date))];
    IdsStep(active, i);
    assert next.Keys == availability.Keys + {court.id};
    forall c | c in active[..i + 1] ensures next[c.id] == CourtSlots(c.name, BookedSlots(rows, c.id, date)) {
      PrefixStep(active, i, c);
      if c != court {
        assert c.id != court.id;
      }
    }
  }

  lemma IdsStep(active: seq<Court>, i: nat)
    requires i < |active|
    ensures (set c | c in active[..i + 1] :: c.id) == (set c | c in active[..i] :: c.id) + {active[i].id}
  {
    assert active[..i + 1] == active[..i] + [active[i]];
  }

  lemma PrefixStep(active: seq<Court>, i: nat, c: Court)
    requires i < |active| && c in active[..i + 1]
    ensures c in active && (c == active[i] || c in active[..i])
  {
    assert active[..i + 1] == active[..i] + [active[i]];
  }

  lemma ActiveIdsDistinct(courts: seq<Court>, active: seq<Court>)
    requires forall i, j :: 0 <= i < j < |courts| ==> courts[i].id != courts[j].id
    requires forall c :: c in active <==> c in courts && c.active
    ensures forall c, d :: c in active && d in active && c.id == d.id ==> c == d
  {
    forall c, d | c in active && d in active && c.id == d.id ensures c == d {
      var i :| 0 <= i < |courts| && courts[i] == c;
      var j :| 0 <= j < |courts| && courts[j] == d;
      if i < j { } else if j < i { }
    }
  }
}
