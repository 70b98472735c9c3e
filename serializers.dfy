/**
 * The REST serializers of the booking app: booking creation through the API (priced, but
 * not validated), and the venue representations with their court count and average rating.
 */
module Serializers {
  import opened Wrappers
  import opened Clock
  import opened Query
  import opened Models
  import opened Forms
  import opened Store

  /**
   * A booking payload as a client sends it.  `totalPrice`, `createdAt`, `updatedAt` and
   * `userEmail` are read-only fields; `players`, `status` and `notes` have model defaults,
   * so the client may leave them out (`None`).
   */
  datatype BookingPayload = BookingPayload(
    court: Court, date: int, start: Time, end: Time, players: Option<nat>, status: Option<BookingStatus>, notes: Option<string>,
    totalPrice: Option<real>, createdAt: Option<int>, updatedAt: Option<int>, userEmail: Option<string>)

  /**
   * `validated_data` as `Booking(**validated_data)` sees it: the writable fields only, each one
   * left out taking the model default (8 players, confirmed, no notes).
   */
  datatype ValidatedBooking = ValidatedBooking(
    court: Court, date: int, start: Time, end: Time, players: nat, status: BookingStatus, notes: string)

  function Validated(p: BookingPayload): (v: ValidatedBooking)
    ensures v.court == p.court && v.date == p.date && v.start == p.start && v.end == p.end
    ensures p.players.Some? ==> v.players == p.players.value
    ensures p.players.None? ==> v.players == DefaultPlayers
    ensures p.status.Some? ==> v.status == p.status.value
    ensures p.status.None? ==> v.status == Confirmed
    ensures p.notes.Some? ==> v.notes == p.notes.value
    ensures p.notes.None? ==> v.notes == ""
  {
    ValidatedBooking(p.court, p.date, p.start, p.end, p.players.GetOr(DefaultPlayers), p.status.GetOr(Confirmed), p.notes.GetOr(""))
  }

  /**
   * A payload that leaves out every defaulted field creates the booking the form would create
   * for the same slot with 8 players, except that it is priced.
   */
  lemma ApiDefaultsAgreeWithForm(p: BookingPayload, user: int, id: int)
    requires p.players.None? && p.status.None? && p.notes.None?
    ensures ApiBooking(Validated(p), user).(id := id) ==
      NewBooking(id, user, p.court, p.date, p.start, p.end, DefaultPlayers).(totalPrice := Price(p.court.rate, p.start, p.end))
  {
  }

  /** `Booking(**validated_data)` for the requesting user, then `calculate_price()`. */
  function ApiBooking(v: ValidatedBooking, user: int): (b: Booking)
    ensures b.totalPrice == Price(v.court.rate, v.start, v.end)
    ensures b.user == user && b.court == v.court && b.date == v.date && b.start == v.start && b.end == v.end
    ensures b.players == v.players && b.status == v.status && b.notes == v.notes
  {
    CalculatePrice(Booking(0, user, v.court, v.date, v.start, v.end, v.players, 0.0, v.status, v.notes))
  }

  datatype CreateResponse = Created201(booking: Booking) | ServerError500

  /** `perform_create` + `BookingSerializer.create`: price the booking and save it, with no other check. */
  method ApiCreate(table: BookingTable, user: int, p: BookingPayload) returns (resp: CreateResponse)
    requires table.Valid()
    modifies table
    ensures table.Valid()
    ensures table.nextId == old(table.nextId) + (if |table.rows| > |old(table.rows)| then 1 else 0)
    ensures var row := ApiBooking(Validated(p), user).(id := old(table.nextId));
      if ConfirmedSlotsUnique(old(table.rows) + [row])
      then resp == Created201(row) && table.rows == old(table.rows) + [row]
      else resp == ServerError500 && table.rows == old(table.rows)
  {
    var booking := ApiBooking(Validated(p), user);
    var id := table.Insert(booking);
    if id.Some? {
      resp := Created201(booking.(id := id.value));
    } else {
      resp := ServerError500;
    }
  }

  /** Client-supplied values for the read-only fields change nothing about the booking created. */
  lemma ReadOnlyFieldsIgnored(p: BookingPayload, q: BookingPayload, user: int)
    requires p.court == q.court && p.date == q.date && p.start == q.start && p.end == q.end
    requires p.players == q.players && p.status == q.status && p.notes == q.notes
    ensures ApiBooking(Validated(p), user) == ApiBooking(Validated(q), user)
  {
  }

  /**
   * The API path skips every check of the booking form: a slot the form refuses is stored
   * confirmed, and confirmed bookings then overlap.
   */
  lemma ApiCreateSkipsChecks()
    ensures var court := NewCourt(1, 1, "Court 1");
      var a := NewBooking(1, 2, court, 100, 36000, 39600, 8);
      var p := BookingPayload(court, 100, 37800, 41400, Some(8), None, None, Some(1.0), None, None, None);
      var row := ApiBooking(Validated(p), 3).(id := 2);
      && SlotsDisjoint([a])
      && Errors(Draft(Some(court), Some(100), Some(37800), Some(41400), Some(8)), None, [a]) != []
      && ConfirmedSlotsUnique([a] + [row])
      && !SlotsDisjoint([a] + [row])
  {
    var court := NewCourt(1, 1, "Court 1");
    var a := NewBooking(1, 2, court, 100, 36000, 39600, 8);
    OverlappingSlotRefused();
    var p := BookingPayload(court, 100, 37800, 41400, Some(8), None, None, Some(1.0), None, None, None);
    var row := ApiBooking(Validated(p), 3).(id := 2);
    var rows := [a] + [row];
    assert rows[0] == a && rows[1] == row;
    assert Overlaps(rows[0].start, rows[0].end, rows[1]);
  }

  /** The courts test `venue.courts.all()` applies; `active` narrows it. */
  function AtVenue(venue: int): Court -> bool
  {
    (c: Court) => c.venue == venue
  }

  function AtVenueActive(venue: int, active: bool): Court -> bool
  {
    (c: Court) => c.venue == venue && c.active == active
  }

  /** `get_courts_count`: all the venue's courts, the inactive ones as well as the active ones. */
  function CourtsCount(courts: seq<Court>, venue: int): (n: nat)
    ensures n == |Filter(courts, AtVenueActive(venue, true))| + |Filter(courts, AtVenueActive(venue, false))|
  {
    FilterSplit(courts, AtVenue(venue), (c: Court) => c.active, AtVenueActive(venue, true), AtVenueActive(venue, false));
    |Filter(courts, AtVenue(venue))|
  }

  datatype VenueListItem = VenueListItem(id: int, name: string, city: string, rating: real, courtsCount: nat)

  datatype VenueDetail = VenueDetail(id: int, name: string, rating: real, averageRating: real, courts: seq<Court>, reviews: seq<Review>)

  /** `VenueListSerializer`. */
  function VenueListItemOf(v: Venue, courts: seq<Court>): (r: VenueListItem)
    ensures r.courtsCount == CourtsCount(courts, v.id) && r.id == v.id && r.rating == v.rating
  {
    VenueListItem(v.id, v.name, v.city, v.rating, CourtsCount(courts, v.id))
  }

  /** `VenueSerializer`: the stored rating and, beside it, `Venue.average_rating()`. */
  function VenueDetailOf(v: Venue, courts: seq<Court>, reviews: seq<Review>): (r: VenueDetail)
    ensures r.averageRating == AverageRating(v, reviews) && r.rating == v.rating
    ensures forall c :: c in r.courts <==> c in courts && c.venue == v.id
    ensures r.reviews == VenueReviews(v, reviews)
  {
    VenueDetail(v.id, v.name, v.rating, AverageRating(v, reviews), Filter(courts, AtVenue(v.id)), VenueReviews(v, reviews))
  }
}
