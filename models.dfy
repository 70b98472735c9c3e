/**
 * The records of the booking app (venues, courts, bookings, reviews, advertisements,
 * tournaments), their field defaults, the price calculation and the table constraints.
 * Money is in paise (hundredths of a rupee); a computed price is a real number of paise.
 * Dates are day numbers, times are seconds since midnight.
 */
module Models {
  import opened Clock
  import opened Query

  datatype BookingStatus = Confirmed | Cancelled | Pending | Completed

  datatype Venue = Venue(id: int, name: string, city: string, rating: real)

  datatype Court = Court(id: int, venue: int, name: string, capacity: nat, rate: int, active: bool)

  /** A booking row; `court` is the court row the booking's foreign key reads. */
  datatype Booking = Booking(
    id: int, user: int, court: Court, date: int, start: Time, end: Time,
    players: nat, totalPrice: real, status: BookingStatus, notes: string)

  datatype Review = Review(venue: int, user: int, rating: int)

  datatype AdStatus = AdPending | AdApproved | AdRejected | AdActive

  datatype Advertisement = Advertisement(id: int, brand: string, mobile: string, status: AdStatus)

  datatype TournamentStatus = Upcoming | Ongoing | TournamentCompleted | TournamentCancelled

  datatype Tournament = Tournament(
    id: int, name: string, startDate: int, endDate: int, venue: int, maxTeams: nat,
    entryFee: int, status: TournamentStatus, rules: string, prizePool: string)

  const DefaultCapacity: nat := 8
  const DefaultRate: int := 50000
  const DefaultPlayers: nat := 8

  /** A court created with only its venue and name given. */
  function NewCourt(id: int, venue: int, name: string): (c: Court)
    ensures c.capacity == 8 && c.rate == 50000 && c.active
    ensures c.id == id && c.venue == venue && c.name == name
  {
    Court(id, venue, name, DefaultCapacity, DefaultRate, true)
  }

  /**
   * A booking built from the booking form's fields; every other column takes its
   * default: confirmed, unpriced, no notes.
   */
  function NewBooking(id: int, user: int, court: Court, date: int, start: Time, end: Time, players: nat): (b: Booking)
    ensures b.status == Confirmed && b.totalPrice == 0.0 && b.notes == ""
    ensures b.id == id && b.user == user && b.court == court && b.date == date
    ensures b.start == start && b.end == end && b.players == players
  {
    Booking(id, user, court, date, start, end, players, 0.0, Confirmed, "")
  }

  /** hourly rate x (end - start) / 3600 s, with nothing rounded and nothing guarding end < start. */
  function Price(rate: int, start: int, end: int): real
  {
    (rate as real) * ((end - start) as real) / 3600.0
  }

  /** `Booking.calculate_price`: sets `total_price` from the court's rate and the booking's times. */
  function CalculatePrice(b: Booking): (r: Booking)
    ensures r.totalPrice == (b.court.rate as real) * ((b.end - b.start) as real) / 3600.0
    ensures r.(totalPrice := b.totalPrice) == b
  {
    b.(totalPrice := Price(b.court.rate, b.start, b.end))
  }

  /** A booking of `h` whole hours costs `h` times the hourly rate. */
  lemma PriceOfHours(rate: int, start: int, h: int)
    ensures Price(rate, start, start + h * SecondsPerHour) == (rate * h) as real
  {
  }

  /** Price is linear in the duration: two hours cost twice one hour, from any start. */
  lemma PriceLinear(rate: int, start: int)
    ensures Price(rate, start, start + 2 * SecondsPerHour) == 2.0 * Price(rate, start, start + SecondsPerHour)
    ensures Price(rate, start, start + SecondsPerHour) == rate as real
  {
    PriceOfHours(rate, start, 1);
    PriceOfHours(rate, start, 2);
  }

  /** An empty slot is free; a slot that ends before it starts has a negative price. */
  lemma PriceSign(rate: int, start: int, end: int)
    ensures end == start ==> Price(rate, start, end) == 0.0
    ensures rate > 0 && end < start ==> Price(rate, start, end) < 0.0
  {
  }

  /** Recomputing with the same date, times and rate gives the same total. */
  lemma CalculatePriceIdempotent(b: Booking)
    ensures CalculatePrice(CalculatePrice(b)) == CalculatePrice(b)
  {
  }

  function SumRatings(reviews: seq<Review>): int
  {
    if reviews == [] then 0 else SumRatings(reviews[..|reviews| - 1]) + reviews[|reviews| - 1].rating
  }

  /** `venue.reviews.all()`. */
  function VenueReviews(v: Venue, reviews: seq<Review>): (r: seq<Review>)
    ensures forall x :: x in r <==> x in reviews && x.venue == v.id
  {
    Filter(reviews, (x: Review) => x.venue == v.id)
  }

  /** `Venue.average_rating`: the mean of the venue's review ratings, else the stored rating. */
  function AverageRating(v: Venue, reviews: seq<Review>): (r: real)
    ensures VenueReviews(v, reviews) == [] ==> r == v.rating
    ensures VenueReviews(v, reviews) != [] ==>
      r == Mean(SumRatings(VenueReviews(v, reviews)) as real, |VenueReviews(v, reviews)| as real)
  {
    var mine := VenueReviews(v, reviews);
    if mine == [] then v.rating else Mean(SumRatings(mine) as real, |mine| as real)
  }

  /** `sum / len`: the value that, taken `n` times, makes up the total. */
  function Mean(total: real, n: real): (m: real)
    requires n > 0.0
    ensures m * n == total
  {
    total / n
  }

  /** `Booking.objects.filter(user=user)`, also `user.bookings.all()`: the user's own bookings. */
  function BookingsOf(rows: seq<Booking>, user: int): (r: seq<Booking>)
    ensures forall b :: b in r <==> b in rows && b.user == user
    ensures forall b :: multiset(r)[b] == if b.user == user then multiset(rows)[b] else 0
  {
    Filter(rows, OwnedBy(user))
  }

  /** The row test of `filter(user=user)`. */
  function OwnedBy(user: int): Booking -> bool
  {
    (b: Booking) => b.user == user
  }

  /** A review's rating lies in 1..5. */
  predicate ReviewValid(r: Review)
  {
    1 <= r.rating <= 5
  }

  lemma {:induction false} SumRatingsBounds(reviews: seq<Review>)
    requires forall x :: x in reviews ==> ReviewValid(x)
    ensures |reviews| <= SumRatings(reviews) <= 5 * |reviews|
  {
    if reviews != [] {
      SumRatingsBounds(reviews[..|reviews| - 1]);
      assert reviews[|reviews| - 1] in reviews;
    }
  }

  /** With valid reviews, a venue that has any has an average rating in 1..5. */
  lemma AverageRatingBounds(v: Venue, reviews: seq<Review>)
    requires forall x :: x in reviews ==> ReviewValid(x)
    requires exists x :: x in reviews && x.venue == v.id
    ensures 1.0 <= AverageRating(v, reviews) <= 5.0
  {
    var mine := VenueReviews(v, reviews);
    var x :| x in reviews && x.venue == v.id;
    assert x in mine;
    SumRatingsBounds(mine);
    MeanOfRatingsBounds(SumRatings(mine), |mine|);
  }

  lemma MeanOfRatingsBounds(total: int, k: int)
    requires 0 < k && k <= total <= 5 * k
    ensures 1.0 <= Mean(total as real, k as real) <= 5.0
  {
    MeanBounds(Mean(total as real, k as real), total as real, k as real);
  }

  /** A mean of values in 1..5 lies in 1..5: from `m * k == total` and `k <= total <= 5k`. */
  lemma MeanBounds(m: real, total: real, k: real)
    requires k > 0.0 && m * k == total && k <= total <= 5.0 * k
    ensures 1.0 <= m <= 5.0
  {
    assert (m - 1.0) * k == total - k;
    assert (5.0 - m) * k == 5.0 * k - total;
    NonNegativeFactor(m - 1.0, k);
    NonNegativeFactor(5.0 - m, k);
  }

  lemma NonNegativeFactor(x: real, k: real)
    requires k > 0.0 && x * k >= 0.0
    ensures x >= 0.0
  {
  }

  /** `Tournament.is_upcoming`: today itself still counts. */
  function IsUpcoming(t: Tournament, today: int): (r: bool)
    ensures r <==> !(t.startDate < today)
  {
    t.startDate >= today
  }

  /** The booking table's `unique_together = (court, date, start_time, status)`. */
  predicate UniqueTogether(rows: seq<Booking>)
  {
    forall i, j :: 0 <= i < |rows| && 0 <= j < |rows| && i != j ==>
      !(rows[i].court.id == rows[j].court.id && rows[i].date == rows[j].date &&
        rows[i].start == rows[j].start && rows[i].status == rows[j].status)
  }

  /**
   * The slot constraint the table is modelled with: no two confirmed bookings share
   * (court, date, start_time); rows in other states are not constrained.
   */
  predicate ConfirmedSlotsUnique(rows: seq<Booking>)
  {
    forall i, j ::
      0 <= i < |rows| && 0 <= j < |rows| && i != j &&
      rows[i].status == Confirmed && rows[j].status == Confirmed ==>
      !(rows[i].court.id == rows[j].court.id && rows[i].date == rows[j].date && rows[i].start == rows[j].start)
  }

  /** The uniqueness constraint does not rule out confirmed bookings that overlap with different starts. */
  lemma UniqueTogetherAllowsOverlap()
    ensures exists rows: seq<Booking> ::
      |rows| == 2 && UniqueTogether(rows) && ConfirmedSlotsUnique(rows) &&
      rows[0].status == Confirmed && rows[1].status == Confirmed &&
      rows[0].court == rows[1].court && rows[0].date == rows[1].date &&
      rows[0].start < rows[1].end && rows[1].start < rows[0].end
  {
    var c := NewCourt(1, 1, "A");
    var a := NewBooking(1, 1, c, 0, 36000, 39600, 8);
    var b := NewBooking(2, 2, c, 0, 37800, 41400, 8);
    assert UniqueTogether([a, b]);
    assert ConfirmedSlotsUnique([a, b]);
  }
}
