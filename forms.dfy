/**
 * The booking form's validation: the player-count field bounds and `BookingForm.clean`,
 * which checks time order, duration, court capacity and overlap with confirmed bookings,
 * collects every failing check, and raises them together.  Also the advertisement form's
 * mobile-number check.
 */
module Forms {
  import opened Wrappers
  import opened Text
  import opened Clock
  import opened Query
  import opened Models

  const MinPlayers := 1
  const MaxPlayers := 12
  /** Half an hour and four hours, in seconds. */
  const MinDuration := 1800
  const MaxDuration := 14400

  /** `IntegerField(min_value=1, max_value=12)`: the cleaned player count, or a field error. */
  function PlayersField(n: int): (r: Option<nat>)
    ensures r.Some? <==> MinPlayers <= n <= MaxPlayers
    ensures r.Some? ==> r.value == n
  {
    if MinPlayers <= n <= MaxPlayers then Some(n) else None
  }

  /** The form's cleaned fields; `None` where a field was missing or failed its own validation. */
  datatype Draft = Draft(court: Option<Court>, date: Option<int>, start: Option<Time>, end: Option<Time>, players: Option<nat>)

  /** What field validation guarantees of a draft: a player count that is present passed `PlayersField`. */
  predicate FieldsValid(d: Draft)
  {
    d.players.Some? ==> PlayersField(d.players.value) == d.players
  }

  const EndBeforeStart: string := "End time must be after start time."
  const TooShort: string := "Booking duration must be at least 30 minutes."
  const TooLong: string := "Booking duration cannot exceed 4 hours."

  function CapacityError(capacity: nat, players: nat): string
  {
    "Court capacity is " + NatToString(capacity) + " players. You cannot book for " + NatToString(players) + " players."
  }

  function ConflictMessage(ranges: seq<string>): string
  {
    "Court is already booked for this date at: " + Join(ranges, ", ") + ". Please choose a different time slot."
  }

  /** The form's overlap test of [start, end) against a booking; touching ends do not overlap. */
  predicate Overlaps(start: int, end: int, b: Booking)
  {
    !(end <= b.start || start >= b.end)
  }

  /** `Meta.ordering = ['-date', 'start_time']`. */
  function BookingOrder(b: Booking): Key
  {
    Key(-b.date, b.start)
  }

  /** `.exclude(pk=instance.pk if instance.pk else None)`: a falsy or absent pk excludes nothing. */
  predicate Excluded(b: Booking, instance: Option<int>)
  {
    instance.Some? && instance.value != 0 && b.id == instance.value
  }

  predicate Competing(b: Booking, court: int, date: int, instance: Option<int>)
  {
    b.court.id == court && b.date == date && b.status == Confirmed && !Excluded(b, instance)
  }

  /** The confirmed bookings on the same court and date, other than the one being edited, in query order. */
  function Candidates(rows: seq<Booking>, court: int, date: int, instance: Option<int>): (r: seq<Booking>)
    ensures forall b :: b in r <==> b in rows && Competing(b, court, date, instance)
  {
    var same := Filter(rows, CompetingPick(court, date, instance));
    SortByMembers(same, BookingOrder);
    SortBy(same, BookingOrder)
  }

  function CompetingPick(court: int, date: int, instance: Option<int>): Booking -> bool
  {
    (b: Booking) => Competing(b, court, date, instance)
  }

  /**
   * The candidates come in query order: each competing row as often as in the table, sorted
   * by `Meta.ordering`, which on one date is ascending start time.
   */
  lemma CandidatesInQueryOrder(rows: seq<Booking>, court: int, date: int, instance: Option<int>)
    ensures var r := Candidates(rows, court, date, instance);
      && (forall b :: multiset(r)[b] == if Competing(b, court, date, instance) then multiset(rows)[b] else 0)
      && SortedBy(r, BookingOrder)
      && (forall i, j :: 0 <= i < j < |r| ==> r[i].start <= r[j].start)
  {
    var r := Candidates(rows, court, date, instance);
    forall i, j | 0 <= i < j < |r| ensures r[i].start <= r[j].start {
      assert r[i] in r && r[j] in r;
      assert KeyLe(BookingOrder(r[i]), BookingOrder(r[j]));
    }
  }

  /** The slot labels of the bookings in `cands` that overlap [start, end), in order. */
  function ConflictRanges(cands: seq<Booking>, start: int, end: int): seq<string>
  {
    if cands == [] then []
    else
      var last := cands[|cands| - 1];
      ConflictRanges(cands[..|cands| - 1], start, end) + (if Overlaps(start, end, last) then [TimeSlot(last.start, last.end)] else [])
  }

  function TimeErrors(d: Draft): seq<string>
  {
    if d.start.Some? && d.end.Some? then
      var duration := d.end.value - d.start.value;
      (if d.start.value >= d.end.value then [EndBeforeStart] else []) +
      (if duration < MinDuration then [TooShort] else if duration > MaxDuration then [TooLong] else [])
    else []
  }

  function CapacityErrors(d: Draft): seq<string>
  {
    if d.court.Some? && d.players.Some? && d.players.value != 0 && d.players.value > d.court.value.capacity
    then [CapacityError(d.court.value.capacity, d.players.value)]
    else []
  }

  function ConflictErrors(d: Draft, instance: Option<int>, rows: seq<Booking>): seq<string>
  {
    if d.court.Some? && d.date.Some? && d.start.Some? && d.end.Some? then
      var ranges := ConflictRanges(Candidates(rows, d.court.value.id, d.date.value, instance), d.start.value, d.end.value);
      if ranges == [] then [] else [ConflictMessage(ranges)]
    else []
  }

  /** Every failing check, in the order time, duration, capacity, conflict. */
  function Errors(d: Draft, instance: Option<int>, rows: seq<Booking>): seq<string>
  {
    TimeErrors(d) + CapacityErrors(d) + ConflictErrors(d, instance, rows)
  }

  datatype CleanOutcome = Cleaned(data: Draft) | Rejected(errors: seq<string>)

  /**
   * `BookingForm.clean` against the booking table `rows`; `instance` is the primary key of
   * the booking being edited, if any.  The cleaned data comes back unchanged when no check fails.
   */
  method Clean(d: Draft, instance: Option<int>, rows: seq<Booking>) returns (r: CleanOutcome)
    ensures r.Cleaned? <==> Errors(d, instance, rows) == []
    ensures r.Cleaned? ==> r.data == d
    ensures r.Rejected? ==> r.errors == Errors(d, instance, rows)
  {
    var timeErrors := CheckTimes(d);
    var capacityErrors := CheckCapacity(d);
    var conflictErrors := CheckConflicts(d, instance, rows);
    var errors := timeErrors + capacityErrors + conflictErrors;
    if errors != [] {
      return Rejected(errors);
    }
    return Cleaned(d);
  }

  /** The time-order and duration checks of `clean`. */
  method CheckTimes(d: Draft) returns (errors: seq<string>)
    ensures errors == TimeErrors(d)
  {
    errors := [];
    if d.start.Some? && d.end.Some? {
      if d.start.value >= d.end.value {
        errors := errors + [EndBeforeStart];
      }
      var duration := d.end.value - d.start.value;
      if duration < MinDuration {
        errors := errors + [TooShort];
      } else if duration > MaxDuration {
        errors := errors + [TooLong];
      }
    }
  }

  /** The capacity check of `clean`; a player count of 0 is falsy and skips it. */
  method CheckCapacity(d: Draft) returns (errors: seq<string>)
    ensures errors == CapacityErrors(d)
  {
    errors := [];
    if d.court.Some? && d.players.Some? && d.players.value != 0 {
      if d.players.value > d.court.value.capacity {
        errors := [CapacityError(d.court.value.capacity, d.players.value)];
      }
    }
  }

  /** The overlap check of `clean`, run only when court, date and both times are present. */
  method CheckConflicts(d: Draft, instance: Option<int>, rows: seq<Booking>) returns (errors: seq<string>)
    ensures errors == ConflictErrors(d, instance, rows)
  {
    errors := [];
    if d.court.Some? && d.date.Some? && d.start.Some? && d.end.Some? {
      var bookings := Candidates(rows, d.court.value.id, d.date.value, instance);
      var conflicts := CollectConflicts(bookings, d.start.value, d.end.value);
      if conflicts != [] {
        errors := [ConflictMessage(conflicts)];
      }
    }
  }

  /** The main invariant: confirmed bookings on the same court and date never overlap. */
  predicate SlotsDisjoint(rows: seq<Booking>)
  {
    forall i, j ::
      0 <= i < |rows| && 0 <= j < |rows| && i != j &&
      rows[i].status == Confirmed && rows[j].status == Confirmed &&
      rows[i].court.id == rows[j].court.id && rows[i].date == rows[j].date ==>
      !Overlaps(rows[i].start, rows[i].end, rows[j])
  }

  /** `clean` as written, where `datetime.combine(date, ...)` raises a TypeError if the date failed but both times were cleaned. */
  datatype AsWrittenClean = Completes(errors: seq<string>) | RaisesTypeError

  function CleanAsWritten(d: Draft, instance: Option<int>, rows: seq<Booking>): (r: AsWrittenClean)
    ensures r == RaisesTypeError <==> d.start.Some? && d.end.Some? && d.date.None?
    ensures r.Completes? ==> r.errors == Errors(d, instance, rows)
  {
    if d.start.Some? && d.end.Some? && d.date.None? then RaisesTypeError else Completes(Errors(d, instance, rows))
  }

  /**
   * An unparseable date with valid times makes `clean` as written crash instead of letting
   * the date field's own error be shown; the modelled `clean` (duration taken from the times
   * alone) completes, with nothing to add to that field error.
   */
  lemma InvalidDateCrashesCleanAsWritten()
    ensures var d := Draft(Some(NewCourt(1, 1, "Court 1")), None, Some(36000), Some(39600), Some(8));
      CleanAsWritten(d, None, []) == RaisesTypeError && Errors(d, None, []) == []
  {
  }

  /** The loop of `clean` over the candidate bookings, collecting the label of each overlapping one. */
  method CollectConflicts(bookings: seq<Booking>, start: int, end: int) returns (conflicts: seq<string>)
    ensures conflicts == ConflictRanges(bookings, start, end)
  {
    conflicts := [];
    var i := 0;
    while i < |bookings|
      invariant 0 <= i <= |bookings|
      invariant conflicts == ConflictRanges(bookings[..i], start, end)
    {
      var b := bookings[i];
      assert bookings[..i + 1][..i] == bookings[..i];
      if !(end <= b.start || start >= b.end) {
        conflicts := conflicts + [TimeSlot(b.start, b.end)];
      }
      i := i + 1;
    }
    assert bookings[..i] == bookings;
  }

  /** What the time and duration checks report, case by case: a non-positive slot gets both messages. */
  lemma TimeErrorsCases(d: Draft)
    requires d.start.Some? && d.end.Some?
    ensures var s, e := d.start.value, d.end.value;
      && (s >= e ==> TimeErrors(d) == [EndBeforeStart, TooShort])
      && (s < e && e - s < MinDuration ==> TimeErrors(d) == [TooShort])
      && (MinDuration <= e - s <= MaxDuration ==> TimeErrors(d) == [])
      && (e - s > MaxDuration ==> TimeErrors(d) == [TooLong])
  {
  }

  /** No range is reported exactly when no candidate overlaps. */
  lemma {:induction false} ConflictRangesEmpty(cands: seq<Booking>, start: int, end: int)
    ensures ConflictRanges(cands, start, end) == [] <==> forall b :: b in cands ==> !Overlaps(start, end, b)
  {
    if cands != [] {
      var init, last := cands[..|cands| - 1], cands[|cands| - 1];
      ConflictRangesEmpty(init, start, end);
      assert cands == init + [last];
    }
  }

  /** The ranges listed are the labels of the overlapping candidates, one each, in query order. */
  lemma {:induction false} ConflictRangesListOverlaps(cands: seq<Booking>, start: int, end: int)
    ensures ConflictRanges(cands, start, end) == Labels(Filter(cands, (b: Booking) => Overlaps(start, end, b)))
  {
    if cands != [] {
      var init, last := cands[..|cands| - 1], cands[|cands| - 1];
      ConflictRangesListOverlaps(init, start, end);
      var f := Filter(init, (b: Booking) => Overlaps(start, end, b));
      if Overlaps(start, end, last) {
        LabelsAppend(f, last);
      }
    }
  }

  function Labels(bs: seq<Booking>): (r: seq<string>)
    ensures |r| == |bs| && forall i :: 0 <= i < |bs| ==> r[i] == TimeSlot(bs[i].start, bs[i].end)
  {
    if bs == [] then [] else [TimeSlot(bs[0].start, bs[0].end)] + Labels(bs[1..])
  }

  lemma LabelsAppend(bs: seq<Booking>, b: Booking)
    ensures Labels(bs + [b]) == Labels(bs) + [TimeSlot(b.start, b.end)]
  {
  }

  /**
   * `clean` passes exactly when the slot's duration is in [30 min, 4 h] (which implies start
   * before end), the players fit the court, and no confirmed booking on the same court and
   * date (other than the one edited) overlaps the slot.
   */
  lemma CleanAcceptsIff(d: Draft, instance: Option<int>, rows: seq<Booking>)
    ensures Errors(d, instance, rows) == [] <==>
      && (d.start.Some? && d.end.Some? ==> MinDuration <= d.end.value - d.start.value <= MaxDuration)
      && (d.court.Some? && d.players.Some? ==> d.players.value <= d.court.value.capacity)
      && (d.court.Some? && d.date.Some? && d.start.Some? && d.end.Some? ==>
            forall b :: b in rows && Competing(b, d.court.value.id, d.date.value, instance) ==>
              !Overlaps(d.start.value, d.end.value, b))
  {
    if d.court.Some? && d.date.Some? && d.start.Some? && d.end.Some? {
      ConflictRangesEmpty(Candidates(rows, d.court.value.id, d.date.value, instance), d.start.value, d.end.value);
    }
  }

  /** The four checks report together: a slot failing all of them gets four messages, in order. */
  lemma AllChecksAccumulate()
    ensures var court := NewCourt(1, 1, "Court 1");
      var existing := NewBooking(7, 2, court, 100, 36000, 43200, 8);
      var d := Draft(Some(court), Some(100), Some(39600), Some(38700), Some(10));
      Errors(d, None, [existing]) ==
        [EndBeforeStart, TooShort, CapacityError(8, 10), ConflictMessage(["10:00 - 12:00"])]
  {
    var court := NewCourt(1, 1, "Court 1");
    var existing := NewBooking(7, 2, court, 100, 36000, 43200, 8);
    var d := Draft(Some(court), Some(100), Some(39600), Some(38700), Some(10));
    assert TimeErrors(d) == [EndBeforeStart, TooShort];
    assert CapacityErrors(d) == [CapacityError(8, 10)];
    OneConflictReported(d, existing);
    SlotLabelTenToNoon();
  }

  lemma SlotLabelTenToNoon()
    ensures TimeSlot(36000, 43200) == "10:00 - 12:00"
  {
  }

  /** A draft overlapping the one booking of the table reports that booking's range. */
  lemma OneConflictReported(d: Draft, existing: Booking)
    requires d.court.Some? && d.date.Some? && d.start.Some? && d.end.Some?
    requires Competing(existing, d.court.value.id, d.date.value, None)
    requires Overlaps(d.start.value, d.end.value, existing)
    ensures ConflictErrors(d, None, [existing]) == [ConflictMessage([TimeSlot(existing.start, existing.end)])]
  {
    CandidatesOfOne(existing, d.court.value.id, d.date.value, None);
    assert [existing][..0] == [];
    assert ConflictRanges([existing], d.start.value, d.end.value) == [TimeSlot(existing.start, existing.end)];
  }

  /** The candidates among a single row: that row, if it competes. */
  lemma CandidatesOfOne(a: Booking, court: int, date: int, instance: Option<int>)
    ensures Candidates([a], court, date, instance) == if Competing(a, court, date, instance) then [a] else []
  {
    FilterOne(a, CompetingPick(court, date, instance));
    SortByOne(a, BookingOrder);
  }

  /** A slot that starts as an existing booking ends does not conflict with it. */
  lemma TouchingSlotPasses()
    ensures var court := NewCourt(1, 1, "Court 1");
      var a := NewBooking(1, 2, court, 100, 36000, 39600, 8);
      Errors(Draft(Some(court), Some(100), Some(39600), Some(43200), Some(8)), None, [a]) == []
  {
    var court := NewCourt(1, 1, "Court 1");
    var a := NewBooking(1, 2, court, 100, 36000, 39600, 8);
    CandidatesOfOne(a, 1, 100, None);
  }

  /** An overlapping slot is refused, and the message names the booked range. */
  lemma OverlappingSlotRefused()
    ensures var court := NewCourt(1, 1, "Court 1");
      var a := NewBooking(1, 2, court, 100, 36000, 39600, 8);
      Errors(Draft(Some(court), Some(100), Some(37800), Some(41400), Some(8)), None, [a]) ==
        [ConflictMessage(["10:00 - 11:00"])]
  {
    var court := NewCourt(1, 1, "Court 1");
    var a := NewBooking(1, 2, court, 100, 36000, 39600, 8);
    var d := Draft(Some(court), Some(100), Some(37800), Some(41400), Some(8));
    assert TimeErrors(d) == [] && CapacityErrors(d) == [];
    OneConflictReported(d, a);
    SlotLabelsOfTwo();
  }

  /**
   * Two conflicts are both reported, in start order whatever the table order, and joined
   * into one message with ", ".
   */
  lemma TwoConflictsListedInStartOrder()
    ensures var court := NewCourt(1, 1, "Court 1");
      var late := NewBooking(1, 2, court, 100, 43200, 46800, 8);
      var early := NewBooking(2, 3, court, 100, 36000, 39600, 8);
      Errors(Draft(Some(court), Some(100), Some(37800), Some(45000), Some(8)), None, [late, early]) ==
        [ConflictMessage(["10:00 - 11:00", "12:00 - 13:00"])]
  {
    var court := NewCourt(1, 1, "Court 1");
    var late := NewBooking(1, 2, court, 100, 43200, 46800, 8);
    var early := NewBooking(2, 3, court, 100, 36000, 39600, 8);
    var d := Draft(Some(court), Some(100), Some(37800), Some(45000), Some(8));
    assert TimeErrors(d) == [] && CapacityErrors(d) == [];
    TwoConflictsReported(d, late, early);
    SlotLabelsOfTwo();
  }

  /**
   * A draft overlapping two bookings of its court and date, and failing no other check, is
   * refused with one message naming both ranges, the earlier start first.
   */
  lemma TwoConflictsReported(d: Draft, late: Booking, early: Booking)
    requires d.court.Some? && d.date.Some? && d.start.Some? && d.end.Some?
    requires TimeErrors(d) == [] && CapacityErrors(d) == []
    requires Competing(late, d.court.value.id, d.date.value, None) && Competing(early, d.court.value.id, d.date.value, None)
    requires early.start < late.start
    requires Overlaps(d.start.value, d.end.value, late) && Overlaps(d.start.value, d.end.value, early)
    ensures Errors(d, None, [late, early]) == [ConflictMessage([TimeSlot(early.start, early.end), TimeSlot(late.start, late.end)])]
  {
    var c := TwoCandidatesSorted(late, early, d.court.value.id, d.date.value);
    RangesOfTwo(early, late, d.start.value, d.end.value);
  }

  /** A message for two ranges names both, separated by ", ". */
  lemma ConflictMessageOfTwo(x: string, y: string)
    ensures ConflictMessage([x, y]) ==
      "Court is already booked for this date at: " + x + ", " + y + ". Please choose a different time slot."
  {
    JoinTwo(x, y, ", ");
  }

  lemma SlotLabelsOfTwo()
    ensures TimeSlot(36000, 39600) == "10:00 - 11:00" && TimeSlot(43200, 46800) == "12:00 - 13:00"
  {
  }

  /** Two candidates both overlapping the slot give both their labels, in candidate order. */
  lemma RangesOfTwo(first: Booking, second: Booking, start: int, end: int)
    requires Overlaps(start, end, first) && Overlaps(start, end, second)
    ensures ConflictRanges([first, second], start, end) == [TimeSlot(first.start, first.end), TimeSlot(second.start, second.end)]
  {
    assert [first, second][..1] == [first] && [first][..0] == [];
    assert ConflictRanges([first], start, end) == [TimeSlot(first.start, first.end)];
  }

  /** The candidates of two competing rows with different starts come back earlier start first. */
  lemma TwoCandidatesSorted(late: Booking, early: Booking, court: int, date: int) returns (c: seq<Booking>)
    requires Competing(late, court, date, None) && Competing(early, court, date, None)
    requires early.start < late.start
    ensures c == Candidates([late, early], court, date, None) == [early, late]
  {
    c := Candidates([late, early], court, date, None);
    FilterTwo(late, early, CompetingPick(court, date, None));
    SortByTwo(late, early, BookingOrder);
  }

  const MobileNotDigits: string := "Mobile number should contain only digits."
  const MobileWrongLength: string := "Mobile number should be 10 digits long."

  /**
   * `AdvertisementForm.clean`: the first failing mobile-number check, or `None` when the
   * number passes.  A missing or empty number skips both checks.
   */
  function MobileError(mobile: Option<string>): (r: Option<string>)
    ensures r == None <==> mobile.None? || mobile.value == "" || (AllDigits(mobile.value) && |mobile.value| == 10)
    ensures r == Some(MobileNotDigits) <==> mobile.Some? && mobile.value != "" && !AllDigits(mobile.value)
    ensures r == Some(MobileWrongLength) <==> mobile.Some? && AllDigits(mobile.value) && |mobile.value| != 10
  {
    if mobile.Some? && mobile.value != "" && !AllDigits(mobile.value) then Some(MobileNotDigits)
    else if mobile.Some? && mobile.value != "" && |mobile.value| != 10 then Some(MobileWrongLength)
    else None
  }
}
