/**
 * The admin site's bulk actions, each one `queryset.filter(...).update(status=...)` over the
 * selected records, returning the number of rows updated, and the display helpers the
 * booking and tournament lists use.
 */
module Admin {
  import opened Wrappers
  import opened Clock
  import opened Query
  import opened Models
  import opened Forms
  import opened Store

  /** The rows after a bulk update, and the count `update()` returns. */
  datatype Bulk<T> = Bulk(rows: seq<T>, updated: nat)

  /** `filter(pick).update(...)`: each row `pick` accepts becomes `change(row)`; the count is how many it accepts. */
  function UpdateWhere<T(!new)>(rows: seq<T>, pick: T -> bool, change: T -> T): (r: Bulk<T>)
    ensures |r.rows| == |rows|
    ensures forall i :: 0 <= i < |rows| ==> r.rows[i] == if pick(rows[i]) then change(rows[i]) else rows[i]
    ensures r.updated == |Filter(rows, pick)|
  {
    if rows == [] then Bulk([], 0)
    else
      var rest := UpdateWhere(rows[..|rows| - 1], pick, change);
      var last := rows[|rows| - 1];
      var r := Bulk(rest.rows + [if pick(last) then change(last) else last], rest.updated + if pick(last) then 1 else 0);
      UpdateWhereStep(rows, pick, change, rest, r);
      r
  }

  /** One row more: the rows before it as the shorter update left them, and that row updated or kept. */
  lemma UpdateWhereStep<T(!new)>(rows: seq<T>, pick: T -> bool, change: T -> T, rest: Bulk<T>, r: Bulk<T>)
    requires rows != []
    requires |rest.rows| == |rows| - 1
    requires forall i :: 0 <= i < |rows| - 1 ==>
      rest.rows[i] == if pick(rows[..|rows| - 1][i]) then change(rows[..|rows| - 1][i]) else rows[..|rows| - 1][i]
    requires rest.updated == |Filter(rows[..|rows| - 1], pick)|
    requires var last := rows[|rows| - 1];
      r == Bulk(rest.rows + [if pick(last) then change(last) else last], rest.updated + if pick(last) then 1 else 0)
    ensures |r.rows| == |rows|
    ensures forall i :: 0 <= i < |rows| ==> r.rows[i] == if pick(rows[i]) then change(rows[i]) else rows[i]
    ensures r.updated == |Filter(rows, pick)|
  {
    forall i | 0 <= i < |rows| ensures r.rows[i] == if pick(rows[i]) then change(rows[i]) else rows[i] {
      if i < |rows| - 1 {
        assert rows[..|rows| - 1][i] == rows[i];
      }
    }
  }

  /** An update whose changed rows no longer match finds nothing left to do when run again. */
  lemma {:induction false} UpdateWhereSettles<T(!new)>(rows: seq<T>, pick: T -> bool, change: T -> T)
    requires forall x :: pick(x) ==> !pick(change(x))
    ensures UpdateWhere(UpdateWhere(rows, pick, change).rows, pick, change) == Bulk(UpdateWhere(rows, pick, change).rows, 0)
  {
    if rows != [] {
      var once := UpdateWhere(rows, pick, change).rows;
      UpdateWhereSettles(rows[..|rows| - 1], pick, change);
      assert once[..|rows| - 1] == UpdateWhere(rows[..|rows| - 1], pick, change).rows;
    }
  }

  // ---- Bookings ----

  function SetBookingStatus(s: BookingStatus): Booking -> Booking
  {
    (b: Booking) => b.(status := s)
  }

  /** Selected and pending. */
  function ConfirmPick(selected: set<int>): Booking -> bool
  {
    (b: Booking) => b.id in selected && b.status == Pending
  }

  /** Selected and not completed (`exclude(status='completed')`). */
  function CancelPick(selected: set<int>): Booking -> bool
  {
    (b: Booking) => b.id in selected && b.status != Completed
  }

  /** Selected and confirmed. */
  function CompletePick(selected: set<int>): Booking -> bool
  {
    (b: Booking) => b.id in selected && b.status == Confirmed
  }

  /** `confirm_booking`: selected pending bookings become confirmed; nothing else changes. */
  function ConfirmBookings(rows: seq<Booking>, selected: set<int>): (r: Bulk<Booking>)
    ensures |r.rows| == |rows|
    ensures forall i :: 0 <= i < |rows| ==>
      r.rows[i] == if rows[i].id in selected && rows[i].status == Pending then rows[i].(status := Confirmed) else rows[i]
    ensures r.updated == |Filter(rows, ConfirmPick(selected))|
  {
    UpdateWhere(rows, ConfirmPick(selected), SetBookingStatus(Confirmed))
  }

  /**
   * `cancel_booking`: every selected booking that is not completed becomes cancelled, and the
   * already-cancelled ones count too; completed bookings are never touched.
   */
  function CancelBookings(rows: seq<Booking>, selected: set<int>): (r: Bulk<Booking>)
    ensures |r.rows| == |rows|
    ensures forall i :: 0 <= i < |rows| ==>
      r.rows[i] == if rows[i].id in selected && rows[i].status != Completed then rows[i].(status := Cancelled) else rows[i]
    ensures forall i :: 0 <= i < |rows| && rows[i].status == Completed ==> r.rows[i] == rows[i]
    ensures r.updated == |Filter(rows, CancelPick(selected))|
  {
    UpdateWhere(rows, CancelPick(selected), SetBookingStatus(Cancelled))
  }

  /** `mark_completed` on bookings: selected confirmed bookings become completed. */
  function CompleteBookings(rows: seq<Booking>, selected: set<int>): (r: Bulk<Booking>)
    ensures |r.rows| == |rows|
    ensures forall i :: 0 <= i < |rows| ==>
      r.rows[i] == if rows[i].id in selected && rows[i].status == Confirmed then rows[i].(status := Completed) else rows[i]
    ensures r.updated == |Filter(rows, CompletePick(selected))|
  {
    UpdateWhere(rows, CompletePick(selected), SetBookingStatus(Completed))
  }

  /** Confirming twice: the second run updates nothing. */
  lemma ConfirmSettles(rows: seq<Booking>, selected: set<int>)
    ensures var once := ConfirmBookings(rows, selected).rows;
      ConfirmBookings(once, selected) == Bulk(once, 0)
  {
    UpdateWhereSettles(rows, ConfirmPick(selected), SetBookingStatus(Confirmed));
  }

  /** Completing twice: the second run updates nothing. */
  lemma CompleteSettles(rows: seq<Booking>, selected: set<int>)
    ensures var once := CompleteBookings(rows, selected).rows;
      CompleteBookings(once, selected) == Bulk(once, 0)
  {
    UpdateWhereSettles(rows, CompletePick(selected), SetBookingStatus(Completed));
  }

  /** Rows changed only by leaving the confirmed state keep confirmed slots disjoint. */
  lemma {:induction false} LeavingConfirmedKeepsSlotsDisjoint(rows: seq<Booking>, next: seq<Booking>)
    requires SlotsDisjoint(rows) && |next| == |rows|
    requires forall i :: 0 <= i < |rows| ==> next[i] == rows[i] || next[i].status != Confirmed
    ensures SlotsDisjoint(next)
  {
    forall i, j |
      0 <= i < |next| && 0 <= j < |next| && i != j &&
      next[i].status == Confirmed && next[j].status == Confirmed &&
      next[i].court.id == next[j].court.id && next[i].date == next[j].date
      ensures !Overlaps(next[i].start, next[i].end, next[j])
    {
      assert next[i] == rows[i] && next[j] == rows[j];
    }
  }

  /** Rows changed only by leaving the confirmed state keep the slot constraint the table enforces. */
  lemma LeavingConfirmedKeepsSlotsUnique(rows: seq<Booking>, next: seq<Booking>)
    requires ConfirmedSlotsUnique(rows) && |next| == |rows|
    requires forall i :: 0 <= i < |rows| ==> next[i] == rows[i] || next[i].status != Confirmed
    ensures ConfirmedSlotsUnique(next)
  {
    forall i, j |
      0 <= i < |next| && 0 <= j < |next| && i != j &&
      next[i].status == Confirmed && next[j].status == Confirmed
      ensures !(next[i].court.id == next[j].court.id && next[i].date == next[j].date && next[i].start == next[j].start)
    {
      assert next[i] == rows[i] && next[j] == rows[j];
    }
  }

  /** Cancelling never creates an overlap between confirmed bookings. */
  lemma CancelKeepsSlotsDisjoint(rows: seq<Booking>, selected: set<int>)
    requires SlotsDisjoint(rows)
    ensures SlotsDisjoint(CancelBookings(rows, selected).rows)
  {
    LeavingConfirmedKeepsSlotsDisjoint(rows, CancelBookings(rows, selected).rows);
  }

  /** Completing never creates an overlap between confirmed bookings. */
  lemma CompleteKeepsSlotsDisjoint(rows: seq<Booking>, selected: set<int>)
    requires SlotsDisjoint(rows)
    ensures SlotsDisjoint(CompleteBookings(rows, selected).rows)
  {
    LeavingConfirmedKeepsSlotsDisjoint(rows, CompleteBookings(rows, selected).rows);
  }

  /**
   * Confirming runs none of the booking form's checks: a pending booking overlapping a
   * confirmed one is confirmed beside it.
   */
  lemma ConfirmMayOverlap()
    ensures var court := NewCourt(1, 1, "Court 1");
      var a := NewBooking(1, 2, court, 100, 36000, 39600, 8);
      var b := NewBooking(2, 3, court, 100, 37800, 41400, 8).(status := Pending);
      var r := ConfirmBookings([a, b], {1, 2});
      && SlotsDisjoint([a, b])
      && r.updated == 1
      && ConfirmedSlotsUnique(r.rows)
      && !SlotsDisjoint(r.rows)
  {
    var court := NewCourt(1, 1, "Court 1");
    var a := NewBooking(1, 2, court, 100, 36000, 39600, 8);
    var b := NewBooking(2, 3, court, 100, 37800, 41400, 8).(status := Pending);
    var r := ConfirmBookings([a, b], {1, 2});
    assert [a, b][..1] == [a];
    assert Filter([a], ConfirmPick({1, 2})) == [];
    assert r.rows[0] == a && r.rows[1] == b.(status := Confirmed);
    assert Overlaps(r.rows[0].start, r.rows[0].end, r.rows[1]);
  }

  /** Selecting a cancelled booking and cancelling again counts it once more. */
  lemma CancelCountsCancelled()
    ensures var b := NewBooking(1, 2, NewCourt(1, 1, "Court 1"), 100, 36000, 39600, 8).(status := Cancelled);
      CancelBookings([b], {1}) == Bulk([b], 1)
  {
    var b := NewBooking(1, 2, NewCourt(1, 1, "Court 1"), 100, 36000, 39600, 8).(status := Cancelled);
    assert [b][..0] == [];
  }

  /**
   * As written, `unique_together` includes the status, so cancelling a booking whose slot
   * already holds a cancelled booking makes the two rows collide and the `UPDATE` fails; under
   * the corrected constraint the action goes through and counts one row.
   */
  lemma CancelCollidesAsWritten()
    ensures var court := NewCourt(1, 1, "Court 1");
      var a := NewBooking(1, 5, court, 100, 36000, 39600, 8).(status := Cancelled);
      var b := NewBooking(2, 6, court, 100, 36000, 39600, 8);
      var r := CancelBookings([a, b], {2});
      && UniqueTogether([a, b])
      && !UniqueTogether(r.rows)
      && ConfirmedSlotsUnique(r.rows) && r.updated == 1
  {
    var court := NewCourt(1, 1, "Court 1");
    var a := NewBooking(1, 5, court, 100, 36000, 39600, 8).(status := Cancelled);
    var b := NewBooking(2, 6, court, 100, 36000, 39600, 8);
    SecondOfTwoPicked(a, b, CancelPick({2}), SetBookingStatus(Cancelled));
    var after := [a, b.(status := Cancelled)];
    assert after[0].status == after[1].status;
  }

  /** An update that picks only the second of two rows. */
  lemma SecondOfTwoPicked(a: Booking, b: Booking, pick: Booking -> bool, change: Booking -> Booking)
    requires !pick(a) && pick(b)
    ensures UpdateWhere([a, b], pick, change) == Bulk([a, change(b)], 1)
  {
    assert [a, b][..1] == [a] && [a][..0] == [];
  }

  /** The same collision for `mark_completed`, against a completed booking of the slot. */
  lemma CompleteCollidesAsWritten()
    ensures var court := NewCourt(1, 1, "Court 1");
      var a := NewBooking(1, 5, court, 100, 36000, 39600, 8).(status := Completed);
      var b := NewBooking(2, 6, court, 100, 36000, 39600, 8);
      var r := CompleteBookings([a, b], {2});
      && UniqueTogether([a, b])
      && !UniqueTogether(r.rows)
      && ConfirmedSlotsUnique(r.rows) && r.updated == 1
  {
    var court := NewCourt(1, 1, "Court 1");
    var a := NewBooking(1, 5, court, 100, 36000, 39600, 8).(status := Completed);
    var b := NewBooking(2, 6, court, 100, 36000, 39600, 8);
    SecondOfTwoPicked(a, b, CompletePick({2}), SetBookingStatus(Completed));
    var after := [a, b.(status := Completed)];
    assert after[0].status == after[1].status;
  }

  /**
   * A booking action applied to the table: one `UPDATE`, whose count is returned, or
   * `None` when the database's slot constraint refuses it and nothing changes.
   */
  method ApplyBookingUpdate(table: BookingTable, r: Bulk<Booking>) returns (updated: Option<nat>)
    requires table.Valid() && |r.rows| == |table.rows|
    requires forall i :: 0 <= i < |table.rows| ==> r.rows[i].id == table.rows[i].id
    modifies table
    ensures table.Valid()
    ensures table.nextId == old(table.nextId)
    ensures ConfirmedSlotsUnique(r.rows) ==> updated == Some(r.updated) && table.rows == r.rows
    ensures !ConfirmedSlotsUnique(r.rows) ==> updated == None && table.rows == old(table.rows)
  {
    var ok := table.Update(r.rows);
    updated := if ok then Some(r.updated) else None;
  }

  /** `confirm_booking`: refused when two confirmed bookings would come to share a slot. */
  method ConfirmBooking(table: BookingTable, selected: set<int>) returns (updated: Option<nat>)
    requires table.Valid()
    modifies table
    ensures table.Valid()
    ensures table.nextId == old(table.nextId)
    ensures var r := ConfirmBookings(old(table.rows), selected);
      if ConfirmedSlotsUnique(r.rows) then updated == Some(r.updated) && table.rows == r.rows
      else updated == None && table.rows == old(table.rows)
  {
    updated := ApplyBookingUpdate(table, ConfirmBookings(table.rows, selected));
  }

  /** `cancel_booking`: the table's constraint never refuses it, since rows only leave the confirmed state. */
  method CancelBooking(table: BookingTable, selected: set<int>) returns (updated: Option<nat>)
    requires table.Valid()
    modifies table
    ensures table.Valid()
    ensures table.nextId == old(table.nextId)
    ensures var r := CancelBookings(old(table.rows), selected);
      updated == Some(r.updated) && table.rows == r.rows
  {
    LeavingConfirmedKeepsSlotsUnique(table.rows, CancelBookings(table.rows, selected).rows);
    updated := ApplyBookingUpdate(table, CancelBookings(table.rows, selected));
  }

  /** `mark_completed` on bookings: never refused, for the same reason. */
  method MarkBookingsCompleted(table: BookingTable, selected: set<int>) returns (updated: Option<nat>)
    requires table.Valid()
    modifies table
    ensures table.Valid()
    ensures table.nextId == old(table.nextId)
    ensures var r := CompleteBookings(old(table.rows), selected);
      updated == Some(r.updated) && table.rows == r.rows
  {
    LeavingConfirmedKeepsSlotsUnique(table.rows, CompleteBookings(table.rows, selected).rows);
    updated := ApplyBookingUpdate(table, CompleteBookings(table.rows, selected));
  }

  // ---- Advertisements and tournaments ----

  /** A table the admin actions update in place, with no constraint on `status`. */
  class Records<T(!new)> {
    var rows: seq<T>

    constructor (rows: seq<T>)
      ensures this.rows == rows
    {
      this.rows := rows;
    }

    method Apply(pick: T -> bool, change: T -> T) returns (updated: nat)
      modifies this
      ensures rows == UpdateWhere(old(rows), pick, change).rows
      ensures updated == UpdateWhere(old(rows), pick, change).updated
    {
      var r := UpdateWhere(rows, pick, change);
      rows, updated := r.rows, r.updated;
    }
  }

  function SetAdStatus(s: AdStatus): Advertisement -> Advertisement
  {
    (a: Advertisement) => a.(status := s)
  }

  function AdPick(selected: set<int>, from: AdStatus): Advertisement -> bool
  {
    (a: Advertisement) => a.id in selected && a.status == from
  }

  /** `approve_ads`: selected pending ads become approved. */
  function ApproveAds(rows: seq<Advertisement>, selected: set<int>): (r: Bulk<Advertisement>)
    ensures |r.rows| == |rows|
    ensures forall i :: 0 <= i < |rows| ==>
      r.rows[i] == if rows[i].id in selected && rows[i].status == AdPending then rows[i].(status := AdApproved) else rows[i]
    ensures r.updated == |Filter(rows, AdPick(selected, AdPending))|
  {
    UpdateWhere(rows, AdPick(selected, AdPending), SetAdStatus(AdApproved))
  }

  /** `reject_ads`: selected pending ads become rejected. */
  function RejectAds(rows: seq<Advertisement>, selected: set<int>): (r: Bulk<Advertisement>)
    ensures |r.rows| == |rows|
    ensures forall i :: 0 <= i < |rows| ==>
      r.rows[i] == if rows[i].id in selected && rows[i].status == AdPending then rows[i].(status := AdRejected) else rows[i]
    ensures r.updated == |Filter(rows, AdPick(selected, AdPending))|
  {
    UpdateWhere(rows, AdPick(selected, AdPending), SetAdStatus(AdRejected))
  }

  /** `mark_active`: selected approved ads become active. */
  function MarkAdsActive(rows: seq<Advertisement>, selected: set<int>): (r: Bulk<Advertisement>)
    ensures |r.rows| == |rows|
    ensures forall i :: 0 <= i < |rows| ==>
      r.rows[i] == if rows[i].id in selected && rows[i].status == AdApproved then rows[i].(status := AdActive) else rows[i]
    ensures r.updated == |Filter(rows, AdPick(selected, AdApproved))|
  {
    UpdateWhere(rows, AdPick(selected, AdApproved), SetAdStatus(AdActive))
  }

  /** A decided ad is never decided again: after approving, rejecting the same selection updates nothing. */
  lemma ApprovedNotRejected(rows: seq<Advertisement>, selected: set<int>)
    ensures RejectAds(ApproveAds(rows, selected).rows, selected).updated == 0
  {
    var approved := ApproveAds(rows, selected).rows;
    assert forall i :: 0 <= i < |approved| ==> approved[i].status != AdPending || approved[i].id !in selected;
    FilterNone(approved, AdPick(selected, AdPending));
  }

  /** After rejecting, approving the same selection updates nothing. */
  lemma RejectedNotApproved(rows: seq<Advertisement>, selected: set<int>)
    ensures ApproveAds(RejectAds(rows, selected).rows, selected).updated == 0
  {
    var rejected := RejectAds(rows, selected).rows;
    assert forall i :: 0 <= i < |rejected| ==> rejected[i].status != AdPending || rejected[i].id !in selected;
    FilterNone(rejected, AdPick(selected, AdPending));
  }

  method ApproveAdsAction(table: Records<Advertisement>, selected: set<int>) returns (updated: nat)
    modifies table
    ensures (table.rows, updated) == (ApproveAds(old(table.rows), selected).rows, ApproveAds(old(table.rows), selected).updated)
  {
    updated := table.Apply(AdPick(selected, AdPending), SetAdStatus(AdApproved));
  }

  method RejectAdsAction(table: Records<Advertisement>, selected: set<int>) returns (updated: nat)
    modifies table
    ensures (table.rows, updated) == (RejectAds(old(table.rows), selected).rows, RejectAds(old(table.rows), selected).updated)
  {
    updated := table.Apply(AdPick(selected, AdPending), SetAdStatus(AdRejected));
  }

  method MarkAdsActiveAction(table: Records<Advertisement>, selected: set<int>) returns (updated: nat)
    modifies table
    ensures (table.rows, updated) == (MarkAdsActive(old(table.rows), selected).rows, MarkAdsActive(old(table.rows), selected).updated)
  {
    updated := table.Apply(AdPick(selected, AdApproved), SetAdStatus(AdActive));
  }

  function SetTournamentStatus(s: TournamentStatus): Tournament -> Tournament
  {
    (t: Tournament) => t.(status := s)
  }

  function TournamentPick(selected: set<int>, from: TournamentStatus): Tournament -> bool
  {
    (t: Tournament) => t.id in selected && t.status == from
  }

  function Selected(selected: set<int>): Tournament -> bool
  {
    (t: Tournament) => t.id in selected
  }

  /** `mark_ongoing`: selected upcoming tournaments become ongoing. */
  function MarkOngoing(rows: seq<Tournament>, selected: set<int>): (r: Bulk<Tournament>)
    ensures |r.rows| == |rows|
    ensures forall i :: 0 <= i < |rows| ==>
      r.rows[i] == if rows[i].id in selected && rows[i].status == Upcoming then rows[i].(status := Ongoing) else rows[i]
    ensures r.updated == |Filter(rows, TournamentPick(selected, Upcoming))|
  {
    UpdateWhere(rows, TournamentPick(selected, Upcoming), SetTournamentStatus(Ongoing))
  }

  /** `mark_completed` on tournaments: selected ongoing tournaments become completed. */
  function MarkTournamentsCompleted(rows: seq<Tournament>, selected: set<int>): (r: Bulk<Tournament>)
    ensures |r.rows| == |rows|
    ensures forall i :: 0 <= i < |rows| ==>
      r.rows[i] == if rows[i].id in selected && rows[i].status == Ongoing then rows[i].(status := TournamentCompleted) else rows[i]
    ensures r.updated == |Filter(rows, TournamentPick(selected, Ongoing))|
  {
    UpdateWhere(rows, TournamentPick(selected, Ongoing), SetTournamentStatus(TournamentCompleted))
  }

  /** `mark_cancelled`: every selected tournament, completed ones included, becomes cancelled, and all count. */
  function CancelTournaments(rows: seq<Tournament>, selected: set<int>): (r: Bulk<Tournament>)
    ensures |r.rows| == |rows|
    ensures forall i :: 0 <= i < |rows| ==>
      r.rows[i] == if rows[i].id in selected then rows[i].(status := TournamentCancelled) else rows[i]
    ensures r.updated == |Filter(rows, Selected(selected))|
  {
    UpdateWhere(rows, Selected(selected), SetTournamentStatus(TournamentCancelled))
  }

  /** Upcoming, then ongoing, then completed: two steps take a selected upcoming tournament to completed. */
  lemma OngoingThenCompleted(rows: seq<Tournament>, selected: set<int>)
    ensures var done := MarkTournamentsCompleted(MarkOngoing(rows, selected).rows, selected).rows;
      forall i :: 0 <= i < |rows| && rows[i].id in selected && rows[i].status == Upcoming ==>
        done[i] == rows[i].(status := TournamentCompleted)
  {
  }

  method MarkOngoingAction(table: Records<Tournament>, selected: set<int>) returns (updated: nat)
    modifies table
    ensures (table.rows, updated) == (MarkOngoing(old(table.rows), selected).rows, MarkOngoing(old(table.rows), selected).updated)
  {
    updated := table.Apply(TournamentPick(selected, Upcoming), SetTournamentStatus(Ongoing));
  }

  method MarkTournamentsCompletedAction(table: Records<Tournament>, selected: set<int>) returns (updated: nat)
    modifies table
    ensures (table.rows, updated) ==
      (MarkTournamentsCompleted(old(table.rows), selected).rows, MarkTournamentsCompleted(old(table.rows), selected).updated)
  {
    updated := table.Apply(TournamentPick(selected, Ongoing), SetTournamentStatus(TournamentCompleted));
  }

  method CancelTournamentsAction(table: Records<Tournament>, selected: set<int>) returns (updated: nat)
    modifies table
    ensures (table.rows, updated) == (CancelTournaments(old(table.rows), selected).rows, CancelTournaments(old(table.rows), selected).updated)
  {
    updated := table.Apply(Selected(selected), SetTournamentStatus(TournamentCancelled));
  }

  // ---- Display helpers ----

  /** `BookingAdmin.time_slot`: "HH:MM - HH:MM", whose halves read back as the booking's times to the minute. */
  function BookingTimeSlot(b: Booking): (s: string)
    ensures |s| == 13 && s[5..8] == " - "
    ensures ParseHhMm(s[..5]) == Some(b.start - b.start % SecondsPerMinute)
    ensures ParseHhMm(s[8..]) == Some(b.end - b.end % SecondsPerMinute)
  {
    TimeSlotRoundTrip(b.start, b.end);
    TimeSlot(b.start, b.end)
  }

  /** The day count the tournament summary shows: both the first and the last day included. */
  function TournamentDays(t: Tournament): int
  {
    (t.endDate - t.startDate) + 1
  }

  /** The day count is the number of dates from the start date to the end date inclusive. */
  lemma TournamentDaysCountsBothEnds(t: Tournament)
    requires t.startDate <= t.endDate
    ensures TournamentDays(t) == |DateRange(t.startDate, t.endDate)|
  {
    DateRangeSize(t.startDate, t.endDate);
  }

  /** The dates `first..last`, both included. */
  function DateRange(first: int, last: int): (r: set<int>)
    ensures forall d :: d in r <==> first <= d <= last
    decreases last - first
  {
    if first > last then {} else DateRange(first, last - 1) + {last}
  }

  lemma {:induction false} DateRangeSize(first: int, last: int)
    requires first <= last + 1
    ensures |DateRange(first, last)| == last - first + 1
    decreases last - first
  {
    if first <= last {
      DateRangeSize(first, last - 1);
      assert last !in DateRange(first, last - 1);
    }
  }

  const RulesLimit: nat := 100

  /** The rules as the summary shows them: cut to 100 characters and marked with "..." when longer. */
  function RulesShown(rules: string): (r: string)
    ensures |rules| <= RulesLimit ==> r == rules
    ensures |rules| > RulesLimit ==> |r| == RulesLimit + 3 && r[..RulesLimit] == rules[..RulesLimit] && r[RulesLimit..] == "..."
    ensures |r| <= RulesLimit + 3
  {
    if |rules| > RulesLimit then rules[..RulesLimit] + "..." else rules
  }

  /** The entry fee as shown: the amount, or "Free" when it is not positive. */
  datatype FeeShown = Amount(paise: int) | Free

  function EntryFeeShown(fee: int): (r: FeeShown)
    ensures r == Free <==> fee <= 0
    ensures r.Amount? ==> r.paise == fee && r.paise > 0
  {
    if fee > 0 then Amount(fee) else Free
  }

  /** The prize pool as shown: the text, or "TBD" when it is empty. */
  function PrizePoolShown(prize: string): (r: string)
    ensures prize == "" ==> r == "TBD"
    ensures prize != "" ==> r == prize
  {
    if prize != "" then prize else "TBD"
  }

  datatype Summary = Summary(days: int, first: int, last: int, maxTeams: nat, fee: FeeShown, prize: string, rules: string)

  /** `TournamentAdmin.tournament_summary`, with the dates left as day numbers. */
  function TournamentSummary(t: Tournament): (s: Summary)
    ensures t.startDate <= t.endDate ==> s.days == |DateRange(t.startDate, t.endDate)|
    ensures t.startDate > t.endDate ==> s.days <= 0
    ensures s.days == 1 + (t.endDate - t.startDate)
    ensures s.first == t.startDate && s.last == t.endDate && s.maxTeams == t.maxTeams
    ensures s.fee == EntryFeeShown(t.entryFee) && s.prize == PrizePoolShown(t.prizePool) && s.rules == RulesShown(t.rules)
  {
    if t.startDate <= t.endDate then TournamentDaysCountsBothEnds(t); Summary(TournamentDays(t), t.startDate, t.endDate, t.maxTeams, EntryFeeShown(t.entryFee), PrizePoolShown(t.prizePool), RulesShown(t.rules))
    else Summary(TournamentDays(t), t.startDate, t.endDate, t.maxTeams, EntryFeeShown(t.entryFee), PrizePoolShown(t.prizePool), RulesShown(t.rules))
  }
}
