/**
 * The user app's HTML views: the signup error messages, the redirect after login, and the
 * profile page, which prices the user's unpriced bookings before listing them.
 */
module UserViews {
  import opened Wrappers
  import opened Query
  import opened Models
  import opened Forms
  import opened Store
  import opened ApiViews
  import opened UserSerializers

  /** One "field: error" message per error of one field, in order. */
  function FieldMessages(field: string, errors: seq<string>): (r: seq<string>)
    ensures |r| == |errors|
    ensures forall j :: 0 <= j < |errors| ==> r[j] == field + ": " + errors[j]
  {
    seq(|errors|, j requires 0 <= j < |errors| => field + ": " + errors[j])
  }

  /** The messages a failed signup emits, `form.errors` taken field by field. */
  function ExpandErrors(errors: seq<(string, seq<string>)>): seq<string>
  {
    if errors == [] then []
    else ExpandErrors(errors[..|errors| - 1]) + FieldMessages(errors[|errors| - 1].0, errors[|errors| - 1].1)
  }

  /** Every (field, error) pair yields its message. */
  lemma {:induction false} ExpandErrorsCovers(errors: seq<(string, seq<string>)>, k: nat, j: nat)
    requires k < |errors| && j < |errors[k].1|
    ensures errors[k].0 + ": " + errors[k].1[j] in ExpandErrors(errors)
  {
    var n := |errors| - 1;
    if k < n {
      ExpandErrorsCovers(errors[..n], k, j);
    } else {
      assert FieldMessages(errors[n].0, errors[n].1)[j] == errors[k].0 + ": " + errors[k].1[j];
    }
  }

  /** Every message names a field of the form, then ": ". */
  lemma {:induction false} ExpandErrorsNamesFields(errors: seq<(string, seq<string>)>, m: string)
    requires m in ExpandErrors(errors)
    ensures exists k, j :: 0 <= k < |errors| && 0 <= j < |errors[k].1| && m == errors[k].0 + ": " + errors[k].1[j]
  {
    var n := |errors| - 1;
    var init := ExpandErrors(errors[..n]);
    var last := FieldMessages(errors[n].0, errors[n].1);
    if m in init {
      ExpandErrorsNamesFields(errors[..n], m);
      var k, j :| 0 <= k < n && 0 <= j < |errors[..n][k].1| && m == errors[..n][k].0 + ": " + errors[..n][k].1[j];
      assert errors[..n][k] == errors[k];
    } else {
      assert m in last;
      var j :| 0 <= j < |last| && last[j] == m;
      assert m == errors[n].0 + ": " + errors[n].1[j];
    }
  }

  /** `signup_view` on an invalid form: the loop over fields and their errors. */
  method SignupMessages(errors: seq<(string, seq<string>)>) returns (messages: seq<string>)
    ensures messages == ExpandErrors(errors)
  {
    messages := [];
    for k := 0 to |errors|
      invariant messages == ExpandErrors(errors[..k])
    {
      var field := errors[k].0;
      var fieldErrors := errors[k].1;
      ghost var before := messages;
      for j := 0 to |fieldErrors|
        invariant messages == before + FieldMessages(field, fieldErrors[..j])
      {
        messages := messages + [field + ": " + fieldErrors[j]];
      }
      assert fieldErrors[..|fieldErrors|] == fieldErrors;
      assert errors[..k + 1][..k] == errors[..k];
    }
    assert errors[..|errors|] == errors;
  }

  /** `get_success_url`: staff and superusers go to the admin site, everyone else home. */
  function SuccessUrl(u: User): (url: string)
    ensures url == "/admin/" <==> u.isStaff || u.isSuperuser
    ensures url == "/" <==> !u.isStaff && !u.isSuperuser
  {
    if u.isStaff || u.isSuperuser then "/admin/" else "/"
  }

  /** A newly registered user lands on the home page. */
  lemma RegisteredUserGoesHome(d: Registration, hash: string -> string)
    ensures SuccessUrl(CreateUser(d, hash)) == "/"
  {
  }

  /** The profile loop's test: the user's booking whose price is still zero. */
  predicate Unpriced(b: Booking, user: int)
  {
    b.user == user && b.totalPrice == 0.0
  }

  /** The table after the profile loop: each of the user's unpriced rows priced, all else as it was. */
  function Backfilled(rows: seq<Booking>, user: int): (r: seq<Booking>)
    ensures |r| == |rows|
    ensures forall i :: 0 <= i < |rows| && !Unpriced(rows[i], user) ==> r[i] == rows[i]
    ensures forall i :: 0 <= i < |rows| && Unpriced(rows[i], user) ==>
      r[i].totalPrice == Price(rows[i].court.rate, rows[i].start, rows[i].end) && r[i].(totalPrice := 0.0) == rows[i]
  {
    seq(|rows|, i requires 0 <= i < |rows| => BackfillRow(rows[i], user))
  }

  function BackfillRow(b: Booking, user: int): Booking
  {
    if Unpriced(b, user) then CalculatePrice(b) else b
  }

  /** Running the backfill twice leaves the table as running it once does. */
  lemma BackfillIdempotent(rows: seq<Booking>, user: int)
    ensures Backfilled(Backfilled(rows, user), user) == Backfilled(rows, user)
  {
    var once := Backfilled(rows, user);
    var twice := Backfilled(once, user);
    forall i | 0 <= i < |rows| ensures twice[i] == once[i] {
      if Unpriced(once[i], user) {
        CalculatePriceIdempotent(rows[i]);
      }
    }
  }

  /** Rewriting a row's price keeps the slot constraint and the slot invariant. */
  lemma {:induction false} RepricingKeepsConstraints(rows: seq<Booking>, i: nat, price: real)
    requires i < |rows|
    ensures ConfirmedSlotsUnique(rows) ==> ConfirmedSlotsUnique(rows[i := rows[i].(totalPrice := price)])
    ensures SlotsDisjoint(rows) ==> SlotsDisjoint(rows[i := rows[i].(totalPrice := price)])
  {
    var next := rows[i := rows[i].(totalPrice := price)];
    assert forall k :: 0 <= k < |rows| ==>
      next[k].status == rows[k].status && next[k].court == rows[k].court && next[k].date == rows[k].date &&
      next[k].start == rows[k].start && next[k].end == rows[k].end;
  }

  /** The profile page's figures. */
  datatype Profile = Profile(bookings: seq<Booking>, total: nat, confirmed: nat)

  function IsConfirmed(b: Booking): bool
  {
    b.status == Confirmed
  }

  /** The user's bookings, latest date and start first, with the total and the confirmed count. */
  function ProfileOf(rows: seq<Booking>, user: int): (p: Profile)
    ensures multiset(p.bookings) == multiset(BookingsOf(rows, user))
    ensures forall i, j :: 0 <= i < j < |p.bookings| ==>
      p.bookings[i].date > p.bookings[j].date ||
      (p.bookings[i].date == p.bookings[j].date && p.bookings[i].start >= p.bookings[j].start)
    ensures p.total == |p.bookings| == BookingsCount(rows, user)
    ensures p.confirmed == |Filter(p.bookings, IsConfirmed)|
    ensures p.confirmed <= p.total
  {
    var list := SortBy(BookingsOf(rows, user), PastOrder);
    Profile(list, |list|, |Filter(list, IsConfirmed)|)
  }

  /** The row test of `filter(user=user, status='confirmed')`. */
  function OwnConfirmed(user: int): Booking -> bool
  {
    (b: Booking) => b.user == user && b.status == Confirmed
  }

  /**
   * The confirmed count filters the ordered list once more; it is the number of the user's
   * confirmed rows in the table, whatever the order.
   */
  lemma ProfileConfirmedCount(rows: seq<Booking>, user: int)
    ensures ProfileOf(rows, user).confirmed == |Filter(rows, OwnConfirmed(user))|
  {
    var mine := BookingsOf(rows, user);
    FilterCountPermutation(SortBy(mine, PastOrder), mine, IsConfirmed);
    FilterFilter(rows, OwnedBy(user), IsConfirmed, OwnConfirmed(user));
  }

  /** `profile_view`: price the user's unpriced bookings, saving each, then list them. */
  method ProfileView(table: BookingTable, user: int) returns (p: Profile)
    requires table.Valid()
    modifies table
    ensures table.Valid() && table.nextId == old(table.nextId)
    ensures table.rows == Backfilled(old(table.rows), user)
    ensures p == ProfileOf(table.rows, user)
  {
    ghost var start := table.rows;
    var i := 0;
    while i < |table.rows|
      invariant table.Valid() && table.nextId == old(table.nextId)
      invariant 0 <= i <= |table.rows| == |start|
      invariant forall k :: 0 <= k < i ==> table.rows[k] == BackfillRow(start[k], user)
      invariant forall k :: i <= k < |start| ==> table.rows[k] == start[k]
    {
      PriceRow(table, user, i);
      i := i + 1;
    }
    assert table.rows == Backfilled(start, user);
    p := ProfileOf(table.rows, user);
  }

  /** One pass of the profile loop: the row at `i` priced and saved if it is the user's and unpriced. */
  method PriceRow(table: BookingTable, user: int, i: nat)
    requires table.Valid() && i < |table.rows|
    modifies table
    ensures table.Valid() && table.nextId == old(table.nextId)
    ensures table.rows == old(table.rows)[i := BackfillRow(old(table.rows)[i], user)]
  {
    var b := table.rows[i];
    if Unpriced(b, user) {
      RepricingKeepsConstraints(table.rows, i, CalculatePrice(b).totalPrice);
      assert table.rows[i := CalculatePrice(b)] == table.rows[i := b.(totalPrice := CalculatePrice(b).totalPrice)];
      var ok := table.Save(i, CalculatePrice(b));
      assert ok;
    } else {
      assert table.rows[i := b] == table.rows;
    }
  }

  /** After the profile view no booking of the user is left at price zero unless its price computes to zero. */
  lemma ProfileLeavesNoneUnpriced(rows: seq<Booking>, user: int, i: nat)
    requires i < |rows| && rows[i].user == user
    ensures var after := Backfilled(rows, user);
      after[i].totalPrice == 0.0 ==> Price(rows[i].court.rate, rows[i].start, rows[i].end) == 0.0
  {
  }

  /** Pricing bookings never touches another user's rows. */
  lemma BackfillLeavesOthersAlone(rows: seq<Booking>, user: int, i: nat)
    requires i < |rows| && rows[i].user != user
    ensures Backfilled(rows, user)[i] == rows[i]
  {
  }
}
