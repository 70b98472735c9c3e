/**
 * The user app's serializers: registration (validation of the two password fields, then the
 * user record built from the rest) and the booking count of the user detail view.
 */
module UserSerializers {
  import opened Wrappers
  import opened Query
  import opened Models

  /** A registration payload; every field is present. */
  datatype Registration = Registration(
    email: string, password: string, password2: string, firstName: string, lastName: string, phone: string)

  /** A user row; `credential` is whatever `set_password` stores, never the password itself. */
  datatype User = User(
    email: string, firstName: string, lastName: string, phone: string, credential: string,
    isStaff: bool, isSuperuser: bool)

  /** An error reported against one field. */
  datatype FieldError = FieldError(field: string, message: string)

  const MinPasswordLength: nat := 8
  const BlankMessage: string := "This field may not be blank."
  const MinLengthMessage: string := "Ensure this field has at least 8 characters."
  const PasswordsMustMatch: string := "Passwords must match"

  /** The field-level checks of a `CharField(min_length=8)` that does not allow blanks. */
  function PasswordFieldError(field: string, value: string): (r: Option<FieldError>)
    ensures r.None? <==> |value| >= MinPasswordLength
    ensures r.Some? ==> r.value.field == field
    ensures r.Some? ==> (r.value.message == BlankMessage <==> value == "")
    ensures value == "" ==> r == Some(FieldError(field, BlankMessage))
    ensures 0 < |value| < MinPasswordLength ==> r == Some(FieldError(field, MinLengthMessage))
  {
    if value == "" then Some(FieldError(field, BlankMessage))
    else if |value| < MinPasswordLength then Some(FieldError(field, MinLengthMessage))
    else None
  }

  /** Field errors of both password fields, `password` first. */
  function FieldErrors(d: Registration): (r: seq<FieldError>)
    ensures r == [] <==> |d.password| >= MinPasswordLength && |d.password2| >= MinPasswordLength
    ensures |r| <= 2
  {
    var first := PasswordFieldError("password", d.password);
    var second := PasswordFieldError("password2", d.password2);
    (if first.Some? then [first.value] else []) + (if second.Some? then [second.value] else [])
  }

  /**
   * `is_valid()`: the field checks, and only when they all pass, `validate`, which rejects
   * differing passwords under the key "password" and otherwise returns the data unchanged.
   */
  function Validate(d: Registration): (r: Result<Registration, seq<FieldError>>)
    ensures r.Success? <==> |d.password| >= MinPasswordLength && |d.password2| >= MinPasswordLength && d.password == d.password2
    ensures r.Success? ==> r.value == d
    ensures FieldErrors(d) != [] ==> r == Failure(FieldErrors(d))
    ensures FieldErrors(d) == [] && d.password != d.password2 ==> r == Failure([FieldError("password", PasswordsMustMatch)])
  {
    var errors := FieldErrors(d);
    if errors != [] then Failure(errors)
    else if d.password != d.password2 then Failure([FieldError("password", PasswordsMustMatch)])
    else Success(d)
  }

  /** Matching passwords of the right length pass, whatever the other fields hold. */
  lemma MatchingPasswordsAccepted(d: Registration, password: string)
    requires |password| >= MinPasswordLength
    ensures Validate(d.(password := password, password2 := password)) == Success(d.(password := password, password2 := password))
  {
  }

  /**
   * `create`: both password keys are dropped before the user is built; the password reaches
   * the row only through `set_password`, given here as `hash`.
   */
  function CreateUser(d: Registration, hash: string -> string): (u: User)
    ensures u.credential == hash(d.password)
    ensures u.email == d.email && u.firstName == d.firstName && u.lastName == d.lastName && u.phone == d.phone
    ensures !u.isStaff && !u.isSuperuser
  {
    User(d.email, d.firstName, d.lastName, d.phone, hash(d.password), false, false)
  }

  /** `password2` is never stored: two payloads differing only there create the same user. */
  lemma ConfirmationNotStored(d: Registration, other: string, hash: string -> string)
    ensures CreateUser(d.(password2 := other), hash) == CreateUser(d, hash)
  {
  }

  /** The fields the registration serializer outputs. */
  datatype RegistrationOutput = RegistrationOutput(email: string, firstName: string, lastName: string, phone: string)

  function Output(u: User): (o: RegistrationOutput)
    ensures o.email == u.email && o.firstName == u.firstName && o.lastName == u.lastName && o.phone == u.phone
  {
    RegistrationOutput(u.email, u.firstName, u.lastName, u.phone)
  }

  /** Both password fields are write-only: the output does not depend on either, nor on the hash. */
  lemma PasswordsNeverOutput(d: Registration, e: Registration, h: string -> string, k: string -> string)
    requires d.email == e.email && d.firstName == e.firstName && d.lastName == e.lastName && d.phone == e.phone
    ensures Output(CreateUser(d, h)) == Output(CreateUser(e, k))
  {
  }

  /** `get_bookings_count`: the number of bookings the user owns. */
  function BookingsCount(rows: seq<Booking>, user: int): (n: nat)
    ensures n <= |rows|
    ensures n == 0 <==> forall b :: b in rows ==> b.user != user
    ensures n == |BookingsOf(rows, user)|
  {
    var mine := BookingsOf(rows, user);
    FirstIsMember(mine);
    |mine|
  }
}
