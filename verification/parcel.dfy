/**
 * writeToParcel and CREATOR.createFromParcel as a pure codec over a parcel
 * modelled as a sequence of slots. Parcelables and strings take one slot
 * each; the Serializable exception is written as its cause chain, one slot
 * per exception, ended by a null slot.
 */
module Parcel {
  import opened Wrappers
  import opened Auth
  import opened Responses

  datatype Slot =
    | UserSlot(user: Option<User>)
    | StringSlot(str: Option<string>)
    | CredentialSlot(credential: Option<AuthCredential>)
    | NullObject
    | UiExceptionObject(code: int)
    | OtherExceptionObject(className: string, message: Option<string>)

  /** Why reading a parcel fails: the wrong slot, the end of the parcel, or a failed cast. */
  datatype ParcelError = UnexpectedSlot | EndOfParcel | ClassCast

  /** writeSerializable of an exception and its chain of causes. */
  function WriteThrowable(t: Option<Throwable>): seq<Slot>
    decreases t
  {
    match t
    case None => [NullObject]
    case Some(UiThrowable(FirebaseUiException(code, cause))) =>
      [UiExceptionObject(code)] + WriteThrowable(cause)
    case Some(OtherThrowable(className, message, cause)) =>
      [OtherExceptionObject(className, message)] + WriteThrowable(cause)
  }

  /** readSerializable: rebuilds an exception chain and returns the unread rest. */
  function ReadThrowable(s: seq<Slot>): (r: Result<(Option<Throwable>, seq<Slot>), ParcelError>)
    ensures r.Success? ==> WriteThrowable(r.value.0) + r.value.1 == s
    decreases |s|
  {
    if |s| == 0 then Failure(EndOfParcel)
    else match s[0]
      case NullObject => Success((None, s[1..]))
      case UiExceptionObject(code) =>
        var cause :- ReadThrowable(s[1..]);
        Success((Some(UiThrowable(FirebaseUiException(code, cause.0))), cause.1))
      case OtherExceptionObject(className, message) =>
        var cause :- ReadThrowable(s[1..]);
        Success((Some(OtherThrowable(className, message, cause.0)), cause.1))
      case _ => Failure(UnexpectedSlot)
  }

  lemma {:induction false} ThrowableRoundTrip(t: Option<Throwable>, rest: seq<Slot>)
    ensures ReadThrowable(WriteThrowable(t) + rest) == Success((t, rest))
    decreases t
  {
    match t
    case None =>
      assert (WriteThrowable(t) + rest)[1..] == rest;
    case Some(UiThrowable(FirebaseUiException(code, cause))) =>
      ThrowableRoundTrip(cause, rest);
      assert (WriteThrowable(t) + rest)[1..] == WriteThrowable(cause) + rest;
    case Some(OtherThrowable(className, message, cause)) =>
      ThrowableRoundTrip(cause, rest);
      assert (WriteThrowable(t) + rest)[1..] == WriteThrowable(cause) + rest;
  }

  function AsThrowable(e: Option<FirebaseUiException>): Option<Throwable> {
    if e.None? then None else Some(UiThrowable(e.value))
  }

  /** The `(FirebaseUiException) in.readSerializable()` cast of CREATOR. */
  function ReadUiException(s: seq<Slot>): (r: Result<(Option<FirebaseUiException>, seq<Slot>), ParcelError>)
    ensures r.Success? ==> WriteThrowable(AsThrowable(r.value.0)) + r.value.1 == s
    ensures r.Failure? && ReadThrowable(s).Success? ==> r.error == ClassCast
  {
    var t :- ReadThrowable(s);
    match t.0
    case None => Success((None, t.1))
    case Some(UiThrowable(e)) => Success((Some(e), t.1))
    case Some(OtherThrowable(_, _, _)) => Failure(ClassCast)
  }

  function ReadUser(s: seq<Slot>): Result<(Option<User>, seq<Slot>), ParcelError> {
    if |s| == 0 then Failure(EndOfParcel)
    else if s[0].UserSlot? then Success((s[0].user, s[1..]))
    else Failure(UnexpectedSlot)
  }

  function ReadString(s: seq<Slot>): Result<(Option<string>, seq<Slot>), ParcelError> {
    if |s| == 0 then Failure(EndOfParcel)
    else if s[0].StringSlot? then Success((s[0].str, s[1..]))
    else Failure(UnexpectedSlot)
  }

  function ReadCredential(s: seq<Slot>): Result<(Option<AuthCredential>, seq<Slot>), ParcelError> {
    if |s| == 0 then Failure(EndOfParcel)
    else if s[0].CredentialSlot? then Success((s[0].credential, s[1..]))
    else Failure(UnexpectedSlot)
  }

  /** writeToParcel: user, token, secret, pending credential, exception. */
  function WriteToParcel(r: IdpResponse): seq<Slot> {
    [UserSlot(r.user), StringSlot(r.token), StringSlot(r.secret), CredentialSlot(r.pendingCredential)]
      + WriteThrowable(AsThrowable(r.error))
  }

  /**
   * createFromParcel: reads the five fields back in the same order and calls
   * the unrestricted five-argument constructor; whatever follows is left unread.
   */
  function CreateFromParcel(s: seq<Slot>): (r: Result<IdpResponse, ParcelError>)
    ensures r.Success? ==> WriteToParcel(r.value) <= s
  {
    var u :- ReadUser(s);
    var token :- ReadString(u.1);
    var secret :- ReadString(token.1);
    var p :- ReadCredential(secret.1);
    var e :- ReadUiException(p.1);
    assert s == WriteToParcel(IdpResponse(u.0, token.0, secret.0, p.0, e.0)) + e.1;
    Success(IdpResponse(u.0, token.0, secret.0, p.0, e.0))
  }

  /** Reading back what was written yields all five fields, whatever follows in the parcel. */
  lemma RoundTrip(r: IdpResponse, rest: seq<Slot>)
    ensures CreateFromParcel(WriteToParcel(r) + rest) == Success(r)
  {
    var s := WriteToParcel(r) + rest;
    ThrowableRoundTrip(AsThrowable(r.error), rest);
    assert s[4..] == WriteThrowable(AsThrowable(r.error)) + rest;
  }

  /** The decoded response is equal to the original, and keeps its shape. */
  lemma RoundTripEquals(c: AuthUiConfig, r: IdpResponse)
    ensures CreateFromParcel(WriteToParcel(r)).Success?
    ensures Equals(CreateFromParcel(WriteToParcel(r)).value, r)
    ensures WellFormed(c, r) <==> WellFormed(c, CreateFromParcel(WriteToParcel(r)).value)
  {
    RoundTrip(r, []);
    assert WriteToParcel(r) + [] == WriteToParcel(r);
  }

  /** Decoding does not enforce the shape: a parcel holding both a user and an error is read as it is. */
  lemma DecodeKeepsIllFormed(c: AuthUiConfig, u: User)
    ensures var r := CreateFromParcel([UserSlot(Some(u)), StringSlot(None), StringSlot(None),
                                       CredentialSlot(None), UiExceptionObject(c.unknownError), NullObject]);
            && r.Success? && r.value.user == Some(u) && r.value.error.Some?
            && !WellFormed(c, r.value)
  {
    var bad := IdpResponse(Some(u), None, None, None, Some(FirebaseUiException(c.unknownError, None)));
    RoundTrip(bad, []);
    assert WriteToParcel(bad) + [] == [UserSlot(Some(u)), StringSlot(None), StringSlot(None),
                                       CredentialSlot(None), UiExceptionObject(c.unknownError), NullObject];
  }

  /** A parcel whose exception is not a FirebaseUiException fails the cast. */
  lemma ForeignExceptionFailsCast(u: Option<User>, className: string)
    ensures CreateFromParcel([UserSlot(u), StringSlot(None), StringSlot(None), CredentialSlot(None),
                              OtherExceptionObject(className, None), NullObject]) == Failure(ClassCast)
  {
    var tail := [OtherExceptionObject(className, None), NullObject];
    ThrowableRoundTrip(Some(OtherThrowable(className, None, None)), []);
    assert WriteThrowable(Some(OtherThrowable(className, None, None))) + [] == tail;
  }
}
