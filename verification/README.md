# IdpResponse in Dafny

A model of FirebaseUI-Android's `IdpResponse`: the immutable object that
carries the outcome of one sign-in attempt with an identity provider. A
response holds five fields: user, token, secret, pending credential and error.
It is made in three ways:

- `fromError` wraps a caught exception.
- `Builder(AuthCredential).build()` records an anonymous-upgrade merge conflict.
- `Builder(User).build()` records a success, after the provider checks.

The response is compared and hashed over four of its five fields, and it is
written to and read back from an Android `Parcel`.

Files:

- `wrappers.dfy` (`Wrappers`): `Option` stands for a Java `null`; `Result` stands for a thrown exception.
- `auth.dfy` (`Auth`): the collaborators the response holds but does not own.
  - `User`, `AuthCredential`, `FirebaseUiException` and `Throwable` (any exception).
  - `AuthUiConfig`: the constants that live in other classes. These are the supported and social provider sets, the Twitter provider id, `Activity.RESULT_OK` and the `ErrorCodes` values. Every operation that reads them takes them as a parameter.
  - `IsEmpty`: `TextUtils.isEmpty`.
- `int32.dfy` (`Int32`): Java `int` wrap-around, used by `hashCode`.
- `idp_response.dfy` (`Responses`):
  - the `IdpResponse` record and the `WellFormed` shape invariant;
  - the private constructors, `fromError` and the accessors;
  - `equals` and `hashCode`;
  - the `Builder` and `build()`.
- `parcel.dfy` (`Parcel`): `writeToParcel` and `CREATOR.createFromParcel` as a pure codec.
  - A parcel is a sequence of slots.
  - The serialized exception is written as its chain of causes, one slot per exception, ended by a null slot.

The shape invariant `WellFormed` says three things:

- A user is present exactly when there is no error.
- A pending credential appears only with the `ANONYMOUS_UPGRADE_MERGE_CONFLICT` code.
- A failure carries no token and no secret.

Every public factory (`FromError`, `Build`) establishes it. Decoding does not
enforce it: `createFromParcel` calls the unrestricted five-argument
constructor, so a parcel holding both a user and an error is read as it is
(`Parcel.DecodeKeepsIllFormed`).

A builder holding both a user and a credential takes the user branch, and the
credential plays no part (`Responses.UserWinsOverCredential`). Java's two
`Builder` constructors each set the other field to `null`, so only the model's
`Builder` record can hold both; the lemma records the branch order of
`build()`. In the code, a builder holding
neither can only arise from a `null` constructor argument. The model writes
that case as a `Builder` record with both fields `None`.

The getters `getProviderType`, `getEmail` and `getPhoneNumber` dereference the
user without a check. Their models (`GetProviderType`, `GetEmail`,
`GetPhoneNumber`) therefore require a user to be present.

## Model

| member | source | states |
|---|---|---|
| Int32.Wrap | auth/src/main/java/com/firebase/ui/auth/IdpResponse.java:238-242 | a Java `int` result is the exact value reduced to 32 bits: it is in range and congruent to the exact value modulo 2^32 |
| Responses.GetErrorCode | auth/src/main/java/com/firebase/ui/auth/IdpResponse.java:192-199 | a successful response reports `RESULT_OK`; a failed one reports its error's code; a well-formed response holding a pending credential reports `ANONYMOUS_UPGRADE_MERGE_CONFLICT` |
| Responses.SuccessMeansUserBuild | auth/src/main/java/com/firebase/ui/auth/IdpResponse.java:128-131 | a response from `build()` is successful exactly when the builder held a user, and then its provider type is that user's; a response from `fromError` is never successful |
| Responses.OfError | auth/src/main/java/com/firebase/ui/auth/IdpResponse.java:63-65 | the error-only constructor gives an unsuccessful response with that error and no user, token, secret or credential |
| Responses.OfPendingCredential | auth/src/main/java/com/firebase/ui/auth/IdpResponse.java:67-72 | the credential constructor gives a well-formed, unsuccessful response that keeps the credential and stores a new `ANONYMOUS_UPGRADE_MERGE_CONFLICT` exception with no cause |
| Responses.OfUser | auth/src/main/java/com/firebase/ui/auth/IdpResponse.java:74-79 | the user constructor gives a successful response with exactly that user, token and secret and no pending credential |
| Responses.FromError | auth/src/main/java/com/firebase/ui/auth/IdpResponse.java:114-121 | a FirebaseUiException is stored unchanged; any other exception becomes an `UNKNOWN_ERROR` with it as the cause; either way the result is well-formed and unsuccessful, has no user or credential, and its error code is the stored error's code |
| Responses.EqualsIgnoresOnlyPendingCredential | auth/src/main/java/com/firebase/ui/auth/IdpResponse.java:223-234 | two responses are `equals` exactly when they agree once their pending credentials are made the same |
| Responses.EqualsIsEquivalence | auth/src/main/java/com/firebase/ui/auth/IdpResponse.java:223-234 | `equals` is reflexive, symmetric and transitive |
| Responses.HashCodePolynomial | auth/src/main/java/com/firebase/ui/auth/IdpResponse.java:236-243 | `hashCode`, computed step by step in wrapping `int`, equals 31^3·user + 31^2·token + 31·secret + error reduced once to 32 bits, with 0 for each null field |
| Responses.EqualsHashConsistent | auth/src/main/java/com/firebase/ui/auth/IdpResponse.java:223-243 | responses that are `equals` have the same `hashCode`, whatever the field classes' hash functions are |
| Responses.PendingCredentialInvisible | auth/src/main/java/com/firebase/ui/auth/IdpResponse.java:223-243 | changing only the pending credential changes neither `equals` nor `hashCode` |
| Responses.Build | auth/src/main/java/com/firebase/ui/auth/IdpResponse.java:284-307 | build succeeds exactly for a user whose provider passes the checks, or for a credential without a user. A user build returns exactly the builder's user, token and secret, with `RESULT_OK` and a supported provider. A credential build returns a merge-conflict failure (a causeless `ANONYMOUS_UPGRADE_MERGE_CONFLICT` exception) with no user, token or secret. Neither gives the missing-user-or-credential error; an unsupported provider gives the unknown-provider error. Every response built is well-formed |
| Responses.UnknownProviderIgnoresSetters | auth/src/main/java/com/firebase/ui/auth/IdpResponse.java:274-289 | an unsupported provider fails with the unknown-provider error whatever token and secret were set |
| Responses.SocialProviderNeedsToken | auth/src/main/java/com/firebase/ui/auth/IdpResponse.java:290-293 | a supported social provider with a null or empty token fails with the missing-token error |
| Responses.PlainProviderNeedsNoToken | auth/src/main/java/com/firebase/ui/auth/IdpResponse.java:290-300 | a supported provider that is neither social nor Twitter builds a success with no token and no secret |
| Responses.TwitterNeedsSecret | auth/src/main/java/com/firebase/ui/auth/IdpResponse.java:294-298 | Twitter with a null or empty secret fails with the missing-secret error even when a non-empty token is set |
| Responses.CredentialIgnoresSetters | auth/src/main/java/com/firebase/ui/auth/IdpResponse.java:274-302 | a credential builder builds the same merge-conflict response whatever token and secret were set |
| Responses.UserWinsOverCredential | auth/src/main/java/com/firebase/ui/auth/IdpResponse.java:284-302 | when a user is present, a credential in the builder has no effect on the outcome |
| Responses.GoogleSignInScenario | auth/src/main/java/com/firebase/ui/auth/IdpResponse.java:143-168 | a supported social provider with a token builds a success whose provider type, email and token are the ones supplied |
| Parcel.ReadThrowable | auth/src/main/java/com/firebase/ui/auth/IdpResponse.java:44 | reading an exception chain succeeds only on a parcel that begins with the writing of what it returns, followed by the unread rest |
| Parcel.ThrowableRoundTrip | auth/src/main/java/com/firebase/ui/auth/IdpResponse.java:220 | reading back a written exception chain returns that chain and leaves whatever followed it unread |
| Parcel.ReadUiException | auth/src/main/java/com/firebase/ui/auth/IdpResponse.java:44 | the cast to FirebaseUiException succeeds only on the writing of a FirebaseUiException chain or of null; a readable chain headed by another exception class fails the cast |
| Parcel.CreateFromParcel | auth/src/main/java/com/firebase/ui/auth/IdpResponse.java:36-46 | a parcel is decoded only if it begins with the encoding of the decoded response |
| Parcel.RoundTrip | auth/src/main/java/com/firebase/ui/auth/IdpResponse.java:214-221 | decoding an encoded response gives back all five fields exactly, whatever follows in the parcel |
| Parcel.RoundTripEquals | auth/src/main/java/com/firebase/ui/auth/IdpResponse.java:39-45 | the decoded response is `equals` to the original and is well-formed exactly when the original is |
| Parcel.DecodeKeepsIllFormed | auth/src/main/java/com/firebase/ui/auth/IdpResponse.java:39-45 | a parcel holding both a user and an error decodes to a response that breaks the shape invariant; the decoder does not enforce it |
| Parcel.ForeignExceptionFailsCast | auth/src/main/java/com/firebase/ui/auth/IdpResponse.java:44 | a parcel whose serialized exception is not a FirebaseUiException fails with a class-cast error |

## Left out

- `fromResultIntent`, `toIntent` and `getErrorIntent` are left out. They only put the response into an Android `Intent` extra, or take it out.
- `describeContents` is left out. The Android `Parcel` and Java `Serializable` mechanisms are replaced by the slot-sequence codec. Their real byte layouts are not modelled. The slot codec rejects a truncated or mistyped parcel (`EndOfParcel`, `UnexpectedSlot`); Android's `Parcel` instead returns null for reads past the end, so Java would decode a truncated parcel to an all-null response.
- `toString` is left out. It is diagnostic formatting only.
- The Android annotations are left out.
- `getUser`, `getIdpToken`, `getIdpSecret`, `getPendingCredential` and `getError` have no separate members. They are the record's field selectors (`user`, `token`, `secret`, `pendingCredential`, `error`).
- `User`, `AuthCredential` and `FirebaseUiException` are not part of this model.
  - `User` and `FirebaseUiException` are reduced to the fields the response reads, and compared structurally.
  - `AuthCredential` is an opaque handle. The response stores, returns and writes it but reads none of its fields; its two fields only give it equality and distinct values.
  - Java's `Throwable` compares by identity unless a subclass overrides `equals`. `Parcel.RoundTripEquals` therefore holds only if `FirebaseUiException` compares by value.
- Responses.EqualsIgnoresOnlyPendingCredential: the error field is compared by value. Each `fromError` on a foreign exception and each credential build creates a new `FirebaseUiException`; two such responses are `Equals` here, but in Java they compare unequal unless `FirebaseUiException` overrides `equals`.
- `AuthUI.SUPPORTED_PROVIDERS`, `AuthUI.SOCIAL_PROVIDERS`, `TwitterAuthProvider.PROVIDER_ID`, `Activity.RESULT_OK` and the `ErrorCodes` values are not part of this model. They are fields of the `AuthUiConfig` parameter.
- Responses.HashCodePolynomial: the `hashCode` of `User`, `String` and `FirebaseUiException` is left abstract. These are the `Hashers` parameter, with any `int`-valued functions.
- Responses.Equals: the `this == o` shortcut and the `null` and other-class checks are not modelled. The model only compares two `IdpResponse` values, where these checks change nothing.
- The messages of the `IllegalStateException`s thrown by `build()` are not modelled. Only their kind is (`BuildError`), including the unknown provider's id.
