/**
 * The collaborators an IdpResponse holds but does not own: the signed-in user,
 * the provider credential, the exception types, and the AuthUI constants the
 * builder consults. Their classes are not part of this model; each is reduced
 * to the parts the response reads, with structural equality.
 */
module Auth {
  import opened Wrappers

  /** The signed-in account: only the three properties the response reads. */
  datatype User = User(providerId: string, email: Option<string>, phoneNumber: Option<string>)

  /**
   * An opaque provider credential, kept across an anonymous-upgrade merge
   * conflict. The response never reads its fields; they only give it
   * equality and distinct values.
   */
  datatype AuthCredential = AuthCredential(provider: string, handle: nat)

  /** FirebaseUI's own exception: an integer error code and an optional cause. */
  datatype FirebaseUiException = FirebaseUiException(code: int, cause: Option<Throwable>)

  /** Any Java exception: either a FirebaseUiException or some other class. */
  datatype Throwable =
    | UiThrowable(ui: FirebaseUiException)
    | OtherThrowable(className: string, message: Option<string>, cause: Option<Throwable>)

  /**
   * The constants of AuthUI, TwitterAuthProvider, Activity and ErrorCodes that
   * IdpResponse reads. Their values live outside this model, so every
   * operation that needs them takes them as a parameter.
   */
  datatype AuthUiConfig = AuthUiConfig(
    supportedProviders: set<string>,
    socialProviders: set<string>,
    twitterProviderId: string,
    resultOk: int,
    unknownError: int,
    anonymousUpgradeMergeConflict: int)

  /** Android's TextUtils.isEmpty: null or of length zero. */
  predicate IsEmpty(s: Option<string>) {
    s.None? || |s.value| == 0
  }
}
