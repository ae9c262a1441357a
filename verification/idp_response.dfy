/**
 * IdpResponse: the immutable result of one sign-in attempt with an identity
 * provider, its three construction paths, fromError, the accessors,
 * equals/hashCode, and the Builder whose build() validates a user's provider.
 */
module Responses {
  import opened Wrappers
  import opened Auth
  import Int32

  /** The five fields of an IdpResponse; `None` is a Java `null`. */
  datatype IdpResponse = IdpResponse(
    user: Option<User>,
    token: Option<string>,
    secret: Option<string>,
    pendingCredential: Option<AuthCredential>,
    error: Option<FirebaseUiException>)

  /**
   * The shape every public factory establishes: a user exactly when there is
   * no error, a pending credential only for a merge conflict, and no token or
   * secret on a failure.
   */
  predicate WellFormed(c: AuthUiConfig, r: IdpResponse) {
    && (r.user.Some? <==> r.error.None?)
    && (r.pendingCredential.Some? ==>
          r.error.Some? && r.error.value.code == c.anonymousUpgradeMergeConflict)
    && (r.user.None? ==> r.token.None? && r.secret.None?)
  }

  // ---------------------------------------------------------------- accessors

  predicate IsSuccessful(r: IdpResponse) {
    r.error.None?
  }

  /** The deprecated getErrorCode: the OK sentinel on success, else the error's code. */
  function GetErrorCode(c: AuthUiConfig, r: IdpResponse): (code: int)
    ensures IsSuccessful(r) ==> code == c.resultOk
    ensures !IsSuccessful(r) ==> code == r.error.value.code
    ensures WellFormed(c, r) && r.pendingCredential.Some? ==> code == c.anonymousUpgradeMergeConflict
  {
    if IsSuccessful(r) then c.resultOk else r.error.value.code
  }

  /** getProviderType reads the user without a null check. */
  function GetProviderType(r: IdpResponse): string
    requires r.user.Some?
  {
    r.user.value.providerId
  }

  function GetEmail(r: IdpResponse): Option<string>
    requires r.user.Some?
  {
    r.user.value.email
  }

  function GetPhoneNumber(r: IdpResponse): Option<string>
    requires r.user.Some?
  {
    r.user.value.phoneNumber
  }

  // ---------------------------------------------------- private constructors

  /** IdpResponse(FirebaseUiException): a failure carrying only the error. */
  function OfError(e: FirebaseUiException): (r: IdpResponse)
    ensures !IsSuccessful(r) && r.error == Some(e)
    ensures r.user.None? && r.token.None? && r.secret.None? && r.pendingCredential.None?
  {
    IdpResponse(None, None, None, None, Some(e))
  }

  /** IdpResponse(AuthCredential): a merge-conflict failure keeping the credential. */
  function OfPendingCredential(c: AuthUiConfig, p: AuthCredential): (r: IdpResponse)
    ensures WellFormed(c, r) && !IsSuccessful(r)
    ensures r.pendingCredential == Some(p)
    ensures r.error == Some(FirebaseUiException(c.anonymousUpgradeMergeConflict, None))
    ensures GetErrorCode(c, r) == c.anonymousUpgradeMergeConflict
  {
    IdpResponse(None, None, None, Some(p), Some(FirebaseUiException(c.anonymousUpgradeMergeConflict, None)))
  }

  /** IdpResponse(User, token, secret): a success with no credential and no error. */
  function OfUser(u: User, token: Option<string>, secret: Option<string>): (r: IdpResponse)
    ensures IsSuccessful(r) && r.user == Some(u)
    ensures r.token == token && r.secret == secret && r.pendingCredential.None?
  {
    IdpResponse(Some(u), token, secret, None, None)
  }

  // ---------------------------------------------------------------- fromError

  /**
   * fromError: a FirebaseUiException is kept as it is; any other exception
   * becomes an UNKNOWN_ERROR whose cause is that exception.
   */
  function FromError(c: AuthUiConfig, t: Throwable): (r: IdpResponse)
    ensures t.UiThrowable? ==> r.error == Some(t.ui)
    ensures t.OtherThrowable? ==>
              r.error == Some(FirebaseUiException(c.unknownError, Some(t)))
    ensures WellFormed(c, r) && !IsSuccessful(r)
    ensures r.user.None? && r.pendingCredential.None?
    ensures GetErrorCode(c, r) == (if t.UiThrowable? then t.ui.code else c.unknownError)
  {
    match t
    case UiThrowable(e) => OfError(e)
    case OtherThrowable(_, _, _) => OfError(FirebaseUiException(c.unknownError, Some(t)))
  }

  // ------------------------------------------------------- equals and hashCode

  /** equals: user, token, secret and error; the pending credential is ignored. */
  predicate Equals(a: IdpResponse, b: IdpResponse) {
    && a.user == b.user
    && a.token == b.token
    && a.secret == b.secret
    && a.error == b.error
  }

  /** Two responses are equal exactly when they differ at most in the pending credential. */
  lemma EqualsIgnoresOnlyPendingCredential(a: IdpResponse, b: IdpResponse)
    ensures Equals(a, b) <==> a.(pendingCredential := b.pendingCredential) == b
  {
  }

  lemma EqualsIsEquivalence(a: IdpResponse, b: IdpResponse, d: IdpResponse)
    ensures Equals(a, a)
    ensures Equals(a, b) ==> Equals(b, a)
    ensures Equals(a, b) && Equals(b, d) ==> Equals(a, d)
  {
  }

  /** The hashCode of each field's class, which lives outside this model. */
  datatype Hashers = Hashers(
    user: User -> Int32.int32,
    str: string -> Int32.int32,
    error: FirebaseUiException -> Int32.int32)

  function UserHash(h: Hashers, u: Option<User>): Int32.int32 {
    if u.None? then 0 else h.user(u.value)
  }

  function StringHash(h: Hashers, s: Option<string>): Int32.int32 {
    if s.None? then 0 else h.str(s.value)
  }

  function ErrorHash(h: Hashers, e: Option<FirebaseUiException>): Int32.int32 {
    if e.None? then 0 else h.error(e.value)
  }

  /** hashCode: `result = 31 * result + field` over user, token, secret, error, in Java `int`. */
  function HashCode(h: Hashers, r: IdpResponse): Int32.int32 {
    var result := UserHash(h, r.user);
    var result := Int32.MulAdd(result, StringHash(h, r.token));
    var result := Int32.MulAdd(result, StringHash(h, r.secret));
    Int32.MulAdd(result, ErrorHash(h, r.error))
  }

  /** The hash is the base-31 polynomial of the four field hashes, reduced to an `int`. */
  lemma HashCodePolynomial(h: Hashers, r: IdpResponse)
    ensures HashCode(h, r) == Int32.Wrap(
              29791 * UserHash(h, r.user) + 961 * StringHash(h, r.token)
              + 31 * StringHash(h, r.secret) + ErrorHash(h, r.error))
  {
    var u: int, t: int, s: int, e: int := UserHash(h, r.user), StringHash(h, r.token), StringHash(h, r.secret), ErrorHash(h, r.error);
    var a := Int32.MulAdd(u, t);
    Int32.MulAddCongruent(u, u, t);
    var b := Int32.MulAdd(a, s);
    Int32.MulAddCongruent(a, 31 * u + t, s);
    assert 31 * (31 * u + t) + s == 961 * u + 31 * t + s;
    var d := Int32.MulAdd(b, e);
    Int32.MulAddCongruent(b, 961 * u + 31 * t + s, e);
    assert 31 * (961 * u + 31 * t + s) + e == 29791 * u + 961 * t + 31 * s + e;
    Int32.WrapFits(d);
    Int32.WrapCongruent(d, 29791 * u + 961 * t + 31 * s + e);
  }

  /** Equal responses have equal hashes, whatever the field hashes are. */
  lemma EqualsHashConsistent(h: Hashers, a: IdpResponse, b: IdpResponse)
    requires Equals(a, b)
    ensures HashCode(h, a) == HashCode(h, b)
  {
  }

  /** Replacing the pending credential changes neither equality nor hash. */
  lemma PendingCredentialInvisible(h: Hashers, r: IdpResponse, p: Option<AuthCredential>)
    ensures Equals(r, r.(pendingCredential := p))
    ensures HashCode(h, r) == HashCode(h, r.(pendingCredential := p))
  {
  }

  // ------------------------------------------------------------------ Builder

  /** Why build() throws IllegalStateException. */
  datatype BuildError =
    | UnknownProvider(providerId: string)
    | MissingToken
    | MissingSecret
    | MissingUserOrCredential

  /** The builder's state: the constructor argument plus what the setters stored. */
  datatype Builder = Builder(
    user: Option<User>,
    credential: Option<AuthCredential>,
    token: Option<string>,
    secret: Option<string>)

  function ForUser(u: User): Builder {
    Builder(Some(u), None, None, None)
  }

  function ForCredential(p: AuthCredential): Builder {
    Builder(None, Some(p), None, None)
  }

  function SetToken(b: Builder, token: Option<string>): Builder {
    b.(token := token)
  }

  function SetSecret(b: Builder, secret: Option<string>): Builder {
    b.(secret := secret)
  }

  /** The provider checks build() makes on a user, in order; None when all pass. */
  function ProviderCheck(c: AuthUiConfig, providerId: string, token: Option<string>, secret: Option<string>): Option<BuildError> {
    if providerId !in c.supportedProviders then Some(UnknownProvider(providerId))
    else if providerId in c.socialProviders && IsEmpty(token) then Some(MissingToken)
    else if providerId == c.twitterProviderId && IsEmpty(secret) then Some(MissingSecret)
    else None
  }

  /** A user's provider is acceptable to build() with these token and secret. */
  predicate Accepted(c: AuthUiConfig, providerId: string, token: Option<string>, secret: Option<string>) {
    && providerId in c.supportedProviders
    && (providerId in c.socialProviders ==> !IsEmpty(token))
    && (providerId == c.twitterProviderId ==> !IsEmpty(secret))
  }

  /** Builder.build(): a user wins over a credential; neither is an error. */
  function Build(c: AuthUiConfig, b: Builder): (r: Result<IdpResponse, BuildError>)
    ensures r.Success? <==>
              (b.user.Some? && Accepted(c, b.user.value.providerId, b.token, b.secret))
              || (b.user.None? && b.credential.Some?)
    ensures r.Success? ==> WellFormed(c, r.value)
    ensures r.Success? && b.user.Some? ==>
              && r.value == IdpResponse(b.user, b.token, b.secret, None, None)
              && IsSuccessful(r.value)
              && GetErrorCode(c, r.value) == c.resultOk
              && GetProviderType(r.value) in c.supportedProviders
    ensures b.user.None? && b.credential.Some? ==>
              && r.Success?
              && !IsSuccessful(r.value)
              && GetErrorCode(c, r.value) == c.anonymousUpgradeMergeConflict
              && r.value.pendingCredential == b.credential
              && r.value.error == Some(FirebaseUiException(c.anonymousUpgradeMergeConflict, None))
              && r.value.user.None? && r.value.token.None? && r.value.secret.None?
    ensures b.user.None? && b.credential.None? ==> r == Failure(MissingUserOrCredential)
    ensures b.user.Some? && b.user.value.providerId !in c.supportedProviders ==>
              r == Failure(UnknownProvider(b.user.value.providerId))
  {
    if b.user.Some? then
      var check := ProviderCheck(c, b.user.value.providerId, b.token, b.secret);
      if check.Some? then Failure(check.value) else Success(OfUser(b.user.value, b.token, b.secret))
    else if b.credential.Some? then
      Success(OfPendingCredential(c, b.credential.value))
    else
      Failure(MissingUserOrCredential)
  }

  /**
   * isSuccessful over the public factories: a built response is successful
   * exactly when the builder held a user, and fromError never is. A corollary
   * of the contracts of Build and FromError, gathered in one statement.
   */
  lemma SuccessMeansUserBuild(c: AuthUiConfig, b: Builder, t: Throwable)
    ensures Build(c, b).Success? ==> (IsSuccessful(Build(c, b).value) <==> b.user.Some?)
    ensures Build(c, b).Success? && IsSuccessful(Build(c, b).value) ==>
              GetProviderType(Build(c, b).value) == b.user.value.providerId
    ensures !IsSuccessful(FromError(c, t))
  {
  }

  /** An unsupported provider is rejected whatever token and secret were set. */
  lemma UnknownProviderIgnoresSetters(c: AuthUiConfig, u: User, token: Option<string>, secret: Option<string>)
    requires u.providerId !in c.supportedProviders
    ensures Build(c, SetSecret(SetToken(ForUser(u), token), secret)) == Failure(UnknownProvider(u.providerId))
  {
  }

  /** A supported social provider needs a non-empty token. */
  lemma SocialProviderNeedsToken(c: AuthUiConfig, u: User, token: Option<string>, secret: Option<string>)
    requires u.providerId in c.supportedProviders && u.providerId in c.socialProviders
    requires IsEmpty(token)
    ensures Build(c, SetSecret(SetToken(ForUser(u), token), secret)) == Failure(MissingToken)
  {
  }

  /** A supported provider that is neither social nor Twitter builds without token or secret. */
  lemma PlainProviderNeedsNoToken(c: AuthUiConfig, u: User)
    requires u.providerId in c.supportedProviders
    requires u.providerId !in c.socialProviders && u.providerId != c.twitterProviderId
    ensures Build(c, ForUser(u)) == Success(IdpResponse(Some(u), None, None, None, None))
  {
  }

  /** Twitter needs a secret even when it has a token. */
  lemma TwitterNeedsSecret(c: AuthUiConfig, u: User, token: Option<string>, secret: Option<string>)
    requires u.providerId in c.supportedProviders && u.providerId == c.twitterProviderId
    requires !IsEmpty(token) && IsEmpty(secret)
    ensures Build(c, SetSecret(SetToken(ForUser(u), token), secret)) == Failure(MissingSecret)
  {
  }

  /** A credential builder ignores the setters. */
  lemma CredentialIgnoresSetters(c: AuthUiConfig, p: AuthCredential, token: Option<string>, secret: Option<string>)
    ensures Build(c, SetSecret(SetToken(ForCredential(p), token), secret)) == Build(c, ForCredential(p))
    ensures Build(c, ForCredential(p)) == Success(OfPendingCredential(c, p))
  {
  }

  /** With both a user and a credential, the credential plays no part. */
  lemma UserWinsOverCredential(c: AuthUiConfig, b: Builder)
    requires b.user.Some?
    ensures Build(c, b) == Build(c, b.(credential := None))
  {
  }

  /** A Google sign-in with a token yields the user's provider, email and token. */
  lemma GoogleSignInScenario(c: AuthUiConfig)
    requires "google.com" in c.supportedProviders && "google.com" in c.socialProviders
    requires c.twitterProviderId != "google.com"
    ensures var r := Build(c, SetToken(ForUser(User("google.com", Some("a@b.com"), None)), Some("tok")));
            && r.Success? && IsSuccessful(r.value)
            && GetProviderType(r.value) == "google.com"
            && GetEmail(r.value) == Some("a@b.com")
            && r.value.token == Some("tok")
  {
  }
}
