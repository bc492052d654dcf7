/** Turning errors from the backend into messages for the user (internal/errors/api_errors.go).
  * An error is its text, or None for a nil error. The message is chosen by the first of eleven
  * keyword tests that the text passes, in the order the code tries them. */
module ApiErrors {
  import opened Wrappers
  import opened GoText

  datatype Category =
    | RateLimited | Locked | TooLarge | WeakPassword | Unauthenticated | Forbidden
    | NotFound | ServerError | NetworkError | InvalidCredentials | AlreadyExists | Other

  /** The position of a category's test in the order they are tried; Other comes last. */
  function Order(c: Category): nat {
    match c
    case RateLimited => 0
    case Locked => 1
    case TooLarge => 2
    case WeakPassword => 3
    case Unauthenticated => 4
    case Forbidden => 5
    case NotFound => 6
    case ServerError => 7
    case NetworkError => 8
    case InvalidCredentials => 9
    case AlreadyExists => 10
    case Other => 11
  }

  /** The keyword test of each category. Status codes are looked for in the text as it is,
    * words in its lower-case form; Other is the default and always applies. */
  predicate Matches(c: Category, e: string) {
    var lower := Lower(e);
    match c
    case RateLimited =>
      Contains(e, "429") || Contains(lower, "rate limit") || Contains(lower, "too many requests")
    case Locked => Contains(lower, "locked") || Contains(lower, "too many failed")
    case TooLarge => Contains(e, "413") || Contains(lower, "too large") || Contains(lower, "exceeds")
    case WeakPassword =>
      Contains(lower, "password")
      && (Contains(lower, "must") || Contains(lower, "required") || Contains(lower, "complexity"))
    case Unauthenticated =>
      Contains(e, "401") || Contains(lower, "unauthorized") || Contains(lower, "invalid api key")
    case Forbidden => Contains(e, "403") || Contains(lower, "forbidden") || Contains(lower, "suspended")
    case NotFound => Contains(e, "404") || Contains(lower, "not found")
    case ServerError => Contains(e, "500") || Contains(lower, "internal server")
    case NetworkError =>
      Contains(lower, "timeout") || Contains(lower, "connection") || Contains(lower, "network")
    case InvalidCredentials => Contains(lower, "invalid credentials")
    case AlreadyExists => Contains(lower, "already exists")
    case Other => true
  }

  /** The chain of tests in ParseAPIError: the category of the first test the text passes. */
  function Classify(e: string): (c: Category)
    ensures Matches(c, e)
    ensures forall d :: Order(d) < Order(c) ==> !Matches(d, e)
  {
    if Matches(RateLimited, e) then RateLimited
    else if Matches(Locked, e) then Locked
    else if Matches(TooLarge, e) then TooLarge
    else if Matches(WeakPassword, e) then WeakPassword
    else if Matches(Unauthenticated, e) then Unauthenticated
    else if Matches(Forbidden, e) then Forbidden
    else if Matches(NotFound, e) then NotFound
    else if Matches(ServerError, e) then ServerError
    else if Matches(NetworkError, e) then NetworkError
    else if Matches(InvalidCredentials, e) then InvalidCredentials
    else if Matches(AlreadyExists, e) then AlreadyExists
    else Other
  }

  const RateLimitMessage := "\U{26A0}\U{FE0F}  Rate limit exceeded. Please wait a moment and try again."
  const LockedMessage :=
    "\U{1F512} Account is temporarily locked due to too many failed login attempts.\n   Please wait 15 minutes or contact support."
  const TooLargeMessage :=
    "\U{1F4C4} Content exceeds maximum allowed length (3M characters / ~750K tokens).\n   Please reduce the content size."
  const WeakPasswordMessage :=
    "\U{1F511} Password does not meet security requirements:\n"
    + "   - At least 8 characters\n"
    + "   - At least one uppercase letter\n"
    + "   - At least one lowercase letter\n"
    + "   - At least one number\n"
    + "   - At least one special character (!@#$%^&*)"
  const AuthMessage := "\U{1F510} Authentication failed. Please run 'ramorie setup login' to authenticate."
  const ForbiddenMessage := "\U{26D4} Access denied. Your account may be suspended. Please contact support."
  const NotFoundMessage := "\U{1F50D} Resource not found. Please check the ID and try again."
  const ServerMessage := "\U{274C} Server error. Please try again later or contact support if the issue persists."
  const NetworkMessage := "\U{1F310} Network error. Please check your internet connection and try again."
  const CredentialsMessage := "\U{274C} Invalid email or password. Please try again."
  const ExistsMessage := "\U{1F4E7} An account with this email already exists. Please login instead."
  const DefaultPrefix := "\U{274C} "

  function Message(c: Category, e: string): string {
    match c
    case RateLimited => RateLimitMessage
    case Locked => LockedMessage
    case TooLarge => TooLargeMessage
    case WeakPassword => WeakPasswordMessage
    case Unauthenticated => AuthMessage
    case Forbidden => ForbiddenMessage
    case NotFound => NotFoundMessage
    case ServerError => ServerMessage
    case NetworkError => NetworkMessage
    case InvalidCredentials => CredentialsMessage
    case AlreadyExists => ExistsMessage
    case Other => DefaultPrefix + e
  }

  /** ParseAPIError: "Unknown error" for nil; otherwise the message of the first category
    * whose test the text passes, and the text itself behind a cross when none does. */
  function ParseAPIError(err: Option<string>): (msg: string)
    ensures err.None? ==> msg == "Unknown error"
    ensures err.Some? && Classify(err.value) == Other ==> msg == DefaultPrefix + err.value
    ensures err.Some? && Classify(err.value) != Other ==> msg == Message(Classify(err.value), err.value)
  {
    match err
    case None => "Unknown error"
    case Some(e) => Message(Classify(e), e)
  }

  /** IsRateLimitError */
  predicate IsRateLimitError(err: Option<string>) {
    err.Some? && (Contains(Lower(err.value), "429") || Contains(Lower(err.value), "rate limit"))
  }

  /** IsAuthError */
  predicate IsAuthError(err: Option<string>) {
    err.Some?
    && (Contains(Lower(err.value), "401") || Contains(Lower(err.value), "unauthorized")
        || Contains(Lower(err.value), "api key"))
  }

  /** IsContentTooLargeError */
  predicate IsContentTooLargeError(err: Option<string>) {
    err.Some?
    && (Contains(Lower(err.value), "413") || Contains(Lower(err.value), "too large")
        || Contains(Lower(err.value), "exceeds"))
  }

  // ----- how the predicates relate to the messages -----

  /** A digit lower-cases to itself, and only a digit lower-cases to a digit. */
  lemma LowerCharDigit(c: char)
    ensures IsDigit(c) || IsDigit(LowerChar(c)) ==> LowerChar(c) == c
  {
  }

  /** A run of digits in the lower-case text was there before lower-casing. */
  lemma DigitsOccurUnlowered(e: string, sub: string, i: nat)
    requires AllDigits(sub) && OccursAt(Lower(e), sub, i)
    ensures OccursAt(e, sub, i)
  {
    forall k | 0 <= k < |sub|
      ensures e[i + k] == sub[k]
    {
      assert Lower(e)[i..i + |sub|][k] == sub[k];
      LowerCharDigit(e[i + k]);
    }
    assert e[i..i + |sub|] == sub;
  }

  /** A run of digits in the text survives lower-casing. */
  lemma DigitsOccurLowered(e: string, sub: string, i: nat)
    requires AllDigits(sub) && OccursAt(e, sub, i)
    ensures OccursAt(Lower(e), sub, i)
  {
    forall k | 0 <= k < |sub|
      ensures Lower(e)[i + k] == sub[k]
    {
      assert e[i..i + |sub|][k] == sub[k];
      LowerCharDigit(e[i + k]);
    }
    assert Lower(e)[i..i + |sub|] == sub;
  }

  /** Lower-casing changes no digit and makes no digit, so a run of digits occurs in the
    * lower-case text exactly where it occurs in the text. */
  lemma LowerKeepsDigits(e: string, sub: string)
    requires AllDigits(sub)
    ensures Contains(Lower(e), sub) <==> Contains(e, sub)
  {
    ContainsIffOccurs(Lower(e), sub);
    ContainsIffOccurs(e, sub);
    if Contains(Lower(e), sub) {
      var i: nat :| OccursAt(Lower(e), sub, i);
      DigitsOccurUnlowered(e, sub, i);
    }
    if Contains(e, sub) {
      var i: nat :| OccursAt(e, sub, i);
      DigitsOccurLowered(e, sub, i);
    }
  }

  /** An error IsRateLimitError accepts always gets the rate-limit message: its test is the
    * first one ParseAPIError tries, and looks for the same words. */
  lemma RateLimitErrorsGetRateLimitMessage(err: Option<string>)
    requires IsRateLimitError(err)
    ensures ParseAPIError(err) == RateLimitMessage
  {
    LowerKeepsDigits(err.value, "429");
  }

  /** IsContentTooLargeError is the too-large test itself; ParseAPIError only reports it when
    * neither the rate-limit nor the locked test comes first. */
  lemma TooLargeErrorsAgree(err: Option<string>)
    requires err.Some?
    ensures IsContentTooLargeError(err) <==> Matches(TooLarge, err.value)
    ensures Classify(err.value) == TooLarge ==> IsContentTooLargeError(err)
    ensures IsContentTooLargeError(err) ==> Order(Classify(err.value)) <= Order(TooLarge)
  {
    LowerKeepsDigits(err.value, "413");
  }

  /** A keyword found inside a longer one found in `s` is found in `s` too. */
  lemma ContainsPart(s: string, a: string, b: string)
    requires Contains(s, a + b)
    ensures Contains(s, b)
  {
    ContainsIffOccurs(s, a + b);
    var i: nat :| OccursAt(s, a + b, i);
    assert s[i + |a|..i + |a| + |b|] == (a + b)[|a|..];
    assert OccursAt(s, b, i + |a|);
    ContainsIffOccurs(s, b);
  }

  /** An error reported as an authentication failure is one IsAuthError accepts. */
  lemma AuthMessageIsAuthError(err: Option<string>)
    requires err.Some? && Classify(err.value) == Unauthenticated
    ensures IsAuthError(err)
  {
    var e := err.value;
    assert Matches(Unauthenticated, e);
    LowerKeepsDigits(e, "401");
    if Contains(Lower(e), "invalid api key") {
      assert "invalid api key" == "invalid " + "api key";
      ContainsPart(Lower(e), "invalid ", "api key");
    }
  }

  /** A keyword whose first character cannot start an occurrence does not occur. */
  lemma NoOccurrence(s: string, sub: string)
    requires sub != []
    requires |sub| > |s| || sub[0] !in s[..|s| - |sub| + 1]
    ensures !Contains(s, sub)
  {
    ContainsIffOccurs(s, sub);
    forall i: nat
      ensures !OccursAt(s, sub, i)
    {
      if i + |sub| <= |s| {
        assert s[..|s| - |sub| + 1][i] == s[i] == s[i..i + |sub|][0];
      }
    }
  }

  /** None of the keywords of the first three tests (rate limit, locked, too large) occurs. */
  predicate NoLimitKeyword(s: string) {
    !Contains(s, "429") && !Contains(s, "rate limit") && !Contains(s, "too many requests")
    && !Contains(s, "locked") && !Contains(s, "too many failed")
    && !Contains(s, "413") && !Contains(s, "too large") && !Contains(s, "exceeds")
  }

  /** None of the keywords of the password, auth, forbidden and not-found tests occurs. */
  predicate NoAccessKeyword(s: string) {
    !Contains(s, "password")
    && !Contains(s, "401") && !Contains(s, "unauthorized") && !Contains(s, "invalid api key")
    && !Contains(s, "403") && !Contains(s, "forbidden") && !Contains(s, "suspended")
    && !Contains(s, "404") && !Contains(s, "not found")
  }

  /** None of the keywords of the last four tests occurs. */
  predicate NoServiceKeyword(s: string) {
    !Contains(s, "500") && !Contains(s, "internal server")
    && !Contains(s, "timeout") && !Contains(s, "connection") && !Contains(s, "network")
    && !Contains(s, "invalid credentials") && !Contains(s, "already exists")
  }

  /** None of the keywords of ParseAPIError occurs in `s`. */
  predicate NoKeyword(s: string) {
    NoLimitKeyword(s) && NoAccessKeyword(s) && NoServiceKeyword(s)
  }

  /** Text already in lower case that holds no keyword passes none of the tests. */
  lemma NoKeywordIsOther(e: string)
    requires Lower(e) == e && NoKeyword(e)
    ensures Classify(e) == Other
  {
  }

  lemma ApiKeyHasNoLimitKeyword()
    ensures NoLimitKeyword("api key")
  {
    var e := "api key";
    NoOccurrence(e, "429");
    NoOccurrence(e, "rate limit");
    NoOccurrence(e, "too many requests");
    NoOccurrence(e, "locked");
    NoOccurrence(e, "too many failed");
    NoOccurrence(e, "413");
    NoOccurrence(e, "too large");
    NoOccurrence(e, "exceeds");
  }

  lemma ApiKeyHasNoAccessKeyword()
    ensures NoAccessKeyword("api key")
  {
    var e := "api key";
    NoOccurrence(e, "password");
    NoOccurrence(e, "401");
    NoOccurrence(e, "unauthorized");
    NoOccurrence(e, "invalid api key");
    NoOccurrence(e, "403");
    NoOccurrence(e, "forbidden");
    NoOccurrence(e, "suspended");
    NoOccurrence(e, "404");
    NoOccurrence(e, "not found");
  }

  lemma ApiKeyHasNoServiceKeyword()
    ensures NoServiceKeyword("api key")
  {
    var e := "api key";
    NoOccurrence(e, "500");
    NoOccurrence(e, "internal server");
    NoOccurrence(e, "timeout");
    NoOccurrence(e, "connection");
    NoOccurrence(e, "network");
    NoOccurrence(e, "invalid credentials");
    NoOccurrence(e, "already exists");
  }

  /** The converse fails: "api key" alone satisfies IsAuthError but passes none of
    * ParseAPIError's tests, so the user sees the raw text rather than the login hint. */
  lemma AuthErrorWithoutAuthMessage()
    ensures IsAuthError(Some("api key"))
    ensures ParseAPIError(Some("api key")) == DefaultPrefix + "api key"
  {
    assert Lower("api key") == "api key";
    ApiKeyHasNoLimitKeyword();
    ApiKeyHasNoAccessKeyword();
    ApiKeyHasNoServiceKeyword();
    NoKeywordIsOther("api key");
    assert HasPrefix("api key", "api key");
  }

  /** "too many requests" is in lower case and holds itself. */
  lemma TooManyRequestsIsLower()
    ensures Lower("too many requests") == "too many requests"
    ensures Contains("too many requests", "too many requests")
  {
    assert HasPrefix("too many requests", "too many requests");
  }

  /** "too many requests" does not hold "rate limit": its only 'r' comes too late. */
  lemma TooManyRequestsHasNoRateLimit()
    ensures !Contains("too many requests", "rate limit")
  {
    var e := "too many requests";
    assert e[..8] == "too many";
    NoOccurrence(e, "rate limit");
  }

  /** Nor does the rate-limit message imply IsRateLimitError: "too many requests" gets it. */
  lemma RateLimitMessageWithoutRateLimitError()
    ensures !IsRateLimitError(Some("too many requests"))
    ensures ParseAPIError(Some("too many requests")) == RateLimitMessage
  {
    TooManyRequestsIsLower();
    NoOccurrence("too many requests", "429");
    TooManyRequestsHasNoRateLimit();
  }
}
