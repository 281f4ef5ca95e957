/**
 * The HTTP-calling layer: the status logic of a single request, the
 * classification of every failure into a user-facing `ApiError`, the retry
 * loop with exponential backoff, the per-attempt operations of the book
 * service, and the cover-image URL.
 *
 * The network is not modelled: each attempt's reply is an input value, the
 * jitter of the backoff is chosen nondeterministically in [0, 1000), and the
 * sleeps are recorded as the list of delays the loop waits.
 */
module Service {
  import opened Base
  import opened JsValues
  import opened ApiTypes
  import opened Schemas

  /** What one attempt can throw. */
  datatype Thrown =
    | Invalid(error: ValidationError)           // a ValidationError from validateApiResponse
    | Fetch(message: string, status: Option<nat>) // a FetchError, with the HTTP status when a response arrived
    | Plain(message: string)                    // any other Error, e.g. a SyntaxError from response.json()

  /** The parsed body of a response, or the message of the SyntaxError `response.json()` raises. */
  datatype HttpResponse = HttpResponse(status: nat, statusText: string, body: Result<Value, string>)

  /** What `fetch` yields: a response, or a rejection (with an Error's message, or a non-Error value). */
  datatype Reply = Delivered(response: HttpResponse) | Rejected(errorMessage: Option<string>)

  const VALIDATION_MESSAGE :=
    "The server returned invalid data. Please try again or contact support if the problem persists."
  const NETWORK_MESSAGE := "Unable to connect to the server. Please check your internet connection."
  const SERVER_MESSAGE := "Server error occurred. Please try again in a moment."
  const NOT_FOUND_MESSAGE := "The requested item was not found."
  const BAD_REQUEST_MESSAGE := "Invalid request. Please refresh the page and try again."
  const UNKNOWN_MESSAGE := "Something went wrong. Please try again."

  const DEFAULT_MAX_RETRIES: nat := 3
  const DEFAULT_BASE_DELAY: real := 1000.0
  /** `Math.random() * 1000` lies in [0, JITTER_BOUND). */
  const JITTER_BOUND: real := 1000.0

  /** `error.status` read as a number; absent reads as 0, which is falsy like `undefined`. */
  function StatusOf(e: Thrown): nat {
    if e.Fetch? && e.status.Some? then e.status.value else 0
  }

  /** The failure is an HTTP response with status `code`. */
  predicate HasStatus(e: Thrown, code: nat) {
    e.Fetch? && e.status == Some(code)
  }

  /**
   * `createUserFriendlyError`: total over every failure. Only the client errors
   * 400 and 404 are final; everything else, validation failures included, is
   * reported as retryable.
   */
  function UserFriendlyError(e: Thrown): (r: ApiError)
    ensures r.retryable <==> !HasStatus(e, 400) && !HasStatus(e, 404)
    ensures r.code == VALIDATION_ERROR <==> e.Invalid?
    ensures r.code == NETWORK_ERROR <==> !e.Invalid? && StatusOf(e) == 0
  {
    if e.Invalid? then
      ApiError(VALIDATION_MESSAGE, VALIDATION_ERROR, true)
    else if StatusOf(e) == 0 then
      ApiError(NETWORK_MESSAGE, NETWORK_ERROR, true)
    else if StatusOf(e) >= 500 then
      ApiError(SERVER_MESSAGE, SERVER_ERROR, true)
    else if StatusOf(e) == 404 then
      ApiError(NOT_FOUND_MESSAGE, NOT_FOUND, false)
    else if StatusOf(e) == 400 then
      ApiError(BAD_REQUEST_MESSAGE, BAD_REQUEST, false)
    else
      ApiError(UNKNOWN_MESSAGE, UNKNOWN_ERROR, true)
  }

  /**
   * Classification by the status classes of section 15 of RFC 9110: every 5xx
   * is a server error; among the 4xx only 400 and 404 have codes of their own;
   * any other status, and a failure without a status, has a code that says so.
   */
  lemma ClassifyByStatusClass(e: Thrown)
    requires !e.Invalid?
    ensures var r := UserFriendlyError(e);
            var s := StatusOf(e);
            && (s == 0 ==> r.code == NETWORK_ERROR)
            && (500 <= s ==> r.code == SERVER_ERROR)
            && (400 <= s < 500 ==> r.code == (if s == 404 then NOT_FOUND
                                             else if s == 400 then BAD_REQUEST
                                             else UNKNOWN_ERROR))
            && (0 < s < 400 ==> r.code == UNKNOWN_ERROR)
  {
  }

  /** `response.ok`: the status is in the 2xx range. */
  predicate IsOkStatus(status: nat) {
    200 <= status <= 299
  }

  /**
   * `fetchWithError`: a response whose status is not 2xx is thrown with that
   * status; a rejected `fetch` is rethrown without one.
   */
  function FetchWithError(reply: Reply): (r: Result<HttpResponse, Thrown>)
    ensures r.Ok? <==> reply.Delivered? && IsOkStatus(reply.response.status)
    ensures r.Ok? ==> r.value == reply.response
    ensures reply.Delivered? && !IsOkStatus(reply.response.status) ==>
              r.Err? && HasStatus(r.error, reply.response.status)
    ensures reply.Rejected? ==> r.Err? && r.error.Fetch? && r.error.status == None
  {
    match reply
    case Rejected(message) =>
      Err(Fetch(if message.Some? then message.value else "Network error", None))
    case Delivered(response) =>
      if !IsOkStatus(response.status) then
        Err(Fetch("HTTP " + NatToString(response.status) + ": " + response.statusText,
                  Some(response.status)))
      else Ok(response)
  }

  /** `response.json()`: the parsed body, or the SyntaxError it throws. */
  function ReadJson(response: HttpResponse): (r: Result<Value, Thrown>)
    ensures r.Ok? <==> response.body.Ok?
    ensures r.Ok? ==> r.value == response.body.value
    ensures r.Err? ==> r.error.Plain?
  {
    match response.body
    case Ok(v) => Ok(v)
    case Err(message) => Err(Plain(message))
  }

  /** One attempt of a service operation: fetch, parse, then validate with `validator`. */
  function Attempt<T>(reply: Reply, validator: Value -> Result<T, ValidationError>, endpoint: string)
    : (r: Result<T, Thrown>)
    ensures r.Ok? <==> && FetchWithError(reply).Ok?
                       && reply.response.body.Ok?
                       && validator(reply.response.body.value).Ok?
    ensures r.Ok? ==> r.value == validator(reply.response.body.value).value
    ensures r.Err? && r.error.Invalid? ==>
              && FetchWithError(reply).Ok? && reply.response.body.Ok?
              && r.error.error.field == validator(reply.response.body.value).error.field
    ensures FetchWithError(reply).Err? ==> r == Err(FetchWithError(reply).error)
    ensures FetchWithError(reply).Ok? && reply.response.body.Err? ==> r.Err? && r.error.Plain?
    ensures FetchWithError(reply).Ok? && reply.response.body.Ok? && validator(reply.response.body.value).Err? ==>
              r.Err? && r.error.Invalid?
  {
    match FetchWithError(reply)
    case Err(e) => Err(e)
    case Ok(response) =>
      match ReadJson(response)
      case Err(e) => Err(e)
      case Ok(data) =>
        match ValidateApiResponse(validator, data, endpoint)
        case Err(e) => Err(Invalid(e))
        case Ok(v) => Ok(v)
  }

  /** The attempt behind `getBooks`: `GET /books`, yielding the validated list. */
  function BooksAttempt(reply: Reply): (r: Result<seq<Book>, Thrown>)
    ensures r.Ok? <==> Attempt(reply, ValidateBooksResponse, "GET /books").Ok?
    ensures r.Err? ==> r == Err(Attempt(reply, ValidateBooksResponse, "GET /books").error)
    ensures r.Ok? ==> (reply.Delivered? && reply.response.body.Ok?
                       && ValidateBooksResponse(reply.response.body.value) == Ok(BooksResponse(r.value)))
  {
    match Attempt(reply, ValidateBooksResponse, "GET /books")
    case Err(e) => Err(e)
    case Ok(response) => Ok(response.books)
  }

  /** The attempt behind `getBook(id)`; `endpoint` is the text `GET /books/<id>`. */
  function BookAttempt(reply: Reply, endpoint: string): (r: Result<Book, Thrown>)
    ensures r.Ok? <==> Attempt(reply, ValidateBookDetailResponse, endpoint).Ok?
    ensures r.Err? ==> r == Err(Attempt(reply, ValidateBookDetailResponse, endpoint).error)
    ensures r.Ok? ==> (reply.Delivered? && reply.response.body.Ok?
                       && ValidateBookDetailResponse(reply.response.body.value) == Ok(BookDetailResponse(r.value)))
  {
    match Attempt(reply, ValidateBookDetailResponse, endpoint)
    case Err(e) => Err(e)
    case Ok(response) => Ok(response.book)
  }

  /** The attempt behind `purchaseBook(id)`; `endpoint` is the text `POST /books/<id>/purchase`. */
  function PurchaseAttempt(reply: Reply, endpoint: string): (r: Result<PurchaseResponse, Thrown>)
    ensures r.Ok? <==> Attempt(reply, ValidatePurchaseResponse, endpoint).Ok?
    ensures r.Err? ==> r == Err(Attempt(reply, ValidatePurchaseResponse, endpoint).error)
    ensures r.Ok? ==> (reply.Delivered? && reply.response.body.Ok?
                       && ValidatePurchaseResponse(reply.response.body.value) == Ok(r.value))
  {
    Attempt(reply, ValidatePurchaseResponse, endpoint)
  }

  /** The failure of an attempt that the loop answers with another attempt (unless it was the last). */
  predicate Retries<T>(outcome: Result<T, Thrown>) {
    outcome.Err? && !outcome.error.Invalid? && UserFriendlyError(outcome.error).retryable
  }

  /** What the caller receives when the loop stops at `outcome`. */
  function Conclusion<T>(outcome: Result<T, Thrown>): (r: Result<T, ApiError>)
    ensures r.Ok? <==> outcome.Ok?
  {
    match outcome
    case Ok(v) => Ok(v)
    case Err(e) => Err(UserFriendlyError(e))
  }

  /**
   * The loop over `operation` stops after exactly `attempts` attempts: every
   * earlier attempt failed retryably, and the last one succeeded, failed for
   * good, or used up the budget.
   */
  ghost predicate StopsAfter<T>(operation: nat -> Result<T, Thrown>, maxRetries: nat, attempts: nat) {
    && 1 <= attempts <= maxRetries + 1
    && (forall k :: 0 <= k < attempts - 1 ==> Retries(operation(k)))
    && (attempts - 1 < maxRetries ==> !Retries(operation(attempts - 1)))
  }

  /** The stopping point is determined by the outcomes: the loop's contract leaves no choice. */
  lemma StopsAfterUnique<T>(operation: nat -> Result<T, Thrown>, maxRetries: nat, m: nat, n: nat)
    requires StopsAfter(operation, maxRetries, m) && StopsAfter(operation, maxRetries, n)
    ensures m == n
  {
    // the earlier stop is an attempt the later stop says was retried
    var k: nat := (if m < n then m else n) - 1;
    assert m < n ==> Retries(operation(k)) && !Retries(operation(k));
    assert n < m ==> Retries(operation(k)) && !Retries(operation(k));
  }

  function Pow2(k: nat): (r: real)
    ensures r >= 1.0
  {
    if k == 0 then 1.0 else 2.0 * Pow2(k - 1)
  }

  /** The exponential part of the wait after failed attempt `k`: `baseDelay * Math.pow(2, k)`. */
  function Backoff(baseDelay: real, k: nat): real {
    baseDelay * Pow2(k)
  }

  /**
   * `withRetry`: attempt `k` of the loop runs `operation(k)`. The first success is
   * returned; a validation failure or a failure classified as not retryable is
   * thrown at once as its `ApiError`; otherwise the loop waits
   * `baseDelay * 2^k` plus a jitter below one second and tries again, at most
   * `maxRetries + 1` times in all, throwing the classification of the last failure.
   */
  method WithRetry<T>(operation: nat -> Result<T, Thrown>, maxRetries: nat := DEFAULT_MAX_RETRIES,
                      baseDelay: real := DEFAULT_BASE_DELAY)
    returns (r: Result<T, ApiError>, attempts: nat, delays: seq<real>)
    ensures StopsAfter(operation, maxRetries, attempts)
    ensures r == Conclusion(operation(attempts - 1))
    ensures |delays| == attempts - 1
    ensures forall k :: 0 <= k < |delays| ==>
              Backoff(baseDelay, k) <= delays[k] < Backoff(baseDelay, k) + JITTER_BOUND
  {
    delays := [];
    for attempt := 0 to maxRetries + 1
      invariant attempt <= maxRetries
      invariant forall k :: 0 <= k < attempt ==> Retries(operation(k))
      invariant |delays| == attempt
      invariant forall k :: 0 <= k < |delays| ==>
                  Backoff(baseDelay, k) <= delays[k] < Backoff(baseDelay, k) + JITTER_BOUND
    {
      var outcome := operation(attempt);
      if outcome.Ok? {
        return Ok(outcome.value), attempt + 1, delays;
      }
      var lastError := outcome.error;
      var userError := UserFriendlyError(lastError);
      // validation failures signal a contract mismatch and are never retried
      if lastError.Invalid? {
        return Err(userError), attempt + 1, delays;
      }
      if !userError.retryable || attempt == maxRetries {
        return Err(userError), attempt + 1, delays;
      }
      var jitter: real :| 0.0 <= jitter < JITTER_BOUND;
      delays := delays + [Backoff(baseDelay, attempt) + jitter];
    }
    // the throw after the loop is unreachable: the last attempt always returns above
    assert false;
  }

  /** A server that answers 500 to every attempt: four attempts, then a retryable SERVER_ERROR. */
  method PersistentServerError() returns (r: Result<seq<Book>, ApiError>, attempts: nat)
    ensures attempts == DEFAULT_MAX_RETRIES + 1
    ensures r == Err(ApiError(SERVER_MESSAGE, SERVER_ERROR, true))
  {
    var reply := Delivered(HttpResponse(500, "Internal Server Error", Ok(Null)));
    var delays;
    r, attempts, delays := WithRetry((k: nat) => BooksAttempt(reply));
    if attempts - 1 < DEFAULT_MAX_RETRIES {
      assert Retries(BooksAttempt(reply));
    }
  }

  /** A 404 ends the loop after one attempt with a final NOT_FOUND. */
  method NotFoundOnce(endpoint: string) returns (r: Result<Book, ApiError>, attempts: nat)
    ensures attempts == 1
    ensures r == Err(ApiError(NOT_FOUND_MESSAGE, NOT_FOUND, false))
  {
    var reply := Delivered(HttpResponse(404, "Not Found", Ok(Null)));
    var delays;
    var operation := (k: nat) => BookAttempt(reply, endpoint);
    r, attempts, delays := WithRetry(operation);
    var first: nat := 0;
    assert attempts > 1 ==> Retries(operation(first)) && !Retries(operation(first));
  }

  /** A server that always returns malformed data is asked exactly once. */
  method MalformedDataOnce(body: Value) returns (r: Result<seq<Book>, ApiError>, attempts: nat)
    requires ValidateBooksResponse(body).Err?
    ensures attempts == 1
    ensures r == Err(ApiError(VALIDATION_MESSAGE, VALIDATION_ERROR, true))
  {
    var reply := Delivered(HttpResponse(200, "OK", Ok(body)));
    var delays;
    var operation := (k: nat) => BooksAttempt(reply);
    r, attempts, delays := WithRetry(operation);
    var first: nat := 0;
    assert attempts > 1 ==> Retries(operation(first)) && !Retries(operation(first));
  }

  datatype CoverSize = S | M | L

  function SizeLetter(size: CoverSize): char {
    match size
    case S => 'S'
    case M => 'M'
    case L => 'L'
  }

  const COVER_PREFIX := "https://covers.openlibrary.org/b/isbn/"

  /** `getCoverUrl(isbn, size = 'L')`. */
  function CoverUrl(isbn: string, size: CoverSize := L): (url: string)
    ensures |url| == |COVER_PREFIX| + |isbn| + 6
  {
    COVER_PREFIX + isbn + "-" + [SizeLetter(size)] + ".jpg"
  }

  /** The URL names its ISBN and size: both can be read back, so different covers get different URLs. */
  lemma CoverUrlReadBack(isbn: string, size: CoverSize)
    ensures var url := CoverUrl(isbn, size);
            && url[..|COVER_PREFIX|] == COVER_PREFIX
            && url[|COVER_PREFIX|..|url| - 6] == isbn
            && url[|url| - 6..] == "-" + [SizeLetter(size)] + ".jpg"
  {
  }

  lemma CoverUrlInjective(isbn1: string, size1: CoverSize, isbn2: string, size2: CoverSize)
    requires CoverUrl(isbn1, size1) == CoverUrl(isbn2, size2)
    ensures isbn1 == isbn2 && size1 == size2
  {
    CoverUrlReadBack(isbn1, size1);
    CoverUrlReadBack(isbn2, size2);
    var url := CoverUrl(isbn1, size1);
    assert url[|url| - 5] == SizeLetter(size1) == SizeLetter(size2);
  }
}
