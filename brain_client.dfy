/** The inference client (src/brain/client.rs): the endpoint URL, the mapping of an HTTP reply to
    a response or a `BrainError`, the exponential backoff, and the retry loop of `infer`. HTTP is
    an oracle: `replies(k)` is what the `k`-th attempt (from 0) gets back, and `parse` stands for
    `serde_json::from_str`. */
module BrainClient {
  import opened Wrappers
  import opened BrainTypes
  import Text

  const U64_LIMIT: int := 0x1_0000_0000_0000_0000
  const U64_MAX: int := U64_LIMIT - 1
  type u64 = x: int | 0 <= x < 0x1_0000_0000_0000_0000
  const MAX_DELAY_MS: nat := 30000
  const DEFAULT_MAX_RETRIES: nat := 3
  const DEFAULT_BASE_RETRY_DELAY_MS: nat := 1000

  /** `BrainError` (reqwest and serde_json errors are carried as their text). */
  datatype BrainError =
    | AuthenticationFailed(body: string)
    | InvalidRequest(msg: string)
    | InsufficientBalance(body: string)
    | Exhausted(retries: nat, lastError: string)
    | ModelError(body: string)
    | Timeout(secs: nat)
    | NetworkError(msg: string)
    | SerializationError(msg: string)

  /** `BrainError`'s `Display`. */
  function ErrorText(e: BrainError): string
  {
    match e
    case AuthenticationFailed(b) => "Authentication failed: " + b
    case InvalidRequest(m) => "Invalid request: " + m
    case InsufficientBalance(b) => "Insufficient balance: " + b
    case Exhausted(n, last) => "Exhausted: max retries (" + Text.NatToString(n) + ") exceeded, last error: " + last
    case ModelError(b) => "Model error: " + b
    case Timeout(n) => "Timeout after " + Text.NatToString(n) + " seconds"
    case NetworkError(m) => "Network error: " + m
    case SerializationError(m) => "Serialization error: " + m
  }

  /** What one HTTP exchange gives: no response at all, or a status, its reason phrase and the
      body (whose reading may itself fail). */
  datatype HttpReply =
    | Unreachable(error: string)
    | Reply(status: nat, reason: string, body: Result<string, string>)

  /** `format!("{}/v1/messages", endpoint.trim_end_matches('/'))`. */
  function MessagesUrl(endpoint: string): (url: string)
    ensures |url| >= |MESSAGES_PATH| && url[|url| - |MESSAGES_PATH|..] == MESSAGES_PATH
    ensures var base := url[..|url| - |MESSAGES_PATH|];
            base <= endpoint && (base == [] || base[|base| - 1] != '/') &&
            forall i :: |base| <= i < |endpoint| ==> endpoint[i] == '/'
  {
    var base := Text.TrimEnd(endpoint, '/');
    assert (base + MESSAGES_PATH)[..|base|] == base;
    base + MESSAGES_PATH
  }

  const MESSAGES_PATH: string := "/v1/messages"

  /** Trailing slashes on the endpoint make no difference to the URL. */
  lemma UrlIgnoresTrailingSlash(endpoint: string)
    ensures MessagesUrl(endpoint + "/") == MessagesUrl(endpoint)
  {
    assert (endpoint + "/")[..|endpoint|] == endpoint;
  }

  /** The URL keeps every character of the endpoint before its trailing slashes. */
  lemma UrlKeepsEndpoint(endpoint: string)
    requires endpoint != [] && endpoint[|endpoint| - 1] != '/'
    ensures MessagesUrl(endpoint) == endpoint + "/v1/messages"
  {
  }

  /** `response.text().await.unwrap_or_default()`. */
  function BodyOrEmpty(body: Result<string, string>): string
  {
    if body.Ok? then body.value else ""
  }

  /** `send_request` after the exchange: a 2xx body is parsed, 401, 400 and 402 and 5xx have
      their own errors, and any other status becomes `InvalidRequest("HTTP <status>: <body>")`. */
  function Classify(reply: HttpReply, parse: string -> Result<MessageResponse, string>): (r: Result<MessageResponse, BrainError>)
    ensures reply.Unreachable? ==> r == Err(NetworkError(reply.error))
    ensures reply.Reply? && 200 <= reply.status <= 299 && reply.body.Ok? ==>
              r == (match parse(reply.body.value)
                    case Ok(m) => Ok(m)
                    case Err(e) => Err(SerializationError(e)))
    ensures reply.Reply? && 200 <= reply.status <= 299 && reply.body.Err? ==> r == Err(NetworkError(reply.body.error))
    ensures reply.Reply? && reply.status == 401 ==> r == Err(AuthenticationFailed(BodyOrEmpty(reply.body)))
    ensures reply.Reply? && reply.status == 400 ==> r == Err(InvalidRequest(BodyOrEmpty(reply.body)))
    ensures reply.Reply? && reply.status == 402 ==> r == Err(InsufficientBalance(BodyOrEmpty(reply.body)))
    ensures reply.Reply? && 500 <= reply.status <= 599 ==> r == Err(ModelError(BodyOrEmpty(reply.body)))
    ensures reply.Reply? && !(200 <= reply.status <= 299) && reply.status !in {400, 401, 402} &&
            !(500 <= reply.status <= 599) ==>
              r == Err(InvalidRequest("HTTP " + Text.NatToString(reply.status) + " " + reply.reason + ": " +
                                      BodyOrEmpty(reply.body)))
    ensures r.Ok? ==> reply.Reply? && 200 <= reply.status <= 299
  {
    match reply
    case Unreachable(e) => Err(NetworkError(e))
    case Reply(status, reason, body) =>
      if 200 <= status <= 299 then
        match body
        case Err(e) => Err(NetworkError(e))
        case Ok(text) =>
          match parse(text)
          case Ok(m) => Ok(m)
          case Err(e) => Err(SerializationError(e))
      else if status == 401 then Err(AuthenticationFailed(BodyOrEmpty(body)))
      else if status == 400 then Err(InvalidRequest(BodyOrEmpty(body)))
      else if status == 402 then Err(InsufficientBalance(BodyOrEmpty(body)))
      else if 500 <= status <= 599 then Err(ModelError(BodyOrEmpty(body)))
      else Err(InvalidRequest("HTTP " + Text.NatToString(status) + " " + reason + ": " + BodyOrEmpty(body)))
  }

  function Pow2(k: nat): (p: nat)
    ensures p >= 1
  {
    if k == 0 then 1 else 2 * Pow2(k - 1)
  }

  lemma {:induction false} Pow2Add(a: nat, b: nat)
    ensures Pow2(a + b) == Pow2(a) * Pow2(b)
    decreases a
  {
    if a > 0 {
      Pow2Add(a - 1, b);
    }
  }

  lemma {:induction false} Pow2Monotone(a: nat, b: nat)
    requires a <= b
    ensures Pow2(a) <= Pow2(b)
    decreases b
  {
    if a < b {
      Pow2Monotone(a, b - 1);
    }
  }

  /** 2^k fits in a `u64` exactly when k < 64. */
  lemma Pow2FitsBelow64(k: nat)
    ensures Pow2(k) <= U64_MAX <==> k < 64
  {
    Pow2Of61();
    Pow2Add(61, 3);
    assert Pow2(3) == 8;
    assert Pow2(64) == U64_LIMIT;
    if k < 64 {
      Pow2Monotone(k, 63);
    } else {
      Pow2Monotone(64, k);
    }
  }

  /** `2u64.saturating_pow(k)`. */
  function SaturatingPow2(k: nat): (p: u64)
    ensures k < 64 ==> p == Pow2(k)
    ensures k >= 64 ==> p == U64_MAX
  {
    Pow2FitsBelow64(k);
    if Pow2(k) <= U64_MAX then Pow2(k) else U64_MAX
  }

  /** `a.saturating_mul(b)` on `u64`. */
  function SaturatingMul(a: u64, b: u64): (p: u64)
    ensures p <= a * b && (p < a * b ==> p == U64_MAX)
  {
    if a * b <= U64_MAX then a * b else U64_MAX
  }

  /** `a * b` on `u64` in a release build, where overflow wraps. */
  function WrappingMul(a: u64, b: u64): (p: u64)
  {
    (a * b) % U64_LIMIT
  }

  function Min(a: int, b: int): int
  {
    if a <= b then a else b
  }

  /** The delay before retry `retries` (from 1) as the code computes it: a plain `u64` product. */
  function DelayAsWritten(baseMs: u64, retries: nat): (d: nat)
    requires retries >= 1
    ensures d <= MAX_DELAY_MS
  {
    Min(WrappingMul(baseMs, SaturatingPow2(retries - 1)), MAX_DELAY_MS)
  }

  /** Multiplying by a positive factor never makes a natural number smaller. */
  lemma MulGrows(a: nat, b: nat)
    requires a >= 1
    ensures a * b >= b
  {
    assert a * b == b + (a - 1) * b;
  }

  /** A saturating product with a saturated power of two is the true product, saturated. */
  lemma SaturatedProduct(a: u64, k: nat)
    ensures SaturatingMul(a, SaturatingPow2(k)) == if a * Pow2(k) <= U64_MAX then a * Pow2(k) else U64_MAX
  {
    var p := Pow2(k);
    var q := SaturatingPow2(k);
    Pow2FitsBelow64(k);
    ClampedProduct(a, q);
    if p > U64_MAX {
      assert q == U64_MAX;
      if a > 0 {
        MulGrows(a, p);
        MulGrows(a, U64_MAX);
      }
    }
  }

  /** The saturating product, as a clamp of the true one. */
  lemma ClampedProduct(a: u64, b: u64)
    ensures SaturatingMul(a, b) == if a * b <= U64_MAX then a * b else U64_MAX
  {
  }

  /** The delay as intended: `base * 2^(retries-1)` capped at 30 seconds, with the product
      saturating instead of wrapping. */
  function Delay(baseMs: u64, retries: nat): (d: nat)
    requires retries >= 1
    ensures d <= MAX_DELAY_MS
    ensures baseMs * Pow2(retries - 1) <= MAX_DELAY_MS ==> d == baseMs * Pow2(retries - 1)
    ensures baseMs * Pow2(retries - 1) > MAX_DELAY_MS ==> d == MAX_DELAY_MS
  {
    SaturatedProduct(baseMs, retries - 1);
    Min(SaturatingMul(baseMs, SaturatingPow2(retries - 1)), MAX_DELAY_MS)
  }

  /** Backoff never shrinks from one retry to the next. */
  lemma DelayMonotone(baseMs: u64, r1: nat, r2: nat)
    requires 1 <= r1 <= r2
    ensures Delay(baseMs, r1) <= Delay(baseMs, r2)
  {
    Pow2Monotone(r1 - 1, r2 - 1);
    MulMonotone(baseMs, Pow2(r1 - 1), Pow2(r2 - 1));
  }

  lemma MulMonotone(a: nat, b: nat, c: nat)
    requires b <= c
    ensures a * b <= a * c
  {
    assert a * c == a * b + a * (c - b);
  }

  /** The written delay agrees with the intended one as long as the product fits in a `u64`. */
  lemma DelayAsWrittenAgreesWithoutOverflow(baseMs: u64, retries: nat)
    requires retries >= 1 && baseMs * Pow2(retries - 1) <= U64_MAX
    ensures DelayAsWritten(baseMs, retries) == Delay(baseMs, retries)
  {
    if baseMs > 0 {
      MulGrows(baseMs, Pow2(retries - 1));
    }
  }

  /** With the default 1000 ms base, the 62nd retry's product `1000 * 2^61` is `125 * 2^64`,
      which wraps to 0: the written code retries at once where the intended delay is 30 s. */
  lemma DelayOverflowCollapsesToZero()
    ensures DelayAsWritten(1000, 62) == 0
    ensures Delay(1000, 62) == MAX_DELAY_MS
  {
    Pow2Of61();
    assert 1000 * Pow2(61) == 125 * U64_LIMIT;
  }

  lemma Pow2Of61()
    ensures Pow2(61) == 0x2000_0000_0000_0000
  {
    assert Pow2(5) == 32;
    assert Pow2(8) == 256;
    Pow2Add(8, 5);
    assert Pow2(13) == 0x2000;
    Pow2Add(8, 8);
    assert Pow2(16) == 0x1_0000;
    Pow2Add(16, 13);
    assert Pow2(29) == 0x2000_0000;
    Pow2Add(16, 16);
    assert Pow2(32) == 0x1_0000_0000;
    Pow2Add(32, 29);
  }

  /** `infer`: send, and on failure count the retry, give up with `Exhausted` once the count
      passes `max_retries`, otherwise sleep the backoff delay and send again. The delays slept
      are returned in order. */
  method Infer(maxRetries: nat, baseMs: u64, replies: nat -> HttpReply,
               parse: string -> Result<MessageResponse, string>)
    returns (r: Result<MessageResponse, BrainError>, attempts: nat, delays: seq<nat>)
    ensures 1 <= attempts <= maxRetries + 1
    ensures |delays| == attempts - 1
    ensures forall k :: 0 <= k < |delays| ==> delays[k] == DelayAsWritten(baseMs, k + 1) && delays[k] <= MAX_DELAY_MS
    ensures forall k :: 0 <= k < attempts - 1 ==> Classify(replies(k), parse).Err?
    ensures r.Ok? ==> r == Classify(replies(attempts - 1), parse)
    ensures r.Err? ==> attempts == maxRetries + 1 && Classify(replies(attempts - 1), parse).Err? &&
                       r.error == Exhausted(attempts, ErrorText(Classify(replies(attempts - 1), parse).error))
  {
    var retries := 0;
    delays := [];
    while true
      invariant retries <= maxRetries && |delays| == retries
      invariant forall k :: 0 <= k < retries ==> delays[k] == DelayAsWritten(baseMs, k + 1) && Classify(replies(k), parse).Err?
      decreases maxRetries - retries
    {
      var outcome := Classify(replies(retries), parse);
      if outcome.Ok? {
        r, attempts := outcome, retries + 1;
        return;
      }
      retries := retries + 1;
      if retries > maxRetries {
        r, attempts := Err(Exhausted(retries, ErrorText(outcome.error))), retries;
        return;
      }
      delays := delays + [DelayAsWritten(baseMs, retries)];
    }
  }
}
