/**
 * `DeliveryService`: one attempt to deliver one event to one endpoint — the
 * attempt record, the signed request, the outcome, the retry schedule — and the
 * circuit-breaker fallback around it.
 */
module DeliveryService {
  import opened Wrappers
  import opened Entities
  import Text
  import Seqs
  import SignatureService
  import EventRepository
  import EndpointRepository
  import DeliveryRepository

  function Min(a: int, b: int): int { if a <= b then a else b }

  // ---------------------------------------------------------------- retry delay

  const BaseDelaySeconds: int := 10
  const MaxDelaySeconds: int := 3600

  function Pow2(n: nat): (r: nat)
    ensures r >= 1
  {
    if n == 0 then 1 else 2 * Pow2(n - 1)
  }

  lemma {:induction false} Pow2Monotone(m: nat, n: nat)
    requires m <= n
    ensures Pow2(m) <= Pow2(n)
    decreases n - m
  {
    if m < n {
      Pow2Monotone(m, n - 1);
    }
  }

  lemma {:induction false} Pow2Add(a: nat, b: nat)
    ensures Pow2(a + b) == Pow2(a) * Pow2(b)
    decreases a
  {
    if a > 0 {
      Pow2Add(a - 1, b);
    }
  }

  /** Small powers, by unfolding. */
  lemma Pow2Small()
    ensures Pow2(1) == 2 && Pow2(2) == 4 && Pow2(9) == 512 && Pow2(10) == 1024
  {
    assert Pow2(4) == 16;
    assert Pow2(8) == 256;
  }

  /** The powers the overflow analysis needs. */
  lemma Pow2Large()
    ensures Pow2(59) == 0x800_0000_0000_0000
    ensures Pow2(60) == 0x1000_0000_0000_0000
    ensures Pow2(61) == 0x2000_0000_0000_0000
    ensures Pow2(62) == 0x4000_0000_0000_0000
  {
    Pow2Small();
    Pow2Add(10, 9);
    Pow2Add(10, 10);
    Pow2Add(20, 1);
    Pow2Add(20, 2);
    Pow2Add(20, 20);
    Pow2Add(40, 19);
    Pow2Add(40, 20);
    Pow2Add(40, 21);
    Pow2Add(40, 22);
  }

  /**
   * `calculateRetryDelay` as evidently intended: 10 · 2^attempt seconds, at most one
   * hour (a negative exponent makes `(long) Math.pow` truncate to 0).
   */
  function RetryDelay(attemptNumber: int): (d: int)
    ensures 0 <= d <= MaxDelaySeconds
  {
    if attemptNumber < 0 then 0 else Min(BaseDelaySeconds * Pow2(attemptNumber), MaxDelaySeconds)
  }

  /** The delay doubles from one attempt to the next until it reaches the cap. */
  lemma RetryDelayDoubles(n: nat)
    ensures RetryDelay(n + 1) == Min(2 * RetryDelay(n), MaxDelaySeconds)
  {
  }

  /** A later attempt never waits less. */
  lemma RetryDelayMonotone(m: int, n: int)
    requires m <= n
    ensures RetryDelay(m) <= RetryDelay(n)
  {
    if 0 <= m {
      Pow2Monotone(m, n);
    }
  }

  /** The delays of the first attempts, and the cap reached from the ninth on. */
  lemma RetryDelayValues(n: nat)
    ensures RetryDelay(1) == 20 && RetryDelay(2) == 40 && RetryDelay(3) == 80 && RetryDelay(6) == 640
    ensures RetryDelay(8) == 2560
    ensures n >= 9 ==> RetryDelay(n) == MaxDelaySeconds
  {
    if n >= 9 {
      Pow2Monotone(9, n);
    }
  }

  const LongMax: int := 0x7fff_ffff_ffff_ffff
  const LongMin: int := -0x8000_0000_0000_0000
  const TwoTo64: int := 0x1_0000_0000_0000_0000

  /** The two's-complement `long` with the low 64 bits of `x`. */
  function WrapLong(x: int): (r: int)
    ensures LongMin <= r <= LongMax
    ensures (x - r) % TwoTo64 == 0
    ensures LongMin <= x <= LongMax ==> r == x
  {
    var m := x % TwoTo64;
    if m > LongMax then m - TwoTo64 else m
  }

  /** `(long) Math.pow(2, n)`: exact below 2^63, saturated at `Long.MAX_VALUE` above, 0 for n < 0. */
  function PowAsLong(n: int): (r: int)
    ensures 0 <= r <= LongMax
  {
    if n < 0 then 0
    else if n >= 63 then LongMax
    else Pow2Below63(n)
  }

  function Pow2Below63(n: nat): (r: nat)
    requires n < 63
    ensures r == Pow2(n) && r <= LongMax
  {
    Pow2Monotone(n, 62);
    Pow2Large();
    Pow2(n)
  }

  /** `calculateRetryDelay` as written: the `long` product wraps around before `Math.min` caps it. */
  function RetryDelayAsWritten(attemptNumber: int): (d: int)
    ensures d <= MaxDelaySeconds
  {
    Min(WrapLong(PowAsLong(attemptNumber) * BaseDelaySeconds), MaxDelaySeconds)
  }

  /** Below attempt 60 the written code computes the intended delay. */
  lemma AsWrittenAgreesBelowSixty(n: int)
    requires n < 60
    ensures RetryDelayAsWritten(n) == RetryDelay(n)
  {
    if n >= 0 {
      Pow2Monotone(n, 59);
      Pow2Large();
    }
  }

  /** From attempt 60 on the product overflows: the delay turns negative, so the retry is due at once. */
  lemma RetryDelayOverflows()
    ensures RetryDelayAsWritten(60) == -6917529027641081856
    ensures RetryDelayAsWritten(61) == MaxDelaySeconds
    ensures RetryDelayAsWritten(62) == LongMin
    ensures RetryDelayAsWritten(63) == -10
  {
    Pow2Large();
    assert 0xa000_0000_0000_0000 % TwoTo64 == 0xa000_0000_0000_0000;
    assert 0x1_4000_0000_0000_0000 % TwoTo64 == 0x4000_0000_0000_0000;
    assert 0x2_8000_0000_0000_0000 % TwoTo64 == 0x8000_0000_0000_0000;
    assert 0x4_ffff_ffff_ffff_fff6 % TwoTo64 == 0xffff_ffff_ffff_fff6;
  }

  // ---------------------------------------------------------------- attempt numbers

  function MaxAttempt(history: seq<Delivery>): (m: int)
    requires history != []
    ensures forall d :: d in history ==> d.attemptNumber <= m
    ensures exists d :: d in history && d.attemptNumber == m
    decreases |history|
  {
    if |history| == 1 then history[0].attemptNumber
    else
      var rest := MaxAttempt(history[1..]);
      assert forall d :: d in history ==> d == history[0] || d in history[1..];
      if history[0].attemptNumber >= rest then history[0].attemptNumber else rest
  }

  /** `getNextAttemptNumber`: one more than the highest earlier attempt, 1 for the first. */
  function NextAttemptNumber(history: seq<Delivery>): (n: int)
    ensures history == [] ==> n == 1
    ensures forall d :: d in history ==> d.attemptNumber < n
    ensures history != [] ==> exists d :: d in history && d.attemptNumber == n - 1
  {
    if history == [] then 1 else MaxAttempt(history) + 1
  }

  // ---------------------------------------------------------------- response bodies

  const MaxResponseBodyLength: nat := 1000

  /** `truncateResponseBody`: bodies over 1000 characters keep their first 1000 and gain "...". */
  function TruncateResponseBody(body: Option<string>): (r: Option<string>)
    ensures r.None? <==> body.None?
    ensures body.Some? && |body.value| <= MaxResponseBodyLength ==> r == body
    ensures body.Some? && |body.value| > MaxResponseBodyLength ==>
              |r.value| == MaxResponseBodyLength + 3
              && r.value[..MaxResponseBodyLength] == body.value[..MaxResponseBodyLength]
              && r.value[MaxResponseBodyLength..] == "..."
  {
    match body
    case None => None
    case Some(s) =>
      if |s| > MaxResponseBodyLength then Some(s[..MaxResponseBodyLength] + "...") else Some(s)
  }

  /** A stored body is never longer than 1003 characters, and storing it again changes nothing. */
  lemma TruncateIdempotent(body: Option<string>)
    ensures TruncateResponseBody(body).Some? ==> |TruncateResponseBody(body).value| <= MaxResponseBodyLength + 3
    ensures TruncateResponseBody(TruncateResponseBody(body)) == TruncateResponseBody(body)
  {
    if body.Some? && |body.value| > MaxResponseBodyLength {
      var t := TruncateResponseBody(body).value;
      assert t[..MaxResponseBodyLength] + "..." == t;
    }
  }

  // ---------------------------------------------------------------- headers

  /** The fixed headers of every delivery request. */
  function BaseHeaders(event: Event, signature: string, timestamp: nat): (h: map<string, string>)
    ensures h.Keys == {"Content-Type", "X-Webhook-Signature", "X-Webhook-Event-Id", "X-Webhook-Event-Type", "X-Webhook-Timestamp"}
  {
    map["Content-Type" := "application/json",
        "X-Webhook-Signature" := signature,
        "X-Webhook-Event-Id" := IdText(event.id),
        "X-Webhook-Event-Type" := event.eventType,
        "X-Webhook-Timestamp" := Text.DecimalString(timestamp)]
  }

  function CustomHeaders(endpoint: Endpoint): map<string, Value> {
    if endpoint.headers.Some? then endpoint.headers.value else map[]
  }

  /** Some custom header has a JSON null as its value. */
  predicate HasNullValue(custom: map<string, Value>) {
    exists k :: k in custom && custom[k].Null?
  }

  /** `value.toString()` of a non-null custom header value. */
  function ValueText(v: Value, crypto: SignatureService.Crypto): string
    requires !v.Null?
  {
    if v.Str? then v.text else crypto.show(v)
  }

  /** The custom headers as the strings `headers.set` receives. */
  function HeaderTexts(custom: map<string, Value>, crypto: SignatureService.Crypto): (r: map<string, string>)
    requires !HasNullValue(custom)
    ensures r.Keys == custom.Keys
  {
    map k | k in custom :: ValueText(custom[k], crypto)
  }

  /** `value.toString()` on a null value inside the `forEach` lambda. */
  const HeaderValueNullMessage := "Cannot invoke \"Object.toString()\" because \"value\" is null"

  /**
   * What `createHeaders` produces: the signature fails as a RuntimeException, a null
   * custom value throws a NullPointerException, otherwise the fixed headers, each
   * overridden by a custom header of the same name.
   */
  function RequestHeaders(event: Event, endpoint: Endpoint, crypto: SignatureService.Crypto, timestamp: nat)
    : (r: Result<map<string, string>, Thrown>)
    ensures SignatureService.GenerateSignature(event.payload, endpoint.secret, crypto).Err? ==>
              r == Err(SignatureService.GenerateSignature(event.payload, endpoint.secret, crypto).error)
    ensures SignatureService.GenerateSignature(event.payload, endpoint.secret, crypto).Ok? && HasNullValue(CustomHeaders(endpoint)) ==>
              r == Err(Throw(NullPointerException, HeaderValueNullMessage))
    ensures r.Ok? <==> SignatureService.GenerateSignature(event.payload, endpoint.secret, crypto).Ok? && !HasNullValue(CustomHeaders(endpoint))
    ensures r.Ok? ==> r.value.Keys == BaseHeaders(event, "", timestamp).Keys + CustomHeaders(endpoint).Keys
    ensures r.Ok? ==> forall k :: k in CustomHeaders(endpoint) ==> r.value[k] == ValueText(CustomHeaders(endpoint)[k], crypto)
    ensures r.Ok? ==> forall k :: k in r.value && k !in CustomHeaders(endpoint) ==>
              r.value[k] == BaseHeaders(event, SignatureService.GenerateSignature(event.payload, endpoint.secret, crypto).value, timestamp)[k]
  {
    match SignatureService.GenerateSignature(event.payload, endpoint.secret, crypto)
    case Err(ex) => Err(ex)
    case Ok(signature) =>
      if HasNullValue(CustomHeaders(endpoint)) then Err(Throw(NullPointerException, HeaderValueNullMessage))
      else Ok(BaseHeaders(event, signature, timestamp) + HeaderTexts(CustomHeaders(endpoint), crypto))
  }

  /**
   * `HttpHeaders.set(key, value.toString())` for every entry of `custom` in turn: each
   * overrides the header of its name, and a null value throws.
   */
  method SetAll(headers: map<string, string>, custom: map<string, Value>, crypto: SignatureService.Crypto)
    returns (r: Result<map<string, string>, Thrown>)
    ensures HasNullValue(custom) ==> r == Err(Throw(NullPointerException, HeaderValueNullMessage))
    ensures !HasNullValue(custom) ==> r == Ok(headers + HeaderTexts(custom, crypto))
  {
    var acc := headers;
    var pending := custom.Keys;
    while pending != {}
      invariant pending <= custom.Keys
      invariant forall k :: k in custom.Keys - pending ==> !custom[k].Null?
      invariant acc == headers + map k | k in custom.Keys - pending :: ValueText(custom[k], crypto)
      decreases |pending|
    {
      var key :| key in pending;
      if custom[key].Null? {
        return Err(Throw(NullPointerException, HeaderValueNullMessage));
      }
      acc := acc[key := ValueText(custom[key], crypto)];
      pending := pending - {key};
    }
    assert custom.Keys - pending == custom.Keys;
    return Ok(acc);
  }

  /** `createHeaders`: the fixed headers are set, then every custom header in turn. */
  method CreateHeaders(event: Event, endpoint: Endpoint, crypto: SignatureService.Crypto, timestamp: nat)
    returns (r: Result<map<string, string>, Thrown>)
    ensures r == RequestHeaders(event, endpoint, crypto, timestamp)
  {
    var signature := SignatureService.GenerateSignature(event.payload, endpoint.secret, crypto);
    if signature.Err? {
      return Err(signature.error);
    }
    r := SetAll(BaseHeaders(event, signature.value, timestamp), CustomHeaders(endpoint), crypto);
  }

  // ---------------------------------------------------------------- the exchange

  /** The POST that `restTemplate.exchange` sends: the endpoint's URL, the headers, the payload as body. */
  datatype Request = Request(url: Option<string>, headers: map<string, string>, body: Payload)

  /**
   * What the transport does with a request: a response (status and body), or an
   * exception — I/O errors, a null or malformed URL, and every 4xx/5xx status, which
   * RestTemplate's default error handler raises — with its possibly null message.
   */
  datatype SendOutcome = Response(statusCode: int, body: Option<string>) | Failed(message: Option<string>)

  /** How the try block ended: with a response, or in the catch block with `e.getMessage()`. */
  datatype Exchange = Answered(statusCode: int, body: Option<string>) | Raised(message: Option<string>)

  function Exchanged(event: Event, endpoint: Endpoint, crypto: SignatureService.Crypto,
                     transport: Request -> SendOutcome, timestamp: nat): (x: Exchange)
    ensures RequestHeaders(event, endpoint, crypto, timestamp).Err? ==>
              x == Raised(RequestHeaders(event, endpoint, crypto, timestamp).error.message)
  {
    match RequestHeaders(event, endpoint, crypto, timestamp)
    case Err(ex) => Raised(ex.message)
    case Ok(headers) =>
      match transport(Request(endpoint.url, headers, event.payload))
      case Response(code, body) => Answered(code, body)
      case Failed(message) => Raised(message)
  }

  /** The readings of the clock that one attempt takes. */
  datatype Clock = Clock(
    startMillis: int,     // `startTime`
    headerMillis: nat,    // the `X-Webhook-Timestamp` value
    endMillis: int,       // the reading the latency is computed from
    createdAt: DateTime,  // the attempt record's creation timestamp
    now: DateTime)        // `LocalDateTime.now()` for `deliveredAt` / `nextRetryAt`

  function Latency(clock: Clock): int { clock.endMillis - clock.startMillis }

  const RetryEnabledNullMessage :=
    "Cannot invoke \"java.lang.Boolean.booleanValue()\" because the return value of \"dev.dammak.paymentservicewebhook.entity.WebhookEndpoint.getRetryEnabled()\" is null"
  const MaxRetriesNullMessage :=
    "Cannot invoke \"java.lang.Integer.intValue()\" because the return value of \"dev.dammak.paymentservicewebhook.entity.WebhookEndpoint.getMaxRetries()\" is null"

  /** The epoch days a `LocalDate` can hold, and the length of a day. */
  const MinEpochDay: int := -365243219162
  const MaxEpochDay: int := 365241780471
  const MillisPerDay: int := 86400000

  /** The epoch day of an instant (floor division, as Java's `floorDiv`). */
  function EpochDay(t: DateTime): int { t / MillisPerDay }

  const EpochDayRangeMessage := "Invalid value for EpochDay (valid values -365243219162 - 365241780471): "

  /**
   * `LocalDateTime.plusSeconds(seconds)`: a result that moves to another day whose
   * epoch day is outside the range of `LocalDate` raises a DateTimeException naming it.
   */
  function PlusSeconds(now: DateTime, seconds: int): (r: Result<DateTime, Thrown>)
    ensures r.Ok? <==> EpochDay(now + seconds * 1000) == EpochDay(now)
                       || MinEpochDay <= EpochDay(now + seconds * 1000) <= MaxEpochDay
    ensures r.Ok? ==> r.value == now + seconds * 1000
    ensures r.Err? ==> r.error == Throw(DateTimeException, EpochDayRangeMessage + Text.SignedDecimalString(EpochDay(now + seconds * 1000)))
  {
    var t := now + seconds * 1000;
    if EpochDay(t) != EpochDay(now) && !(MinEpochDay <= EpochDay(t) <= MaxEpochDay) then
      Err(Throw(DateTimeException, EpochDayRangeMessage + Text.SignedDecimalString(EpochDay(t))))
    else Ok(t)
  }

  /** A retry is scheduled when retries are enabled and the attempt is below the endpoint's maximum. */
  predicate RetryAllowed(endpoint: Endpoint, attemptNumber: int) {
    endpoint.retryEnabled == Some(true) && endpoint.maxRetries.Some? && attemptNumber < endpoint.maxRetries.value
  }

  /**
   * The attempt record after the try/catch: SUCCESS with the response, or FAILED with
   * the error, promoted to RETRY_SCHEDULED or MAX_RETRIES_EXCEEDED. Unboxing a null
   * `retryEnabled` (or a null `maxRetries` once retries are enabled) throws, and so
   * does `scheduleRetry` when the delay it computes leaves the range of `LocalDateTime`.
   */
  function Settled(d: Delivery, endpoint: Endpoint, x: Exchange, clock: Clock): (r: Result<Delivery, Thrown>)
    ensures r.Err? <==> x.Raised? && (endpoint.retryEnabled.None? || (endpoint.retryEnabled == Some(true) && endpoint.maxRetries.None?)
                                      || (RetryAllowed(endpoint, d.attemptNumber)
                                          && PlusSeconds(clock.now, RetryDelayAsWritten(d.attemptNumber)).Err?))
    ensures r.Err? ==> r.error.kind == NullPointerException || r.error.kind == DateTimeException
    ensures r.Ok? ==> r.value.id == d.id && r.value.eventId == d.eventId && r.value.endpointId == d.endpointId
                      && r.value.attemptNumber == d.attemptNumber && r.value.createdAt == d.createdAt
    ensures r.Ok? ==> (r.value.status == DeliveryStatus.SUCCESS <==> x.Answered?)
    ensures r.Ok? ==> (r.value.status == DeliveryStatus.RETRY_SCHEDULED <==> x.Raised? && RetryAllowed(endpoint, d.attemptNumber))
    ensures r.Ok? ==> r.value.status in {DeliveryStatus.SUCCESS, DeliveryStatus.RETRY_SCHEDULED, DeliveryStatus.MAX_RETRIES_EXCEEDED}
    ensures r.Ok? ==> r.value.latencyMs == Some(Latency(clock))
    ensures x.Answered? ==> && r.Ok? && r.value.responseStatus == Some(x.statusCode)
                            && r.value.responseBody == TruncateResponseBody(x.body)
                            && r.value.deliveredAt == Some(clock.now) && r.value.errorMessage == d.errorMessage
    ensures x.Raised? && r.Ok? ==> && r.value.errorMessage == x.message && r.value.responseStatus == d.responseStatus
                                   && r.value.responseBody == d.responseBody && r.value.deliveredAt == d.deliveredAt
    ensures r.Ok? && r.value.status == DeliveryStatus.RETRY_SCHEDULED ==>
              r.value.nextRetryAt == Some(clock.now + RetryDelayAsWritten(d.attemptNumber) * 1000)
    ensures r.Ok? && r.value.status != DeliveryStatus.RETRY_SCHEDULED ==> r.value.nextRetryAt == d.nextRetryAt
  {
    match x
    case Answered(code, body) =>
      Ok(d.(status := DeliveryStatus.SUCCESS, responseStatus := Some(code), responseBody := TruncateResponseBody(body),
            deliveredAt := Some(clock.now), latencyMs := Some(Latency(clock))))
    case Raised(message) =>
      var failed := d.(status := DeliveryStatus.FAILED, errorMessage := message, latencyMs := Some(Latency(clock)));
      match endpoint.retryEnabled
      case None => Err(Throw(NullPointerException, RetryEnabledNullMessage))
      case Some(enabled) =>
        if !enabled then Ok(failed.(status := DeliveryStatus.MAX_RETRIES_EXCEEDED))
        else match endpoint.maxRetries
          case None => Err(Throw(NullPointerException, MaxRetriesNullMessage))
          case Some(maxRetries) =>
            if d.attemptNumber < maxRetries then
              match PlusSeconds(clock.now, RetryDelayAsWritten(d.attemptNumber))
              case Err(ex) => Err(ex)
              case Ok(at) => Ok(failed.(status := DeliveryStatus.RETRY_SCHEDULED, nextRetryAt := Some(at)))
            else Ok(failed.(status := DeliveryStatus.MAX_RETRIES_EXCEEDED))
  }

  /** A state of the delivery table together with what a call returned. */
  datatype Transition<R> = Transition(result: R, rows: seq<Delivery>, nextId: nat)

  /** The IN_PROGRESS record `deliverWebhook` saves first. */
  function InProgress(id: Uuid, eventId: Uuid, endpointId: Uuid, attemptNumber: int, createdAt: DateTime): Delivery {
    Delivery(id, eventId, endpointId, DeliveryStatus.IN_PROGRESS, attemptNumber, None, None, None, None, None, None, createdAt)
  }

  /**
   * The transactional body of `deliverWebhook`. An exception rolls the transaction
   * back, so the delivery table is then as before the call.
   */
  function Deliver(rows: seq<Delivery>, nextId: nat, events: seq<Event>, endpoints: seq<Endpoint>,
                   eventId: Uuid, endpointId: Uuid, crypto: SignatureService.Crypto,
                   transport: Request -> SendOutcome, clock: Clock): (t: Transition<Result<Delivery, Thrown>>)
    ensures t.result.Err? ==> t.rows == rows && t.nextId == nextId
  {
    match EventRepository.FindById(events, eventId)
    case None => Transition(Err(Throw(WebhookDeliveryException, "Event not found")), rows, nextId)
    case Some(event) =>
      match EndpointRepository.FindById(endpoints, endpointId)
      case None => Transition(Err(Throw(WebhookDeliveryException, "Endpoint not found")), rows, nextId)
      case Some(endpoint) => AttemptSpec(rows, nextId, event, endpoint, crypto, transport, clock)
  }

  /** The body once the event and the endpoint are found: save IN_PROGRESS, send, settle, save again. */
  function AttemptSpec(rows: seq<Delivery>, nextId: nat, event: Event, endpoint: Endpoint, crypto: SignatureService.Crypto,
                       transport: Request -> SendOutcome, clock: Clock): (t: Transition<Result<Delivery, Thrown>>)
    ensures t.result.Err? ==> t.rows == rows && t.nextId == nextId
  {
    var attempt := NextAttemptNumber(DeliveryRepository.FindByEventAndEndpoint(rows, event.id, endpoint.id));
    var d := InProgress(nextId, event.id, endpoint.id, attempt, clock.createdAt);
    match Settled(d, endpoint, Exchanged(event, endpoint, crypto, transport, clock.headerMillis), clock)
    case Err(ex) => Transition(Err(ex), rows, nextId)
    case Ok(settled) => Transition(Ok(settled), Seqs.ReplaceByKey(rows + [d], DeliveryRepository.DeliveryId, settled), nextId + 1)
  }

  /** The delivery table's invariant, on values. */
  ghost predicate TableValid(rows: seq<Delivery>, nextId: nat) {
    Seqs.UniqueKeys(rows, DeliveryRepository.DeliveryId) && forall i :: 0 <= i < |rows| ==> rows[i].id < nextId
  }

  /** The table after one attempt, once the rows are found. */
  lemma AttemptAppendsOne(rows: seq<Delivery>, nextId: nat, event: Event, endpoint: Endpoint, crypto: SignatureService.Crypto,
                          transport: Request -> SendOutcome, clock: Clock)
    requires TableValid(rows, nextId)
    ensures var t := AttemptSpec(rows, nextId, event, endpoint, crypto, transport, clock);
            && (t.result.Ok? ==> t.rows == rows + [t.result.value] && t.nextId == nextId + 1 && t.result.value.id == nextId)
            && TableValid(t.rows, t.nextId)
  {
    var t := AttemptSpec(rows, nextId, event, endpoint, crypto, transport, clock);
    if t.result.Ok? {
      var attempt := NextAttemptNumber(DeliveryRepository.FindByEventAndEndpoint(rows, event.id, endpoint.id));
      var d := InProgress(nextId, event.id, endpoint.id, attempt, clock.createdAt);
      Seqs.ReplaceFreshLast(rows, DeliveryRepository.DeliveryId, d, t.result.value);
      AppendFreshKeepsValid(rows, nextId, t.result.value);
    }
  }

  /** Appending a record under the next id keeps the table valid. */
  lemma AppendFreshKeepsValid(rows: seq<Delivery>, nextId: nat, d: Delivery)
    requires TableValid(rows, nextId) && d.id == nextId
    ensures TableValid(rows + [d], nextId + 1)
  {
    var r := rows + [d];
    forall i, j | 0 <= i < j < |r| ensures r[i].id != r[j].id {
      if j < |rows| {
        assert r[i] == rows[i] && r[j] == rows[j];
      } else {
        assert r[i] == rows[i];
      }
    }
    assert forall i :: 0 <= i < |r| ==> r[i].id < nextId + 1;
  }

  /** A completed attempt appends exactly one record, under a fresh id; a failed one leaves the table alone. */
  lemma DeliverAppendsOne(rows: seq<Delivery>, nextId: nat, events: seq<Event>, endpoints: seq<Endpoint>,
                          eventId: Uuid, endpointId: Uuid, crypto: SignatureService.Crypto,
                          transport: Request -> SendOutcome, clock: Clock)
    requires TableValid(rows, nextId)
    ensures var t := Deliver(rows, nextId, events, endpoints, eventId, endpointId, crypto, transport, clock);
            && (t.result.Ok? ==> t.rows == rows + [t.result.value] && t.nextId == nextId + 1 && t.result.value.id == nextId)
            && (t.result.Err? ==> t.rows == rows && t.nextId == nextId)
            && TableValid(t.rows, t.nextId)
  {
    var event := EventRepository.FindById(events, eventId);
    var endpoint := EndpointRepository.FindById(endpoints, endpointId);
    if event.Some? && endpoint.Some? {
      AttemptAppendsOne(rows, nextId, event.value, endpoint.value, crypto, transport, clock);
    }
  }

  /** An attempt is numbered one past every earlier attempt of the same event/endpoint pair. */
  lemma AttemptNumbersIncrease(rows: seq<Delivery>, nextId: nat, events: seq<Event>, endpoints: seq<Endpoint>,
                               eventId: Uuid, endpointId: Uuid, crypto: SignatureService.Crypto,
                               transport: Request -> SendOutcome, clock: Clock)
    ensures var t := Deliver(rows, nextId, events, endpoints, eventId, endpointId, crypto, transport, clock);
            t.result.Ok? ==>
              && t.result.value.eventId == eventId && t.result.value.endpointId == endpointId
              && (forall d :: d in rows && d.eventId == eventId && d.endpointId == endpointId ==>
                    d.attemptNumber < t.result.value.attemptNumber)
              && ((forall d :: d in rows ==> !(d.eventId == eventId && d.endpointId == endpointId)) ==>
                    t.result.value.attemptNumber == 1)
  {
  }

  /**
   * The settled record's retry time: set only for a scheduled retry, never more than
   * the one-hour cap ahead, and below attempt 60 exactly the intended backoff ahead.
   */
  lemma SettledRetryTime(d: Delivery, endpoint: Endpoint, x: Exchange, clock: Clock)
    requires d.nextRetryAt.None?
    ensures var r := Settled(d, endpoint, x, clock);
            && (r.Ok? && r.value.status == DeliveryStatus.RETRY_SCHEDULED ==>
                  && RetryAllowed(endpoint, r.value.attemptNumber)
                  && r.value.nextRetryAt.Some?
                  && r.value.nextRetryAt.value <= clock.now + MaxDelaySeconds * 1000
                  && (r.value.attemptNumber < 60 ==>
                        r.value.nextRetryAt.value == clock.now + RetryDelay(r.value.attemptNumber) * 1000
                        && clock.now <= r.value.nextRetryAt.value))
            && (r.Ok? && r.value.status != DeliveryStatus.RETRY_SCHEDULED ==> r.value.nextRetryAt.None?)
  {
    if d.attemptNumber < 60 {
      AsWrittenAgreesBelowSixty(d.attemptNumber);
    }
  }

  /**
   * A scheduled retry respects the endpoint's budget and is due at most an hour
   * later; below attempt 60 it lies in the future by the intended backoff. A failure
   * past the budget is final.
   */
  lemma RetryScheduleBounded(rows: seq<Delivery>, nextId: nat, events: seq<Event>, endpoints: seq<Endpoint>,
                             eventId: Uuid, endpointId: Uuid, crypto: SignatureService.Crypto,
                             transport: Request -> SendOutcome, clock: Clock)
    ensures var t := Deliver(rows, nextId, events, endpoints, eventId, endpointId, crypto, transport, clock);
            && (t.result.Ok? && t.result.value.status == DeliveryStatus.RETRY_SCHEDULED ==>
                  && EndpointRepository.FindById(endpoints, endpointId).Some?
                  && RetryAllowed(EndpointRepository.FindById(endpoints, endpointId).value, t.result.value.attemptNumber)
                  && t.result.value.nextRetryAt.Some?
                  && t.result.value.nextRetryAt.value <= clock.now + MaxDelaySeconds * 1000
                  && (t.result.value.attemptNumber < 60 ==>
                        t.result.value.nextRetryAt.value == clock.now + RetryDelay(t.result.value.attemptNumber) * 1000
                        && clock.now <= t.result.value.nextRetryAt.value))
            && (t.result.Ok? && t.result.value.status != DeliveryStatus.RETRY_SCHEDULED ==> t.result.value.nextRetryAt.None?)
  {
    var event := EventRepository.FindById(events, eventId);
    var endpoint := EndpointRepository.FindById(endpoints, endpointId);
    if event.Some? && endpoint.Some? {
      var e, p := event.value, endpoint.value;
      var attempt := NextAttemptNumber(DeliveryRepository.FindByEventAndEndpoint(rows, e.id, p.id));
      SettledRetryTime(InProgress(nextId, e.id, p.id, attempt, clock.createdAt), p,
                       Exchanged(e, p, crypto, transport, clock.headerMillis), clock);
    }
  }

  /** From attempt 63 on, `(long) Math.pow` saturates and the product wraps to -10. */
  lemma RetryDelayFromSixtyThree(n: int)
    requires n >= 63
    ensures RetryDelayAsWritten(n) == -10
  {
    RetryDelayOverflows();
  }

  /**
   * What the overflow does to a failed attempt that may still be retried (an endpoint
   * with more than 60 retries): attempts 60 and 62 throw from `plusSeconds`, so the
   * attempt rolls back; from attempt 63 on the retry is scheduled ten seconds in the past.
   */
  lemma RetryOverflowSettles(d: Delivery, endpoint: Endpoint, x: Exchange, clock: Clock)
    requires x.Raised? && RetryAllowed(endpoint, d.attemptNumber)
    ensures (d.attemptNumber == 60 || d.attemptNumber == 62) && MinEpochDay <= EpochDay(clock.now) <= MaxEpochDay ==>
              Settled(d, endpoint, x, clock).Err? && Settled(d, endpoint, x, clock).error.kind == DateTimeException
    ensures d.attemptNumber >= 63 && MinEpochDay <= EpochDay(clock.now - 10000) <= MaxEpochDay ==>
              && Settled(d, endpoint, x, clock).Ok?
              && Settled(d, endpoint, x, clock).value.status == DeliveryStatus.RETRY_SCHEDULED
              && Settled(d, endpoint, x, clock).value.nextRetryAt == Some(clock.now - 10000)
  {
    RetryDelayOverflows();
    if d.attemptNumber >= 63 {
      RetryDelayFromSixtyThree(d.attemptNumber);
    }
    if (d.attemptNumber == 60 || d.attemptNumber == 62) && MinEpochDay <= EpochDay(clock.now) <= MaxEpochDay {
      var t := clock.now + RetryDelayAsWritten(d.attemptNumber) * 1000;
      assert t < MinEpochDay * MillisPerDay;
      assert EpochDay(t) < MinEpochDay;
    }
  }

  /** Missing rows are reported by name and leave the table alone. */
  lemma MissingRowsRejected(rows: seq<Delivery>, nextId: nat, events: seq<Event>, endpoints: seq<Endpoint>,
                            eventId: Uuid, endpointId: Uuid, crypto: SignatureService.Crypto,
                            transport: Request -> SendOutcome, clock: Clock)
    ensures var t := Deliver(rows, nextId, events, endpoints, eventId, endpointId, crypto, transport, clock);
            && (EventRepository.FindById(events, eventId).None? ==>
                  t.result == Err(Throw(WebhookDeliveryException, "Event not found")))
            && (EventRepository.FindById(events, eventId).Some? && EndpointRepository.FindById(endpoints, endpointId).None? ==>
                  t.result == Err(Throw(WebhookDeliveryException, "Endpoint not found")))
  {
  }

  /**
   * A payload that cannot be signed is never sent: the attempt fails with the
   * signature error as its message.
   */
  lemma UnsignableNeverSent(event: Event, endpoint: Endpoint, crypto: SignatureService.Crypto,
                            transport: Request -> SendOutcome, timestamp: nat)
    requires SignatureService.GenerateSignature(event.payload, endpoint.secret, crypto).Err?
    ensures Exchanged(event, endpoint, crypto, transport, timestamp) == Raised(Some("Failed to generate signature"))
  {
  }

  /**
   * A null custom header value is never sent either: `value.toString()` throws inside
   * the try block and the attempt fails with that NullPointerException's message.
   */
  lemma NullHeaderNeverSent(event: Event, endpoint: Endpoint, crypto: SignatureService.Crypto,
                            transport: Request -> SendOutcome, timestamp: nat, key: string)
    requires SignatureService.GenerateSignature(event.payload, endpoint.secret, crypto).Ok?
    requires endpoint.headers.Some? && key in endpoint.headers.value && endpoint.headers.value[key] == Null
    ensures Exchanged(event, endpoint, crypto, transport, timestamp) == Raised(Some(HeaderValueNullMessage))
  {
    assert CustomHeaders(endpoint)[key].Null?;
  }

  /** A sent request is signed with the endpoint's secret over the event's payload (unless a custom header replaces it). */
  lemma SentRequestIsSigned(event: Event, endpoint: Endpoint, crypto: SignatureService.Crypto, timestamp: nat)
    requires RequestHeaders(event, endpoint, crypto, timestamp).Ok?
    requires "X-Webhook-Signature" !in CustomHeaders(endpoint)
    ensures SignatureService.Verifies(
              Some(crypto.render(event.payload)),
              Some(RequestHeaders(event, endpoint, crypto, timestamp).value["X-Webhook-Signature"]),
              Some(endpoint.secret), crypto)
  {
    SignatureService.SignThenVerify(event.payload, endpoint.secret, crypto);
  }

  /** The try block up to the response: headers, then the POST. */
  method SendRequest(event: Event, endpoint: Endpoint, crypto: SignatureService.Crypto,
                     transport: Request -> SendOutcome, timestamp: nat) returns (x: Exchange)
    ensures x == Exchanged(event, endpoint, crypto, transport, timestamp)
  {
    var headers := CreateHeaders(event, endpoint, crypto, timestamp);
    if headers.Err? {
      return Raised(headers.error.message);
    }
    var response := transport(Request(endpoint.url, headers.value, event.payload));
    if response.Response? {
      x := Answered(response.statusCode, response.body);
    } else {
      x := Raised(response.message);
    }
  }

  /** The record updates of the try block, the catch block and `scheduleRetry`. */
  method Settle(delivery: Delivery, endpoint: Endpoint, x: Exchange, clock: Clock) returns (r: Result<Delivery, Thrown>)
    ensures r == Settled(delivery, endpoint, x, clock)
  {
    var d := delivery;
    var latency := clock.endMillis - clock.startMillis;
    if x.Answered? {
      d := d.(status := DeliveryStatus.SUCCESS);
      d := d.(responseStatus := Some(x.statusCode));
      d := d.(responseBody := TruncateResponseBody(x.body));
      d := d.(deliveredAt := Some(clock.now));
      d := d.(latencyMs := Some(latency));
      return Ok(d);
    }
    d := d.(status := DeliveryStatus.FAILED);
    d := d.(errorMessage := x.message);
    d := d.(latencyMs := Some(latency));
    if endpoint.retryEnabled.None? {
      return Err(Throw(NullPointerException, RetryEnabledNullMessage));
    }
    if endpoint.retryEnabled.value && endpoint.maxRetries.None? {
      return Err(Throw(NullPointerException, MaxRetriesNullMessage));
    }
    if endpoint.retryEnabled.value && d.attemptNumber < endpoint.maxRetries.value {
      var delaySeconds := RetryDelayAsWritten(d.attemptNumber);
      d := d.(status := DeliveryStatus.RETRY_SCHEDULED);
      var at := PlusSeconds(clock.now, delaySeconds);
      if at.Err? {
        return Err(at.error);
      }
      d := d.(nextRetryAt := Some(at.value));
    } else {
      d := d.(status := DeliveryStatus.MAX_RETRIES_EXCEEDED);
    }
    return Ok(d);
  }

  // ---------------------------------------------------------------- breaker and fallback

  /** What the caller of `deliverWebhook` receives: the saved record, or the fallback's unsaved one. */
  datatype DeliveryResult =
    | Recorded(delivery: Delivery)
    | Fallback(status: DeliveryStatus, attemptNumber: int, errorMessage: string)

  const BreakerOpenMessage := "CircuitBreaker 'webhookDelivery' is OPEN and does not permit further calls"

  /** `deliveryFallback`: a FAILED record (builder defaults elsewhere) naming the exception; never saved. */
  function DeliveryFallback(ex: Thrown): (r: DeliveryResult)
    ensures r.Fallback? && r.status == DeliveryStatus.FAILED && r.attemptNumber == 1
    ensures ex.message.Some? ==> r.errorMessage == "Circuit breaker activated: " + ex.message.value
    ensures ex.message.None? ==> r.errorMessage == "Circuit breaker activated: null"
  {
    Fallback(DeliveryStatus.FAILED, 1, "Circuit breaker activated: " + (if ex.message.Some? then ex.message.value else "null"))
  }

  /**
   * `deliverWebhook` as its caller sees it: an open breaker refuses the call, and any
   * exception of the body is replaced by the fallback's record.
   */
  function DeliverWebhookSpec(rows: seq<Delivery>, nextId: nat, events: seq<Event>, endpoints: seq<Endpoint>,
                              eventId: Uuid, endpointId: Uuid, crypto: SignatureService.Crypto,
                              breakerPermits: bool, transport: Request -> SendOutcome, clock: Clock)
    : (t: Transition<DeliveryResult>)
    ensures !breakerPermits ==> t == Transition(DeliveryFallback(Throw(RuntimeException, BreakerOpenMessage)), rows, nextId)
    ensures t.result.Fallback? ==> t.rows == rows && t.nextId == nextId
  {
    if !breakerPermits then Transition(DeliveryFallback(Throw(RuntimeException, BreakerOpenMessage)), rows, nextId)
    else
      var t := Deliver(rows, nextId, events, endpoints, eventId, endpointId, crypto, transport, clock);
      match t.result
      case Ok(d) => Transition(Recorded(d), t.rows, t.nextId)
      case Err(ex) => Transition(DeliveryFallback(ex), t.rows, t.nextId)
  }

  /** The caller never sees an exception, and never a record left IN_PROGRESS or plain FAILED in the table. */
  lemma CallerSeesSettledRecord(rows: seq<Delivery>, nextId: nat, events: seq<Event>, endpoints: seq<Endpoint>,
                                eventId: Uuid, endpointId: Uuid, crypto: SignatureService.Crypto,
                                breakerPermits: bool, transport: Request -> SendOutcome, clock: Clock)
    requires TableValid(rows, nextId)
    ensures var t := DeliverWebhookSpec(rows, nextId, events, endpoints, eventId, endpointId, crypto, breakerPermits, transport, clock);
            && TableValid(t.rows, t.nextId)
            && (t.result.Recorded? ==>
                  && t.rows == rows + [t.result.delivery]
                  && t.result.delivery.status in {DeliveryStatus.SUCCESS, DeliveryStatus.RETRY_SCHEDULED, DeliveryStatus.MAX_RETRIES_EXCEEDED})
            && (t.result.Fallback? ==> t.rows == rows && t.result.status == DeliveryStatus.FAILED)
  {
    DeliverAppendsOne(rows, nextId, events, endpoints, eventId, endpointId, crypto, transport, clock);
  }

  /** One delivery keeps the earlier rows and adds at most one, belonging to the pair delivered. */
  lemma DeliverWebhookExtends(rows: seq<Delivery>, nextId: nat, events: seq<Event>, endpoints: seq<Endpoint>,
                              eventId: Uuid, endpointId: Uuid, crypto: SignatureService.Crypto,
                              breakerPermits: bool, transport: Request -> SendOutcome, clock: Clock)
    requires TableValid(rows, nextId)
    ensures var t := DeliverWebhookSpec(rows, nextId, events, endpoints, eventId, endpointId, crypto, breakerPermits, transport, clock);
            && TableValid(t.rows, t.nextId)
            && |rows| <= |t.rows| <= |rows| + 1
            && t.rows[..|rows|] == rows
            && (forall i :: |rows| <= i < |t.rows| ==> t.rows[i].eventId == eventId && t.rows[i].endpointId == endpointId)
  {
    var t := DeliverWebhookSpec(rows, nextId, events, endpoints, eventId, endpointId, crypto, breakerPermits, transport, clock);
    CallerSeesSettledRecord(rows, nextId, events, endpoints, eventId, endpointId, crypto, breakerPermits, transport, clock);
    if t.result.Recorded? {
      AttemptNumbersIncrease(rows, nextId, events, endpoints, eventId, endpointId, crypto, transport, clock);
      assert t.rows[|rows|] == t.result.delivery;
    }
    assert t.rows[..|rows|] == rows;
  }

  // ---------------------------------------------------------------- the service

  class DeliveryService {
    const deliveries: DeliveryRepository.DeliveryTable
    const events: EventRepository.EventTable
    const endpoints: EndpointRepository.EndpointTable
    const crypto: SignatureService.Crypto

    constructor (deliveries: DeliveryRepository.DeliveryTable, events: EventRepository.EventTable,
                 endpoints: EndpointRepository.EndpointTable, crypto: SignatureService.Crypto)
      ensures this.deliveries == deliveries && this.events == events
      ensures this.endpoints == endpoints && this.crypto == crypto
    {
      this.deliveries := deliveries;
      this.events := events;
      this.endpoints := endpoints;
      this.crypto := crypto;
    }

    /** The transactional body of `deliverWebhook` once both rows are found; an exception rolls it back. */
    method Attempt(event: Event, endpoint: Endpoint, transport: Request -> SendOutcome, clock: Clock)
      returns (r: Result<Delivery, Thrown>)
      requires deliveries.Valid()
      modifies deliveries
      ensures deliveries.Valid()
      ensures var t := AttemptSpec(old(deliveries.rows), old(deliveries.nextId), event, endpoint, crypto, transport, clock);
              r == t.result && deliveries.rows == t.rows && deliveries.nextId == t.nextId
    {
      var attemptNumber := NextAttemptNumber(DeliveryRepository.FindByEventAndEndpoint(deliveries.rows, event.id, endpoint.id));
      var savedRows, savedNextId := deliveries.rows, deliveries.nextId;
      var delivery := deliveries.Insert(InProgress(0, event.id, endpoint.id, attemptNumber, clock.createdAt));
      var exchange := SendRequest(event, endpoint, crypto, transport, clock.headerMillis);
      r := Settle(delivery, endpoint, exchange, clock);
      if r.Err? {
        deliveries.Restore(savedRows, savedNextId);
      } else {
        deliveries.Update(r.value);
      }
    }

    /** `deliverWebhook`, run to completion (with the breaker closed when `breakerPermits`). */
    method DeliverWebhook(eventId: Uuid, endpointId: Uuid, breakerPermits: bool,
                          transport: Request -> SendOutcome, clock: Clock) returns (r: DeliveryResult)
      requires deliveries.Valid()
      modifies deliveries
      ensures deliveries.Valid()
      ensures var t := DeliverWebhookSpec(old(deliveries.rows), old(deliveries.nextId), events.rows, endpoints.rows,
                                          eventId, endpointId, crypto, breakerPermits, transport, clock);
              r == t.result && deliveries.rows == t.rows && deliveries.nextId == t.nextId
    {
      if !breakerPermits {
        return DeliveryFallback(Throw(RuntimeException, BreakerOpenMessage));
      }
      var event := EventRepository.FindById(events.rows, eventId);
      if event.None? {
        return DeliveryFallback(Throw(WebhookDeliveryException, "Event not found"));
      }
      var endpoint := EndpointRepository.FindById(endpoints.rows, endpointId);
      if endpoint.None? {
        return DeliveryFallback(Throw(WebhookDeliveryException, "Endpoint not found"));
      }
      var outcome := Attempt(event.value, endpoint.value, transport, clock);
      if outcome.Err? {
        return DeliveryFallback(outcome.error);
      }
      return Recorded(outcome.value);
    }
  }
}
