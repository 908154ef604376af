/**
 * The persistent entities of the webhook service as values: merchants, webhook
 * endpoints with their event subscriptions, received events and delivery attempts,
 * plus the exceptions the core throws.
 */
module Entities {
  import opened Wrappers
  import Text

  /** A UUID primary key. */
  type Uuid = nat

  /** A `LocalDateTime` or a `System.currentTimeMillis()` reading, in milliseconds. */
  type DateTime = int

  /**
   * The text that stands in for `UUID.toString()`: ids are naturals here, so their
   * decimal rendering replaces the 8-4-4-4-12 hex form; like it, it is injective.
   */
  function IdText(id: Uuid): string {
    Text.DecimalString(id)
  }

  /** Different ids have different texts, as different UUIDs do. */
  lemma IdTextInjective(a: Uuid, b: Uuid)
    requires IdText(a) == IdText(b)
    ensures a == b
  {
    Text.DecimalStringInjective(a, b);
  }

  // ---------------------------------------------------------------- statuses

  datatype DeliveryStatus = PENDING | IN_PROGRESS | SUCCESS | FAILED | RETRY_SCHEDULED | MAX_RETRIES_EXCEEDED

  datatype EventStatus = PENDING | PROCESSING | DELIVERED | FAILED | EXPIRED

  datatype WebhookStatus = ACTIVE | INACTIVE | FAILED | SUSPENDED

  datatype MerchantStatus = ACTIVE | INACTIVE | SUSPENDED

  /** `Enum.name()` of an event status. */
  function EventStatusName(s: EventStatus): string {
    match s
    case PENDING => "PENDING"
    case PROCESSING => "PROCESSING"
    case DELIVERED => "DELIVERED"
    case FAILED => "FAILED"
    case EXPIRED => "EXPIRED"
  }

  /** `Enum.name()` of a delivery status. */
  function DeliveryStatusName(s: DeliveryStatus): string {
    match s
    case PENDING => "PENDING"
    case IN_PROGRESS => "IN_PROGRESS"
    case SUCCESS => "SUCCESS"
    case FAILED => "FAILED"
    case RETRY_SCHEDULED => "RETRY_SCHEDULED"
    case MAX_RETRIES_EXCEEDED => "MAX_RETRIES_EXCEEDED"
  }

  /** `Enum.name()` of an endpoint status. */
  function WebhookStatusName(s: WebhookStatus): string {
    match s
    case ACTIVE => "ACTIVE"
    case INACTIVE => "INACTIVE"
    case FAILED => "FAILED"
    case SUSPENDED => "SUSPENDED"
  }

  /** `WebhookStatus.valueOf(name)`: `None` where Java throws IllegalArgumentException. */
  function ParseWebhookStatus(name: string): (r: Option<WebhookStatus>)
    ensures r.Some? ==> WebhookStatusName(r.value) == name
  {
    if name == "ACTIVE" then Some(WebhookStatus.ACTIVE)
    else if name == "INACTIVE" then Some(WebhookStatus.INACTIVE)
    else if name == "FAILED" then Some(WebhookStatus.FAILED)
    else if name == "SUSPENDED" then Some(WebhookStatus.SUSPENDED)
    else None
  }

  /** Converting an endpoint status to its name and back gives the status again. */
  lemma WebhookStatusRoundTrip(s: WebhookStatus)
    ensures ParseWebhookStatus(WebhookStatusName(s)) == Some(s)
  {
  }

  // ---------------------------------------------------------------- records

  /**
   * A payload value, as far as the core looks at it: a JSON string, JSON null, or
   * any other decoded value, known by its Java class (`java.lang.Integer`, ...).
   */
  datatype Value = Str(text: string) | Null | Other(className: string)

  /** A decoded JSON object (`Map<String, Object>`). */
  type Payload = map<string, Value>

  datatype Merchant = Merchant(
    id: Uuid,
    name: string,
    apiKey: string,
    secretKey: string,
    status: MerchantStatus,
    description: Option<string>,
    email: string,
    webhookSecret: Option<string>)

  /** One row of `event_subscriptions`; (endpoint, eventType) is unique. */
  datatype Subscription = Subscription(eventType: string, isActive: bool)

  /** A subscriber-registered destination. The boxed Java fields are nullable. */
  datatype Endpoint = Endpoint(
    id: Uuid,
    merchantId: Uuid,
    url: Option<string>,
    description: Option<string>,
    secret: string,
    status: WebhookStatus,
    apiVersion: Option<string>,
    retryEnabled: Option<bool>,
    maxRetries: Option<int>,
    timeoutSeconds: Option<int>,
    headers: Option<map<string, Value>>,
    subscriptions: seq<Subscription>)

  /** The event types of a subscription list, in order. */
  function SubscriptionTypes(subs: seq<Subscription>): (r: seq<string>)
    ensures |r| == |subs|
    ensures forall i :: 0 <= i < |subs| ==> r[i] == subs[i].eventType
  {
    seq(|subs|, i requires 0 <= i < |subs| => subs[i].eventType)
  }

  /** The builder defaults of a new endpoint: ACTIVE, version "v1", retries enabled, 3 retries, 30 seconds. */
  function NewEndpoint(id: Uuid, merchantId: Uuid, secret: string): (e: Endpoint)
    ensures e.status == WebhookStatus.ACTIVE && e.apiVersion == Some("v1")
    ensures e.retryEnabled == Some(true) && e.maxRetries == Some(3) && e.timeoutSeconds == Some(30)
    ensures e.subscriptions == []
  {
    Endpoint(id, merchantId, None, None, secret, WebhookStatus.ACTIVE, Some("v1"),
             Some(true), Some(3), Some(30), None, [])
  }

  /** A received provider event. `deliveries` is the lazily loaded one-to-many list of delivery ids. */
  datatype Event = Event(
    id: Uuid,
    eventType: string,
    provider: string,
    payload: Payload,
    idempotencyKey: Option<string>,
    status: EventStatus,
    sourceIp: Option<string>,
    metadata: Option<Payload>,
    createdAt: DateTime,
    deliveries: Option<seq<Uuid>>)

  /** One attempt to deliver one event to one endpoint. */
  datatype Delivery = Delivery(
    id: Uuid,
    eventId: Uuid,
    endpointId: Uuid,
    status: DeliveryStatus,
    attemptNumber: int,
    responseStatus: Option<int>,
    responseBody: Option<string>,
    errorMessage: Option<string>,
    deliveredAt: Option<DateTime>,
    nextRetryAt: Option<DateTime>,
    latencyMs: Option<int>,
    createdAt: DateTime)

  // ---------------------------------------------------------------- column lengths

  /** `@Column(length = ...)` of the string columns the core writes; an unsized `String` column is VARCHAR(255). */
  const DefaultLength := 255
  const UrlLength := 500
  const EventTypeLength := 100
  const ProviderLength := 50

  /** A nullable string fits a VARCHAR column of the given length. */
  predicate FitsColumn(s: Option<string>, length: nat) {
    s.None? || |s.value| <= length
  }

  /** Every VARCHAR column of the `webhook_events` row holds its value. */
  predicate EventFits(e: Event) {
    && |e.eventType| <= EventTypeLength && |e.provider| <= ProviderLength
    && FitsColumn(e.idempotencyKey, DefaultLength) && FitsColumn(e.sourceIp, DefaultLength)
  }

  /** Every VARCHAR column of the `webhook_endpoints` row holds its value (its subscriptions aside). */
  predicate EndpointRowFits(e: Endpoint) {
    FitsColumn(e.url, UrlLength) && |e.secret| <= DefaultLength && FitsColumn(e.apiVersion, DefaultLength)
  }

  /** The endpoint row and each of its `event_subscriptions` rows fit their columns. */
  predicate EndpointFits(e: Endpoint) {
    && EndpointRowFits(e)
    && forall i :: 0 <= i < |e.subscriptions| ==> |e.subscriptions[i].eventType| <= EventTypeLength
  }

  // ---------------------------------------------------------------- exceptions

  datatype ExceptionKind =
    | WebhookDeliveryException
    | DuplicateEventException
    | ResourceNotFoundException
    | WebhookException
    | RuntimeException
    | ClassCastException
    | IllegalArgumentException
    | NullPointerException
    | IncorrectResultSizeException
    | DataIntegrityViolation
    | JpaSystemException
    | DateTimeException
    | TransportException

  /** A thrown exception: its class and `getMessage()`, which may be null. */
  datatype Thrown = Thrown(kind: ExceptionKind, message: Option<string>)

  /** An exception with a non-null message. */
  function Throw(kind: ExceptionKind, message: string): (e: Thrown)
    ensures e.kind == kind && e.message == Some(message)
  {
    Thrown(kind, Some(message))
  }

  /** The failed INSERT or UPDATE of a value longer than its VARCHAR column, at commit. */
  const ValueTooLongMessage := "value too long for type character varying"
  const ValueTooLong := Throw(DataIntegrityViolation, ValueTooLongMessage)

  /**
   * A Spring Data query declared to return one `Optional` row: empty, the row, or
   * IncorrectResultSizeDataAccessException when more than one row matches.
   */
  function SingleResult<T>(matches: seq<T>): (r: Result<Option<T>, Thrown>)
    ensures |matches| == 0 ==> r == Ok(None)
    ensures |matches| == 1 ==> r == Ok(Some(matches[0]))
    ensures |matches| > 1 ==> r.Err? && r.error.kind == IncorrectResultSizeException
  {
    if |matches| == 0 then Ok(None)
    else if |matches| == 1 then Ok(Some(matches[0]))
    else Err(Throw(IncorrectResultSizeException, "query did not return a unique result"))
  }
}
