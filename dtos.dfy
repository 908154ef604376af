/**
 * The transfer objects of the REST layer and the Bean Validation constraints
 * declared on `WebhookEndpointDTO`.
 */
module Dtos {
  import opened Wrappers
  import opened Entities
  import Text

  /** `WebhookEndpointDTO`; every field is nullable. The statistics block is not modelled. */
  datatype EndpointDto = EndpointDto(
    id: Option<Uuid>,
    url: Option<string>,
    description: Option<string>,
    secret: Option<string>,
    status: Option<string>,
    version: Option<string>,
    retryEnabled: Option<bool>,
    maxRetries: Option<int>,
    timeoutSeconds: Option<int>,
    headers: Option<map<string, Value>>,
    events: Option<seq<string>>)

  /** `WebhookEventDTO`. */
  datatype EventDto = EventDto(
    id: Uuid,
    eventType: string,
    provider: string,
    payload: Payload,
    idempotencyKey: Option<string>,
    status: string,
    metadata: Option<Payload>,
    createdAt: DateTime,
    deliveryCount: int)

  /** `WebhookDeliveryDTO`. */
  datatype DeliveryDto = DeliveryDto(
    id: Uuid,
    eventId: Uuid,
    endpointId: Uuid,
    status: string,
    attemptNumber: int,
    responseStatus: Option<int>,
    responseBody: Option<string>,
    errorMessage: Option<string>,
    deliveredAt: Option<DateTime>,
    nextRetryAt: Option<DateTime>,
    latencyMs: Option<int>,
    createdAt: DateTime)

  /** A constraint violation: the property path and the interpolated message. */
  datatype Violation = Violation(property: string, message: string)

  const UrlRequired := Violation("url", "URL is required")
  const UrlScheme := Violation("url", "URL must start with http:// or https://")
  const MaxRetriesTooSmall := Violation("maxRetries", "must be greater than or equal to 0")
  const MaxRetriesTooLarge := Violation("maxRetries", "must be less than or equal to 10")
  const TimeoutTooSmall := Violation("timeoutSeconds", "must be greater than or equal to 1")
  const TimeoutTooLarge := Violation("timeoutSeconds", "must be less than or equal to 300")
  const EventsRequired := Violation("events", "At least one event subscription is required")

  /** The characters `.` does not match in a `java.util.regex` pattern. */
  predicate IsLineTerminator(c: char) {
    c == '\n' || c == '\r' || c == '\U{0085}' || c == '\U{2028}' || c == '\U{2029}'
  }

  predicate NoLineTerminator(s: string) {
    forall i :: 0 <= i < |s| ==> !IsLineTerminator(s[i])
  }

  /** The whole string matches `^https?://.*`. */
  predicate MatchesUrlPattern(s: string) {
    || (Text.StartsWith(s, "http://") && NoLineTerminator(s[7..]))
    || (Text.StartsWith(s, "https://") && NoLineTerminator(s[8..]))
  }

  /** `@Min(lo) @Max(hi)` on a nullable Integer: null is valid. */
  function RangeViolations(value: Option<int>, lo: int, hi: int, tooSmall: Violation, tooLarge: Violation): (r: set<Violation>)
    ensures r == {} <==> value.None? || lo <= value.value <= hi
    ensures r <= {tooSmall, tooLarge}
  {
    match value
    case None => {}
    case Some(n) =>
      (if n < lo then {tooSmall} else {}) + (if n > hi then {tooLarge} else {})
  }

  /** What `Validator.validate` reports for an endpoint DTO. */
  function Violations(dto: EndpointDto): (r: set<Violation>)
    ensures UrlRequired in r <==> dto.url.None? || Text.IsBlank(dto.url.value)
    ensures UrlScheme in r <==> dto.url.Some? && !MatchesUrlPattern(dto.url.value)
    ensures EventsRequired in r <==> dto.events.None? || dto.events.value == []
    ensures r == {} <==> ValidEndpointDto(dto)
  {
    (if dto.url.None? || Text.IsBlank(dto.url.value) then {UrlRequired} else {})
    + (if dto.url.Some? && !MatchesUrlPattern(dto.url.value) then {UrlScheme} else {})
    + RangeViolations(dto.maxRetries, 0, 10, MaxRetriesTooSmall, MaxRetriesTooLarge)
    + RangeViolations(dto.timeoutSeconds, 1, 300, TimeoutTooSmall, TimeoutTooLarge)
    + (if dto.events.None? || dto.events.value == [] then {EventsRequired} else {})
  }

  /** The constraints of the DTO stated directly. */
  predicate ValidEndpointDto(dto: EndpointDto) {
    && dto.url.Some? && !Text.IsBlank(dto.url.value) && MatchesUrlPattern(dto.url.value)
    && (dto.maxRetries.Some? ==> 0 <= dto.maxRetries.value <= 10)
    && (dto.timeoutSeconds.Some? ==> 1 <= dto.timeoutSeconds.value <= 300)
    && dto.events.Some? && dto.events.value != []
  }

  /** A URL accepted by the pattern is never blank, so a blank URL breaks both URL constraints. */
  lemma BlankUrlBreaksBoth(dto: EndpointDto)
    requires dto.url.Some? && Text.IsBlank(dto.url.value)
    ensures {UrlRequired, UrlScheme} <= Violations(dto)
  {
    var s := dto.url.value;
    if |s| > 0 {
      assert s[0] <= ' ';
    }
  }

  /** A null URL breaks `@NotBlank` only: `@Pattern` accepts null. */
  lemma NullUrlBreaksRequiredOnly(dto: EndpointDto)
    requires dto.url.None?
    ensures UrlRequired in Violations(dto) && UrlScheme !in Violations(dto)
  {
  }

  /** The endpoint DTO the repository's tests start from. */
  function SampleDto(): (dto: EndpointDto)
    ensures dto.url == Some("https://example.com/webhook")
  {
    EndpointDto(None, Some("https://example.com/webhook"), Some("Test webhook endpoint"), None, None, None,
                Some(true), Some(3), Some(30), Some(map["X-Custom-Header" := Str("test-value")]),
                Some(["payment.created", "payment.updated"]))
  }

  /** The host and path of the sample URL are plain ASCII. */
  lemma SampleUrlRestPlain()
    ensures NoLineTerminator("example.com/webhook")
  {
    var rest := "example.com/webhook";
    forall i | 0 <= i < |rest| ensures !IsLineTerminator(rest[i]) {
      assert rest[i] in rest;
    }
  }

  /** The sample's URL is not blank and has the https scheme. */
  lemma SampleUrlAccepted()
    ensures !Text.IsBlank("https://example.com/webhook") && MatchesUrlPattern("https://example.com/webhook")
  {
    var url := "https://example.com/webhook";
    assert !Text.IsBlank(url) by { assert url[0] == 'h'; }
    assert Text.StartsWith(url, "https://");
    assert url[8..] == "example.com/webhook";
    SampleUrlRestPlain();
  }

  /** The sample passes validation, also with every optional field null. */
  lemma SampleIsValid()
    ensures Violations(SampleDto()) == {}
    ensures Violations(SampleDto().(description := None, headers := None, retryEnabled := None,
                                     maxRetries := None, timeoutSeconds := None)) == {}
  {
    SampleUrlAccepted();
    assert ValidEndpointDto(SampleDto());
  }

  /** An empty URL gives exactly the two URL violations; "invalid-url" only the scheme one. */
  lemma BadUrls()
    ensures Violations(SampleDto().(url := Some(""))) == {UrlRequired, UrlScheme}
    ensures Violations(SampleDto().(url := Some("invalid-url"))) == {UrlScheme}
  {
    assert !Text.IsBlank("invalid-url") by { assert "invalid-url"[0] == 'i'; }
    assert !Text.StartsWith("invalid-url", "http://") by { assert "invalid-url"[0] == 'i'; }
    assert !Text.StartsWith("invalid-url", "https://") by { assert "invalid-url"[0] == 'i'; }
  }

  /** Out-of-range retry counts and timeouts, and an empty event list, each give one violation. */
  lemma OutOfRangeFields()
    ensures Violations(SampleDto().(maxRetries := Some(15))) == {MaxRetriesTooLarge}
    ensures Violations(SampleDto().(timeoutSeconds := Some(500))) == {TimeoutTooLarge}
    ensures Violations(SampleDto().(events := Some([]))) == {EventsRequired}
  {
    SampleIsValid();
  }
}
