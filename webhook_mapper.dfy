/** `WebhookMapper`: conversions between the entities and the transfer objects. */
module WebhookMapper {
  import opened Wrappers
  import opened Entities
  import opened Dtos
  import Seqs

  function IsActive(s: Subscription): bool { s.isActive }

  /** `subscriptionsToEvents`: the event types of the active subscriptions, in order. */
  function SubscriptionsToEvents(subscriptions: Option<seq<Subscription>>): (r: Option<seq<string>>)
    ensures r.None? <==> subscriptions.None?
    ensures r.Some? ==> r.value == SubscriptionTypes(Seqs.Filter(subscriptions.value, IsActive))
  {
    match subscriptions
    case None => None
    case Some(subs) => Some(SubscriptionTypes(Seqs.Filter(subs, IsActive)))
  }

  /** An event type is listed exactly when some active subscription names it. */
  lemma EventsAreActiveTypes(subs: seq<Subscription>, t: string)
    ensures t in SubscriptionsToEvents(Some(subs)).value <==> exists s :: s in subs && s.isActive && s.eventType == t
  {
    var active := Seqs.Filter(subs, IsActive);
    if t in SubscriptionTypes(active) {
      var i :| 0 <= i < |active| && active[i].eventType == t;
      assert active[i] in subs;
    }
    if s :| s in subs && s.isActive && s.eventType == t {
      assert s in active;
      var i :| 0 <= i < |active| && active[i] == s;
      assert SubscriptionTypes(active)[i] == t;
    }
  }

  /** `toEndpointDTO`: `apiVersion` goes to `version`, the secret is exposed, statistics are left null. */
  function ToEndpointDto(e: Endpoint): (dto: EndpointDto)
    ensures dto.id == Some(e.id) && dto.url == e.url && dto.secret == Some(e.secret)
    ensures dto.version == e.apiVersion
    ensures dto.status == Some(WebhookStatusName(e.status))
    ensures dto.events == SubscriptionsToEvents(Some(e.subscriptions))
  {
    EndpointDto(Some(e.id), e.url, e.description, Some(e.secret), Some(WebhookStatusName(e.status)), e.apiVersion,
                e.retryEnabled, e.maxRetries, e.timeoutSeconds, e.headers, SubscriptionsToEvents(Some(e.subscriptions)))
  }

  /** The message of `Enum.valueOf` for an unknown endpoint status name. */
  function UnknownStatusMessage(name: string): string {
    "No enum constant dev.dammak.paymentservicewebhook.entity.WebhookEndpoint.WebhookStatus." + name
  }

  /** The status a mapped entity gets: the builder default when the DTO's is null, else its `valueOf`. */
  function StatusFromDto(status: Option<string>, default: WebhookStatus): (r: Result<WebhookStatus, Thrown>)
    ensures status.None? ==> r == Ok(default)
    ensures status.Some? && r.Ok? ==> WebhookStatusName(r.value) == status.value
    ensures status.Some? && ParseWebhookStatus(status.value).None? ==>
              r == Err(Throw(IllegalArgumentException, UnknownStatusMessage(status.value)))
  {
    match status
    case None => Ok(default)
    case Some(name) =>
      match ParseWebhookStatus(name)
      case Some(s) => Ok(s)
      case None => Err(Throw(IllegalArgumentException, UnknownStatusMessage(name)))
  }

  /**
   * `toEndpointEntity`: same-named properties are copied as they are (null included),
   * `version` goes to `apiVersion`; subscriptions start empty and no merchant is set
   * (`merchantId` is the caller's). A null secret is kept as given by the caller's
   * `secret` argument: the entity column is not nullable.
   */
  function ToEndpointEntity(dto: EndpointDto, merchantId: Uuid, secret: string): (r: Result<Endpoint, Thrown>)
    ensures r.Ok? <==> StatusFromDto(dto.status, WebhookStatus.ACTIVE).Ok?
    ensures r.Ok? ==> && r.value.url == dto.url && r.value.description == dto.description
                      && r.value.apiVersion == dto.version && r.value.retryEnabled == dto.retryEnabled
                      && r.value.maxRetries == dto.maxRetries && r.value.timeoutSeconds == dto.timeoutSeconds
                      && r.value.headers == dto.headers && r.value.subscriptions == []
                      && r.value.merchantId == merchantId && r.value.secret == secret
  {
    match StatusFromDto(dto.status, WebhookStatus.ACTIVE)
    case Err(ex) => Err(ex)
    case Ok(status) =>
      Ok(Endpoint(0, merchantId, dto.url, dto.description, secret, status, dto.version,
                  dto.retryEnabled, dto.maxRetries, dto.timeoutSeconds, dto.headers, []))
  }

  /** Mapping an endpoint's DTO back to an entity restores every mapped field but the subscriptions. */
  lemma EndpointRoundTrip(e: Endpoint)
    ensures ToEndpointEntity(ToEndpointDto(e), e.merchantId, e.secret)
            == Ok(e.(id := 0, subscriptions := []))
  {
    WebhookStatusRoundTrip(e.status);
  }

  /** `toEventDTO`: the delivery count is the size of the loaded list, 0 when it is null. */
  function ToEventDto(e: Event): (dto: EventDto)
    ensures dto.deliveryCount == (if e.deliveries.Some? then |e.deliveries.value| else 0)
    ensures dto.deliveryCount >= 0
    ensures dto.id == e.id && dto.eventType == e.eventType && dto.status == EventStatusName(e.status)
  {
    EventDto(e.id, e.eventType, e.provider, e.payload, e.idempotencyKey, EventStatusName(e.status),
             e.metadata, e.createdAt, if e.deliveries.Some? then |e.deliveries.value| else 0)
  }

  /** `toDeliveryDTO`: the event and endpoint are flattened to their ids. */
  function ToDeliveryDto(d: Delivery): (dto: DeliveryDto)
    ensures dto.id == d.id && dto.eventId == d.eventId && dto.endpointId == d.endpointId
    ensures dto.status == DeliveryStatusName(d.status) && dto.attemptNumber == d.attemptNumber
  {
    DeliveryDto(d.id, d.eventId, d.endpointId, DeliveryStatusName(d.status), d.attemptNumber, d.responseStatus,
                d.responseBody, d.errorMessage, d.deliveredAt, d.nextRetryAt, d.latencyMs, d.createdAt)
  }

  /** `toEndpointDTOList`: element-wise. */
  function ToEndpointDtoList(es: seq<Endpoint>): (r: seq<EndpointDto>)
    ensures |r| == |es| && forall i :: 0 <= i < |es| ==> r[i] == ToEndpointDto(es[i])
  {
    seq(|es|, i requires 0 <= i < |es| => ToEndpointDto(es[i]))
  }

  /** The mapped list holds exactly the DTOs of the listed endpoints. */
  lemma ToEndpointDtoListMembers(es: seq<Endpoint>)
    ensures forall dto :: dto in ToEndpointDtoList(es) <==> exists e :: e in es && dto == ToEndpointDto(e)
  {
    var r := ToEndpointDtoList(es);
    forall dto | dto in r ensures exists e :: e in es && dto == ToEndpointDto(e) {
      var i :| 0 <= i < |r| && r[i] == dto;
      assert es[i] in es;
    }
    forall e | e in es ensures ToEndpointDto(e) in r {
      var i :| 0 <= i < |es| && es[i] == e;
      assert r[i] == ToEndpointDto(e);
    }
  }

  /** `current`, overwritten by `update` unless `update` is null. */
  function Patch<T>(current: T, update: Option<T>): T {
    if update.Some? then update.value else current
  }

  /** A nullable property, overwritten by `update` unless `update` is null. */
  function PatchNullable<T>(current: Option<T>, update: Option<T>): Option<T> {
    if update.Some? then update else current
  }

  /**
   * `updateEndpointFromDTO` with null values ignored: id, url, description, secret,
   * status, retry settings, timeout and headers are overwritten by the non-null DTO
   * fields; merchant, subscriptions and `apiVersion` are kept, since no mapping
   * from `version` to `apiVersion` is declared for the update.
   */
  function UpdateEndpointFromDto(dto: EndpointDto, e: Endpoint): (r: Result<Endpoint, Thrown>)
    ensures r.Ok? <==> StatusFromDto(dto.status, e.status).Ok?
    ensures r.Err? ==> r.error == StatusFromDto(dto.status, e.status).error
    ensures r.Ok? ==> && r.value.merchantId == e.merchantId
                      && r.value.subscriptions == e.subscriptions && r.value.apiVersion == e.apiVersion
    ensures r.Ok? ==> && (dto.id.Some? ==> r.value.id == dto.id.value) && (dto.id.None? ==> r.value.id == e.id)
                      && (dto.url.Some? ==> r.value.url == dto.url) && (dto.url.None? ==> r.value.url == e.url)
                      && r.value.secret == Patch(e.secret, dto.secret)
                      && (dto.maxRetries.Some? ==> r.value.maxRetries == dto.maxRetries)
                      && (dto.maxRetries.None? ==> r.value.maxRetries == e.maxRetries)
    ensures r.Ok? ==> && (dto.description.Some? ==> r.value.description == dto.description)
                      && (dto.description.None? ==> r.value.description == e.description)
                      && r.value.status == StatusFromDto(dto.status, e.status).value
                      && (dto.retryEnabled.Some? ==> r.value.retryEnabled == dto.retryEnabled)
                      && (dto.retryEnabled.None? ==> r.value.retryEnabled == e.retryEnabled)
                      && (dto.timeoutSeconds.Some? ==> r.value.timeoutSeconds == dto.timeoutSeconds)
                      && (dto.timeoutSeconds.None? ==> r.value.timeoutSeconds == e.timeoutSeconds)
                      && (dto.headers.Some? ==> r.value.headers == dto.headers)
                      && (dto.headers.None? ==> r.value.headers == e.headers)
  {
    match StatusFromDto(dto.status, e.status)
    case Err(ex) => Err(ex)
    case Ok(status) =>
      Ok(Endpoint(Patch(e.id, dto.id), e.merchantId, PatchNullable(e.url, dto.url),
                  PatchNullable(e.description, dto.description), Patch(e.secret, dto.secret), status, e.apiVersion,
                  PatchNullable(e.retryEnabled, dto.retryEnabled), PatchNullable(e.maxRetries, dto.maxRetries),
                  PatchNullable(e.timeoutSeconds, dto.timeoutSeconds), PatchNullable(e.headers, dto.headers),
                  e.subscriptions))
  }

  /** A DTO whose every field is null changes nothing. */
  lemma EmptyPatchIsIdentity(e: Endpoint)
    ensures UpdateEndpointFromDto(EndpointDto(None, None, None, None, None, None, None, None, None, None, None), e) == Ok(e)
  {
  }

  /** Applying the same patch twice is the same as applying it once. */
  lemma PatchIdempotent(dto: EndpointDto, e: Endpoint)
    requires UpdateEndpointFromDto(dto, e).Ok?
    ensures UpdateEndpointFromDto(dto, UpdateEndpointFromDto(dto, e).value) == UpdateEndpointFromDto(dto, e)
  {
  }
}
