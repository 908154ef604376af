/**
 * `ProviderWebhookController.receiveWebhook`: a provider's POST is turned into an
 * event type, handed to event intake, and answered with an accepted or an error body.
 */
module ProviderWebhookController {
  import opened Wrappers
  import opened Entities
  import Text
  import Dtos
  import EventRepository
  import EndpointRepository
  import EventProcessingService

  /** The payload field holding the event type, for the providers the controller knows (lower-case names). */
  function TypeField(provider: string): (r: Option<string>)
    ensures r.Some? <==> provider in {"stripe", "paypal", "razorpay"}
  {
    if provider == "stripe" then Some("type")
    else if provider == "paypal" then Some("event_type")
    else if provider == "razorpay" then Some("event")
    else None
  }

  /** The message of the `ClassCastException` a `(String)` cast of a `java.base` value raises. */
  function CastMessage(className: string): string {
    "class " + className + " cannot be cast to class java.lang.String (" + className
      + " and java.lang.String are in module java.base of loader 'bootstrap')"
  }

  /** A cast failure never reads as the commit's value-too-long error. */
  lemma CastMessageNotTooLong(className: string)
    ensures CastMessage(className) != ValueTooLongMessage
  {
    assert ValueTooLongMessage[1] == 'a';
    assert CastMessage(className)[1] == 'l';
  }

  /** `(String) payload.get(key)`: an absent key and a JSON null both give null. */
  function StringField(payload: Payload, key: string): (r: Result<Option<string>, Thrown>)
    ensures r == Ok(None) <==> key !in payload || payload[key].Null?
    ensures r.Ok? && r.value.Some? <==> key in payload && payload[key].Str?
    ensures r.Ok? && r.value.Some? ==> payload[key] == Str(r.value.value)
    ensures r.Err? ==> key in payload && payload[key].Other? && r.error.kind == ClassCastException
  {
    if key !in payload then Ok(None)
    else match payload[key]
      case Str(s) => Ok(Some(s))
      case Null => Ok(None)
      case Other(className) => Err(Throw(ClassCastException, CastMessage(className)))
  }

  /** `extractEventType`: the provider's type field, or "unknown" for any other provider. */
  function ExtractEventType(provider: string, payload: Payload): Result<Option<string>, Thrown> {
    match TypeField(Text.AsciiLower(provider))
    case None => Ok(Some("unknown"))
    case Some(key) => StringField(payload, key)
  }

  /** The provider name is matched without regard to ASCII case. */
  lemma ProviderNameIgnoresCase(provider: string, payload: Payload)
    ensures ExtractEventType(provider, payload) == ExtractEventType(Text.AsciiLower(provider), payload)
  {
    assert Text.AsciiLower(Text.AsciiLower(provider)) == Text.AsciiLower(provider);
  }

  /**
   * The extracted type is the provider's own field, read as a string, or "unknown" for
   * a provider the controller does not know; no type is extracted from a missing field.
   */
  lemma ExtractedTypeOrigin(provider: string, payload: Payload)
    ensures var r := ExtractEventType(provider, payload);
            var field := TypeField(Text.AsciiLower(provider));
            && (field.None? ==> r == Ok(Some("unknown")))
            && (field.Some? && r.Ok? && r.value.Some? ==> payload[field.value] == Str(r.value.value))
            && (field.Some? && field.value !in payload ==> r == Ok(None))
  {
  }

  /** What the caller gets: 200 with the new event's id, 400 with the exception's message. */
  datatype Reply =
    | Accepted(eventId: Uuid, timestamp: int)
    | Rejected(message: string, timestamp: int)
      /** `Map.of` refuses the null message of the exception, so the request fails unanswered. */
    | Unanswered(kind: ExceptionKind)

  function HttpStatus(r: Reply): int {
    match r
    case Accepted(_, _) => 200
    case Rejected(_, _) => 400
    case Unanswered(_) => 500
  }

  /** The response body built in the `try` or the `catch` block; `now` is `System.currentTimeMillis()`. */
  function ToReply(result: Result<Dtos.EventDto, Thrown>, now: int): (reply: Reply)
    ensures reply.Accepted? <==> result.Ok?
    ensures result.Ok? ==> reply == Accepted(result.value.id, now)
    ensures result.Err? && result.error.message.Some? ==> reply == Rejected(result.error.message.value, now)
    ensures result.Err? && result.error.message.None? ==> reply == Unanswered(NullPointerException)
  {
    match result
    case Ok(dto) => Accepted(dto.id, now)
    case Err(Thrown(_, Some(message))) => Rejected(message, now)
    case Err(Thrown(_, None)) => Unanswered(NullPointerException)
  }

  /**
   * `receiveWebhook` on values. The signature check does nothing for any provider, so
   * the signature header does not take part; a failed extraction is rejected before
   * intake.
   */
  function Receive(events: seq<Event>, nextId: nat, endpoints: seq<Endpoint>, provider: string,
                   idempotencyKey: Option<string>, payload: Payload, remoteAddr: string,
                   createdAt: DateTime, clock: nat -> int): (t: EventProcessingService.Intake)
    ensures t.result.Err? ==> t.events == events
    ensures t.result.Err? && t.result.error != ValueTooLong ==> t.nextId == nextId && t.queued == []
  {
    match ExtractEventType(provider, payload)
    case Err(ex) => EventProcessingService.Intake(Err(ex), events, nextId, [])
    case Ok(eventType) =>
      EventProcessingService.ProcessIncoming(events, nextId, endpoints, provider, eventType, payload,
                                             idempotencyKey, Some(remoteAddr), createdAt, clock)
  }

  /**
   * Over a valid event table every request is answered: 200 exactly when the event
   * was stored, naming its fresh id, and 400 otherwise with nothing stored. A 400
   * has queued nothing, except when the commit failed on a value too long for its
   * column: the messages for the drawn id were sent before the commit.
   */
  lemma EveryRequestAnswered(events: seq<Event>, nextId: nat, endpoints: seq<Endpoint>, provider: string,
                             idempotencyKey: Option<string>, payload: Payload, remoteAddr: string,
                             createdAt: DateTime, clock: nat -> int, now: int)
    requires EventProcessingService.TableValid(events, nextId)
    ensures var t := Receive(events, nextId, endpoints, provider, idempotencyKey, payload, remoteAddr, createdAt, clock);
            var reply := ToReply(t.result, now);
            && !reply.Unanswered?
            && (reply.Accepted? ==> && reply.eventId == nextId && |t.events| == |events| + 1 && t.nextId == nextId + 1
                                     && EventProcessingService.TableValid(t.events, t.nextId) && EventFits(t.events[|events|]))
            && (reply.Rejected? ==> t.events == events && HttpStatus(reply) == 400)
            && (reply.Rejected? && reply.message != ValueTooLongMessage ==> t.queued == [] && t.nextId == nextId)
            && (reply.Rejected? && reply.message == ValueTooLongMessage ==>
                  t.nextId == nextId + 1 && forall m :: m in t.queued ==> m.eventId == IdText(nextId))
  {
    var t := Receive(events, nextId, endpoints, provider, idempotencyKey, payload, remoteAddr, createdAt, clock);
    var extracted := ExtractEventType(provider, payload);
    if extracted.Err? {
      var key := TypeField(Text.AsciiLower(provider)).value;
      CastMessageNotTooLong(payload[key].className);
    } else {
      EventProcessingService.IntakeOutcomes(events, nextId, endpoints, provider, extracted.value, payload,
                                            idempotencyKey, Some(remoteAddr), createdAt, clock);
    }
  }

  /**
   * A provider name longer than its 50-character column is no known provider, so
   * its type is "unknown"; with a fresh key the endpoints subscribed to "unknown"
   * are sent a message each, and then the commit fails: the caller gets 400 and
   * the event is not stored.
   */
  lemma OverlongProviderQueuedButRejected(events: seq<Event>, nextId: nat, endpoints: seq<Endpoint>, provider: string,
                                          idempotencyKey: Option<string>, payload: Payload, remoteAddr: string,
                                          createdAt: DateTime, clock: nat -> int, now: int)
    requires EventProcessingService.TableValid(events, nextId)
    requires |provider| > ProviderLength
    requires idempotencyKey.Some? ==> forall i :: 0 <= i < |events| ==> events[i].idempotencyKey != idempotencyKey
    ensures var t := Receive(events, nextId, endpoints, provider, idempotencyKey, payload, remoteAddr, createdAt, clock);
            && ToReply(t.result, now) == Rejected(ValueTooLongMessage, now)
            && t.events == events
            && t.queued == EventProcessingService.Messages(nextId, EndpointRepository.FindActiveEndpointsByEventType(endpoints, "unknown"), clock)
  {
    assert TypeField(Text.AsciiLower(provider)).None? by {
      assert |Text.AsciiLower(provider)| > 50;
    }
    EventProcessingService.OverlongEventQueuedNotStored(events, nextId, endpoints, provider, "unknown", payload, idempotencyKey,
                                                        Some(remoteAddr), createdAt, clock);
  }

  /** A known provider's request without its type field is rejected: the event cannot be stored. */
  lemma MissingTypeRejected(events: seq<Event>, nextId: nat, endpoints: seq<Endpoint>, provider: string,
                            payload: Payload, remoteAddr: string, createdAt: DateTime, clock: nat -> int, now: int)
    requires TypeField(Text.AsciiLower(provider)).Some?
    requires TypeField(Text.AsciiLower(provider)).value !in payload
    ensures var t := Receive(events, nextId, endpoints, provider, None, payload, remoteAddr, createdAt, clock);
            && ToReply(t.result, now) == Rejected(EventProcessingService.NullEventTypeMessage, now)
            && t.events == events && t.queued == []
  {
  }

  class ProviderWebhookController {
    const processing: EventProcessingService.EventProcessingService

    constructor (processing: EventProcessingService.EventProcessingService)
      ensures this.processing == processing
    {
      this.processing := processing;
    }

    /**
     * `receiveWebhook`. `signature` is accepted and, as in the handler, not checked;
     * `clock(i)` stamps the i-th queued message and `now` the response.
     */
    method ReceiveWebhook(provider: string, signature: Option<string>, idempotencyKey: Option<string>,
                          payload: Payload, remoteAddr: string, createdAt: DateTime, clock: nat -> int, now: int)
      returns (reply: Reply)
      requires processing.events.Valid()
      modifies processing.events, processing.kafka
      ensures processing.events.Valid()
      ensures var t := Receive(old(processing.events.rows), old(processing.events.nextId), processing.endpoints.rows,
                               provider, idempotencyKey, payload, remoteAddr, createdAt, clock);
              && reply == ToReply(t.result, now)
              && processing.events.rows == t.events && processing.events.nextId == t.nextId
              && processing.kafka.messages == old(processing.kafka.messages) + t.queued
    {
      var eventType := ExtractEventType(provider, payload);
      if eventType.Err? {
        return ToReply(Err(eventType.error), now);
      }
      var result := processing.ProcessIncomingEvent(provider, eventType.value, payload, idempotencyKey,
                                                    Some(remoteAddr), createdAt, clock);
      reply := ToReply(result, now);
    }
  }
}
