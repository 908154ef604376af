/**
 * `EventProcessingService`: intake of a provider event — duplicate check by
 * idempotency key, the stored event, and one queued delivery message per active
 * subscribed endpoint.
 */
module EventProcessingService {
  import opened Wrappers
  import opened Entities
  import Seqs
  import EventRepository
  import EndpointRepository
  import WebhookMapper
  import Dtos

  const DeliveryTopic := "webhook-deliveries"

  /** The `Map.of("eventId", ..., "endpointId", ..., "timestamp", ...)` sent to a topic. */
  datatype DeliveryMessage = DeliveryMessage(topic: string, eventId: string, endpointId: string, timestamp: int)

  /** The messages `kafkaTemplate.send` has published, in order. */
  class KafkaTopic {
    var messages: seq<DeliveryMessage>

    constructor ()
      ensures messages == []
    {
      messages := [];
    }

    method Send(m: DeliveryMessage)
      modifies this
      ensures messages == old(messages) + [m]
    {
      messages := messages + [m];
    }
  }

  /** One message per endpoint, in the order the endpoints were found; `clock(i)` is the i-th reading. */
  function Messages(eventId: Uuid, targets: seq<Endpoint>, clock: nat -> int): (r: seq<DeliveryMessage>)
    ensures |r| == |targets|
    ensures forall i :: 0 <= i < |targets| ==>
              r[i] == DeliveryMessage(DeliveryTopic, IdText(eventId), IdText(targets[i].id), clock(i))
  {
    seq(|targets|, i requires 0 <= i < |targets| =>
      DeliveryMessage(DeliveryTopic, IdText(eventId), IdText(targets[i].id), clock(i)))
  }

  /** The effect of one call: what it returned, the event rows after it, and what it queued. */
  datatype Intake = Intake(result: Result<Dtos.EventDto, Thrown>, events: seq<Event>, nextId: nat,
                           queued: seq<DeliveryMessage>)

  const NullEventTypeMessage := "not-null property references a null or transient value: WebhookEvent.eventType"

  /** The PENDING event built from the request. */
  function NewEvent(id: Uuid, provider: string, eventType: string, payload: Payload, idempotencyKey: Option<string>,
                    sourceIp: Option<string>, createdAt: DateTime): Event {
    Event(id, eventType, provider, payload, idempotencyKey, EventStatus.PENDING, sourceIp, None, createdAt, Some([]))
  }

  /**
   * `processIncomingEvent`. A known idempotency key is rejected before anything is
   * stored. A null event type matches no endpoint, and the NOT NULL `event_type`
   * column makes the commit fail: nothing is stored and nothing was queued. The
   * insert itself runs at commit, after the messages were sent: a row too long for
   * its columns is not stored, but its messages stay queued and its id stays drawn.
   */
  function ProcessIncoming(events: seq<Event>, nextId: nat, endpoints: seq<Endpoint>, provider: string,
                           eventType: Option<string>, payload: Payload, idempotencyKey: Option<string>,
                           sourceIp: Option<string>, createdAt: DateTime, clock: nat -> int): (t: Intake)
    ensures t.result.Err? ==> t.events == events
    ensures t.result.Err? && t.result.error != ValueTooLong ==> t.nextId == nextId && t.queued == []
    ensures t.result.Ok? ==> |t.events| == |events| + 1 && t.result.value == WebhookMapper.ToEventDto(t.events[|events|])
  {
    var lookup := if idempotencyKey.Some? then EventRepository.FindByIdempotencyKey(events, idempotencyKey.value) else Ok(None);
    if lookup.Err? then Intake(Err(lookup.error), events, nextId, [])
    else if lookup.value.Some? then Intake(Err(Throw(DuplicateEventException, "Event already processed")), events, nextId, [])
    else if eventType.None? then Intake(Err(Throw(DataIntegrityViolation, NullEventTypeMessage)), events, nextId, [])
    else SaveAndFanOut(events, nextId, endpoints, NewEvent(nextId, provider, eventType.value, payload, idempotencyKey, sourceIp, createdAt), clock)
  }

  /**
   * The part of `processIncomingEvent` after the checks: the event `e` drawn under
   * `nextId` is saved, a message is queued per target, its status is set, and the
   * transaction commits — or fails on a value too long for its column.
   */
  function SaveAndFanOut(events: seq<Event>, nextId: nat, endpoints: seq<Endpoint>, e: Event, clock: nat -> int): (t: Intake)
    requires e.id == nextId
    ensures t.nextId == nextId + 1
    ensures t.queued == Messages(nextId, EndpointRepository.FindActiveEndpointsByEventType(endpoints, e.eventType), clock)
    ensures t.result.Err? <==> !EventFits(e)
    ensures t.result.Err? ==> t.result == Err(ValueTooLong) && t.events == events
    ensures t.result.Ok? ==> |t.events| == |events| + 1 && t.result.value == WebhookMapper.ToEventDto(t.events[|events|])
  {
    var targets := EndpointRepository.FindActiveEndpointsByEventType(endpoints, e.eventType);
    var status := if targets == [] then EventStatus.DELIVERED else EventStatus.PROCESSING;
    if !EventFits(e) then Intake(Err(ValueTooLong), events, nextId + 1, Messages(nextId, targets, clock))
    else
      Intake(Ok(WebhookMapper.ToEventDto(e.(status := status))),
             EventRepository.WithStatus(events + [e], nextId, status), nextId + 1,
             Messages(nextId, targets, clock))
  }

  /** The event table's invariant, on values. */
  ghost predicate TableValid(events: seq<Event>, nextId: nat) {
    && Seqs.UniqueKeys(events, EventRepository.EventId)
    && (forall i :: 0 <= i < |events| ==> events[i].id < nextId)
    && EventRepository.UniqueIdempotencyKeys(events)
  }

  /**
   * An accepted event is appended under a fresh id — DELIVERED when nobody listens,
   * PROCESSING otherwise — its row fits its columns, the table stays valid, and the
   * reply is the DTO of the stored row.
   */
  lemma AcceptedEventStored(events: seq<Event>, nextId: nat, endpoints: seq<Endpoint>, provider: string,
                            eventType: Option<string>, payload: Payload, idempotencyKey: Option<string>,
                            sourceIp: Option<string>, createdAt: DateTime, clock: nat -> int)
    requires TableValid(events, nextId)
    ensures var t := ProcessIncoming(events, nextId, endpoints, provider, eventType, payload, idempotencyKey, sourceIp, createdAt, clock);
            t.result.Ok? ==>
              var targets := EndpointRepository.FindActiveEndpointsByEventType(endpoints, eventType.value);
              && t.events == events + [NewEvent(nextId, provider, eventType.value, payload, idempotencyKey, sourceIp, createdAt)
                                         .(status := if targets == [] then EventStatus.DELIVERED else EventStatus.PROCESSING)]
              && t.nextId == nextId + 1
              && TableValid(t.events, t.nextId) && EventFits(t.events[|events|])
              && t.result.value == WebhookMapper.ToEventDto(t.events[|events|])
              && t.result.value.id == nextId && t.result.value.deliveryCount == 0
  {
    var t := ProcessIncoming(events, nextId, endpoints, provider, eventType, payload, idempotencyKey, sourceIp, createdAt, clock);
    if t.result.Ok? {
      var targets := EndpointRepository.FindActiveEndpointsByEventType(endpoints, eventType.value);
      var e := NewEvent(nextId, provider, eventType.value, payload, idempotencyKey, sourceIp, createdAt);
      var status := if targets == [] then EventStatus.DELIVERED else EventStatus.PROCESSING;
      EventRepository.WithStatusOfAppended(events, e, status);
      var stored := events + [e.(status := status)];
      if idempotencyKey.Some? {
        assert forall i :: 0 <= i < |events| ==> events[i].idempotencyKey != idempotencyKey;
      }
      assert Seqs.UniqueKeys(stored, EventRepository.EventId) by {
        forall i, j | 0 <= i < j < |stored| ensures stored[i].id != stored[j].id {
          if j < |events| {
            assert EventRepository.EventId(events[i]) != EventRepository.EventId(events[j]);
          }
        }
      }
    }
  }

  /**
   * Over a valid table every intake ends one of three ways: the event is stored
   * under the drawn id; the commit fails on a value too long for its column after
   * the messages for that id were sent; or it fails earlier, changing nothing.
   * Every failure carries a message.
   */
  lemma IntakeOutcomes(events: seq<Event>, nextId: nat, endpoints: seq<Endpoint>, provider: string,
                       eventType: Option<string>, payload: Payload, idempotencyKey: Option<string>,
                       sourceIp: Option<string>, createdAt: DateTime, clock: nat -> int)
    requires TableValid(events, nextId)
    ensures var t := ProcessIncoming(events, nextId, endpoints, provider, eventType, payload, idempotencyKey, sourceIp, createdAt, clock);
            && (t.result.Ok? ==> && t.result.value.id == nextId && |t.events| == |events| + 1 && t.nextId == nextId + 1
                                 && TableValid(t.events, t.nextId) && EventFits(t.events[|events|]))
            && (t.result.Err? ==> t.events == events && t.result.error.message.Some?)
            && (t.result.Err? && t.result.error.message != Some(ValueTooLongMessage) ==> t.queued == [] && t.nextId == nextId)
            && (t.result.Err? && t.result.error.message == Some(ValueTooLongMessage) ==>
                  t.nextId == nextId + 1 && forall m :: m in t.queued ==> m.eventId == IdText(nextId))
  {
    if idempotencyKey.Some? {
      EventRepository.IdempotencyLookupIsSingle(events, idempotencyKey.value);
    }
    AcceptedEventStored(events, nextId, endpoints, provider, eventType, payload, idempotencyKey, sourceIp, createdAt, clock);
    if eventType.Some? {
      MessagesCoverTargets(nextId, EndpointRepository.FindActiveEndpointsByEventType(endpoints, eventType.value), clock);
    }
  }

  /** The messages name the event and exactly the given endpoints. */
  lemma MessagesCoverTargets(eventId: Uuid, targets: seq<Endpoint>, clock: nat -> int)
    ensures var ms := Messages(eventId, targets, clock);
            && (forall m :: m in ms ==> m.topic == DeliveryTopic && m.eventId == IdText(eventId))
            && (forall m :: m in ms ==> exists ep :: ep in targets && m.endpointId == IdText(ep.id))
            && (forall ep :: ep in targets ==> exists m :: m in ms && m.endpointId == IdText(ep.id))
  {
    var ms := Messages(eventId, targets, clock);
    forall m | m in ms ensures exists ep :: ep in targets && m.endpointId == IdText(ep.id) {
      var i :| 0 <= i < |ms| && ms[i] == m;
      assert targets[i] in targets;
    }
    forall ep | ep in targets ensures exists m :: m in ms && m.endpointId == IdText(ep.id) {
      var i :| 0 <= i < |targets| && targets[i] == ep;
      assert ms[i] in ms;
    }
  }

  /**
   * An accepted event queues one message for every active endpoint with an active
   * subscription to its type, each naming the new event, and no other message.
   */
  lemma AcceptedEventFansOut(events: seq<Event>, nextId: nat, endpoints: seq<Endpoint>, provider: string,
                             eventType: Option<string>, payload: Payload, idempotencyKey: Option<string>,
                             sourceIp: Option<string>, createdAt: DateTime, clock: nat -> int)
    ensures var t := ProcessIncoming(events, nextId, endpoints, provider, eventType, payload, idempotencyKey, sourceIp, createdAt, clock);
            t.result.Ok? ==>
              var targets := EndpointRepository.FindActiveEndpointsByEventType(endpoints, eventType.value);
              && |t.queued| == |targets|
              && (forall m :: m in t.queued ==> m.topic == DeliveryTopic && m.eventId == IdText(nextId))
              && (forall m :: m in t.queued ==> exists ep :: ep in targets && m.endpointId == IdText(ep.id))
              && (forall ep :: ep in endpoints && ep.status == WebhookStatus.ACTIVE && EndpointRepository.HasActiveSubscription(ep, eventType.value)
                    ==> exists m :: m in t.queued && m.endpointId == IdText(ep.id))
  {
    if eventType.Some? {
      var targets := EndpointRepository.FindActiveEndpointsByEventType(endpoints, eventType.value);
      MessagesCoverTargets(nextId, targets, clock);
    }
  }

  /**
   * A new row too long for its columns — a provider name over 50 characters, a key
   * over 255, a type over 100 — passes every check, so a message is queued for each
   * subscriber; the insert then fails at commit. Nothing is stored, the reply is the
   * commit's error, and the queued messages name an id that no stored event has.
   */
  lemma OverlongEventQueuedNotStored(events: seq<Event>, nextId: nat, endpoints: seq<Endpoint>, provider: string,
                                     eventType: string, payload: Payload, idempotencyKey: Option<string>,
                                     sourceIp: Option<string>, createdAt: DateTime, clock: nat -> int)
    requires TableValid(events, nextId)
    requires idempotencyKey.Some? ==> forall i :: 0 <= i < |events| ==> events[i].idempotencyKey != idempotencyKey
    requires !EventFits(NewEvent(nextId, provider, eventType, payload, idempotencyKey, sourceIp, createdAt))
    ensures var t := ProcessIncoming(events, nextId, endpoints, provider, Some(eventType), payload, idempotencyKey, sourceIp, createdAt, clock);
            && t.result == Err(ValueTooLong)
            && t.events == events && t.nextId == nextId + 1 && TableValid(t.events, t.nextId)
            && t.queued == Messages(nextId, EndpointRepository.FindActiveEndpointsByEventType(endpoints, eventType), clock)
            && (forall m :: m in t.queued ==> m.eventId == IdText(nextId))
            && EventRepository.FindById(t.events, nextId).None?
  {
    var targets := EndpointRepository.FindActiveEndpointsByEventType(endpoints, eventType);
    MessagesCoverTargets(nextId, targets, clock);
  }

  /** A key the table already holds is rejected as a duplicate; nothing is stored or queued. */
  lemma DuplicateKeyRejected(events: seq<Event>, nextId: nat, endpoints: seq<Endpoint>, provider: string,
                             eventType: Option<string>, payload: Payload, key: string,
                             sourceIp: Option<string>, createdAt: DateTime, clock: nat -> int, i: nat)
    requires TableValid(events, nextId)
    requires i < |events| && events[i].idempotencyKey == Some(key)
    ensures var t := ProcessIncoming(events, nextId, endpoints, provider, eventType, payload, Some(key), sourceIp, createdAt, clock);
            && t.result == Err(Throw(DuplicateEventException, "Event already processed"))
            && t.events == events && t.nextId == nextId && t.queued == []
  {
    EventRepository.IdempotencyLookupIsSingle(events, key);
  }

  /** A repeated delivery of the same idempotency key is rejected and changes nothing. */
  lemma SecondDeliveryRejected(events: seq<Event>, nextId: nat, endpoints: seq<Endpoint>, provider: string,
                               eventType: Option<string>, payload: Payload, key: string,
                               sourceIp: Option<string>, createdAt: DateTime, clock: nat -> int,
                               eventType2: Option<string>, payload2: Payload, createdAt2: DateTime, clock2: nat -> int)
    requires TableValid(events, nextId)
    requires ProcessIncoming(events, nextId, endpoints, provider, eventType, payload, Some(key), sourceIp, createdAt, clock).result.Ok?
    ensures var first := ProcessIncoming(events, nextId, endpoints, provider, eventType, payload, Some(key), sourceIp, createdAt, clock);
            var second := ProcessIncoming(first.events, first.nextId, endpoints, provider, eventType2, payload2, Some(key), sourceIp, createdAt2, clock2);
            && second.result == Err(Throw(DuplicateEventException, "Event already processed"))
            && second.events == first.events && second.queued == []
  {
    AcceptedEventStored(events, nextId, endpoints, provider, eventType, payload, Some(key), sourceIp, createdAt, clock);
    var first := ProcessIncoming(events, nextId, endpoints, provider, eventType, payload, Some(key), sourceIp, createdAt, clock);
    EventRepository.IdempotencyLookupIsSingle(first.events, key);
    assert first.events[|events|].idempotencyKey == Some(key);
  }

  /**
   * Without an idempotency key nothing is ever rejected as a duplicate: the request
   * fails only when its row does not fit its columns.
   */
  lemma NoKeyNoDuplicate(events: seq<Event>, nextId: nat, endpoints: seq<Endpoint>, provider: string,
                         eventType: string, payload: Payload, sourceIp: Option<string>, createdAt: DateTime, clock: nat -> int)
    ensures var t := ProcessIncoming(events, nextId, endpoints, provider, Some(eventType), payload, None, sourceIp, createdAt, clock);
            && (t.result.Ok? <==> EventFits(NewEvent(nextId, provider, eventType, payload, None, sourceIp, createdAt)))
            && (t.result.Err? ==> t.result.error == ValueTooLong)
  {
  }

  class EventProcessingService {
    const events: EventRepository.EventTable
    const endpoints: EndpointRepository.EndpointTable
    const kafka: KafkaTopic

    constructor (events: EventRepository.EventTable, endpoints: EndpointRepository.EndpointTable, kafka: KafkaTopic)
      ensures this.events == events && this.endpoints == endpoints && this.kafka == kafka
    {
      this.events := events;
      this.endpoints := endpoints;
      this.kafka := kafka;
    }

    /** The loop over the found endpoints calling `queueDelivery`. */
    method QueueDeliveries(eventId: Uuid, targets: seq<Endpoint>, clock: nat -> int)
      modifies kafka
      ensures kafka.messages == old(kafka.messages) + Messages(eventId, targets, clock)
    {
      var i := 0;
      while i < |targets|
        invariant 0 <= i <= |targets|
        invariant kafka.messages == old(kafka.messages) + Messages(eventId, targets[..i], clock)
      {
        kafka.Send(DeliveryMessage(DeliveryTopic, IdText(eventId), IdText(targets[i].id), clock(i)));
        assert Messages(eventId, targets[..i + 1], clock) == Messages(eventId, targets[..i], clock)
          + [DeliveryMessage(DeliveryTopic, IdText(eventId), IdText(targets[i].id), clock(i))];
        i := i + 1;
      }
      assert targets[..i] == targets;
    }

    /** `processIncomingEvent`; `clock(i)` is the time stamped on the i-th queued message. */
    method ProcessIncomingEvent(provider: string, eventType: Option<string>, payload: Payload,
                                idempotencyKey: Option<string>, sourceIp: Option<string>,
                                createdAt: DateTime, clock: nat -> int) returns (r: Result<Dtos.EventDto, Thrown>)
      requires events.Valid()
      modifies events, kafka
      ensures events.Valid()
      ensures var t := ProcessIncoming(old(events.rows), old(events.nextId), endpoints.rows, provider, eventType, payload,
                                       idempotencyKey, sourceIp, createdAt, clock);
              && r == t.result && events.rows == t.events && events.nextId == t.nextId
              && kafka.messages == old(kafka.messages) + t.queued
    {
      if idempotencyKey.Some? {
        var existing := EventRepository.FindByIdempotencyKey(events.rows, idempotencyKey.value);
        if existing.Err? {
          return Err(existing.error);
        }
        if existing.value.Some? {
          return Err(Throw(DuplicateEventException, "Event already processed"));
        }
      }
      if eventType.None? {
        return Err(Throw(DataIntegrityViolation, NullEventTypeMessage));
      }
      r := SaveAndQueue(NewEvent(0, provider, eventType.value, payload, idempotencyKey, sourceIp, createdAt), clock);
    }

    /** The saves, the `queueDelivery` loop and the commit of `processIncomingEvent`. */
    method SaveAndQueue(e: Event, clock: nat -> int) returns (r: Result<Dtos.EventDto, Thrown>)
      requires events.Valid()
      requires e.idempotencyKey.Some? ==> forall i :: 0 <= i < |events.rows| ==> events.rows[i].idempotencyKey != e.idempotencyKey
      modifies events, kafka
      ensures events.Valid()
      ensures var t := SaveAndFanOut(old(events.rows), old(events.nextId), endpoints.rows, e.(id := old(events.nextId)), clock);
              && r == t.result && events.rows == t.events && events.nextId == t.nextId
              && kafka.messages == old(kafka.messages) + t.queued
    {
      var before := events.rows;
      var event := events.Insert(e);
      var targets := EndpointRepository.FindActiveEndpointsByEventType(endpoints.rows, event.eventType);
      if targets == [] {
        event := event.(status := EventStatus.DELIVERED);
        events.UpdateStatus(event.id, EventStatus.DELIVERED);
      } else {
        QueueDeliveries(event.id, targets, clock);
        event := event.(status := EventStatus.PROCESSING);
        events.UpdateStatus(event.id, EventStatus.PROCESSING);
      }
      // the commit: the INSERT fails on a value too long for its column
      if !EventFits(event) {
        events.RollBack(before);
        return Err(ValueTooLong);
      }
      return Ok(WebhookMapper.ToEventDto(event));
    }
  }
}
