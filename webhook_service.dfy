/**
 * `WebhookService`: a merchant's management of its endpoints — create, update
 * (with the subscription reconciliation), deactivate, read and list.
 */
module WebhookService {
  import opened Wrappers
  import opened Entities
  import opened Dtos
  import Seqs
  import MerchantRepository
  import EndpointRepository
  import WebhookMapper

  // ---------------------------------------------------------------- secrets

  newtype Byte = x: int | 0 <= x < 256

  /** The URL-safe Base64 alphabet (RFC 4648, section 5). */
  const UrlAlphabet := "ABCDEFGHIJKLMNOPQRSTUVWXYZabcdefghijklmnopqrstuvwxyz0123456789-_"

  function Sextet(n: int): (c: char)
    requires 0 <= n < 64
    ensures c in UrlAlphabet
  {
    UrlAlphabet[n]
  }

  /** Three bytes as four characters. */
  function Quad(x: Byte, y: Byte, z: Byte): (r: string)
    ensures |r| == 4 && forall i :: 0 <= i < 4 ==> r[i] in UrlAlphabet
  {
    [Sextet(x as int / 4), Sextet((x as int % 4) * 16 + y as int / 16),
     Sextet((y as int % 16) * 4 + z as int / 64), Sextet(z as int % 64)]
  }

  /** The last one or two bytes, without padding: two or three characters. */
  function Rest(b: seq<Byte>): (r: string)
    requires 1 <= |b| <= 2
    ensures |r| == |b| + 1 && forall i :: 0 <= i < |r| ==> r[i] in UrlAlphabet
  {
    if |b| == 1 then [Sextet(b[0] as int / 4), Sextet((b[0] as int % 4) * 16)]
    else [Sextet(b[0] as int / 4), Sextet((b[0] as int % 4) * 16 + b[1] as int / 16), Sextet((b[1] as int % 16) * 4)]
  }

  /** `Base64.getUrlEncoder().withoutPadding().encodeToString`. */
  function EncodeUrlNoPadding(b: seq<Byte>): (r: string)
    ensures |r| == (|b| / 3) * 4 + (if |b| % 3 == 0 then 0 else |b| % 3 + 1)
    ensures forall i :: 0 <= i < |r| ==> r[i] in UrlAlphabet
    decreases |b|
  {
    if |b| == 0 then ""
    else if |b| < 3 then Rest(b)
    else
      var q, rest := Quad(b[0], b[1], b[2]), EncodeUrlNoPadding(b[3..]);
      assert forall i :: 4 <= i < |q + rest| ==> (q + rest)[i] == rest[i - 4];
      q + rest
  }

  const SecretPrefix := "whsec_"

  /** `generateSecret`, given the 32 bytes `SecureRandom` produced. */
  function GenerateSecret(randomBytes: seq<Byte>): string {
    SecretPrefix + EncodeUrlNoPadding(randomBytes)
  }

  /** A secret is "whsec_" followed by 43 URL-safe characters. */
  lemma SecretShape(randomBytes: seq<Byte>)
    requires |randomBytes| == 32
    ensures var s := GenerateSecret(randomBytes);
            && |s| == 49 && s[..6] == SecretPrefix
            && forall i :: 6 <= i < |s| ==> s[i] in UrlAlphabet
  {
    var s := GenerateSecret(randomBytes);
    assert s[..6] == SecretPrefix;
    forall i | 6 <= i < |s| ensures s[i] in UrlAlphabet {
      assert s[i] == EncodeUrlNoPadding(randomBytes)[i - 6];
    }
  }

  // ---------------------------------------------------------------- subscriptions

  /** The selection predicate of the `findFirst` over an endpoint's subscriptions. */
  function TypeIs(eventType: string): Subscription -> bool {
    (s: Subscription) => s.eventType == eventType
  }

  /** The first step of the reconciliation: every existing subscription switched off. */
  function Deactivated(subs: seq<Subscription>): (r: seq<Subscription>)
    ensures |r| == |subs|
    ensures forall i :: 0 <= i < |subs| ==> r[i] == subs[i].(isActive := false)
  {
    seq(|subs|, i requires 0 <= i < |subs| => subs[i].(isActive := false))
  }

  /** One event type of the DTO: the first subscription to it is switched on, or a new active one is appended. */
  function AddOrReactivate(subs: seq<Subscription>, eventType: string): seq<Subscription> {
    match Seqs.FirstIndex(subs, TypeIs(eventType))
    case Some(k) => subs[k := subs[k].(isActive := true)]
    case None => subs + [Subscription(eventType, true)]
  }

  /** All event types of the DTO, in order. */
  function AddAll(subs: seq<Subscription>, events: seq<string>): seq<Subscription>
    decreases |events|
  {
    if events == [] then subs
    else AddOrReactivate(AddAll(subs, events[..|events| - 1]), events[|events| - 1])
  }

  /** The subscriptions after `updateEndpoint`: untouched for null events, else deactivate then add or reactivate. */
  function Reconciled(subs: seq<Subscription>, events: Option<seq<string>>): seq<Subscription> {
    if events.None? then subs else AddAll(Deactivated(subs), events.value)
  }

  lemma AddOrReactivateFacts(s: seq<Subscription>, t: string)
    requires Seqs.Distinct(SubscriptionTypes(s))
    ensures var r := AddOrReactivate(s, t);
            && |s| <= |r| <= |s| + 1
            && (forall i :: 0 <= i < |s| ==> (r[i].eventType == s[i].eventType
                                             && (r[i].isActive <==> s[i].isActive || s[i].eventType == t)))
            && (forall i :: |s| <= i < |r| ==> r[i] == Subscription(t, true))
            && Seqs.Distinct(SubscriptionTypes(r))
            && t in SubscriptionTypes(r)
            && (t in SubscriptionTypes(s) ==> |r| == |s|)
  {
    var r := AddOrReactivate(s, t);
    match Seqs.FirstIndex(s, TypeIs(t))
    case Some(k) =>
      forall i | 0 <= i < |s| && i != k ensures s[i].eventType != t {
        assert SubscriptionTypes(s)[i] != SubscriptionTypes(s)[k] || i == k;
      }
      assert SubscriptionTypes(r) == SubscriptionTypes(s);
      assert SubscriptionTypes(r)[k] == t;
    case None =>
      forall i, j | 0 <= i < j < |r| ensures SubscriptionTypes(r)[i] != SubscriptionTypes(r)[j] {
        if j < |s| {
          assert SubscriptionTypes(s)[i] != SubscriptionTypes(s)[j];
        } else {
          assert !TypeIs(t)(s[i]);
        }
      }
      assert SubscriptionTypes(r)[|s|] == t;
  }

  /** Adding the DTO's types keeps the rows in place, only switching them on, and appends active rows. */
  lemma {:induction false} AddAllFacts(s: seq<Subscription>, events: seq<string>)
    requires Seqs.Distinct(SubscriptionTypes(s))
    ensures var r := AddAll(s, events);
            && |s| <= |r|
            && (forall i :: 0 <= i < |s| ==> (r[i].eventType == s[i].eventType
                                             && (r[i].isActive <==> s[i].isActive || s[i].eventType in events)))
            && (forall i :: |s| <= i < |r| ==> r[i].isActive && r[i].eventType in events)
            && Seqs.Distinct(SubscriptionTypes(r))
    decreases |events|
  {
    if events != [] {
      var init, t := events[..|events| - 1], events[|events| - 1];
      assert events == init + [t];
      AddAllFacts(s, init);
      AddOrReactivateFacts(AddAll(s, init), t);
    }
  }

  /** Every type of the DTO ends up subscribed; when all were subscribed already, no row is added. */
  lemma {:induction false} AddAllCovers(s: seq<Subscription>, events: seq<string>)
    requires Seqs.Distinct(SubscriptionTypes(s))
    ensures var r := AddAll(s, events);
            && (forall t :: t in events ==> t in SubscriptionTypes(r))
            && ((forall t :: t in events ==> t in SubscriptionTypes(s)) ==> |r| == |s|)
    decreases |events|
  {
    if events != [] {
      var init, t := events[..|events| - 1], events[|events| - 1];
      assert events == init + [t];
      var p := AddAll(s, init);
      AddAllFacts(s, init);
      AddAllCovers(s, init);
      AddOrReactivateFacts(p, t);
      var r := AddAll(s, events);
      if forall x :: x in events ==> x in SubscriptionTypes(s) {
        assert t in events;
        var j :| 0 <= j < |s| && SubscriptionTypes(s)[j] == t;
        assert SubscriptionTypes(p)[j] == t;
      }
      forall x | x in events ensures x in SubscriptionTypes(r) {
        if x != t {
          assert x in init;
          var j :| 0 <= j < |p| && SubscriptionTypes(p)[j] == x;
          assert SubscriptionTypes(r)[j] == x;
        }
      }
    }
  }

  /**
   * After the reconciliation a subscription is active exactly when the DTO lists its
   * type; the existing rows are kept in place (only switched), the types are the old
   * ones plus the listed ones, and no type occurs twice.
   */
  lemma ReconcileSemantics(subs: seq<Subscription>, events: seq<string>)
    requires Seqs.Distinct(SubscriptionTypes(subs))
    ensures var r := Reconciled(subs, Some(events));
            && |subs| <= |r|
            && (forall i :: 0 <= i < |r| ==> (r[i].isActive <==> r[i].eventType in events))
            && (forall i :: 0 <= i < |subs| ==> r[i].eventType == subs[i].eventType)
            && (forall t :: t in SubscriptionTypes(r) <==> t in SubscriptionTypes(subs) || t in events)
            && Seqs.Distinct(SubscriptionTypes(r))
  {
    var d := Deactivated(subs);
    assert SubscriptionTypes(d) == SubscriptionTypes(subs);
    AddAllFacts(d, events);
    AddAllCovers(d, events);
    var r := Reconciled(subs, Some(events));
    forall t | t in SubscriptionTypes(subs) ensures t in SubscriptionTypes(r) {
      var j :| 0 <= j < |subs| && SubscriptionTypes(subs)[j] == t;
      assert SubscriptionTypes(r)[j] == t;
    }
  }

  /** The active subscriptions after an update with events are exactly the listed types. */
  lemma ReconciledActiveTypes(subs: seq<Subscription>, events: seq<string>, t: string)
    requires Seqs.Distinct(SubscriptionTypes(subs))
    ensures var r := Reconciled(subs, Some(events));
            (exists i :: 0 <= i < |r| && r[i].eventType == t && r[i].isActive) <==> t in events
  {
    ReconcileSemantics(subs, events);
    var r := Reconciled(subs, Some(events));
    if t in events {
      var j :| 0 <= j < |r| && SubscriptionTypes(r)[j] == t;
      assert r[j].eventType == t && r[j].isActive;
    }
  }

  /** `ReconcileSubscriptions` twice with the same list is the same as once. */
  lemma ReconcileIdempotent(subs: seq<Subscription>, events: seq<string>)
    requires Seqs.Distinct(SubscriptionTypes(subs))
    ensures Reconciled(Reconciled(subs, Some(events)), Some(events)) == Reconciled(subs, Some(events))
  {
    var r := Reconciled(subs, Some(events));
    ReconcileSemantics(subs, events);
    var r2 := Reconciled(r, Some(events));
    ReconcileSemantics(r, events);
    var d := Deactivated(r);
    assert SubscriptionTypes(d) == SubscriptionTypes(r);
    AddAllFacts(d, events);
    AddAllCovers(d, events);
    forall i | 0 <= i < |r| ensures r2[i] == r[i] {
      assert r2[i].eventType == r[i].eventType;
    }
  }

  // ---------------------------------------------------------------- the operations on values

  /** What a call returned, with the endpoint rows after it. */
  datatype Change<R> = Change(result: Result<R, Thrown>, rows: seq<Endpoint>, nextId: nat)

  const NullUrlMessage := "not-null property references a null or transient value: WebhookEndpoint.url"
  const DuplicateSubscriptionMessage := "unique constraint (webhook_endpoint_id, event_type) violated on event_subscriptions"

  /** The flush of a managed endpoint whose identifier the mapper overwrote. */
  const IdAlteredMessage := "identifier of an instance of dev.dammak.paymentservicewebhook.entity.WebhookEndpoint was altered"

  /** The active subscription rows `createEndpoint` saves, one per listed type. */
  function SubscriptionRows(events: seq<string>): (r: seq<Subscription>)
    ensures |r| == |events|
    ensures forall i :: 0 <= i < |events| ==> r[i] == Subscription(events[i], true)
    ensures SubscriptionTypes(r) == events
  {
    var r := seq(|events|, i requires 0 <= i < |events| => Subscription(events[i], true));
    assert SubscriptionTypes(r) == events;
    r
  }

  /** Every event type fits the 100-character `event_type` column. */
  ghost predicate TypesFit(events: seq<string>) {
    forall k :: 0 <= k < |events| ==> |events[k]| <= EventTypeLength
  }

  /**
   * The first subscription INSERT from position `i` on that fails at commit, in the
   * order the rows were saved: a type too long for its column, or a type this
   * endpoint was already given (the unique (endpoint, event_type) constraint).
   */
  function SubscriptionInsertFailure(events: seq<string>, i: nat): (r: Option<Thrown>)
    requires i <= |events|
    ensures r.None? <==> forall k :: i <= k < |events| ==> |events[k]| <= EventTypeLength && events[k] !in events[..k]
    ensures r == Some(ValueTooLong) ==> exists k :: i <= k < |events| && |events[k]| > EventTypeLength
    ensures r.Some? && r != Some(ValueTooLong) ==>
              && r == Some(Throw(DataIntegrityViolation, DuplicateSubscriptionMessage))
              && exists k :: i <= k < |events| && events[k] in events[..k]
    decreases |events| - i
  {
    if i == |events| then None
    else if |events[i]| > EventTypeLength then Some(ValueTooLong)
    else if events[i] in events[..i] then Some(Throw(DataIntegrityViolation, DuplicateSubscriptionMessage))
    else SubscriptionInsertFailure(events, i + 1)
  }

  /** No type repeats an earlier one exactly when no type is listed twice. */
  lemma NoEarlierCopyIsDistinct(events: seq<string>)
    ensures (forall k :: 0 <= k < |events| ==> events[k] !in events[..k]) <==> Seqs.Distinct(events)
  {
    if forall k :: 0 <= k < |events| ==> events[k] !in events[..k] {
      forall i, j | 0 <= i < j < |events| ensures events[i] != events[j] {
        assert events[i] == events[..j][i];
      }
    }
  }

  /**
   * The subscription inserts all succeed exactly when the types are distinct and
   * fit their column; repeated types that fit give the unique constraint's error,
   * distinct types one of which is too long the column's.
   */
  lemma SubscriptionInsertsSucceed(events: seq<string>)
    ensures SubscriptionInsertFailure(events, 0).None? <==> Seqs.Distinct(events) && TypesFit(events)
    ensures TypesFit(events) && !Seqs.Distinct(events) ==>
              SubscriptionInsertFailure(events, 0) == Some(Throw(DataIntegrityViolation, DuplicateSubscriptionMessage))
    ensures Seqs.Distinct(events) && !TypesFit(events) ==> SubscriptionInsertFailure(events, 0) == Some(ValueTooLong)
  {
    NoEarlierCopyIsDistinct(events);
  }

  /**
   * `createEndpoint`. The endpoint gets the caller's merchant and a generated secret;
   * its subscriptions are saved beside it, so the returned DTO (mapped from the
   * endpoint's own, still empty, list) shows no events. A null URL fails the save.
   * At commit the inserts run in order — the endpoint's, then each subscription's:
   * a value too long for its column or a type listed twice fails the commit, which
   * rolls the inserts back.
   */
  function Create(rows: seq<Endpoint>, nextId: nat, merchants: seq<Merchant>, merchantId: Uuid,
                  dto: EndpointDto, secret: string): (c: Change<EndpointDto>)
    ensures c.result.Err? ==> c.rows == rows && c.nextId == nextId
  {
    match MerchantRepository.FindById(merchants, merchantId)
    case None => Change(Err(Throw(ResourceNotFoundException, "Merchant not found")), rows, nextId)
    case Some(merchant) =>
      match WebhookMapper.ToEndpointEntity(dto, merchant.id, secret)
      case Err(ex) => Change(Err(ex), rows, nextId)
      case Ok(e) =>
        var events := if dto.events.Some? then dto.events.value else [];
        if e.url.None? then Change(Err(Throw(DataIntegrityViolation, NullUrlMessage)), rows, nextId)
        else if !EndpointRowFits(e) then Change(Err(ValueTooLong), rows, nextId)
        else if SubscriptionInsertFailure(events, 0).Some? then Change(Err(SubscriptionInsertFailure(events, 0).value), rows, nextId)
        else
          var saved := e.(id := nextId);
          Change(Ok(WebhookMapper.ToEndpointDto(saved)), rows + [saved.(subscriptions := SubscriptionRows(events))], nextId + 1)
  }

  /**
   * Why a creation fails, in the order the handler meets the cases, and that it
   * succeeds exactly when none of them applies.
   */
  lemma CreateRejections(rows: seq<Endpoint>, nextId: nat, merchants: seq<Merchant>, merchantId: Uuid,
                         dto: EndpointDto, secret: string)
    ensures var c := Create(rows, nextId, merchants, merchantId, dto, secret);
            var found := MerchantRepository.FindById(merchants, merchantId).Some?;
            var mapped := WebhookMapper.StatusFromDto(dto.status, WebhookStatus.ACTIVE).Ok?;
            var rowFits := FitsColumn(dto.url, UrlLength) && |secret| <= DefaultLength && FitsColumn(dto.version, DefaultLength);
            var events := if dto.events.Some? then dto.events.value else [];
            var passed := found && mapped && dto.url.Some? && rowFits;
            && (!found ==> c.result == Err(Throw(ResourceNotFoundException, "Merchant not found")))
            && (found && !mapped ==> c.result == Err(WebhookMapper.StatusFromDto(dto.status, WebhookStatus.ACTIVE).error))
            && (found && mapped && dto.url.None? ==> c.result == Err(Throw(DataIntegrityViolation, NullUrlMessage)))
            && (found && mapped && dto.url.Some? && !rowFits ==> c.result == Err(ValueTooLong))
            && (passed && TypesFit(events) && !Seqs.Distinct(events) ==>
                  c.result == Err(Throw(DataIntegrityViolation, DuplicateSubscriptionMessage)))
            && (passed && Seqs.Distinct(events) && !TypesFit(events) ==> c.result == Err(ValueTooLong))
            && (c.result.Ok? <==> passed && Seqs.Distinct(events) && TypesFit(events))
  {
    var m := MerchantRepository.FindById(merchants, merchantId);
    if m.Some? {
      var e := WebhookMapper.ToEndpointEntity(dto, m.value.id, secret);
      if e.Err? {
        assert WebhookMapper.StatusFromDto(dto.status, WebhookStatus.ACTIVE).Err?;
      }
    }
    SubscriptionInsertsSucceed(if dto.events.Some? then dto.events.value else []);
  }

  /** The lookup shared by update, delete and get: missing, or owned by another merchant. */
  function FindOwned(rows: seq<Endpoint>, merchantId: Uuid, endpointId: Uuid): (r: Result<Endpoint, Thrown>)
    ensures r.Ok? <==> exists i :: (0 <= i < |rows| && rows[i].id == endpointId && rows[i].merchantId == merchantId
                                   && EndpointRepository.FindById(rows, endpointId) == Some(rows[i]))
    ensures r.Ok? ==> r.value in rows && r.value.id == endpointId && r.value.merchantId == merchantId
    ensures EndpointRepository.FindById(rows, endpointId).None? ==>
              r == Err(Throw(ResourceNotFoundException, "Webhook endpoint not found"))
    ensures EndpointRepository.FindById(rows, endpointId).Some? && r.Err? ==>
              r == Err(Throw(WebhookException, "Endpoint does not belong to this merchant"))
  {
    match EndpointRepository.FindById(rows, endpointId)
    case None => Err(Throw(ResourceNotFoundException, "Webhook endpoint not found"))
    case Some(e) =>
      if e.merchantId != merchantId then Err(Throw(WebhookException, "Endpoint does not belong to this merchant"))
      else
        assert exists i :: 0 <= i < |rows| && rows[i] == e;
        Ok(e)
  }

  /**
   * `updateEndpoint`: the null-ignoring patch, then the subscription reconciliation,
   * then `save`; the transaction fails at commit when the patch changed the id, or
   * when a value of the endpoint or of a subscription is too long for its column.
   */
  function Update(rows: seq<Endpoint>, nextId: nat, merchantId: Uuid, endpointId: Uuid, dto: EndpointDto): (c: Change<EndpointDto>)
    ensures c.result.Err? ==> c.rows == rows && c.nextId == nextId
  {
    match FindOwned(rows, merchantId, endpointId)
    case Err(ex) => Change(Err(ex), rows, nextId)
    case Ok(e) =>
      match WebhookMapper.UpdateEndpointFromDto(dto, e)
      case Err(ex) => Change(Err(ex), rows, nextId)
      case Ok(patched) =>
        // a DTO carrying another id changes the managed entity's identifier: the commit fails
        if patched.id != e.id then Change(Err(Throw(JpaSystemException, IdAlteredMessage)), rows, nextId)
        else
          var u := patched.(subscriptions := Reconciled(e.subscriptions, dto.events));
          if !EndpointFits(u) then Change(Err(ValueTooLong), rows, nextId)
          else Change(Ok(WebhookMapper.ToEndpointDto(u)), Seqs.ReplaceByKey(rows, EndpointRepository.EndpointId, u), nextId)
  }

  /** `deleteEndpoint`: a soft delete, the row stays with status INACTIVE. */
  function Delete(rows: seq<Endpoint>, nextId: nat, merchantId: Uuid, endpointId: Uuid): (c: Change<()>)
    ensures c.result.Err? ==> c.rows == rows && c.nextId == nextId
  {
    match FindOwned(rows, merchantId, endpointId)
    case Err(ex) => Change(Err(ex), rows, nextId)
    case Ok(e) => Change(Ok(()), Seqs.ReplaceByKey(rows, EndpointRepository.EndpointId, e.(status := WebhookStatus.INACTIVE)), nextId)
  }

  /** `getEndpoint` (without the statistics). */
  function GetEndpoint(rows: seq<Endpoint>, merchantId: Uuid, endpointId: Uuid): (r: Result<EndpointDto, Thrown>)
    ensures r.Ok? <==> FindOwned(rows, merchantId, endpointId).Ok?
    ensures r.Ok? ==> r.value == WebhookMapper.ToEndpointDto(FindOwned(rows, merchantId, endpointId).value)
    ensures r.Err? ==> r.error == FindOwned(rows, merchantId, endpointId).error
  {
    match FindOwned(rows, merchantId, endpointId)
    case Err(ex) => Err(ex)
    case Ok(e) => Ok(WebhookMapper.ToEndpointDto(e))
  }

  /** `listEndpoints` (all pages): the merchant's endpoints, restricted to `status` when it is given. */
  function ListEndpoints(rows: seq<Endpoint>, merchantId: Uuid, status: Option<WebhookStatus>): (r: seq<EndpointDto>)
    ensures forall dto :: dto in r <==> exists e :: e in rows && e.merchantId == merchantId
                                         && (status.Some? ==> e.status == status.value) && dto == WebhookMapper.ToEndpointDto(e)
  {
    var selected := if status.Some? then EndpointRepository.FindByMerchantIdAndStatus(rows, merchantId, status.value)
                    else EndpointRepository.FindByMerchantId(rows, merchantId);
    WebhookMapper.ToEndpointDtoListMembers(selected);
    WebhookMapper.ToEndpointDtoList(selected)
  }

  /** `getActiveEndpointsForEvent`: the fan-out query. */
  function GetActiveEndpointsForEvent(rows: seq<Endpoint>, eventType: string): (r: seq<Endpoint>)
    ensures forall e :: e in r <==> e in rows && EndpointRepository.ReceivesEventType(e, eventType)
  {
    EndpointRepository.FindActiveEndpointsByEventType(rows, eventType)
  }

  // ---------------------------------------------------------------- properties

  /**
   * A created endpoint is stored once, under a fresh id, for the caller's merchant:
   * it is the DTO's mapped entity with the generated secret and the DTO's event
   * types as active subscriptions, and it fits its columns. An ACTIVE one then
   * receives exactly those event types. The response lists no events.
   */
  lemma CreatedEndpointSubscribes(rows: seq<Endpoint>, nextId: nat, merchants: seq<Merchant>, merchantId: Uuid,
                                  dto: EndpointDto, secret: string, t: string)
    requires EndpointRepository.RowsValid(rows, nextId)
    ensures var c := Create(rows, nextId, merchants, merchantId, dto, secret);
            c.result.Ok? ==>
              && EndpointRepository.RowsValid(c.rows, c.nextId)
              && |c.rows| == |rows| + 1 && c.rows[..|rows|] == rows && c.nextId == nextId + 1
              && var e := c.rows[|rows|];
              && e.id == nextId && e.merchantId == merchantId && e.secret == secret && e.url == dto.url
              && e.url.Some? && EndpointFits(e)
              && WebhookMapper.ToEndpointEntity(dto, merchantId, secret).Ok?
              && e == WebhookMapper.ToEndpointEntity(dto, merchantId, secret).value
                        .(id := nextId, subscriptions := SubscriptionRows(if dto.events.Some? then dto.events.value else []))
              && c.result.value.id == Some(nextId) && c.result.value.events == Some([])
              && (EndpointRepository.HasActiveSubscription(e, t) <==> dto.events.Some? && t in dto.events.value)
              && (e.status == WebhookStatus.ACTIVE && dto.events.Some? && t in dto.events.value ==>
                    e in GetActiveEndpointsForEvent(c.rows, t))
  {
    var c := Create(rows, nextId, merchants, merchantId, dto, secret);
    if c.result.Ok? {
      var e := c.rows[|rows|];
      assert rows + [e] == c.rows;
      if dto.events.Some? && t in dto.events.value {
        var events := dto.events.value;
        var i :| 0 <= i < |events| && events[i] == t;
        assert e.subscriptions[i] == Subscription(t, true);
      }
      assert Seqs.UniqueKeys(c.rows, EndpointRepository.EndpointId) by {
        forall i, j | 0 <= i < j < |c.rows|
          ensures EndpointRepository.EndpointId(c.rows[i]) != EndpointRepository.EndpointId(c.rows[j]) {
          if j < |rows| {
            assert EndpointRepository.EndpointId(rows[i]) != EndpointRepository.EndpointId(rows[j]);
          }
        }
      }
    }
  }

  /** Saving a managed endpoint over its row replaces that row only and keeps the table valid. */
  lemma SaveReplacesOneRow(rows: seq<Endpoint>, nextId: nat, e: Endpoint, x: Endpoint)
    requires EndpointRepository.RowsValid(rows, nextId)
    requires e in rows && x.id == e.id
    requires Seqs.Distinct(SubscriptionTypes(x.subscriptions))
    ensures var c := Seqs.ReplaceByKey(rows, EndpointRepository.EndpointId, x);
            && (forall i :: 0 <= i < |rows| && c[i] != rows[i] ==> rows[i] == e)
            && EndpointRepository.RowsValid(c, nextId)
  {
    var k :| 0 <= k < |rows| && rows[k] == e;
    forall i | 0 <= i < |rows| && rows[i].id == e.id ensures rows[i] == e {
      assert EndpointRepository.EndpointId(rows[i]) == EndpointRepository.EndpointId(rows[k]);
    }
    Seqs.ReplaceKeepsUniqueKeys(rows, EndpointRepository.EndpointId, x);
  }

  /**
   * A successful update changes only the caller's endpoint with that id: every other
   * row, and every row of other merchants, is left as it was.
   */
  lemma UpdateChangesOnlyOwnedRow(rows: seq<Endpoint>, nextId: nat, merchantId: Uuid, endpointId: Uuid, dto: EndpointDto)
    requires EndpointRepository.RowsValid(rows, nextId)
    ensures var c := Update(rows, nextId, merchantId, endpointId, dto);
            && |c.rows| == |rows| && c.nextId == nextId
            && (forall i :: 0 <= i < |rows| && c.rows[i] != rows[i] ==> rows[i].id == endpointId && rows[i].merchantId == merchantId)
            && EndpointRepository.RowsValid(c.rows, c.nextId)
  {
    var found := FindOwned(rows, merchantId, endpointId);
    if found.Ok? {
      var e := found.value;
      var patched := WebhookMapper.UpdateEndpointFromDto(dto, e);
      if patched.Ok? && patched.value.id == e.id {
        var u := patched.value.(subscriptions := Reconciled(e.subscriptions, dto.events));
        var k :| 0 <= k < |rows| && rows[k] == e;
        if dto.events.Some? {
          ReconcileSemantics(e.subscriptions, dto.events.value);
        }
        SaveReplacesOneRow(rows, nextId, e, u);
      }
    }
  }

  /**
   * Likewise a successful delete changes only the caller's endpoint with that id, and
   * that row changes only its status, to INACTIVE.
   */
  lemma DeleteChangesOnlyOwnedRow(rows: seq<Endpoint>, nextId: nat, merchantId: Uuid, endpointId: Uuid)
    requires EndpointRepository.RowsValid(rows, nextId)
    ensures var c := Delete(rows, nextId, merchantId, endpointId);
            && |c.rows| == |rows| && c.nextId == nextId
            && (forall i :: 0 <= i < |rows| && c.rows[i] != rows[i] ==> rows[i].id == endpointId && rows[i].merchantId == merchantId)
            && (c.result.Ok? ==> exists k :: 0 <= k < |rows| && rows[k].id == endpointId
                                           && c.rows[k] == rows[k].(status := WebhookStatus.INACTIVE))
            && EndpointRepository.RowsValid(c.rows, c.nextId)
  {
    var found := FindOwned(rows, merchantId, endpointId);
    if found.Ok? {
      var e := found.value;
      var k :| 0 <= k < |rows| && rows[k] == e;
      SaveReplacesOneRow(rows, nextId, e, e.(status := WebhookStatus.INACTIVE));
    }
  }

  /** A deleted endpoint stays in the table, INACTIVE, and no longer receives any event type. */
  lemma DeletedEndpointReceivesNothing(rows: seq<Endpoint>, nextId: nat, merchantId: Uuid, endpointId: Uuid, t: string)
    requires EndpointRepository.RowsValid(rows, nextId)
    ensures var c := Delete(rows, nextId, merchantId, endpointId);
            c.result.Ok? ==>
              && (exists k :: 0 <= k < |rows| && rows[k].id == endpointId
                             && c.rows[k] == rows[k].(status := WebhookStatus.INACTIVE))
              && (forall e :: e in GetActiveEndpointsForEvent(c.rows, t) ==> e.id != endpointId)
  {
    var c := Delete(rows, nextId, merchantId, endpointId);
    if c.result.Ok? {
      var e := FindOwned(rows, merchantId, endpointId).value;
      var k :| 0 <= k < |rows| && rows[k] == e;
      assert c.rows[k].id == endpointId && c.rows[k].status == WebhookStatus.INACTIVE;
      forall x | x in GetActiveEndpointsForEvent(c.rows, t) ensures x.id != endpointId {
        var i :| 0 <= i < |c.rows| && c.rows[i] == x;
        if rows[i].id != endpointId {
          assert x == rows[i];
        }
      }
    }
  }

  /**
   * After a successful update the stored endpoint carries the patch, and when events
   * were given it receives (while ACTIVE) exactly the listed event types; with null
   * events its subscriptions are untouched.
   */
  lemma UpdatedEndpointSubscriptions(rows: seq<Endpoint>, nextId: nat, merchantId: Uuid, endpointId: Uuid,
                                     dto: EndpointDto, t: string)
    requires EndpointRepository.RowsValid(rows, nextId)
    ensures var c := Update(rows, nextId, merchantId, endpointId, dto);
            c.result.Ok? ==>
              var e := FindOwned(rows, merchantId, endpointId).value;
              exists i :: 0 <= i < |c.rows| && c.rows[i].id == endpointId
                && c.rows[i] == WebhookMapper.UpdateEndpointFromDto(dto, e).value.(subscriptions := c.rows[i].subscriptions)
                && c.result.value == WebhookMapper.ToEndpointDto(c.rows[i])
                && (dto.events.None? ==> c.rows[i].subscriptions == e.subscriptions)
                && (dto.events.Some? ==> (EndpointRepository.HasActiveSubscription(c.rows[i], t) <==> t in dto.events.value))
  {
    var c := Update(rows, nextId, merchantId, endpointId, dto);
    if c.result.Ok? {
      var e := FindOwned(rows, merchantId, endpointId).value;
      var k :| 0 <= k < |rows| && rows[k] == e;
      var u := c.rows[k];
      if dto.events.Some? {
        ReconcileSemantics(e.subscriptions, dto.events.value);
        ReconciledActiveTypes(e.subscriptions, dto.events.value, t);
      }
      assert 0 <= k < |c.rows| && c.rows[k].id == endpointId;
    }
  }

  /**
   * A DTO carrying an id other than the endpoint's own makes the update fail with
   * nothing saved: the mapper copies the id onto the managed entity, and Hibernate
   * refuses to flush an entity whose identifier was altered.
   */
  lemma ForeignIdRejected(rows: seq<Endpoint>, nextId: nat, merchantId: Uuid, endpointId: Uuid, dto: EndpointDto)
    requires FindOwned(rows, merchantId, endpointId).Ok?
    requires WebhookMapper.StatusFromDto(dto.status, FindOwned(rows, merchantId, endpointId).value.status).Ok?
    requires dto.id.Some? && dto.id.value != endpointId
    ensures var c := Update(rows, nextId, merchantId, endpointId, dto);
            && c.result == Err(Throw(JpaSystemException, IdAlteredMessage))
            && c.rows == rows && c.nextId == nextId
  {
  }

  /**
   * An update that would store a URL over 500 characters, or subscribe the endpoint
   * to a type over 100, fails at commit with the value-too-long error and changes
   * nothing.
   */
  lemma OverlongUpdateRejected(rows: seq<Endpoint>, nextId: nat, merchantId: Uuid, endpointId: Uuid, dto: EndpointDto, t: string)
    requires EndpointRepository.RowsValid(rows, nextId)
    requires FindOwned(rows, merchantId, endpointId).Ok?
    requires WebhookMapper.StatusFromDto(dto.status, FindOwned(rows, merchantId, endpointId).value.status).Ok?
    requires dto.id.None? || dto.id == Some(endpointId)
    requires (dto.url.Some? && |dto.url.value| > UrlLength) || (dto.events.Some? && t in dto.events.value && |t| > EventTypeLength)
    ensures var c := Update(rows, nextId, merchantId, endpointId, dto);
            && c.result == Err(ValueTooLong)
            && c.rows == rows && c.nextId == nextId
  {
    var e := FindOwned(rows, merchantId, endpointId).value;
    var k :| 0 <= k < |rows| && rows[k] == e;
    if dto.events.Some? && t in dto.events.value && |t| > EventTypeLength {
      ReconcileSemantics(e.subscriptions, dto.events.value);
      var r := Reconciled(e.subscriptions, dto.events);
      assert t in SubscriptionTypes(r);
      var i :| 0 <= i < |r| && SubscriptionTypes(r)[i] == t;
      assert |r[i].eventType| > EventTypeLength;
    }
  }

  /** Update, delete and get agree on who may touch an endpoint, and fail the same way. */
  lemma OwnershipIsShared(rows: seq<Endpoint>, nextId: nat, merchantId: Uuid, endpointId: Uuid, dto: EndpointDto)
    ensures var owned := FindOwned(rows, merchantId, endpointId);
            && (owned.Err? ==> Update(rows, nextId, merchantId, endpointId, dto).result == Err(owned.error))
            && (owned.Err? ==> Delete(rows, nextId, merchantId, endpointId).result == Err(owned.error))
            && (owned.Err? ==> GetEndpoint(rows, merchantId, endpointId) == Err(owned.error))
            && (owned.Ok? ==> Delete(rows, nextId, merchantId, endpointId).result == Ok(()))
  {
  }

  // ---------------------------------------------------------------- the service

  class WebhookService {
    const endpoints: EndpointRepository.EndpointTable
    const merchants: MerchantRepository.MerchantTable

    constructor (endpoints: EndpointRepository.EndpointTable, merchants: MerchantRepository.MerchantTable)
      ensures this.endpoints == endpoints && this.merchants == merchants
    {
      this.endpoints := endpoints;
      this.merchants := merchants;
    }

    /** The subscription loop of `updateEndpoint` on the endpoint's list. */
    static method ReconcileSubscriptions(subs: seq<Subscription>, events: seq<string>) returns (r: seq<Subscription>)
      ensures r == Reconciled(subs, Some(events))
    {
      r := subs;
      var j := 0;
      while j < |subs|
        invariant 0 <= j <= |subs| && |r| == |subs|
        invariant forall k :: 0 <= k < j ==> r[k] == subs[k].(isActive := false)
        invariant forall k :: j <= k < |subs| ==> r[k] == subs[k]
      {
        r := r[j := r[j].(isActive := false)];
        j := j + 1;
      }
      assert r == Deactivated(subs);
      ghost var d := r;
      var i := 0;
      while i < |events|
        invariant 0 <= i <= |events|
        invariant r == AddAll(d, events[..i])
      {
        var existing := Seqs.FirstIndex(r, TypeIs(events[i]));
        if existing.Some? {
          r := r[existing.value := r[existing.value].(isActive := true)];
        } else {
          r := r + [Subscription(events[i], true)];
        }
        assert events[..i + 1][..i] == events[..i];
        i := i + 1;
      }
      assert events[..i] == events;
    }

    /** `createEndpoint`; `randomBytes` are the bytes drawn for the secret. */
    method CreateEndpoint(merchantId: Uuid, dto: EndpointDto, randomBytes: seq<Byte>) returns (r: Result<EndpointDto, Thrown>)
      requires endpoints.Valid()
      modifies endpoints
      ensures endpoints.Valid()
      ensures var c := Create(old(endpoints.rows), old(endpoints.nextId), merchants.rows, merchantId, dto, GenerateSecret(randomBytes));
              r == c.result && endpoints.rows == c.rows && endpoints.nextId == c.nextId
    {
      var merchant := MerchantRepository.FindById(merchants.rows, merchantId);
      if merchant.None? {
        return Err(Throw(ResourceNotFoundException, "Merchant not found"));
      }
      var entity := WebhookMapper.ToEndpointEntity(dto, merchant.value.id, GenerateSecret(randomBytes));
      if entity.Err? {
        return Err(entity.error);
      }
      var events := if dto.events.Some? then dto.events.value else [];
      // the failing commit rolls back both the endpoint and its subscriptions
      if entity.value.url.None? {
        return Err(Throw(DataIntegrityViolation, NullUrlMessage));
      }
      if !EndpointRowFits(entity.value) {
        return Err(ValueTooLong);
      }
      var failure := SubscriptionInsertFailure(events, 0);
      if failure.Some? {
        return Err(failure.value);
      }
      SubscriptionInsertsSucceed(events);
      var saved := endpoints.Insert(entity.value.(subscriptions := SubscriptionRows(events)));
      return Ok(WebhookMapper.ToEndpointDto(saved.(subscriptions := [])));
    }

    /** `updateEndpoint`. */
    method UpdateEndpoint(merchantId: Uuid, endpointId: Uuid, dto: EndpointDto) returns (r: Result<EndpointDto, Thrown>)
      requires endpoints.Valid()
      modifies endpoints
      ensures endpoints.Valid()
      ensures var c := Update(old(endpoints.rows), old(endpoints.nextId), merchantId, endpointId, dto);
              r == c.result && endpoints.rows == c.rows && endpoints.nextId == c.nextId
    {
      var found := FindOwned(endpoints.rows, merchantId, endpointId);
      if found.Err? {
        return Err(found.error);
      }
      var patched := WebhookMapper.UpdateEndpointFromDto(dto, found.value);
      if patched.Err? {
        return Err(patched.error);
      }
      var endpoint := patched.value;
      assert endpoint.subscriptions == found.value.subscriptions;
      if dto.events.Some? {
        ReconcileSemantics(endpoint.subscriptions, dto.events.value);
        var subs := ReconcileSubscriptions(endpoint.subscriptions, dto.events.value);
        endpoint := endpoint.(subscriptions := subs);
      }
      assert endpoint == patched.value.(subscriptions := Reconciled(found.value.subscriptions, dto.events));
      if endpoint.id != found.value.id {
        return Err(Throw(JpaSystemException, IdAlteredMessage));
      }
      if !EndpointFits(endpoint) {
        return Err(ValueTooLong);
      }
      endpoints.Update(endpoint);
      return Ok(WebhookMapper.ToEndpointDto(endpoint));
    }

    /** `deleteEndpoint`. */
    method DeleteEndpoint(merchantId: Uuid, endpointId: Uuid) returns (r: Result<(), Thrown>)
      requires endpoints.Valid()
      modifies endpoints
      ensures endpoints.Valid()
      ensures var c := Delete(old(endpoints.rows), old(endpoints.nextId), merchantId, endpointId);
              r == c.result && endpoints.rows == c.rows && endpoints.nextId == c.nextId
    {
      var found := FindOwned(endpoints.rows, merchantId, endpointId);
      if found.Err? {
        return Err(found.error);
      }
      endpoints.Update(found.value.(status := WebhookStatus.INACTIVE));
      return Ok(());
    }
  }
}
