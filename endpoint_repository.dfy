/**
 * The queries of `WebhookEndpointRepository` as filters and counts over the
 * endpoint rows, and the table those rows live in.
 */
module EndpointRepository {
  import opened Wrappers
  import opened Entities
  import Seqs

  function EndpointId(e: Endpoint): Uuid { e.id }

  /** `findById` (inherited) and `findByIdWithMerchant` (the same lookup with the merchant join fetched). */
  function FindById(rows: seq<Endpoint>, id: Uuid): (r: Option<Endpoint>)
    ensures r.Some? <==> exists i :: 0 <= i < |rows| && rows[i].id == id
    ensures r.Some? ==> r.value in rows && r.value.id == id
  {
    match Seqs.FirstIndex(rows, (e: Endpoint) => e.id == id)
    case None => None
    case Some(i) => Some(rows[i])
  }

  /** With unique ids the lookup finds exactly the row carrying the id. */
  lemma FindByIdUnique(rows: seq<Endpoint>, i: nat)
    requires Seqs.UniqueKeys(rows, EndpointId)
    requires i < |rows|
    ensures FindById(rows, rows[i].id) == Some(rows[i])
  {
    var r := FindById(rows, rows[i].id);
    var k :| 0 <= k < |rows| && rows[k] == r.value;
    assert EndpointId(rows[k]) == EndpointId(rows[i]);
  }

  /** `findByMerchantId` (all pages). */
  function FindByMerchantId(rows: seq<Endpoint>, merchantId: Uuid): (r: seq<Endpoint>)
    ensures forall e :: e in r <==> e in rows && e.merchantId == merchantId
  {
    Seqs.Filter(rows, (e: Endpoint) => e.merchantId == merchantId)
  }

  predicate MerchantAndStatus(e: Endpoint, merchantId: Uuid, status: WebhookStatus) {
    e.merchantId == merchantId && e.status == status
  }

  /** `findByMerchantIdAndStatus` (all pages). */
  function FindByMerchantIdAndStatus(rows: seq<Endpoint>, merchantId: Uuid, status: WebhookStatus): (r: seq<Endpoint>)
    ensures forall e :: e in r <==> e in rows && e.merchantId == merchantId && e.status == status
  {
    Seqs.Filter(rows, (e: Endpoint) => MerchantAndStatus(e, merchantId, status))
  }

  /** `findByStatus`. */
  function FindByStatus(rows: seq<Endpoint>, status: WebhookStatus): (r: seq<Endpoint>)
    ensures forall e :: e in r <==> e in rows && e.status == status
  {
    Seqs.Filter(rows, (e: Endpoint) => e.status == status)
  }

  /** `countByMerchantIdAndStatus`: the number of rows the matching finder returns. */
  function CountByMerchantIdAndStatus(rows: seq<Endpoint>, merchantId: Uuid, status: WebhookStatus): (n: nat)
    ensures n == |FindByMerchantIdAndStatus(rows, merchantId, status)|
    ensures n <= |rows|
  {
    Seqs.CountWhere(rows, (e: Endpoint) => MerchantAndStatus(e, merchantId, status))
  }

  /** Some subscription of `e` is for `eventType` and is active (the JOIN condition). */
  predicate HasActiveSubscription(e: Endpoint, eventType: string) {
    exists i :: 0 <= i < |e.subscriptions| && e.subscriptions[i].eventType == eventType && e.subscriptions[i].isActive
  }

  predicate ReceivesEventType(e: Endpoint, eventType: string) {
    e.status == WebhookStatus.ACTIVE && HasActiveSubscription(e, eventType)
  }

  /**
   * `findActiveEndpointsByEventType`: the ACTIVE endpoints with an active
   * subscription to `eventType`, each once (DISTINCT). The query has no ORDER BY;
   * the model returns them in table order.
   */
  function FindActiveEndpointsByEventType(rows: seq<Endpoint>, eventType: string): (r: seq<Endpoint>)
    ensures forall e :: e in r <==> e in rows && e.status == WebhookStatus.ACTIVE && HasActiveSubscription(e, eventType)
  {
    Seqs.Filter(rows, (e: Endpoint) => ReceivesEventType(e, eventType))
  }

  /** DISTINCT: when ids are unique, no endpoint occurs twice in the fan-out list. */
  lemma FanOutDistinct(rows: seq<Endpoint>, eventType: string)
    requires Seqs.UniqueKeys(rows, EndpointId)
    ensures Seqs.UniqueKeys(FindActiveEndpointsByEventType(rows, eventType), EndpointId)
  {
    Seqs.FilterKeepsUniqueKeys(rows, (e: Endpoint) => ReceivesEventType(e, eventType), EndpointId);
  }

  /** An endpoint without subscriptions never receives any event type. */
  lemma NoSubscriptionsExcluded(rows: seq<Endpoint>, e: Endpoint, eventType: string)
    requires e.subscriptions == []
    ensures e !in FindActiveEndpointsByEventType(rows, eventType)
  {
  }

  /** Ids are primary keys below the generator, and (endpoint, event_type) is unique among subscriptions. */
  ghost predicate RowsValid(rows: seq<Endpoint>, nextId: nat) {
    && Seqs.UniqueKeys(rows, EndpointId)
    && (forall i :: 0 <= i < |rows| ==> rows[i].id < nextId)
    && (forall i :: 0 <= i < |rows| ==> Seqs.Distinct(SubscriptionTypes(rows[i].subscriptions)))
  }

  /** The endpoint rows and the id generator standing for JPA's generated UUIDs. */
  class EndpointTable {
    var rows: seq<Endpoint>
    var nextId: nat

    ghost predicate Valid()
      reads this
    {
      RowsValid(rows, nextId)
    }

    constructor ()
      ensures Valid() && rows == [] && nextId == 0
    {
      rows := [];
      nextId := 0;
    }

    /** `save` of a new endpoint: it gets a fresh id and is appended. */
    method Insert(e: Endpoint) returns (saved: Endpoint)
      requires Valid()
      requires Seqs.Distinct(SubscriptionTypes(e.subscriptions))
      modifies this
      ensures Valid()
      ensures saved == e.(id := old(nextId))
      ensures rows == old(rows) + [saved] && nextId == old(nextId) + 1
    {
      saved := e.(id := nextId);
      rows := rows + [saved];
      nextId := nextId + 1;
    }

    /** `save` of a managed endpoint: the row with its id is replaced. */
    method Update(e: Endpoint)
      requires Valid()
      requires Seqs.Distinct(SubscriptionTypes(e.subscriptions))
      modifies this
      ensures Valid()
      ensures rows == Seqs.ReplaceByKey(old(rows), EndpointId, e) && nextId == old(nextId)
    {
      Seqs.ReplaceKeepsUniqueKeys(rows, EndpointId, e);
      rows := Seqs.ReplaceByKey(rows, EndpointId, e);
    }
  }
}
