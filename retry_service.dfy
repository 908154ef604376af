/**
 * `RetryService`: the scheduled sweep that re-delivers every attempt whose retry
 * time has passed.
 */
module RetryService {
  import opened Wrappers
  import opened Entities
  import Seqs
  import SignatureService
  import DeliveryRepository
  import DeliveryService

  /**
   * The deliveries of one sweep, call by call: the k-th call gets the k-th breaker
   * decision, transport and clock. Each call starts from the table the previous one left.
   */
  function Sweep(rows: seq<Delivery>, nextId: nat, events: seq<Event>, endpoints: seq<Endpoint>,
                 crypto: SignatureService.Crypto, due: seq<Delivery>, k: nat,
                 permits: nat -> bool, transports: nat -> (DeliveryService.Request -> DeliveryService.SendOutcome),
                 clocks: nat -> DeliveryService.Clock): (t: DeliveryService.Transition<seq<DeliveryService.DeliveryResult>>)
    ensures |t.result| == |due|
    decreases |due|
  {
    if due == [] then DeliveryService.Transition([], rows, nextId)
    else
      var first := DeliveryService.DeliverWebhookSpec(rows, nextId, events, endpoints, due[0].eventId, due[0].endpointId,
                                                      crypto, permits(k), transports(k), clocks(k));
      var rest := Sweep(first.rows, first.nextId, events, endpoints, crypto, due[1..], k + 1, permits, transports, clocks);
      DeliveryService.Transition([first.result] + rest.result, rest.rows, rest.nextId)
  }

  /** The attempts `processRetries` picks up at `now`: RETRY_SCHEDULED with a retry time strictly before it. */
  function Due(rows: seq<Delivery>, now: DateTime): (r: seq<Delivery>)
    ensures forall d :: d in r <==> (d in rows && d.status == DeliveryStatus.RETRY_SCHEDULED
                                     && d.nextRetryAt.Some? && d.nextRetryAt.value < now)
  {
    DeliveryRepository.FindByStatusAndNextRetryAtBefore(rows, DeliveryStatus.RETRY_SCHEDULED, now)
  }

  /** `processRetries`: one delivery for every due attempt, in the order the query returned them. */
  function ProcessRetriesSpec(rows: seq<Delivery>, nextId: nat, events: seq<Event>, endpoints: seq<Endpoint>,
                              crypto: SignatureService.Crypto, now: DateTime,
                              permits: nat -> bool, transports: nat -> (DeliveryService.Request -> DeliveryService.SendOutcome),
                              clocks: nat -> DeliveryService.Clock): (t: DeliveryService.Transition<seq<DeliveryService.DeliveryResult>>)
    ensures |t.result| == |Due(rows, now)|
  {
    Sweep(rows, nextId, events, endpoints, crypto, Due(rows, now), 0, permits, transports, clocks)
  }

  /**
   * A sweep only appends: the rows before it are kept as they were, the table stays
   * valid, there is at most one new row per due attempt, and each new row belongs
   * to the event/endpoint pair of one of them.
   */
  lemma {:induction false} SweepAppends(rows: seq<Delivery>, nextId: nat, events: seq<Event>, endpoints: seq<Endpoint>,
                                        crypto: SignatureService.Crypto, due: seq<Delivery>, k: nat,
                                        permits: nat -> bool, transports: nat -> (DeliveryService.Request -> DeliveryService.SendOutcome),
                                        clocks: nat -> DeliveryService.Clock)
    requires DeliveryService.TableValid(rows, nextId)
    ensures var t := Sweep(rows, nextId, events, endpoints, crypto, due, k, permits, transports, clocks);
            && DeliveryService.TableValid(t.rows, t.nextId)
            && |rows| <= |t.rows| <= |rows| + |due|
            && t.rows[..|rows|] == rows
            && forall i :: |rows| <= i < |t.rows| ==>
                 exists d :: d in due && t.rows[i].eventId == d.eventId && t.rows[i].endpointId == d.endpointId
    decreases |due|
  {
    if due != [] {
      var first := DeliveryService.DeliverWebhookSpec(rows, nextId, events, endpoints, due[0].eventId, due[0].endpointId,
                                                      crypto, permits(k), transports(k), clocks(k));
      DeliveryService.DeliverWebhookExtends(rows, nextId, events, endpoints, due[0].eventId, due[0].endpointId,
                                            crypto, permits(k), transports(k), clocks(k));
      SweepAppends(first.rows, first.nextId, events, endpoints, crypto, due[1..], k + 1, permits, transports, clocks);
      var t := Sweep(rows, nextId, events, endpoints, crypto, due, k, permits, transports, clocks);
      assert t.rows[..|rows|] == t.rows[..|first.rows|][..|rows|];
      forall i | |rows| <= i < |t.rows|
        ensures exists d :: d in due && t.rows[i].eventId == d.eventId && t.rows[i].endpointId == d.endpointId
      {
        if i < |first.rows| {
          assert t.rows[i] == first.rows[i];
          assert due[0] in due;
        } else {
          var d :| d in due[1..] && t.rows[i].eventId == d.eventId && t.rows[i].endpointId == d.endpointId;
          assert d in due;
        }
      }
    }
  }

  /**
   * The sweep never touches the attempts it retries: each stays RETRY_SCHEDULED with
   * its past retry time, so every later sweep picks it up again.
   */
  lemma RetriedAttemptsStayDue(rows: seq<Delivery>, nextId: nat, events: seq<Event>, endpoints: seq<Endpoint>,
                               crypto: SignatureService.Crypto, now: DateTime, later: DateTime,
                               permits: nat -> bool, transports: nat -> (DeliveryService.Request -> DeliveryService.SendOutcome),
                               clocks: nat -> DeliveryService.Clock)
    requires DeliveryService.TableValid(rows, nextId)
    requires now <= later
    ensures var t := ProcessRetriesSpec(rows, nextId, events, endpoints, crypto, now, permits, transports, clocks);
            forall d :: d in Due(rows, now) ==> d in Due(t.rows, later)
  {
    var t := ProcessRetriesSpec(rows, nextId, events, endpoints, crypto, now, permits, transports, clocks);
    SweepAppends(rows, nextId, events, endpoints, crypto, Due(rows, now), 0, permits, transports, clocks);
    forall d | d in Due(rows, now) ensures d in Due(t.rows, later) {
      var i :| 0 <= i < |rows| && rows[i] == d;
      assert t.rows[..|rows|][i] == d;
    }
  }

  /**
   * With nothing due — no RETRY_SCHEDULED row, or every one of them due at `now` or
   * later — a sweep changes nothing.
   */
  lemma NothingDueNothingChanges(rows: seq<Delivery>, nextId: nat, events: seq<Event>, endpoints: seq<Endpoint>,
                                 crypto: SignatureService.Crypto, now: DateTime,
                                 permits: nat -> bool, transports: nat -> (DeliveryService.Request -> DeliveryService.SendOutcome),
                                 clocks: nat -> DeliveryService.Clock)
    requires Due(rows, now) == []
    ensures var t := ProcessRetriesSpec(rows, nextId, events, endpoints, crypto, now, permits, transports, clocks);
            t.rows == rows && t.nextId == nextId && t.result == []
  {
  }

  class RetryService {
    const deliveries: DeliveryRepository.DeliveryTable
    const deliveryService: DeliveryService.DeliveryService

    constructor (deliveryService: DeliveryService.DeliveryService)
      ensures this.deliveryService == deliveryService && this.deliveries == deliveryService.deliveries
    {
      this.deliveryService := deliveryService;
      this.deliveries := deliveryService.deliveries;
    }

    /** `processRetries` at `now`; the k-th delivery of the sweep runs with `permits(k)`, `transports(k)`, `clocks(k)`. */
    method ProcessRetries(now: DateTime, permits: nat -> bool,
                          transports: nat -> (DeliveryService.Request -> DeliveryService.SendOutcome),
                          clocks: nat -> DeliveryService.Clock)
      requires deliveries.Valid() && deliveryService.deliveries == deliveries
      modifies deliveries
      ensures deliveries.Valid()
      ensures var t := ProcessRetriesSpec(old(deliveries.rows), old(deliveries.nextId), deliveryService.events.rows,
                                          deliveryService.endpoints.rows, deliveryService.crypto, now, permits, transports, clocks);
              deliveries.rows == t.rows && deliveries.nextId == t.nextId
    {
      var due := DeliveryRepository.FindByStatusAndNextRetryAtBefore(deliveries.rows, DeliveryStatus.RETRY_SCHEDULED, now);
      ghost var events, endpoints, crypto := deliveryService.events.rows, deliveryService.endpoints.rows, deliveryService.crypto;
      ghost var goal := Sweep(deliveries.rows, deliveries.nextId, events, endpoints, crypto, due, 0, permits, transports, clocks);
      var i := 0;
      while i < |due|
        invariant 0 <= i <= |due|
        invariant deliveries.Valid()
        invariant var rest := Sweep(deliveries.rows, deliveries.nextId, events, endpoints, crypto, due[i..], i, permits, transports, clocks);
                  rest.rows == goal.rows && rest.nextId == goal.nextId
      {
        assert due[i..][1..] == due[i + 1..];
        var _ := deliveryService.DeliverWebhook(due[i].eventId, due[i].endpointId, permits(i), transports(i), clocks(i));
        i := i + 1;
      }
    }
  }
}
