/**
 * The queries of `WebhookDeliveryRepository` as filters, a sort and a count over
 * the delivery rows, and the table those rows live in.
 */
module DeliveryRepository {
  import opened Wrappers
  import opened Entities
  import Seqs

  function DeliveryId(d: Delivery): Uuid { d.id }

  /** `findByWebhookEventId` (all pages). */
  function FindByWebhookEventId(rows: seq<Delivery>, eventId: Uuid): (r: seq<Delivery>)
    ensures forall d :: d in r <==> d in rows && d.eventId == eventId
  {
    Seqs.Filter(rows, (d: Delivery) => d.eventId == eventId)
  }

  /** `findByWebhookEndpointId` (all pages). */
  function FindByWebhookEndpointId(rows: seq<Delivery>, endpointId: Uuid): (r: seq<Delivery>)
    ensures forall d :: d in r <==> d in rows && d.endpointId == endpointId
  {
    Seqs.Filter(rows, (d: Delivery) => d.endpointId == endpointId)
  }

  /** `nextRetryAt < time` in SQL: a null column never compares. */
  predicate DueBefore(d: Delivery, status: DeliveryStatus, time: DateTime) {
    d.status == status && d.nextRetryAt.Some? && d.nextRetryAt.value < time
  }

  /** `findByStatusAndNextRetryAtBefore`. */
  function FindByStatusAndNextRetryAtBefore(rows: seq<Delivery>, status: DeliveryStatus, time: DateTime): (r: seq<Delivery>)
    ensures forall d :: d in r <==> d in rows && d.status == status && d.nextRetryAt.Some? && d.nextRetryAt.value < time
    ensures forall d :: d in r ==> d.nextRetryAt != None
  {
    Seqs.Filter(rows, (d: Delivery) => DueBefore(d, status, time))
  }

  predicate SortedByAttemptDesc(s: seq<Delivery>) {
    forall i, j :: 0 <= i < j < |s| ==> s[i].attemptNumber >= s[j].attemptNumber
  }

  lemma SortedCons(head: Delivery, rest: seq<Delivery>)
    requires SortedByAttemptDesc(rest)
    requires forall i :: 0 <= i < |rest| ==> head.attemptNumber >= rest[i].attemptNumber
    ensures SortedByAttemptDesc([head] + rest)
  {
    var r := [head] + rest;
    forall i, j | 0 <= i < j < |r| ensures r[i].attemptNumber >= r[j].attemptNumber {
      assert r[j] == rest[j - 1];
      if i > 0 {
        assert r[i] == rest[i - 1];
      }
    }
  }

  /** Inserts `d` into a list sorted by descending attempt number. */
  function InsertByAttemptDesc(d: Delivery, sorted: seq<Delivery>): (r: seq<Delivery>)
    requires SortedByAttemptDesc(sorted)
    ensures SortedByAttemptDesc(r)
    ensures multiset(r) == multiset(sorted) + multiset{d}
    decreases |sorted|
  {
    if sorted == [] || d.attemptNumber >= sorted[0].attemptNumber then
      assert forall i :: 0 <= i < |sorted| ==> sorted[0].attemptNumber >= sorted[i].attemptNumber;
      SortedCons(d, sorted);
      [d] + sorted
    else
      var head, tail := sorted[0], sorted[1..];
      var rest := InsertByAttemptDesc(d, tail);
      assert sorted == [head] + tail;
      forall i | 0 <= i < |rest| ensures head.attemptNumber >= rest[i].attemptNumber {
        assert rest[i] in multiset(rest);
        if rest[i] != d {
          assert rest[i] in tail;
        }
      }
      SortedCons(head, rest);
      [head] + rest
  }

  /** `ORDER BY attemptNumber DESC`. */
  function SortByAttemptDesc(s: seq<Delivery>): (r: seq<Delivery>)
    ensures SortedByAttemptDesc(r)
    ensures multiset(r) == multiset(s)
    decreases |s|
  {
    if s == [] then []
    else
      assert s == [s[0]] + s[1..];
      InsertByAttemptDesc(s[0], SortByAttemptDesc(s[1..]))
  }

  predicate OfPair(d: Delivery, eventId: Uuid, endpointId: Uuid) {
    d.eventId == eventId && d.endpointId == endpointId
  }

  /** `findByEventAndEndpoint`: every attempt of the pair, highest attempt number first. */
  function FindByEventAndEndpoint(rows: seq<Delivery>, eventId: Uuid, endpointId: Uuid): (r: seq<Delivery>)
    ensures forall d :: d in r <==> d in rows && d.eventId == eventId && d.endpointId == endpointId
    ensures SortedByAttemptDesc(r)
    ensures multiset(r) == multiset(Seqs.Filter(rows, (d: Delivery) => OfPair(d, eventId, endpointId)))
  {
    var pair := Seqs.Filter(rows, (d: Delivery) => OfPair(d, eventId, endpointId));
    var r := SortByAttemptDesc(pair);
    forall d ensures d in r <==> d in pair {
      calc <==> {
        d in r;
        d in multiset(r);
        d in multiset(pair);
        d in pair;
      }
    }
    r
  }

  predicate InWindow(d: Delivery, endpointId: Uuid, status: DeliveryStatus, startTime: DateTime, endTime: DateTime) {
    d.endpointId == endpointId && d.status == status && startTime <= d.createdAt <= endTime
  }

  /** `countByEndpointAndStatusAndTimeRange`: BETWEEN includes both ends of the window. */
  function CountByEndpointAndStatusAndTimeRange(rows: seq<Delivery>, endpointId: Uuid, status: DeliveryStatus,
                                                startTime: DateTime, endTime: DateTime): (n: nat)
    ensures n == |Seqs.Filter(rows, (d: Delivery) => InWindow(d, endpointId, status, startTime, endTime))|
    ensures n <= |rows|
  {
    Seqs.CountWhere(rows, (d: Delivery) => InWindow(d, endpointId, status, startTime, endTime))
  }

  /** A row created exactly at either end of the window is counted. */
  lemma WindowIsInclusive(d: Delivery, startTime: DateTime, endTime: DateTime)
    requires d.createdAt == startTime || d.createdAt == endTime
    requires startTime <= endTime
    ensures CountByEndpointAndStatusAndTimeRange([d], d.endpointId, d.status, startTime, endTime) == 1
  {
    assert Seqs.Filter([d], (x: Delivery) => InWindow(x, d.endpointId, d.status, startTime, endTime)) == [d];
  }

  /** The delivery rows and the id generator standing for JPA's generated UUIDs. */
  class DeliveryTable {
    var rows: seq<Delivery>
    var nextId: nat

    ghost predicate Valid()
      reads this
    {
      && Seqs.UniqueKeys(rows, DeliveryId)
      && (forall i :: 0 <= i < |rows| ==> rows[i].id < nextId)
    }

    constructor ()
      ensures Valid() && rows == [] && nextId == 0
    {
      rows := [];
      nextId := 0;
    }

    /** `save` of a new delivery: it gets a fresh id and is appended. */
    method Insert(d: Delivery) returns (saved: Delivery)
      requires Valid()
      modifies this
      ensures Valid()
      ensures saved == d.(id := old(nextId))
      ensures rows == old(rows) + [saved] && nextId == old(nextId) + 1
    {
      saved := d.(id := nextId);
      rows := rows + [saved];
      nextId := nextId + 1;
    }

    /** `save` of a managed delivery: the row with its id is replaced. */
    method Update(d: Delivery)
      requires Valid()
      modifies this
      ensures Valid()
      ensures rows == Seqs.ReplaceByKey(old(rows), DeliveryId, d) && nextId == old(nextId)
    {
      Seqs.ReplaceKeepsUniqueKeys(rows, DeliveryId, d);
      rows := Seqs.ReplaceByKey(rows, DeliveryId, d);
    }

    /** A transaction rolled back: the rows and the generator return to an earlier state. */
    method Restore(savedRows: seq<Delivery>, savedNextId: nat)
      requires Seqs.UniqueKeys(savedRows, DeliveryId)
      requires forall i :: 0 <= i < |savedRows| ==> savedRows[i].id < savedNextId
      modifies this
      ensures Valid() && rows == savedRows && nextId == savedNextId
    {
      rows := savedRows;
      nextId := savedNextId;
    }
  }
}
