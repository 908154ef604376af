/**
 * The queries of `WebhookEventRepository` over the event rows, its in-place
 * `updateStatus`, and the table those rows live in.
 */
module EventRepository {
  import opened Wrappers
  import opened Entities
  import Seqs

  function EventId(e: Event): Uuid { e.id }

  /** `findById` (inherited). */
  function FindById(rows: seq<Event>, id: Uuid): (r: Option<Event>)
    ensures r.Some? <==> exists i :: 0 <= i < |rows| && rows[i].id == id
    ensures r.Some? ==> r.value in rows && r.value.id == id
  {
    match Seqs.FirstIndex(rows, (e: Event) => e.id == id)
    case None => None
    case Some(i) => Some(rows[i])
  }

  /** The `idempotency_key` column is unique (nulls excepted). */
  ghost predicate UniqueIdempotencyKeys(rows: seq<Event>) {
    forall i, j :: 0 <= i < j < |rows| && rows[i].idempotencyKey.Some? ==> rows[i].idempotencyKey != rows[j].idempotencyKey
  }

  predicate HasKey(e: Event, key: string) {
    e.idempotencyKey == Some(key)
  }

  /** The selection predicate of the idempotency-key query. */
  function KeyIs(key: string): Event -> bool {
    (e: Event) => HasKey(e, key)
  }

  /** `findByIdempotencyKey`. */
  function FindByIdempotencyKey(rows: seq<Event>, key: string): (r: Result<Option<Event>, Thrown>)
    ensures r == Ok(None) <==> forall i :: 0 <= i < |rows| ==> rows[i].idempotencyKey != Some(key)
    ensures r.Ok? && r.value.Some? ==> r.value.value in rows && r.value.value.idempotencyKey == Some(key)
  {
    var matches := Seqs.Filter(rows, KeyIs(key));
    assert (forall i :: 0 <= i < |rows| ==> rows[i].idempotencyKey != Some(key)) <==> matches == [] by {
      if matches != [] { assert matches[0] in rows; }
      if i :| 0 <= i < |rows| && rows[i].idempotencyKey == Some(key) { assert rows[i] in matches; }
    }
    SingleResult(matches)
  }

  /** Events whose key field is `key`: at most one while keys are unique. */
  lemma {:induction false} AtMostOneWithKey(rows: seq<Event>, key: string)
    requires UniqueIdempotencyKeys(rows)
    ensures |Seqs.Filter(rows, KeyIs(key))| <= 1
    decreases |rows|
  {
    if rows != [] {
      var p := KeyIs(key);
      assert UniqueIdempotencyKeys(rows[1..]);
      AtMostOneWithKey(rows[1..], key);
      if p(rows[0]) {
        // a second match would share rows[0]'s key
        Seqs.FilterNone(rows[1..], p);
      }
    }
  }

  /** Under the unique constraint the lookup never fails with a "non-unique result" error. */
  lemma IdempotencyLookupIsSingle(rows: seq<Event>, key: string)
    requires UniqueIdempotencyKeys(rows)
    ensures FindByIdempotencyKey(rows, key).Ok?
  {
    AtMostOneWithKey(rows, key);
  }

  /** `findByStatus` (all pages). */
  function FindByStatus(rows: seq<Event>, status: EventStatus): (r: seq<Event>)
    ensures forall e :: e in r <==> e in rows && e.status == status
  {
    Seqs.Filter(rows, (e: Event) => e.status == status)
  }

  /** `findByEventType` (all pages). */
  function FindByEventType(rows: seq<Event>, eventType: string): (r: seq<Event>)
    ensures forall e :: e in r <==> e in rows && e.eventType == eventType
  {
    Seqs.Filter(rows, (e: Event) => e.eventType == eventType)
  }

  /** `findByProvider` (all pages). */
  function FindByProvider(rows: seq<Event>, provider: string): (r: seq<Event>)
    ensures forall e :: e in r <==> e in rows && e.provider == provider
  {
    Seqs.Filter(rows, (e: Event) => e.provider == provider)
  }

  predicate Stale(e: Event, cutoffTime: DateTime) {
    e.status == EventStatus.PENDING && e.createdAt < cutoffTime
  }

  /** `findStaleEvents`: PENDING events created strictly before the cutoff. */
  function FindStaleEvents(rows: seq<Event>, cutoffTime: DateTime): (r: seq<Event>)
    ensures forall e :: e in r <==> e in rows && e.status == EventStatus.PENDING && e.createdAt < cutoffTime
  {
    Seqs.Filter(rows, (e: Event) => Stale(e, cutoffTime))
  }

  predicate StatusInWindow(e: Event, status: EventStatus, startTime: DateTime, endTime: DateTime) {
    e.status == status && startTime <= e.createdAt <= endTime
  }

  /** `countByStatusAndTimeRange`: BETWEEN includes both ends of the window. */
  function CountByStatusAndTimeRange(rows: seq<Event>, status: EventStatus, startTime: DateTime, endTime: DateTime): (n: nat)
    ensures n == |Seqs.Filter(rows, (e: Event) => StatusInWindow(e, status, startTime, endTime))|
    ensures n <= |rows|
  {
    Seqs.CountWhere(rows, (e: Event) => StatusInWindow(e, status, startTime, endTime))
  }

  /** The rows after `UPDATE ... SET status = :status WHERE id = :id`. */
  function WithStatus(rows: seq<Event>, id: Uuid, status: EventStatus): (r: seq<Event>)
    ensures |r| == |rows|
    ensures forall i :: 0 <= i < |rows| && rows[i].id == id ==> r[i] == rows[i].(status := status)
    ensures forall i :: 0 <= i < |rows| && rows[i].id != id ==> r[i] == rows[i]
  {
    seq(|rows|, i requires 0 <= i < |rows| => if rows[i].id == id then rows[i].(status := status) else rows[i])
  }

  /** The status update touches nothing but statuses: ids and keys stay as they were. */
  lemma WithStatusKeepsKeys(rows: seq<Event>, id: Uuid, status: EventStatus)
    ensures forall i :: 0 <= i < |rows| ==> WithStatus(rows, id, status)[i].id == rows[i].id
    ensures forall i :: 0 <= i < |rows| ==> WithStatus(rows, id, status)[i].idempotencyKey == rows[i].idempotencyKey
    ensures forall i :: 0 <= i < |rows| ==> WithStatus(rows, id, status)[i].(status := rows[i].status) == rows[i]
  {
  }

  /** Updating the status of a just-appended row with a fresh id changes that row only. */
  lemma WithStatusOfAppended(rows: seq<Event>, e: Event, status: EventStatus)
    requires forall i :: 0 <= i < |rows| ==> rows[i].id != e.id
    ensures WithStatus(rows + [e], e.id, status) == rows + [e.(status := status)]
  {
    var r := WithStatus(rows + [e], e.id, status);
    forall i | 0 <= i < |rows| ensures r[i] == rows[i] {
      assert (rows + [e])[i] == rows[i];
    }
  }

  /** The event rows and the id generator standing for JPA's generated UUIDs. */
  class EventTable {
    var rows: seq<Event>
    var nextId: nat

    ghost predicate Valid()
      reads this
    {
      && Seqs.UniqueKeys(rows, EventId)
      && (forall i :: 0 <= i < |rows| ==> rows[i].id < nextId)
      && UniqueIdempotencyKeys(rows)
    }

    constructor ()
      ensures Valid() && rows == [] && nextId == 0
    {
      rows := [];
      nextId := 0;
    }

    /** `save` of a new event; the unique key constraint admits it only with a fresh key. */
    method Insert(e: Event) returns (saved: Event)
      requires Valid()
      requires e.idempotencyKey.Some? ==> forall i :: 0 <= i < |rows| ==> rows[i].idempotencyKey != e.idempotencyKey
      modifies this
      ensures Valid()
      ensures saved == e.(id := old(nextId))
      ensures rows == old(rows) + [saved] && nextId == old(nextId) + 1
    {
      saved := e.(id := nextId);
      rows := rows + [saved];
      nextId := nextId + 1;
    }

    /** The rollback of a failed commit: the rows are those before the transaction; drawn ids stay drawn. */
    method RollBack(before: seq<Event>)
      requires Valid()
      requires Seqs.UniqueKeys(before, EventId) && UniqueIdempotencyKeys(before)
      requires forall i :: 0 <= i < |before| ==> before[i].id < nextId
      modifies this
      ensures Valid() && rows == before && nextId == old(nextId)
    {
      rows := before;
    }

    /**
     * A status change of a stored event: the `@Modifying` `updateStatus` query, and
     * equally the `save` of the managed event after `setStatus`.
     */
    method UpdateStatus(id: Uuid, status: EventStatus)
      requires Valid()
      modifies this
      ensures Valid()
      ensures rows == WithStatus(old(rows), id, status) && nextId == old(nextId)
    {
      WithStatusKeepsKeys(rows, id, status);
      rows := WithStatus(rows, id, status);
    }
  }
}
