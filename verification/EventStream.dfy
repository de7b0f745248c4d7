/** The Redis side of the event bus: one stream, one consumer group, the retry
    counters and the dead-letter stream (app/event_bus/bus.py, consumer.py). */
module EventStream {
  import opened Wrappers

  /** A message id. Redis ids grow with the stream, so the position will do. */
  type Id = nat

  /** The fields of an entry, and what int() makes of a `_retry_count` field:
      None if it is not a number, zero if the field is absent. */
  datatype Payload = Payload(fields: map<string, string>, carriedCount: Option<int>)

  datatype DeadLetter = DeadLetter(id: Id, fields: map<string, string>)

  const MAX_RETRIES := 3
  const PENDING_PAGE := 100
  const NEW_PAGE := 10
  const DLQ_FIELDS: set<string> := {"_dlq_reason", "_dlq_timestamp"}

  /** `handled` is history: the messages whose handler has succeeded. */
  datatype Redis = Redis(
    stream: seq<Payload>,
    delivered: nat,
    pending: set<Id>,
    retries: map<Id, nat>,
    dlq: seq<DeadLetter>,
    handled: set<Id>)

  function RetryCount(r: Redis, m: Id): nat {
    if m in r.retries then r.retries[m] else 0
  }

  /** XPENDING "0" "+": the pending ids of `[first, end)` in stream order. */
  function PendingBetween(r: Redis, first: Id, end: Id): (ids: seq<Id>)
    requires first <= end
    ensures forall m :: m in ids <==> first <= m < end && m in r.pending
    decreases end - first
  {
    if first == end then []
    else (if first in r.pending then [first] else []) + PendingBetween(r, first + 1, end)
  }

  function Page(ids: seq<Id>, size: nat): seq<Id> {
    if |ids| <= size then ids else ids[..size]
  }

  function ListPending(r: Redis): seq<Id> {
    Page(PendingBetween(r, 0, r.delivered), PENDING_PAGE)
  }

  /** XCLAIM answers only for messages that are still pending. */
  function StillPending(r: Redis, ids: seq<Id>): (left: seq<Id>)
    ensures forall m :: m in left <==> (m in ids && m in r.pending)
  {
    if ids == [] then []
    else (if ids[0] in r.pending then [ids[0]] else []) + StillPending(r, ids[1..])
  }

  function NewBatch(r: Redis): seq<Id>
    requires r.delivered <= |r.stream|
  {
    var left := |r.stream| - r.delivered;
    seq(if left < NEW_PAGE then left else NEW_PAGE, i requires i >= 0 => r.delivered + i)
  }

  /** XREADGROUP ">": hand out the next entries and make them pending. */
  function Deliver(r: Redis): Redis
    requires r.delivered <= |r.stream|
  {
    var batch := NewBatch(r);
    r.(delivered := r.delivered + |batch|, pending := r.pending + set m | m in batch)
  }

  function Ack(r: Redis, m: Id): Redis { r.(pending := r.pending - {m}) }
  function Bump(r: Redis, m: Id): Redis { r.(retries := r.retries[m := RetryCount(r, m) + 1]) }
  function Clear(r: Redis, m: Id): Redis { r.(retries := r.retries - {m}) }
  function Handle(r: Redis, m: Id): Redis { r.(handled := r.handled + {m}) }
  function Publish(r: Redis, payload: Payload): Redis { r.(stream := r.stream + [payload]) }

  /** XADD to the dead-letter stream: the payload plus the reason and the time. */
  function Bury(r: Redis, m: Id, reason: string, time: string): Redis
    requires m < |r.stream|
  {
    r.(dlq := r.dlq + [DeadLetter(m, r.stream[m].fields["_dlq_reason" := reason]["_dlq_timestamp" := time])])
  }

  predicate Buried(r: Redis, m: Id) {
    exists i | 0 <= i < |r.dlq| :: r.dlq[i].id == m
  }

  /** How many dead letters a message has. */
  function Entries(dlq: seq<DeadLetter>, m: Id): nat {
    if dlq == [] then 0
    else Entries(dlq[..|dlq| - 1], m) + if dlq[|dlq| - 1].id == m then 1 else 0
  }

  lemma OneMoreEntry(dlq: seq<DeadLetter>, last: DeadLetter, m: Id)
    ensures Entries(dlq + [last], m) == Entries(dlq, m) + if last.id == m then 1 else 0
  {
    assert (dlq + [last])[..|dlq|] == dlq;
  }

  /** A message may leave the pending list: it was handled or dead-lettered. */
  predicate Disposed(r: Redis, m: Id) {
    m in r.handled || Buried(r, m)
  }

  predicate WellFormed(r: Redis) {
    && r.delivered <= |r.stream|
    && (forall m | m in r.pending :: m < r.delivered)
    && (forall m | m in r.handled :: m < r.delivered)
    && forall i | 0 <= i < |r.dlq| ::
         && r.dlq[i].id < r.delivered
         && forall k | k in r.stream[r.dlq[i].id].fields && k !in DLQ_FIELDS ::
              k in r.dlq[i].fields && r.dlq[i].fields[k] == r.stream[r.dlq[i].id].fields[k]
  }

  /** Every entry is undelivered, pending, handled or dead-lettered. */
  predicate NothingLost(r: Redis) {
    forall m | 0 <= m < |r.stream| :: m >= r.delivered || m in r.pending || Disposed(r, m)
  }
}
