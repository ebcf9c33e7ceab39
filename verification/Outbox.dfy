/** The transactional outbox. Two processors poll the same kind of table: the shared one that
    product-service and payment-service use, and order-service's own, which goes through its
    repository. Both publish due rows in batches of ten and settle each row. */
module Outbox {
  import opened Basics
  import opened Messages

  datatype RowStatus = Waiting | Published | Abandoned

  datatype Row = Row(
    topic: string,
    payload: Message,
    status: RowStatus,
    retryCount: nat,
    lastError: Option<string>,
    scheduledAt: int,
    publishedAt: Option<int>)

  type Table = map<string, Row>

  /** What reaches Kafka: the row's topic and payload, under the row's id. */
  datatype Envelope = Envelope(messageId: string, topic: string, payload: Message)

  /** What the outside does during a tick: for each row, the error of the publish attempt, if any,
      and the time at which the row is settled. */
  datatype Outside = Outside(failure: string -> Option<string>, clock: string -> int)

  const BATCH: nat := 10
  const MAX_DELAY_MS: nat := 300_000

  /** Exponential back-off capped at five minutes. */
  function Backoff(retryCount: nat): nat {
    Min(1000 * Pow2(retryCount), MAX_DELAY_MS)
  }

  // ---- the query ----

  predicate Due(row: Row, now: int) {
    row.status == Waiting && row.scheduledAt <= now
  }

  function DueRows(table: Table, now: int, locked: set<string>): set<string> {
    set k | k in table && k !in locked && Due(table[k], now)
  }

  /** The result of the query: due rows nobody else has locked, earliest first, at most ten. */
  ghost predicate IsBatch(table: Table, now: int, locked: set<string>, batch: seq<string>) {
    && |batch| == Min(BATCH, |DueRows(table, now, locked)|)
    && (forall i :: 0 <= i < |batch| ==> batch[i] in DueRows(table, now, locked))
    && (forall i, j :: 0 <= i < j < |batch| ==> batch[i] != batch[j])
    && (forall i, j :: 0 <= i < j < |batch| ==> table[batch[i]].scheduledAt <= table[batch[j]].scheduledAt)
    && (forall i, k :: 0 <= i < |batch| && k in DueRows(table, now, locked) && k !in batch
          ==> table[batch[i]].scheduledAt <= table[k].scheduledAt)
  }

  lemma {:induction false} EarliestExists(table: Table, ks: set<string>) returns (first: string)
    requires ks != {} && forall k :: k in ks ==> k in table
    ensures first in ks && forall k :: k in ks ==> table[first].scheduledAt <= table[k].scheduledAt
    decreases |ks|
  {
    first :| first in ks;
    if ks != {first} {
      assert ks - {first} != {};
      var other := EarliestExists(table, ks - {first});
      if table[other].scheduledAt < table[first].scheduledAt {
        first := other;
      }
    }
  }

  /** The rows picked so far, earliest first, and the rows left. */
  ghost predicate Picked(table: Table, due: set<string>, left: set<string>, batch: seq<string>)
    requires forall k :: k in due ==> k in table
  {
    && left <= due && |batch| + |left| == |due|
    && (forall k :: k in due <==> k in left || k in batch)
    && (forall i :: 0 <= i < |batch| ==> batch[i] in due && batch[i] !in left)
    && (forall i, j :: 0 <= i < j < |batch| ==> batch[i] != batch[j])
    && (forall i, j :: 0 <= i < j < |batch| ==> table[batch[i]].scheduledAt <= table[batch[j]].scheduledAt)
    && (forall i, k :: 0 <= i < |batch| && k in left ==> table[batch[i]].scheduledAt <= table[k].scheduledAt)
  }

  lemma PickedNext(table: Table, due: set<string>, left: set<string>, batch: seq<string>, k: string)
    requires forall x :: x in due ==> x in table
    requires Picked(table, due, left, batch) && k in left
    requires forall j :: j in left ==> table[k].scheduledAt <= table[j].scheduledAt
    ensures Picked(table, due, left - {k}, batch + [k])
  {
    forall x | x in due ensures x in left - {k} || x in batch + [k] {
    }
  }

  lemma {:induction false} PickTheRest(table: Table, due: set<string>, left: set<string>, batch: seq<string>)
      returns (rest: set<string>, full: seq<string>)
    requires forall k :: k in due ==> k in table
    requires left <= due && Picked(table, due, left, batch) && |batch| <= BATCH
    ensures Picked(table, due, rest, full) && |full| <= BATCH && (rest == {} || |full| == BATCH)
    decreases |left|
  {
    if left == {} || |batch| == BATCH {
      rest, full := left, batch;
    } else {
      var k := EarliestExists(table, left);
      PickedNext(table, due, left, batch, k);
      rest, full := PickTheRest(table, due, left - {k}, batch + [k]);
    }
  }

  /** The query always has a result. */
  lemma BatchExists(table: Table, now: int, locked: set<string>) returns (batch: seq<string>)
    ensures IsBatch(table, now, locked, batch)
  {
    var due := DueRows(table, now, locked);
    var rest;
    rest, batch := PickTheRest(table, due, due, []);
  }

  method FindPending(table: Table, now: int, locked: set<string>) returns (batch: seq<string>)
    ensures IsBatch(table, now, locked, batch)
    ensures |batch| <= 10
    ensures forall i :: 0 <= i < |batch| ==> batch[i] in table && batch[i] !in locked && table[batch[i]].status == Waiting
                                             && table[batch[i]].scheduledAt <= now
    ensures |batch| < 10 ==>
              forall k :: k in table && k !in locked && table[k].status == Waiting && table[k].scheduledAt <= now ==> k in batch
  {
    var due := DueRows(table, now, locked);
    var left := due;
    batch := [];
    while left != {} && |batch| < BATCH
      invariant left <= due && |batch| <= BATCH && Picked(table, due, left, batch)
      decreases left
    {
      ghost var first := EarliestExists(table, left);
      var k :| k in left && forall j :: j in left ==> table[k].scheduledAt <= table[j].scheduledAt;
      PickedNext(table, due, left, batch, k);
      left, batch := left - {k}, batch + [k];
    }
  }

  // ---- settling one row ----

  /** The shared processor's update after an attempt. */
  function Settle(row: Row, failure: Option<string>, at: int, maxRetries: int): Row {
    match failure
    case None => row.(status := Published, publishedAt := Some(at))
    case Some(error) =>
      var retryCount := row.retryCount + 1;
      row.(status := if retryCount >= maxRetries then Abandoned else Waiting,
           retryCount := retryCount,
           lastError := Some(error),
           scheduledAt := at + Backoff(retryCount))
  }

  function MarkPublished(row: Row, at: int): Row {
    row.(status := Published, publishedAt := Some(at))
  }

  function ScheduleRetry(row: Row, retryCount: nat, error: string, scheduledAt: int): Row {
    row.(status := Waiting, retryCount := retryCount, lastError := Some(error), scheduledAt := scheduledAt)
  }

  function PermanentlyFail(row: Row, retryCount: nat, error: string): Row {
    row.(status := Abandoned, retryCount := retryCount, lastError := Some(error))
  }

  /** order-service's update after an attempt, through its repository. */
  function SettleByRepository(row: Row, failure: Option<string>, at: int, maxRetries: int): Row {
    match failure
    case None => MarkPublished(row, at)
    case Some(error) =>
      var retryCount := row.retryCount + 1;
      if retryCount >= maxRetries then PermanentlyFail(row, retryCount, error)
      else ScheduleRetry(row, retryCount, error, at + Backoff(retryCount))
  }

  // ---- a whole batch ----

  function SettleAll(table: Table, batch: seq<string>, outside: Outside, maxRetries: int): Table
    requires forall i :: 0 <= i < |batch| ==> batch[i] in table
    decreases |batch|
  {
    if batch == [] then table
    else
      var k := batch[0];
      SettleAll(table[k := Settle(table[k], outside.failure(k), outside.clock(k), maxRetries)], batch[1..], outside, maxRetries)
  }

  function SettleAllByRepository(table: Table, batch: seq<string>, outside: Outside, maxRetries: int): Table
    requires forall i :: 0 <= i < |batch| ==> batch[i] in table
    decreases |batch|
  {
    if batch == [] then table
    else
      var k := batch[0];
      SettleAllByRepository(table[k := SettleByRepository(table[k], outside.failure(k), outside.clock(k), maxRetries)],
                            batch[1..], outside, maxRetries)
  }

  /** The messages a batch publishes, in order. */
  function Sent(table: Table, batch: seq<string>, outside: Outside): seq<Envelope>
    requires forall i :: 0 <= i < |batch| ==> batch[i] in table
    decreases |batch|
  {
    if batch == [] then [] else SentFor(batch[0], table[batch[0]], outside) + Sent(table, batch[1..], outside)
  }

  function SentFor(k: string, row: Row, outside: Outside): seq<Envelope> {
    if outside.failure(k).None? then [Envelope(k, row.topic, row.payload)] else []
  }

  /** The rows of a batch a tick gets to: all of them, unless its transaction dies after some. */
  function Reached(batch: seq<string>, crash: Option<nat>): seq<string> {
    if crash.Some? && crash.value < |batch| then batch[..crash.value] else batch
  }

  /** The processor of product-service and payment-service. `sent` is everything handed to Kafka
      and cannot be rolled back. */
  class SharedProcessor {
    var table: Table
    var sent: seq<Envelope>
    var isProcessing: bool
    const maxRetries: int

    constructor (maxRetries: int)
      ensures table == map[] && sent == [] && !isProcessing && this.maxRetries == maxRetries
    {
      table, sent, isProcessing, this.maxRetries := map[], [], false, maxRetries;
    }

    /** Publish one row and settle it. */
    method PublishOne(k: string, outside: Outside)
      requires k in table
      modifies this`table, this`sent
      ensures table == old(table)[k := Settle(old(table)[k], outside.failure(k), outside.clock(k), maxRetries)]
      ensures sent == old(sent) + SentFor(k, old(table)[k], outside)
    {
      var record := table[k];
      var at := outside.clock(k);
      match outside.failure(k) {
        case None =>
          sent := sent + [Envelope(k, record.topic, record.payload)];
          table := table[k := record.(status := Published, publishedAt := Some(at))];
        case Some(error) =>
          var retryCount := record.retryCount + 1;
          table := table[k := record.(status := if retryCount >= maxRetries then Abandoned else Waiting,
                                      retryCount := retryCount, lastError := Some(error),
                                      scheduledAt := at + Backoff(retryCount))];
      }
    }

    /** The loop over a batch of distinct rows. */
    method PublishAll(batch: seq<string>, outside: Outside)
      requires forall i :: 0 <= i < |batch| ==> batch[i] in table
      requires forall i, j :: 0 <= i < j < |batch| ==> batch[i] != batch[j]
      modifies this`table, this`sent
      ensures table == SettleAll(old(table), batch, outside, maxRetries)
      ensures sent == old(sent) + Sent(old(table), batch, outside)
    {
      ghost var before := table;
      for i := 0 to |batch|
        invariant table.Keys == before.Keys
        invariant forall j :: i <= j < |batch| ==> table[batch[j]] == before[batch[j]]
        invariant SettleAll(before, batch, outside, maxRetries)
                  == SettleAll(table, batch[i..], outside, maxRetries)
        invariant old(sent) + Sent(before, batch, outside) == sent + Sent(before, batch[i..], outside)
      {
        assert batch[i..][1..] == batch[i + 1..];
        AppendAssociates(sent, SentFor(batch[i], before[batch[i]], outside), Sent(before, batch[i + 1..], outside));
        PublishOne(batch[i], outside);
      }
      assert sent + [] == sent;
    }

    /** One tick. A tick that finds another one running does nothing; if the transaction dies,
        the table is as before but the messages published until then are out. */
    method ProcessPending(now: int, locked: set<string>, outside: Outside, crash: Option<nat>) returns (batch: seq<string>)
      modifies this
      ensures isProcessing == old(isProcessing)
      ensures old(isProcessing) ==> table == old(table) && sent == old(sent)
      ensures !old(isProcessing) ==>
                && IsBatch(old(table), now, locked, batch)
                && sent == old(sent) + Sent(old(table), Reached(batch, crash), outside)
                && table == (if crash.None? then SettleAll(old(table), batch, outside, maxRetries) else old(table))
    {
      if isProcessing {
        return [];
      }
      isProcessing := true;
      var before := table;
      batch := FindPending(table, now, locked);
      PublishAll(Reached(batch, crash), outside);
      if crash.Some? {
        table := before;
      }
      isProcessing := false;
    }
  }

  /** order-service's own processor. */
  class OrderProcessor {
    var table: Table
    var sent: seq<Envelope>
    var isProcessing: bool
    const maxRetries: int

    constructor (maxRetries: int)
      ensures table == map[] && sent == [] && !isProcessing && this.maxRetries == maxRetries
    {
      table, sent, isProcessing, this.maxRetries := map[], [], false, maxRetries;
    }

    /** Publish one row and settle it. */
    method PublishOne(k: string, outside: Outside)
      requires k in table
      modifies this`table, this`sent
      ensures table == old(table)[k := SettleByRepository(old(table)[k], outside.failure(k), outside.clock(k), maxRetries)]
      ensures sent == old(sent) + SentFor(k, old(table)[k], outside)
    {
      var record := table[k];
      match outside.failure(k) {
        case None =>
          sent := sent + [Envelope(k, record.topic, record.payload)];
          table := table[k := MarkPublished(record, outside.clock(k))];
        case Some(error) =>
          var retryCount := record.retryCount + 1;
          if retryCount >= maxRetries {
            table := table[k := PermanentlyFail(record, retryCount, error)];
          } else {
            table := table[k := ScheduleRetry(record, retryCount, error, outside.clock(k) + Backoff(retryCount))];
          }
      }
    }

    /** The loop over a batch of distinct rows. */
    method PublishAll(batch: seq<string>, outside: Outside)
      requires forall i :: 0 <= i < |batch| ==> batch[i] in table
      requires forall i, j :: 0 <= i < j < |batch| ==> batch[i] != batch[j]
      modifies this`table, this`sent
      ensures table == SettleAllByRepository(old(table), batch, outside, maxRetries)
      ensures sent == old(sent) + Sent(old(table), batch, outside)
    {
      ghost var before := table;
      for i := 0 to |batch|
        invariant table.Keys == before.Keys
        invariant forall j :: i <= j < |batch| ==> table[batch[j]] == before[batch[j]]
        invariant SettleAllByRepository(before, batch, outside, maxRetries)
                  == SettleAllByRepository(table, batch[i..], outside, maxRetries)
        invariant old(sent) + Sent(before, batch, outside) == sent + Sent(before, batch[i..], outside)
      {
        assert batch[i..][1..] == batch[i + 1..];
        AppendAssociates(sent, SentFor(batch[i], before[batch[i]], outside), Sent(before, batch[i + 1..], outside));
        PublishOne(batch[i], outside);
      }
      assert sent + [] == sent;
    }

    method ProcessPending(now: int, locked: set<string>, outside: Outside, crash: Option<nat>) returns (batch: seq<string>)
      modifies this
      ensures isProcessing == old(isProcessing)
      ensures old(isProcessing) ==> table == old(table) && sent == old(sent)
      ensures !old(isProcessing) ==>
                && IsBatch(old(table), now, locked, batch)
                && sent == old(sent) + Sent(old(table), Reached(batch, crash), outside)
                && table == (if crash.None? then SettleAllByRepository(old(table), batch, outside, maxRetries) else old(table))
    {
      if isProcessing {
        return [];
      }
      isProcessing := true;
      var before := table;
      batch := FindPending(table, now, locked);
      PublishAll(Reached(batch, crash), outside);
      if crash.Some? {
        table := before;
      }
      isProcessing := false;
    }
  }
}
