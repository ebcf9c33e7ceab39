/** What the outbox processors guarantee: nothing is marked published that was not sent, every
    row is settled in finitely many ticks, and the two processors do the same. */
module OutboxProperties {
  import opened Basics
  import opened Messages
  import opened Outbox

  predicate Distinct(batch: seq<string>) {
    forall i, j :: 0 <= i < j < |batch| ==> batch[i] != batch[j]
  }

  predicate AllIn(batch: seq<string>, table: Table) {
    forall i :: 0 <= i < |batch| ==> batch[i] in table
  }

  // ---- a tick settles its batch and nothing else ----

  lemma {:induction false} SettledRows(table: Table, batch: seq<string>, outside: Outside, maxRetries: int)
    requires AllIn(batch, table) && Distinct(batch)
    ensures var after := SettleAll(table, batch, outside, maxRetries);
            && after.Keys == table.Keys
            && forall k :: k in table ==>
                 after[k] == if k in batch then Settle(table[k], outside.failure(k), outside.clock(k), maxRetries)
                             else table[k]
    decreases |batch|
  {
    if batch != [] {
      var k, rest := batch[0], batch[1..];
      SettledRows(table[k := Settle(table[k], outside.failure(k), outside.clock(k), maxRetries)], rest, outside, maxRetries);
      assert k !in rest;
      assert batch == [k] + rest;
    }
  }

  lemma {:induction false} SettledRowsByRepository(table: Table, batch: seq<string>, outside: Outside, maxRetries: int)
    requires AllIn(batch, table) && Distinct(batch)
    ensures var after := SettleAllByRepository(table, batch, outside, maxRetries);
            && after.Keys == table.Keys
            && forall k :: k in table ==>
                 after[k] == if k in batch then SettleByRepository(table[k], outside.failure(k), outside.clock(k), maxRetries)
                             else table[k]
    decreases |batch|
  {
    if batch != [] {
      var k, rest := batch[0], batch[1..];
      SettledRowsByRepository(table[k := SettleByRepository(table[k], outside.failure(k), outside.clock(k), maxRetries)],
                              rest, outside, maxRetries);
      assert k !in rest;
      assert batch == [k] + rest;
    }
  }

  // ---- the two processors ----

  /** Equal in everything but the schedule of rows that are given up for good. */
  predicate AgreeOn(a: Row, b: Row) {
    && b == a.(scheduledAt := b.scheduledAt)
    && (a.status != Abandoned ==> b.scheduledAt == a.scheduledAt)
  }

  predicate Agree(a: Table, b: Table) {
    a.Keys == b.Keys && forall k :: k in a ==> AgreeOn(a[k], b[k])
  }

  /** Tables that agree have the same due rows, so a batch of one is a batch of the other. */
  lemma SameBatches(a: Table, b: Table, now: int, locked: set<string>, batch: seq<string>)
    requires Agree(a, b)
    ensures IsBatch(a, now, locked, batch) <==> IsBatch(b, now, locked, batch)
  {
    assert DueRows(a, now, locked) == DueRows(b, now, locked);
  }

  lemma {:induction false} SameSent(a: Table, b: Table, batch: seq<string>, outside: Outside)
    requires Agree(a, b) && AllIn(batch, a) && AllIn(batch, b)
    ensures Sent(a, batch, outside) == Sent(b, batch, outside)
    decreases |batch|
  {
    if batch != [] {
      SameSent(a, b, batch[1..], outside);
    }
  }

  /** One tick of either processor, from tables that agree, with the same batch, the same publish
      outcomes and the same clock: the same messages go out and the tables agree again. */
  lemma ProcessorsAgree(a: Table, b: Table, now: int, locked: set<string>, batch: seq<string>, outside: Outside, maxRetries: int)
    requires Agree(a, b) && IsBatch(a, now, locked, batch)
    ensures AllIn(batch, a) && AllIn(batch, b)
    ensures IsBatch(b, now, locked, batch)
    ensures Sent(a, batch, outside) == Sent(b, batch, outside)
    ensures Agree(SettleAll(a, batch, outside, maxRetries), SettleAllByRepository(b, batch, outside, maxRetries))
  {
    hide SettleAll, SettleAllByRepository;
    SameBatches(a, b, now, locked, batch);
    SameSent(a, b, batch, outside);
    TablesAgree(a, b, batch, outside, maxRetries);
  }

  lemma RowsAgree(a: Row, b: Row, failure: Option<string>, at: int, maxRetries: int)
    requires AgreeOn(a, b) && a.status == Waiting
    ensures AgreeOn(Settle(a, failure, at, maxRetries), SettleByRepository(b, failure, at, maxRetries))
  {
  }

  lemma TablesAgree(a: Table, b: Table, batch: seq<string>, outside: Outside, maxRetries: int)
    requires Agree(a, b) && AllIn(batch, a) && AllIn(batch, b) && Distinct(batch)
    requires forall i :: 0 <= i < |batch| ==> a[batch[i]].status == Waiting
    ensures Agree(SettleAll(a, batch, outside, maxRetries), SettleAllByRepository(b, batch, outside, maxRetries))
  {
    hide Settle, SettleByRepository, SettleAll, SettleAllByRepository;
    SettledRows(a, batch, outside, maxRetries);
    SettledRowsByRepository(b, batch, outside, maxRetries);
    forall k | k in a
      ensures AgreeOn(SettleAll(a, batch, outside, maxRetries)[k], SettleAllByRepository(b, batch, outside, maxRetries)[k])
    {
      if k in batch {
        RowsAgree(a[k], b[k], outside.failure(k), outside.clock(k), maxRetries);
      }
    }
  }

  /** The schedules of a given-up row do differ: the shared processor pushes it into the future,
      order-service leaves it. They coincide exactly when the row was not given up, or was due
      precisely at the time the back-off happens to give. */
  lemma SameRowIff(row: Row, failure: Option<string>, at: int, maxRetries: int)
    ensures Settle(row, failure, at, maxRetries) == SettleByRepository(row, failure, at, maxRetries) <==>
            || failure.None?
            || row.retryCount + 1 < maxRetries
            || row.scheduledAt == at + Backoff(row.retryCount + 1)
  {
  }

  datatype Tick = Tick(now: int, locked: set<string>, batch: seq<string>, outside: Outside, crash: Option<nat>)

  /** Ticks in turn, each with a batch its query can return. */
  ghost predicate ValidTicks(table: Table, ticks: seq<Tick>, maxRetries: int)
    decreases |ticks|
  {
    ticks == [] || ( && IsBatch(table, ticks[0].now, ticks[0].locked, ticks[0].batch)
                     && AllIn(ticks[0].batch, table)
                     && ValidTicks(AfterTick(table, ticks[0], maxRetries), ticks[1..], maxRetries))
  }

  function AfterTick(table: Table, tick: Tick, maxRetries: int): Table
    requires AllIn(tick.batch, table)
  {
    if tick.crash.None? then SettleAll(table, tick.batch, tick.outside, maxRetries) else table
  }

  function AfterTickByRepository(table: Table, tick: Tick, maxRetries: int): Table
    requires AllIn(tick.batch, table)
  {
    if tick.crash.None? then SettleAllByRepository(table, tick.batch, tick.outside, maxRetries) else table
  }

  lemma ReachedIn(batch: seq<string>, crash: Option<nat>, table: Table)
    requires AllIn(batch, table)
    ensures AllIn(Reached(batch, crash), table)
  {
  }

  function SentByTick(table: Table, tick: Tick): seq<Envelope>
    requires AllIn(tick.batch, table)
  {
    ReachedIn(tick.batch, tick.crash, table);
    Sent(table, Reached(tick.batch, tick.crash), tick.outside)
  }

  /** Over any number of ticks, committed or not, what one processor can do the other can, and
      both publish the same sequence and end with tables that agree. */
  lemma {:induction false} ProcessorsAgreeForever(a: Table, b: Table, ticks: seq<Tick>, maxRetries: int)
    requires Agree(a, b)
    ensures ValidTicks(a, ticks, maxRetries) <==> ValidTicksByRepository(b, ticks, maxRetries)
    ensures ValidTicks(a, ticks, maxRetries) ==>
              && RunTicks(a, ticks, maxRetries).1 == RunTicksByRepository(b, ticks, maxRetries).1
              && Agree(RunTicks(a, ticks, maxRetries).0, RunTicksByRepository(b, ticks, maxRetries).0)
    decreases |ticks|
  {
    if ticks != [] {
      SameBatches(a, b, ticks[0].now, ticks[0].locked, ticks[0].batch);
    }
    if ticks != [] && IsBatch(a, ticks[0].now, ticks[0].locked, ticks[0].batch) {
      var t := ticks[0];
      ProcessorsAgree(a, b, t.now, t.locked, t.batch, t.outside, maxRetries);
      ReachedIn(t.batch, t.crash, a);
      ReachedIn(t.batch, t.crash, b);
      SameSent(a, b, Reached(t.batch, t.crash), t.outside);
      ProcessorsAgreeForever(AfterTick(a, t, maxRetries), AfterTickByRepository(b, t, maxRetries), ticks[1..], maxRetries);
    }
  }

  ghost predicate ValidTicksByRepository(table: Table, ticks: seq<Tick>, maxRetries: int)
    decreases |ticks|
  {
    ticks == [] || ( && IsBatch(table, ticks[0].now, ticks[0].locked, ticks[0].batch)
                     && AllIn(ticks[0].batch, table)
                     && ValidTicksByRepository(AfterTickByRepository(table, ticks[0], maxRetries), ticks[1..], maxRetries))
  }

  /** The table and everything sent after all ticks. */
  ghost function RunTicks(table: Table, ticks: seq<Tick>, maxRetries: int): (Table, seq<Envelope>)
    requires ValidTicks(table, ticks, maxRetries)
    decreases |ticks|
  {
    if ticks == [] then (table, [])
    else
      var (t, sent) := RunTicks(AfterTick(table, ticks[0], maxRetries), ticks[1..], maxRetries);
      (t, SentByTick(table, ticks[0]) + sent)
  }

  ghost function RunTicksByRepository(table: Table, ticks: seq<Tick>, maxRetries: int): (Table, seq<Envelope>)
    requires ValidTicksByRepository(table, ticks, maxRetries)
    decreases |ticks|
  {
    if ticks == [] then (table, [])
    else
      var (t, sent) := RunTicksByRepository(AfterTickByRepository(table, ticks[0], maxRetries), ticks[1..], maxRetries);
      (t, SentByTick(table, ticks[0]) + sent)
  }

  // ---- how a row is settled ----

  /** The pause after the n-th failed attempt: two seconds, doubling, five minutes at most. */
  lemma BackoffSchedule(n: nat)
    ensures Backoff(1) == 2_000 && Backoff(2) == 4_000 && Backoff(3) == 8_000 && Backoff(4) == 16_000
    ensures n <= 8 ==> Backoff(n) == 1_000 * Pow2(n)
    ensures n >= 9 ==> Backoff(n) == 300_000
  {
    assert Pow2(1) == 2 && Pow2(2) == 4 && Pow2(3) == 8 && Pow2(4) == 16;
    assert Pow2(5) == 32 && Pow2(6) == 64 && Pow2(7) == 128 && Pow2(8) == 256;
    if n <= 8 {
      Pow2Monotone(n, 8);
    } else {
      assert Pow2(9) == 512;
      Pow2Monotone(9, n);
    }
  }

  /** What a committed tick does to one row, written out. Rows outside the batch are untouched. A
      published row says when. A failed attempt is counted with its error; below the limit the row
      waits out the back-off, at the limit it is given up, and only the shared processor then still
      moves its schedule. */
  lemma TickSettlesRow(table: Table, tick: Tick, maxRetries: int, k: string)
    requires IsBatch(table, tick.now, tick.locked, tick.batch) && AllIn(tick.batch, table)
    requires tick.crash.None? && k in table
    ensures k in AfterTick(table, tick, maxRetries) && k in AfterTickByRepository(table, tick, maxRetries)
    ensures var row, at, failure := table[k], tick.outside.clock(k), tick.outside.failure(k);
            var shared, own := AfterTick(table, tick, maxRetries)[k], AfterTickByRepository(table, tick, maxRetries)[k];
            var later := at + Backoff(row.retryCount + 1);
            if k !in tick.batch then shared == row && own == row
            else if failure.None? then
              shared == own == row.(status := Published, publishedAt := Some(at))
            else if row.retryCount + 1 < maxRetries then
              shared == own == row.(retryCount := row.retryCount + 1, lastError := failure, scheduledAt := later)
            else
              && own == row.(status := Abandoned, retryCount := row.retryCount + 1, lastError := failure)
              && shared == own.(scheduledAt := later)
  {
    hide SettleAll, SettleAllByRepository, Backoff;
    SettledRows(table, tick.batch, tick.outside, maxRetries);
    SettledRowsByRepository(table, tick.batch, tick.outside, maxRetries);
  }

  // ---- safety ----

  predicate IsRow(e: Envelope, row: Row) {
    e.topic == row.topic && e.payload == row.payload
  }

  /** Everything sent is a row's payload under the row's id, and every published row was sent. */
  ghost predicate Sound(table: Table, sent: seq<Envelope>) {
    && (forall k :: k in table && table[k].status == Published ==> Envelope(k, table[k].topic, table[k].payload) in sent)
    && (forall i :: 0 <= i < |sent| ==> sent[i].messageId in table && IsRow(sent[i], table[sent[i].messageId]))
  }

  predicate HasRetriesLeft(table: Table, maxRetries: int) {
    forall k :: k in table && table[k].status == Waiting ==> table[k].retryCount < maxRetries
  }

  lemma {:induction false} SentAre(table: Table, batch: seq<string>, outside: Outside, e: Envelope)
    requires AllIn(batch, table)
    ensures e in Sent(table, batch, outside) <==>
            e.messageId in batch && outside.failure(e.messageId).None?
            && e == Envelope(e.messageId, table[e.messageId].topic, table[e.messageId].payload)
    decreases |batch|
  {
    if batch != [] {
      SentAre(table, batch[1..], outside, e);
      assert batch == [batch[0]] + batch[1..];
    }
  }

  /** The order in which a batch lists its rows. */
  predicate EarliestFirst(table: Table, batch: seq<string>)
    requires AllIn(batch, table)
  {
    forall i, j :: 0 <= i < j < |batch| ==> batch[i] != batch[j] && table[batch[i]].scheduledAt <= table[batch[j]].scheduledAt
  }

  lemma {:induction false} SentEarliestFirst(table: Table, batch: seq<string>, outside: Outside, i: nat, j: nat)
    requires AllIn(batch, table) && EarliestFirst(table, batch) && i < j < |Sent(table, batch, outside)|
    ensures var a, b := Sent(table, batch, outside)[i].messageId, Sent(table, batch, outside)[j].messageId;
            a in table && b in table && a != b && table[a].scheduledAt <= table[b].scheduledAt
    decreases |batch|
  {
    var sent, rest := Sent(table, batch, outside), Sent(table, batch[1..], outside);
    if outside.failure(batch[0]).Some? {
      SentEarliestFirst(table, batch[1..], outside, i, j);
    } else if i > 0 {
      SentEarliestFirst(table, batch[1..], outside, i - 1, j - 1);
    } else {
      assert sent[j] == rest[j - 1];
      SentAre(table, batch[1..], outside, rest[j - 1]);
      var k :| 0 <= k < |batch[1..]| && batch[1..][k] == sent[j].messageId;
      assert batch[k + 1] == sent[j].messageId;
    }
  }

  /** Within a tick, failed or not, messages go out earliest schedule first, and no row twice. */
  lemma TickSendsInOrder(table: Table, tick: Tick, i: nat, j: nat)
    requires IsBatch(table, tick.now, tick.locked, tick.batch) && AllIn(tick.batch, table)
    requires i < j < |SentByTick(table, tick)|
    ensures var a, b := SentByTick(table, tick)[i].messageId, SentByTick(table, tick)[j].messageId;
            a in table && b in table && a != b && table[a].scheduledAt <= table[b].scheduledAt
  {
    ReachedIn(tick.batch, tick.crash, table);
    SentEarliestFirst(table, Reached(tick.batch, tick.crash), tick.outside, i, j);
  }

  /** A row as the services insert it. */
  function NewRow(topic: string, payload: Message, now: int): Row {
    Row(topic, payload, Waiting, 0, None, now, None)
  }

  lemma InsertKeepsSound(table: Table, sent: seq<Envelope>, k: string, row: Row)
    requires Sound(table, sent) && k !in table && row.status == Waiting
    ensures Sound(table[k := row], sent)
  {
  }

  /** A tick, committed or not, keeps the table sound. */
  lemma TickKeepsSound(table: Table, sent: seq<Envelope>, tick: Tick, maxRetries: int)
    requires Sound(table, sent) && IsBatch(table, tick.now, tick.locked, tick.batch) && AllIn(tick.batch, table)
    ensures Sound(AfterTick(table, tick, maxRetries), sent + SentByTick(table, tick))
  {
    var after, out := AfterTick(table, tick, maxRetries), SentByTick(table, tick);
    ReachedIn(tick.batch, tick.crash, table);
    SettledRows(table, tick.batch, tick.outside, maxRetries);
    forall k | k in after && after[k].status == Published
      ensures Envelope(k, after[k].topic, after[k].payload) in sent + out
    {
      SentAre(table, Reached(tick.batch, tick.crash), tick.outside, Envelope(k, table[k].topic, table[k].payload));
    }
    forall i | 0 <= i < |sent + out|
      ensures var e := (sent + out)[i]; e.messageId in after && IsRow(e, after[e.messageId])
    {
      if i >= |sent| {
        SentAre(table, Reached(tick.batch, tick.crash), tick.outside, out[i - |sent|]);
      }
    }
  }

  /** With at least one attempt allowed, a waiting row always has attempts left. */
  lemma TickKeepsRetriesLeft(table: Table, tick: Tick, maxRetries: int)
    requires HasRetriesLeft(table, maxRetries)
    requires IsBatch(table, tick.now, tick.locked, tick.batch) && AllIn(tick.batch, table)
    ensures HasRetriesLeft(AfterTick(table, tick, maxRetries), maxRetries)
  {
    SettledRows(table, tick.batch, tick.outside, maxRetries);
  }

  // ---- every state of every run ----

  datatype State = State(table: Table, sent: seq<Envelope>)

  /** Something happens to the table: a service inserts a new row, or a tick of either processor. */
  datatype Step =
    | Inserting(id: string, topic: string, payload: Message, now: int)
    | Ticking(tick: Tick, byRepository: bool)

  ghost predicate CanStep(s: State, step: Step) {
    match step
    case Inserting(id, _, _, _) => id !in s.table
    case Ticking(tick, _) => IsBatch(s.table, tick.now, tick.locked, tick.batch) && AllIn(tick.batch, s.table)
  }

  ghost function Stepped(s: State, step: Step, maxRetries: int): State
    requires CanStep(s, step)
  {
    match step
    case Inserting(id, topic, payload, now) => s.(table := s.table[id := NewRow(topic, payload, now)])
    case Ticking(tick, byRepository) =>
      State(if byRepository then AfterTickByRepository(s.table, tick, maxRetries) else AfterTick(s.table, tick, maxRetries),
            s.sent + SentByTick(s.table, tick))
  }

  /** The run that the steps make from the empty table. */
  ghost predicate OutboxRun(states: seq<State>, steps: seq<Step>, maxRetries: int) {
    && |states| == |steps| + 1
    && states[0] == State(map[], [])
    && forall i :: 0 <= i < |steps| ==>
         CanStep(states[i], steps[i]) && states[i + 1] == Stepped(states[i], steps[i], maxRetries)
  }

  lemma AgreeingTablesAreAlike(a: Table, b: Table, sent: seq<Envelope>, maxRetries: int)
    requires Agree(a, b)
    ensures Sound(a, sent) ==> Sound(b, sent)
    ensures HasRetriesLeft(a, maxRetries) ==> HasRetriesLeft(b, maxRetries)
  {
  }

  lemma TicksAgree(table: Table, tick: Tick, maxRetries: int)
    requires IsBatch(table, tick.now, tick.locked, tick.batch) && AllIn(tick.batch, table)
    ensures Agree(AfterTick(table, tick, maxRetries), AfterTickByRepository(table, tick, maxRetries))
  {
    hide SettleAll, SettleAllByRepository;
    TablesAgree(table, table, tick.batch, tick.outside, maxRetries);
  }

  lemma StepKeepsSound(s: State, step: Step, maxRetries: int)
    requires maxRetries >= 1 && CanStep(s, step) && Sound(s.table, s.sent) && HasRetriesLeft(s.table, maxRetries)
    ensures var s' := Stepped(s, step, maxRetries); Sound(s'.table, s'.sent) && HasRetriesLeft(s'.table, maxRetries)
  {
    hide AfterTick, AfterTickByRepository, SentByTick;
    match step
    case Inserting(id, topic, payload, now) => InsertKeepsSound(s.table, s.sent, id, NewRow(topic, payload, now));
    case Ticking(tick, byRepository) =>
      hide Sound, HasRetriesLeft, IsBatch, AllIn;
      TickKeepsSound(s.table, s.sent, tick, maxRetries);
      TickKeepsRetriesLeft(s.table, tick, maxRetries);
      TicksAgree(s.table, tick, maxRetries);
      AgreeingTablesAreAlike(AfterTick(s.table, tick, maxRetries), AfterTickByRepository(s.table, tick, maxRetries),
                             s.sent + SentByTick(s.table, tick), maxRetries);
  }

  /** With at least one attempt allowed, in every state of every run, with either processor or
      both: a published row was sent under its own id, nothing else was sent, and a waiting row
      has attempts left. */
  lemma {:induction false} EveryRunIsSound(states: seq<State>, steps: seq<Step>, maxRetries: int, i: nat)
    requires maxRetries >= 1 && OutboxRun(states, steps, maxRetries) && i < |states|
    ensures Sound(states[i].table, states[i].sent) && HasRetriesLeft(states[i].table, maxRetries)
  {
    hide CanStep, Stepped, Sound, HasRetriesLeft;
    if i == 0 {
      EmptyIsSound(maxRetries);
    } else {
      EveryRunIsSound(states, steps, maxRetries, i - 1);
      assert states[i - 1 + 1] == Stepped(states[i - 1], steps[i - 1], maxRetries);
      StepKeepsSound(states[i - 1], steps[i - 1], maxRetries);
    }
  }

  lemma EmptyIsSound(maxRetries: int)
    ensures Sound(map[], []) && HasRetriesLeft(map[], maxRetries)
  {
  }

  // ---- progress ----

  function AttemptsLeft(table: Table, maxRetries: int): string -> int {
    (k: string) => if k in table && table[k].status == Waiting then maxRetries - table[k].retryCount else 0
  }

  /** Publish attempts that can still be made on the rows of the table. */
  ghost function Remaining(table: Table, maxRetries: int): int {
    SumOver(table.Keys, AttemptsLeft(table, maxRetries))
  }

  lemma {:induction false} SumOverDrops(ks: set<string>, batch: seq<string>, f: string -> int, g: string -> int)
    requires Distinct(batch) && forall i :: 0 <= i < |batch| ==> batch[i] in ks && g(batch[i]) < f(batch[i])
    requires forall k :: k in ks && k !in batch ==> g(k) == f(k)
    ensures SumOver(ks, g) + |batch| <= SumOver(ks, f)
    decreases |batch|
  {
    if batch == [] {
      SumOverSame(ks, f, g);
    } else {
      var k, rest := batch[0], batch[1..];
      SumOverPull(ks, k, f);
      SumOverPull(ks, k, g);
      assert batch == [k] + rest;
      SumOverDrops(ks - {k}, rest, f, g);
    }
  }

  /** A committed tick uses up one attempt for every row of its batch. */
  lemma TickUsesAttempts(table: Table, tick: Tick, maxRetries: int)
    requires HasRetriesLeft(table, maxRetries) && tick.crash.None?
    requires IsBatch(table, tick.now, tick.locked, tick.batch) && AllIn(tick.batch, table)
    ensures Remaining(AfterTick(table, tick, maxRetries), maxRetries) + |tick.batch| <= Remaining(table, maxRetries)
  {
    var after := AfterTick(table, tick, maxRetries);
    SettledRows(table, tick.batch, tick.outside, maxRetries);
    SumOverDrops(table.Keys, tick.batch, AttemptsLeft(table, maxRetries), AttemptsLeft(after, maxRetries));
  }

  lemma {:induction false} SumOverNonNegative(ks: set<string>, f: string -> int)
    requires forall k :: k in ks ==> f(k) >= 0
    ensures SumOver(ks, f) >= 0
    decreases |ks|
  {
    if ks != {} {
      var k :| k in ks;
      SumOverPull(ks, k, f);
      SumOverNonNegative(ks - {k}, f);
    }
  }

  /** Every serving tick brings the end closer: a table without new rows can see at most as many
      committed ticks with a non-empty batch as it has attempts left. */
  lemma ServingTicksAreBounded(table: Table, ticks: seq<Tick>, maxRetries: int)
    requires HasRetriesLeft(table, maxRetries) && ValidTicks(table, ticks, maxRetries)
    requires forall i :: 0 <= i < |ticks| ==> ticks[i].crash.None? && ticks[i].batch != []
    ensures |ticks| <= Remaining(table, maxRetries)
  {
    ServedAttempts(table, ticks, maxRetries);
    TicksKeepRetriesLeft(table, ticks, maxRetries);
    NothingRemainsBelowZero(RunTicks(table, ticks, maxRetries).0, maxRetries);
  }

  predicate AllSettled(table: Table) {
    forall k :: k in table ==> table[k].status == Published || table[k].status == Abandoned
  }

  /** No attempts are left exactly when no row is waiting any more: each was published or given
      up. */
  lemma NothingLeftMeansSettled(table: Table, maxRetries: int)
    requires HasRetriesLeft(table, maxRetries)
    ensures Remaining(table, maxRetries) == 0 <==> AllSettled(table)
  {
    if AllSettled(table) {
      SumOverZero(table.Keys, AttemptsLeft(table, maxRetries));
    } else {
      var k :| k in table && table[k].status == Waiting;
      SumOverPull(table.Keys, k, AttemptsLeft(table, maxRetries));
      SumOverNonNegative(table.Keys - {k}, AttemptsLeft(table, maxRetries));
    }
  }

  // ---- every row ends ----

  /** Committed ticks that serve at least one row each, with what the outside does in each. */
  ghost predicate Serving(ticks: seq<Tick>, outsides: nat -> Outside) {
    forall i :: 0 <= i < |ticks| ==> ticks[i].crash.None? && ticks[i].batch != [] && ticks[i].outside == outsides(i)
  }

  /** While a row waits, some tick serves: at the latest when the row is due. */
  lemma WaitingIsServed(table: Table, k: string, outside: Outside) returns (tick: Tick)
    requires k in table && table[k].status == Waiting
    ensures IsBatch(table, tick.now, tick.locked, tick.batch) && AllIn(tick.batch, table)
    ensures tick.crash.None? && tick.batch != [] && tick.outside == outside
  {
    var now := table[k].scheduledAt;
    var batch := BatchExists(table, now, {});
    DueIsServed(table, k, batch);
    tick := Tick(now, {}, batch, outside, None);
  }

  lemma ServingExtends(tick: Tick, rest: seq<Tick>, outsides: nat -> Outside)
    requires Serving(rest, (i: nat) => outsides(i + 1))
    requires tick.crash.None? && tick.batch != [] && tick.outside == outsides(0)
    ensures Serving([tick] + rest, outsides)
  {
    var ticks := [tick] + rest;
    forall i | 0 <= i < |ticks|
      ensures ticks[i].crash.None? && ticks[i].batch != [] && ticks[i].outside == outsides(i)
    {
      if i > 0 {
        assert ticks[i] == rest[i - 1];
      }
    }
  }

  /** Whatever the publish outcomes and clocks of each tick: some number of serving ticks, at most
      one per remaining attempt, leaves every row published or given up. */
  lemma {:induction false} EveryRowEnds(table: Table, outsides: nat -> Outside, maxRetries: int) returns (ticks: seq<Tick>)
    requires HasRetriesLeft(table, maxRetries)
    ensures ValidTicks(table, ticks, maxRetries) && Serving(ticks, outsides)
    ensures |ticks| <= Remaining(table, maxRetries)
    ensures AllSettled(RunTicks(table, ticks, maxRetries).0)
    ensures Remaining(RunTicks(table, ticks, maxRetries).0, maxRetries) == 0
    decreases Remaining(table, maxRetries)
  {
    hide IsBatch, AfterTick, AllIn, Serving, Remaining;
    NothingRemainsBelowZero(table, maxRetries);
    if k :| k in table && table[k].status == Waiting {
      var tick := WaitingIsServed(table, k, outsides(0));
      var after := AfterTick(table, tick, maxRetries);
      TickUsesAttempts(table, tick, maxRetries);
      TickKeepsRetriesLeft(table, tick, maxRetries);
      NothingRemainsBelowZero(after, maxRetries);
      var rest := EveryRowEnds(after, (i: nat) => outsides(i + 1), maxRetries);
      ServingExtends(tick, rest, outsides);
      ticks := [tick] + rest;
      assert ticks[1..] == rest;
    } else {
      ticks := [];
      NoTickServes(outsides);
      NothingLeftMeansSettled(table, maxRetries);
    }
  }

  lemma NoTickServes(outsides: nat -> Outside)
    ensures Serving([], outsides)
  {
  }

  lemma NothingRemainsBelowZero(table: Table, maxRetries: int)
    requires HasRetriesLeft(table, maxRetries)
    ensures Remaining(table, maxRetries) >= 0
  {
    SumOverNonNegative(table.Keys, AttemptsLeft(table, maxRetries));
  }

  /** The same for order-service's processor. */
  lemma EveryOrderRowEnds(table: Table, outsides: nat -> Outside, maxRetries: int) returns (ticks: seq<Tick>)
    requires HasRetriesLeft(table, maxRetries)
    ensures ValidTicksByRepository(table, ticks, maxRetries) && Serving(ticks, outsides)
    ensures |ticks| <= Remaining(table, maxRetries)
    ensures AllSettled(RunTicksByRepository(table, ticks, maxRetries).0)
  {
    ticks := EveryRowEnds(table, outsides, maxRetries);
    ProcessorsAgreeForever(table, table, ticks, maxRetries);
  }

  /** Serving ticks of order-service's processor are bounded alike. */
  lemma ServingOrderTicksAreBounded(table: Table, ticks: seq<Tick>, maxRetries: int)
    requires HasRetriesLeft(table, maxRetries) && ValidTicksByRepository(table, ticks, maxRetries)
    requires forall i :: 0 <= i < |ticks| ==> ticks[i].crash.None? && ticks[i].batch != []
    ensures |ticks| <= Remaining(table, maxRetries)
  {
    ProcessorsAgreeForever(table, table, ticks, maxRetries);
    ServingTicksAreBounded(table, ticks, maxRetries);
  }

  lemma {:induction false} TicksKeepRetriesLeft(table: Table, ticks: seq<Tick>, maxRetries: int)
    requires HasRetriesLeft(table, maxRetries) && ValidTicks(table, ticks, maxRetries)
    ensures HasRetriesLeft(RunTicks(table, ticks, maxRetries).0, maxRetries)
    decreases |ticks|
  {
    if ticks != [] {
      TickKeepsRetriesLeft(table, ticks[0], maxRetries);
      TicksKeepRetriesLeft(AfterTick(table, ticks[0], maxRetries), ticks[1..], maxRetries);
    }
  }

  lemma {:induction false} ServedAttempts(table: Table, ticks: seq<Tick>, maxRetries: int)
    requires HasRetriesLeft(table, maxRetries) && ValidTicks(table, ticks, maxRetries)
    requires forall i :: 0 <= i < |ticks| ==> ticks[i].crash.None? && ticks[i].batch != []
    ensures Remaining(RunTicks(table, ticks, maxRetries).0, maxRetries) + |ticks| <= Remaining(table, maxRetries)
    decreases |ticks|
  {
    if ticks != [] {
      TickUsesAttempts(table, ticks[0], maxRetries);
      TickKeepsRetriesLeft(table, ticks[0], maxRetries);
      ServedAttempts(AfterTick(table, ticks[0], maxRetries), ticks[1..], maxRetries);
    }
  }

  /** Nor does it matter which rows are served first: when no tick, at any time, finds a row to
      serve any more, every row has ended. */
  lemma NothingToServeMeansSettled(table: Table)
    requires forall now, batch :: IsBatch(table, now, {}, batch) ==> batch == []
    ensures AllSettled(table)
  {
    hide IsBatch;
    forall k | k in table
      ensures table[k].status != Waiting
    {
      if table[k].status == Waiting {
        var batch := BatchExists(table, table[k].scheduledAt, {});
        DueIsServed(table, k, batch);
      }
    }
  }

  lemma DueIsServed(table: Table, k: string, batch: seq<string>)
    requires k in table && table[k].status == Waiting && IsBatch(table, table[k].scheduledAt, {}, batch)
    ensures batch != [] && AllIn(batch, table)
  {
    assert k in DueRows(table, table[k].scheduledAt, {});
  }
}
