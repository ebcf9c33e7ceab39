/** The product cache of product-service under interleaving: `findById` with a ten-minute cache
    and in-flight deduplication. Each await is a point where anything else may happen, so one
    call is several steps. */
module ProductCache {
  import opened Stock

  const TTL_MS: nat := 600_000

  /** A cached value, with the history of the fetch that wrote it. */
  datatype Entry = Entry(value: Product, startedAt: int, readAt: int, storedAt: int)

  /** A database fetch on its way: it has not read yet, or it has read and is storing. */
  datatype Fetch =
    | Reading(id: string, startedAt: int)
    | Storing(id: string, startedAt: int, value: Product, readAt: int)

  /** A call of `findById`: waiting for the cache, or for a fetch it started or joined. */
  datatype Call = Asking(id: string) | Joined(id: string, fetch: nat)

  /** What a call returned, with the history of the value. */
  datatype Answer = Answer(id: string, value: Product, startedAt: int, readAt: int, storedAt: int, at: int)

  /** `seen` is history: every committed active row, with every time at which it was the row. */
  datatype Cache = Cache(
    now: int,
    rows: Catalogue,
    seen: set<(string, Product, int)>,
    entries: map<string, Entry>,
    fetches: map<nat, Fetch>,
    inflight: map<string, nat>,
    calls: map<nat, Call>,
    answers: seq<Answer>)

  datatype Event =
    | TimePasses(ms: nat)
    | RowCommitted(id: string, row: Product)
    | Evicted(id: string)
    | Called(call: nat, id: string)
    | CacheAnswered(call: nat, redisFails: bool, fetch: nat)
    | DatabaseRead(fetch: nat)
    | CacheStored(fetch: nat, redisFails: bool)

  function Facts(rows: Catalogue, now: int): set<(string, Product, int)> {
    set id | id in rows && rows[id].isActive :: (id, rows[id], now)
  }

  predicate Initial(c: Cache) {
    c.rows == map[] && c.seen == {} && c.entries == map[] && c.fetches == map[] && c.inflight == map[]
    && c.calls == map[] && c.answers == []
  }

  predicate Hit(c: Cache, id: string, redisFails: bool) {
    !redisFails && id in c.entries && c.now <= c.entries[id].storedAt + TTL_MS
  }

  predicate Enabled(c: Cache, e: Event) {
    match e
    case Called(call, _) => call !in c.calls
    case CacheAnswered(call, _, fetch) => call in c.calls && c.calls[call].Asking? && fetch !in c.fetches
    case DatabaseRead(fetch) => fetch in c.fetches && c.fetches[fetch].Reading?
    case CacheStored(fetch, _) => fetch in c.fetches && c.fetches[fetch].Storing?
    case _ => true
  }

  /** The cache has answered a call: a live entry is returned; otherwise the call joins the fetch
      in flight for the key, or starts one and registers it. */
  function OnCacheAnswer(c: Cache, call: nat, redisFails: bool, fetch: nat): Cache
    requires call in c.calls
  {
    var id := c.calls[call].id;
    if Hit(c, id, redisFails) then
      var e := c.entries[id];
      c.(calls := c.calls - {call}, answers := c.answers + [Answer(id, e.value, e.startedAt, e.readAt, e.storedAt, c.now)])
    else if id in c.inflight then
      c.(calls := c.calls[call := Joined(id, c.inflight[id])])
    else
      c.(calls := c.calls[call := Joined(id, fetch)],
         fetches := c.fetches[fetch := Reading(id, c.now)],
         inflight := c.inflight[id := fetch])
  }

  /** The calls that wait for a fetch are over when it is. */
  function Waiting(c: Cache, fetch: nat): set<nat> {
    set k | k in c.calls && c.calls[k].Joined? && c.calls[k].fetch == fetch
  }

  /** The promise settles: it leaves the map, and its waiters are answered. */
  function Settle(c: Cache, fetch: nat, answers: seq<Answer>): Cache
    requires fetch in c.fetches
  {
    c.(fetches := c.fetches - {fetch}, inflight := c.inflight - {c.fetches[fetch].id},
       calls := c.calls - Waiting(c, fetch), answers := c.answers + answers)
  }

  /** The row is read; a missing or inactive one rejects the promise. */
  function OnDatabaseRead(c: Cache, fetch: nat): Cache
    requires fetch in c.fetches
  {
    var f := c.fetches[fetch];
    if f.id in c.rows && c.rows[f.id].isActive
    then c.(fetches := c.fetches[fetch := Storing(f.id, f.startedAt, c.rows[f.id], c.now)])
    else Settle(c, fetch, [])
  }

  /** The value is cached, unless Redis is away, and returned to every waiter. One answer stands
      for all of them, since they get the same value at the same time. */
  function OnCacheStored(c: Cache, fetch: nat, redisFails: bool): Cache
    requires fetch in c.fetches && c.fetches[fetch].Storing?
  {
    var f := c.fetches[fetch];
    Settle(if redisFails then c else c.(entries := c.entries[f.id := Entry(f.value, f.startedAt, f.readAt, c.now)]),
           fetch, [Answer(f.id, f.value, f.startedAt, f.readAt, c.now, c.now)])
  }

  function Happen(c: Cache, e: Event): Cache
    requires Enabled(c, e)
  {
    match e
    case TimePasses(ms) => c.(now := c.now + ms, seen := c.seen + Facts(c.rows, c.now + ms))
    case RowCommitted(id, row) =>
      var rows := c.rows[id := row];
      c.(rows := rows, seen := c.seen + Facts(rows, c.now))
    case Evicted(id) => c.(entries := c.entries - {id})
    case Called(call, id) => c.(calls := c.calls[call := Asking(id)])
    case CacheAnswered(call, redisFails, fetch) => OnCacheAnswer(c, call, redisFails, fetch)
    case DatabaseRead(fetch) => OnDatabaseRead(c, fetch)
    case CacheStored(fetch, redisFails) => OnCacheStored(c, fetch, redisFails)
  }

  // ---- the invariant ----

  /** A value read from a committed active row while the fetch that read it was running. */
  predicate ReadProperly(c: Cache, id: string, value: Product, startedAt: int, readAt: int) {
    (id, value, readAt) in c.seen && value.isActive && startedAt <= readAt <= c.now
  }

  predicate EntriesOk(c: Cache) {
    forall id :: id in c.entries ==>
      var e := c.entries[id];
      ReadProperly(c, id, e.value, e.startedAt, e.readAt) && e.readAt <= e.storedAt <= c.now
  }

  predicate FetchOk(c: Cache, f: Fetch) {
    && f.startedAt <= c.now
    && (f.Storing? ==> ReadProperly(c, f.id, f.value, f.startedAt, f.readAt))
  }

  /** The map holds exactly the pending fetches, one per key. */
  predicate InflightOk(c: Cache) {
    && (forall n :: n in c.fetches ==> FetchOk(c, c.fetches[n]) && c.fetches[n].id in c.inflight
                                       && c.inflight[c.fetches[n].id] == n)
    && (forall id :: id in c.inflight ==> c.inflight[id] in c.fetches && c.fetches[c.inflight[id]].id == id)
  }

  predicate CallsOk(c: Cache) {
    forall k :: k in c.calls && c.calls[k].Joined? ==>
      c.calls[k].fetch in c.fetches && c.fetches[c.calls[k].fetch].id == c.calls[k].id
  }

  /** The value was a committed active row, read while its fetch was running, stored when the
      fetch ended, and returned no later than the time to live after that. */
  predicate AnswerOk(c: Cache, a: Answer) {
    && (a.id, a.value, a.readAt) in c.seen && a.value.isActive
    && a.startedAt <= a.readAt <= a.storedAt <= a.at <= c.now
    && a.at - a.storedAt <= TTL_MS
  }

  predicate AnswersOk(c: Cache) {
    forall i :: 0 <= i < |c.answers| ==> AnswerOk(c, c.answers[i])
  }

  predicate CurrentSeen(c: Cache) {
    forall id :: id in c.rows && c.rows[id].isActive ==> (id, c.rows[id], c.now) in c.seen
  }

  predicate Inv(c: Cache) {
    EntriesOk(c) && InflightOk(c) && CallsOk(c) && AnswersOk(c) && CurrentSeen(c)
  }

  lemma FactsCover(rows: Catalogue, now: int, id: string)
    requires id in rows && rows[id].isActive
    ensures (id, rows[id], now) in Facts(rows, now)
  {
  }

  /** Time and history only grow. */
  lemma LaterKeeps(c: Cache, c': Cache)
    requires Inv(c) && c.now <= c'.now && c.seen <= c'.seen && CurrentSeen(c')
    requires c'.entries == c.entries && c'.fetches == c.fetches && c'.inflight == c.inflight
    requires c'.calls == c.calls && c'.answers == c.answers
    ensures Inv(c')
  {
  }

  lemma CurrentKeeps(c: Cache, rows: Catalogue, now: int)
    requires Inv(c) && c.now <= now
    ensures Inv(c.(rows := rows, now := now, seen := c.seen + Facts(rows, now)))
  {
    hide Inv;
    forall id | id in rows && rows[id].isActive
      ensures (id, rows[id], now) in Facts(rows, now)
    {
      FactsCover(rows, now, id);
    }
    LaterKeeps(c, c.(rows := rows, now := now, seen := c.seen + Facts(rows, now)));
  }

  lemma HitKeeps(c: Cache, call: nat)
    requires Inv(c) && call in c.calls && Hit(c, c.calls[call].id, false)
    ensures Inv(OnCacheAnswer(c, call, false, 0))
  {
    var c' := OnCacheAnswer(c, call, false, 0);
    assert EntriesOk(c') && CurrentSeen(c') && InflightOk(c') && CallsOk(c');
  }

  lemma JoinKeeps(c: Cache, call: nat, id: string)
    requires Inv(c) && call in c.calls && id in c.inflight
    ensures Inv(c.(calls := c.calls[call := Joined(id, c.inflight[id])]))
  {
    var c' := c.(calls := c.calls[call := Joined(id, c.inflight[id])]);
    assert EntriesOk(c') && CurrentSeen(c') && InflightOk(c') && AnswersOk(c');
  }

  lemma StartKeeps(c: Cache, call: nat, id: string, fetch: nat)
    requires Inv(c) && call in c.calls && id !in c.inflight && fetch !in c.fetches
    ensures Inv(c.(calls := c.calls[call := Joined(id, fetch)],
                   fetches := c.fetches[fetch := Reading(id, c.now)],
                   inflight := c.inflight[id := fetch]))
  {
    var c' := c.(calls := c.calls[call := Joined(id, fetch)],
                 fetches := c.fetches[fetch := Reading(id, c.now)],
                 inflight := c.inflight[id := fetch]);
    assert EntriesOk(c') && CurrentSeen(c') && AnswersOk(c');
    assert InflightOk(c');
  }

  lemma CacheAnswerKeeps(c: Cache, call: nat, redisFails: bool, fetch: nat)
    requires Inv(c) && call in c.calls && c.calls[call].Asking? && fetch !in c.fetches
    ensures Inv(OnCacheAnswer(c, call, redisFails, fetch))
  {
    hide Inv;
    var id := c.calls[call].id;
    if Hit(c, id, redisFails) {
      HitKeeps(c, call);
    } else if id in c.inflight {
      JoinKeeps(c, call, id);
    } else {
      StartKeeps(c, call, id, fetch);
    }
  }

  lemma SettleKeeps(c: Cache, fetch: nat, answers: seq<Answer>)
    requires Inv(c) && fetch in c.fetches
    requires forall i :: 0 <= i < |answers| ==> AnswerOk(c, answers[i])
    ensures Inv(Settle(c, fetch, answers))
  {
    var c' := Settle(c, fetch, answers);
    assert EntriesOk(c') && CurrentSeen(c');
    assert AnswersOk(c');
  }

  lemma EvictKeeps(c: Cache, id: string)
    requires Inv(c)
    ensures Inv(c.(entries := c.entries - {id}))
  {
    var c' := c.(entries := c.entries - {id});
    assert EntriesOk(c') && AnswersOk(c');
  }

  lemma CallKeeps(c: Cache, call: nat, id: string)
    requires Inv(c) && call !in c.calls
    ensures Inv(c.(calls := c.calls[call := Asking(id)]))
  {
    var c' := c.(calls := c.calls[call := Asking(id)]);
    assert EntriesOk(c') && AnswersOk(c') && InflightOk(c');
  }

  lemma ReadKeeps(c: Cache, fetch: nat)
    requires Inv(c) && fetch in c.fetches && c.fetches[fetch].id in c.rows && c.rows[c.fetches[fetch].id].isActive
    ensures Inv(OnDatabaseRead(c, fetch))
  {
    var c' := OnDatabaseRead(c, fetch);
    assert EntriesOk(c') && AnswersOk(c') && InflightOk(c');
  }

  lemma StoreKeeps(c: Cache, fetch: nat, redisFails: bool)
    requires Inv(c) && fetch in c.fetches && c.fetches[fetch].Storing?
    ensures Inv(OnCacheStored(c, fetch, redisFails))
  {
    var f := c.fetches[fetch];
    var stored := if redisFails then c else c.(entries := c.entries[f.id := Entry(f.value, f.startedAt, f.readAt, c.now)]);
    assert EntriesOk(stored) && AnswersOk(stored) && InflightOk(stored);
    SettleKeeps(stored, fetch, [Answer(f.id, f.value, f.startedAt, f.readAt, c.now, c.now)]);
  }

  lemma EventKeeps(c: Cache, e: Event)
    requires Inv(c) && Enabled(c, e)
    ensures Inv(Happen(c, e))
  {
    hide Inv;
    match e
    case TimePasses(ms) => CurrentKeeps(c, c.rows, c.now + ms);
    case RowCommitted(id, row) => CurrentKeeps(c, c.rows[id := row], c.now);
    case Evicted(id) => EvictKeeps(c, id);
    case Called(call, id) => CallKeeps(c, call, id);
    case CacheAnswered(call, redisFails, fetch) => CacheAnswerKeeps(c, call, redisFails, fetch);
    case DatabaseRead(fetch) =>
      if c.fetches[fetch].id !in c.rows || !c.rows[c.fetches[fetch].id].isActive {
        SettleKeeps(c, fetch, []);
      } else {
        ReadKeeps(c, fetch);
      }
    case CacheStored(fetch, redisFails) => StoreKeeps(c, fetch, redisFails);
  }

  ghost predicate Next(c: Cache, c': Cache) {
    exists e :: Enabled(c, e) && c' == Happen(c, e)
  }

  ghost predicate Run(cs: seq<Cache>) {
    |cs| > 0 && Initial(cs[0]) && forall i :: 0 <= i < |cs| - 1 ==> Next(cs[i], cs[i + 1])
  }

  lemma {:induction false} RunKeeps(cs: seq<Cache>, i: nat)
    requires Run(cs) && i < |cs|
    ensures Inv(cs[i])
  {
    if i > 0 {
      RunKeeps(cs, i - 1);
      assert Next(cs[i - 1], cs[i - 1 + 1]);
      var e :| Enabled(cs[i - 1], e) && cs[i] == Happen(cs[i - 1], e);
      EventKeeps(cs[i - 1], e);
    }
  }

  /** In every run, every value `findById` returns was a committed active row of that id, and the
      return is later than that by at most the time to live plus the duration of the fetch. */
  lemma BoundedStaleness(cs: seq<Cache>, i: nat, k: nat)
    requires Run(cs) && i < |cs| && k < |cs[i].answers|
    ensures var a := cs[i].answers[k];
            && (a.id, a.value, a.readAt) in cs[i].seen
            && a.value.isActive
            && a.startedAt <= a.readAt <= a.storedAt
            && a.at - a.readAt <= TTL_MS + (a.storedAt - a.startedAt)
  {
    RunKeeps(cs, i);
  }

  /** In every run, at most one fetch per key is under way, the map holds exactly the keys of the
      fetches under way, and every waiting call waits for a fetch of its own key. */
  lemma OneFetchPerKey(cs: seq<Cache>, i: nat, m: nat, n: nat)
    requires Run(cs) && i < |cs|
    ensures m in cs[i].fetches && n in cs[i].fetches && cs[i].fetches[m].id == cs[i].fetches[n].id ==> m == n
    ensures forall id :: id in cs[i].inflight <==> exists f :: f in cs[i].fetches && cs[i].fetches[f].id == id
    ensures CallsOk(cs[i])
  {
    RunKeeps(cs, i);
  }

  // ---- every call is answered ----

  /** A call that finds an entry stored at most ten minutes ago ends with that entry's value, and
      nothing is fetched. */
  lemma HitIsAnswered(c: Cache, call: nat, fetch: nat)
    requires Enabled(c, CacheAnswered(call, false, fetch)) && c.calls[call].id in c.entries
    requires c.now - c.entries[c.calls[call].id].storedAt <= 600_000
    ensures var id, e := c.calls[call].id, c.entries[c.calls[call].id];
            Happen(c, CacheAnswered(call, false, fetch)) ==
            c.(calls := c.calls - {call},
               answers := c.answers + [Answer(id, e.value, e.startedAt, e.readAt, e.storedAt, c.now)])
  {
  }

  /** A call that finds nothing waits for the fetch of its key, a new one if there is none, and gets
      no answer yet. */
  lemma MissWaits(c: Cache, call: nat, redisFails: bool, fetch: nat)
    requires Inv(c) && Enabled(c, CacheAnswered(call, redisFails, fetch))
    requires redisFails || c.calls[call].id !in c.entries || c.now - c.entries[c.calls[call].id].storedAt > 600_000
    ensures var c', id := Happen(c, CacheAnswered(call, redisFails, fetch)), c.calls[call].id;
            && id in c'.inflight && c'.calls == c.calls[call := Joined(id, c'.inflight[id])]
            && c'.answers == c.answers && c'.entries == c.entries
            && (id in c.inflight ==> c'.fetches == c.fetches && c'.inflight == c.inflight)
            && (id !in c.inflight ==> c'.fetches == c.fetches[fetch := Reading(id, c.now)])
  {
  }

  /** When a fetch that has read its row ends, the value it read is returned, and cached unless the
      cache is away; exactly the calls that waited for it are over. */
  lemma FetchIsAnswered(c: Cache, fetch: nat, redisFails: bool)
    requires Enabled(c, CacheStored(fetch, redisFails))
    ensures var c', f := Happen(c, CacheStored(fetch, redisFails)), c.fetches[fetch];
            && c'.answers == c.answers + [Answer(f.id, f.value, f.startedAt, f.readAt, c.now, c.now)]
            && c'.entries == (if redisFails then c.entries
                              else c.entries[f.id := Entry(f.value, f.startedAt, f.readAt, c.now)])
            && c'.fetches == c.fetches - {fetch} && c'.inflight == c.inflight - {f.id}
            && (forall k :: k in c'.calls <==> k in c.calls && !(c.calls[k].Joined? && c.calls[k].fetch == fetch))
            && (forall k :: k in c'.calls ==> c'.calls[k] == c.calls[k])
  {
  }

  /** A read takes the committed row if there is an active one; otherwise the fetch ends without a
      value. */
  lemma ReadTakesTheRow(c: Cache, fetch: nat)
    requires Enabled(c, DatabaseRead(fetch))
    ensures var c', f := Happen(c, DatabaseRead(fetch)), c.fetches[fetch];
            if f.id in c.rows && c.rows[f.id].isActive then
              c' == c.(fetches := c.fetches[fetch := Storing(f.id, f.startedAt, c.rows[f.id], c.now)])
            else
              && c'.answers == c.answers && c'.entries == c.entries
              && c'.fetches == c.fetches - {fetch} && c'.inflight == c.inflight - {f.id}
              && (forall k :: k in c'.calls <==> k in c.calls && !(c.calls[k].Joined? && c.calls[k].fetch == fetch))
  {
  }

  /** In every run, a call is over only when a value of its id is returned, or when the row of its id
      is read and found missing or inactive. */
  lemma CallsEndAnswered(cs: seq<Cache>, i: nat, call: nat)
    requires Run(cs) && i + 1 < |cs| && call in cs[i].calls && call !in cs[i + 1].calls
    ensures var c, c', id := cs[i], cs[i + 1], cs[i].calls[call].id;
            || (|c'.answers| == |c.answers| + 1 && c'.answers[..|c.answers|] == c.answers && c'.answers[|c.answers|].id == id
                && c'.answers[|c.answers|].at == c.now)
            || (c'.answers == c.answers && (id !in c.rows || !c.rows[id].isActive))
  {
    RunKeeps(cs, i);
    assert Next(cs[i], cs[i + 1]);
    var e :| Enabled(cs[i], e) && cs[i + 1] == Happen(cs[i], e);
    CallEndsAnswered(cs[i], e, call);
  }

  lemma CallEndsAnswered(c: Cache, e: Event, call: nat)
    requires CallsOk(c) && Enabled(c, e) && call in c.calls && call !in Happen(c, e).calls
    ensures var c', id := Happen(c, e), c.calls[call].id;
            || (|c'.answers| == |c.answers| + 1 && c'.answers[..|c.answers|] == c.answers && c'.answers[|c.answers|].id == id
                && c'.answers[|c.answers|].at == c.now)
            || (c'.answers == c.answers && (id !in c.rows || !c.rows[id].isActive))
  {
    match e
    case CacheStored(fetch, redisFails) => FetchIsAnswered(c, fetch, redisFails);
    case DatabaseRead(fetch) => ReadTakesTheRow(c, fetch);
    case _ =>
  }

  // ---- eviction does not prevent stale values ----

  /** Evicting before the stock is written is meant to leave no window in which a reader puts the
      old count back. A fetch that reads after the eviction and before the commit does: from any
      state with an active row and no fetch in flight, the old value is cached after the commit. */
  lemma EvictionLeavesAWindow(c: Cache, id: string, row: Product, call: nat, fetch: nat)
    requires Inv(c) && id in c.rows && c.rows[id].isActive && id !in c.inflight
    requires call !in c.calls && fetch !in c.fetches && row != c.rows[id]
    ensures var c1 := Happen(c, Evicted(id));
            var c2 := Happen(c1, Called(call, id));
            && Enabled(c2, CacheAnswered(call, false, fetch))
            && var c3 := Happen(c2, CacheAnswered(call, false, fetch));
               && Enabled(c3, DatabaseRead(fetch))
               && var c4 := Happen(c3, DatabaseRead(fetch));
                  var c5 := Happen(c4, RowCommitted(id, row));
                  && Enabled(c5, CacheStored(fetch, false))
                  && var c6 := Happen(c5, CacheStored(fetch, false));
                     id in c6.entries && c6.entries[id].value == c.rows[id] != c6.rows[id] && Hit(c6, id, false)
  {
  }

  /** Nothing cached or about to be cached for the key differs from the committed row. */
  predicate CurrentFor(c: Cache, id: string) {
    && id in c.rows
    && (id in c.entries ==> c.entries[id].value == c.rows[id])
    && (forall n :: n in c.fetches && c.fetches[n].Storing? && c.fetches[n].id == id ==> c.fetches[n].value == c.rows[id])
  }

  /** A commit leaves the key current exactly when, at that moment, nothing is cached for it and no
      fetch of it has already read: evicting earlier is neither enough nor needed. */
  lemma CommitLeavesCurrentIff(c: Cache, id: string, row: Product)
    requires CurrentFor(c, id) && row != c.rows[id]
    ensures CurrentFor(Happen(c, RowCommitted(id, row)), id) <==>
            && id !in c.entries
            && !exists n :: n in c.fetches && c.fetches[n].Storing? && c.fetches[n].id == id
  {
  }

  /** No other event makes a current key stale. */
  lemma OnlyCommitsMakeStale(c: Cache, e: Event, id: string)
    requires CurrentFor(c, id) && Enabled(c, e) && !(e.RowCommitted? && e.id == id)
    ensures CurrentFor(Happen(c, e), id)
  {
  }
}
