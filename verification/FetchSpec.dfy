/**
 * What one request emits, as recursive functions of its inputs and of the world.
 * `Fetch.dfy` proves that the imperative code appends exactly this; the other `Fetch*.dfy` files prove what it means.
 */
module FetchSpec {
  import opened Telemetry
  import opened Clocks

  datatype Recorder = LogRecords | SpanEvents

  /** The parts fixed for one service: limit is `maxAttempts`. */
  datatype Env = Env(world: World, limit: nat, recorder: Recorder, cacheHit: bool, timeouts: int)

  // ----- Requests and spans -----

  function CacheKey(userID: string): string { "user:" + userID }

  function InfoAttrs(i: RequestInfo): seq<Attr> {
    [Attr("user_agent.name", Str(i.appName)),
     Attr("user_agent.version", Str(i.appVersion)),
     Attr("user_agent.os.name", Str(i.osName)),
     Attr("user_agent.os.version", Str(i.osVersion)),
     Attr("app.user.country", Str(i.country)),
     Attr("app.user.plan", Str(i.plan)),
     Attr("app.feature.new_profile", Flag(i.newProfile))]
  }

  /** What the request-info processor adds to a span started under `ctx`. */
  function Enrichment(ctx: Context, span: nat): seq<Entry> {
    if ctx.parent.Local? || ctx.info.None? then [] else [SetAttrs(span, InfoAttrs(ctx.info.value))]
  }

  function FailedSpan(span: nat, err: Err): seq<Entry> {
    [SetError(span, Message(err)), SetAttrs(span, [Attr("error.type", Str(ErrorType(err)))])]
  }

  // ----- Named events -----

  function ExceptionAttrs(err: Err): seq<Attr> {
    [Attr("exception.type", Str(ErrorType(err))),
     Attr("exception.message", Str(Message(err))),
     Attr("exception.stacktrace", Stack)]
  }

  function NamedRecord(name: string, sev: Severity, err: Option<Err>, attrs: seq<Attr>, at: nat): Record {
    Record(name, at, sev, SeverityText(sev), if err.Some? then Some(Message(err.value)) else None, attrs)
  }

  function EventEntry(r: Recorder, context: Parent, name: string, sev: Severity, err: Option<Err>, attrs: seq<Attr>,
                      at: nat): Entry
    requires r.LogRecords? || context.Local?
  {
    match r
    case LogRecords => Emitted(context, NamedRecord(name, sev, err, attrs, at))
    case SpanEvents => AddedEvent(context.id, name, attrs, at)
  }

  /** An event under any context: without a span of this process a record goes without, and a span event is lost. */
  function EventEntries(r: Recorder, context: Parent, name: string, sev: Severity, err: Option<Err>, attrs: seq<Attr>,
                        at: nat): seq<Entry>
  {
    if r.SpanEvents? && !context.Local? then [] else [EventEntry(r, context, name, sev, err, attrs, at)]
  }

  /** The name an exception is recorded under. */
  function ExceptionName(r: Recorder, name: string): string {
    if r.LogRecords? then name else "exception"
  }

  function ExceptionEntries(r: Recorder, context: Parent, name: string, err: Err, at: nat): seq<Entry> {
    EventEntries(r, context, ExceptionName(r, name), Error, Some(err), ExceptionAttrs(err), at)
  }

  function ExceptionEntry(r: Recorder, span: nat, name: string, err: Err, at: nat): Entry {
    EventEntry(r, Local(span), ExceptionName(r, name), Error, Some(err), ExceptionAttrs(err), at)
  }

  function Backoff(attempt: nat): nat { attempt * 10_000_000 }

  function RetryEntry(r: Recorder, root: nat, attempt: nat, err: Err, at: nat): Entry {
    EventEntry(r, Local(root), "db.query.retry", Warn, Some(err),
               [Attr("retry.attempt", Num(attempt + 1)),
                Attr("retry.backoff_ms", Num(Backoff(attempt) / 1_000_000)),
                Attr("error.type", Str(ErrorType(err)))], at)
  }

  // ----- Cache and database -----

  datatype Step = Step(entries: seq<Entry>, at: Instant, name: string, err: Option<Err>)

  function CacheOutcome(id: nat, key: string, hit: bool, err: Option<Err>): seq<Entry> {
    match err
    case None => [SetAttrs(id, [Attr("cache.key", Str(key)), Attr("cache.hit", Flag(hit))])]
    case Some(cause) => FailedSpan(id, cause)
  }

  function CacheBody(ctx: Context, id: nat, key: string, hit: bool, err: Option<Err>): seq<Entry> {
    Enrichment(ctx, id) + CacheOutcome(id, key, hit, err)
  }

  /** The lookup under any context, with its span numbered `id`. */
  function CacheGet(e: Env, ctx: Context, id: nat, key: string, c: Instant): Step {
    var after, err := e.world.Pass(c, CACHE_WAIT), e.world.WaitError(c, CACHE_WAIT);
    Step([Started(id, ctx.parent, "cache get", Internal, [], c.now)] + CacheBody(ctx, id, key, e.cacheHit, err)
         + [Ended(id, after.now)],
         after, if err.None? && e.cacheHit then "cached-name" else "", err)
  }

  function SelectId(root: nat, attempt: nat): nat { root + 1 + attempt }

  function SelectAttrs(attempt: nat): seq<Attr> {
    [Attr("db.system.name", Str("postgresql")),
     Attr("db.operation.name", Str("SELECT")),
     Attr("db.collection.name", Str("users")),
     Attr("db.client.connection.pool.name", Str("users-primary")),
     Attr("app.db.attempt", Num(attempt))]
  }

  function PoolAttrs(inUse: nat, idle: nat): seq<Attr> {
    [Attr("app.db.pool.in_use", Num(inUse)), Attr("app.db.pool.idle", Num(idle))]
  }

  /** The diagnostic message of a timed-out call: a record without an event name. */
  function Diagnostic(id: nat, at: nat): Entry {
    Emitted(Local(id),
            Record("", at, Debug, SeverityText(Debug), Some("connection pool exhausted: in_use=10 idle=0"), []))
  }

  /** The n-th completed call times out for n up to `timeouts`; an interrupted call does not count. */
  predicate TimesOut(timeouts: int, served: nat) { served + 1 <= timeouts }

  function Served(e: Env, served: nat, c: Instant): nat {
    if e.world.Interrupts(c, QUERY_WAIT) then served else served + 1
  }

  function SelectOutcome(id: nat, at: nat, err: Option<Err>): seq<Entry> {
    match err
    case None => [SetAttrs(id, PoolAttrs(3, 7) + [Attr("db.response.returned_rows", Num(1))])]
    case Some(DBTimeout) => FailedSpan(id, DBTimeout) + [SetAttrs(id, PoolAttrs(10, 0)), Diagnostic(id, at)]
    case Some(cause) => FailedSpan(id, cause)
  }

  function SelectBody(ctx: Context, id: nat, at: nat, err: Option<Err>): seq<Entry> {
    Enrichment(ctx, id) + SelectOutcome(id, at, err)
  }

  function SelectEntries(ctx: Context, id: nat, attempt: nat, c: Instant, after: Instant,
                         err: Option<Err>): seq<Entry>
  {
    [Started(id, ctx.parent, "SELECT users", Client, SelectAttrs(attempt), c.now)] + SelectBody(ctx, id, after.now, err)
    + [Ended(id, after.now)]
  }

  function SelectError(e: Env, served: nat, c: Instant): Option<Err> {
    if e.world.Interrupts(c, QUERY_WAIT) then Some(e.world.cause)
    else if TimesOut(e.timeouts, served) then Some(DBTimeout) else None
  }

  function Select(e: Env, user: string, ctx: Context, id: nat, attempt: nat, served: nat, c: Instant): Step {
    var after := e.world.Pass(c, QUERY_WAIT);
    var err := SelectError(e, served, c);
    Step(SelectEntries(ctx, id, attempt, c, after, err), after,
         if err.None? then "name-of-" + user else "", err)
  }

  predicate IsMessage(s: string) {
    s == Message(DBTimeout) || s == Message(Canceled) || s == Message(DeadlineExceeded)
  }

  /** Entries between the start and the end of a child span: they concern that span only. */
  predicate OnSpan(x: Entry, id: nat) {
    || (x.SetAttrs? && x.span == id)
    || (x.SetError? && x.span == id && IsMessage(x.description))
    || (x.Emitted? && x.context == Local(id) && x.record.eventName == "" && x.record.attrs == [])
  }

  lemma BodiesOnSpan(ctx: Context, id: nat, key: string, hit: bool, at: nat, err: Option<Err>)
    ensures forall x :: x in CacheBody(ctx, id, key, hit, err) ==> OnSpan(x, id)
    ensures forall x :: x in SelectBody(ctx, id, at, err) ==> OnSpan(x, id)
  {
  }

  // ----- The operation -----

  /**
   * The part of a request between the start of its root span and its deferred epilogue.
   * `took` holds the measured duration of each call, `waited` how long each backoff really took, and `served` the
   * completed calls of the database.
   */
  datatype Work = Work(entries: seq<Entry>, at: Instant, name: string, err: Option<Err>,
                       hit: bool, retries: nat, took: seq<nat>, waited: seq<nat>, served: nat)

  function Sum(s: seq<nat>): nat {
    if s == [] then 0 else s[0] + Sum(s[1..])
  }

  lemma {:induction false} SumAppend(s: seq<nat>, x: nat)
    ensures Sum(s + [x]) == Sum(s) + x
  {
    if s == [] {
      assert [x][1..] == [];
    } else {
      assert (s + [x])[1..] == s[1..] + [x];
      SumAppend(s[1..], x);
    }
  }

  /** One piece of work after another; the later one decides the outcome. */
  function Join(a: Work, b: Work): Work {
    Work(a.entries + b.entries, b.at, b.name, b.err, b.hit, a.retries + b.retries, a.took + b.took, a.waited + b.waited,
         b.served)
  }

  /**
   * One turn of the retry loop: the measured call and, if it failed with attempts left, the retry event and
   * the backoff. `again` says that the loop goes on. A call the context interrupted is retried like any other
   * failed call; it is the backoff after it that notices the context.
   */
  datatype Turn = Turn(work: Work, again: bool)

  function TurnFrom(e: Env, root: nat, attempt: nat, start: Instant, q: Step, served: nat): Turn
    requires start.now <= q.at.now
  {
    var stop := e.world.Pass(q.at, 0);
    var took := [stop.now - start.now];
    if q.err.None? || attempt == e.limit then
      Turn(Work(q.entries, stop, q.name, q.err, false, 0, took, [], served), false)
    else
      var interrupted, next := e.world.WaitError(stop, Backoff(attempt)), e.world.Pass(stop, Backoff(attempt));
      Turn(Work(q.entries + [RetryEntry(e.recorder, root, attempt, q.err.value, stop.now)],
                next, "", interrupted, false, 1, took, [next.now - stop.now], served),
           interrupted.None?)
  }

  function TurnOf(e: Env, user: string, ctx: Context, root: nat, attempt: nat, served: nat, c: Instant): Turn {
    var start := e.world.Pass(c, 0);
    TurnFrom(e, root, attempt, start, Select(e, user, ctx, SelectId(root, attempt), attempt, served, start),
             Served(e, served, start))
  }

  /** The turn for each attempt number, count of completed calls and starting point. */
  type Turns = (nat, nat, Instant) -> Turn

  function TurnsOf(e: Env, user: string, ctx: Context, root: nat): Turns {
    (attempt: nat, served: nat, c: Instant) => TurnOf(e, user, ctx, root, attempt, served, c)
  }

  /** The loop from `attempt` on, for any turns; `TurnsOf` never goes on after the last attempt. */
  function Loop(turns: Turns, limit: nat, attempt: nat, served: nat, c: Instant): Work
    requires attempt <= limit
    decreases limit - attempt
  {
    var t := turns(attempt, served, c);
    if t.again && attempt < limit then
      Join(t.work, Loop(turns, limit, attempt + 1, t.work.served, t.work.at))
    else
      t.work
  }

  /** The context of the children of `root`; request info does not reach them. */
  function Inside(root: nat): Context { Context(Local(root), None) }

  function CacheWork(e: Env, user: string, root: nat, served: nat, c: Instant): Work {
    var get := CacheGet(e, Inside(root), root + 1, CacheKey(user), c);
    Work(get.entries, get.at, get.name, get.err, get.err.None? && e.cacheHit, 0, [], [], served)
  }

  /** The loop, unless the cache has answered or failed. */
  function Continue(get: Work, turns: Turns, limit: nat): Work
    requires limit >= 1
  {
    if get.err.Some? || get.hit then get else Join(get, Loop(turns, limit, 1, get.served, get.at))
  }

  /** A request without its root span: the cache, and on a miss the database. */
  function Lookup(e: Env, user: string, ctx: Context, root: nat, served: nat, c: Instant): Work
    requires e.limit >= 1
  {
    Continue(CacheWork(e, user, root, served, c), TurnsOf(e, user, ctx, root), e.limit)
  }

  function FinalAttrs(w: Work): seq<Attr> {
    [Attr("cache.hit", Flag(w.hit)),
     Attr("retry.count", Num(w.retries)),
     Attr("app.db.call.count", Num(|w.took|)),
     Attr("app.db.duration_ms", Num(Sum(w.took) / 1_000_000))]
  }

  function Failure(r: Recorder, root: nat, err: Option<Err>, at: nat): seq<Entry> {
    match err
    case None => []
    case Some(cause) =>
      [SetError(root, "fetch user failed"),
       SetAttrs(root, [Attr("error.type", Str(ErrorType(cause)))]),
       ExceptionEntry(r, root, "user.fetch.exception", cause, at)]
  }

  /** The deferred closure, which runs before the root span ends. */
  function Epilogue(r: Recorder, root: nat, w: Work): seq<Entry> {
    [SetAttrs(root, FinalAttrs(w))] + Failure(r, root, w.err, w.at.now)
  }

  function RootStart(user: string, ctx: Context, root: nat, now: nat): seq<Entry> {
    [Started(root, ctx.parent, "fetch user", Internal, [Attr("user.id", Str(user))], now)] + Enrichment(ctx, root)
  }

  /** The work of the request whose root span is `root`; its children find `root` in their context. */
  function WorkOf(e: Env, user: string, ctx: Context, root: nat, served: nat, c: Instant): Work
    requires e.limit >= 1
  {
    Lookup(e, user, ctx.(parent := Local(root)), root, served, c)
  }

  /** The whole history of one request. */
  function FetchEntries(e: Env, user: string, ctx: Context, root: nat, served: nat, c: Instant): seq<Entry>
    requires e.limit >= 1
  {
    var w := WorkOf(e, user, ctx, root, served, c);
    RootStart(user, ctx, root, c.now) + w.entries + Epilogue(e.recorder, root, w) + [Ended(root, w.at.now)]
  }

  /** The first span number after the request: the root, the cache span and one span per call. */
  function NextSpan(root: nat, w: Work): nat { root + 2 + |w.took| }

  // ----- Properties of every entry -----

  ghost predicate Everywhere(p: Entry -> bool, entries: seq<Entry>) {
    forall x :: x in entries ==> p(x)
  }

  predicate CacheEnds(p: Entry -> bool, root: nat, at: nat) {
    p(Started(root + 1, Local(root), "cache get", Internal, [], at)) && p(Ended(root + 1, at))
  }

  predicate SelectEnds(p: Entry -> bool, id: nat, parent: Parent, attempt: nat, at: nat) {
    p(Started(id, parent, "SELECT users", Client, SelectAttrs(attempt), at)) && p(Ended(id, at))
  }

  lemma {:induction false} LoopEverywhere(p: Entry -> bool, turns: Turns, limit: nat, attempt: nat, served: nat,
                                          c: Instant)
    requires attempt <= limit
    requires forall a, n, k :: Everywhere(p, turns(a, n, k).work.entries)
    ensures Everywhere(p, Loop(turns, limit, attempt, served, c).entries)
    decreases limit - attempt
  {
    var t := turns(attempt, served, c);
    assert Everywhere(p, t.work.entries);
    if !t.again || attempt == limit {
    } else {
      LoopEverywhere(p, turns, limit, attempt + 1, t.work.served, t.work.at);
    }
  }

  lemma ContinueEverywhere(p: Entry -> bool, get: Work, turns: Turns, limit: nat)
    requires limit >= 1 && Everywhere(p, get.entries)
    requires forall a, n, k :: Everywhere(p, turns(a, n, k).work.entries)
    ensures Everywhere(p, Continue(get, turns, limit).entries)
  {
    LoopEverywhere(p, turns, limit, 1, get.served, get.at);
  }

  lemma SpanEverywhere(p: Entry -> bool, start: Entry, body: seq<Entry>, end: Entry, id: nat)
    requires p(start) && p(end)
    requires forall x :: x in body ==> OnSpan(x, id)
    requires forall x :: OnSpan(x, id) ==> p(x)
    ensures Everywhere(p, [start] + body + [end])
  {
  }

  lemma TurnFromEverywhere(p: Entry -> bool, e: Env, root: nat, attempt: nat, start: Instant, q: Step, served: nat)
    requires start.now <= q.at.now && Everywhere(p, q.entries)
    requires forall err, at :: p(RetryEntry(e.recorder, root, attempt, err, at))
    ensures Everywhere(p, TurnFrom(e, root, attempt, start, q, served).work.entries)
  {
  }

  lemma TurnOfEverywhere(p: Entry -> bool, e: Env, user: string, ctx: Context, root: nat, attempt: nat, served: nat,
                         c: Instant)
    requires forall x :: OnSpan(x, SelectId(root, attempt)) ==> p(x)
    requires forall at: nat :: SelectEnds(p, SelectId(root, attempt), ctx.parent, attempt, at)
    requires forall err, at :: p(RetryEntry(e.recorder, root, attempt, err, at))
    ensures Everywhere(p, TurnOf(e, user, ctx, root, attempt, served, c).work.entries)
  {
    var id, start := SelectId(root, attempt), e.world.Pass(c, 0);
    var q := Select(e, user, ctx, id, attempt, served, start);
    BodiesOnSpan(ctx, id, "", false, q.at.now, q.err);
    assert SelectEnds(p, id, ctx.parent, attempt, start.now) && SelectEnds(p, id, ctx.parent, attempt, q.at.now);
    SpanEverywhere(p, Started(id, ctx.parent, "SELECT users", Client, SelectAttrs(attempt), start.now),
                   SelectBody(ctx, id, q.at.now, q.err), Ended(id, q.at.now), id);
    TurnFromEverywhere(p, e, root, attempt, start, q, Served(e, served, start));
  }

  lemma CacheEverywhere(p: Entry -> bool, e: Env, user: string, root: nat, served: nat, c: Instant)
    requires forall x :: OnSpan(x, root + 1) ==> p(x)
    requires forall at: nat :: CacheEnds(p, root, at)
    ensures Everywhere(p, CacheWork(e, user, root, served, c).entries)
  {
    var id, key, err, after := root + 1, CacheKey(user), e.world.WaitError(c, CACHE_WAIT), e.world.Pass(c, CACHE_WAIT);
    BodiesOnSpan(Inside(root), id, key, e.cacheHit, 0, err);
    assert CacheEnds(p, root, c.now) && CacheEnds(p, root, after.now);
    SpanEverywhere(p, Started(id, Local(root), "cache get", Internal, [], c.now),
                   CacheBody(Inside(root), id, key, e.cacheHit, err), Ended(id, after.now), id);
  }

  /** A property of the entries on child spans, of their starts and ends, and of retry events holds of all the work. */
  lemma LookupEverywhere(p: Entry -> bool, e: Env, user: string, ctx: Context, root: nat, served: nat, c: Instant)
    requires e.limit >= 1 && ctx.parent == Local(root)
    requires forall x, id: nat :: id > root && OnSpan(x, id) ==> p(x)
    requires forall at: nat :: CacheEnds(p, root, at)
    requires forall id: nat, attempt: nat, at: nat :: id > root ==> SelectEnds(p, id, Local(root), attempt, at)
    requires forall attempt, err, at :: p(RetryEntry(e.recorder, root, attempt, err, at))
    ensures Everywhere(p, Lookup(e, user, ctx, root, served, c).entries)
  {
    CacheEverywhere(p, e, user, root, served, c);
    var turns := TurnsOf(e, user, ctx, root);
    forall a, n, k ensures Everywhere(p, turns(a, n, k).work.entries) {
      TurnOfEverywhere(p, e, user, ctx, root, a, n, k);
    }
    ContinueEverywhere(p, CacheWork(e, user, root, served, c), turns, e.limit);
  }

  /** A request as three parts, with only the middle one depending on the run. */
  lemma RequestParts(e: Env, user: string, ctx: Context, root: nat, served: nat, c: Instant)
      returns (head: seq<Entry>, w: Work, tail: seq<Entry>)
    requires e.limit >= 1
    ensures w == WorkOf(e, user, ctx, root, served, c)
    ensures head == RootStart(user, ctx, root, c.now) && tail == Epilogue(e.recorder, root, w) + [Ended(root, w.at.now)]
    ensures head + w.entries + tail == FetchEntries(e, user, ctx, root, served, c)
  {
    w := WorkOf(e, user, ctx, root, served, c);
    head, tail := RootStart(user, ctx, root, c.now), Epilogue(e.recorder, root, w) + [Ended(root, w.at.now)];
  }
}
