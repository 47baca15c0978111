/** The imperative program: tracer, recorders, cache, database and the retrying service. */
module Fetch {
  import opened Telemetry
  import opened Clocks
  import opened FetchSpec

  /** Tracer and logger of the process, writing one history. Spans are numbered in start order. */
  class Tracer {
    const clock: Clock
    var history: seq<Entry>
    var next: nat

    constructor (clock: Clock)
      ensures this.clock == clock && history == [] && next == 0
    {
      this.clock := clock;
      history, next := [], 0;
    }

    /** Starts a span and runs the request-info processor on it; the child context carries the new span. */
    method Start(ctx: Context, name: string, kind: SpanKind, attrs: seq<Attr>) returns (child: Context, span: nat)
      modifies this
      ensures span == old(next) && next == span + 1
      ensures child == ctx.(parent := Local(span))
      ensures history == old(history) + [Started(span, ctx.parent, name, kind, attrs, clock.time.now)]
          + Enrichment(ctx, span)
    {
      span, next := next, next + 1;
      child := ctx.(parent := Local(span));
      history := history + [Started(span, ctx.parent, name, kind, attrs, clock.time.now)];
      OnStart(ctx, span);
    }

    /** The processor: request info goes to spans without a parent in this process. */
    method OnStart(parent: Context, span: nat)
      modifies this`history
      ensures history == old(history) + Enrichment(parent, span)
    {
      if parent.parent.Local? {
        return;
      }
      if parent.info.Some? {
        SetAttributes(span, InfoAttrs(parent.info.value));
      }
    }

    method SetAttributes(span: nat, attrs: seq<Attr>)
      modifies this`history
      ensures history == old(history) + [SetAttrs(span, attrs)]
    {
      history := history + [SetAttrs(span, attrs)];
    }

    method SetStatusError(span: nat, description: string)
      modifies this`history
      ensures history == old(history) + [SetError(span, description)]
    {
      history := history + [SetError(span, description)];
    }

    /** Adds an event to the span of the context; without a span of this process there is nothing to add it to. */
    method AddEvent(ctx: Context, name: string, attrs: seq<Attr>)
      modifies this`history
      ensures history == old(history)
                       + if ctx.parent.Local? then [AddedEvent(ctx.parent.id, name, attrs, clock.time.now)] else []
    {
      if ctx.parent.Local? {
        history := history + [AddedEvent(ctx.parent.id, name, attrs, clock.time.now)];
      }
    }

    method End(span: nat)
      modifies this`history
      ensures history == old(history) + [Ended(span, clock.time.now)]
    {
      history := history + [Ended(span, clock.time.now)];
    }

    method Emit(ctx: Context, record: Record)
      modifies this`history
      ensures history == old(history) + [Emitted(ctx.parent, record)]
    {
      history := history + [Emitted(ctx.parent, record)];
    }

    method RecordSpanError(span: nat, err: Err)
      modifies this`history
      ensures history == old(history) + FailedSpan(span, err)
    {
      SetStatusError(span, Message(err));
      SetAttributes(span, [Attr("error.type", Str(ErrorType(err)))]);
    }
  }

  /** The log record under construction, filled field by field as the Logs API is. */
  function EmptyRecord(): Record { Record("", 0, Debug, "", None, []) }

  class LogEventRecorder {
    const logger: Tracer

    constructor (logger: Tracer)
      ensures this.logger == logger
    {
      this.logger := logger;
    }

    method Event(ctx: Context, name: string, sev: Severity, err: Option<Err>, attrs: seq<Attr>)
      modifies logger`history
      ensures logger.history
           == old(logger.history) + EventEntries(LogRecords, ctx.parent, name, sev, err, attrs, logger.clock.time.now)
    {
      var rec := EmptyRecord();
      rec := rec.(eventName := name);
      rec := rec.(at := logger.clock.time.now);
      rec := rec.(severity := sev);
      rec := rec.(severityText := SeverityText(sev));
      if err.Some? {
        rec := rec.(body := Some(Message(err.value)));
      }
      rec := rec.(attrs := rec.attrs + attrs);
      assert rec.attrs == attrs;
      logger.Emit(ctx, rec);
    }

    method Exception(ctx: Context, name: string, err: Err)
      modifies logger`history
      ensures logger.history
           == old(logger.history) + ExceptionEntries(LogRecords, ctx.parent, name, err, logger.clock.time.now)
    {
      Event(ctx, name, Error, Some(err), ExceptionAttrs(err));
    }
  }

  class SpanEventRecorder {
    const tracer: Tracer

    constructor (tracer: Tracer)
      ensures this.tracer == tracer
    {
      this.tracer := tracer;
    }

    method Event(ctx: Context, name: string, sev: Severity, err: Option<Err>, attrs: seq<Attr>)
      modifies tracer`history
      ensures tracer.history
           == old(tracer.history) + EventEntries(SpanEvents, ctx.parent, name, sev, err, attrs, tracer.clock.time.now)
    {
      tracer.AddEvent(ctx, name, attrs);
    }

    method Exception(ctx: Context, name: string, err: Err)
      modifies tracer`history
      ensures tracer.history
           == old(tracer.history) + ExceptionEntries(SpanEvents, ctx.parent, name, err, tracer.clock.time.now)
    {
      tracer.AddEvent(ctx, "exception", ExceptionAttrs(err));
    }
  }

  /** The recorder interface with its two implementations. */
  datatype EventRecorder = ToLogs(log: LogEventRecorder) | ToSpan(span: SpanEventRecorder) {
    function Kind(): Recorder { if ToLogs? then LogRecords else SpanEvents }

    function Target(): Tracer { if ToLogs? then log.logger else span.tracer }

    method Event(ctx: Context, name: string, sev: Severity, err: Option<Err>, attrs: seq<Attr>)
      modifies Target()`history
      ensures Target().history
           == old(Target().history) + EventEntries(Kind(), ctx.parent, name, sev, err, attrs, Target().clock.time.now)
    {
      match this
      case ToLogs(r) => r.Event(ctx, name, sev, err, attrs);
      case ToSpan(r) => r.Event(ctx, name, sev, err, attrs);
    }

    method Exception(ctx: Context, name: string, err: Err)
      modifies Target()`history
      ensures Target().history
           == old(Target().history) + ExceptionEntries(Kind(), ctx.parent, name, err, Target().clock.time.now)
    {
      match this
      case ToLogs(r) => r.Exception(ctx, name, err);
      case ToSpan(r) => r.Exception(ctx, name, err);
    }
  }

  class Cache {
    const tracer: Tracer
    const hit: bool

    constructor (tracer: Tracer, hit: bool)
      ensures this.tracer == tracer && this.hit == hit
    {
      this.tracer, this.hit := tracer, hit;
    }

    method Get(ctx: Context, key: string, ghost e: Env) returns (value: string, found: bool, err: Option<Err>)
      requires e.world == tracer.clock.world && e.cacheHit == hit
      modifies tracer, tracer.clock
      ensures tracer.next == old(tracer.next) + 1
      ensures var spec := CacheGet(e, ctx, old(tracer.next), key, old(tracer.clock.time));
              && tracer.history == old(tracer.history) + spec.entries
              && tracer.clock.time == spec.at && value == spec.name && err == spec.err
              && found == (err.None? && hit)
    {
      ghost var h, now := tracer.history, tracer.clock.time.now;
      var child, span := tracer.Start(ctx, "cache get", Internal, []);
      ghost var start := Started(span, ctx.parent, "cache get", Internal, [], now);
      var failure := tracer.clock.Sleep(CACHE_WAIT);
      if failure.Some? {
        tracer.RecordSpanError(span, failure.value);
        value, found, err := "", false, failure;
      } else {
        tracer.SetAttributes(span, [Attr("cache.key", Str(key)), Attr("cache.hit", Flag(hit))]);
        value, found, err := if hit then "cached-name" else "", hit, None;
      }
      assert tracer.history == h + [start] + Enrichment(ctx, span) + CacheOutcome(span, key, hit, err);
      AppendSpan(h, start, Enrichment(ctx, span), CacheOutcome(span, key, hit, err),
                 Ended(span, tracer.clock.time.now));
      tracer.End(span);  // deferred in the source
    }
  }

  class UserDB {
    const tracer: Tracer
    const timeouts: int
    var calls: nat

    constructor (tracer: Tracer, timeouts: int)
      ensures this.tracer == tracer && this.timeouts == timeouts && calls == 0
    {
      this.tracer, this.timeouts := tracer, timeouts;
      calls := 0;
    }

    method SelectUser(ctx: Context, userID: string, attempt: nat, ghost e: Env) returns (name: string, err: Option<Err>)
      requires e.world == tracer.clock.world && e.timeouts == timeouts
      modifies this, tracer, tracer.clock
      ensures tracer.next == old(tracer.next) + 1
      ensures calls == Served(e, old(calls), old(tracer.clock.time))
      ensures var spec := Select(e, userID, ctx, old(tracer.next), attempt, old(calls), old(tracer.clock.time));
              && tracer.history == old(tracer.history) + spec.entries
              && tracer.clock.time == spec.at && name == spec.name && err == spec.err
    {
      ghost var h, now := tracer.history, tracer.clock.time.now;
      var child, span := tracer.Start(ctx, "SELECT users", Client, SelectAttrs(attempt));
      ghost var start := Started(span, ctx.parent, "SELECT users", Client, SelectAttrs(attempt), now);
      assert tracer.history == h + [start] + Enrichment(ctx, span);
      var failure := tracer.clock.Sleep(QUERY_WAIT);
      if failure.Some? {
        tracer.RecordSpanError(span, failure.value);
        name, err := "", failure;
      } else {
        calls := calls + 1;
        if calls <= timeouts {
          RecordTimeout(child, span);
          name, err := "", Some(DBTimeout);
        } else {
          tracer.SetAttributes(span, PoolAttrs(3, 7) + [Attr("db.response.returned_rows", Num(1))]);
          name, err := "name-of-" + userID, None;
        }
      }
      ghost var outcome := SelectOutcome(span, tracer.clock.time.now, err);
      assert tracer.history == h + [start] + Enrichment(ctx, span) + outcome;
      AppendSpan(h, start, Enrichment(ctx, span), outcome, Ended(span, tracer.clock.time.now));
      tracer.End(span);  // deferred in the source
    }

    /** What a timed-out call records: status, pool attributes and a diagnostic record without an event name. */
    method RecordTimeout(child: Context, span: nat)
      requires child.parent == Local(span)
      modifies tracer`history
      ensures tracer.history == old(tracer.history) + SelectOutcome(span, tracer.clock.time.now, Some(DBTimeout))
    {
      tracer.RecordSpanError(span, DBTimeout);
      tracer.SetAttributes(span, PoolAttrs(10, 0));
      var r := EmptyRecord();
      r := r.(at := tracer.clock.time.now);
      r := r.(severity := Debug);
      r := r.(severityText := SeverityText(Debug));
      r := r.(body := Some("connection pool exhausted: in_use=10 idle=0"));
      tracer.Emit(child, r);
    }
  }

  class UserService {
    const tracer: Tracer
    const cache: Cache
    const db: UserDB
    const events: EventRecorder
    const maxAttempts: nat

    constructor (tracer: Tracer, cache: Cache, db: UserDB, events: EventRecorder, maxAttempts: nat)
      requires maxAttempts >= 1
      requires cache.tracer == tracer && db.tracer == tracer && events.Target() == tracer
      ensures this.tracer == tracer && this.cache == cache && this.db == db && this.events == events
      ensures this.maxAttempts == maxAttempts && Valid()
    {
      this.tracer, this.cache, this.db, this.events, this.maxAttempts := tracer, cache, db, events, maxAttempts;
    }

    ghost predicate Valid() {
      maxAttempts >= 1 && cache.tracer == tracer && db.tracer == tracer && events.Target() == tracer
    }

    function Env(): Env {
      FetchSpec.Env(tracer.clock.world, maxAttempts, events.Kind(), cache.hit, db.timeouts)
    }

    method FetchUser(outer: Context, userID: string) returns (name: string, err: Option<Err>)
      requires Valid()
      modifies tracer, tracer.clock, db
      ensures var root, c, served := old(tracer.next), old(tracer.clock.time), old(db.calls);
              var w := WorkOf(Env(), userID, outer, root, served, c);
              && tracer.history == old(tracer.history) + FetchEntries(Env(), userID, outer, root, served, c)
              && tracer.next == NextSpan(root, w) && tracer.clock.time == w.at && db.calls == w.served
              && name == w.name && err == w.err
    {
      ghost var e, h0, c, served := Env(), tracer.history, tracer.clock.time, db.calls;
      var ctx, span := tracer.Start(outer, "fetch user", Internal, [Attr("user.id", Str(userID))]);
      ghost var start, w := RootStart(userID, outer, span, c.now), Lookup(e, userID, ctx, span, served, c);
      assert tracer.history == h0 + start;
      var cacheHit, retries, dbCalls, dbDuration;
      name, err, cacheHit, retries, dbCalls, dbDuration := Run(ctx, userID, w);
      assert tracer.history == h0 + start + w.entries;
      // Deferred calls run last-in first-out: the closure, then End.
      WriteOutcome(ctx, err, cacheHit, retries, dbCalls, dbDuration, w);
      tracer.End(span);
      AppendParts(h0, start, w.entries, Epilogue(e.recorder, span, w), [Ended(span, w.at.now)]);
    }

    /** The deferred closure of `fetchUser`. */
    method WriteOutcome(ctx: Context, err: Option<Err>, cacheHit: bool, retries: nat, dbCalls: nat, dbDuration: nat,
                        ghost w: Work)
      requires Valid() && ctx.parent.Local? && tracer.clock.time == w.at
      requires err == w.err && cacheHit == w.hit && retries == w.retries && dbCalls == |w.took|
          && dbDuration == Sum(w.took)
      modifies tracer`history
      ensures tracer.history == old(tracer.history) + Epilogue(events.Kind(), ctx.parent.id, w)
    {
      var span := ctx.parent.id;
      tracer.SetAttributes(span, [Attr("cache.hit", Flag(cacheHit)),
                                  Attr("retry.count", Num(retries)),
                                  Attr("app.db.call.count", Num(dbCalls)),
                                  Attr("app.db.duration_ms", Num(dbDuration / 1_000_000))]);
      if err.Some? {
        tracer.SetStatusError(span, "fetch user failed");
        tracer.SetAttributes(span, [Attr("error.type", Str(ErrorType(err.value)))]);
        events.Exception(ctx, "user.fetch.exception", err.value);
      }
    }

    /** The statements of `fetchUser` between its defers and its returns. */
    method Run(ctx: Context, userID: string, ghost w: Work)
      returns (name: string, err: Option<Err>, cacheHit: bool, retries: nat, dbCalls: nat, dbDuration: nat)
      requires Valid() && ctx.parent.Local? && tracer.next == ctx.parent.id + 1
      requires w == Lookup(Env(), userID, ctx, ctx.parent.id, db.calls, tracer.clock.time)
      modifies tracer, tracer.clock, db
      ensures tracer.history == old(tracer.history) + w.entries
      ensures tracer.next == NextSpan(ctx.parent.id, w) && tracer.clock.time == w.at && db.calls == w.served
      ensures name == w.name && err == w.err && cacheHit == w.hit
      ensures retries == w.retries && dbCalls == |w.took| && dbDuration == Sum(w.took)
    {
      ghost var e, root := Env(), ctx.parent.id;
      ghost var got := CacheWork(e, userID, root, db.calls, tracer.clock.time);
      name, cacheHit, err := cache.Get(ctx, CacheKey(userID), e);
      if err.Some? || cacheHit {
        retries, dbCalls, dbDuration := 0, 0, 0;
        return;
      }
      ghost var loop := Loop(TurnsOf(e, userID, ctx, root), maxAttempts, 1, db.calls, tracer.clock.time);
      AppendPart(old(tracer.history), got.entries, loop.entries);
      assert w.took == loop.took;
      name, err, retries, dbCalls, dbDuration := RetryLoop(ctx, userID, TurnsOf(e, userID, ctx, root), loop);
    }

    /** The loop over the attempts; `w` is what it has to do. */
    method RetryLoop(ctx: Context, userID: string, ghost turns: Turns, ghost w: Work)
      returns (name: string, err: Option<Err>, retries: nat, dbCalls: nat, dbDuration: nat)
      requires Valid() && ctx.parent.Local? && tracer.next == SelectId(ctx.parent.id, 1)
      requires Plays(turns, Env(), userID, ctx, ctx.parent.id)
      requires w == Loop(turns, maxAttempts, 1, db.calls, tracer.clock.time)
      modifies tracer, tracer.clock, db
      ensures tracer.history == old(tracer.history) + w.entries
      ensures tracer.next == NextSpan(ctx.parent.id, w) && tracer.clock.time == w.at && db.calls == w.served
      ensures name == w.name && err == w.err && !w.hit
      ensures retries == w.retries && dbCalls == |w.took| && dbDuration == Sum(w.took)
    {
      name, err, retries, dbCalls, dbDuration := "", None, 0, 0, 0;
      ghost var done := Work([], tracer.clock.time, "", None, false, 0, [], [], db.calls);
      JoinUnit(done, w);
      var attempt := 1;
      var again := true;
      while again
        invariant 1 <= attempt <= maxAttempts
        invariant tracer.history == old(tracer.history) + done.entries
        invariant tracer.next == SelectId(ctx.parent.id, 1) + dbCalls
        invariant Tallied(done, retries, dbCalls, dbDuration)
        invariant again ==> dbCalls == attempt - 1
        invariant again ==> Remains(w, done, turns, maxAttempts, attempt, db.calls, tracer.clock.time)
        invariant !again ==> w == done && name == w.name && err == w.err && !w.hit
        invariant !again ==> tracer.clock.time == w.at && db.calls == w.served
        decreases again, maxAttempts - attempt
      {
        ghost var t := turns(attempt, db.calls, tracer.clock.time);
        TurnRemains(w, done, turns, maxAttempts, attempt, db.calls, tracer.clock.time);
        AppendPart(old(tracer.history), done.entries, t.work.entries);
        var elapsed, retried;
        name, err, elapsed, retried, again := Attempt(ctx, userID, attempt, turns, t);
        TurnTallied(done, t.work, retries, dbCalls, dbDuration, elapsed);
        dbCalls := dbCalls + 1;
        dbDuration := dbDuration + elapsed;
        retries := retries + if retried then 1 else 0;
        done := Join(done, t.work);
        if again {
          attempt := attempt + 1;
        }
      }
    }

    /** The body of the loop; `again` is false where the source returns. */
    method Attempt(ctx: Context, userID: string, attempt: nat, ghost turns: Turns, ghost t: Turn)
      returns (name: string, err: Option<Err>, elapsed: nat, retried: bool, again: bool)
      requires Valid() && ctx.parent.Local? && tracer.next == SelectId(ctx.parent.id, attempt) && attempt <= maxAttempts
      requires Plays(turns, Env(), userID, ctx, ctx.parent.id) && t == turns(attempt, db.calls, tracer.clock.time)
      modifies tracer, tracer.clock, db
      ensures tracer.history == old(tracer.history) + t.work.entries && tracer.next == old(tracer.next) + 1
      ensures tracer.clock.time == t.work.at && db.calls == t.work.served
      ensures name == t.work.name && err == t.work.err && [elapsed] == t.work.took
      ensures t.work.retries == if retried then 1 else 0
      ensures !t.work.hit && again == t.again && (again ==> attempt < maxAttempts)
    {
      ghost var e := Env();
      assert t == TurnOf(e, userID, ctx, ctx.parent.id, attempt, db.calls, tracer.clock.time);
      name, err, elapsed := TimedSelect(ctx, userID, attempt, e);
      if err.None? || attempt == maxAttempts {
        retried, again := false, false;
      } else {
        err := Retry(ctx, attempt, err.value, e);
        name, retried, again := "", true, err.None?;
      }
    }

    /** Records the decision to try again, then backs off. */
    method Retry(ctx: Context, attempt: nat, cause: Err, ghost e: FetchSpec.Env) returns (err: Option<Err>)
      requires Valid() && ctx.parent.Local? && e == Env()
      modifies tracer`history, tracer.clock
      ensures tracer.history
           == old(tracer.history) + [RetryEntry(e.recorder, ctx.parent.id, attempt, cause, old(tracer.clock.time).now)]
      ensures tracer.clock.time == e.world.Pass(old(tracer.clock.time), Backoff(attempt))
      ensures err == e.world.WaitError(old(tracer.clock.time), Backoff(attempt))
    {
      var backoff := attempt * 10_000_000;
      events.Event(ctx, "db.query.retry", Warn, Some(cause),
                   [Attr("retry.attempt", Num(attempt + 1)),
                    Attr("retry.backoff_ms", Num(backoff / 1_000_000)),
                    Attr("error.type", Str(ErrorType(cause)))]);
      err := tracer.clock.Sleep(backoff);
    }

    /** One database call with the clock readings around it. */
    method TimedSelect(ctx: Context, userID: string, attempt: nat, ghost e: FetchSpec.Env)
      returns (name: string, err: Option<Err>, elapsed: nat)
      requires Valid() && ctx.parent.Local? && e == Env()
      modifies tracer, tracer.clock, db
      ensures tracer.next == old(tracer.next) + 1
      ensures var start := e.world.Pass(old(tracer.clock.time), 0);
              var q := Select(e, userID, ctx, old(tracer.next), attempt, old(db.calls), start);
              && tracer.history == old(tracer.history) + q.entries && name == q.name && err == q.err
              && tracer.clock.time == e.world.Pass(q.at, 0) && db.calls == Served(e, old(db.calls), start)
              && elapsed == tracer.clock.time.now - start.now
    {
      var start := tracer.clock.Now();
      name, err := db.SelectUser(ctx, userID, attempt, e);
      var stop := tracer.clock.Now();
      elapsed := stop - start;
    }
  }

  /** `turns` are the turns of this request. */
  ghost predicate Plays(turns: Turns, e: FetchSpec.Env, user: string, ctx: Context, root: nat) {
    forall a, n, k {:trigger TurnOf(e, user, ctx, root, a, n, k)} ::
      turns(a, n, k) == TurnOf(e, user, ctx, root, a, n, k)
  }

  lemma JoinUnit(a: Work, b: Work)
    requires a.entries == [] && a.took == [] && a.waited == [] && a.retries == 0
    ensures Join(a, b) == b
  {
    assert a.entries + b.entries == b.entries && a.took + b.took == b.took && a.waited + b.waited == b.waited;
  }

  lemma JoinAssoc(a: Work, b: Work, c: Work)
    ensures Join(Join(a, b), c) == Join(a, Join(b, c))
  {
    assert a.entries + b.entries + c.entries == a.entries + (b.entries + c.entries);
    assert a.took + b.took + c.took == a.took + (b.took + c.took);
    assert a.waited + b.waited + c.waited == a.waited + (b.waited + c.waited);
  }

  /** The counters of the loop are those of the work done so far. */
  ghost predicate Tallied(done: Work, retries: nat, dbCalls: nat, dbDuration: nat) {
    retries == done.retries && dbCalls == |done.took| && dbDuration == Sum(done.took)
  }

  lemma TurnTallied(done: Work, turn: Work, retries: nat, dbCalls: nat, dbDuration: nat, elapsed: nat)
    requires Tallied(done, retries, dbCalls, dbDuration) && turn.took == [elapsed]
    ensures Tallied(Join(done, turn), retries + turn.retries, dbCalls + 1, dbDuration + elapsed)
  {
    SumAppend(done.took, elapsed);
  }

  /** The work is what has been done and what the loop still has to do from `attempt` on. */
  ghost predicate Remains(w: Work, done: Work, turns: Turns, limit: nat, attempt: nat, served: nat, c: Instant) {
    attempt <= limit && w == Join(done, Loop(turns, limit, attempt, served, c))
  }

  lemma TurnRemains(w: Work, done: Work, turns: Turns, limit: nat, attempt: nat, served: nat, c: Instant)
    requires Remains(w, done, turns, limit, attempt, served, c)
    ensures var t := turns(attempt, served, c);
            var next := Join(done, t.work);
            if t.again && attempt < limit then Remains(w, next, turns, limit, attempt + 1, t.work.served, t.work.at)
            else w == next && next.at == t.work.at && next.served == t.work.served && next.hit == t.work.hit
  {
    var t := turns(attempt, served, c);
    if t.again && attempt < limit {
      JoinAssoc(done, t.work, Loop(turns, limit, attempt + 1, t.work.served, t.work.at));
    }
  }

  lemma AppendSpan<T>(h: seq<T>, start: T, enrichment: seq<T>, outcome: seq<T>, end: T)
    ensures h + [start] + enrichment + outcome + [end] == h + ([start] + (enrichment + outcome) + [end])
  {
  }

  lemma AppendPart<T>(h: seq<T>, a: seq<T>, b: seq<T>)
    ensures h + a + b == h + (a + b)
  {
  }

  lemma AppendParts<T>(h: seq<T>, a: seq<T>, b: seq<T>, c: seq<T>, d: seq<T>)
    ensures h + a + b + c + d == h + (a + b + c + d)
  {
  }
}
