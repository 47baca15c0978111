/** The rows of the child spans of a request, and the retry events between them, in literal terms. */
module ChildRows {
  import opened Telemetry
  import opened Clocks
  import opened FetchSpec
  import opened FetchCounters
  import opened DatabaseCalls
  import opened Rows

  // ----- One database call -----

  /** The columns every SELECT span starts with. */
  function CallColumns(attempt: nat): map<string, Value> {
    map["db.system.name" := Str("postgresql"),
        "db.operation.name" := Str("SELECT"),
        "db.collection.name" := Str("users"),
        "db.client.connection.pool.name" := Str("users-primary"),
        "app.db.attempt" := Num(attempt)]
  }

  /**
   * How a call reads in its row. A timeout shows an exhausted pool and returns no rows, an answer shows a pool with
   * room and one row, and an interruption shows nothing of the pool.
   */
  function CallRow(parent: Parent, attempt: nat, err: Option<Err>, start: nat, end: nat): Row {
    var columns := CallColumns(attempt);
    match err
    case None =>
      Row("SELECT users", Client, parent, start, end,
          columns["app.db.pool.in_use" := Num(3)]["app.db.pool.idle" := Num(7)]["db.response.returned_rows" := Num(1)],
          None, true)
    case Some(DBTimeout) =>
      Row("SELECT users", Client, parent, start, end,
          columns["error.type" := Str("*main.DBTimeoutError")]
                 ["app.db.pool.in_use" := Num(10)]["app.db.pool.idle" := Num(0)],
          Some("db query timeout"), true)
    case Some(Canceled) =>
      Row("SELECT users", Client, parent, start, end, columns["error.type" := Str("*errors.errorString")],
          Some("context canceled"), true)
    case Some(DeadlineExceeded) =>
      Row("SELECT users", Client, parent, start, end, columns["error.type" := Str("context.deadlineExceededError")],
          Some("context deadline exceeded"), true)
  }

  lemma SelectColumns(attempt: nat)
    ensures Put(map[], SelectAttrs(attempt)) == CallColumns(attempt)
  {
    var attrs := SelectAttrs(attempt);
    assert attrs == attrs[..4] + attrs[4..] && attrs[4..] == [attrs[4]];
    assert attrs[..4] == [attrs[0], attrs[1], attrs[2], attrs[3]];
    PutConcat(map[], attrs[..4], attrs[4..]);
    Put4(map[], attrs[0], attrs[1], attrs[2], attrs[3]);
    Put1(Put(map[], attrs[..4]), attrs[4]);
  }

  lemma FailedSpanRow(r: Row, id: nat, err: Err)
    ensures RowOf(r, id, FailedSpan(id, err))
         == r.(error := Some(Message(err)), columns := r.columns["error.type" := Str(ErrorType(err))])
  {
    var status, attrs := SetError(id, Message(err)), [Attr("error.type", Str(ErrorType(err)))];
    assert FailedSpan(id, err) == [status] + [SetAttrs(id, attrs)];
    RowOne(r, id, status);
    RowAppend(r, id, [status], SetAttrs(id, attrs));
    Put1(r.columns, attrs[0]);
  }

  lemma TimeoutRow(r: Row, id: nat, at: nat)
    ensures RowOf(r, id, SelectOutcome(id, at, Some(DBTimeout)))
         == r.(error := Some("db query timeout"),
               columns := r.columns["error.type" := Str("*main.DBTimeoutError")]
                                   ["app.db.pool.in_use" := Num(10)]["app.db.pool.idle" := Num(0)])
  {
    ErrorsRead();
    FailedSpanRow(r, id, DBTimeout);
    var failed, pool := FailedSpan(id, DBTimeout), PoolAttrs(10, 0);
    assert SelectOutcome(id, at, Some(DBTimeout)) == failed + [SetAttrs(id, pool)] + [Diagnostic(id, at)];
    RowAppend(r, id, failed, SetAttrs(id, pool));
    RowAppend(r, id, failed + [SetAttrs(id, pool)], Diagnostic(id, at));
    Put2(RowOf(r, id, failed).columns, pool[0], pool[1]);
  }

  lemma AnswerRow(r: Row, id: nat, at: nat)
    ensures RowOf(r, id, SelectOutcome(id, at, None))
         == r.(columns := r.columns["app.db.pool.in_use" := Num(3)]["app.db.pool.idle" := Num(7)]
                                   ["db.response.returned_rows" := Num(1)])
  {
    var pool, rows := PoolAttrs(3, 7), Attr("db.response.returned_rows", Num(1));
    RowOne(r, id, SetAttrs(id, pool + [rows]));
    assert pool + [rows] == [pool[0], pool[1], rows];
    Put3(r.columns, pool[0], pool[1], rows);
  }

  lemma OutcomeRow(r: Row, parent: Parent, id: nat, attempt: nat, start: nat, end: nat, err: Option<Err>)
    requires r == Row("SELECT users", Client, parent, start, 0, CallColumns(attempt), None, false)
    ensures RowOf(r, id, SelectOutcome(id, end, err)).(end := end, ended := true)
         == CallRow(parent, attempt, err, start, end)
  {
    ErrorsRead();
    match err
    case None => AnswerRow(r, id, end);
    case Some(DBTimeout) => TimeoutRow(r, id, end);
    case Some(cause) => FailedSpanRow(r, id, cause);
  }

  /** A span that starts without request info: its row, from start to end. */
  lemma SpanRow(ctx: Context, id: nat, start: Entry, outcome: seq<Entry>, at: nat)
    requires ctx.parent.Local? || ctx.info.None?
    ensures RowOf(EMPTY, id, [start] + (Enrichment(ctx, id) + outcome) + [Ended(id, at)])
         == RowOf(Write(EMPTY, id, start), id, outcome).(end := at, ended := true)
  {
    assert Enrichment(ctx, id) + outcome == outcome;
    RowAppend(EMPTY, id, [start] + outcome, Ended(id, at));
    RowConcat(EMPTY, id, [start], outcome);
    RowOne(EMPTY, id, start);
  }

  lemma EntriesRow(ctx: Context, id: nat, attempt: nat, c: Instant, after: Instant, err: Option<Err>)
    requires ctx.parent.Local? || ctx.info.None?
    ensures RowOf(EMPTY, id, SelectEntries(ctx, id, attempt, c, after, err))
         == CallRow(ctx.parent, attempt, err, c.now, after.now)
  {
    var start := Started(id, ctx.parent, "SELECT users", Client, SelectAttrs(attempt), c.now);
    SelectColumns(attempt);
    SpanRow(ctx, id, start, SelectOutcome(id, after.now, err), after.now);
    OutcomeRow(Write(EMPTY, id, start), ctx.parent, id, attempt, c.now, after.now, err);
  }

  function Decimal(n: nat): string {
    (if n < 10 then "" else Decimal(n / 10)) + ["0123456789"[n % 10]]
  }

  /** The diagnostic record of a timed-out call: on its span, without a name, and with the numbers of its row. */
  ghost predicate DiagnosticReads(x: Entry, id: nat, row: Row) {
    && "app.db.pool.in_use" in row.columns && row.columns["app.db.pool.in_use"].Num?
    && "app.db.pool.idle" in row.columns && row.columns["app.db.pool.idle"].Num?
    && var inUse, idle := row.columns["app.db.pool.in_use"].n, row.columns["app.db.pool.idle"].n;
    && inUse >= 0 && idle >= 0
    && x == Emitted(Local(id), Record("", row.end, Debug, "DEBUG",
                                      Some("connection pool exhausted: in_use=" + Decimal(inUse)
                                           + " idle=" + Decimal(idle)), []))
  }

  lemma DiagnosticIs(parent: Parent, id: nat, attempt: nat, start: nat, end: nat)
    ensures DiagnosticReads(Diagnostic(id, end), id, CallRow(parent, attempt, Some(DBTimeout), start, end))
  {
    assert Decimal(10) == "10" && Decimal(0) == "0";
    assert "connection pool exhausted: in_use=" + "10" + " idle=" + "0"
        == "connection pool exhausted: in_use=10 idle=0";
  }

  /** One call on any database, under any context with no request info to add: its row and its diagnostics. */
  lemma SelectReads(e: Env, user: string, ctx: Context, id: nat, attempt: nat, served: nat, c: Instant)
    requires ctx.parent.Local? || ctx.info.None?
    ensures var q := Select(e, user, ctx, id, attempt, served, c);
            var row, logs := RowOf(EMPTY, id, q.entries), Filter(IsDiagnostic, q.entries);
            && row == CallRow(ctx.parent, attempt, q.err, c.now, q.at.now)
            && |logs| == (if q.err == Some(DBTimeout) then 1 else 0)
            && (q.err == Some(DBTimeout) ==> DiagnosticReads(logs[0], id, row))
  {
    var q := Select(e, user, ctx, id, attempt, served, c);
    EntriesRow(ctx, id, attempt, c, q.at, q.err);
    CallDiagnoses(ctx, id, attempt, c, q.at, q.err);
    DiagnosticIs(ctx.parent, id, attempt, c.now, q.at.now);
  }

  // ----- The cache lookup -----

  /** How the lookup reads in its row: the key and the answer, or the context's error and neither. */
  function LookupRow(parent: Parent, user: string, hit: bool, err: Option<ContextErr>, start: nat, end: nat): Row {
    match err
    case None =>
      Row("cache get", Internal, parent, start, end,
          map["cache.key" := Str("user:" + user), "cache.hit" := Flag(hit)], None, true)
    case Some(Canceled) =>
      Row("cache get", Internal, parent, start, end, map["error.type" := Str("*errors.errorString")],
          Some("context canceled"), true)
    case Some(DeadlineExceeded) =>
      Row("cache get", Internal, parent, start, end, map["error.type" := Str("context.deadlineExceededError")],
          Some("context deadline exceeded"), true)
  }

  lemma CacheReads(e: Env, user: string, ctx: Context, id: nat, c: Instant)
    requires ctx.parent.Local? || ctx.info.None?
    ensures var get := CacheGet(e, ctx, id, CacheKey(user), c);
            RowOf(EMPTY, id, get.entries)
            == LookupRow(ctx.parent, user, e.cacheHit, e.world.WaitError(c, CACHE_WAIT), c.now, get.at.now)
  {
    var err, after := e.world.WaitError(c, CACHE_WAIT), e.world.Pass(c, CACHE_WAIT);
    var start := Started(id, ctx.parent, "cache get", Internal, [], c.now);
    var outcome := CacheOutcome(id, CacheKey(user), e.cacheHit, err);
    var r := Write(EMPTY, id, start);
    SpanRow(ctx, id, start, outcome, after.now);
    ErrorsRead();
    if err.Some? {
      FailedSpanRow(r, id, err.value);
    } else {
      var attrs := [Attr("cache.key", Str(CacheKey(user))), Attr("cache.hit", Flag(e.cacheHit))];
      RowOne(r, id, SetAttrs(id, attrs));
      Put2(map[], attrs[0], attrs[1]);
    }
  }
}
