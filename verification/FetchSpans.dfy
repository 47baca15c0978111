/** Spans as a stack: every history of a request replays on a board of open and ended spans. */
module FetchSpans {
  import opened Telemetry
  import opened Clocks
  import opened FetchSpec

  // ----- Replaying a history -----

  /** The open spans, innermost last, and the ended ones. */
  datatype Board = Board(open: seq<nat>, ended: set<nat>)

  predicate TopIs(b: Board, span: nat) { b.open != [] && b.open[|b.open| - 1] == span }

  /**
   * The effect of one entry, or None if the entry is out of order: a span starts once, as a child of the
   * innermost open span; only the innermost span ends, and only once; attributes, statuses, events and
   * correlated records go to open spans.
   */
  function Apply(b: Board, x: Entry): Option<Board> {
    match x
    case Started(span, parent, _, _, _, _) =>
      var nested := if parent.Local? then TopIs(b, parent.id) else b.open == [];
      if nested && span !in b.open && span !in b.ended then Some(Board(b.open + [span], b.ended)) else None
    case Ended(span, _) =>
      if TopIs(b, span) then Some(Board(b.open[..|b.open| - 1], b.ended + {span})) else None
    case Emitted(context, _) =>
      if context.Local? && context.id !in b.open then None else Some(b)
    case _ =>
      if x.span in b.open then Some(b) else None
  }

  function Replay(b: Board, h: seq<Entry>): Option<Board>
    decreases |h|
  {
    if h == [] then Some(b) else
      var next := Apply(b, h[0]);
      if next.None? then None else Replay(next.value, h[1..])
  }

  lemma {:induction false} ReplayConcat(b: Board, g: seq<Entry>, h: seq<Entry>)
    ensures Replay(b, g + h) == var m := Replay(b, g); if m.None? then None else Replay(m.value, h)
    decreases |g|
  {
    if g == [] {
      assert g + h == h;
    } else {
      assert (g + h)[1..] == g[1..] + h;
      var next := Apply(b, g[0]);
      if next.Some? {
        ReplayConcat(next.value, g[1..], h);
      }
    }
  }

  /** A history in order is in order up to each of its points: the discipline holds in every reachable state. */
  lemma ReplayPrefix(b: Board, h: seq<Entry>, k: nat)
    requires k <= |h| && Replay(b, h).Some?
    ensures Replay(b, h[..k]).Some?
  {
    assert h == h[..k] + h[k..];
    ReplayConcat(b, h[..k], h[k..]);
  }

  lemma {:induction false} ReplayIdle(b: Board, h: seq<Entry>)
    requires forall x :: x in h ==> Apply(b, x) == Some(b)
    ensures Replay(b, h) == Some(b)
  {
    if h == [] {
    } else {
      ReplayIdle(b, h[1..]);
    }
  }

  // ----- Child spans -----

  /** `root` is innermost and the span numbers from `id` on are unused. */
  ghost predicate Ready(b: Board, root: nat, id: nat) {
    TopIs(b, root) && (forall i :: i in b.open || i in b.ended ==> i < id)
  }

  function Numbers(id: nat, n: nat): (r: set<nat>)
    ensures forall i :: i in r <==> id <= i < id + n
  {
    if n == 0 then {} else Numbers(id, n - 1) + {id + n - 1}
  }

  /** After n spans numbered from `id` have come and gone. */
  ghost function After(b: Board, id: nat, n: nat): Board {
    Board(b.open, b.ended + Numbers(id, n))
  }

  /** The entries bring n child spans of `root`, numbered from `id`, and leave the stack as it was. */
  ghost predicate Brings(entries: seq<Entry>, root: nat, id: nat, n: nat) {
    forall b :: Ready(b, root, id) ==> Replay(b, entries) == Some(After(b, id, n))
  }

  lemma AfterReady(b: Board, root: nat, id: nat, n: nat, m: nat)
    requires Ready(b, root, id)
    ensures Ready(After(b, id, n), root, id + n)
    ensures After(After(b, id, n), id + n, m) == After(b, id, n + m)
  {
    assert Numbers(id, n) + Numbers(id + n, m) == Numbers(id, n + m);
  }

  lemma BringsConcat(g: seq<Entry>, h: seq<Entry>, root: nat, id: nat, n: nat, m: nat)
    requires Brings(g, root, id, n) && Brings(h, root, id + n, m)
    ensures Brings(g + h, root, id, n + m)
  {
    forall b | Ready(b, root, id) ensures Replay(b, g + h) == Some(After(b, id, n + m)) {
      ReplayConcat(b, g, h);
      AfterReady(b, root, id, n, m);
    }
  }

  lemma SpanBrings(start: Entry, body: seq<Entry>, end: Entry, root: nat, id: nat)
    requires start.Started? && start.span == id && start.parent == Local(root)
    requires end.Ended? && end.span == id
    requires forall x :: x in body ==> OnSpan(x, id)
    ensures Brings([start] + body + [end], root, id, 1)
  {
    forall b | Ready(b, root, id) ensures Replay(b, [start] + body + [end]) == Some(After(b, id, 1)) {
      var inner := Board(b.open + [id], b.ended);
      assert Replay(b, [start]) == Some(inner);
      ReplayIdle(inner, body);
      ReplayConcat(b, [start], body);
      ReplayConcat(b, [start] + body, [end]);
      assert inner.open[..|inner.open| - 1] == b.open;
      assert Numbers(id, 1) == {id};
      assert Replay(inner, [end]) == Some(After(b, id, 1));
    }
  }

  lemma RetryBrings(r: Recorder, root: nat, id: nat, attempt: nat, err: Err, at: nat)
    ensures Brings([RetryEntry(r, root, attempt, err, at)], root, id, 0)
  {
    var x := RetryEntry(r, root, attempt, err, at);
    forall b | Ready(b, root, id) ensures Replay(b, [x]) == Some(After(b, id, 0)) {
      ReplayIdle(b, [x]);
      assert b.ended + Numbers(id, 0) == b.ended;
    }
  }

  // ----- The loop and the request -----

  ghost predicate TurnBrings(t: Turn, root: nat, attempt: nat) {
    |t.work.took| == 1 && Brings(t.work.entries, root, SelectId(root, attempt), 1)
  }

  lemma TurnFromBrings(e: Env, root: nat, attempt: nat, start: Instant, q: Step, served: nat)
    requires start.now <= q.at.now && Brings(q.entries, root, SelectId(root, attempt), 1)
    ensures TurnBrings(TurnFrom(e, root, attempt, start, q, served), root, attempt)
  {
    if q.err.Some? && attempt != e.limit {
      var stop := e.world.Pass(q.at, 0).now;
      RetryBrings(e.recorder, root, SelectId(root, attempt) + 1, attempt, q.err.value, stop);
      BringsConcat(q.entries, [RetryEntry(e.recorder, root, attempt, q.err.value, stop)], root,
                   SelectId(root, attempt), 1, 0);
    }
  }

  lemma TurnOfBrings(e: Env, user: string, ctx: Context, root: nat, attempt: nat, served: nat, c: Instant)
    requires ctx.parent == Local(root)
    ensures TurnBrings(TurnOf(e, user, ctx, root, attempt, served, c), root, attempt)
  {
    var id, start := SelectId(root, attempt), e.world.Pass(c, 0);
    var q := Select(e, user, ctx, id, attempt, served, start);
    BodiesOnSpan(ctx, id, "", false, q.at.now, q.err);
    SpanBrings(Started(id, ctx.parent, "SELECT users", Client, SelectAttrs(attempt), start.now),
               SelectBody(ctx, id, q.at.now, q.err), Ended(id, q.at.now), root, id);
    TurnFromBrings(e, root, attempt, start, q, Served(e, served, start));
  }

  lemma {:induction false} LoopBrings(turns: Turns, root: nat, limit: nat, attempt: nat, served: nat, c: Instant)
    requires attempt <= limit
    requires forall a, n, k :: TurnBrings(turns(a, n, k), root, a)
    ensures var w := Loop(turns, limit, attempt, served, c);
            Brings(w.entries, root, SelectId(root, attempt), |w.took|)
    decreases limit - attempt
  {
    var t := turns(attempt, served, c);
    assert TurnBrings(t, root, attempt);
    if !t.again || attempt == limit {
    } else {
      LoopBrings(turns, root, limit, attempt + 1, t.work.served, t.work.at);
      var rest := Loop(turns, limit, attempt + 1, t.work.served, t.work.at);
      BringsConcat(t.work.entries, rest.entries, root, SelectId(root, attempt), 1, |rest.took|);
    }
  }

  lemma CacheBrings(e: Env, user: string, root: nat, served: nat, c: Instant)
    ensures Brings(CacheWork(e, user, root, served, c).entries, root, root + 1, 1)
  {
    var id, key, err, after := root + 1, CacheKey(user), e.world.WaitError(c, CACHE_WAIT), e.world.Pass(c, CACHE_WAIT);
    BodiesOnSpan(Inside(root), id, key, e.cacheHit, 0, err);
    SpanBrings(Started(id, Local(root), "cache get", Internal, [], c.now),
               CacheBody(Inside(root), id, key, e.cacheHit, err), Ended(id, after.now), root, id);
  }

  lemma ContinueBrings(get: Work, turns: Turns, root: nat, limit: nat)
    requires limit >= 1 && get.took == [] && Brings(get.entries, root, root + 1, 1)
    requires forall a, n, k :: TurnBrings(turns(a, n, k), root, a)
    ensures var w := Continue(get, turns, limit);
            Brings(w.entries, root, root + 1, 1 + |w.took|)
  {
    LoopBrings(turns, root, limit, 1, get.served, get.at);
    var loop := Loop(turns, limit, 1, get.served, get.at);
    BringsConcat(get.entries, loop.entries, root, root + 1, 1, |loop.took|);
  }

  lemma LookupBrings(e: Env, user: string, ctx: Context, root: nat, served: nat, c: Instant)
    requires e.limit >= 1 && ctx.parent == Local(root)
    ensures var w := Lookup(e, user, ctx, root, served, c);
            Brings(w.entries, root, root + 1, 1 + |w.took|)
  {
    CacheBrings(e, user, root, served, c);
    var turns := TurnsOf(e, user, ctx, root);
    forall a, n, k ensures TurnBrings(turns(a, n, k), root, a) {
      TurnOfBrings(e, user, ctx, root, a, n, k);
    }
    ContinueBrings(CacheWork(e, user, root, served, c), turns, root, e.limit);
  }

  /** Entries that the epilogue and `End` of the root span put on a board where it is innermost. */
  lemma TailReplays(b: Board, r: Recorder, root: nat, w: Work)
    requires TopIs(b, root)
    ensures Replay(b, Epilogue(r, root, w) + [Ended(root, w.at.now)])
        == Some(Board(b.open[..|b.open| - 1], b.ended + {root}))
  {
    var end := [Ended(root, w.at.now)];
    ReplayIdle(b, Epilogue(r, root, w));
    ReplayConcat(b, Epilogue(r, root, w), end);
    assert end[1..] == [];
  }

  lemma HeadReplays(b: Board, user: string, ctx: Context, root: nat, now: nat)
    requires if ctx.parent.Local? then TopIs(b, ctx.parent.id) else b.open == []
    requires root !in b.open && root !in b.ended
    ensures Replay(b, RootStart(user, ctx, root, now)) == Some(Board(b.open + [root], b.ended))
  {
    var start := [Started(root, ctx.parent, "fetch user", Internal, [Attr("user.id", Str(user))], now)];
    var inner := Board(b.open + [root], b.ended);
    assert start[1..] == [];
    assert Replay(b, start) == Some(inner);
    ReplayIdle(inner, Enrichment(ctx, root));
    ReplayConcat(b, start, Enrichment(ctx, root));
  }

  lemma PartsReplay(b: Board, head: seq<Entry>, work: seq<Entry>, tail: seq<Entry>, root: nat, n: nat)
    requires forall i :: i in b.open || i in b.ended ==> i < root
    requires Replay(b, head) == Some(Board(b.open + [root], b.ended))
    requires Brings(work, root, root + 1, n)
    requires forall m :: TopIs(m, root) ==> Replay(m, tail) == Some(Board(m.open[..|m.open| - 1], m.ended + {root}))
    ensures Replay(b, head + work + tail) == Some(After(b, root, 1 + n))
  {
    var inner := Board(b.open + [root], b.ended);
    var worked := After(inner, root + 1, n);
    assert Ready(inner, root, root + 1);
    ReplayConcat(b, head, work);
    assert Replay(b, head + work) == Some(worked);
    ReplayConcat(b, head + work, tail);
    RootCloses(b, root, n);
  }

  lemma RootCloses(b: Board, root: nat, n: nat)
    ensures var worked := After(Board(b.open + [root], b.ended), root + 1, n);
            TopIs(worked, root) && Board(worked.open[..|worked.open| - 1], worked.ended + {root})
                == After(b, root, 1 + n)
  {
    assert (b.open + [root])[..|b.open|] == b.open;
    assert Numbers(root + 1, n) + {root} == Numbers(root, 1 + n);
    assert b.ended + Numbers(root + 1, n) + {root} == b.ended + (Numbers(root + 1, n) + {root});
  }

  /**
   * The whole history of a request replays: its root is a child of the innermost open span (or a root when the
   * context carries no span of this process), all its spans nest, each is ended exactly once, nothing is written
   * to an ended span, and the stack is left as it was found.
   */
  lemma RequestReplays(b: Board, e: Env, user: string, ctx: Context, root: nat, served: nat, c: Instant)
    requires e.limit >= 1
    requires if ctx.parent.Local? then TopIs(b, ctx.parent.id) else b.open == []
    requires forall i :: i in b.open || i in b.ended ==> i < root
    ensures var w := WorkOf(e, user, ctx, root, served, c);
            && Replay(b, FetchEntries(e, user, ctx, root, served, c)) == Some(After(b, root, 2 + |w.took|))
            && NextSpan(root, w) == root + 2 + |w.took|
  {
    var w := WorkOf(e, user, ctx, root, served, c);
    HeadReplays(b, user, ctx, root, c.now);
    LookupBrings(e, user, ctx.(parent := Local(root)), root, served, c);
    var tail := Epilogue(e.recorder, root, w) + [Ended(root, w.at.now)];
    forall m | TopIs(m, root) ensures Replay(m, tail) == Some(Board(m.open[..|m.open| - 1], m.ended + {root})) {
      TailReplays(m, e.recorder, root, w);
    }
    PartsReplay(b, RootStart(user, ctx, root, c.now), w.entries, tail, root, 1 + |w.took|);
    assert RootStart(user, ctx, root, c.now) + w.entries + tail == FetchEntries(e, user, ctx, root, served, c);
  }
}
