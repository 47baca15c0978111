/** Any sequence of calls on one database, with the context interrupting any of them. */
module DatabaseCalls {
  import opened Telemetry
  import opened Clocks
  import opened FetchSpec
  import opened FetchCounters
  import opened FetchTime

  /** A call: its attempt number, its span and the instant it is made at. */
  datatype Call = Call(attempt: nat, id: nat, at: Instant)

  /** The calls in order, the database counting the completed ones from `served` on. */
  function Calls(e: Env, user: string, ctx: Context, calls: seq<Call>, served: nat): seq<Step>
    decreases |calls|
  {
    if calls == [] then [] else
      var c := calls[0];
      [Select(e, user, ctx, c.id, c.attempt, served, c.at)] + Calls(e, user, ctx, calls[1..], Served(e, served, c.at))
  }

  function ServedBy(e: Env, calls: seq<Call>, served: nat): nat
    decreases |calls|
  {
    if calls == [] then served else ServedBy(e, calls[1..], Served(e, served, calls[0].at))
  }

  predicate Completed(q: Step) { q.err.None? || q.err == Some(DBTimeout) }

  predicate TimedOut(q: Step) { q.err == Some(DBTimeout) }

  function AllEntries(steps: seq<Step>): seq<Entry> {
    if steps == [] then [] else steps[0].entries + AllEntries(steps[1..])
  }

  lemma CallCompletes(e: Env, user: string, ctx: Context, c: Call, served: nat)
    ensures var q := Select(e, user, ctx, c.id, c.attempt, served, c.at);
            && Filter(Completed, [q]) == (if e.world.Interrupts(c.at, QUERY_WAIT) then [] else [q])
            && (Completed(q) ==> (TimedOut(q) <==> Remaining(e.timeouts, served) > 0))
  {
    var q := Select(e, user, ctx, c.id, c.attempt, served, c.at);
    assert [q][1..] == [];
  }

  /**
   * The calls that time out are the first of the completed ones, as many as timeouts are left; interrupted calls
   * use up none. The database has counted exactly the completed calls.
   */
  lemma {:induction false} FirstCallsTimeOut(e: Env, user: string, ctx: Context, calls: seq<Call>, served: nat)
    ensures var completed := Filter(Completed, Calls(e, user, ctx, calls, served));
            && (forall j :: 0 <= j < |completed| ==> (TimedOut(completed[j]) <==> j < Remaining(e.timeouts, served)))
            && ServedBy(e, calls, served) == served + |completed|
    decreases |calls|
  {
    if calls == [] {
    } else {
      var c := calls[0];
      var q := Select(e, user, ctx, c.id, c.attempt, served, c.at);
      var rest := Calls(e, user, ctx, calls[1..], Served(e, served, c.at));
      FirstCallsTimeOut(e, user, ctx, calls[1..], Served(e, served, c.at));
      FilterConcat(Completed, [q], rest);
      CallCompletes(e, user, ctx, c, served);
    }
  }

  /** The diagnostic records and the timeout statuses among some entries. */
  ghost predicate Diagnoses(h: seq<Entry>, logs: seq<Entry>, statuses: seq<Entry>) {
    Filter(IsDiagnostic, h) == logs && Filter(IsTimeoutStatus, h) == statuses
  }

  lemma OutcomeDiagnoses(id: nat, at: nat, err: Option<Err>)
    ensures Diagnoses(SelectOutcome(id, at, err), if err == Some(DBTimeout) then [Diagnostic(id, at)] else [],
                      if err == Some(DBTimeout) then [SetError(id, Message(DBTimeout))] else [])
  {
    var h := SelectOutcome(id, at, err);
    if err == Some(DBTimeout) {
      FilterOnly(IsDiagnostic, h, 3);
      FilterOnly(IsTimeoutStatus, h, 0);
    } else {
      FilterNone(IsDiagnostic, h);
      FilterNone(IsTimeoutStatus, h);
    }
  }

  lemma SpanDiagnoses(start: Entry, enrichment: seq<Entry>, outcome: seq<Entry>, end: Entry, logs: seq<Entry>,
                      statuses: seq<Entry>)
    requires start.Started? && end.Ended? && (forall x :: x in enrichment ==> x.SetAttrs?)
    requires Diagnoses(outcome, logs, statuses)
    ensures Diagnoses([start] + (enrichment + outcome) + [end], logs, statuses)
  {
    var head := [start] + enrichment;
    assert [start] + (enrichment + outcome) + [end] == head + outcome + [end];
    FilterNone(IsDiagnostic, head);
    FilterNone(IsTimeoutStatus, head);
    FilterNone(IsDiagnostic, [end]);
    FilterNone(IsTimeoutStatus, [end]);
    FilterConcat(IsDiagnostic, head, outcome);
    FilterConcat(IsTimeoutStatus, head, outcome);
    FilterConcat(IsDiagnostic, head + outcome, [end]);
    FilterConcat(IsTimeoutStatus, head + outcome, [end]);
  }

  lemma CallDiagnoses(ctx: Context, id: nat, attempt: nat, c: Instant, after: Instant, err: Option<Err>)
    ensures Diagnoses(SelectEntries(ctx, id, attempt, c, after, err),
                      if err == Some(DBTimeout) then [Diagnostic(id, after.now)] else [],
                      if err == Some(DBTimeout) then [SetError(id, Message(DBTimeout))] else [])
  {
    OutcomeDiagnoses(id, after.now, err);
    SpanDiagnoses(Started(id, ctx.parent, "SELECT users", Client, SelectAttrs(attempt), c.now), Enrichment(ctx, id),
                  SelectOutcome(id, after.now, err), Ended(id, after.now),
                  if err == Some(DBTimeout) then [Diagnostic(id, after.now)] else [],
                  if err == Some(DBTimeout) then [SetError(id, Message(DBTimeout))] else []);
  }

  /** Diagnostic records and error statuses pair up, in order, on the same spans. */
  ghost predicate Matched(logs: seq<Entry>, statuses: seq<Entry>) {
    && |logs| == |statuses|
    && (forall j :: 0 <= j < |logs| ==> SameSpan(logs[j], statuses[j]))
  }

  predicate SameSpan(log: Entry, status: Entry) {
    status.SetError? && log.Emitted? && log.context == Local(status.span)
  }

  lemma MatchedConcat(l1: seq<Entry>, s1: seq<Entry>, l2: seq<Entry>, s2: seq<Entry>)
    requires Matched(l1, s1) && Matched(l2, s2)
    ensures Matched(l1 + l2, s1 + s2)
  {
  }

  /** Diagnostic records and spans failed with the timeout match one to one; there is one per timed-out call. */
  lemma {:induction false} DiagnosticsMatch(e: Env, user: string, ctx: Context, calls: seq<Call>, served: nat)
    ensures var steps := Calls(e, user, ctx, calls, served);
            && Matched(Filter(IsDiagnostic, AllEntries(steps)), Filter(IsTimeoutStatus, AllEntries(steps)))
            && |Filter(IsDiagnostic, AllEntries(steps))| == |Filter(TimedOut, steps)|
    decreases |calls|
  {
    if calls == [] {
    } else {
      var c := calls[0];
      var q := Select(e, user, ctx, c.id, c.attempt, served, c.at);
      var rest := Calls(e, user, ctx, calls[1..], Served(e, served, c.at));
      DiagnosticsMatch(e, user, ctx, calls[1..], Served(e, served, c.at));
      CallDiagnoses(ctx, c.id, c.attempt, c.at, q.at, q.err);
      DiagnosticsStep(q, rest);
    }
  }

  lemma DiagnosticsStep(q: Step, rest: seq<Step>)
    requires Matched(Filter(IsDiagnostic, AllEntries(rest)), Filter(IsTimeoutStatus, AllEntries(rest)))
    requires Matched(Filter(IsDiagnostic, q.entries), Filter(IsTimeoutStatus, q.entries))
    requires |Filter(IsDiagnostic, AllEntries(rest))| == |Filter(TimedOut, rest)|
    requires |Filter(IsDiagnostic, q.entries)| == if TimedOut(q) then 1 else 0
    ensures var all := AllEntries([q] + rest);
            && Matched(Filter(IsDiagnostic, all), Filter(IsTimeoutStatus, all))
            && |Filter(IsDiagnostic, all)| == |Filter(TimedOut, [q] + rest)|
  {
    assert ([q] + rest)[1..] == rest;
    FilterConcat(IsDiagnostic, q.entries, AllEntries(rest));
    FilterConcat(IsTimeoutStatus, q.entries, AllEntries(rest));
    MatchedConcat(Filter(IsDiagnostic, q.entries), Filter(IsTimeoutStatus, q.entries),
                  Filter(IsDiagnostic, AllEntries(rest)), Filter(IsTimeoutStatus, AllEntries(rest)));
  }
}
