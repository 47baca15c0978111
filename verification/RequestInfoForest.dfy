/** Which spans carry the request info, in any forest of spans started in any order. */
module RequestInfoForest {
  import opened Telemetry
  import opened FetchSpec
  import opened Fetch

  /** The history of starting span 0, 1, ... under the given contexts, with the request-info processor registered. */
  function StartAll(contexts: seq<Context>, at: nat): seq<Entry>
    decreases |contexts|
  {
    if contexts == [] then []
    else
      var n := |contexts| - 1;
      StartAll(contexts[..n], at) + [Started(n, contexts[n].parent, "span", Internal, [], at)]
          + Enrichment(contexts[n], n)
  }

  /** A tracer that starts spans under these contexts writes this history. */
  method StartForest(tracer: Tracer, contexts: seq<Context>)
    requires tracer.history == [] && tracer.next == 0
    modifies tracer
    ensures tracer.history == StartAll(contexts, tracer.clock.time.now) && tracer.next == |contexts|
  {
    var i := 0;
    while i < |contexts|
      invariant 0 <= i <= |contexts| && tracer.next == i
      invariant tracer.history == StartAll(contexts[..i], tracer.clock.time.now)
    {
      var child, span := tracer.Start(contexts[i], "span", Internal, []);
      assert contexts[..i + 1][..i] == contexts[..i];
      i := i + 1;
    }
    assert contexts[..|contexts|] == contexts;
  }

  /** Parents in this process start before their children, and every local root is started with request info. */
  ghost predicate Forest(contexts: seq<Context>) {
    forall i :: 0 <= i < |contexts| ==>
      if contexts[i].parent.Local? then contexts[i].parent.id < i else contexts[i].info.Some?
  }

  /** The span has been given attributes of some request info. */
  ghost predicate Carries(h: seq<Entry>, span: nat) {
    exists info :: SetAttrs(span, InfoAttrs(info)) in h
  }

  lemma EnrichmentCarries(ctx: Context, n: nat, span: nat)
    ensures Carries(Enrichment(ctx, n), span) <==> span == n && !ctx.parent.Local? && ctx.info.Some?
  {
    if !ctx.parent.Local? && ctx.info.Some? {
      assert SetAttrs(n, InfoAttrs(ctx.info.value)) in Enrichment(ctx, n);
    }
  }

  lemma CarriesConcat(g: seq<Entry>, x: Entry, h: seq<Entry>, span: nat)
    requires x.Started?
    ensures Carries(g + [x] + h, span) <==> Carries(g, span) || Carries(h, span)
  {
    if Carries(g, span) {
      var info :| SetAttrs(span, InfoAttrs(info)) in g;
      assert SetAttrs(span, InfoAttrs(info)) in g + [x] + h;
    }
    if Carries(h, span) {
      var info :| SetAttrs(span, InfoAttrs(info)) in h;
      assert SetAttrs(span, InfoAttrs(info)) in g + [x] + h;
    }
  }

  /** A span carries the info exactly when it is a root of this process, whether it has no parent or a remote one. */
  lemma {:induction false} CarriersAreLocalRoots(contexts: seq<Context>, at: nat, span: nat)
    requires Forest(contexts)
    ensures Carries(StartAll(contexts, at), span) <==> span < |contexts| && !contexts[span].parent.Local?
    decreases |contexts|
  {
    if contexts == [] {
    } else {
      var n := |contexts| - 1;
      CarriersAreLocalRoots(contexts[..n], at, span);
      CarriesConcat(StartAll(contexts[..n], at), Started(n, contexts[n].parent, "span", Internal, [], at),
                    Enrichment(contexts[n], n), span);
      EnrichmentCarries(contexts[n], n, span);
    }
  }

  /** A span with its ancestors in this process, outermost first. */
  function Ancestry(contexts: seq<Context>, span: nat): seq<nat>
    requires Forest(contexts) && span < |contexts|
    decreases span
  {
    if contexts[span].parent.Local? then Ancestry(contexts, contexts[span].parent.id) + [span] else [span]
  }

  /** Every span has exactly one carrier among itself and its ancestors in this process, and it is the outermost one. */
  lemma {:induction false} OneCarrier(contexts: seq<Context>, at: nat, span: nat)
    requires Forest(contexts) && span < |contexts|
    ensures var chain := Ancestry(contexts, span);
            && chain != [] && chain[|chain| - 1] == span
            && forall k :: 0 <= k < |chain| ==> (Carries(StartAll(contexts, at), chain[k]) <==> k == 0)
    decreases span
  {
    CarriersAreLocalRoots(contexts, at, span);
    if !contexts[span].parent.Local? {
    } else {
      OneCarrier(contexts, at, contexts[span].parent.id);
    }
  }

  /** The carrier got the info of the context it was started under, and nothing else of the kind. */
  lemma {:induction false} CarriesItsOwn(contexts: seq<Context>, at: nat, span: nat, info: RequestInfo)
    requires Forest(contexts)
    ensures SetAttrs(span, InfoAttrs(info)) in StartAll(contexts, at) <==>
            span < |contexts| && !contexts[span].parent.Local? && contexts[span].info == Some(info)
    decreases |contexts|
  {
    if contexts == [] {
    } else {
      var n := |contexts| - 1;
      CarriesItsOwn(contexts[..n], at, span, info);
      if contexts[n].info.Some? {
        InfoAttrsInjective(info, contexts[n].info.value);
      }
    }
  }

  /** The attributes determine the request info. */
  lemma InfoAttrsInjective(a: RequestInfo, b: RequestInfo)
    ensures InfoAttrs(a) == InfoAttrs(b) ==> a == b
  {
    if InfoAttrs(a) == InfoAttrs(b) {
      assert forall i :: 0 <= i < 7 ==> InfoAttrs(a)[i] == InfoAttrs(b)[i];
    }
  }
}
