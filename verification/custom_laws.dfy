/**
 * Laws of the score-rewriting decorator over whole result streams: a
 * sequence of `Next`/`Advance` calls on a decorated searcher yields the inner
 * searcher's replies, each passed through the transformation.
 */
module CustomLaws {
  import opened Wrappers
  import opened Errors
  import opened Bluge
  import opened Custom

  /** One call a consumer makes on a searcher. */
  datatype Call = NextCall | AdvanceCall(target: nat)

  function Perform(s: Searcher, call: Call): Step
  {
    match call
    case NextCall => Next(s)
    case AdvanceCall(number) => Advance(s, number)
  }

  /** The replies a consumer sees when it makes `calls`, in order, on `s`. */
  function Run(s: Searcher, calls: seq<Call>): (r: seq<Reply>)
    ensures |r| == |calls|
    decreases |calls|
  {
    if calls == [] then []
    else
      var st := Perform(s, calls[0]);
      [st.reply] + Run(st.after, calls[1..])
  }

  /** Each reply as one decorator with transformation `custom` passes it on. */
  function InterceptAll(custom: Transform, rs: seq<Reply>): (r: seq<Reply>)
    ensures |r| == |rs|
  {
    seq(|rs|, k requires 0 <= k < |rs| => Intercept(custom, rs[k]))
  }

  /** Each reply as a stack of decorators, innermost first, passes it on. */
  function ThroughAll(layers: seq<Transform>, rs: seq<Reply>): (r: seq<Reply>)
    ensures |r| == |rs|
  {
    seq(|rs|, k requires 0 <= k < |rs| => Through(layers, rs[k]))
  }

  /** The transformation that changes nothing. */
  function Identity(m: Option<DocumentMatch>): Option<DocumentMatch>
  {
    m
  }

  /** `inner` first, then `outer`. */
  function Compose(outer: Transform, inner: Transform): Transform
  {
    m => outer(inner(m))
  }

  /** A searcher all of whose replies follow Go's convention: a decorator, or a conventional library searcher. */
  predicate ConventionalSearcher(s: Searcher)
  {
    s.CustomScoreSearcher? || ConventionalCursor(s.cursor)
  }

  /**
   * A decorated searcher's stream is the inner stream with every reply
   * intercepted: errors unchanged with a nil match, everything else, the nil
   * at exhaustion included, through `custom`.
   */
  lemma {:induction false} RunDecorated(s: Searcher, custom: Transform, calls: seq<Call>)
    ensures Run(CustomScoreSearcher(s, custom), calls) == InterceptAll(custom, Run(s, calls))
    decreases |calls|
  {
    if calls != [] {
      var st := Perform(s, calls[0]);
      RunDecorated(st.after, custom, calls[1..]);
    }
  }

  /** A conventional searcher stays conventional, so every reply it gives is conventional. */
  lemma {:induction false} RunConventional(s: Searcher, calls: seq<Call>)
    requires ConventionalSearcher(s)
    ensures forall k | 0 <= k < |calls| :: Conventional(Run(s, calls)[k])
    decreases |calls|
  {
    if calls != [] {
      var st := Perform(s, calls[0]);
      RunConventional(st.after, calls[1..]);
    }
  }

  /** Decorating with the identity transformation leaves a conventional searcher's stream unchanged. */
  lemma RunIdentity(s: Searcher, calls: seq<Call>)
    requires ConventionalSearcher(s)
    ensures Run(CustomScoreSearcher(s, Identity), calls) == Run(s, calls)
  {
    RunDecorated(s, Identity, calls);
    RunConventional(s, calls);
  }

  /**
   * Without Go's convention the identity law fails: a match that the inner
   * searcher returns beside an error is dropped.
   */
  lemma IdentityDropsMatchBesideError(m: DocumentMatch, e: Error)
    ensures Intercept(Identity, Reply(Some(m), Some(e))) == Reply(None, Some(e))
    ensures Intercept(Identity, Reply(Some(m), Some(e))) != Reply(Some(m), Some(e))
  {
  }

  /**
   * Two stacked decorators act as one whose transformation is `t2` after
   * `t1`; errors come out of the stack as the inner searcher gave them.
   */
  lemma RunStacked(s: Searcher, t1: Transform, t2: Transform, calls: seq<Call>)
    ensures Run(CustomScoreSearcher(CustomScoreSearcher(s, t1), t2), calls)
         == Run(CustomScoreSearcher(s, Compose(t2, t1)), calls)
    ensures forall k | 0 <= k < |calls| ::
      Run(CustomScoreSearcher(CustomScoreSearcher(s, t1), t2), calls)[k].err == Run(s, calls)[k].err
  {
    RunDecorated(CustomScoreSearcher(s, t1), t2, calls);
    RunDecorated(s, t1, calls);
    RunDecorated(s, Compose(t2, t1), calls);
  }

  /** Any stack of decorators rewrites, reply by reply, the stream of the library searcher at its bottom. */
  lemma {:induction false} RunThroughLayers(s: Searcher, calls: seq<Call>)
    ensures Run(s, calls) == ThroughAll(Layers(s), Run(LibrarySearcher(Innermost(s)), calls))
    decreases |calls|
  {
    if calls != [] {
      var st := Perform(s, calls[0]);
      var base := Perform(LibrarySearcher(Innermost(s)), calls[0]);
      RunThroughLayers(st.after, calls[1..]);
    }
  }

  /** Passing through `inner` then `outer` is passing through the stack `inner + outer`. */
  lemma {:induction false} ThroughConcat(inner: seq<Transform>, outer: seq<Transform>, rv: Reply)
    ensures Through(inner + outer, rv) == Through(outer, Through(inner, rv))
    decreases |outer|
  {
    if outer != [] {
      var n := |outer| - 1;
      assert (inner + outer)[..|inner + outer| - 1] == inner + outer[..n];
      ThroughConcat(inner, outer[..n], rv);
    } else {
      assert inner + outer == inner;
    }
  }

  /**
   * The searcher a query builds gives, reply by reply, the stream of the
   * library query's searcher passed through the query's transformations,
   * innermost first.
   */
  lemma QueryRun(q: Query, i: Reader, options: SearcherOptions, calls: seq<Call>)
    requires SearcherOf(q, i, options).Success?
    ensures BaseQuery(q).build(i, options).Success?
    ensures Run(SearcherOf(q, i, options).value, calls)
         == ThroughAll(QueryLayers(q), Run(BaseQuery(q).build(i, options).value, calls))
  {
    var s := SearcherOf(q, i, options).value;
    var base := BaseQuery(q).build(i, options).value;
    var bottom := Run(LibrarySearcher(Innermost(base)), calls);
    RunThroughLayers(s, calls);
    RunThroughLayers(base, calls);
    forall k | 0 <= k < |calls|
      ensures Through(Layers(s), bottom[k]) == Through(QueryLayers(q), Through(Layers(base), bottom[k]))
    {
      ThroughConcat(Layers(base), QueryLayers(q), bottom[k]);
    }
  }

  /**
   * Wrapping an already decorated query with `t2` around `t1`: its searcher
   * gives `t2(t1(m))` for every result of the undecorated query, and its
   * error, if any, is the undecorated query's wrapped twice.
   */
  lemma QueryStacked(q: Query, t1: Transform, t2: Transform, i: Reader, options: SearcherOptions, calls: seq<Call>)
    ensures SearcherOf(q, i, options).Failure? ==>
      SearcherOf(NewCustomScoreQuery(NewCustomScoreQuery(q, t1), t2), i, options)
        == Failure(Wrapped(WrapContext, Wrapped(WrapContext, SearcherOf(q, i, options).error)))
    ensures SearcherOf(q, i, options).Success? ==>
      Run(SearcherOf(NewCustomScoreQuery(NewCustomScoreQuery(q, t1), t2), i, options).value, calls)
        == InterceptAll(Compose(t2, t1), Run(SearcherOf(q, i, options).value, calls))
  {
    if SearcherOf(q, i, options).Success? {
      var s := SearcherOf(q, i, options).value;
      RunStacked(s, t1, t2, calls);
      RunDecorated(s, Compose(t2, t1), calls);
    }
  }
}
