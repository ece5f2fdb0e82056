/**
 * The score-rewriting decorator: a query that wraps another query, and the
 * searcher it builds, which wraps the inner query's searcher and passes every
 * result of `Next` and `Advance` through a caller-supplied transformation.
 * Every other searcher operation is forwarded untouched.
 */
module Custom {
  import opened Wrappers
  import opened Errors
  import opened Bluge

  /** The transformation applied to every result, nil (end of results) included. */
  type Transform = Option<DocumentMatch> -> Option<DocumentMatch>

  /** A `search.Searcher`: one of the library's, or a `CustomScoreSearcher` around another. */
  datatype Searcher =
    | LibrarySearcher(cursor: Cursor)
    | CustomScoreSearcher(wrapped: Searcher, custom: Transform)

  /** A `bluge.Query`: one of the library's, or a `CustomScoreQuery` around another. */
  datatype Query =
    | LibraryQuery(build: (Reader, SearcherOptions) -> Result<Searcher, Error>)
    | CustomScoreQuery(wrapped: Query, custom: Transform)

  /** A call of `Next` or `Advance`: the reply, and the searcher as it stands afterwards. */
  datatype Step = Step(after: Searcher, reply: Reply)

  /** The context `Searcher` adds to an inner query's error. */
  const WrapContext: string := "error wrapping searcher"

  /** The library searcher at the bottom of a stack of decorators. */
  function Innermost(s: Searcher): Cursor
  {
    match s
    case LibrarySearcher(c) => c
    case CustomScoreSearcher(wrapped, _) => Innermost(wrapped)
  }

  /** The transformations of a stack of decorators, innermost first. */
  function Layers(s: Searcher): (r: seq<Transform>)
    ensures r == [] <==> s.LibrarySearcher?
  {
    match s
    case LibrarySearcher(_) => []
    case CustomScoreSearcher(wrapped, custom) => Layers(wrapped) + [custom]
  }

  /** The library query at the bottom of a stack of decorating queries. */
  function BaseQuery(q: Query): (r: Query)
    ensures r.LibraryQuery?
  {
    match q
    case LibraryQuery(_) => q
    case CustomScoreQuery(wrapped, _) => BaseQuery(wrapped)
  }

  /** The transformations of a stack of decorating queries, innermost first. */
  function QueryLayers(q: Query): seq<Transform>
  {
    match q
    case LibraryQuery(_) => []
    case CustomScoreQuery(wrapped, custom) => QueryLayers(wrapped) + [custom]
  }

  /** `NewCustomScoreQuery(q, custom)` */
  function NewCustomScoreQuery(q: Query, custom: Transform): (r: Query)
    ensures r.CustomScoreQuery? && r.wrapped == q && r.custom == custom
    ensures BaseQuery(r) == BaseQuery(q) && QueryLayers(r) == QueryLayers(q) + [custom]
  {
    CustomScoreQuery(q, custom)
  }

  /**
   * `q.Searcher(i, options)`. Through any number of decorating queries, the
   * result fails exactly when the library query at the bottom fails, and then
   * its error still has the library's error on its chain of causes; on
   * success it is the library's searcher under the query's transformations.
   */
  function SearcherOf(q: Query, i: Reader, options: SearcherOptions): (r: Result<Searcher, Error>)
    ensures r.Failure? <==> BaseQuery(q).build(i, options).Failure?
    ensures r.Failure? ==> Is(r.error, BaseQuery(q).build(i, options).error)
    ensures r.Success? ==>
      && Innermost(r.value) == Innermost(BaseQuery(q).build(i, options).value)
      && Layers(r.value) == Layers(BaseQuery(q).build(i, options).value) + QueryLayers(q)
  {
    match q
    case LibraryQuery(build) => build(i, options)
    case CustomScoreQuery(wrapped, custom) =>
      match SearcherOf(wrapped, i, options)
      case Failure(err) => Failure(Wrap(WrapContext, err))
      case Success(searcher) => Success(CustomScoreSearcher(searcher, custom))
  }

  /** A failing inner query makes `Searcher` fail with the inner error wrapped by `%w`. */
  lemma SearcherWrapsFailure(q: Query, custom: Transform, i: Reader, options: SearcherOptions, err: Error)
    requires SearcherOf(q, i, options) == Failure(err)
    ensures SearcherOf(NewCustomScoreQuery(q, custom), i, options) == Failure(Wrapped(WrapContext, err))
    ensures Message(SearcherOf(NewCustomScoreQuery(q, custom), i, options).error)
         == "error wrapping searcher: " + Message(err)
    ensures Unwrap(SearcherOf(NewCustomScoreQuery(q, custom), i, options).error) == Some(err)
  {
  }

  /** A succeeding inner query makes `Searcher` wrap exactly its searcher, with the query's transformation. */
  lemma SearcherWrapsSuccess(q: Query, custom: Transform, i: Reader, options: SearcherOptions, inner: Searcher)
    requires SearcherOf(q, i, options) == Success(inner)
    ensures SearcherOf(NewCustomScoreQuery(q, custom), i, options) == Success(CustomScoreSearcher(inner, custom))
  {
  }

  /**
   * What `Next` and `Advance` do with the inner searcher's reply: an error
   * goes out unchanged with a nil match; otherwise the match, nil or not,
   * goes out through `custom`.
   */
  function Intercept(custom: Transform, rv: Reply): (r: Reply)
    ensures r.err == rv.err
    ensures r.err.Some? ==> r.doc.None?
    ensures r.err.None? ==> r.doc == custom(rv.doc)
  {
    if rv.err.Some? then Reply(None, rv.err) else Reply(custom(rv.doc), None)
  }

  /** What a stack of decorators, innermost first, makes of a reply of the searcher they wrap. */
  function Through(layers: seq<Transform>, rv: Reply): Reply
  {
    if layers == [] then rv
    else Intercept(layers[|layers| - 1], Through(layers[..|layers| - 1], rv))
  }

  /**
   * `s.Next(ctx)`. The call reaches the library searcher at the bottom, and
   * its reply comes back through every decorator; no decorator is added,
   * removed or changed.
   */
  function Next(s: Searcher): (r: Step)
    ensures Layers(r.after) == Layers(s)
    ensures Innermost(r.after) == CursorNext(Innermost(s)).0
    ensures r.reply == Through(Layers(s), CursorNext(Innermost(s)).1)
  {
    match s
    case LibrarySearcher(c) =>
      var (c', rv) := CursorNext(c);
      Step(LibrarySearcher(c'), rv)
    case CustomScoreSearcher(wrapped, custom) =>
      var inner := Next(wrapped);
      assert (Layers(wrapped) + [custom])[..|Layers(wrapped)|] == Layers(wrapped);
      Step(CustomScoreSearcher(inner.after, custom), Intercept(custom, inner.reply))
  }

  /**
   * `s.Advance(ctx, number)`. The target reaches the library searcher at the
   * bottom unchanged, and its reply comes back through every decorator.
   */
  function Advance(s: Searcher, number: nat): (r: Step)
    ensures Layers(r.after) == Layers(s)
    ensures Innermost(r.after) == CursorAdvance(Innermost(s), number).0
    ensures r.reply == Through(Layers(s), CursorAdvance(Innermost(s), number).1)
  {
    match s
    case LibrarySearcher(c) =>
      var (c', rv) := CursorAdvance(c, number);
      Step(LibrarySearcher(c'), rv)
    case CustomScoreSearcher(wrapped, custom) =>
      var inner := Advance(wrapped, number);
      assert (Layers(wrapped) + [custom])[..|Layers(wrapped)|] == Layers(wrapped);
      Step(CustomScoreSearcher(inner.after, custom), Intercept(custom, inner.reply))
  }

  /** `s.Close()`: whatever the library searcher at the bottom returns. */
  function Close(s: Searcher): (r: Option<Error>)
    ensures r == Innermost(s).closeErr
  {
    match s
    case LibrarySearcher(c) => c.closeErr
    case CustomScoreSearcher(wrapped, _) => Close(wrapped)
  }

  /** `s.Count()`: whatever the library searcher at the bottom returns. */
  function Count(s: Searcher): (r: nat)
    ensures r == Innermost(s).count
  {
    match s
    case LibrarySearcher(c) => c.count
    case CustomScoreSearcher(wrapped, _) => Count(wrapped)
  }

  /** `s.Min()`: whatever the library searcher at the bottom returns. */
  function Min(s: Searcher): (r: int)
    ensures r == Innermost(s).min
  {
    match s
    case LibrarySearcher(c) => c.min
    case CustomScoreSearcher(wrapped, _) => Min(wrapped)
  }

  /** `s.Size()`: whatever the library searcher at the bottom returns. */
  function Size(s: Searcher): (r: int)
    ensures r == Innermost(s).size
  {
    match s
    case LibrarySearcher(c) => c.size
    case CustomScoreSearcher(wrapped, _) => Size(wrapped)
  }

  /** `s.DocumentMatchPoolSize()`: whatever the library searcher at the bottom returns. */
  function DocumentMatchPoolSize(s: Searcher): (r: int)
    ensures r == Innermost(s).poolSize
  {
    match s
    case LibrarySearcher(c) => c.poolSize
    case CustomScoreSearcher(wrapped, _) => DocumentMatchPoolSize(wrapped)
  }
}
