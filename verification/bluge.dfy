/**
 * The values this program exchanges with the bluge search library, and a
 * stand-in for the library's own searchers. The library is not modelled:
 * a library searcher is an abstract cursor that replays a fixed script of
 * replies, and a reader is the stored fields it hands to a visitor.
 */
module Bluge {
  import opened Wrappers
  import opened Errors
  import opened Floats

  /** `search.Explanation`: a score, the reason for it, and the explanations it was built from. */
  datatype Explanation = Explanation(value: Float64, message: string, children: seq<Explanation>)

  /** `search.DocumentMatch`: the document's internal number, its score and, when asked for, its explanation. */
  datatype DocumentMatch = DocumentMatch(number: nat, score: Float64, explanation: Option<Explanation>)

  /** The `(*DocumentMatch, error)` pair returned by `Next` and `Advance`. */
  datatype Reply = Reply(doc: Option<DocumentMatch>, err: Option<Error>)

  /** Go's convention for such pairs: a call that fails returns a nil match. */
  predicate Conventional(rv: Reply)
  {
    rv.err.Some? ==> rv.doc.None?
  }

  /** One `(field, value)` pair handed to a stored-field visitor. */
  datatype StoredField = StoredField(name: string, value: seq<bv8>)

  /**
   * `search.Reader`, reduced to what `VisitStoredFields` delivers: for each
   * document number, the stored fields in the order the visitor sees them.
   */
  datatype Reader = Reader(stored: map<nat, seq<StoredField>>)

  /** The fields a visit of document `number` delivers; an unknown document delivers none. */
  function StoredFields(r: Reader, number: nat): seq<StoredField>
  {
    if number in r.stored then r.stored[number] else []
  }

  /** `search.SearcherOptions`, reduced to whether scores are explained. */
  datatype SearcherOptions = SearcherOptions(explain: bool)

  /**
   * A library searcher: the replies it will give, in order, and the values of
   * its structural accessors.
   */
  datatype Cursor = Cursor(
    script: seq<Reply>,
    count: nat,
    min: int,
    size: int,
    poolSize: int,
    closeErr: Option<Error>)

  /** A library searcher's `Next`: the next scripted reply; nil, nil once the script is used up. */
  function CursorNext(c: Cursor): (r: (Cursor, Reply))
    ensures r.0.(script := c.script) == c
    ensures c.script != [] ==> r.1 == c.script[0] && r.0.script == c.script[1..]
    ensures c.script == [] ==> r == (c, Reply(None, None))
  {
    if c.script == [] then (c, Reply(None, None))
    else (c.(script := c.script[1..]), c.script[0])
  }

  /**
   * A library searcher's `Advance`: skips the successful replies whose match
   * lies before `target`, then replies like `Next`.
   */
  function CursorAdvance(c: Cursor, target: nat): (r: (Cursor, Reply))
    ensures r.0.(script := c.script) == c
    ensures |r.0.script| <= |c.script| && r.0.script == c.script[|c.script| - |r.0.script|..]
    ensures r.1 == Reply(None, None) || r.1 in c.script
    ensures r.1.err.None? && r.1.doc.Some? ==> r.1.doc.value.number >= target
    decreases |c.script|
  {
    if c.script == [] then (c, Reply(None, None))
    else
      var rv := c.script[0];
      var rest := c.(script := c.script[1..]);
      if rv.err.None? && rv.doc.Some? && rv.doc.value.number < target then CursorAdvance(rest, target)
      else (rest, rv)
  }

  /** Every reply of a library searcher follows Go's convention. */
  predicate ConventionalCursor(c: Cursor)
  {
    forall i | 0 <= i < |c.script| :: Conventional(c.script[i])
  }
}
