/**
 * The transformation the example passes to `NewCustomScoreQuery`: load the
 * matched document's stored "boost" field (1.0 when there is none), multiply
 * the score by it, and record the adjustment in the explanation tree.
 */
module BoostScore {
  import opened Wrappers
  import opened Floats
  import opened Bluge
  import opened BoostCodec
  import opened Custom
  import opened CustomLaws

  /** The stored-only field that holds a document's boost. */
  const BoostField: string := "boost"

  /** The description of the explanation node the transformation adds. */
  const CustomMessage: string := "custom, doc_boost * orig_score"

  /** The description of the explanation node that shows the boost. */
  const BoostMessage: string := "doc_boost, loaded from field 'boost'"

  /** Every "boost" field among `fields` holds at least eight bytes, so decoding it cannot panic. */
  predicate Decodable(fields: seq<StoredField>)
  {
    forall k | 0 <= k < |fields| :: fields[k].name == BoostField ==> |fields[k].value| >= 8
  }

  /** No document of the reader stores a "boost" field too short to decode. */
  predicate ReaderDecodable(r: Reader)
  {
    forall n | n in r.stored :: Decodable(r.stored[n])
  }

  /**
   * The visitor callback: a "boost" field replaces the boost found so far by
   * its decoded value, any other field leaves it alone, and visiting always
   * goes on.
   */
  function BoostVisitor(documentBoost: Float64, field: StoredField): (r: (Float64, bool))
    requires field.name == BoostField ==> |field.value| >= 8
    ensures r.1
    ensures field.name != BoostField ==> r.0 == documentBoost
    ensures field.name == BoostField ==> Encode(r.0) == field.value[..8]
  {
    if field.name == BoostField then
      var boost := Float64FromBytes(field.value);
      BytesRoundTrip(field.value);
      (boost, true)
    else
      (documentBoost, true)
  }

  /**
   * `r.VisitStoredFields(number, visitor)` with that callback: the fields are
   * handed over in order until the callback asks to stop; the result is the
   * boost the callback holds at the end.
   */
  function VisitStoredFields(documentBoost: Float64, fields: seq<StoredField>): (r: Float64)
    requires Decodable(fields)
    ensures r == documentBoost || exists k | 0 <= k < |fields| ::
      fields[k].name == BoostField && Encode(r) == fields[k].value[..8]
    decreases |fields|
  {
    if fields == [] then documentBoost
    else
      var (boost, more) := BoostVisitor(documentBoost, fields[0]);
      if more then VisitStoredFields(boost, fields[1..]) else boost
  }

  /** The boost of document `number`: what visiting its stored fields leaves, starting from 1.0. */
  function DocumentBoost(r: Reader, number: nat): (boost: Float64)
    requires Decodable(StoredFields(r, number))
    ensures boost == One || exists k | 0 <= k < |StoredFields(r, number)| ::
      StoredFields(r, number)[k].name == BoostField && Encode(boost) == StoredFields(r, number)[k].value[..8]
  {
    VisitStoredFields(One, StoredFields(r, number))
  }

  /** Visiting fields none of which is named "boost" keeps the boost found so far. */
  lemma {:induction false} NoBoostKeeps(documentBoost: Float64, fields: seq<StoredField>)
    requires forall k | 0 <= k < |fields| :: fields[k].name != BoostField
    ensures Decodable(fields) && VisitStoredFields(documentBoost, fields) == documentBoost
    decreases |fields|
  {
    if fields != [] {
      NoBoostKeeps(documentBoost, fields[1..]);
    }
  }

  /** The last "boost" field visited decides the boost; every other field is ignored. */
  lemma {:induction false} LastBoostWins(documentBoost: Float64, fields: seq<StoredField>, i: nat)
    requires Decodable(fields)
    requires i < |fields| && fields[i].name == BoostField
    requires forall k | i < k < |fields| :: fields[k].name != BoostField
    ensures VisitStoredFields(documentBoost, fields) == Float64FromBytes(fields[i].value)
    decreases i
  {
    var boost := BoostVisitor(documentBoost, fields[0]).0;
    if i == 0 {
      NoBoostKeeps(boost, fields[1..]);
    } else {
      LastBoostWins(boost, fields[1..], i - 1);
    }
  }

  /** A document without a "boost" field, or one the reader does not know, gets the boost 1.0. */
  lemma DefaultBoost(r: Reader, number: nat)
    requires forall k | 0 <= k < |StoredFields(r, number)| :: StoredFields(r, number)[k].name != BoostField
    ensures Decodable(StoredFields(r, number))
    ensures DocumentBoost(r, number) == One
  {
    NoBoostKeeps(One, StoredFields(r, number));
  }

  /** A document's boost is the value in the last of its "boost" fields. */
  lemma StoredBoost(r: Reader, number: nat, i: nat)
    requires Decodable(StoredFields(r, number))
    requires i < |StoredFields(r, number)| && StoredFields(r, number)[i].name == BoostField
    requires forall k | i < k < |StoredFields(r, number)| :: StoredFields(r, number)[k].name != BoostField
    ensures DocumentBoost(r, number) == Float64FromBytes(StoredFields(r, number)[i].value)
  {
    LastBoostWins(One, StoredFields(r, number), i);
  }

  /**
   * The transformation closure, over the reader it captures and Go's float64
   * multiplication `times`. Only the matched document's stored fields are
   * read, so only they must decode. A nil match stays nil. Otherwise the same
   * document comes back with its score multiplied by its boost, and with an
   * explanation exactly when it had one.
   */
  function CustomScore(r: Reader, times: Multiply, m: Option<DocumentMatch>): (res: Option<DocumentMatch>)
    requires m.Some? ==> Decodable(StoredFields(r, m.value.number))
    ensures res.None? <==> m.None?
    ensures res.Some? ==> res.value.number == m.value.number
    ensures res.Some? ==> res.value.score == times(m.value.score, DocumentBoost(r, m.value.number))
    ensures res.Some? ==> (res.value.explanation.None? <==> m.value.explanation.None?)
  {
    if m.Some? then
      var documentBoost := DocumentBoost(r, m.value.number);
      var score := times(m.value.score, documentBoost);
      var explanation :=
        if m.value.explanation.Some? then
          Some(Explanation(score, CustomMessage,
                           [Explanation(documentBoost, BoostMessage, []), m.value.explanation.value]))
        else
          None;
      Some(m.value.(score := score, explanation := explanation))
    else
      None
  }

  /**
   * An explained match gets a new root explanation: the new score, the
   * custom description, and as children first the boost, then the original
   * explanation unchanged.
   */
  lemma CustomExplanation(r: Reader, times: Multiply, m: DocumentMatch, e: Explanation)
    requires Decodable(StoredFields(r, m.number))
    requires m.explanation == Some(e)
    ensures var res := CustomScore(r, times, Some(m)).value;
      && res.explanation.Some?
      && res.explanation.value.value == res.score
      && res.explanation.value.message == CustomMessage
      && res.explanation.value.children
         == [Explanation(DocumentBoost(r, m.number), BoostMessage, []), e]
  {
  }

  /** The transformation as a value: the closure over `r` and `times`. */
  function BoostTransform(r: Reader, times: Multiply): (t: Transform)
    requires ReaderDecodable(r)
    ensures t(None) == None
  {
    m => CustomScore(r, times, m)
  }

  /** The decorated query: `q` with every match rescored against the reader the search runs on. */
  function BoostQuery(q: Query, r: Reader, times: Multiply): (c: Query)
    requires ReaderDecodable(r)
    ensures c.CustomScoreQuery? && c.wrapped == q && c.custom == BoostTransform(r, times)
  {
    NewCustomScoreQuery(q, BoostTransform(r, times))
  }

  /**
   * Searching with the decorated query: reply for reply, errors are those of
   * the undecorated query, exhaustion is still nil, and every match is the
   * same document with its score multiplied by its boost.
   */
  lemma BoostedStream(q: Query, r: Reader, times: Multiply, options: SearcherOptions, calls: seq<Call>, k: nat)
    requires ReaderDecodable(r)
    requires SearcherOf(q, r, options).Success?
    requires k < |calls|
    ensures SearcherOf(BoostQuery(q, r, times), r, options).Success?
    ensures var plain := Run(SearcherOf(q, r, options).value, calls)[k];
      var boosted := Run(SearcherOf(BoostQuery(q, r, times), r, options).value, calls)[k];
      && boosted.err == plain.err
      && (plain.err.None? && plain.doc.None? ==> boosted.doc.None?)
      && (plain.err.None? && plain.doc.Some? ==>
            && boosted.doc.Some?
            && boosted.doc.value.number == plain.doc.value.number
            && boosted.doc.value.score == times(plain.doc.value.score, DocumentBoost(r, plain.doc.value.number)))
  {
    var s := SearcherOf(q, r, options).value;
    SearcherWrapsSuccess(q, BoostTransform(r, times), r, options, s);
    RunDecorated(s, BoostTransform(r, times), calls);
  }

  /** Byte for the letter in a one-letter document ID. */
  function IdByte(c: char): bv8
    requires c as int < 256
  {
    c as int as bv8
  }

  /**
   * The example index: document 0 is "a" with boost 1.0 and document 1 is
   * "b" with boost 2.0, each visited as its ID followed by its boost.
   */
  function ExampleReader(): Reader
  {
    Reader(map[
      0 := [StoredField("_id", [IdByte('a')]), StoredField(BoostField, Encode(One))],
      1 := [StoredField("_id", [IdByte('b')]), StoredField(BoostField, Encode(Two))]])
  }

  /**
   * In the example index "a" is boosted by 1.0 and "b" by 2.0; a document
   * without stored fields gets the default 1.0.
   */
  lemma ExampleBoosts()
    ensures ReaderDecodable(ExampleReader())
    ensures DocumentBoost(ExampleReader(), 0) == One
    ensures DocumentBoost(ExampleReader(), 1) == Two
    ensures DocumentBoost(ExampleReader(), 2) == One
  {
    var r := ExampleReader();
    assert ReaderDecodable(r);
    StoredBoost(r, 0, 1);
    RoundTrip(One);
    StoredBoost(r, 1, 1);
    RoundTrip(Two);
    DefaultBoost(r, 2);
  }

  /**
   * Another document's fields, whatever they are (a short "boost" field
   * included), do not matter: only the matched document's own fields are
   * visited.
   */
  lemma OtherDocumentsIgnored(r: Reader, number: nat, other: nat, fields: seq<StoredField>)
    requires other != number
    requires Decodable(StoredFields(r, number))
    ensures Decodable(StoredFields(Reader(r.stored[other := fields]), number))
    ensures DocumentBoost(Reader(r.stored[other := fields]), number) == DocumentBoost(r, number)
  {
    assert StoredFields(Reader(r.stored[other := fields]), number) == StoredFields(r, number);
  }

  /**
   * An instance: a reader that is not decodable as a whole, because document
   * 1 has a two-byte "boost" field, still gives document 0 the boost 1.0.
   */
  lemma ExampleShortBoostElsewhere()
    ensures var r := Reader(map[0 := [StoredField("_id", [IdByte('a')])], 1 := [StoredField(BoostField, [1, 2])]]);
      && !ReaderDecodable(r)
      && Decodable(StoredFields(r, 0))
      && DocumentBoost(r, 0) == One
  {
    var r := Reader(map[0 := [StoredField("_id", [IdByte('a')])], 1 := [StoredField(BoostField, [1, 2])]]);
    assert !Decodable(r.stored[1]) by {
      assert r.stored[1][0].name == BoostField && |r.stored[1][0].value| < 8;
    }
    DefaultBoost(r, 0);
  }

  /**
   * The example's decorated scores: "b" scores twice its baseline (as Go
   * computes `s * 2.0`), and "a" keeps its baseline when `s * 1.0 == s`.
   */
  lemma ExampleScores(times: Multiply, a: DocumentMatch, b: DocumentMatch)
    requires a.number == 0 && b.number == 1
    requires times(a.score, One) == a.score
    ensures CustomScore(ExampleReader(), times, Some(a)).value.score == a.score
    ensures CustomScore(ExampleReader(), times, Some(b)).value.score == times(b.score, Two)
  {
    ExampleBoosts();
  }
}
