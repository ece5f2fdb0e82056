# Custom score decorator for bluge, modelled in Dafny

This project models the example program `bluge-custom-score`. It runs a bluge
term query, then runs the same query wrapped in a *custom score* decorator.
The decorator passes every match through a transformation. The example's
transformation multiplies each match's score by a boost. The boost is stored
with each document as an 8-byte big-endian float64.

The model has two parts:

* **custom.go**: `CustomScoreQuery` and `CustomScoreSearcher`, modelled as
  pure datatypes and functions (`custom.dfy`). Go's `Query` and `Searcher`
  interfaces become datatypes. One variant stands for any library
  query or searcher, the other for the decorator. A library searcher is an
  abstract cursor: a script of `(match, error)` replies plus the values of its
  structural accessors. `custom_laws.dfy` states the decorator's laws over
  whole result streams. These are the identity law, the stacking law and
  error forwarding.
* **main.go**: the boost codec (`boost_codec.dfy`) and the transformation
  closure (`boost_score.dfy`). The closure is modelled as a fold over the
  stored fields the reader delivers, followed by a record update.

`wrappers.dfy`, `errors.dfy`, `floats.dfy` and `bluge.dfy` hold the values the
program exchanges with Go and with the library. These are nil-able pointers,
`%w`-wrapped errors, float64 bit patterns, matches, explanations, readers and
library cursors.

Where the code departs from what its comments (main.go:81-88) suggest, the model follows the code:

* The searcher calls the transformation on nil (end of results) as well, not
  only on real matches.
* A "boost" field shorter than 8 bytes does not fall back to 1.0.
  `binary.BigEndian.Uint64` panics on it, so the model makes the matched
  document's boost fields decodable a precondition (`Decodable`).
* The error from `VisitStoredFields` is discarded. The boost is whatever the
  visited fields left, so the visited fields are modelled as the sequence the
  reader delivered.

## Model

| member | source | states |
|---|---|---|
| `Errors.Wrap` | custom.go:26 | `%w` wrapping: unwrapping gives the cause back, the message is the context, ": " and the cause's message, and `errors.Is` finds the cause |
| `Custom.NewCustomScoreQuery` | custom.go:15-20 | the query holds exactly the given inner query and transformation; its transformation stack is the inner one plus this one |
| `Custom.SearcherOf` | custom.go:22-32 | across any number of decorating queries, building fails exactly when the library query fails, and the error still has the library error on its cause chain; on success the result is the library searcher with the query's transformations stacked on it in order |
| `Custom.SearcherWrapsFailure` | custom.go:24-27 | an inner failure gives a nil searcher and the inner error wrapped as "error wrapping searcher: ..."; unwrapping it gives the inner error |
| `Custom.SearcherWrapsSuccess` | custom.go:28-31 | an inner success gives a `CustomScoreSearcher` around exactly that searcher, with the query's own transformation |
| `Custom.Intercept` | custom.go:39-53 | an inner error is returned unchanged with a nil match, regardless of the transformation; otherwise the result is `custom(rv)`, including `custom(nil)` at exhaustion |
| `Custom.Next` | custom.go:39-45 | the call reaches the library searcher at the bottom of the stack; its reply passes back up through every decorator; the decorators are unchanged afterwards |
| `Custom.Advance` | custom.go:47-53 | the target number reaches the library searcher unchanged; its reply passes back up through every decorator; the decorators are unchanged afterwards |
| `Custom.Close` | custom.go:55-57 | returns exactly what the library searcher at the bottom of the stack returns |
| `Custom.Count` | custom.go:58-60 | returns exactly what the library searcher at the bottom of the stack returns |
| `Custom.Min` | custom.go:62-64 | returns exactly what the library searcher at the bottom of the stack returns |
| `Custom.Size` | custom.go:66-68 | returns exactly what the library searcher at the bottom of the stack returns |
| `Custom.DocumentMatchPoolSize` | custom.go:70-72 | returns exactly what the library searcher at the bottom of the stack returns |
| `CustomLaws.RunDecorated` | custom.go:39-53 | over any sequence of `Next`/`Advance` calls, the decorated stream is the inner stream with each reply intercepted |
| `CustomLaws.RunConventional` | custom.go:41-43 | a decorator, or a library searcher that never returns a match together with an error, never does so in any later reply |
| `CustomLaws.RunIdentity` | custom.go:39-53 | decorating with the identity transformation leaves a conventional searcher's stream unchanged |
| `CustomLaws.IdentityDropsMatchBesideError` | custom.go:41-43 | if the inner reply carries both a match and an error, the identity decorator drops the match, so the identity law needs Go's convention |
| `CustomLaws.RunStacked` | custom.go:34-53 | two stacked decorators `t1` then `t2` give `t2(t1(m))` for every reply; errors come out as the inner searcher gave them |
| `CustomLaws.RunThroughLayers` | custom.go:34-53 | any stack of decorators rewrites the bottom library searcher's stream reply by reply, innermost transformation first |
| `CustomLaws.ThroughConcat` | custom.go:34-53 | passing a reply through an inner stack and then an outer stack is the same as passing it through the combined stack |
| `CustomLaws.QueryRun` | custom.go:22-53 | the searcher a query builds yields the library query's stream passed through the query's transformations in order |
| `CustomLaws.QueryStacked` | custom.go:22-53 | wrapping a decorated query `t1` with `t2` yields `t2(t1(m))` per result of the plain query; a build error is the plain error wrapped twice |
| `Floats.BitsBijection` | main.go:147-157 | `math.Float64bits` (main.go:149) and `math.Float64frombits` (main.go:156), modelled as `Floats.Float64bits`/`Floats.Float64frombits`, are inverse in both directions |
| `BoostCodec.BigEndian` | main.go:150 | `PutUint64` produces exactly 8 bytes |
| `BoostCodec.Uint64` | main.go:155 | `binary.BigEndian.Uint64` reads the first eight bytes, most significant first, so that `PutUint64`'s encoding of the result is exactly those bytes; a shorter slice is excluded because Go panics (inverse laws: `DecodeEncode`, `EncodeDecode`) |
| `BoostCodec.BigEndianByte` | main.go:149-150 | byte `i` of the encoding is bits `56-8i` to `63-8i` of the pattern |
| `BoostCodec.DecodeEncode` | main.go:147-157 | `Uint64` reads back the pattern `PutUint64` wrote |
| `BoostCodec.EncodeDecode` | main.go:154-157 | `PutUint64` of what `Uint64` read reproduces the first 8 bytes exactly |
| `BoostCodec.PutUint64` | main.go:150 | overwrites the first 8 bytes of the buffer with the big-endian encoding and leaves the rest unchanged |
| `BoostCodec.Float64FromBytes` | main.go:154-157 | the value read from the first 8 bytes encodes back to exactly those bytes |
| `BoostCodec.Encode` | main.go:147-152 | the encoding of a float64 is 8 bytes long |
| `BoostCodec.Float64ToBytes` | main.go:147-152 | allocates a fresh 8-byte buffer holding the big-endian bit pattern; decoding it gives back the original value |
| `BoostCodec.RoundTrip` | main.go:147-157 | `float64FromBytes(float64ToBytes(f)) == f`, bit for bit |
| `BoostCodec.BytesRoundTrip` | main.go:147-157 | `float64ToBytes(float64FromBytes(b))` equals the first 8 bytes of `b` |
| `BoostCodec.ExampleEncodings` | main.go:38-45 | the stored boosts 1.0 and 2.0 are the bytes `3F F0 00 ..` and `40 00 ..` |
| `BoostScore.BoostVisitor` | main.go:94-99 | the visitor always asks to continue; a "boost" field sets the boost to the value its bytes encode, and any other field leaves it unchanged |
| `BoostScore.VisitStoredFields` | main.go:93-99 | the boost after visiting is the starting boost or the decoded value of one of the visited "boost" fields |
| `BoostScore.DocumentBoost` | main.go:93-99 | a document's boost is 1.0 or the decoded value of one of its own "boost" fields |
| `BoostScore.NoBoostKeeps` | main.go:93-99 | visiting fields without a "boost" field keeps the boost found so far |
| `BoostScore.LastBoostWins` | main.go:93-99 | the last "boost" field visited decides the boost |
| `BoostScore.DefaultBoost` | main.go:93-99 | a document with no "boost" field, or unknown to the reader, gets the boost 1.0 |
| `BoostScore.StoredBoost` | main.go:93-99 | a document's boost is the decoded value of its last "boost" field |
| `BoostScore.OtherDocumentsIgnored` | main.go:94 | for any reader and document, replacing another document's stored fields (a short "boost" field included) neither makes this document undecodable nor changes its boost, since only the matched document is visited |
| `BoostScore.ExampleShortBoostElsewhere` | main.go:94 | in one example reader, a two-byte "boost" field on document 1 makes the reader as a whole undecodable, yet document 0 still decodes and gets boost 1.0 |
| `BoostScore.CustomScore` | main.go:91-110 | nil in gives nil out, and non-nil in gives non-nil out; the same document comes back; its score is the original score times its boost; it has an explanation exactly when it had one |
| `BoostScore.CustomExplanation` | main.go:103-107 | the new explanation has the new score as its value and "custom, doc_boost * orig_score" as its description; its children are, in order, a boost node and the original explanation |
| `BoostScore.BoostTransform` | main.go:91-110 | the closure maps nil to nil |
| `BoostScore.BoostQuery` | main.go:91 | the decorated query wraps exactly the plain term query, with the boost closure over the search's reader as its transformation |
| `BoostScore.BoostedStream` | main.go:91-116 | per reply, the decorated search has the plain search's errors and its nil at exhaustion; each match is the same document with its score multiplied by its boost |
| `BoostScore.ExampleBoosts` | main.go:34-46 | in the example index, "a" has boost 1.0 and "b" has boost 2.0; a document without stored fields gets 1.0 |
| `BoostScore.ExampleScores` | main.go:91-110 | "b" scores `s * 2.0`; "a" keeps its score when `s * 1.0 == s` |

## Left out

- `main()` setup is left out: the in-memory writer, indexing, the reader, `r.Search`, the deferred closes and `log.Fatalf` exits. This is library I/O and process plumbing.
- `printResults` and all `fmt` output are console I/O and are left out, as is the `-explain` flag.
- bluge's term-frequency scoring is left out. The baseline scores are inputs, so the claim that "b" overtakes "a" is not proved. Only the fact that each decorated score is the baseline score times the boost is proved.
- IEEE-754 arithmetic is left out. A float64 is its bit pattern, and `math.Float64bits`/`Float64frombits` are that correspondence. Go's `*` on float64 is a parameter `times`, with no rounding facts about it.
- ExampleScores: the claim that "a" keeps its score rests on the hypothesis `s * 1.0 == s`. It is not derived from IEEE-754.
- The library's queries, searchers and readers are not modelled. A library searcher replays a fixed script of replies. Its `Advance` skips successful replies below the target. A reader is the map from document number to delivered stored fields. `search.Context`, searcher options other than `explain`, match pooling and reader snapshot isolation are not modelled.
- A library query that returns a nil searcher with a nil error is not modelled. The inner query's result is either a searcher or an error.
- CustomScore: returns a match value with the same document number, not the same `*DocumentMatch` pointer updated in place. The model does not capture aliasing or object identity, or the `DocumentMatch` fields other than number, score and explanation.
- Close: is modelled as returning the inner searcher's error. The model does not capture any change of state, or idempotence, which belongs to the inner searcher.
- Document numbers and counts are unbounded naturals, not `uint64`. The decorator only passes them through, so no wrap-around arises.
- BoostTransform: as a total transformation it is defined on every match the library might return, so it, BoostQuery and BoostedStream require every document of the reader to have decodable "boost" fields (`ReaderDecodable`). The Go closure panics only when the matched document's own "boost" field is short; `CustomScore` and the boost lemmas require only that.
- `float64FromBytes` on fewer than 8 bytes panics in `encoding/binary`. That case is a precondition, and so is a "boost" field shorter than 8 bytes in the closure.
