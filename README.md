# reranker: a verified model of the ranking core

This project models the ranking layer of the `reranker` library in Dafny: the
`Record` value type, the seven ranking strategies and the `ReRanker` pipeline
that chains them. The strategies are two remote rerankers (cross-encoder and
Cohere), diversity by maximal marginal relevance (MMR), time decay, keyword
boost, vector boost and a hybrid of time decay and vector boost. A `ReRanker` runs a
non-empty list of strategies left to right, and each stage ranks the previous
stage's output.

Scores are mathematical reals. Several things the library computes elsewhere
become parameters of the model:

- the vector similarity, as any function of two vectors;
- the time-decay formula, as any function of a record's base score and
  update time. The decay rate is fixed inside it, and so is the clock: the
  source reads `datetime.now()` afresh for every record, while the model
  uses one clock reading for the whole batch;
- the remote scoring backends, as functions from the query text, the
  document texts and `top_k` to a score list or a failure.

Modules:

- `Records` (`records.dfy`): the `Record` datatype with the declared
  defaults, the error outcomes, and `Result`/`Option`.
- `Ordering` (`ordering.dfy`): the sort-and-truncate step that every
  score-based strategy ends with. It is a stable descending sort by a
  parallel score list, followed by a Python-style `[:top_k]` cut.
  - The sort is an index permutation. It is proved to be the unique stable
    descending order.
  - An in-place insertion sort over an array is proved to compute it.
  - The step as the repository writes it is modelled separately (see
    Findings).
- `Scoring` (`scoring.dfy`): the time-decay precondition, the keyword and
  vector boost formulas, the hybrid product, and each strategy's `rank`.
- `Diversity` (`diversity.dfy`): the MMR selection. `Greedy` is a reference
  definition over value tables. The imperative `Rank` fills the similarity
  table in nested loops and runs the `while candidates` loop. `Rank` is
  proved equal to `DiverseRank`, and the selection invariants and step rules
  are proved about `Greedy`.
- `Pipeline` (`pipeline.dfy`): the strategies as one datatype, a stage as
  `Apply`, and a pipeline as the left fold `Fold`, where the first failure
  ends the run. `ReRanker` is a subset type of stage lists that are not
  empty. It also has the `ReRanker` constructor and the two entry
  points: `RankRecords` and the plain-text `RankTexts`.

An exception in the source is a `Failure` in the model. A stage that fails
ends the pipeline without output.

## Model

| member | source | states |
|---|---|---|
| Records.RecordDefaults | reranker/spec.py:9-20 | a record built from its text alone has id 0, score 1.0, boost 0, hidden false, and no title, summary, vector, update time, author or tags |
| Records.TextRecord | reranker/ranker.py:232 | the record built for the i-th input string has id i and that text, and every other field at its default |
| Ordering.SortedIndices | reranker/ranker.py:41 | the result lists every position exactly once; a higher score comes first, and of equal scores the lower position comes first |
| Ordering.SortedIndicesUnique | reranker/ranker.py:41 | every stable descending order of the positions is the one `SortedIndices` returns |
| Ordering.SortIdxSorted | reranker/ranker.py:41 | insertion sort of distinct positions yields a stable descending order |
| Ordering.InsertPosFirst | reranker/ranker.py:41 | a position is inserted just before the first element it precedes, after every element it does not precede |
| Ordering.InsertSorted | reranker/ranker.py:41 | inserting a new position into a stable descending order gives a stable descending order |
| Ordering.NonIncreasingKeepsOrder | reranker/ranker.py:41 | scores that never increase leave the documents in input order |
| Ordering.Prefix | reranker/ranker.py:41 | `s[:k]` with Python slice rules: a prefix of length min(k, n) for k >= 0, and the list minus its last -k elements for k < 0 |
| Ordering.EffectiveTopK | reranker/ranker.py:39 | top_k 0 stands for the number of documents; any other top_k is used as given |
| Ordering.SortAndTruncate | reranker/ranker.py:39-41 | the output is the first min(k, n) documents of the stable descending order (for top_k >= 0); it is a sub-multiset of the input, never longer, and with top_k 0 a permutation of it |
| Ordering.SortKeepsAllWithoutTopK | reranker/ranker.py:143-145 | without truncation every document is kept; already non-increasing scores give the input back unchanged |
| Ordering.SortIsStable | reranker/ranker.py:41 | in the output, earlier documents score at least as high as later ones, and two equal scores keep their input order |
| Ordering.InsertInPlace | reranker/ranker.py:41 | moving one array element right inserts it into the sorted suffix behind it and leaves the prefix untouched |
| Ordering.SortIndicesInPlace | reranker/ranker.py:41 | the in-place insertion sort of a position array computes the functional insertion sort |
| Ordering.SortInPlace | reranker/ranker.py:41 | sorting the document array in place leaves it in the stable descending order of the scores |
| Ordering.SortAndTruncateInPlace | reranker/ranker.py:39-41 | copy, in-place sort and slice compute the sort-and-truncate step |
| Ordering.SortCallAsWritten | reranker/ranker.py:41 | the step as written never yields a list: it raises on any non-empty input (a Record used as a list index), on an empty one it returns None, and slicing that None raises |
| Ordering.SortAsWrittenDiverges | reranker/ranker.py:41 | for one document with one score, the step as written fails and the intended step returns that document |
| Scoring.TimeDecayScores | reranker/ranker.py:130-141 | fails with the missing-timestamp error when there are no documents or the first has no update time, fails whenever any document lacks one, and otherwise gives one decayed score per document |
| Scoring.BoostScores | reranker/ranker.py:152-164 | one score per document: the ratio blend times boost when the first title signal is non-zero, else content times boost |
| Scoring.KeywordScores | reranker/ranker.py:152-164 | the boost formula over the BM25 title and content signals, with the branch chosen by the first document |
| Scoring.VectorScores | reranker/ranker.py:175-187 | the boost formula over the title and content similarities, with the branch chosen by the first document |
| Scoring.ProductScores | reranker/ranker.py:202 | `zip` of two score lists: the output is as long as the shorter list |
| Scoring.ProductScoresAt | reranker/ranker.py:202 | each element of the product is the product of the two elements at that position |
| Scoring.HybridScores | reranker/ranker.py:199-202 | fails exactly when time decay fails, with the same error; otherwise one score per document, the decay score times the vector-boost score |
| Scoring.TimeDecayRank | reranker/ranker.py:143-145 | fails exactly when the decay scores fail; otherwise a permutation of the documents in stable descending order of decay score |
| Scoring.KeywordRank | reranker/ranker.py:166-168 | a permutation of the documents in stable descending order of keyword score |
| Scoring.VectorRank | reranker/ranker.py:189-191 | a permutation of the documents in stable descending order of vector score |
| Scoring.HybridRank | reranker/ranker.py:204-206 | fails exactly when time decay fails; otherwise a permutation of the documents in stable descending order of hybrid score |
| Scoring.VectorIsKeywordOverSimilarities | reranker/ranker.py:152-187 | vector boost equals keyword boost applied to records whose signal pairs are swapped |
| Scoring.DefaultBoostZeroesScores | reranker/ranker.py:159-163 | with boost 0 on every document (the declared default), every keyword and vector boost score is 0 |
| Scoring.FallbackIsRatioZero | reranker/ranker.py:153-163 | at ratio 0 both branches of keyword boost give content times boost |
| Scoring.FirstDocumentPicksBranch | reranker/ranker.py:153-163 | once the first document has a title signal, a later document without one still gets the blended formula |
| Scoring.BlendBetween | reranker/ranker.py:155-159 | for a ratio in [0, 1] and a non-negative boost, the blend lies between boost times the smaller and boost times the larger signal |
| Scoring.FreshestFirstKeepsOrder | reranker/ranker.py:130-145 | documents with equal base scores that arrive freshest first keep their order, under a formula that, at that base score, never decays a fresher record more. `score / (2 + hours)^rate` with hours the true age meets this for a non-negative score and a non-negative rate; the program's own formula does not, because `.seconds` drops whole days (see Left out) |
| Diversity.SimsOf | reranker/ranker.py:93-100 | the pair table is square and symmetric, and the query row has one entry per document |
| Diversity.MaxOf | reranker/ranker.py:107 | `max`: an element of the list that no element exceeds |
| Diversity.FirstMax | reranker/ranker.py:111-114 | `scores.index(max(scores))`: a position of a maximum that no earlier element reaches |
| Diversity.Redundancy | reranker/ranker.py:107 | 0 when nothing is selected; otherwise the largest similarity of the candidate to a selected document: one of them, and no smaller than any |
| Diversity.MmrPenalty | reranker/ranker.py:106-109 | `Mmr`, the MMR score, is λ·sim_q with nothing selected; otherwise λ·sim_q − (1−λ)·sim to some selected document, and for λ ≤ 1 no more than that value for any selected document |
| Diversity.Scores | reranker/ranker.py:104-110 | one MMR score per candidate |
| Diversity.Greedy | reranker/ranker.py:102-115 | the selection loop over value tables; it stays within the document positions |
| Diversity.MoveKeepsSeparate | reranker/ranker.py:115 | moving a candidate to the end of the selection keeps both lists duplicate-free and disjoint, and keeps their combined contents |
| Diversity.GreedyExtends | reranker/ranker.py:102-115 | the loop only appends to `selected`, and adds at most as many indices as there are candidates |
| Diversity.GreedyContents | reranker/ranker.py:102-116 | the selection has no duplicates and holds only earlier selections and candidates; with threshold minus infinity, all of them |
| Diversity.GreedyTrace | reranker/ranker.py:103-115 | every selection step took the first best-scoring remaining candidate, whose score was not below the threshold; the loop stopped only when no candidate was left or the best score was below the threshold |
| Diversity.Selection | reranker/ranker.py:102-116 | the selected indices are valid document positions |
| Diversity.DiverseRank | reranker/ranker.py:88-116 | with no documents or no vector on the first one, fails with the missing-vector error before any work; fails when any vector is missing; otherwise returns distinct input documents, at most n of them, and all of them with threshold minus infinity |
| Diversity.SelectionShape | reranker/ranker.py:102-116 | the selection is duplicate-free and at most n long; with threshold minus infinity it is a permutation of 0..n-1 |
| Diversity.SelectionSteps | reranker/ranker.py:103-115 | the step rule and the stop rule hold for the whole run from `candidates = 0..n-1`, `selected = []` |
| Diversity.FirstPick | reranker/ranker.py:107-115 | the first pick has no redundancy term: it is the first document with the highest lambda times query similarity, and nothing is picked when that score is below the threshold |
| Diversity.NoThresholdReturnsAll | reranker/ranker.py:112-116 | with threshold minus infinity and vectors present, every document is returned |
| Diversity.SimilarityTable | reranker/ranker.py:93-100 | the nested loops either fill the keyed table with exactly the pair and query similarities, or meet a missing vector |
| Diversity.FirstArgMax | reranker/ranker.py:111-114 | the scan returns the first position of the maximum |
| Diversity.ScoreCandidates | reranker/ranker.py:104-110 | the score list built from the table is the MMR score of every candidate |
| Diversity.CandidateScore | reranker/ranker.py:106-109 | the score read from the table is the candidate's MMR score: lambda times its query similarity, minus 1 - lambda times its largest similarity to a selected document (none selected counts as 0) |
| Diversity.Select | reranker/ranker.py:102-115 | the `while candidates` loop computes the reference selection; `selected ++ candidates` stays a permutation of 0..n-1 and both stay duplicate-free and disjoint |
| Diversity.Rank | reranker/ranker.py:88-116 | the imperative strategy computes `DiverseRank` |
| Pipeline.Texts | reranker/ranker.py:31 | the text of each document, in order |
| Pipeline.RemoteRank | reranker/ranker.py:38-41 | succeeds exactly when the backend answers with at least one score per document; the output is a sub-multiset of the input, of length min(k, n) for top_k >= 0, and with top_k 0 a permutation; it is the first min(k, n) documents in stable descending order of the backend's scores |
| Pipeline.NewReRanker | reranker/ranker.py:210-213 | an empty step list is rejected; a non-empty one is stored unchanged |
| Pipeline.ApplyShrinks | reranker/ranker.py:14-17 | every stage returns a sub-multiset of its input, never longer |
| Pipeline.ApplyKeepsAll | reranker/ranker.py:143-206 | an untruncated stage returns a permutation of its input |
| Pipeline.ApplyOutcome | reranker/ranker.py:217 | `Apply`, one `step.rank(query, docs)`: the boosts never fail and keep every document; time decay and the hybrid fail exactly when there are no documents or one lacks an update time; diversity fails exactly when there are no documents or a vector is missing; a remote ranker fails exactly when its backend fails or returns fewer scores than documents; no stage reports the empty-pipeline error |
| Pipeline.BoostsKeepAll | reranker/ranker.py:215-218 | `Fold`, the stages run in order, each on the previous output: a pipeline of boosts only never fails and keeps every document |
| Pipeline.FoldNeverNoSteps | reranker/ranker.py:215-218 | a failure of `Fold` is always some stage's own, never the empty-pipeline error |
| Pipeline.FoldAppend | reranker/ranker.py:215-218 | running steps A ++ B is running A, then B on A's output, with a failure of A passed on |
| Pipeline.OneStage | reranker/ranker.py:215-218 | a one-stage pipeline is that stage |
| Pipeline.TwoStages | reranker/ranker.py:215-218 | for steps [A, B] the result is B's ranking of A's output |
| Pipeline.FoldShrinks | reranker/ranker.py:215-218 | a pipeline returns a sub-multiset of its input, never longer |
| Pipeline.FoldKeepsAll | reranker/ranker.py:215-218 | a pipeline of untruncated stages returns a permutation of its input |
| Pipeline.FailureAborts | reranker/ranker.py:215-218 | when stage k fails on the output of the stages before it, the pipeline fails with that error |
| Pipeline.Step | reranker/ranker.py:217 | one stage run through the in-place sort and the imperative MMR computes `Apply` |
| Pipeline.RemoteStep | reranker/ranker.py:38-41 | the remote rank as the program runs it computes `RemoteRank` |
| Pipeline.RankRecords | reranker/ranker.py:215-218 | the loop over the steps computes the left fold |
| Pipeline.Wrap | reranker/ranker.py:232 | the i-th string becomes a record with id i and that text |
| Pipeline.RankTexts | reranker/ranker.py:228-234 | string mode fails exactly when the fold over the wrapped records fails; otherwise it returns the texts of the ranked records in final order |
| Pipeline.RankedTextsWereGiven | reranker/ranker.py:231-234 | string mode returns only input strings, none more often than given |

## Left out

- Remote scoring: the HTTP call to the cross-encoder service and the Cohere
  SDK call are I/O. Each backend is a function parameter that returns a score
  list or a failure. Any backend failure is one error value.
- Cohere's `results` can come back in relevance order rather than input
  order, and with only `top_k` entries. The model, like the source, reads the
  returned list as one score per input position. A list shorter than the
  documents is the index-out-of-range failure.
- `reranker/distance.py` is not part of this model. The similarity is any
  function of two vectors, and the table is symmetric by construction, since
  only `i < j` is computed. Note that the default `cosine` returns
  `1 - cos`, a distance; the MMR loop uses it as a similarity.
- The time-decay formula (`datetime.now()`, a real exponent, and `.seconds`,
  which drops whole days) is a parameter. Only its precondition and the
  ranking over its scores are modelled.
- Scoring.FreshestFirstKeepsOrder: its hypothesis, a decay that never
  favours an older record at the shared base score, is not met by the
  program's formula. `.seconds` reads the age modulo one day
  (reranker/ranker.py:136): a record one day old reads as 0 hours and one an
  hour old as 1 hour. Records updated whole days apart, as in
  tests/test_rank.py:25, therefore get equal scores, and stability
  (`Ordering.NonIncreasingKeepsOrder`) is what keeps their order.
- The record type has no `title_vector` field, and the model has none.
- `title_bm25`, `content_bm25`, `title_sim` and `vector_sim` are read by the
  boost strategies but not declared by the record type (reranker/spec.py:9-20).
  As written, reading `doc.title_bm25` or `doc.title_sim` on a msgspec
  `Record` raises `AttributeError`, so the keyword, vector and hybrid
  rankers fail on any non-empty list (reranker/ranker.py:153, 159, 176, 182).
  The model instead adds the four signals as real fields; their 1.0 default
  is a modelling choice. Python truthiness of the title signal becomes
  "not 0".
- The boost default follows the code, which declares `boost = 0`.
  `Scoring.DefaultBoostZeroesScores` shows that the 0 zeroes every boost
  score unless the caller sets `boost`.
- `ReRanker.rank` dispatches on `isinstance` at run time. The model offers
  the two cases as two entry points, `RankRecords` and `RankTexts`. When a
  record query comes with an empty record list, the source takes the string
  path; that path is not modelled separately.
- msgspec serialisation of records, and the numpy-array versus list forms
  of `vector`, are representation details and are left out.
- The serving processes (`serving/`) and the package re-exports
  (`reranker/__init__.py`) are not part of this model.
- Scores are reals, not floats: rounding, NaN and infinities in scores are
  not modelled. Minus infinity appears only as the MMR threshold.
- Pipeline.RemoteRank: it does not preserve the backend's own error; every
  backend failure maps to one error value.
- A stage that raises for a missing document vector or update time is
  modelled as a failure. The exception type the source raises is not kept.

## Findings

| source | as written | input that shows it | evidently intended | confidence | as-written member | corrected member |
|---|---|---|---|---|---|---|
| reranker/ranker.py:41 (also lines 63, 145, 168, 191, 206) | `docs.sort(key=scores.__getitem__, reverse=True)` calls the score list's index operator with each Record, which raises, and `list.sort` returns None, so neither the `[:top_k]` slice nor the returned value is a list | one document `d` with scores `[1.0]`: the sort raises instead of returning `[d]`; an empty list yields None from the keyword and vector boost rankers | sort the documents stably by descending score at their own positions, then keep the first `top_k` | not executed | Ordering.SortCallAsWritten (exhibited by Ordering.SortAsWrittenDiverges) | Ordering.SortAndTruncate |
