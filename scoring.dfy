/** The local score formulas: time decay (its precondition; the formula itself
    is a parameter), keyword boost, vector boost, and their hybrid product.
    Each strategy's `rank` is the shared sort over its scores, untruncated. */
module Scoring {
  import opened Records
  import opened Ordering

  /** The time-decay formula with the clock and the decay rate fixed: maps a
      record's base score and update time to its decayed score. */
  type DecayFormula = (real, Timestamp) -> real

  predicate AllTimestamped(docs: seq<Record>)
  {
    forall i :: 0 <= i < |docs| ==> docs[i].updatedAt.Some?
  }

  /** Time-decay scores. Only the first document is checked up front; a later
      document without an update time makes the formula itself fail. */
  function TimeDecayScores(decay: DecayFormula, docs: seq<Record>): (r: Result<seq<real>>)
    ensures docs == [] || docs[0].updatedAt.None? ==> r == Failure(MissingTimestamp)
    ensures r.Failure? <==> !AllTimestamped(docs) || docs == []
    ensures r.Success? ==> |r.value| == |docs|
    ensures r.Success? ==> forall i :: 0 <= i < |docs| ==>
              r.value[i] == decay(docs[i].score, docs[i].updatedAt.value)
  {
    if docs == [] || docs[0].updatedAt.None? then Failure(MissingTimestamp)
    else if !AllTimestamped(docs) then Failure(UndefinedOperand)
    else Success(seq(|docs|, i requires 0 <= i < |docs| => decay(docs[i].score, docs[i].updatedAt.value)))
  }

  /** Title and content signals mixed by `ratio`, then weighted by `boost`. */
  function Blend(ratio: real, title: real, content: real, boost: real): real
  {
    (title * ratio + content * (1.0 - ratio)) * boost
  }

  /** The boost formula shared by both boost strategies, over the three
      per-document signal lists: blended when the first title signal is
      nonzero, the content signal alone otherwise. */
  function BoostScores(ratio: real, titles: seq<real>, contents: seq<real>, boosts: seq<real>): (r: seq<real>)
    requires |titles| == |contents| == |boosts|
    ensures |r| == |titles|
    ensures titles != [] && titles[0] != 0.0 ==>
              forall i :: 0 <= i < |r| ==> r[i] == Blend(ratio, titles[i], contents[i], boosts[i])
    ensures titles == [] || titles[0] == 0.0 ==>
              forall i :: 0 <= i < |r| ==> r[i] == contents[i] * boosts[i]
  {
    if titles != [] && titles[0] != 0.0 then
      seq(|titles|, i requires 0 <= i < |titles| => Blend(ratio, titles[i], contents[i], boosts[i]))
    else
      seq(|titles|, i requires 0 <= i < |titles| => contents[i] * boosts[i])
  }

  function TitleBm25s(docs: seq<Record>): (r: seq<real>)
    ensures |r| == |docs| && forall i :: 0 <= i < |docs| ==> r[i] == docs[i].titleBm25
  { seq(|docs|, i requires 0 <= i < |docs| => docs[i].titleBm25) }

  function ContentBm25s(docs: seq<Record>): (r: seq<real>)
    ensures |r| == |docs| && forall i :: 0 <= i < |docs| ==> r[i] == docs[i].contentBm25
  { seq(|docs|, i requires 0 <= i < |docs| => docs[i].contentBm25) }

  function TitleSims(docs: seq<Record>): (r: seq<real>)
    ensures |r| == |docs| && forall i :: 0 <= i < |docs| ==> r[i] == docs[i].titleSim
  { seq(|docs|, i requires 0 <= i < |docs| => docs[i].titleSim) }

  function VectorSims(docs: seq<Record>): (r: seq<real>)
    ensures |r| == |docs| && forall i :: 0 <= i < |docs| ==> r[i] == docs[i].vectorSim
  { seq(|docs|, i requires 0 <= i < |docs| => docs[i].vectorSim) }

  function Boosts(docs: seq<Record>): (r: seq<real>)
    ensures |r| == |docs| && forall i :: 0 <= i < |docs| ==> r[i] == docs[i].boost
  { seq(|docs|, i requires 0 <= i < |docs| => docs[i].boost) }

  /** Keyword boost: the BM25 title and content signals. */
  function KeywordScores(ratio: real, docs: seq<Record>): (r: seq<real>)
    ensures |r| == |docs|
    ensures docs != [] && docs[0].titleBm25 != 0.0 ==> forall i :: 0 <= i < |docs| ==>
              r[i] == (docs[i].titleBm25 * ratio + docs[i].contentBm25 * (1.0 - ratio)) * docs[i].boost
    ensures docs == [] || docs[0].titleBm25 == 0.0 ==> forall i :: 0 <= i < |docs| ==>
              r[i] == docs[i].contentBm25 * docs[i].boost
  {
    BoostScores(ratio, TitleBm25s(docs), ContentBm25s(docs), Boosts(docs))
  }

  /** Vector boost: the same formula over the title and body similarities. */
  function VectorScores(ratio: real, docs: seq<Record>): (r: seq<real>)
    ensures |r| == |docs|
    ensures docs != [] && docs[0].titleSim != 0.0 ==> forall i :: 0 <= i < |docs| ==>
              r[i] == (docs[i].titleSim * ratio + docs[i].vectorSim * (1.0 - ratio)) * docs[i].boost
    ensures docs == [] || docs[0].titleSim == 0.0 ==> forall i :: 0 <= i < |docs| ==>
              r[i] == docs[i].vectorSim * docs[i].boost
  {
    BoostScores(ratio, TitleSims(docs), VectorSims(docs), Boosts(docs))
  }

  /** The element-wise product of two score lists, as far as both reach. */
  function ProductScores(a: seq<real>, b: seq<real>): (r: seq<real>)
    ensures |r| == if |a| <= |b| then |a| else |b|
  {
    if a == [] || b == [] then [] else [a[0] * b[0]] + ProductScores(a[1..], b[1..])
  }

  lemma {:induction false} ProductScoresAt(a: seq<real>, b: seq<real>, i: nat)
    requires i < |a| && i < |b|
    ensures ProductScores(a, b)[i] == a[i] * b[i]
  {
    if i > 0 {
      ProductScoresAt(a[1..], b[1..], i - 1);
    }
  }

  /** Hybrid: time-decay score times vector-boost score, document by document.
      It fails exactly when the time-decay scores do. */
  function HybridScores(decay: DecayFormula, ratio: real, docs: seq<Record>): (r: Result<seq<real>>)
    ensures r.Failure? <==> TimeDecayScores(decay, docs).Failure?
    ensures r.Failure? ==> r.error == TimeDecayScores(decay, docs).error
    ensures r.Success? ==> |r.value| == |docs| && forall i :: 0 <= i < |docs| ==>
              r.value[i] == TimeDecayScores(decay, docs).value[i] * VectorScores(ratio, docs)[i]
  {
    match TimeDecayScores(decay, docs)
    case Failure(e) => Failure(e)
    case Success(d) =>
      var v := VectorScores(ratio, docs);
      var p := ProductScores(d, v);
      assert forall i :: 0 <= i < |docs| ==> p[i] == d[i] * v[i] by {
        forall i | 0 <= i < |docs| ensures p[i] == d[i] * v[i] {
          ProductScoresAt(d, v, i);
        }
      }
      Success(p)
  }

  // ---------------------------------------------------------------------
  // The strategies' rank: the shared sort over their scores, no truncation

  function TimeDecayRank(decay: DecayFormula, docs: seq<Record>): (r: Result<seq<Record>>)
    ensures r.Failure? <==> TimeDecayScores(decay, docs).Failure?
    ensures r.Success? ==> multiset(r.value) == multiset(docs)
    ensures r.Success? ==> r.value == Reorder(docs, SortedIndices(TimeDecayScores(decay, docs).value))
  {
    match TimeDecayScores(decay, docs)
    case Failure(e) => Failure(e)
    case Success(s) => Success(SortAndTruncate(docs, s, 0))
  }

  function KeywordRank(ratio: real, docs: seq<Record>): (r: seq<Record>)
    ensures multiset(r) == multiset(docs)
    ensures r == Reorder(docs, SortedIndices(KeywordScores(ratio, docs)))
  {
    SortAndTruncate(docs, KeywordScores(ratio, docs), 0)
  }

  function VectorRank(ratio: real, docs: seq<Record>): (r: seq<Record>)
    ensures multiset(r) == multiset(docs)
    ensures r == Reorder(docs, SortedIndices(VectorScores(ratio, docs)))
  {
    SortAndTruncate(docs, VectorScores(ratio, docs), 0)
  }

  function HybridRank(decay: DecayFormula, ratio: real, docs: seq<Record>): (r: Result<seq<Record>>)
    ensures r.Failure? <==> TimeDecayScores(decay, docs).Failure?
    ensures r.Success? ==> multiset(r.value) == multiset(docs)
    ensures r.Success? ==> r.value == Reorder(docs, SortedIndices(HybridScores(decay, ratio, docs).value))
  {
    match HybridScores(decay, ratio, docs)
    case Failure(e) => Failure(e)
    case Success(s) => Success(SortAndTruncate(docs, s, 0))
  }

  // ---------------------------------------------------------------------
  // Properties of the formulas

  /** The record that exchanges the BM25 pair for the similarity pair. */
  function SwapSignals(d: Record): (r: Record)
    ensures r.titleBm25 == d.titleSim && r.contentBm25 == d.vectorSim
    ensures r.titleSim == d.titleBm25 && r.vectorSim == d.contentBm25
    ensures r.boost == d.boost
  {
    d.(titleBm25 := d.titleSim, contentBm25 := d.vectorSim, titleSim := d.titleBm25, vectorSim := d.contentBm25)
  }

  /** Vector boost is keyword boost read through the other pair of signals. */
  lemma VectorIsKeywordOverSimilarities(ratio: real, docs: seq<Record>)
    ensures VectorScores(ratio, docs) == KeywordScores(ratio, seq(|docs|, i requires 0 <= i < |docs| => SwapSignals(docs[i])))
  {
    var swapped := seq(|docs|, i requires 0 <= i < |docs| => SwapSignals(docs[i]));
    assert TitleBm25s(swapped) == TitleSims(docs);
    assert ContentBm25s(swapped) == VectorSims(docs);
    assert Boosts(swapped) == Boosts(docs);
  }

  /** With the declared default `boost` of 0 on every document, every keyword
      and vector score is 0, whatever the signals. */
  lemma DefaultBoostZeroesScores(ratio: real, docs: seq<Record>)
    requires forall i :: 0 <= i < |docs| ==> docs[i].boost == 0.0
    ensures forall i :: 0 <= i < |docs| ==> KeywordScores(ratio, docs)[i] == 0.0
    ensures forall i :: 0 <= i < |docs| ==> VectorScores(ratio, docs)[i] == 0.0
  {
  }

  /** The fallback is the blend with ratio 0: at ratio 0 the branch taken on
      the first document makes no difference. */
  lemma FallbackIsRatioZero(docs: seq<Record>)
    ensures forall i :: 0 <= i < |docs| ==> KeywordScores(0.0, docs)[i] == docs[i].contentBm25 * docs[i].boost
  {
  }

  /** Only the first document picks the branch: once it has a title signal,
      a later document without one still gets the blend, so its content
      signal counts only with weight 1 - ratio. */
  lemma FirstDocumentPicksBranch(ratio: real, docs: seq<Record>, i: nat)
    requires i < |docs| && docs[0].titleBm25 != 0.0 && docs[i].titleBm25 == 0.0
    ensures KeywordScores(ratio, docs)[i] == docs[i].contentBm25 * (1.0 - ratio) * docs[i].boost
  {
  }

  /** For a ratio in [0, 1] and a nonnegative boost, the blended score lies
      between the weighted title and content signals. */
  lemma BlendBetween(ratio: real, title: real, content: real, boost: real)
    requires 0.0 <= ratio <= 1.0 && boost >= 0.0
    ensures var lo := if title <= content then title else content;
            var hi := if title <= content then content else title;
            lo * boost <= Blend(ratio, title, content, boost) <= hi * boost
  {
    var b := Blend(ratio, title, content, boost);
    assert b == (title * ratio + content * (1.0 - ratio)) * boost;
    if title <= content {
      WeightedBetween(title, content, ratio, 1.0 - ratio, boost);
      assert title * boost <= b <= content * boost;
    } else {
      WeightedBetween(content, title, 1.0 - ratio, ratio, boost);
      var m := title * ratio + content * (1.0 - ratio);
      assert content * (1.0 - ratio) + title * ratio == m;
      assert (content * (1.0 - ratio) + title * ratio) * boost == m * boost;
      assert content * boost <= b <= title * boost;
    }
  }

  /** A weighted mean of two values, scaled by a nonnegative factor, lies
      between the two values scaled. */
  lemma WeightedBetween(lo: real, hi: real, r: real, s: real, c: real)
    requires lo <= hi && r >= 0.0 && s >= 0.0 && r + s == 1.0 && c >= 0.0
    ensures lo * c <= (lo * r + hi * s) * c <= hi * c
  {
    var d := hi - lo;
    var m := lo * r + hi * s;
    assert m - lo == d * s;
    assert hi - m == d * r;
    NonNegProduct(d, s);
    NonNegProduct(d, r);
    NonNegProduct(m - lo, c);
    NonNegProduct(hi - m, c);
    assert m * c - lo * c == (m - lo) * c;
    assert hi * c - m * c == (hi - m) * c;
  }

  /** The product of two nonnegative reals is nonnegative. */
  lemma NonNegProduct(a: real, b: real)
    requires a >= 0.0 && b >= 0.0
    ensures a * b >= 0.0
  {
  }

  /** The documents with equal base scores and updated in order, freshest
      first, with a formula that, at that base score, does not decay a
      fresher record more: the ranking leaves them as they are. */
  lemma FreshestFirstKeepsOrder(decay: DecayFormula, docs: seq<Record>)
    requires docs != [] && AllTimestamped(docs)
    requires forall i, j :: 0 <= i < j < |docs| ==>
               docs[i].score == docs[j].score && docs[i].updatedAt.value >= docs[j].updatedAt.value
    requires forall t1: Timestamp, t2: Timestamp :: t1 >= t2 ==> decay(docs[0].score, t1) >= decay(docs[0].score, t2)
    ensures TimeDecayRank(decay, docs) == Success(docs)
  {
    var s := TimeDecayScores(decay, docs).value;
    forall i, j | 0 <= i < j < |s| ensures s[i] >= s[j] {
      assert s[i] == decay(docs[i].score, docs[i].updatedAt.value);
      assert s[j] == decay(docs[j].score, docs[j].updatedAt.value);
      assert docs[i].score == docs[0].score == docs[j].score;
    }
    SortKeepsAllWithoutTopK(docs, s);
  }
}
