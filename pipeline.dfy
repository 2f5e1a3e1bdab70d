/** The ranking strategies as one sum type, and the pipeline that runs a
    non-empty list of them one after another, each stage ranking the output
    of the previous one. */
module Pipeline {
  import opened Records
  import opened Ordering
  import opened Scoring
  import Diversity

  /** A remote scoring backend: the query text, the document texts and the
      effective top_k go in; one relevance score per document comes back, or
      the call fails. */
  type Service = (string, seq<string>, int) -> Result<seq<real>>

  /** One stage of a pipeline, with the parameters its constructor takes. */
  datatype Strategy =
    | CrossEncoder(modelName: string, crossEncoder: Service, topK: int := 0)
    | Cohere(modelName: string, cohere: Service, topK: int := 0)
    | Diverse(config: Diversity.Config)
    | TimeDecay(decay: DecayFormula)
    | KeywordBoost(ratio: real := 0.7)
    | VectorBoost(ratio: real := 0.7)
    | Hybrid(decay: DecayFormula, ratio: real := 0.7)

  function Texts(docs: seq<Record>): (r: seq<string>)
    ensures |r| == |docs| && forall i :: 0 <= i < |docs| ==> r[i] == docs[i].text
  {
    seq(|docs|, i requires 0 <= i < |docs| => docs[i].text)
  }

  /** Both remote rankers: ask the backend for scores, sort by them and keep
      the first top_k, where top_k 0 means every document. A score list
      shorter than the documents makes the document-to-score lookup fail;
      scores past the last document are never looked at. */
  function RemoteRank(service: Service, topK: int, query: Record, docs: seq<Record>): (r: Result<seq<Record>>)
    ensures r.Success? ==> |r.value| <= |docs| && multiset(r.value) <= multiset(docs)
    ensures r.Success? && topK == 0 ==> multiset(r.value) == multiset(docs)
    ensures r.Success? && topK >= 0 ==> |r.value| == if 0 < topK < |docs| then topK else |docs|
    ensures r.Success? <==> (var s := service(query.text, Texts(docs), EffectiveTopK(topK, |docs|));
                              s.Success? && |s.value| >= |docs|)
    ensures r.Success? ==>
      var s := service(query.text, Texts(docs), EffectiveTopK(topK, |docs|)).value;
      r.value == Reorder(docs, SortedIndices(s[..|docs|])[..|r.value|])
  {
    match service(query.text, Texts(docs), EffectiveTopK(topK, |docs|))
    case Failure(_) => Failure(ServiceFailure)
    case Success(scores) =>
      if |scores| < |docs| then Failure(ScoreIndexOutOfRange)
      else Success(SortAndTruncate(docs, scores[..|docs|], topK))
  }

  /** What one stage does to a document list. */
  function Apply(s: Strategy, query: Record, docs: seq<Record>): Result<seq<Record>>
  {
    match s
    case CrossEncoder(_, service, topK) => RemoteRank(service, topK, query, docs)
    case Cohere(_, service, topK) => RemoteRank(service, topK, query, docs)
    case Diverse(cfg) => Diversity.DiverseRank(cfg, query, docs)
    case TimeDecay(decay) => TimeDecayRank(decay, docs)
    case KeywordBoost(ratio) => Success(KeywordRank(ratio, docs))
    case VectorBoost(ratio) => Success(VectorRank(ratio, docs))
    case Hybrid(decay, ratio) => HybridRank(decay, ratio, docs)
  }

  /** The stages run left to right; the first failure ends the run. */
  function Fold(steps: seq<Strategy>, query: Record, docs: seq<Record>): Result<seq<Record>>
    decreases |steps|
  {
    if steps == [] then Success(docs)
    else
      match Apply(steps[0], query, docs)
      case Failure(e) => Failure(e)
      case Success(mid) => Fold(steps[1..], query, mid)
  }

  /** Continue a pipeline after a stage: a failure is passed on unchanged. */
  function Then(prev: Result<seq<Record>>, steps: seq<Strategy>, query: Record): Result<seq<Record>>
  {
    match prev
    case Failure(e) => Failure(e)
    case Success(docs) => Fold(steps, query, docs)
  }

  /** The stage list of a pipeline. */
  datatype Stages = Stages(steps: seq<Strategy>)

  /** A pipeline; it can only be built from at least one stage. */
  type ReRanker = rr: Stages | |rr.steps| > 0 witness Stages([KeywordBoost()])

  function NewReRanker(steps: seq<Strategy>): (r: Result<ReRanker>)
    ensures r.Failure? <==> steps == []
    ensures r.Failure? ==> r.error == NoSteps
    ensures r.Success? ==> r.value.steps == steps && r.value.steps != []
  {
    if steps == [] then Failure(NoSteps) else Success(Stages(steps))
  }

  /** A stage that never drops a document. */
  predicate KeepsAll(s: Strategy)
  {
    match s
    case CrossEncoder(_, _, topK) => topK == 0
    case Cohere(_, _, topK) => topK == 0
    case Diverse(cfg) => cfg.threshold == Diversity.MinusInfinity
    case _ => true
  }

  // ---------------------------------------------------------------------
  // Properties of a pipeline

  /** When a stage fails. The boosts never fail and keep every document;
      time decay and the hybrid fail exactly when there are no documents or
      one lacks an update time; diversity fails exactly when there are no
      documents or a vector is missing; a remote ranker fails exactly when
      its backend does or answers for too few documents. No stage reports
      the empty-pipeline error. */
  lemma ApplyOutcome(s: Strategy, query: Record, docs: seq<Record>)
    ensures var r := Apply(s, query, docs);
      && (IsBoost(s) ==> r.Success? && multiset(r.value) == multiset(docs))
      && (s.TimeDecay? || s.Hybrid? ==> (r.Failure? <==> docs == [] || !AllTimestamped(docs)))
      && (s.Diverse? ==> (r.Failure? <==> docs == [] || query.vector.None? || !Diversity.AllVectors(docs)))
      && (s.CrossEncoder? ==>
            (r.Failure? <==> var a := s.crossEncoder(query.text, Texts(docs), EffectiveTopK(s.topK, |docs|));
                             a.Failure? || |a.value| < |docs|))
      && (s.Cohere? ==>
            (r.Failure? <==> var a := s.cohere(query.text, Texts(docs), EffectiveTopK(s.topK, |docs|));
                             a.Failure? || |a.value| < |docs|))
      && (r.Failure? ==> r.error != NoSteps)
  {
  }

  /** A stage that is a boost. */
  predicate IsBoost(s: Strategy)
  {
    s.KeywordBoost? || s.VectorBoost?
  }

  /** A pipeline of boosts only never fails and keeps every document. */
  lemma {:induction false} BoostsKeepAll(steps: seq<Strategy>, query: Record, docs: seq<Record>)
    requires forall i :: 0 <= i < |steps| ==> IsBoost(steps[i])
    ensures Fold(steps, query, docs).Success? && multiset(Fold(steps, query, docs).value) == multiset(docs)
    decreases |steps|
  {
    if steps != [] {
      ApplyOutcome(steps[0], query, docs);
      var mid := Apply(steps[0], query, docs).value;
      FirstStageSucceeds(steps, query, docs);
      assert forall i :: 0 <= i < |steps[1..]| ==> steps[1..][i] == steps[i + 1];
      BoostsKeepAll(steps[1..], query, mid);
    }
  }

  /** A pipeline's failure is always some stage's own failure, never the
      empty-pipeline error. */
  lemma {:induction false} FoldNeverNoSteps(steps: seq<Strategy>, query: Record, docs: seq<Record>)
    ensures Fold(steps, query, docs).Failure? ==> Fold(steps, query, docs).error != NoSteps
    decreases |steps|
  {
    if steps != [] {
      ApplyOutcome(steps[0], query, docs);
      if Apply(steps[0], query, docs).Success? {
        FirstStageSucceeds(steps, query, docs);
        FoldNeverNoSteps(steps[1..], query, Apply(steps[0], query, docs).value);
      } else {
        FirstStageFails(steps, query, docs);
      }
    }
  }


  /** A stage returns some of its input documents, each at most as often as
      it was given, and never more of them. */
  lemma ApplyShrinks(s: Strategy, query: Record, docs: seq<Record>)
    ensures Apply(s, query, docs).Success? ==>
      var out := Apply(s, query, docs).value;
      |out| <= |docs| && multiset(out) <= multiset(docs)
  {
    if s.TimeDecay? || s.KeywordBoost? || s.VectorBoost? || s.Hybrid? {
      if Apply(s, query, docs).Success? {
        var out := Apply(s, query, docs).value;
        assert |multiset(out)| == |multiset(docs)|;
      }
    }
  }

  /** An untruncated stage returns a reordering of its input. */
  lemma ApplyKeepsAll(s: Strategy, query: Record, docs: seq<Record>)
    requires KeepsAll(s)
    ensures Apply(s, query, docs).Success? ==> multiset(Apply(s, query, docs).value) == multiset(docs)
  {
  }

  /** Running A ++ B is running A, then running B on what A returned. */
  lemma {:induction false} FoldAppend(a: seq<Strategy>, b: seq<Strategy>, query: Record, docs: seq<Record>)
    ensures Fold(a + b, query, docs) == Then(Fold(a, query, docs), b, query)
    decreases |a|
  {
    if a == [] {
      assert a + b == b;
    } else {
      assert (a + b)[0] == a[0];
      assert (a + b)[1..] == a[1..] + b;
      match Apply(a[0], query, docs)
      case Failure(e) =>
      case Success(mid) =>
        FoldAppend(a[1..], b, query, mid);
    }
  }

  /** A one-stage pipeline is that stage. */
  lemma OneStage(a: Strategy, query: Record, docs: seq<Record>)
    ensures Fold([a], query, docs) == Apply(a, query, docs)
  {
    assert [a][1..] == [];
  }

  /** A two-stage pipeline feeds the first stage's output to the second. */
  lemma TwoStages(a: Strategy, b: Strategy, query: Record, docs: seq<Record>)
    ensures Fold([a, b], query, docs) == Then(Apply(a, query, docs), [b], query)
    ensures Apply(a, query, docs).Success? ==>
      Fold([a, b], query, docs) == Apply(b, query, Apply(a, query, docs).value)
  {
    assert [a, b][0] == a;
    assert [a, b][1..] == [b];
    if Apply(a, query, docs).Success? {
      OneStage(b, query, Apply(a, query, docs).value);
    }
  }

  /** A pipeline returns a sub-multiset of its input, never longer. */
  lemma {:induction false} FoldShrinks(steps: seq<Strategy>, query: Record, docs: seq<Record>)
    ensures Fold(steps, query, docs).Success? ==>
      var out := Fold(steps, query, docs).value;
      |out| <= |docs| && multiset(out) <= multiset(docs)
    decreases |steps|
  {
    if steps != [] {
      ApplyShrinks(steps[0], query, docs);
      match Apply(steps[0], query, docs)
      case Failure(_) =>
      case Success(mid) =>
        FoldShrinks(steps[1..], query, mid);
    }
  }

  /** A pipeline of untruncated stages returns a reordering of its input. */
  lemma {:induction false} FoldKeepsAll(steps: seq<Strategy>, query: Record, docs: seq<Record>)
    requires forall i :: 0 <= i < |steps| ==> KeepsAll(steps[i])
    ensures Fold(steps, query, docs).Success? ==>
      var out := Fold(steps, query, docs).value;
      |out| == |docs| && multiset(out) == multiset(docs)
    decreases |steps|
  {
    if steps != [] {
      ApplyKeepsAll(steps[0], query, docs);
      match Apply(steps[0], query, docs)
      case Failure(_) =>
      case Success(mid) =>
        assert |multiset(mid)| == |multiset(docs)|;
        FoldKeepsAll(steps[1..], query, mid);
    }
  }

  /** A failing stage makes the whole pipeline fail with its error. */
  lemma {:induction false} FailureAborts(steps: seq<Strategy>, k: nat, query: Record, docs: seq<Record>)
    requires k < |steps|
    requires Fold(steps[..k], query, docs).Success?
    requires Apply(steps[k], query, Fold(steps[..k], query, docs).value).Failure?
    ensures Fold(steps, query, docs) == Apply(steps[k], query, Fold(steps[..k], query, docs).value)
  {
    if k == 0 {
      assert steps[..0] == [];
      FirstStageFails(steps, query, docs);
    } else {
      var mid := Apply(steps[0], query, docs);
      assert steps[..k][0] == steps[0];
      assert mid.Success?;
      assert steps[..k][1..] == steps[1..][..k - 1];
      FirstStageSucceeds(steps[..k], query, docs);
      FirstStageSucceeds(steps, query, docs);
      FailureAborts(steps[1..], k - 1, query, mid.value);
    }
  }

  /** After a successful first stage, the rest runs on its output. */
  lemma FirstStageSucceeds(steps: seq<Strategy>, query: Record, docs: seq<Record>)
    requires steps != [] && Apply(steps[0], query, docs).Success?
    ensures Fold(steps, query, docs) == Fold(steps[1..], query, Apply(steps[0], query, docs).value)
  {
  }

  /** A pipeline whose first stage fails fails with that stage's error. */
  lemma FirstStageFails(steps: seq<Strategy>, query: Record, docs: seq<Record>)
    requires steps != [] && Apply(steps[0], query, docs).Failure?
    ensures Fold(steps, query, docs) == Apply(steps[0], query, docs)
  {
  }

  // ---------------------------------------------------------------------
  // The pipeline as the program runs it

  /** One stage, through the imperative implementations of the sort and of
      the diversity ranking. */
  method Step(s: Strategy, query: Record, docs: seq<Record>) returns (r: Result<seq<Record>>)
    ensures r == Apply(s, query, docs)
  {
    match s
    case CrossEncoder(_, service, topK) =>
      r := RemoteStep(service, topK, query, docs);
    case Cohere(_, service, topK) =>
      r := RemoteStep(service, topK, query, docs);
    case Diverse(cfg) =>
      r := Diversity.Rank(cfg, query, docs);
    case TimeDecay(decay) =>
      var scores := TimeDecayScores(decay, docs);
      if scores.Failure? {
        return Failure(scores.error);
      }
      var out := SortAndTruncateInPlace(docs, scores.value, 0);
      r := Success(out);
    case KeywordBoost(ratio) =>
      var out := SortAndTruncateInPlace(docs, KeywordScores(ratio, docs), 0);
      r := Success(out);
    case VectorBoost(ratio) =>
      var out := SortAndTruncateInPlace(docs, VectorScores(ratio, docs), 0);
      r := Success(out);
    case Hybrid(decay, ratio) =>
      var scores := HybridScores(decay, ratio, docs);
      if scores.Failure? {
        return Failure(scores.error);
      }
      var out := SortAndTruncateInPlace(docs, scores.value, 0);
      r := Success(out);
  }

  method RemoteStep(service: Service, topK: int, query: Record, docs: seq<Record>) returns (r: Result<seq<Record>>)
    ensures r == RemoteRank(service, topK, query, docs)
  {
    var k := if topK == 0 then |docs| else topK;
    var scores := service(query.text, Texts(docs), k);
    if scores.Failure? {
      return Failure(ServiceFailure);
    }
    if |scores.value| < |docs| {
      return Failure(ScoreIndexOutOfRange);
    }
    var out := SortAndTruncateInPlace(docs, scores.value[..|docs|], topK);
    r := Success(out);
  }

  /** Runs every stage in order on the records. */
  method RankRecords(rr: ReRanker, query: Record, docs: seq<Record>) returns (r: Result<seq<Record>>)
    ensures r == Fold(rr.steps, query, docs)
  {
    var current := docs;
    for i := 0 to |rr.steps|
      invariant Fold(rr.steps, query, docs) == Fold(rr.steps[i..], query, current)
    {
      assert rr.steps[i..][0] == rr.steps[i];
      assert rr.steps[i..][1..] == rr.steps[i + 1..];
      var next := Step(rr.steps[i], query, current);
      if next.Failure? {
        return Failure(next.error);
      }
      current := next.value;
    }
    assert rr.steps[|rr.steps|..] == [];
    r := Success(current);
  }

  /** The records the plain-text interface ranks: document i gets id i. */
  function Wrap(docs: seq<string>): (r: seq<Record>)
    ensures |r| == |docs|
    ensures forall i :: 0 <= i < |docs| ==> r[i] == TextRecord(i, docs[i])
  {
    seq(|docs|, i requires 0 <= i < |docs| => TextRecord(i, docs[i]))
  }

  /** The plain-text interface: wrap the strings as records, rank them, and
      return the texts of the ranked records. */
  method RankTexts(rr: ReRanker, query: string, docs: seq<string>) returns (r: Result<seq<string>>)
    ensures r.Failure? <==> Fold(rr.steps, Record(text := query), Wrap(docs)).Failure?
    ensures r.Success? ==> r.value == Texts(Fold(rr.steps, Record(text := query), Wrap(docs)).value)
  {
    var ranked := RankRecords(rr, Record(text := query), Wrap(docs));
    if ranked.Failure? {
      return Failure(ranked.error);
    }
    r := Success(Texts(ranked.value));
  }

  /** Texts come back in the order the pipeline ranked the records, each one
      a text that was given. */
  lemma RankedTextsWereGiven(rr: ReRanker, query: string, docs: seq<string>)
    ensures Fold(rr.steps, Record(text := query), Wrap(docs)).Success? ==>
      multiset(Texts(Fold(rr.steps, Record(text := query), Wrap(docs)).value)) <= multiset(docs)
  {
    var recs := Wrap(docs);
    FoldShrinks(rr.steps, Record(text := query), recs);
    if Fold(rr.steps, Record(text := query), recs).Success? {
      var out := Fold(rr.steps, Record(text := query), recs).value;
      TextsMonotone(out, recs);
      assert Texts(recs) == docs;
    }
  }

  lemma TextsCons(a: seq<Record>)
    requires a != []
    ensures Texts(a) == [a[0].text] + Texts(a[1..])
  {
  }

  /** Taking record k out of a list takes its text out of the texts. */
  lemma TextsRemove(b: seq<Record>, k: nat)
    requires k < |b|
    ensures multiset(Texts(b)) == multiset(Texts(b[..k] + b[k + 1..])) + multiset{b[k].text}
  {
    var t := Texts(b);
    assert Texts(b[..k] + b[k + 1..]) == t[..k] + t[k + 1..];
    RemoveAt(t, k);
  }

  lemma {:induction false} TextsMonotone(a: seq<Record>, b: seq<Record>)
    requires multiset(a) <= multiset(b)
    ensures multiset(Texts(a)) <= multiset(Texts(b))
    decreases |a|
  {
    if a != [] {
      var x := a[0];
      assert x in multiset(a);
      var k := IndexOf(b, x);
      var rest := b[..k] + b[k + 1..];
      PeelBoth(a, b, k);
      TextsMonotone(a[1..], rest);
      TextsRemove(b, k);
      TextsCons(a);
      assert multiset(Texts(a)) == multiset{x.text} + multiset(Texts(a[1..]));
      AddMonotone(multiset(Texts(a[1..])), multiset(Texts(rest)), multiset{x.text});
    }
  }
}
