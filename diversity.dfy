/** Diversity ranking by maximal marginal relevance (MMR).

    The strategy precomputes a symmetric table of document-to-document
    similarities and the query-to-document similarities, then greedily moves
    candidates to the end of a selection list: each step scores every
    remaining candidate as
      lambda * sim(query, c) - (1 - lambda) * max(sim(c, s) for s selected)
    (the max term is 0 while nothing is selected), takes the first candidate
    with the highest score, and stops once that score is below the threshold.

    `Greedy` is the reference definition of the loop over value tables; the
    method `Rank` fills the table in nested loops and runs the loop, and is
    proved to compute `DiverseRank`. The similarity measure is a parameter:
    any function of two vectors, used as "higher means more similar". */
module Diversity {
  import opened Records
  import opened Ordering

  type Similarity = (seq<real>, seq<real>) -> real

  /** The stopping cutoff; `MinusInfinity` never stops the loop. */
  datatype Threshold = MinusInfinity | AtLeast(bound: real)

  predicate Below(x: real, t: Threshold)
  {
    t.AtLeast? && x < t.bound
  }

  datatype Config = Config(sim: Similarity, lambdaConst: real := 0.3, threshold: Threshold := AtLeast(0.0))

  // ---------------------------------------------------------------------
  // Similarity values

  /** Query-to-document similarities and the document-to-document matrix. */
  datatype Sims = Sims(query: seq<real>, pair: seq<seq<real>>)

  predicate WellFormed(s: Sims)
  {
    |s.pair| == |s.query| && forall i :: 0 <= i < |s.pair| ==> |s.pair[i]| == |s.query|
  }

  predicate AllVectors(docs: seq<Record>)
  {
    forall i :: 0 <= i < |docs| ==> docs[i].vector.Some?
  }

  /** The similarity of documents `i` and `j`, always computed with the lower
      position first, so that the table is symmetric whatever `sim` is. */
  function PairSim(sim: Similarity, docs: seq<Record>, i: nat, j: nat): real
    requires i < |docs| && j < |docs| && docs[i].vector.Some? && docs[j].vector.Some?
  {
    if i < j then sim(docs[i].vector.value, docs[j].vector.value)
    else sim(docs[j].vector.value, docs[i].vector.value)
  }

  function SimsOf(sim: Similarity, query: Record, docs: seq<Record>): (s: Sims)
    requires query.vector.Some? && AllVectors(docs)
    ensures WellFormed(s) && |s.query| == |docs|
    ensures forall i, j :: 0 <= i < |docs| && 0 <= j < |docs| ==> s.pair[i][j] == s.pair[j][i]
  {
    var n := |docs|;
    Sims(seq(n, i requires 0 <= i < n => sim(query.vector.value, docs[i].vector.value)),
         seq(n, i requires 0 <= i < n => seq(n, j requires 0 <= j < n => PairSim(sim, docs, i, j))))
  }

  // ---------------------------------------------------------------------
  // One step of the selection

  /** The largest element (the first one, where several are equal). */
  function MaxOf(s: seq<real>): (r: real)
    requires |s| > 0
    ensures r in s && forall i :: 0 <= i < |s| ==> s[i] <= r
  {
    if |s| == 1 then s[0]
    else
      var rest := MaxOf(s[1..]);
      assert forall i :: 1 <= i < |s| ==> s[i] == s[1..][i - 1];
      if s[0] >= rest then s[0] else rest
  }

  /** The position of the first occurrence of the maximum. */
  function FirstMax(s: seq<real>): (k: nat)
    requires |s| > 0
    ensures k < |s|
    ensures forall j :: 0 <= j < |s| ==> s[j] <= s[k]
    ensures forall j :: 0 <= j < k ==> s[j] < s[k]
  {
    if |s| == 1 then 0
    else
      var init := s[..|s| - 1];
      var k := FirstMax(init);
      assert forall j :: 0 <= j < |init| ==> init[j] == s[j];
      if s[|s| - 1] > s[k] then |s| - 1 else k
  }

  /** How close candidate `c` is to what is already selected: its largest
      similarity to a selected document, or 0 when nothing is selected. */
  function Redundancy(sims: Sims, c: nat, sel: seq<nat>): (r: real)
    requires WellFormed(sims) && c < |sims.query| && InRange(sel, |sims.query|)
    ensures sel == [] ==> r == 0.0
    ensures forall k :: 0 <= k < |sel| ==> sims.pair[c][sel[k]] <= r
    ensures sel != [] ==> exists k :: 0 <= k < |sel| && r == sims.pair[c][sel[k]]
  {
    if sel == [] then 0.0
    else
      var s := seq(|sel|, k requires 0 <= k < |sel| => sims.pair[c][sel[k]]);
      assert forall k :: 0 <= k < |sel| ==> s[k] == sims.pair[c][sel[k]];
      MaxOf(s)
  }

  /** The marginal relevance of candidate `c` given the selection so far. */
  function Mmr(lambdaConst: real, sims: Sims, c: nat, sel: seq<nat>): real
    requires WellFormed(sims) && c < |sims.query| && InRange(sel, |sims.query|)
  {
    lambdaConst * sims.query[c] - (1.0 - lambdaConst) * Redundancy(sims, c, sel)
  }

  /** The MMR score is the weighted query similarity, less the weighted
      similarity to the closest selected document. With a weight of at
      most 1, no selected document is penalised less than that closest one. */
  lemma MmrPenalty(lambdaConst: real, sims: Sims, c: nat, sel: seq<nat>)
    requires WellFormed(sims) && c < |sims.query| && InRange(sel, |sims.query|)
    ensures sel == [] ==> Mmr(lambdaConst, sims, c, sel) == lambdaConst * sims.query[c]
    ensures sel != [] ==>
              exists k :: 0 <= k < |sel| && Mmr(lambdaConst, sims, c, sel) == lambdaConst * sims.query[c] - (1.0 - lambdaConst) * sims.pair[c][sel[k]]
    ensures lambdaConst <= 1.0 ==> forall k :: 0 <= k < |sel| ==>
              Mmr(lambdaConst, sims, c, sel) <= lambdaConst * sims.query[c] - (1.0 - lambdaConst) * sims.pair[c][sel[k]]
  {
    var red := Redundancy(sims, c, sel);
    PenaltyAtLeast(lambdaConst, red, seq(|sel|, k requires 0 <= k < |sel| => sims.pair[c][sel[k]]));
  }

  /** A non-negative weight on the largest of some values penalises at least
      as much as on any one of them. */
  lemma PenaltyAtLeast(lambdaConst: real, red: real, s: seq<real>)
    requires forall k :: 0 <= k < |s| ==> s[k] <= red
    ensures lambdaConst <= 1.0 ==> forall k :: 0 <= k < |s| ==> (1.0 - lambdaConst) * s[k] <= (1.0 - lambdaConst) * red
  {
    if lambdaConst <= 1.0 {
      forall k | 0 <= k < |s| ensures (1.0 - lambdaConst) * s[k] <= (1.0 - lambdaConst) * red {
        var w := 1.0 - lambdaConst;
        assert w * red - w * s[k] == w * (red - s[k]);
      }
    }
  }

  function Scores(lambdaConst: real, sims: Sims, cands: seq<nat>, sel: seq<nat>): (r: seq<real>)
    requires WellFormed(sims) && InRange(cands, |sims.query|) && InRange(sel, |sims.query|)
    ensures |r| == |cands|
  {
    seq(|cands|, k requires 0 <= k < |cands| => Mmr(lambdaConst, sims, cands[k], sel))
  }

  /** The reference loop: from the candidate list `cands` (in their current
      order) and the selection `sel`, the final selection. */
  function Greedy(cfg: Config, sims: Sims, cands: seq<nat>, sel: seq<nat>): (r: seq<nat>)
    requires WellFormed(sims) && InRange(cands, |sims.query|) && InRange(sel, |sims.query|)
    ensures InRange(r, |sims.query|)
    decreases |cands|
  {
    if cands == [] then sel
    else
      var s := Scores(cfg.lambdaConst, sims, cands, sel);
      var k := FirstMax(s);
      if Below(s[k], cfg.threshold) then sel
      else Greedy(cfg, sims, cands[..k] + cands[k + 1..], sel + [cands[k]])
  }

  // ---------------------------------------------------------------------
  // The candidate and selection lists stay apart

  /** Both lists are free of duplicates and share no position. */
  predicate Separate(cands: seq<nat>, sel: seq<nat>)
  {
    Distinct(cands) && Distinct(sel) && forall i, j :: 0 <= i < |cands| && 0 <= j < |sel| ==> cands[i] != sel[j]
  }

  lemma PopInRange(cands: seq<nat>, sel: seq<nat>, k: nat, n: nat)
    requires InRange(cands, n) && InRange(sel, n) && k < |cands|
    ensures InRange(cands[..k] + cands[k + 1..], n) && InRange(sel + [cands[k]], n)
  {
    var rest := cands[..k] + cands[k + 1..];
    forall i | 0 <= i < |rest| ensures rest[i] < n {
      assert rest[i] == cands[if i < k then i else i + 1];
    }
  }

  /** Moving a candidate to the end of the selection keeps the lists apart
      and their combined contents unchanged. */
  lemma MoveKeepsSeparate(cands: seq<nat>, sel: seq<nat>, k: nat)
    requires Separate(cands, sel) && k < |cands|
    ensures Separate(cands[..k] + cands[k + 1..], sel + [cands[k]])
    ensures multiset(sel + [cands[k]] + (cands[..k] + cands[k + 1..])) == multiset(sel + cands)
  {
    var rest := cands[..k] + cands[k + 1..];
    forall i | 0 <= i < |rest| ensures rest[i] == cands[if i < k then i else i + 1] { }
    assert cands == cands[..k] + [cands[k]] + cands[k + 1..];
  }

  /** The result extends the selection by at most every candidate. */
  lemma {:induction false} GreedyExtends(cfg: Config, sims: Sims, cands: seq<nat>, sel: seq<nat>)
    requires WellFormed(sims) && InRange(cands, |sims.query|) && InRange(sel, |sims.query|)
    ensures var r := Greedy(cfg, sims, cands, sel);
      |sel| <= |r| <= |sel| + |cands| && r[..|sel|] == sel
    decreases |cands|
  {
    if cands != [] {
      var s := Scores(cfg.lambdaConst, sims, cands, sel);
      var k := FirstMax(s);
      if !Below(s[k], cfg.threshold) {
        var cands', sel' := cands[..k] + cands[k + 1..], sel + [cands[k]];
        PopInRange(cands, sel, k, |sims.query|);
        GreedyExtends(cfg, sims, cands', sel');
        var r := Greedy(cfg, sims, cands', sel');
        assert Greedy(cfg, sims, cands, sel) == r;
        assert |sel'| <= |r| <= |sel'| + |cands'|;
        assert r[..|sel'|] == sel';
        assert r[..|sel|] == r[..|sel'|][..|sel|];
      } else {
        assert Greedy(cfg, sims, cands, sel) == sel;
      }
    }
  }

  /** The result holds the selection and former candidates, none twice, and
      with no threshold every candidate. */
  lemma {:induction false} GreedyContents(cfg: Config, sims: Sims, cands: seq<nat>, sel: seq<nat>)
    requires WellFormed(sims) && InRange(cands, |sims.query|) && InRange(sel, |sims.query|)
    requires Separate(cands, sel)
    ensures var r := Greedy(cfg, sims, cands, sel);
      && Distinct(r)
      && multiset(r) <= multiset(sel + cands)
      && (cfg.threshold == MinusInfinity ==> multiset(r) == multiset(sel + cands))
    decreases |cands|
  {
    if cands == [] {
      assert sel + cands == sel;
    } else {
      var s := Scores(cfg.lambdaConst, sims, cands, sel);
      var k := FirstMax(s);
      if Below(s[k], cfg.threshold) {
        assert multiset(sel + cands) == multiset(sel) + multiset(cands);
      } else {
        var cands', sel' := cands[..k] + cands[k + 1..], sel + [cands[k]];
        MoveKeepsSeparate(cands, sel, k);
        PopInRange(cands, sel, k, |sims.query|);
        GreedyContents(cfg, sims, cands', sel');
      }
    }
  }

  // ---------------------------------------------------------------------
  // The remaining candidates, and the step rules

  /** `c` without the elements of `xs`, order kept. */
  function Without(c: seq<nat>, xs: seq<nat>): (r: seq<nat>)
    ensures |r| <= |c|
    ensures forall y :: y in r <==> y in c && y !in xs
  {
    if c == [] then []
    else if c[0] in xs then Without(c[1..], xs)
    else [c[0]] + Without(c[1..], xs)
  }

  lemma WithoutInRange(c: seq<nat>, xs: seq<nat>, n: nat)
    requires InRange(c, n)
    ensures InRange(Without(c, xs), n)
  {
    var r := Without(c, xs);
    forall i | 0 <= i < |r| ensures r[i] < n {
      assert r[i] in c;
    }
  }

  lemma {:induction false} WithoutNothing(c: seq<nat>)
    ensures Without(c, []) == c
  {
    if c != [] {
      WithoutNothing(c[1..]);
    }
  }

  lemma {:induction false} WithoutAbsent(c: seq<nat>, xs: seq<nat>, y: nat)
    requires y !in c
    ensures Without(c, xs + [y]) == Without(c, xs)
  {
    if c != [] {
      WithoutAbsent(c[1..], xs, y);
    }
  }

  /** The tail of a list without duplicates has none either, and lacks the head. */
  lemma DistinctTail(c: seq<nat>)
    requires Distinct(c) && c != []
    ensures Distinct(c[1..]) && c[0] !in c[1..]
  {
    var tail := c[1..];
    forall i, j | 0 <= i < j < |tail| ensures tail[i] != tail[j] {
      assert tail[i] == c[i + 1] && tail[j] == c[j + 1];
    }
    forall i | 0 <= i < |tail| ensures tail[i] != c[0] {
      assert tail[i] == c[i + 1];
    }
  }

  /** Popping position `k > 0` of `[h] + r` is popping position `k - 1` of `r`. */
  lemma ConsPop(h: nat, r: seq<nat>, k: nat)
    requires 0 < k <= |r|
    ensures ([h] + r)[..k] + ([h] + r)[k + 1..] == [h] + (r[..k - 1] + r[k..])
  {
    assert ([h] + r)[..k] == [h] + r[..k - 1];
    assert ([h] + r)[k + 1..] == r[k..];
  }

  /** Removing one more element from the source list is popping it from the
      remaining list at its position. */
  lemma {:induction false} WithoutPop(c: seq<nat>, xs: seq<nat>, k: nat)
    requires Distinct(c) && k < |Without(c, xs)|
    ensures var rem := Without(c, xs);
      Without(c, xs + [rem[k]]) == rem[..k] + rem[k + 1..]
  {
    var rem := Without(c, xs);
    var x := rem[k];
    var tail := c[1..];
    DistinctTail(c);
    var rest := Without(tail, xs);
    if c[0] in xs {
      assert rem == rest;
      assert Without(c, xs + [x]) == Without(tail, xs + [x]);
      WithoutPop(tail, xs, k);
    } else if c[0] == x {
      assert rem == [x] + rest;
      assert x !in rest;
      assert forall i :: 0 < i < |rem| ==> rem[i] == rest[i - 1];
      assert k == 0;
      assert Without(c, xs + [x]) == Without(tail, xs + [x]);
      WithoutAbsent(tail, xs, x);
      assert rem[..k] + rem[k + 1..] == rest;
    } else {
      assert rem == [c[0]] + rest;
      assert k > 0;
      assert x == rest[k - 1];
      assert Without(c, xs + [x]) == [c[0]] + Without(tail, xs + [x]);
      WithoutPop(tail, xs, k - 1);
      ConsPop(c[0], rest, k);
    }
  }

  /** Step `j` of a run over the source list `c0`: with `out[..j]` selected,
      `out[j]` is the first best-scoring remaining candidate, and its score is
      not below the threshold. */
  predicate StepOk(cfg: Config, sims: Sims, c0: seq<nat>, out: seq<nat>, j: nat)
    requires WellFormed(sims) && InRange(c0, |sims.query|) && InRange(out, |sims.query|) && j < |out|
  {
    var rem := Without(c0, out[..j]);
    WithoutInRange(c0, out[..j], |sims.query|);
    && rem != []
    && var s := Scores(cfg.lambdaConst, sims, rem, out[..j]);
       rem[FirstMax(s)] == out[j] && !Below(s[FirstMax(s)], cfg.threshold)
  }

  /** The run stopped rightly: no candidate is left, or the best remaining
      score is below the threshold. */
  predicate Halted(cfg: Config, sims: Sims, c0: seq<nat>, out: seq<nat>)
    requires WellFormed(sims) && InRange(c0, |sims.query|) && InRange(out, |sims.query|)
  {
    var rem := Without(c0, out);
    WithoutInRange(c0, out, |sims.query|);
    rem == [] || Below(MaxOf(Scores(cfg.lambdaConst, sims, rem, out)), cfg.threshold)
  }

  /** A run whose every step so far is right stays so when the next step is. */
  lemma StepExtends(cfg: Config, sims: Sims, c0: seq<nat>, sel: seq<nat>, x: nat)
    requires WellFormed(sims) && InRange(c0, |sims.query|)
    requires InRange(sel, |sims.query|) && InRange(sel + [x], |sims.query|)
    requires forall j :: 0 <= j < |sel| ==> StepOk(cfg, sims, c0, sel, j)
    requires StepOk(cfg, sims, c0, sel + [x], |sel|)
    ensures forall j :: 0 <= j < |sel| + 1 ==> StepOk(cfg, sims, c0, sel + [x], j)
  {
    var sel' := sel + [x];
    forall j | 0 <= j < |sel| ensures StepOk(cfg, sims, c0, sel', j) {
      assert sel'[..j] == sel[..j] && sel'[j] == sel[j];
      assert StepOk(cfg, sims, c0, sel, j);
    }
  }

  lemma {:induction false} GreedyTrace(cfg: Config, sims: Sims, c0: seq<nat>, cands: seq<nat>, sel: seq<nat>)
    requires WellFormed(sims) && InRange(c0, |sims.query|) && Distinct(c0) && InRange(sel, |sims.query|)
    requires cands == Without(c0, sel)
    requires forall j :: 0 <= j < |sel| ==> StepOk(cfg, sims, c0, sel, j)
    ensures InRange(cands, |sims.query|)
    ensures var out := Greedy(cfg, sims, cands, sel);
      (forall j :: 0 <= j < |out| ==> StepOk(cfg, sims, c0, out, j)) && Halted(cfg, sims, c0, out)
    decreases |cands|
  {
    var n := |sims.query|;
    assert InRange(cands, n) by {
      forall i | 0 <= i < |cands| ensures cands[i] < n {
        assert cands[i] in c0;
      }
    }
    if cands != [] {
      var s := Scores(cfg.lambdaConst, sims, cands, sel);
      var k := FirstMax(s);
      assert MaxOf(s) == s[k];
      if !Below(s[k], cfg.threshold) {
        WithoutPop(c0, sel, k);
        PopInRange(cands, sel, k, n);
        StepExtends(cfg, sims, c0, sel, cands[k]);
        GreedyTrace(cfg, sims, c0, cands[..k] + cands[k + 1..], sel + [cands[k]]);
      }
    }
  }

  // ---------------------------------------------------------------------
  // The strategy

  /** The selection for a query and documents that all carry vectors. */
  function Selection(cfg: Config, query: Record, docs: seq<Record>): (sel: seq<nat>)
    requires query.vector.Some? && AllVectors(docs)
    ensures InRange(sel, |docs|)
  {
    Greedy(cfg, SimsOf(cfg.sim, query, docs), Range(|docs|), [])
  }

  /** `rank`: fails before any work without documents or without a vector on
      the first one; a missing vector elsewhere makes the similarity fail. */
  function DiverseRank(cfg: Config, query: Record, docs: seq<Record>): (r: Result<seq<Record>>)
    ensures docs == [] || docs[0].vector.None? ==> r == Failure(MissingVector)
    ensures r.Failure? <==> docs == [] || query.vector.None? || !AllVectors(docs)
    ensures r.Success? ==> |r.value| <= |docs| && multiset(r.value) <= multiset(docs)
    ensures r.Success? && cfg.threshold == MinusInfinity ==> multiset(r.value) == multiset(docs)
  {
    if docs == [] || docs[0].vector.None? then Failure(MissingVector)
    else if query.vector.None? || !AllVectors(docs) then Failure(UndefinedOperand)
    else
      var sel := Selection(cfg, query, docs);
      SelectionShape(cfg, query, docs);
      ReorderSubMultiset(docs, sel, Range(|docs|));
      ReorderRange(docs);
      assert cfg.threshold == MinusInfinity ==> multiset(Reorder(docs, sel)) == multiset(docs) by {
        if cfg.threshold == MinusInfinity {
          ReorderSameMultiset(docs, sel, Range(|docs|));
        }
      }
      Success(Reorder(docs, sel))
  }

  /** The selection lists distinct documents, at most all of them, and all of
      them when there is no threshold. */
  lemma SelectionShape(cfg: Config, query: Record, docs: seq<Record>)
    requires query.vector.Some? && AllVectors(docs)
    ensures var sel := Selection(cfg, query, docs);
      && Distinct(sel) && |sel| <= |docs|
      && multiset(sel) <= multiset(Range(|docs|))
      && (cfg.threshold == MinusInfinity ==> |sel| == |docs| && multiset(sel) == multiset(Range(|docs|)))
  {
    var sims := SimsOf(cfg.sim, query, docs);
    GreedyExtends(cfg, sims, Range(|docs|), []);
    GreedyContents(cfg, sims, Range(|docs|), []);
    assert [] + Range(|docs|) == Range(|docs|);
    var sel := Selection(cfg, query, docs);
    if cfg.threshold == MinusInfinity {
      assert |multiset(sel)| == |multiset(Range(|docs|))|;
    }
  }

  /** Every step of the selection took the first best-scoring remaining
      document, whose score was not below the threshold, and the selection
      stopped only when no document was left or the best remaining score was
      below the threshold. */
  lemma SelectionSteps(cfg: Config, query: Record, docs: seq<Record>)
    requires query.vector.Some? && AllVectors(docs)
    ensures var sims := SimsOf(cfg.sim, query, docs);
      var sel := Selection(cfg, query, docs);
      && (forall j :: 0 <= j < |sel| ==> StepOk(cfg, sims, Range(|docs|), sel, j))
      && Halted(cfg, sims, Range(|docs|), sel)
  {
    var sims := SimsOf(cfg.sim, query, docs);
    WithoutNothing(Range(|docs|));
    GreedyTrace(cfg, sims, Range(|docs|), Range(|docs|), []);
  }

  /** The first pick has no redundancy term: it is the first document with
      the highest `lambda * sim(query, d)`, provided that score reaches the
      threshold; when it does not, nothing is selected. */
  lemma FirstPick(cfg: Config, query: Record, docs: seq<Record>)
    requires query.vector.Some? && AllVectors(docs) && docs != []
    ensures var sims := SimsOf(cfg.sim, query, docs);
      var relevance := seq(|docs|, i requires 0 <= i < |docs| => cfg.lambdaConst * sims.query[i]);
      var sel := Selection(cfg, query, docs);
      && (sel != [] <==> !Below(relevance[FirstMax(relevance)], cfg.threshold))
      && (sel != [] ==> sel[0] == FirstMax(relevance))
  {
    var sims := SimsOf(cfg.sim, query, docs);
    var n := |docs|;
    var relevance := seq(n, i requires 0 <= i < n => cfg.lambdaConst * sims.query[i]);
    var s := Scores(cfg.lambdaConst, sims, Range(n), []);
    forall i | 0 <= i < n ensures s[i] == relevance[i] {
      assert Range(n)[i] == i;
    }
    assert s == relevance;
    var sel := Selection(cfg, query, docs);
    SelectionSteps(cfg, query, docs);
    WithoutNothing(Range(n));
    if sel != [] {
      assert sel[..0] == [];
      assert StepOk(cfg, sims, Range(n), sel, 0);
    } else {
      assert Halted(cfg, sims, Range(n), sel);
      assert MaxOf(s) == s[FirstMax(s)];
    }
  }

  /** With the threshold at minus infinity every document is returned. */
  lemma NoThresholdReturnsAll(cfg: Config, query: Record, docs: seq<Record>)
    requires cfg.threshold == MinusInfinity && docs != []
    requires query.vector.Some? && AllVectors(docs)
    ensures DiverseRank(cfg, query, docs).Success?
    ensures |DiverseRank(cfg, query, docs).value| == |docs|
    ensures multiset(DiverseRank(cfg, query, docs).value) == multiset(docs)
  {
    SelectionShape(cfg, query, docs);
  }

  // ---------------------------------------------------------------------
  // The implementation: a keyed table filled in nested loops, then the loop

  /** The table's keys: a pair of document positions, or one position
      compared with the query. */
  datatype SimKey = Between(i: nat, j: nat) | ToQuery(i: nat)

  /** The table holds every value the selection reads, as `SimsOf` gives it. */
  predicate TableHolds(table: map<SimKey, real>, sims: Sims)
    requires WellFormed(sims)
  {
    && (forall i, j :: 0 <= i < |sims.query| && 0 <= j < |sims.query| && i != j ==>
          Between(i, j) in table && table[Between(i, j)] == sims.pair[i][j])
    && (forall i :: 0 <= i < |sims.query| ==> ToQuery(i) in table && table[ToQuery(i)] == sims.query[i])
  }

  /** The table holds both orders of the pair `a`, `b`. */
  predicate PairFilled(sim: Similarity, docs: seq<Record>, table: map<SimKey, real>, a: nat, b: nat)
    requires a < |docs| && b < |docs|
  {
    && docs[a].vector.Some? && docs[b].vector.Some?
    && Between(a, b) in table && table[Between(a, b)] == PairSim(sim, docs, a, b)
    && Between(b, a) in table && table[Between(b, a)] == PairSim(sim, docs, b, a)
  }

  /** The table holds the similarity of the query with document `a`. */
  predicate QueryFilled(sim: Similarity, query: Record, docs: seq<Record>, table: map<SimKey, real>, a: nat)
    requires a < |docs|
  {
    && query.vector.Some? && docs[a].vector.Some?
    && ToQuery(a) in table && table[ToQuery(a)] == sim(query.vector.value, docs[a].vector.value)
  }

  /** Storing the pair `i`, `j` under both orders keeps every pair already
      filled and extends row `i` by one. */
  lemma StorePair(sim: Similarity, query: Record, docs: seq<Record>, table: map<SimKey, real>, i: nat, j: nat)
    requires i < j < |docs| && docs[i].vector.Some? && docs[j].vector.Some?
    requires forall a, b :: 0 <= a < i && a < b < |docs| ==> PairFilled(sim, docs, table, a, b)
    requires forall b :: i < b < j ==> PairFilled(sim, docs, table, i, b)
    requires forall a :: 0 <= a < i ==> QueryFilled(sim, query, docs, table, a)
    ensures var s := sim(docs[i].vector.value, docs[j].vector.value);
      var t := table[Between(i, j) := s][Between(j, i) := s];
      && (forall a, b :: 0 <= a < i && a < b < |docs| ==> PairFilled(sim, docs, t, a, b))
      && (forall b :: i < b < j + 1 ==> PairFilled(sim, docs, t, i, b))
      && (forall a :: 0 <= a < i ==> QueryFilled(sim, query, docs, t, a))
  {
    var s := sim(docs[i].vector.value, docs[j].vector.value);
    var t := table[Between(i, j) := s][Between(j, i) := s];
    forall a, b | 0 <= a < i && a < b < |docs| ensures PairFilled(sim, docs, t, a, b) {
      assert PairFilled(sim, docs, table, a, b);
    }
    forall b | i < b < j + 1 ensures PairFilled(sim, docs, t, i, b) {
      if b < j {
        assert PairFilled(sim, docs, table, i, b);
      }
    }
    forall a | 0 <= a < i ensures QueryFilled(sim, query, docs, t, a) {
      assert QueryFilled(sim, query, docs, table, a);
    }
  }

  /** Storing the query similarity of `i` keeps every pair and extends the
      query entries by one. */
  lemma StoreQuery(sim: Similarity, query: Record, docs: seq<Record>, table: map<SimKey, real>, i: nat)
    requires i < |docs| && query.vector.Some? && docs[i].vector.Some?
    requires forall a, b :: 0 <= a < i + 1 && a < b < |docs| ==> PairFilled(sim, docs, table, a, b)
    requires forall a :: 0 <= a < i ==> QueryFilled(sim, query, docs, table, a)
    ensures var t := table[ToQuery(i) := sim(query.vector.value, docs[i].vector.value)];
      && (forall a, b :: 0 <= a < i + 1 && a < b < |docs| ==> PairFilled(sim, docs, t, a, b))
      && (forall a :: 0 <= a < i + 1 ==> QueryFilled(sim, query, docs, t, a))
  {
    var t := table[ToQuery(i) := sim(query.vector.value, docs[i].vector.value)];
    forall a, b | 0 <= a < i + 1 && a < b < |docs| ensures PairFilled(sim, docs, t, a, b) {
      assert PairFilled(sim, docs, table, a, b);
    }
    forall a | 0 <= a < i + 1 ensures QueryFilled(sim, query, docs, t, a) {
      if a < i {
        assert QueryFilled(sim, query, docs, table, a);
      }
    }
  }

  /** A table filled for every pair and every document is the one the
      selection reads. */
  lemma FilledTableHolds(sim: Similarity, query: Record, docs: seq<Record>, table: map<SimKey, real>)
    requires query.vector.Some? && AllVectors(docs)
    requires forall a, b :: 0 <= a < |docs| && a < b < |docs| ==> PairFilled(sim, docs, table, a, b)
    requires forall a :: 0 <= a < |docs| ==> QueryFilled(sim, query, docs, table, a)
    ensures TableHolds(table, SimsOf(sim, query, docs))
  {
    var sims := SimsOf(sim, query, docs);
    forall i, j | 0 <= i < |docs| && 0 <= j < |docs| && i != j
      ensures Between(i, j) in table && table[Between(i, j)] == sims.pair[i][j]
    {
      if i < j {
        assert PairFilled(sim, docs, table, i, j);
      } else {
        assert PairFilled(sim, docs, table, j, i);
      }
    }
    forall i | 0 <= i < |docs| ensures ToQuery(i) in table && table[ToQuery(i)] == sims.query[i] {
      assert QueryFilled(sim, query, docs, table, i);
    }
  }

  /** Fills the table, each unordered pair once and stored under both orders;
      `None` when a vector the similarity needs is missing. */
  method SimilarityTable(sim: Similarity, query: Record, docs: seq<Record>) returns (r: Option<map<SimKey, real>>)
    ensures r.None? <==> docs != [] && (query.vector.None? || !AllVectors(docs))
    ensures r.Some? && docs != [] ==> TableHolds(r.value, SimsOf(sim, query, docs))
  {
    var n := |docs|;
    var table: map<SimKey, real> := map[];
    for i := 0 to n
      invariant i > 0 ==> query.vector.Some? && AllVectors(docs)
      invariant forall a, b :: 0 <= a < i && a < b < n ==> PairFilled(sim, docs, table, a, b)
      invariant forall a :: 0 <= a < i ==> QueryFilled(sim, query, docs, table, a)
    {
      for j := i + 1 to n
        invariant forall a, b :: 0 <= a < i && a < b < n ==> PairFilled(sim, docs, table, a, b)
        invariant forall b :: i < b < j ==> PairFilled(sim, docs, table, i, b)
        invariant forall a :: 0 <= a < i ==> QueryFilled(sim, query, docs, table, a)
      {
        if docs[i].vector.None? || docs[j].vector.None? {
          return None;
        }
        StorePair(sim, query, docs, table, i, j);
        var s := sim(docs[i].vector.value, docs[j].vector.value);
        table := table[Between(i, j) := s][Between(j, i) := s];
      }
      if query.vector.None? || docs[i].vector.None? {
        return None;
      }
      StoreQuery(sim, query, docs, table, i);
      table := table[ToQuery(i) := sim(query.vector.value, docs[i].vector.value)];
      assert i == 0 ==> AllVectors(docs) by {
        if i == 0 {
          forall b | 0 < b < n ensures docs[b].vector.Some? {
            assert PairFilled(sim, docs, table, 0, b);
          }
        }
      }
    }
    if n > 0 {
      FilledTableHolds(sim, query, docs, table);
    }
    r := Some(table);
  }

  /** `max(scores)` and `scores.index(...)`: the first position of the maximum. */
  method FirstArgMax(s: seq<real>) returns (k: nat)
    requires |s| > 0
    ensures k == FirstMax(s)
  {
    k := 0;
    for i := 1 to |s|
      invariant k == FirstMax(s[..i])
    {
      assert s[..i + 1][..i] == s[..i];
      if s[i] > s[k] {
        k := i;
      }
    }
    assert s[..|s|] == s;
  }

  /** The scores of every candidate, read from the table. */
  method ScoreCandidates(lambdaConst: real, table: map<SimKey, real>, ghost sims: Sims, candidates: seq<nat>, selected: seq<nat>)
    returns (scores: seq<real>)
    requires WellFormed(sims) && TableHolds(table, sims)
    requires InRange(candidates, |sims.query|) && InRange(selected, |sims.query|) && Separate(candidates, selected)
    ensures scores == Scores(lambdaConst, sims, candidates, selected)
  {
    scores := [];
    for ci := 0 to |candidates|
      invariant |scores| == ci
      invariant forall k :: 0 <= k < ci ==> scores[k] == Mmr(lambdaConst, sims, candidates[k], selected)
    {
      var v := CandidateScore(lambdaConst, table, sims, candidates[ci], selected);
      scores := scores + [v];
    }
  }

  /** The score of one candidate, read from the table. */
  method CandidateScore(lambdaConst: real, table: map<SimKey, real>, ghost sims: Sims, c: nat, selected: seq<nat>)
    returns (v: real)
    requires WellFormed(sims) && TableHolds(table, sims)
    requires c < |sims.query| && InRange(selected, |sims.query|) && c !in selected
    ensures v == Mmr(lambdaConst, sims, c, selected)
  {
    var simQ := table[ToQuery(c)];
    var simD := 0.0;
    if selected != [] {
      var row := seq(|selected|, k requires 0 <= k < |selected| => table[Between(c, selected[k])]);
      assert row == seq(|selected|, k requires 0 <= k < |selected| => sims.pair[c][selected[k]]);
      simD := MaxOf(row);
    }
    v := lambdaConst * simQ - (1.0 - lambdaConst) * simD;
  }

  /** The `while candidates` loop over a filled table. */
  method Select(cfg: Config, table: map<SimKey, real>, ghost sims: Sims, n: nat) returns (selected: seq<nat>)
    requires WellFormed(sims) && TableHolds(table, sims) && n == |sims.query|
    ensures selected == Greedy(cfg, sims, Range(n), [])
  {
    var candidates: seq<nat> := Range(n);
    selected := [];
    assert Separate(candidates, selected);
    assert selected + candidates == candidates;
    while candidates != []
      invariant InRange(candidates, n) && InRange(selected, n)
      invariant Separate(candidates, selected)
      invariant multiset(selected + candidates) == multiset(Range(n))
      invariant Greedy(cfg, sims, candidates, selected) == Greedy(cfg, sims, Range(n), [])
      decreases |candidates|
    {
      var scores := ScoreCandidates(cfg.lambdaConst, table, sims, candidates, selected);
      var best := FirstArgMax(scores);
      if Below(scores[best], cfg.threshold) {
        break;
      }
      MoveKeepsSeparate(candidates, selected, best);
      PopInRange(candidates, selected, best, n);
      selected, candidates := selected + [candidates[best]], candidates[..best] + candidates[best + 1..];
    }
  }

  /** `rank`, as the program runs it. */
  method Rank(cfg: Config, query: Record, docs: seq<Record>) returns (r: Result<seq<Record>>)
    ensures r == DiverseRank(cfg, query, docs)
  {
    if docs == [] || docs[0].vector.None? {
      return Failure(MissingVector);
    }
    var table := SimilarityTable(cfg.sim, query, docs);
    if table.None? {
      return Failure(UndefinedOperand);
    }
    var selected := Select(cfg, table.value, SimsOf(cfg.sim, query, docs), |docs|);
    r := Success(Reorder(docs, selected));
  }
}
