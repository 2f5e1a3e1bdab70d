/** The sort-and-truncate step every score-based strategy ends with: a stable
    descending sort of the documents by a parallel score list, then a cut to
    `top_k` documents, where a `top_k` of 0 keeps them all.

    The repository writes this step as `docs.sort(key=scores.__getitem__,
    reverse=True)[:top_k]`. That key is called with a Record, not a position,
    and `list.sort` returns None, so as written the step never yields a list
    (see `SortCallAsWritten`). This module models the evident intent instead:
    an explicit permutation of positions, sorted by score, applied to the
    documents. */
module Ordering {
  import opened Records

  /** Every element of `s` is a valid position in a list of length `n`. */
  predicate InRange(s: seq<nat>, n: nat)
  {
    forall i :: 0 <= i < |s| ==> s[i] < n
  }

  predicate Distinct<T(==)>(s: seq<T>)
  {
    forall i, j :: 0 <= i < j < |s| ==> s[i] != s[j]
  }

  /** The positions 0, 1, ..., n-1 in order. */
  function Range(n: nat): (r: seq<nat>)
    ensures |r| == n && forall i :: 0 <= i < n ==> r[i] == i
  {
    seq(n, i => i)
  }

  /** Position `a` goes before position `b` in a stable descending sort: a
      higher score first, and equal scores in input order. */
  predicate Precedes(scores: seq<real>, a: nat, b: nat)
    requires a < |scores| && b < |scores|
  {
    scores[a] > scores[b] || (scores[a] == scores[b] && a < b)
  }

  /** Every earlier element precedes every later one. */
  predicate SortedBy(scores: seq<real>, s: seq<nat>)
    requires InRange(s, |scores|)
  {
    forall i, j :: 0 <= i < j < |s| ==> Precedes(scores, s[i], s[j])
  }

  /** `p` lists every position of `scores` once, in stable descending order. */
  predicate IsStableDescending(scores: seq<real>, p: seq<nat>)
  {
    && |p| == |scores|
    && InRange(p, |scores|)
    && multiset(p) == multiset(Range(|scores|))
    && SortedBy(scores, p)
  }

  /** The documents at the given positions, in the given order. */
  function Reorder<T>(docs: seq<T>, idx: seq<nat>): (r: seq<T>)
    requires InRange(idx, |docs|)
    ensures |r| == |idx| && forall i :: 0 <= i < |idx| ==> r[i] == docs[idx[i]]
  {
    seq(|idx|, i requires 0 <= i < |idx| => docs[idx[i]])
  }

  // ---------------------------------------------------------------------
  // The reference sort: insertion of positions into a sorted list

  /** Where `x` goes in `s`: in front of the first element it precedes. */
  function InsertPos(scores: seq<real>, x: nat, s: seq<nat>): (m: nat)
    requires x < |scores| && InRange(s, |scores|)
    ensures m <= |s|
    decreases |s|
  {
    if s == [] || Precedes(scores, x, s[0]) then 0
    else 1 + InsertPos(scores, x, s[1..])
  }

  /** `x` precedes the element at its insertion position and none before. */
  lemma {:induction false} InsertPosFirst(scores: seq<real>, x: nat, s: seq<nat>)
    requires x < |scores| && InRange(s, |scores|)
    ensures var m := InsertPos(scores, x, s);
      && (m < |s| ==> Precedes(scores, x, s[m]))
      && (forall k :: 0 <= k < m ==> !Precedes(scores, x, s[k]))
    decreases |s|
  {
    if s != [] && !Precedes(scores, x, s[0]) {
      InsertPosFirst(scores, x, s[1..]);
      assert forall k :: 1 <= k < |s| ==> s[k] == s[1..][k - 1];
    }
  }

  /** An insertion position is the first one whose element `x` precedes. */
  lemma InsertPosUnique(scores: seq<real>, x: nat, s: seq<nat>, m: nat)
    requires x < |scores| && InRange(s, |scores|) && m <= |s|
    requires m < |s| ==> Precedes(scores, x, s[m])
    requires forall k :: 0 <= k < m ==> !Precedes(scores, x, s[k])
    ensures m == InsertPos(scores, x, s)
  {
    InsertPosFirst(scores, x, s);
  }

  function Insert(scores: seq<real>, x: nat, s: seq<nat>): (r: seq<nat>)
    requires x < |scores| && InRange(s, |scores|)
    ensures InRange(r, |scores|)
    ensures multiset(r) == multiset(s) + multiset{x}
    ensures |r| == |s| + 1
  {
    var m := InsertPos(scores, x, s);
    SpliceFacts(s, x, m);
    s[..m] + [x] + s[m..]
  }

  /** Putting `x` at position `m` adds one element and one copy of `x`. */
  lemma SpliceFacts(s: seq<nat>, x: nat, m: nat)
    requires m <= |s|
    ensures var r := s[..m] + [x] + s[m..];
      && |r| == |s| + 1 && multiset(r) == multiset(s) + multiset{x}
      && forall i :: 0 <= i < |r| ==> r[i] == x || r[i] in s
  {
    assert s == s[..m] + s[m..];
  }

  function SortIdx(scores: seq<real>, s: seq<nat>): (r: seq<nat>)
    requires InRange(s, |scores|)
    ensures InRange(r, |scores|) && multiset(r) == multiset(s) && |r| == |s|
  {
    if s == [] then []
    else assert s == [s[0]] + s[1..]; Insert(scores, s[0], SortIdx(scores, s[1..]))
  }

  /** The positions of `scores` in stable descending order of score. */
  function SortedIndices(scores: seq<real>): (p: seq<nat>)
    ensures IsStableDescending(scores, p)
  {
    var r := Range(|scores|);
    SortIdxSorted(scores, r);
    SortIdx(scores, r)
  }

  lemma PrecedesTotal(scores: seq<real>, a: nat, b: nat)
    requires a < |scores| && b < |scores| && a != b
    ensures Precedes(scores, a, b) != Precedes(scores, b, a)
  {
  }

  lemma PrecedesTransitive(scores: seq<real>, a: nat, b: nat, c: nat)
    requires a < |scores| && b < |scores| && c < |scores|
    requires Precedes(scores, a, b) && Precedes(scores, b, c)
    ensures Precedes(scores, a, c)
  {
  }

  lemma InsertSorted(scores: seq<real>, x: nat, s: seq<nat>)
    requires x < |scores| && InRange(s, |scores|) && SortedBy(scores, s) && x !in s
    ensures SortedBy(scores, Insert(scores, x, s))
  {
    var m := InsertPos(scores, x, s);
    InsertPosFirst(scores, x, s);
    var r := Insert(scores, x, s);
    assert r == s[..m] + [x] + s[m..];
    forall i, j | 0 <= i < j < |r| ensures Precedes(scores, r[i], r[j]) {
      if j < m {
        assert r[i] == s[i] && r[j] == s[j];
      } else if j == m {
        assert r[i] == s[i] && r[j] == x;
        PrecedesTotal(scores, x, s[i]);
      } else if i > m {
        assert r[i] == s[i - 1] && r[j] == s[j - 1];
      } else if i == m {
        assert r[i] == x && r[j] == s[j - 1];
        if j - 1 > m {
          PrecedesTransitive(scores, x, s[m], s[j - 1]);
        }
      } else {
        assert r[i] == s[i] && r[j] == s[j - 1];
      }
    }
  }

  lemma {:induction false} SortIdxSorted(scores: seq<real>, s: seq<nat>)
    requires InRange(s, |scores|) && Distinct(s)
    ensures SortedBy(scores, SortIdx(scores, s))
  {
    if s != [] {
      var tail := s[1..];
      assert Distinct(tail) by {
        forall i, j | 0 <= i < j < |tail| ensures tail[i] != tail[j] {
          assert tail[i] == s[i + 1] && tail[j] == s[j + 1];
        }
      }
      SortIdxSorted(scores, tail);
      var sorted := SortIdx(scores, tail);
      forall k | 0 <= k < |tail| ensures tail[k] != s[0] {
        assert tail[k] == s[k + 1];
      }
      assert s[0] !in multiset(tail);
      assert s[0] !in sorted by { assert multiset(sorted) == multiset(tail); }
      InsertSorted(scores, s[0], sorted);
    }
  }

  lemma SortedTail(scores: seq<real>, s: seq<nat>)
    requires InRange(s, |scores|) && SortedBy(scores, s) && s != []
    ensures InRange(s[1..], |scores|) && SortedBy(scores, s[1..])
  {
    var t := s[1..];
    forall i, j | 0 <= i < j < |t| ensures Precedes(scores, t[i], t[j]) {
      assert t[i] == s[i + 1] && t[j] == s[j + 1];
    }
  }

  /** In a sorted list, the head is the element that precedes all others. */
  lemma SortedHead(scores: seq<real>, a: seq<nat>, b: seq<nat>)
    requires InRange(a, |scores|) && InRange(b, |scores|) && a != [] && b != []
    requires SortedBy(scores, a) && SortedBy(scores, b) && multiset(a) == multiset(b)
    ensures a[0] == b[0]
  {
    assert a[0] in multiset(b);
    var k :| 0 <= k < |b| && b[k] == a[0];
    assert b[0] in multiset(a);
    var m :| 0 <= m < |a| && a[m] == b[0];
  }

  /** A stable descending order is unique: two sorted lists holding the same
      positions are equal. */
  lemma {:induction false} SortedUnique(scores: seq<real>, a: seq<nat>, b: seq<nat>)
    requires InRange(a, |scores|) && InRange(b, |scores|)
    requires SortedBy(scores, a) && SortedBy(scores, b) && multiset(a) == multiset(b)
    ensures a == b
  {
    if a == [] {
      assert |multiset(b)| == 0;
    } else {
      assert |b| > 0 by { assert |multiset(b)| == |multiset(a)| > 0; }
      SortedHead(scores, a, b);
      assert a == [a[0]] + a[1..] && b == [b[0]] + b[1..];
      assert multiset(a[1..]) == multiset(a) - multiset{a[0]};
      assert multiset(b[1..]) == multiset(b) - multiset{b[0]};
      SortedTail(scores, a);
      SortedTail(scores, b);
      SortedUnique(scores, a[1..], b[1..]);
    }
  }

  /** `SortedIndices` is the one stable descending order of the positions. */
  lemma SortedIndicesUnique(scores: seq<real>, p: seq<nat>)
    requires IsStableDescending(scores, p)
    ensures p == SortedIndices(scores)
  {
    SortedUnique(scores, p, SortedIndices(scores));
  }

  /** Scores that never increase leave the order untouched: this is where
      stability shows (equal scores keep their input order). */
  lemma NonIncreasingKeepsOrder(scores: seq<real>)
    requires forall i, j :: 0 <= i < j < |scores| ==> scores[i] >= scores[j]
    ensures SortedIndices(scores) == Range(|scores|)
  {
    SortedIndicesUnique(scores, Range(|scores|));
  }

  // ---------------------------------------------------------------------
  // Multisets of reordered documents

  /** Dropping the position at `k` drops exactly one copy of its document. */
  lemma {:induction false} ReorderRemove<T>(docs: seq<T>, b: seq<nat>, k: nat)
    requires InRange(b, |docs|) && k < |b|
    ensures InRange(b[..k] + b[k + 1..], |docs|)
    ensures multiset(Reorder(docs, b)) == multiset(Reorder(docs, b[..k] + b[k + 1..])) + multiset{docs[b[k]]}
  {
    var left, right := Reorder(docs, b[..k]), Reorder(docs, b[k + 1..]);
    assert Reorder(docs, b) == left + [docs[b[k]]] + right;
    assert Reorder(docs, b[..k] + b[k + 1..]) == left + right;
  }

  /** A position holding `x`, when `x` occurs in `b`. */
  lemma IndexOf<T>(b: seq<T>, x: T) returns (k: nat)
    requires x in multiset(b)
    ensures k < |b| && b[k] == x
  {
    assert x in b;
    k :| 0 <= k < |b| && b[k] == x;
  }

  /** Taking position `k` out of a list takes one copy of its element out. */
  lemma RemoveAt<T>(b: seq<T>, k: nat)
    requires k < |b|
    ensures multiset(b) == multiset(b[..k] + b[k + 1..]) + multiset{b[k]}
  {
    assert b == b[..k] + [b[k]] + b[k + 1..];
  }

  /** Removing the same element from both sides keeps a sub-multiset. */
  lemma PeelBoth<T>(a: seq<T>, b: seq<T>, k: nat)
    requires a != [] && k < |b| && b[k] == a[0]
    requires multiset(a) <= multiset(b)
    ensures multiset(a[1..]) <= multiset(b[..k] + b[k + 1..])
  {
    var x := a[0];
    assert a == [x] + a[1..];
    assert b == b[..k] + [x] + b[k + 1..];
    assert multiset(a[1..]) == multiset(a) - multiset{x};
    assert multiset(b[..k] + b[k + 1..]) == multiset(b) - multiset{x};
    SubMonotone(multiset(a), multiset(b), multiset{x});
  }

  /** The head position contributes one copy of its document. */
  lemma ReorderCons<T>(docs: seq<T>, a: seq<nat>)
    requires InRange(a, |docs|) && a != []
    ensures InRange(a[1..], |docs|)
    ensures multiset(Reorder(docs, a)) == multiset(Reorder(docs, a[1..])) + multiset{docs[a[0]]}
  {
    assert Reorder(docs, a) == [docs[a[0]]] + Reorder(docs, a[1..]);
  }

  /** Taking documents at fewer positions yields fewer documents. */
  lemma {:induction false} ReorderSubMultiset<T>(docs: seq<T>, a: seq<nat>, b: seq<nat>)
    requires InRange(a, |docs|) && InRange(b, |docs|) && multiset(a) <= multiset(b)
    ensures multiset(Reorder(docs, a)) <= multiset(Reorder(docs, b))
    decreases |a|
  {
    if a != [] {
      var x := a[0];
      assert x in multiset(a);
      var k := IndexOf(b, x);
      var rest := b[..k] + b[k + 1..];
      PeelBoth(a, b, k);
      ReorderRemove(docs, b, k);
      ReorderCons(docs, a);
      ReorderSubMultiset(docs, a[1..], rest);
      AddMonotone(multiset(Reorder(docs, a[1..])), multiset(Reorder(docs, rest)), multiset{docs[x]});
      assert multiset(Reorder(docs, a)) == multiset(Reorder(docs, a[1..])) + multiset{docs[x]};
      assert multiset(Reorder(docs, b)) == multiset(Reorder(docs, rest)) + multiset{docs[x]};
    } else {
      assert Reorder(docs, a) == [];
    }
  }

  lemma SubMonotone<T>(a: multiset<T>, b: multiset<T>, c: multiset<T>)
    requires a <= b
    ensures a - c <= b - c
  {
    forall z ensures (a - c)[z] <= (b - c)[z] {
      assert a[z] <= b[z];
    }
  }

  lemma AddMonotone<T>(a: multiset<T>, b: multiset<T>, c: multiset<T>)
    requires a <= b
    ensures a + c <= b + c
  {
    forall z ensures (a + c)[z] <= (b + c)[z] {
      assert a[z] <= b[z];
    }
  }

  lemma ReorderSameMultiset<T>(docs: seq<T>, a: seq<nat>, b: seq<nat>)
    requires InRange(a, |docs|) && InRange(b, |docs|) && multiset(a) == multiset(b)
    ensures multiset(Reorder(docs, a)) == multiset(Reorder(docs, b))
  {
    ReorderSubMultiset(docs, a, b);
    ReorderSubMultiset(docs, b, a);
  }

  lemma ReorderRange<T>(docs: seq<T>)
    ensures Reorder(docs, Range(|docs|)) == docs
  {
  }

  // ---------------------------------------------------------------------
  // Truncation

  /** `s[:k]` with the slicing rules of the source language: a negative `k`
      drops that many elements from the end. */
  function Prefix<T>(s: seq<T>, k: int): (r: seq<T>)
    ensures k >= 0 ==> |r| == if k <= |s| then k else |s|
    ensures k < 0 ==> |r| == if -k <= |s| then |s| + k else 0
    ensures r == s[..|r|]
  {
    if k >= 0 then (if k <= |s| then s[..k] else s)
    else if -k <= |s| then s[..|s| + k]
    else []
  }

  /** The cut-off a `rank` call applies: a configured 0 means every document. */
  function EffectiveTopK(topK: int, n: nat): (k: int)
    ensures topK == 0 ==> k == n
    ensures topK != 0 ==> k == topK
  {
    if topK == 0 then n else topK
  }

  /** The shared step: stable descending sort by `scores`, then `[:top_k]`. */
  function SortAndTruncate(docs: seq<Record>, scores: seq<real>, topK: int): (r: seq<Record>)
    requires |scores| == |docs|
    ensures topK >= 0 ==> |r| == if 0 < topK < |docs| then topK else |docs|
    ensures |r| <= |docs|
    ensures r == Reorder(docs, SortedIndices(scores)[..|r|])
    ensures multiset(r) <= multiset(docs)
    ensures topK == 0 ==> multiset(r) == multiset(docs)
  {
    var p := SortedIndices(scores);
    SortedAllOf(docs, scores);
    var all := Reorder(docs, p);
    var k := EffectiveTopK(topK, |docs|);
    PrefixOfReorder(docs, p, k);
    Prefix(all, k)
  }

  /** The sorted documents are the input documents, reordered. */
  lemma SortedAllOf(docs: seq<Record>, scores: seq<real>)
    requires |scores| == |docs|
    ensures InRange(SortedIndices(scores), |docs|) && |SortedIndices(scores)| == |docs|
    ensures multiset(Reorder(docs, SortedIndices(scores))) == multiset(docs)
  {
    ReorderSameMultiset(docs, SortedIndices(scores), Range(|docs|));
    ReorderRange(docs);
  }

  /** A prefix of reordered documents is the documents at a prefix of the
      positions, and holds no document more often than the whole. */
  lemma PrefixOfReorder<T>(docs: seq<T>, p: seq<nat>, k: int)
    requires InRange(p, |docs|)
    ensures var r := Prefix(Reorder(docs, p), k);
      && InRange(p[..|r|], |docs|)
      && r == Reorder(docs, p[..|r|])
      && multiset(r) <= multiset(Reorder(docs, p))
      && (k == |p| ==> r == Reorder(docs, p))
  {
    var all := Reorder(docs, p);
    var r := Prefix(all, k);
    assert all == r + all[|r|..];
  }


  /** With no truncation the output is the sorted documents, all of them; for
      scores that never increase it is the input itself. */
  lemma SortKeepsAllWithoutTopK(docs: seq<Record>, scores: seq<real>)
    requires |scores| == |docs|
    ensures |SortAndTruncate(docs, scores, 0)| == |docs|
    ensures (forall i, j :: 0 <= i < j < |scores| ==> scores[i] >= scores[j]) ==>
              SortAndTruncate(docs, scores, 0) == docs
  {
    if forall i, j :: 0 <= i < j < |scores| ==> scores[i] >= scores[j] {
      NonIncreasingKeepsOrder(scores);
      ReorderRange(docs);
    }
  }

  /** Ties keep their input order: of two documents with equal scores, the
      one that came first is listed first. */
  lemma SortIsStable(docs: seq<Record>, scores: seq<real>, topK: int, i: nat, j: nat)
    requires |scores| == |docs|
    requires i < j < |SortAndTruncate(docs, scores, topK)|
    ensures var p := SortedIndices(scores);
      scores[p[i]] >= scores[p[j]] && (scores[p[i]] == scores[p[j]] ==> p[i] < p[j])
  {
  }

  // ---------------------------------------------------------------------
  // The same sort done in place, as `list.sort` does

  /** `x` precedes none of `s[lo..hi]`: the insertion moves it past them. */
  predicate PrecedesNone(scores: seq<real>, x: nat, s: seq<nat>, lo: nat, hi: nat)
    requires x < |scores| && InRange(s, |scores|) && lo <= hi <= |s|
  {
    forall k :: lo <= k < hi ==> !Precedes(scores, x, s[k])
  }

  /** The state the in-place insertion ends in, before `x = pre[i]` is
      written at `j`: the prefix untouched, the elements `x` does not precede
      shifted one place left, the rest untouched. Writing `x` then gives
      `Insert` of `x` into `pre[i+1..]`. */
  lemma PlacedIsInsert(scores: seq<real>, pre: seq<nat>, a: array<nat>, i: nat, j: nat)
    requires InRange(pre, |scores|) && i <= j < |pre| == a.Length
    requires forall k :: 0 <= k < i ==> a[k] == pre[k]
    requires forall k :: i <= k < j ==> a[k] == pre[k + 1]
    requires PrecedesNone(scores, pre[i], pre, i + 1, j + 1)
    requires forall k :: j < k < a.Length ==> a[k] == pre[k]
    requires j + 1 == a.Length || Precedes(scores, pre[i], pre[j + 1])
    ensures InRange(a[..][j := pre[i]], |scores|)
    ensures a[..][j := pre[i]][..i] == pre[..i]
    ensures a[..][j := pre[i]][i..] == Insert(scores, pre[i], pre[i + 1..])
  {
    var c: seq<nat>, x: nat := a[..], pre[i];
    var sorted, m := pre[i + 1..], j - i;
    var d := c[j := x];
    assert InRange(sorted, |scores|) by {
      forall k | 0 <= k < |sorted| ensures sorted[k] < |scores| {
        assert sorted[k] == pre[i + 1 + k];
      }
    }
    assert m == InsertPos(scores, x, sorted) by {
      forall k | 0 <= k < m ensures !Precedes(scores, x, sorted[k]) {
        assert sorted[k] == pre[i + k + 1];
      }
      assert m < |sorted| ==> sorted[m] == pre[j + 1];
      InsertPosUnique(scores, x, sorted, m);
    }
    assert d[i..] == sorted[..m] + [x] + sorted[m..] by {
      var r := sorted[..m] + [x] + sorted[m..];
      forall k | 0 <= k < |r| ensures d[i + k] == r[k] {
        if k < m {
          assert r[k] == sorted[k] == pre[i + k + 1];
        } else if k > m {
          assert r[k] == sorted[k - 1] == pre[i + k];
        }
      }
    }
    assert InRange(d, |scores|) by {
      forall k | 0 <= k < |d| ensures d[k] < |scores| {
        if i <= k < j {
          assert d[k] == pre[k + 1];
        } else if k != j {
          assert d[k] == pre[k];
        }
      }
    }
    assert d[..i] == pre[..i];
  }

  /** Moves `a[i]` right, past every element it does not precede, into the
      sorted suffix `a[i+1..]`. */
  method InsertInPlace(scores: seq<real>, a: array<nat>, i: nat)
    requires i < a.Length && InRange(a[..], |scores|)
    modifies a
    ensures InRange(a[..], |scores|)
    ensures a[..i] == old(a[..i])
    ensures a[i..] == Insert(scores, old(a[i]), old(a[i + 1..]))
  {
    ghost var pre := a[..];
    var x := a[i];
    assert x == pre[i];
    var j := i;
    while j + 1 < a.Length && !Precedes(scores, x, a[j + 1])
      invariant i <= j < a.Length
      invariant forall k :: 0 <= k < i ==> a[k] == pre[k]
      invariant forall k :: i <= k < j ==> a[k] == pre[k + 1]
      invariant PrecedesNone(scores, pre[i], pre, i + 1, j + 1)
      invariant forall k :: j < k < a.Length ==> a[k] == pre[k]
    {
      assert a[j + 1] == pre[j + 1];
      a[j] := a[j + 1];
      j := j + 1;
    }
    ghost var c := a[..];
    PlacedIsInsert(scores, pre, a, i, j);
    a[j] := x;
    assert a[..] == c[j := x];
  }

  /** Insertion sort of an array of positions, working from the right end in,
      so that after each step the sorted suffix is the reference sort of the
      original suffix. */
  method SortIndicesInPlace(scores: seq<real>, a: array<nat>)
    requires InRange(a[..], |scores|)
    modifies a
    ensures a[..] == SortIdx(scores, old(a[..]))
  {
    ghost var orig := a[..];
    var i := a.Length;
    while i > 0
      invariant 0 <= i <= a.Length
      invariant InRange(a[..], |scores|)
      invariant a[..] == orig[..i] + SortIdx(scores, orig[i..])
    {
      i := i - 1;
      SortIdxStep(scores, orig, i);
      SortedSuffixParts(scores, orig, a[..], i);
      InsertInPlace(scores, a, i);
      JoinAt(a[..], i);
    }
    assert orig[..0] == [] && orig[0..] == orig;
  }

  /** A sequence is its prefix before `i` followed by the rest. */
  lemma JoinAt<T>(s: seq<T>, i: nat)
    requires i <= |s|
    ensures s == s[..i] + s[i..]
  {
  }

  /** The parts of a state of the insertion sort whose suffix from `i + 1`
      is sorted. */
  lemma SortedSuffixParts(scores: seq<real>, orig: seq<nat>, b: seq<nat>, i: nat)
    requires InRange(orig, |scores|) && i < |orig|
    requires InRange(orig[i + 1..], |scores|)
    requires b == orig[..i + 1] + SortIdx(scores, orig[i + 1..])
    ensures b[..i] == orig[..i] && b[i] == orig[i]
    ensures b[i + 1..] == SortIdx(scores, orig[i + 1..])
  {
    assert b[..i + 1] == orig[..i + 1];
    assert b[i] == orig[..i + 1][i];
  }

  /** Sorting a suffix is inserting its head into the sorted rest. */
  lemma SortIdxStep(scores: seq<real>, s: seq<nat>, i: nat)
    requires InRange(s, |scores|) && i < |s|
    ensures InRange(s[i + 1..], |scores|)
    ensures SortIdx(scores, s[i..]) == Insert(scores, s[i], SortIdx(scores, s[i + 1..]))
  {
    var t := s[i..];
    assert InRange(t, |scores|) by {
      forall k | 0 <= k < |t| ensures t[k] < |scores| {
        assert t[k] == s[i + k];
      }
    }
    assert t[0] == s[i];
    assert t[1..] == s[i + 1..];
  }

  /** Sorts the documents in place, stably and by descending score: each
      document's key is the score at its original position. */
  method SortInPlace(docs: array<Record>, scores: seq<real>)
    requires docs.Length == |scores|
    modifies docs
    ensures docs[..] == Reorder(old(docs[..]), SortedIndices(scores))
  {
    var n := docs.Length;
    var idx := new nat[n](i => i);
    assert idx[..] == Range(n);
    SortIndicesInPlace(scores, idx);
    assert idx[..] == SortedIndices(scores);
    var snapshot := docs[..];
    for i := 0 to n
      invariant idx[..] == SortedIndices(scores)
      invariant forall k :: 0 <= k < i ==> docs[k] == snapshot[idx[k]]
    {
      docs[i] := snapshot[idx[i]];
    }
  }

  /** The shared step as the strategies run it: copy, sort in place, slice. */
  method SortAndTruncateInPlace(docs: seq<Record>, scores: seq<real>, topK: int) returns (r: seq<Record>)
    requires |scores| == |docs|
    ensures r == SortAndTruncate(docs, scores, topK)
  {
    var a := new Record[|docs|](i requires 0 <= i < |docs| => docs[i]);
    assert a[..] == docs;
    SortInPlace(a, scores);
    r := Prefix(a[..], EffectiveTopK(topK, |docs|));
  }

  // ---------------------------------------------------------------------
  // The step as written

  /** What `docs.sort(key=scores.__getitem__, reverse=True)` followed, when
      `truncate` holds, by `[:top_k]` evaluates to: the key is called with each
      Record and a list index must be an integer, so any non-empty list raises;
      on an empty list `sort` returns None (`Success(None)`), and slicing None
      raises. */
  function SortCallAsWritten(docs: seq<Record>, scores: seq<real>, truncate: bool): (r: Result<Option<seq<Record>>>)
    ensures r.Success? ==> r.value.None?
  {
    if docs != [] then Failure(KeyNotAnIndex)
    else if truncate then Failure(SliceOfNone)
    else Success(None)
  }

  /** One document with one score: the step as written raises, the intended
      step returns that document. */
  lemma SortAsWrittenDiverges(d: Record)
    ensures SortCallAsWritten([d], [1.0], false).Failure?
    ensures SortCallAsWritten([d], [1.0], true).Failure?
    ensures SortAndTruncate([d], [1.0], 0) == [d]
  {
    SortKeepsAllWithoutTopK([d], [1.0]);
  }
}
