/** The retrieval step of `rag_search`: rank every document by its similarity
    score, keep the five best (`np.argsort(similarities)[::-1][:5]`) and look
    their texts up in the corpus. Scores are abstract ordered values, one per
    row of the embedding matrix. */
module Retrieval {
  import opened Wrappers

  /** How many candidates the similarity ranking keeps. */
  const ShortlistSize: nat := 5

  function Min(a: int, b: int): (m: int)
    ensures m <= a && m <= b && (m == a || m == b)
  {
    if a <= b then a else b
  }

  /** Every entry of `p` is a position in a sequence of length `n`. */
  predicate ValidIndices(p: seq<nat>, n: nat)
  {
    forall i :: 0 <= i < |p| ==> p[i] < n
  }

  predicate Distinct(p: seq<nat>)
  {
    forall i, j :: 0 <= i < j < |p| ==> p[i] != p[j]
  }

  /** `p` lists every position `0 .. n - 1` exactly once. */
  predicate IsIndexPermutation(p: seq<nat>, n: nat)
  {
    |p| == n && ValidIndices(p, n) && Distinct(p) && forall x :: 0 <= x < n ==> x in p
  }

  /** The positions of `p` are in `scores` and their scores never decrease. */
  predicate AscendingBy(scores: seq<real>, p: seq<nat>)
  {
    ValidIndices(p, |scores|) && forall i, j :: 0 <= i < j < |p| ==> scores[p[i]] <= scores[p[j]]
  }

  /** What `np.argsort(scores)` may return. Its default sort is not stable, so
      among equal scores any order is allowed. */
  predicate IsAscendingArgsort(scores: seq<real>, p: seq<nat>)
  {
    IsIndexPermutation(p, |scores|) && AscendingBy(scores, p)
  }

  /** `r` is a best-`k` selection from `scores`: `min(k, |scores|)` distinct
      positions in non-increasing score order, and no position left out
      scores higher than any selected one. No order among ties is implied. */
  ghost predicate IsTopK(scores: seq<real>, k: nat, r: seq<nat>)
  {
    && |r| == Min(k, |scores|)
    && ValidIndices(r, |scores|)
    && Distinct(r)
    && (forall i, j :: 0 <= i < j < |r| ==> scores[r[i]] >= scores[r[j]])
    && (forall x, i :: 0 <= x < |scores| && x !in r && 0 <= i < |r| ==> scores[x] <= scores[r[i]])
  }

  /** Where position `x` enters the ascending order `p`: after every entry
      that scores strictly less than it. */
  function InsertPos(scores: seq<real>, x: nat, p: seq<nat>): (k: nat)
    requires x < |scores| && ValidIndices(p, |scores|)
    ensures k <= |p|
    ensures forall i :: 0 <= i < k ==> scores[p[i]] < scores[x]
    ensures k < |p| ==> scores[x] <= scores[p[k]]
  {
    if |p| == 0 || scores[x] <= scores[p[0]] then 0 else 1 + InsertPos(scores, x, p[1..])
  }

  /** Putting `v` at position `k` of `q` shifts the entries from `k` on. */
  lemma SpliceAt(q: seq<nat>, k: nat, v: nat)
    requires k <= |q|
    ensures var p := q[..k] + [v] + q[k..];
            && |p| == |q| + 1
            && (forall i :: 0 <= i < k ==> p[i] == q[i])
            && p[k] == v
            && (forall i :: k < i < |p| ==> p[i] == q[i - 1])
  {
  }

  /** Inserting position `n - 1` into an ascending argsort of the first
      `n - 1` positions, where `InsertPos` says, gives one of the first `n`. */
  lemma InsertKeepsArgsort(scores: seq<real>, n: nat, q: seq<nat>)
    requires 0 < n <= |scores| && IsIndexPermutation(q, n - 1) && AscendingBy(scores, q)
    ensures var k := InsertPos(scores, n - 1, q);
            var p := q[..k] + [n - 1] + q[k..];
            IsIndexPermutation(p, n) && AscendingBy(scores, p)
  {
    var k := InsertPos(scores, n - 1, q);
    SpliceAt(q, k, n - 1);
    InsertedIsArgsort(scores, n, q, k, q[..k] + [n - 1] + q[k..]);
  }

  lemma InsertedIsArgsort(scores: seq<real>, n: nat, q: seq<nat>, k: nat, p: seq<nat>)
    requires 0 < n <= |scores| && IsIndexPermutation(q, n - 1) && AscendingBy(scores, q)
    requires k <= |q| && (forall i :: 0 <= i < k ==> scores[q[i]] < scores[n - 1])
    requires k < |q| ==> scores[n - 1] <= scores[q[k]]
    requires |p| == |q| + 1 && p[k] == n - 1
    requires forall i :: 0 <= i < k ==> p[i] == q[i]
    requires forall i :: k < i < |p| ==> p[i] == q[i - 1]
    ensures IsIndexPermutation(p, n) && AscendingBy(scores, p)
  {
    forall i, j | 0 <= i < j < |p| ensures p[i] != p[j] {
      if j < k || i > k {
      } else if i == k {
        assert p[j] == q[j - 1] < n - 1;
      } else if j == k {
        assert p[i] == q[i] < n - 1;
      }
    }
    forall x | 0 <= x < n ensures x in p {
      if x < n - 1 {
        assert x in q;
        var m :| 0 <= m < |q| && q[m] == x;
        assert p[if m < k then m else m + 1] == x;
      } else {
        assert p[k] == x;
      }
    }
    forall i, j | 0 <= i < j < |p| ensures scores[p[i]] <= scores[p[j]] {
      if j < k || i > k {
        assert scores[p[i]] <= scores[p[j]];
      } else if i == k {
        assert scores[n - 1] <= scores[q[k]] && scores[q[k]] <= scores[q[j - 1]];
      } else if j == k {
        assert scores[q[i]] < scores[n - 1];
      } else {
        assert scores[q[i]] <= scores[q[j - 1]];
      }
    }
  }

  /** An ascending argsort of the first `n` positions, by insertion. */
  function ArgSortUpTo(scores: seq<real>, n: nat): (p: seq<nat>)
    requires n <= |scores|
    ensures IsIndexPermutation(p, n) && AscendingBy(scores, p)
  {
    if n == 0 then []
    else
      var q := ArgSortUpTo(scores, n - 1);
      InsertKeepsArgsort(scores, n, q);
      var k := InsertPos(scores, n - 1, q);
      q[..k] + [n - 1] + q[k..]
  }

  /** One order `np.argsort` may return (this one keeps ties in position
      order); it shows that every score vector has an ascending argsort. */
  function ArgSort(scores: seq<real>): (p: seq<nat>)
    ensures IsAscendingArgsort(scores, p)
  {
    ArgSortUpTo(scores, |scores|)
  }

  /** `s[::-1]`. */
  function Reverse(s: seq<nat>): (r: seq<nat>)
    ensures |r| == |s|
    ensures forall i :: 0 <= i < |s| ==> r[i] == s[|s| - 1 - i]
  {
    if |s| == 0 then [] else [s[|s| - 1]] + Reverse(s[..|s| - 1])
  }

  /** `order[::-1][:5]` for an ascending argsort `order` of `scores`: the
      shortlist is a best-five selection, whichever order `np.argsort` gave
      to equal scores. */
  function TopIndices(scores: seq<real>, order: seq<nat>): (r: seq<nat>)
    requires IsAscendingArgsort(scores, order)
    ensures IsTopK(scores, ShortlistSize, r)
  {
    var d := Reverse(order);
    var r := d[..Min(ShortlistSize, |d|)];
    var n := |order|;
    assert forall i :: 0 <= i < |r| ==> r[i] == order[n - 1 - i];
    assert forall j :: n - |r| <= j < n ==> order[j] in r by {
      forall j | n - |r| <= j < n ensures order[j] in r { assert r[n - 1 - j] == order[j]; }
    }
    assert forall x, i :: 0 <= x < n && x !in r && 0 <= i < |r| ==> scores[x] <= scores[r[i]] by {
      forall x, i | 0 <= x < n && x !in r && 0 <= i < |r| ensures scores[x] <= scores[r[i]] {
        assert x in order;
        var m :| 0 <= m < n && order[m] == x;
        assert m < n - |r|;
      }
    }
    r
  }

  /** The set of entries of `s`. */
  function Elements(s: seq<nat>): set<nat>
  {
    set x | x in s
  }

  lemma {:induction false} ElementsOfDistinct(s: seq<nat>)
    requires Distinct(s)
    ensures |Elements(s)| == |s|
  {
    if |s| > 0 {
      var t := s[..|s| - 1];
      ElementsOfDistinct(t);
      assert Elements(s) == Elements(t) + {s[|s| - 1]};
      assert s[|s| - 1] !in t;
    }
  }

  lemma {:induction false} ElementsAtMostLength(s: seq<nat>)
    ensures |Elements(s)| <= |s|
  {
    if |s| > 0 {
      var t := s[..|s| - 1];
      ElementsAtMostLength(t);
      assert Elements(s) == Elements(t) + {s[|s| - 1]};
    }
  }

  /** A larger set has an element outside a smaller one. */
  lemma OutsideSmaller(a: set<nat>, b: set<nat>) returns (x: nat)
    requires |a| > |b|
    ensures x in a && x !in b
  {
    var d := a - b;
    assert a == d + (a * b);
    assert |a * b| <= |b| by { assert b == (a * b) + (b - a); }
    x :| x in d;
  }

  /** Some entry among the first `i + 1` of a distinct `r1` is not among the
      first `i` of `r2`. */
  lemma FreshAmongFirst(r1: seq<nat>, r2: seq<nat>, i: nat) returns (j: nat)
    requires Distinct(r1) && i < |r1| && i <= |r2|
    ensures j <= i && forall t :: 0 <= t < i ==> r2[t] != r1[j]
  {
    assert Distinct(r1[..i + 1]);
    ElementsOfDistinct(r1[..i + 1]);
    ElementsAtMostLength(r2[..i]);
    var x := OutsideSmaller(Elements(r1[..i + 1]), Elements(r2[..i]));
    assert x in r1[..i + 1];
    j :| 0 <= j <= i && r1[..i + 1][j] == x;
    assert forall t :: 0 <= t < i ==> r2[t] == r2[..i][t];
  }

  /** The i-th best score of a best-`k` selection is at most the i-th of any
      other best-`k` selection. */
  lemma TopKScoreAtMost(scores: seq<real>, k: nat, r1: seq<nat>, r2: seq<nat>, i: nat)
    requires IsTopK(scores, k, r1) && IsTopK(scores, k, r2) && i < |r1|
    ensures scores[r1[i]] <= scores[r2[i]]
  {
    var j := FreshAmongFirst(r1, r2, i);
    var x := r1[j];
    assert scores[r1[i]] <= scores[x];
    if x in r2 {
      var m :| 0 <= m < |r2| && r2[m] == x;
      assert m >= i;
      assert scores[x] <= scores[r2[i]];
    } else {
      assert scores[x] <= scores[r2[i]];
    }
  }

  /** Which positions are shortlisted among equal scores is left open, but
      the scores of the shortlist, in order, are not: any two best-`k`
      selections have the same score at every rank. So the shortlist is the
      same whatever order `np.argsort` gives to ties, up to swapping
      documents of equal score. */
  lemma TopKScoresDetermined(scores: seq<real>, k: nat, r1: seq<nat>, r2: seq<nat>)
    requires IsTopK(scores, k, r1) && IsTopK(scores, k, r2)
    ensures |r1| == |r2| && forall i :: 0 <= i < |r1| ==> scores[r1[i]] == scores[r2[i]]
  {
    forall i | 0 <= i < |r1| ensures scores[r1[i]] == scores[r2[i]] {
      TopKScoreAtMost(scores, k, r1, r2, i);
      TopKScoreAtMost(scores, k, r2, r1, i);
    }
  }

  datatype RetrievalError = DocumentIndexOutOfRange

  /** `[documents[i] for i in top]`: fails exactly when some index is not a
      position of `documents` (Python's IndexError), otherwise keeps the order
      of `top`. */
  function RetrieveDocs(documents: seq<string>, top: seq<nat>): (r: Result<seq<string>, RetrievalError>)
    ensures r.Ok? <==> ValidIndices(top, |documents|)
    ensures r.Ok? ==> |r.value| == |top| && forall j :: 0 <= j < |top| ==> r.value[j] == documents[top[j]]
  {
    if |top| == 0 then Ok([])
    else if top[0] >= |documents| then Err(DocumentIndexOutOfRange)
    else match RetrieveDocs(documents, top[1..])
      case Ok(rest) => Ok([documents[top[0]]] + rest)
      case Err(e) => Err(e)
  }

  /** When there is one score per document, the shortlist's documents are
      found: `min(5, |documents|)` of them, no position twice, each the
      document at the selected index. */
  lemma RetrieveShortlist(documents: seq<string>, scores: seq<real>, order: seq<nat>)
    requires |scores| == |documents| && IsAscendingArgsort(scores, order)
    ensures var top := TopIndices(scores, order);
            && RetrieveDocs(documents, top).Ok?
            && |RetrieveDocs(documents, top).value| == Min(ShortlistSize, |documents|)
            && forall j :: 0 <= j < |top| ==> RetrieveDocs(documents, top).value[j] == documents[top[j]]
  {
  }
}
