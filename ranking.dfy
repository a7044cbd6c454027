/** The final decision over the accumulated candidates: keep those with a positive
    score, sort them by descending score with a stable sort, and keep the first four. */
module Ranking {
  import opened Candidates

  const MaxRecommendations: nat := 4

  predicate SortedDesc(s: seq<Candidate>) {
    forall i, j :: 0 <= i < j < |s| ==> s[i].score >= s[j].score
  }

  /** The subsequence of `s` whose score is `v`, in the order of `s`. A sort is stable
      exactly when it keeps this subsequence for every `v`. */
  function WithScore(s: seq<Candidate>, v: int): (r: seq<Candidate>)
    ensures |r| <= |s|
    ensures forall i :: 0 <= i < |r| ==> r[i].score == v
  {
    if s == [] then []
    else (if s[0].score == v then [s[0]] else []) + WithScore(s[1..], v)
  }

  /** `r` can be obtained from `s` by deleting elements: its elements occur in `s` in the
      same order. */
  predicate Subsequence(r: seq<Candidate>, s: seq<Candidate>)
    decreases |s|
  {
    r == [] ||
    (s != [] && ((r[0] == s[0] && Subsequence(r[1..], s[1..])) || Subsequence(r, s[1..])))
  }

  /** `.filter(c => c.score > 0)`: an order-preserving selection of `s` that keeps every
      candidate with a positive score, as often as it occurs, and no other. */
  function Positive(s: seq<Candidate>): (r: seq<Candidate>)
    ensures |r| <= |s|
    ensures Subsequence(r, s)
    ensures forall c :: c in r <==> c in s && c.score > 0
    ensures forall v :: v > 0 ==> WithScore(r, v) == WithScore(s, v)
    ensures forall v :: v <= 0 ==> WithScore(r, v) == []
  {
    if s == [] then []
    else
      var rest := Positive(s[1..]);
      assert forall c :: c in s <==> c == s[0] || c in s[1..];
      if s[0].score > 0 then
        var r := [s[0]] + rest;
        assert r[1..] == rest;
        r
      else
        rest
  }

  /** Inserts `x` in front of the first element whose score is not larger than its own,
      so that `x` precedes the elements it ties with. */
  function Insert(x: Candidate, s: seq<Candidate>): (r: seq<Candidate>)
    requires SortedDesc(s)
    ensures |r| == |s| + 1 && (r[0] == x || (s != [] && r[0] == s[0]))
    ensures SortedDesc(r)
    ensures multiset(r) == multiset(s) + multiset{x}
  {
    if s == [] || s[0].score <= x.score then
      [x] + s
    else
      var rest := Insert(x, s[1..]);
      InsertStep(x, s, rest);
      [s[0]] + rest
  }

  /** The recursive case of `Insert`: the head stays in front of the tail with `x` inserted. */
  lemma InsertStep(x: Candidate, s: seq<Candidate>, rest: seq<Candidate>)
    requires SortedDesc(s) && s != [] && s[0].score > x.score
    requires |rest| == |s[1..]| + 1 && (rest[0] == x || (s[1..] != [] && rest[0] == s[1..][0]))
    requires SortedDesc(rest) && multiset(rest) == multiset(s[1..]) + multiset{x}
    ensures |[s[0]] + rest| == |s| + 1 && ([s[0]] + rest)[0] == s[0]
    ensures SortedDesc([s[0]] + rest)
    ensures multiset([s[0]] + rest) == multiset(s) + multiset{x}
  {
    SortedCons(s[0], rest);
    assert s == [s[0]] + s[1..];
  }

  /** A candidate in front of a sorted list that it does not score below keeps it sorted. */
  lemma SortedCons(h: Candidate, t: seq<Candidate>)
    requires SortedDesc(t) && (t == [] || h.score >= t[0].score)
    ensures SortedDesc([h] + t)
  {
    var s := [h] + t;
    forall i, j | 0 <= i < j < |s| ensures s[i].score >= s[j].score {
      assert s[j] == t[j - 1];
      if i > 0 {
        assert s[i] == t[i - 1];
      }
    }
  }

  /** `x` lands in front of every element it ties with, and nothing else moves. */
  lemma {:induction false} InsertWithScore(x: Candidate, s: seq<Candidate>, v: int)
    requires SortedDesc(s)
    ensures WithScore(Insert(x, s), v) == (if x.score == v then [x] else []) + WithScore(s, v)
  {
    if s == [] || s[0].score <= x.score {
      WithScoreCons(x, s, v);
    } else {
      InsertWithScore(x, s[1..], v);
      InsertBehind(x, s);
      assert s == [s[0]] + s[1..];
      PassedHeadWithScore(x, s[0], s[1..], Insert(x, s[1..]), v);
    }
  }

  /** `x`, scoring below `h`, went into the tail `t` (giving `rest`) and left `h` in front:
      the score-`v` subsequence gains `x` in front exactly when `x` scores `v`. */
  lemma PassedHeadWithScore(x: Candidate, h: Candidate, t: seq<Candidate>, rest: seq<Candidate>, v: int)
    requires h.score > x.score
    requires WithScore(rest, v) == (if x.score == v then [x] else []) + WithScore(t, v)
    ensures WithScore([h] + rest, v) == (if x.score == v then [x] else []) + WithScore([h] + t, v)
  {
    WithScoreCons(h, rest, v);
    WithScoreCons(h, t, v);
    if x.score == v {
      EmptyHeads(x, WithScore(rest, v), WithScore(t, v));
    }
  }

  /** Empty heads in front of both sides change nothing. */
  lemma EmptyHeads(x: Candidate, wr: seq<Candidate>, wt: seq<Candidate>)
    requires wr == [x] + wt
    ensures [] + wr == [x] + ([] + wt)
  {
  }

  /** An element that scores below the head is inserted into the tail. */
  lemma InsertBehind(x: Candidate, s: seq<Candidate>)
    requires SortedDesc(s) && s != [] && s[0].score > x.score
    ensures Insert(x, s) == [s[0]] + Insert(x, s[1..])
  {
  }

  lemma WithScoreCons(c: Candidate, t: seq<Candidate>, v: int)
    ensures WithScore([c] + t, v) == (if c.score == v then [c] else []) + WithScore(t, v)
  {
    assert ([c] + t)[1..] == t;
  }

  /** A stable sort by descending score (an insertion sort). The sort of the source is
      stable too, so `StableSortUnique` shows the two orders agree. */
  function SortDesc(s: seq<Candidate>): (r: seq<Candidate>)
    ensures SortedDesc(r)
    ensures multiset(r) == multiset(s)
  {
    if s == [] then []
    else
      var rest := SortDesc(s[1..]);
      assert s == [s[0]] + s[1..];
      Insert(s[0], rest)
  }

  /** The sort is stable: for every score, the candidates with that score keep their order. */
  lemma {:induction false} SortDescStable(s: seq<Candidate>, v: int)
    ensures WithScore(SortDesc(s), v) == WithScore(s, v)
  {
    if s != [] {
      SortDescStable(s[1..], v);
      InsertWithScore(s[0], SortDesc(s[1..]), v);
    }
  }

  /** Sorted by descending score and order-preserving within every score: at most one
      sequence has both properties relative to the same input. */
  lemma {:induction false} StableSortUnique(a: seq<Candidate>, b: seq<Candidate>)
    requires SortedDesc(a) && SortedDesc(b)
    requires forall v :: WithScore(a, v) == WithScore(b, v)
    ensures a == b
    decreases |a|
  {
    HeadScoreOccurs(a);
    HeadScoreOccurs(b);
    if a != [] && b != [] {
      var va, vb := a[0].score, b[0].score;
      assert WithScore(a, va)[0] == a[0];
      assert WithScore(b, vb)[0] == b[0];
      MaxScoreHead(b, va);
      MaxScoreHead(a, vb);
      assert va == vb;
      assert WithScore(a, va) == WithScore(b, va);
      assert a[0] == b[0];
      forall v ensures WithScore(a[1..], v) == WithScore(b[1..], v) {
        var x, y := WithScore(a[1..], v), WithScore(b[1..], v);
        assert WithScore(a, v) == WithScore(b, v);
        assert WithScore(a, v) == (if va == v then [a[0]] else []) + x;
        assert WithScore(b, v) == (if va == v then [a[0]] else []) + y;
        if va == v {
          assert x == WithScore(a, v)[1..] && y == WithScore(b, v)[1..];
        } else {
          assert x == WithScore(a, v) && y == WithScore(b, v);
        }
      }
      StableSortUnique(a[1..], b[1..]);
      assert a == [a[0]] + a[1..] && b == [b[0]] + b[1..];
    }
  }

  lemma HeadScoreOccurs(s: seq<Candidate>)
    ensures s != [] ==> WithScore(s, s[0].score) != []
  {
  }

  /** In a sequence sorted by descending score, a score that occurs is at most the head's. */
  lemma {:induction false} MaxScoreHead(s: seq<Candidate>, v: int)
    requires SortedDesc(s) && s != []
    requires WithScore(s, v) != []
    ensures v <= s[0].score
  {
    var c := WithScore(s, v)[0];
    assert c in WithScore(s, v);
    WithScoreIn(s, v);
    assert c in s;
    var i :| 0 <= i < |s| && s[i] == c;
  }

  lemma {:induction false} WithScoreIn(s: seq<Candidate>, v: int)
    ensures forall c :: c in WithScore(s, v) ==> c in s
  {
    if s != [] {
      WithScoreIn(s[1..], v);
    }
  }

  function Min(a: nat, b: nat): nat {
    if a < b then a else b
  }

  /** The candidates that become recommendations, in recommendation order. */
  function Ranked(vs: seq<Candidate>): seq<Candidate> {
    var sorted := SortDesc(Positive(vs));
    sorted[..Min(MaxRecommendations, |sorted|)]
  }

  /** The ranked candidates are at most four, all positive, all taken from the input,
      in descending score order; as many as four are kept when there are that many. */
  lemma RankedShape(vs: seq<Candidate>)
    ensures |Ranked(vs)| == Min(MaxRecommendations, |Positive(vs)|)
    ensures |Ranked(vs)| <= MaxRecommendations
    ensures forall c :: c in Ranked(vs) ==> c in vs && c.score > 0
    ensures SortedDesc(Ranked(vs))
  {
    var p := Positive(vs);
    var sorted := SortDesc(p);
    assert |sorted| == |multiset(sorted)| == |multiset(p)| == |p|;
    SameElements(sorted, p);
    forall c | c in Ranked(vs) ensures c in vs && c.score > 0 {
      assert c in sorted;
    }
  }

  /** Nothing positive that was cut off scores higher than anything kept. */
  lemma RankedAreTheBest(vs: seq<Candidate>)
    ensures forall c, i :: c in Positive(vs) && c !in Ranked(vs) && 0 <= i < |Ranked(vs)| ==>
      c.score <= Ranked(vs)[i].score
  {
    var p := Positive(vs);
    var sorted := SortDesc(p);
    var r := Ranked(vs);
    SameElements(sorted, p);
    forall c, i | c in p && c !in r && 0 <= i < |r| ensures c.score <= r[i].score {
      CutOffBound(sorted, |r|, c, i);
    }
  }

  /** In a descending sequence, an element outside the first `n` scores no more than any of them. */
  lemma CutOffBound(sorted: seq<Candidate>, n: nat, c: Candidate, i: nat)
    requires SortedDesc(sorted) && i < n <= |sorted|
    requires c in sorted && c !in sorted[..n]
    ensures c.score <= sorted[i].score
  {
    assert sorted == sorted[..n] + sorted[n..];
    assert c in sorted[n..];
    var j :| 0 <= j < |sorted| - n && sorted[n..][j] == c;
    assert sorted[n + j] == c;
  }

  lemma SameElements(a: seq<Candidate>, b: seq<Candidate>)
    requires multiset(a) == multiset(b)
    ensures forall c :: c in a <==> c in b
  {
    forall c ensures c in a <==> c in b {
      assert c in a <==> c in multiset(a);
      assert c in b <==> c in multiset(b);
    }
  }

  /** Ties keep the insertion order: among the positive candidates of any one score, the
      ranking is a prefix-closed selection of the input's own order. Precisely, the
      ranked list is a prefix of a sequence whose score-`v` subsequence is the input's
      score-`v` subsequence, for every positive `v`. */
  lemma RankedKeepsTieOrder(vs: seq<Candidate>)
    ensures Ranked(vs) == SortDesc(Positive(vs))[..|Ranked(vs)|]
    ensures forall v :: v > 0 ==> WithScore(SortDesc(Positive(vs)), v) == WithScore(vs, v)
  {
    forall v | v > 0 ensures WithScore(SortDesc(Positive(vs)), v) == WithScore(vs, v) {
      SortDescStable(Positive(vs), v);
    }
  }

  // ---- no id twice ----

  lemma HeadIdFresh(s: seq<Candidate>)
    requires UniqueIds(s) && s != []
    ensures UniqueIds(s[1..])
    ensures forall c :: c in s[1..] ==> c.id != s[0].id
  {
    forall c | c in s[1..] ensures c.id != s[0].id {
      var m :| 0 <= m < |s| - 1 && s[1..][m] == c;
      assert s[m + 1] == c;
    }
  }

  /** Filtering keeps ids distinct. */
  lemma {:induction false} PositiveDistinctIds(s: seq<Candidate>)
    requires UniqueIds(s)
    ensures UniqueIds(Positive(s))
  {
    if s != [] {
      HeadIdFresh(s);
      PositiveDistinctIds(s[1..]);
      var rest := Positive(s[1..]);
      if s[0].score > 0 {
        assert Positive(s) == [s[0]] + rest;
        forall c | c in rest ensures c.id != s[0].id {
          assert c in s[1..];
        }
        ConsDistinctIds(s[0], rest);
      }
    }
  }

  /** Inserting a candidate whose id is new keeps ids distinct. */
  lemma {:induction false} InsertDistinctIds(x: Candidate, s: seq<Candidate>)
    requires SortedDesc(s) && UniqueIds(s)
    requires forall c :: c in s ==> c.id != x.id
    ensures UniqueIds(Insert(x, s))
  {
    if s == [] || s[0].score <= x.score {
      assert Insert(x, s) == [x] + s;
      ConsDistinctIds(x, s);
    } else {
      HeadIdFresh(s);
      var rest := Insert(x, s[1..]);
      InsertDistinctIds(x, s[1..]);
      assert Insert(x, s) == [s[0]] + rest;
      forall c | c in rest ensures c.id != s[0].id {
        assert c in multiset(rest);
        assert c == x || c in multiset(s[1..]);
      }
      ConsDistinctIds(s[0], rest);
    }
  }

  /** A new id in front of distinct ids. */
  lemma ConsDistinctIds(x: Candidate, s: seq<Candidate>)
    requires UniqueIds(s)
    requires forall c :: c in s ==> c.id != x.id
    ensures UniqueIds([x] + s)
  {
    var r := [x] + s;
    forall i, j | 0 <= i < j < |r| ensures r[i].id != r[j].id {
      assert r[j] == s[j - 1] && r[j] in s;
      if i > 0 {
        assert r[i] == s[i - 1];
      }
    }
  }

  /** Sorting keeps ids distinct. */
  lemma {:induction false} SortDescDistinctIds(s: seq<Candidate>)
    requires UniqueIds(s)
    ensures UniqueIds(SortDesc(s))
  {
    if s != [] {
      HeadIdFresh(s);
      SortDescDistinctIds(s[1..]);
      var rest := SortDesc(s[1..]);
      forall c | c in rest ensures c.id != s[0].id {
        assert c in multiset(rest);
        assert c in s[1..];
      }
      InsertDistinctIds(s[0], rest);
    }
  }

  /** The ranking never names the same id twice when the input does not. */
  lemma RankedDistinctIds(vs: seq<Candidate>)
    requires UniqueIds(vs)
    ensures UniqueIds(Ranked(vs))
  {
    PositiveDistinctIds(vs);
    SortDescDistinctIds(Positive(vs));
  }

  /** Some positive candidate means some ranked candidate, and the first ranked is the best. */
  lemma RankedNonEmpty(vs: seq<Candidate>, c: Candidate)
    requires c in vs && c.score > 0
    ensures |Ranked(vs)| > 0 && Ranked(vs)[0].score >= c.score
  {
    RankedShape(vs);
    var p := Positive(vs);
    assert c in p;
    var sorted := SortDesc(p);
    SameElements(sorted, p);
    var i :| 0 <= i < |sorted| && sorted[i] == c;
  }
}
