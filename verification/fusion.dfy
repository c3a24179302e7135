/** Reciprocal rank fusion (`src/hybrid_retrieval.rs`), with exact weights in place of floating point. */
module Fusion {
  /** Candidates are ordered by their identifiers. */
  type Id = int

  function Weight(k: nat, rank: nat): (w: real)
    ensures w > 0.0
  {
    1.0 / (k as real + rank as real + 1.0)
  }

  /** Where a candidate first occurs in a ranking. */
  function FirstAt(ranking: seq<Id>, c: Id): (rank: nat)
    requires c in ranking
    ensures rank < |ranking| && ranking[rank] == c && forall i :: 0 <= i < rank ==> ranking[i] != c
  {
    if ranking[0] == c then 0 else 1 + FirstAt(ranking[1..], c)
  }

  /** What a ranking contributes to a candidate. */
  function Share(k: nat, ranking: seq<Id>, c: Id): real {
    if c in ranking then Weight(k, FirstAt(ranking, c)) else 0.0
  }

  function Score(k: nat, rankings: seq<seq<Id>>, c: Id): real {
    if rankings == [] then 0.0 else Score(k, rankings[..|rankings| - 1], c) + Share(k, rankings[|rankings| - 1], c)
  }

  function Candidates(rankings: seq<seq<Id>>): set<Id> {
    set r, c | r in rankings && c in r :: c
  }

  // ---- scoring

  /** The inner loop over one ranking: a candidate counts where it first occurs. */
  method AddRanking(k: nat, ranking: seq<Id>, scores: map<Id, real>) returns (after: map<Id, real>)
    ensures after.Keys == scores.Keys + set c | c in ranking
    ensures forall c :: c in after ==> after[c] == (if c in scores then scores[c] else 0.0) + Share(k, ranking, c)
  {
    after := scores;
    var seen: set<Id> := {};
    for rank := 0 to |ranking|
      invariant seen == set c | c in ranking[..rank]
      invariant after.Keys == scores.Keys + seen
      invariant forall c :: c in after ==>
                  after[c] == (if c in scores then scores[c] else 0.0) + if c in seen then Share(k, ranking, c) else 0.0
    {
      var candidate := ranking[rank];
      assert ranking[..rank + 1] == ranking[..rank] + [candidate];
      if candidate in seen {
        continue;
      }
      FirstIs(ranking, candidate, rank);
      seen := seen + {candidate};
      after := after[candidate := (if candidate in after then after[candidate] else 0.0) + Weight(k, rank)];
    }
    assert ranking[..|ranking|] == ranking;
  }

  lemma {:induction false} FirstIs(ranking: seq<Id>, c: Id, rank: nat)
    requires rank < |ranking| && ranking[rank] == c && c !in ranking[..rank]
    ensures FirstAt(ranking, c) == rank
  {
    if rank > 0 {
      assert ranking[..rank][0] == ranking[0] && ranking[..rank][1..] == ranking[1..][..rank - 1];
      FirstIs(ranking[1..], c, rank - 1);
    }
  }

  method SumScores(k: nat, rankings: seq<seq<Id>>) returns (scores: map<Id, real>)
    ensures scores.Keys == Candidates(rankings)
    ensures forall c :: c in scores ==> scores[c] == Score(k, rankings, c)
  {
    scores := map[];
    for i := 0 to |rankings|
      invariant scores.Keys == Candidates(rankings[..i])
      invariant forall c :: c in scores ==> scores[c] == Score(k, rankings[..i], c)
    {
      assert rankings[..i + 1][..i] == rankings[..i];
      assert rankings[..i + 1] == rankings[..i] + [rankings[i]];
      CandidatesSnoc(rankings[..i], rankings[i]);
      AbsentScoresNothing(k, rankings[..i]);
      scores := AddRanking(k, rankings[i], scores);
    }
    assert rankings[..|rankings|] == rankings;
  }

  lemma {:induction false} AbsentScoresNothing(k: nat, rankings: seq<seq<Id>>)
    ensures forall c :: c !in Candidates(rankings) ==> Score(k, rankings, c) == 0.0
  {
    if rankings != [] {
      var n := |rankings| - 1;
      assert rankings == rankings[..n] + [rankings[n]];
      AbsentScoresNothing(k, rankings[..n]);
      CandidatesSnoc(rankings[..n], rankings[n]);
    }
  }

  lemma CandidatesSnoc(front: seq<seq<Id>>, last: seq<Id>)
    ensures Candidates(front + [last]) == Candidates(front) + set c | c in last
  {
    var all := front + [last];
    forall c ensures c in Candidates(all) <==> c in Candidates(front) || c in last {
      assert all[|front|] == last;
      if c in Candidates(front) {
        var r :| r in front && c in r;
        assert r in all;
      }
    }
  }

  // ---- ordering

  datatype Scored = Scored(id: Id, score: real)

  /** Score descending, then identifier. */
  predicate Precedes(a: Scored, b: Scored) {
    a.score > b.score || (a.score == b.score && a.id < b.id)
  }

  ghost predicate Sorted(s: seq<Scored>) {
    forall i, j :: 0 <= i < j < |s| ==> Precedes(s[i], s[j])
  }

  method Insert(e: Scored, s: seq<Scored>) returns (out: seq<Scored>)
    requires Sorted(s) && forall x :: x in s ==> x.id != e.id
    ensures Sorted(out) && |out| == |s| + 1 && forall x :: x in out <==> x == e || x in s
  {
    var i := 0;
    while i < |s| && Precedes(s[i], e)
      invariant 0 <= i <= |s| && forall j :: 0 <= j < i ==> Precedes(s[j], e)
    {
      i := i + 1;
    }
    assert i < |s| ==> s[i] in s;
    out := s[..i] + [e] + s[i..];
    Inserted(s, e, i, out);
  }

  lemma Inserted(s: seq<Scored>, e: Scored, i: nat, out: seq<Scored>)
    requires Sorted(s) && i <= |s| && out == s[..i] + [e] + s[i..]
    requires (forall j :: 0 <= j < i ==> Precedes(s[j], e)) && (i < |s| ==> Precedes(e, s[i]))
    ensures Sorted(out) && forall x :: x in out <==> x == e || x in s
  {
    assert s == s[..i] + s[i..];
    forall j | i <= j < |s| ensures Precedes(e, s[j]) {
      assert i < j ==> Precedes(s[i], s[j]);
    }
    forall a, b | 0 <= a < b < |out| ensures Precedes(out[a], out[b]) {
      assert a < i ==> out[a] == s[a];
      assert a > i ==> out[a] == s[a - 1];
      assert b < i ==> out[b] == s[b];
      assert b > i ==> out[b] == s[b - 1];
    }
  }

  /** `reciprocal_rank_fusion`: every candidate once, by score and then identifier. */
  method ReciprocalRankFusion(rankings: seq<seq<Id>>, k: nat) returns (fused: seq<Id>)
    ensures Fused(k, rankings, fused)
  {
    var scores := SumScores(k, rankings);
    var ranked: seq<Scored> := [];
    var left := scores.Keys;
    while left != {}
      invariant left <= scores.Keys && Sorted(ranked)
      invariant forall x :: x in ranked <==> x.id in scores.Keys - left && x.score == scores[x.id]
      decreases left
    {
      var c :| c in left;
      left := left - {c};
      ranked := Insert(Scored(c, scores[c]), ranked);
    }
    fused := seq(|ranked|, i requires 0 <= i < |ranked| => ranked[i].id);
    forall i | 0 <= i < |ranked| ensures ranked[i].id in scores && ranked[i].score == Score(k, rankings, ranked[i].id) {
      assert ranked[i] in ranked;
    }
    forall c | c in Candidates(rankings) ensures c in fused {
      var x := Scored(c, scores[c]);
      assert x in ranked;
      var i :| 0 <= i < |ranked| && ranked[i] == x;
      assert fused[i] == c;
    }
  }

  // ---- what the result is

  predicate Above(k: nat, rankings: seq<seq<Id>>, a: Id, b: Id) {
    Score(k, rankings, a) > Score(k, rankings, b) || (Score(k, rankings, a) == Score(k, rankings, b) && a < b)
  }

  /** A sequence of all candidates in strictly descending order: by score, then identifier. */
  ghost predicate Fused(k: nat, rankings: seq<seq<Id>>, fused: seq<Id>) {
    && (forall c :: c in fused <==> c in Candidates(rankings))
    && (forall i, j :: 0 <= i < j < |fused| ==> Above(k, rankings, fused[i], fused[j]))
  }

  /** The result is determined, and lists no candidate twice. */
  lemma {:induction false} FusedIsUnique(k: nat, rankings: seq<seq<Id>>, a: seq<Id>, b: seq<Id>)
    requires forall i, j :: 0 <= i < j < |a| ==> Above(k, rankings, a[i], a[j])
    requires forall i, j :: 0 <= i < j < |b| ==> Above(k, rankings, b[i], b[j])
    requires forall c :: c in a <==> c in b
    ensures a == b && forall i, j :: 0 <= i < j < |a| ==> a[i] != a[j]
  {
    Inhabited(a);
    Inhabited(b);
    if a != [] {
      assert a[0] in b && b[0] in a;
      assert a[0] == b[0];
      assert a == [a[0]] + a[1..] && b == [b[0]] + b[1..];
      forall c ensures c in a[1..] <==> c in b[1..] {
        if c in a[1..] {
          assert Above(k, rankings, a[0], c) && c in a;
        }
        if c in b[1..] {
          assert Above(k, rankings, b[0], c) && c in b;
        }
      }
      FusedIsUnique(k, rankings, a[1..], b[1..]);
    }
  }

  lemma Inhabited(s: seq<Id>)
    ensures s == [] || exists c :: c in s
  {
    if s != [] {
      var c: Id := s[0];
      assert c in s;
    }
  }

  /** The sum of shares does not depend on the order of the rankings. */
  lemma {:induction false} ScoreOfMultiset(k: nat, a: seq<seq<Id>>, b: seq<seq<Id>>, c: Id)
    requires multiset(a) == multiset(b)
    ensures Score(k, a, c) == Score(k, b, c)
  {
    if a == [] {
      assert b == [] by { assert |multiset(b)| == 0; }
    } else {
      var n := |a| - 1;
      var last := a[n];
      assert last in multiset(a);
      assert last in b;
      var m :| 0 <= m < |b| && b[m] == last;
      var rest := b[..m] + b[m + 1..];
      assert a == a[..n] + [last] && b == b[..m] + [last] + b[m + 1..];
      assert multiset(a) == multiset(a[..n]) + multiset{last};
      assert multiset(b) == multiset(rest) + multiset{last};
      Cancel(multiset(a[..n]), multiset(rest), last);
      ScoreOfMultiset(k, a[..n], rest, c);
      ScoreWithout(k, b, m, c);
    }
  }

  lemma Cancel(x: multiset<seq<Id>>, y: multiset<seq<Id>>, e: seq<Id>)
    requires x + multiset{e} == y + multiset{e}
    ensures x == y
  {
    forall z ensures x[z] == y[z] {
      assert (x + multiset{e})[z] == (y + multiset{e})[z];
    }
  }

  lemma {:induction false} ScoreWithout(k: nat, b: seq<seq<Id>>, m: nat, c: Id)
    requires m < |b|
    ensures Score(k, b, c) == Score(k, b[..m] + b[m + 1..], c) + Share(k, b[m], c)
  {
    var n := |b| - 1;
    if m < n {
      ScoreWithout(k, b[..n], m, c);
      var rest := b[..m] + b[m + 1..];
      assert rest[..|rest| - 1] == b[..n][..m] + b[..n][m + 1..] && rest[|rest| - 1] == b[n];
    } else {
      assert b[..m] + b[m + 1..] == b[..n];
    }
  }

  /** Reordering the rankings does not change the result. */
  lemma OrderOfRankingsIsIrrelevant(k: nat, a: seq<seq<Id>>, b: seq<seq<Id>>, x: seq<Id>, y: seq<Id>)
    requires multiset(a) == multiset(b) && Fused(k, a, x) && Fused(k, b, y)
    ensures x == y
  {
    forall c ensures Score(k, a, c) == Score(k, b, c) {
      ScoreOfMultiset(k, a, b, c);
    }
    assert Candidates(a) == Candidates(b) by {
      assert forall r :: r in a <==> r in multiset(a);
      assert forall r :: r in b <==> r in multiset(b);
    }
    forall i, j | 0 <= i < j < |y| ensures Above(k, a, y[i], y[j]) {
      assert Above(k, b, y[i], y[j]);
    }
    FusedIsUnique(k, a, x, y);
  }

  lemma {:induction false} AgreedScore(k: nat, rankings: seq<seq<Id>>, a: Id, b: Id)
    requires rankings != []
    requires forall r :: r in rankings ==> a in r && b in r && FirstAt(r, a) < FirstAt(r, b)
    ensures Score(k, rankings, a) > Score(k, rankings, b)
  {
    var n := |rankings| - 1;
    var last := rankings[n];
    assert last in rankings;
    WeightFalls(k, FirstAt(last, a), FirstAt(last, b));
    assert forall r :: r in rankings[..n] ==> r in rankings;
    if n > 0 {
      AgreedScore(k, rankings[..n], a, b);
    }
  }

  lemma WeightFalls(k: nat, i: nat, j: nat)
    requires i < j
    ensures Weight(k, i) > Weight(k, j)
  {
    Reciprocal(k as real + i as real + 1.0, k as real + j as real + 1.0);
  }

  lemma Reciprocal(x: real, y: real)
    requires 0.0 < x < y
    ensures 1.0 / x > 1.0 / y
  {
    var u, v := 1.0 / x, 1.0 / y;
    assert u * x == 1.0 && v * y == 1.0;
    assert u * y > u * x;
    assert (u - v) * y > 0.0;
  }

  /** Consensus: a candidate that first occurs before another in every ranking comes before it in the result. */
  lemma ConsensusIsKept(k: nat, rankings: seq<seq<Id>>, fused: seq<Id>, a: Id, b: Id) returns (i: nat, j: nat)
    requires Fused(k, rankings, fused) && rankings != []
    requires forall r :: r in rankings ==> a in r && b in r && FirstAt(r, a) < FirstAt(r, b)
    ensures i < j < |fused| && fused[i] == a && fused[j] == b
  {
    AgreedScore(k, rankings, a, b);
    assert rankings[0] in rankings;
    assert a in Candidates(rankings) && b in Candidates(rankings);
    i :| 0 <= i < |fused| && fused[i] == a;
    j :| 0 <= j < |fused| && fused[j] == b;
    assert j < i ==> Above(k, rankings, b, a);
  }

  // ---- what a weight is worth

  /** In exactly one ranking, and there in the first place. */
  ghost predicate FirstOnce(rankings: seq<seq<Id>>, c: Id) {
    |rankings| == 3 && c in rankings[0] && FirstAt(rankings[0], c) == 0 && c !in rankings[1] && c !in rankings[2]
  }

  /** Not in the first ranking, and at place `r` of both others. */
  ghost predicate TwiceAt(rankings: seq<seq<Id>>, c: Id, r: nat) {
    && |rankings| == 3 && c !in rankings[0]
    && c in rankings[1] && FirstAt(rankings[1], c) == r && c in rankings[2] && FirstAt(rankings[2], c) == r
  }

  lemma ScoreOfThree(k: nat, rankings: seq<seq<Id>>, c: Id)
    requires |rankings| == 3
    ensures Score(k, rankings, c) == Share(k, rankings[0], c) + Share(k, rankings[1], c) + Share(k, rankings[2], c)
  {
    assert rankings[..2][..1] == [rankings[0]] && rankings[..2][1] == rankings[1];
    assert [rankings[0]][..0] == [] && Score(k, [], c) == 0.0;
    assert Score(k, [rankings[0]], c) == Share(k, rankings[0], c);
    assert Score(k, rankings[..2], c) == Score(k, rankings[..2][..1], c) + Share(k, rankings[1], c);
  }

  lemma TwoWeights(k: nat, r: nat)
    ensures 2.0 * Weight(k, r) > Weight(k, 0) <==> r <= k
    ensures 2.0 * Weight(k, r) == Weight(k, 0) <==> r == k + 1
  {
    var x, y := k as real + 1.0, k as real + r as real + 1.0;
    var u, v := 1.0 / x, 1.0 / y;
    assert u == Weight(k, 0) && v == Weight(k, r);
    assert u * x == 1.0 && v * y == 1.0;
    Compare(u, v, x, y);
  }

  /** With x and y the reciprocals of u and v: 2v against u is as 2x against y. */
  lemma Compare(u: real, v: real, x: real, y: real)
    requires x > 0.0 && y > 0.0 && u * x == 1.0 && v * y == 1.0
    ensures 2.0 * v > u <==> 2.0 * x > y
    ensures 2.0 * v == u <==> 2.0 * x == y
  {
    assert (2.0 * v - u) * (x * y) == 2.0 * x - y by {
      assert (2.0 * v) * (x * y) == 2.0 * x * (v * y);
      assert u * (x * y) == (u * x) * y;
    }
    assert x * y > 0.0;
  }

  /** Two good places against one first place: a candidate at place `r` of two rankings comes before one that is first
      in a single other one if r is at most k, after it if r is more than k + 1, and by identifier at k + 1. */
  lemma TwoPlacesBeatOne(k: nat, rankings: seq<seq<Id>>, fused: seq<Id>, twice: Id, once: Id, r: nat)
    returns (i: nat, j: nat)
    requires Fused(k, rankings, fused) && FirstOnce(rankings, once) && TwiceAt(rankings, twice, r)
    ensures i < |fused| && j < |fused| && fused[i] == twice && fused[j] == once
    ensures i < j <==> r <= k || (r == k + 1 && twice < once)
  {
    ScoreOfThree(k, rankings, twice);
    ScoreOfThree(k, rankings, once);
    TwoWeights(k, r);
    assert rankings[0] in rankings && rankings[1] in rankings;
    assert once in Candidates(rankings) && twice in Candidates(rankings);
    i :| 0 <= i < |fused| && fused[i] == twice;
    j :| 0 <= j < |fused| && fused[j] == once;
    assert i < j ==> Above(k, rankings, twice, once);
    assert j < i ==> Above(k, rankings, once, twice);
  }
}
