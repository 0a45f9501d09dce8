/**
 * Scored candidate moves and their ranking: `scoredMoves.sort((a, b) => b.score - a.score)`
 * is a stable sort by descending score, modelled here as an insertion sort that
 * places each element after every earlier element of equal or higher score.
 */
module Ranking {
  import opened Grid

  /** `{ move, score }` */
  datatype Scored = Scored(move: Pos, score: int)

  ghost predicate SortedDesc(s: seq<Scored>) {
    forall i, j :: 0 <= i < j < |s| ==> s[i].score >= s[j].score
  }

  /** Insert x after the leading elements whose score is at least x's. */
  function Insert(x: Scored, s: seq<Scored>): (r: seq<Scored>)
    ensures multiset(r) == multiset(s) + multiset{x}
  {
    if s == [] then [x]
    else if s[0].score >= x.score then
      assert s == [s[0]] + s[1..];
      [s[0]] + Insert(x, s[1..])
    else [x] + s
  }

  lemma InsertMembers(x: Scored, s: seq<Scored>, y: Scored)
    requires y in Insert(x, s)
    ensures y == x || y in s
  {
    assert y in multiset(Insert(x, s));
  }

  lemma {:induction false} InsertSorted(x: Scored, s: seq<Scored>)
    requires SortedDesc(s)
    ensures SortedDesc(Insert(x, s))
  {
    if s != [] && s[0].score >= x.score {
      var rest := Insert(x, s[1..]);
      InsertSorted(x, s[1..]);
      var r := [s[0]] + rest;
      forall i, j | 0 <= i < j < |r|
        ensures r[i].score >= r[j].score
      {
        if i == 0 {
          InsertMembers(x, s[1..], r[j]);
          if r[j] != x {
            var k :| 0 <= k < |s[1..]| && s[1..][k] == r[j];
            assert r[j] == s[k + 1];
          }
        } else {
          assert r[i] == rest[i - 1] && r[j] == rest[j - 1];
        }
      }
    }
  }

  /** The ranked list: descending by score, a permutation of the input. */
  function SortByScore(s: seq<Scored>): (r: seq<Scored>)
    ensures SortedDesc(r)
    ensures multiset(r) == multiset(s)
    ensures |r| == |s|
  {
    if s == [] then []
    else
      var n := |s| - 1;
      var prefix := SortByScore(s[..n]);
      InsertSorted(s[n], prefix);
      assert s == s[..n] + [s[n]];
      var r := Insert(s[n], prefix);
      assert |r| == |multiset(r)|;
      r
  }

  /** Ranking loses no element. */
  lemma RankedKeeps(s: seq<Scored>, x: Scored)
    requires x in s
    ensures x in SortByScore(s)
  {
    assert x in multiset(SortByScore(s));
  }

  /** In a ranking sorted by descending score, the head scores at least as much as any element. */
  lemma HeadIsBest(s: seq<Scored>)
    requires SortedDesc(s) && |s| > 0
    ensures forall y :: y in s ==> s[0].score >= y.score
  {
    forall y | y in s
      ensures s[0].score >= y.score
    {
      var j :| 0 <= j < |s| && s[j] == y;
      if j > 0 {
        assert s[0].score >= s[j].score;
      }
    }
  }

  /** The elements scoring within `slack` of the best, in their order (`scoredMoves.filter(m => m.score >= bestScore - 5)`). */
  function Within(s: seq<Scored>, best: int, slack: int): (r: seq<Scored>)
    ensures forall x :: x in r <==> x in s && x.score >= best - slack
    ensures |r| <= |s|
  {
    if s == [] then []
    else
      var n := |s| - 1;
      assert s == s[..n] + [s[n]];
      Within(s[..n], best, slack) + (if s[n].score >= best - slack then [s[n]] else [])
  }

  /** The filter drops nothing when every element qualifies. */
  lemma {:induction false} WithinKeepsAll(s: seq<Scored>, best: int, slack: int)
    requires forall i :: 0 <= i < |s| ==> s[i].score >= best - slack
    ensures Within(s, best, slack) == s
  {
    if s != [] {
      var n := |s| - 1;
      assert s == s[..n] + [s[n]];
      WithinKeepsAll(s[..n], best, slack);
    }
  }

  /** A prefix of a descending sequence is descending. */
  lemma SortedPrefix(s: seq<Scored>, n: nat)
    requires SortedDesc(s) && n <= |s|
    ensures SortedDesc(s[..n])
  {
    forall i, j | 0 <= i < j < n
      ensures s[..n][i].score >= s[..n][j].score
    {
      assert s[..n][i] == s[i] && s[..n][j] == s[j];
    }
  }

  /** On a descending sequence the filter keeps a leading run: order is kept and nothing is skipped. */
  lemma {:induction false} WithinLeads(s: seq<Scored>, best: int, slack: int)
    requires SortedDesc(s)
    ensures Within(s, best, slack) == s[..|Within(s, best, slack)|]
  {
    if s != [] {
      var n := |s| - 1;
      var w := Within(s[..n], best, slack);
      if s[n].score >= best - slack {
        assert Within(s, best, slack) == w + [s[n]];
        forall i | 0 <= i < n
          ensures s[..n][i].score >= best - slack
        {
          assert s[i].score >= s[n].score;
        }
        WithinKeepsAll(s[..n], best, slack);
        assert w + [s[n]] == s;
      } else {
        assert Within(s, best, slack) == w;
        SortedPrefix(s, n);
        WithinLeads(s[..n], best, slack);
        assert s[..n][..|w|] == s[..|w|];
      }
    }
  }
}
