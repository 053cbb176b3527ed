/** The ranked board: highest score first, equal scores by name. */
module Ranking {

  type Scores = map<string, int>

  datatype Entry = Entry(rank: int, username: string, points: int)

  /** Names compare character by character, a proper prefix first. */
  predicate NameLess(a: string, b: string) {
    if b == [] then false
    else if a == [] then true
    else a[0] < b[0] || (a[0] == b[0] && NameLess(a[1..], b[1..]))
  }

  lemma {:induction false} NameTrichotomy(a: string, b: string)
    ensures a != b ==> (NameLess(a, b) <==> !NameLess(b, a))
    ensures !NameLess(a, a)
  {
    if a != [] && b != [] {
      NameTrichotomy(a[1..], b[1..]);
      if a[0] == b[0] && a[1..] == b[1..] {
        assert a == [a[0]] + a[1..] == b;
      }
    }
    if a != [] {
      NameTrichotomy(a[1..], a[1..]);
    }
  }

  /** One name comes before another exactly when, where they first differ, it has the
      lesser character or has ended. */
  lemma {:induction false} NameLessFirst(a: string, b: string)
    ensures NameLess(a, b) <==>
      exists k :: 0 <= k <= |a| && k < |b| && a[..k] == b[..k] && (k == |a| || a[k] < b[k])
  {
    if b == [] {
    } else if a == [] {
      assert a[..0] == b[..0];
    } else if a[0] != b[0] {
      assert a[..0] == b[..0];
      forall k | 0 < k <= |a| && k < |b|
        ensures a[..k] != b[..k]
      {
        assert a[..k][0] != b[..k][0];
      }
    } else {
      NameLessFirst(a[1..], b[1..]);
      if NameLess(a[1..], b[1..]) {
        var k :| 0 <= k <= |a[1..]| && k < |b[1..]| && a[1..][..k] == b[1..][..k]
                 && (k == |a[1..]| || a[1..][k] < b[1..][k]);
        assert a[..k + 1] == [a[0]] + a[1..][..k] && b[..k + 1] == [b[0]] + b[1..][..k];
      }
      if k :| 0 <= k <= |a| && k < |b| && a[..k] == b[..k] && (k == |a| || a[k] < b[k]) {
        assert k > 0;
        assert a[1..][..k - 1] == a[..k][1..] && b[1..][..k - 1] == b[..k][1..];
      }
    }
  }

  lemma {:induction false} NameTransitive(a: string, b: string, c: string)
    requires NameLess(a, b) && NameLess(b, c)
    ensures NameLess(a, c)
  {
    if a != [] && a[0] == b[0] == c[0] {
      NameTransitive(a[1..], b[1..], c[1..]);
    }
  }

  /** User `a` belongs before user `b`. */
  predicate Outranks(scores: Scores, a: string, b: string)
    requires a in scores && b in scores
  {
    scores[a] > scores[b] || (scores[a] == scores[b] && NameLess(a, b))
  }

  lemma OutranksTotal(scores: Scores, a: string, b: string)
    requires a in scores && b in scores && a != b
    ensures Outranks(scores, a, b) <==> !Outranks(scores, b, a)
  {
    NameTrichotomy(a, b);
  }

  lemma OutranksTransitive(scores: Scores, a: string, b: string, c: string)
    requires a in scores && b in scores && c in scores
    requires Outranks(scores, a, b) && Outranks(scores, b, c)
    ensures Outranks(scores, a, c)
  {
    if scores[a] == scores[b] == scores[c] {
      NameTransitive(a, b, c);
    }
  }

  function Names(board: seq<Entry>): set<string> {
    set i | 0 <= i < |board| :: board[i].username
  }

  /** What a board of size n must be: as many users as asked for or as there are,
      numbered from 1, each with their own score, in strict order, and no user left
      out who outranks one that is in. */
  ghost predicate IsBoard(scores: Scores, n: int, board: seq<Entry>) {
    && |board| == (if n < 0 then 0 else if n < |scores| then n else |scores|)
    && (forall i :: 0 <= i < |board| ==>
          board[i].rank == i + 1 && board[i].username in scores && board[i].points == scores[board[i].username])
    && (forall i, j :: 0 <= i < j < |board| ==> Outranks(scores, board[i].username, board[j].username))
    && (forall i, u :: 0 <= i < |board| && u in scores && u !in Names(board) ==> Outranks(scores, board[i].username, u))
  }

  /** There is only one such board, so whatever order a map is walked in, the result
      is the same. */
  lemma BoardUnique(scores: Scores, n: int, a: seq<Entry>, b: seq<Entry>)
    requires IsBoard(scores, n, a) && IsBoard(scores, n, b)
    ensures a == b
  {
    var i := 0;
    while i < |a|
      invariant 0 <= i <= |a|
      invariant a[..i] == b[..i]
    {
      SameAt(scores, n, a, b, i);
      assert a[i] == b[i];
      i := i + 1;
    }
  }

  lemma SameAt(scores: Scores, n: int, a: seq<Entry>, b: seq<Entry>, i: nat)
    requires IsBoard(scores, n, a) && IsBoard(scores, n, b)
    requires i < |a| && a[..i] == b[..i]
    ensures a[i].username == b[i].username
  {
    var x, y := a[i].username, b[i].username;
    if x != y {
      Above(scores, n, a, b, i);
      Above(scores, n, b, a, i);
      OutranksTotal(scores, x, y);
    }
  }

  /** With equal beginnings, the next user of one board outranks the other's. */
  lemma Above(scores: Scores, n: int, a: seq<Entry>, b: seq<Entry>, i: nat)
    requires IsBoard(scores, n, a) && IsBoard(scores, n, b)
    requires i < |a| && a[..i] == b[..i] && a[i].username != b[i].username
    ensures Outranks(scores, a[i].username, b[i].username)
  {
    var y := b[i].username;
    if y in Names(a) {
      var j :| 0 <= j < |a| && a[j].username == y;
      if j < i {
        assert a[..i][j] == b[..i][j];
        NameTrichotomy(y, y);
        assert false;
      }
    }
  }

  lemma RemoveOne(m: Scores, k: string)
    requires k in m
    ensures |m - {k}| == |m| - 1
  {
    assert (m - {k}).Keys == m.Keys - {k};
  }

  const DEFAULT_TOP_N := 10
  const MAX_TOP_N := 100

  /** The in-memory leaderboard. */
  class LeaderboardStore {
    var points: Scores

    constructor ()
      ensures points == map[]
    {
      points := map[];
    }

    method SetPoints(username: string, score: int)
      modifies this
      ensures points == old(points)[username := score]
    {
      points := points[username := score];
    }

    /** Record many scores, in whatever order the map is walked. */
    method SetMany(scores: Scores)
      modifies this
      ensures points == old(points) + scores
    {
      var left := scores.Keys;
      while left != {}
        invariant left <= scores.Keys
        invariant points == old(points) + (scores - left)
        decreases left
      {
        var u :| u in left;
        points := points[u := scores[u]];
        left := left - {u};
      }
    }

    /** Selection sort over a map: n times, walk what remains for its best. */
    method Top(n: int) returns (board: seq<Entry>)
      ensures IsBoard(points, n, board)
    {
      hide Selected, Champion, IsBoard, Outranks;
      var remaining := points;
      board := [];
      var rank := 1;
      NothingSelected(points);
      while rank <= n && |remaining| > 0
        invariant rank == |board| + 1
        invariant |board| == 0 || |board| <= n
        invariant Selected(points, board, remaining)
        decreases |remaining|
      {
        var bestName, bestScore, first := "", 0, true;
        var unseen := remaining.Keys;
        while unseen != {}
          invariant unseen <= remaining.Keys
          invariant first <==> unseen == remaining.Keys
          invariant !first ==> Champion(points, remaining, unseen, bestName)
          invariant !first ==> bestName in remaining && bestScore == remaining[bestName]
          decreases unseen
        {
          var name :| name in unseen;
          var score := remaining[name];
          Contest(points, board, remaining, unseen, bestName, name, first);
          if first || score > bestScore || (score == bestScore && NameLess(name, bestName)) {
            bestName, bestScore, first := name, score, false;
          }
          unseen := unseen - {name};
        }
        SelectedStep(points, board, remaining, bestName);
        board := board + [Entry(rank, bestName, bestScore)];
        remaining := remaining - {bestName};
        rank := rank + 1;
      }
      SelectedAll(points, n, board, remaining);
    }
  }

  /** The board so far: the best users in order, `remaining` being all the others. */
  ghost predicate Selected(points: Scores, board: seq<Entry>, remaining: Scores) {
    && |board| + |remaining| == |points|
    && Names(board) + remaining.Keys == points.Keys && Names(board) !! remaining.Keys
    && (forall u :: u in remaining ==> remaining[u] == points[u])
    && (forall i :: 0 <= i < |board| ==>
          board[i].rank == i + 1 && board[i].username in points && board[i].points == points[board[i].username])
    && (forall i, j :: 0 <= i < j < |board| ==> Outranks(points, board[i].username, board[j].username))
    && (forall i, u :: 0 <= i < |board| && u in remaining ==> Outranks(points, board[i].username, u))
  }

  /** The best user among those already walked past. */
  ghost predicate Champion(points: Scores, remaining: Scores, unseen: set<string>, best: string) {
    && remaining.Keys <= points.Keys
    && best in remaining && best !in unseen
    && (forall u :: u in remaining && u !in unseen && u != best ==> Outranks(points, best, u))
  }

  lemma NothingSelected(points: Scores)
    ensures Selected(points, [], points)
  {
  }

  lemma SelectedStep(points: Scores, board: seq<Entry>, remaining: Scores, best: string)
    requires Selected(points, board, remaining) && Champion(points, remaining, {}, best)
    ensures best in remaining
    ensures Selected(points, board + [Entry(|board| + 1, best, remaining[best])], remaining - {best})
  {
    hide Names, Outranks;
    var e := Entry(|board| + 1, best, remaining[best]);
    RemoveOne(remaining, best);
    NamesSnoc(board, e);
    assert forall i :: 0 <= i < |board| ==> (board + [e])[i] == board[i];
  }

  lemma NamesSnoc(board: seq<Entry>, e: Entry)
    ensures Names(board + [e]) == Names(board) + {e.username}
  {
    var next := board + [e];
    forall u | u in Names(board) + {e.username}
      ensures u in Names(next)
    {
      var i :| 0 <= i <= |board| && next[i].username == u by {
        if u == e.username {
          assert next[|board|].username == u;
        } else {
          var k :| 0 <= k < |board| && board[k].username == u;
          assert next[k].username == u;
        }
      }
    }
  }

  lemma SelectedAll(points: Scores, n: int, board: seq<Entry>, remaining: Scores)
    requires Selected(points, board, remaining) && (|board| == 0 || |board| <= n)
    requires n <= |board| || |remaining| == 0
    ensures IsBoard(points, n, board)
  {
  }

  /** A newcomer either loses to the best so far or beats all that it beat. */
  lemma Contest(points: Scores, board: seq<Entry>, remaining: Scores, unseen: set<string>,
                best: string, name: string, first: bool)
    requires Selected(points, board, remaining)
    requires unseen <= remaining.Keys && name in unseen
    requires first ==> unseen == remaining.Keys
    requires !first ==> Champion(points, remaining, unseen, best)
    ensures first ==> Champion(points, remaining, unseen - {name}, name)
    ensures !first ==> best in remaining
    ensures !first ==>
      var score, bestScore := remaining[name], remaining[best];
      Champion(points, remaining, unseen - {name},
               if score > bestScore || (score == bestScore && NameLess(name, best)) then name else best)
  {
    if !first {
      OutranksTotal(points, name, best);
      if Outranks(points, name, best) {
        forall u | u in remaining && u !in unseen && u != best
          ensures Outranks(points, name, u)
        {
          OutranksTransitive(points, name, best, u);
        }
      }
    }
  }

  /** The size that a request for n entries gets. */
  function Clamped(n: int): int {
    if 1 <= n <= 100 then n else 10
  }

  function Least(a: int, b: int): int {
    if a <= b then a else b
  }

  /** The service's Top: the board of the clamped size. */
  method Top(store: LeaderboardStore, n: int) returns (board: seq<Entry>)
    ensures IsBoard(store.points, Clamped(n), board)
    ensures |board| == Least(|store.points|, if 1 <= n <= 100 then n else 10)
  {
    var size := n;
    if size <= 0 || size > MAX_TOP_N {
      size := DEFAULT_TOP_N;
    }
    board := store.Top(size);
  }
}
