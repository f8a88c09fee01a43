/**
 * The player ranking panel (src/components/PlayersList.tsx): a sorted copy of
 * the players by score, highest first, with rank badges on the first three
 * rows and a crown on the first row unless that player is drawing.
 *
 * `Array.prototype.sort` is stable, so players with equal scores keep their
 * order; the sort here is a stable insertion sort with that behaviour.
 */
module PlayersList {
  import Json

  datatype Player = Player(id: string, username: string, avatar: string, score: int, isDrawing: bool)

  /** Non-increasing by score. */
  predicate SortedByScore(ps: seq<Player>) {
    forall i, j :: 0 <= i < j < |ps| ==> ps[i].score >= ps[j].score
  }

  /** The players with a given score, in their order. */
  function WithScore(ps: seq<Player>, v: int): seq<Player> {
    if ps == [] then []
    else (if ps[0].score == v then [ps[0]] else []) + WithScore(ps[1..], v)
  }

  /** Places `p` before the first player that does not outscore it. */
  function Insert(p: Player, ps: seq<Player>): (r: seq<Player>)
    ensures multiset(r) == multiset(ps) + multiset{p}
    ensures |r| == |ps| + 1
    ensures r[0] == p || (ps != [] && r[0] == ps[0])
  {
    if ps == [] || ps[0].score <= p.score then [p] + ps
    else
      assert ps == [ps[0]] + ps[1..];
      var rest := Insert(p, ps[1..]);
      [ps[0]] + rest
  }

  lemma {:induction false} InsertSorted(p: Player, ps: seq<Player>)
    requires SortedByScore(ps)
    ensures SortedByScore(Insert(p, ps))
    decreases |ps|
  {
    if ps != [] && ps[0].score > p.score {
      InsertSorted(p, ps[1..]);
      var rest := Insert(p, ps[1..]);
      assert rest[0].score <= ps[0].score;
      var r := [ps[0]] + rest;
      forall i, j | 0 <= i < j < |r| ensures r[i].score >= r[j].score {
        if i == 0 {
          assert r[j] == rest[j - 1];
          assert rest[0].score >= rest[j - 1].score;
        } else {
          assert r[i] == rest[i - 1] && r[j] == rest[j - 1];
        }
      }
    }
  }

  /** `[...players].sort((a, b) => b.score - a.score)`. */
  function Sorted(ps: seq<Player>): (r: seq<Player>)
    ensures multiset(r) == multiset(ps)
    ensures SortedByScore(r)
  {
    if ps == [] then []
    else
      assert ps == [ps[0]] + ps[1..];
      InsertSorted(ps[0], Sorted(ps[1..]));
      Insert(ps[0], Sorted(ps[1..]))
  }

  lemma {:induction false} InsertKeepsTies(p: Player, ps: seq<Player>, v: int)
    ensures WithScore(Insert(p, ps), v) == if p.score == v then [p] + WithScore(ps, v) else WithScore(ps, v)
    decreases |ps|
  {
    if ps == [] || ps[0].score <= p.score {
      assert ([p] + ps)[1..] == ps;
    } else {
      InsertKeepsTies(p, ps[1..], v);
      var r := [ps[0]] + Insert(p, ps[1..]);
      assert r[1..] == Insert(p, ps[1..]);
    }
  }

  /** Stability: for every score, the players holding it appear in the same order before and after sorting. */
  lemma {:induction false} SortIsStable(ps: seq<Player>, v: int)
    ensures WithScore(Sorted(ps), v) == WithScore(ps, v)
    decreases |ps|
  {
    if ps != [] {
      SortIsStable(ps[1..], v);
      InsertKeepsTies(ps[0], Sorted(ps[1..]), v);
    }
  }

  /** Every player sorted ahead of another has at least its score, and the top row has the best score of all. */
  lemma TopRowHasBestScore(ps: seq<Player>)
    requires ps != []
    ensures forall p :: p in ps ==> Sorted(ps)[0].score >= p.score
  {
    var r := Sorted(ps);
    forall p | p in ps ensures r[0].score >= p.score {
      assert p in multiset(ps);
      assert p in multiset(r);
      var j :| 0 <= j < |r| && r[j] == p;
    }
  }

  /** The rank badge of a row: `#1`, `#2`, `#3` on the first three rows, none below. */
  function RankBadge(index: nat): (b: string)
    ensures b != "" <==> index < 3
    ensures index < 3 ==> b == ["#1", "#2", "#3"][index]
  {
    if index < 3 then "#" + Json.Digits(index + 1) else ""
  }

  /** The crown: first row, and that player is not the one drawing. */
  predicate ShowsCrown(sorted: seq<Player>, index: nat)
    requires index < |sorted|
  {
    index == 0 && !sorted[index].isDrawing
  }

  /** At most one crown, on a top scorer, and none at all when the top player is drawing. */
  lemma CrownOnlyOnTopScorer(ps: seq<Player>, index: nat)
    requires index < |Sorted(ps)|
    ensures ShowsCrown(Sorted(ps), index) ==> index == 0 && forall p :: p in ps ==> Sorted(ps)[index].score >= p.score
    ensures Sorted(ps)[0].isDrawing ==> !ShowsCrown(Sorted(ps), index)
  {
    if ShowsCrown(Sorted(ps), index) {
      TopRowHasBestScore(ps);
    }
  }
}
