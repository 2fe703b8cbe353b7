/**
 * What the server shows of a room: the leaderboard (players by score,
 * highest first, ties in player-list order) and the room snapshot sent on
 * every room update.
 */
module Standings {
  import opened RoomModel

  /** A leaderboard line: a player's name and score. */
  datatype Entry = Entry(name: string, score: nat)

  /** A room as broadcast to its members: no handles, no answered flags. */
  datatype RoomView = RoomView(code: string, status: Status, questionIndex: int, players: seq<Entry>)

  /** The players' (name, score) pairs, in player-list order. */
  function Entries(ps: seq<Player>): (es: seq<Entry>) {
    seq(|ps|, i requires 0 <= i < |ps| => Entry(ps[i].name, ps[i].score))
  }

  /** Scores never increase along the list. */
  predicate Ordered(es: seq<Entry>) {
    forall i, j | 0 <= i < j < |es| :: es[i].score >= es[j].score
  }

  /** The entries with score `k`, in their order in `es`. */
  function WithScore(es: seq<Entry>, k: nat): (tied: seq<Entry>) {
    if es == [] then []
    else (if es[0].score == k then [es[0]] else []) + WithScore(es[1..], k)
  }

  /** Places `e` before the first entry whose score is not higher than its own. */
  function Insert(e: Entry, es: seq<Entry>): (placed: seq<Entry>) {
    if es == [] || es[0].score <= e.score then [e] + es
    else [es[0]] + Insert(e, es[1..])
  }

  /** A stable sort by descending score (insertion sort). */
  function SortByScore(es: seq<Entry>): (sorted: seq<Entry>) {
    if es == [] then [] else Insert(es[0], SortByScore(es[1..]))
  }

  /** The leaderboard of a player list. */
  function Leaderboard(ps: seq<Player>): (board: seq<Entry>) {
    SortByScore(Entries(ps))
  }

  /** The room snapshot broadcast on a room update. */
  function SanitizeRoom(r: Room): (view: RoomView) {
    RoomView(r.code, r.status, r.questionIndex, Entries(r.players))
  }

  lemma {:induction false} InsertPermutes(e: Entry, es: seq<Entry>)
    ensures multiset(Insert(e, es)) == multiset(es) + multiset{e}
  {
    if es != [] && es[0].score > e.score {
      InsertPermutes(e, es[1..]);
      assert es == [es[0]] + es[1..];
    }
  }

  /** An entry scoring at least the head of an ordered list may go in front of it. */
  lemma OrderedCons(x: Entry, es: seq<Entry>)
    requires Ordered(es)
    requires es != [] ==> x.score >= es[0].score
    ensures Ordered([x] + es)
  {
    var r := [x] + es;
    forall i, j | 0 <= i < j < |r| ensures r[i].score >= r[j].score {
      if i == 0 {
        assert r[j] == es[j - 1];
      } else {
        assert r[i] == es[i - 1] && r[j] == es[j - 1];
      }
    }
  }

  lemma {:induction false} InsertOrdered(e: Entry, es: seq<Entry>)
    requires Ordered(es)
    ensures Ordered(Insert(e, es))
    ensures |Insert(e, es)| == |es| + 1
    ensures Insert(e, es)[0] == e || (es != [] && Insert(e, es)[0] == es[0])
  {
    if es != [] && es[0].score > e.score {
      var tail := es[1..];
      assert Ordered(tail) by {
        forall i, j | 0 <= i < j < |tail| ensures tail[i].score >= tail[j].score {
          assert tail[i] == es[i + 1] && tail[j] == es[j + 1];
        }
      }
      InsertOrdered(e, tail);
      var rest := Insert(e, tail);
      assert tail != [] ==> tail[0] == es[1];
      OrderedCons(es[0], rest);
    } else {
      OrderedCons(e, es);
    }
  }

  lemma WithScoreCons(x: Entry, es: seq<Entry>, k: nat)
    ensures WithScore([x] + es, k) == (if x.score == k then [x] else []) + WithScore(es, k)
  {
    assert ([x] + es)[0] == x && ([x] + es)[1..] == es;
  }

  lemma {:induction false} InsertWithScore(e: Entry, es: seq<Entry>, k: nat)
    requires Ordered(es)
    ensures WithScore(Insert(e, es), k) == (if e.score == k then [e] else []) + WithScore(es, k)
  {
    if es == [] || es[0].score <= e.score {
      WithScoreCons(e, es, k);
    } else {
      var rest := Insert(e, es[1..]);
      assert Ordered(es[1..]) by {
        forall i, j | 0 <= i < j < |es[1..]| ensures es[1..][i].score >= es[1..][j].score {
          assert es[1..][i] == es[i + 1] && es[1..][j] == es[j + 1];
        }
      }
      InsertWithScore(e, es[1..], k);
      WithScoreCons(es[0], rest, k);
      WithScoreCons(es[0], es[1..], k);
      assert [es[0]] + es[1..] == es;
      if e.score == k {
        assert es[0].score != k;
      }
    }
  }

  /** The leaderboard order: scores never increase from one line to the next. */
  lemma {:induction false} SortByScoreOrdered(es: seq<Entry>)
    ensures Ordered(SortByScore(es))
  {
    if es != [] {
      SortByScoreOrdered(es[1..]);
      InsertOrdered(es[0], SortByScore(es[1..]));
    }
  }

  /** The leaderboard holds exactly the entries it was given, each as often. */
  lemma {:induction false} SortByScorePermutes(es: seq<Entry>)
    ensures multiset(SortByScore(es)) == multiset(es)
  {
    if es != [] {
      SortByScorePermutes(es[1..]);
      InsertPermutes(es[0], SortByScore(es[1..]));
      assert es == [es[0]] + es[1..];
    }
  }

  /** Stability: for every score, the entries with that score keep their input order. */
  lemma {:induction false} SortByScoreStable(es: seq<Entry>, k: nat)
    ensures WithScore(SortByScore(es), k) == WithScore(es, k)
  {
    if es != [] {
      SortByScoreStable(es[1..], k);
      SortByScoreOrdered(es[1..]);
      InsertWithScore(es[0], SortByScore(es[1..]), k);
    }
  }

  /**
   * The snapshot and the leaderboard show the same lines, each as often:
   * the snapshot in player-list order, the leaderboard by score.
   */
  lemma SnapshotMatchesLeaderboard(r: Room)
    ensures multiset(SanitizeRoom(r).players) == multiset(Leaderboard(r.players))
  {
    SortByScorePermutes(Entries(r.players));
  }
}
