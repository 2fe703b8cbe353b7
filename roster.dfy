/**
 * Operations on a room's ordered player list: lookup by connection handle,
 * the per-question reset of the answered flags, the "everyone answered"
 * test and removal of a departed connection.
 */
module Roster {
  import opened Wrappers
  import opened RoomModel

  /** Some entry of the list belongs to connection `sid`. */
  predicate HasSocket(ps: seq<Player>, sid: string) {
    exists i | 0 <= i < |ps| :: ps[i].socketId == sid
  }

  /** The position of the first entry of connection `sid`, if there is one. */
  function PlayerIndex(ps: seq<Player>, sid: string): (r: Option<nat>)
    ensures r.Some? <==> HasSocket(ps, sid)
    ensures r.Some? ==> r.value < |ps| && ps[r.value].socketId == sid
    ensures r.Some? ==> forall k | 0 <= k < r.value :: ps[k].socketId != sid
  {
    if ps == [] then None
    else if ps[0].socketId == sid then Some(0)
    else
      match PlayerIndex(ps[1..], sid)
      case None =>
        assert forall k | 1 <= k < |ps| :: ps[k] == ps[1..][k - 1];
        None
      case Some(k) => Some(k + 1)
  }

  /** In a list without duplicate handles, the entry found is the only entry of that handle. */
  lemma PlayerIndexUnique(ps: seq<Player>, k: nat)
    requires UniqueSockets(ps)
    requires k < |ps|
    ensures PlayerIndex(ps, ps[k].socketId) == Some(k)
  {
    assert HasSocket(ps, ps[k].socketId);
  }

  /** The player list with every answered flag cleared and nothing else changed. */
  function Unanswered(ps: seq<Player>): (qs: seq<Player>) {
    seq(|ps|, i requires 0 <= i < |ps| => ps[i].(answered := false))
  }

  /** The reset run on the player list at the start of every question. */
  method ResetAnswers(ps: seq<Player>) returns (qs: seq<Player>)
    ensures qs == Unanswered(ps)
  {
    qs := ps;
    var i := 0;
    while i < |qs|
      invariant 0 <= i <= |qs| == |ps|
      invariant forall k | 0 <= k < i :: qs[k] == ps[k].(answered := false)
      invariant forall k | i <= k < |qs| :: qs[k] == ps[k]
    {
      qs := qs[i := qs[i].(answered := false)];
      i := i + 1;
    }
  }

  /** The early-reveal condition: at least one player, and every player has answered. */
  predicate AllAnswered(ps: seq<Player>) {
    |ps| > 0 && forall i | 0 <= i < |ps| :: ps[i].answered
  }

  /** The player list without the entries of connection `sid`. */
  function RemoveSocket(ps: seq<Player>, sid: string): (qs: seq<Player>)
    ensures |qs| <= |ps|
    ensures forall p :: p in qs <==> p in ps && p.socketId != sid
    ensures !HasSocket(qs, sid)
  {
    if ps == [] then []
    else if ps[0].socketId == sid then RemoveSocket(ps[1..], sid)
    else [ps[0]] + RemoveSocket(ps[1..], sid)
  }

  /** Removing a handle that has no entry leaves the list as it was. */
  lemma {:induction false} RemoveAbsentSocket(ps: seq<Player>, sid: string)
    requires !HasSocket(ps, sid)
    ensures RemoveSocket(ps, sid) == ps
  {
    if ps != [] {
      assert ps[0].socketId != sid;
      assert !HasSocket(ps[1..], sid) by {
        forall k | 0 <= k < |ps[1..]| ensures ps[1..][k].socketId != sid {
          assert ps[1..][k] == ps[k + 1];
        }
      }
      RemoveAbsentSocket(ps[1..], sid);
      assert [ps[0]] + ps[1..] == ps;
    }
  }

  /** Without duplicate handles, the tail has none either and lacks the head's handle. */
  lemma UniqueTail(ps: seq<Player>)
    requires UniqueSockets(ps) && ps != []
    ensures UniqueSockets(ps[1..]) && !HasSocket(ps[1..], ps[0].socketId)
  {
    var rest := ps[1..];
    forall j | 0 <= j < |rest| ensures rest[j].socketId != ps[0].socketId {
      assert rest[j] == ps[j + 1];
    }
    forall i, j | 0 <= i < j < |rest| ensures rest[i].socketId != rest[j].socketId {
      assert rest[i] == ps[i + 1] && rest[j] == ps[j + 1];
    }
  }

  /**
   * In a list without duplicate handles, removing the handle of entry `k`
   * drops exactly that entry and keeps every other entry, in order.
   */
  lemma {:induction false} RemoveSocketAt(ps: seq<Player>, k: nat)
    requires UniqueSockets(ps)
    requires k < |ps|
    ensures RemoveSocket(ps, ps[k].socketId) == ps[..k] + ps[k + 1..]
  {
    var sid := ps[k].socketId;
    var rest := ps[1..];
    UniqueTail(ps);
    if k == 0 {
      RemoveAbsentSocket(rest, sid);
      assert ps[..0] + ps[1..] == rest;
    } else {
      assert rest[k - 1] == ps[k];
      RemoveSocketAt(rest, k - 1);
      calc {
        RemoveSocket(ps, sid);
        [ps[0]] + RemoveSocket(rest, sid);
        [ps[0]] + (rest[..k - 1] + rest[k..]);
        { SpliceCons(ps, k); }
        ps[..k] + ps[k + 1..];
      }
    }
  }

  /** Putting the head back in front of the tail without one element is the list without that element. */
  lemma SpliceCons<T>(ps: seq<T>, k: nat)
    requires 0 < k < |ps|
    ensures [ps[0]] + (ps[1..][..k - 1] + ps[1..][k..]) == ps[..k] + ps[k + 1..]
  {
    assert ps[1..][..k - 1] == ps[1..k] && ps[1..][k..] == ps[k + 1..];
    assert [ps[0]] + ps[1..k] == ps[..k];
  }

  /** Dropping one entry of a list without duplicate handles leaves none. */
  lemma UniqueWithout(ps: seq<Player>, k: nat)
    requires UniqueSockets(ps) && k < |ps|
    ensures UniqueSockets(ps[..k] + ps[k + 1..])
  {
    var qs := ps[..k] + ps[k + 1..];
    forall i, j | 0 <= i < j < |qs| ensures qs[i].socketId != qs[j].socketId {
      var i' := if i < k then i else i + 1;
      var j' := if j < k then j else j + 1;
      assert qs[i] == ps[i'] && qs[j] == ps[j'];
    }
  }

  /** Removing a handle keeps the list free of duplicate handles. */
  lemma {:induction false} RemoveSocketKeepsUnique(ps: seq<Player>, sid: string)
    requires UniqueSockets(ps)
    ensures UniqueSockets(RemoveSocket(ps, sid))
  {
    if HasSocket(ps, sid) {
      var k := PlayerIndex(ps, sid).value;
      RemoveSocketAt(ps, k);
      UniqueWithout(ps, k);
    } else {
      RemoveAbsentSocket(ps, sid);
    }
  }

  /** Nobody present in both lists has fewer points in `after` than in `before`. */
  predicate NoScoreLost(before: seq<Player>, after: seq<Player>) {
    forall i, j | 0 <= i < |before| && 0 <= j < |after| && before[i].socketId == after[j].socketId ::
      before[i].score <= after[j].score
  }
}
