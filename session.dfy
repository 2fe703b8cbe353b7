/**
 * The per-room quiz state machine, as functions from a room to the room
 * after each step, the invariant every reachable room keeps, and the
 * lemmas that each step keeps it. The server's handlers apply these steps
 * to the stored rooms.
 */
module Session {
  import opened Wrappers
  import opened RoomModel
  import opened Roster
  import opened Standings

  /** One quiz item: the prompt, the choices and the index of the right choice. */
  datatype QuizItem = QuizItem(prompt: string, choices: seq<string>, answer: int)

  /** A room code: four characters from the alphabet 1234567890. */
  predicate IsCode(s: string) {
    |s| == 4 && forall i | 0 <= i < |s| :: '0' <= s[i] <= '9'
  }

  /** The room takes answers to its current question. */
  predicate Collecting(r: Room) {
    r.acceptingAnswers && r.status == Question
  }

  /** How many questions player `p` of room `r` has had the chance to score on so far. */
  function Chances(r: Room, p: Player): (chances: int) {
    match r.status
    case Lobby => 0
    case Question => r.questionIndex + (if p.answered then 1 else 0)
    case Reveal => r.questionIndex + 1
    case Over => r.questionIndex
  }

  /**
   * The invariant of a room of a quiz with `n` questions: answers are taken
   * exactly while a question is shown; the question index is -1 in the
   * lobby, names a quiz item while a question is shown or revealed, and is
   * `n` once the game is over; no connection has two entries; and nobody
   * has more points than questions they could have scored on.
   */
  predicate WellFormed(r: Room, n: nat) {
    && (r.acceptingAnswers <==> r.status == Question)
    && (r.status == Lobby ==> r.questionIndex == -1)
    && (r.status == Question || r.status == Reveal ==> 0 <= r.questionIndex < n)
    && (r.status == Over ==> r.questionIndex == n)
    && UniqueSockets(r.players)
    && forall i | 0 <= i < |r.players| :: r.players[i].score <= Chances(r, r.players[i])
  }

  /** A join: a connection without an entry is appended with the player defaults. */
  function AfterJoin(r: Room, sid: string, name: string): (after: Room) {
    if HasSocket(r.players, sid) then r else r.(players := r.players + [NewPlayer(sid, name)])
  }

  /** Moving on: the next question with all answers reset, or game over after the last one. */
  function AfterAdvance(r: Room, n: nat): (after: Room) {
    var i := r.questionIndex + 1;
    if i >= n then r.(questionIndex := i, status := Over, acceptingAnswers := false)
    else r.(questionIndex := i, status := Question, acceptingAnswers := true, players := Unanswered(r.players))
  }

  /** A first answer of connection `sid`: marked answered, one point if `correct`. */
  function AfterAnswer(r: Room, sid: string, correct: bool): (after: Room) {
    match PlayerIndex(r.players, sid)
    case None => r
    case Some(k) =>
      var p := r.players[k];
      r.(players := r.players[k := p.(answered := true, score := p.score + if correct then 1 else 0)])
  }

  /** Ending a question: answers are closed and the right choice is shown. */
  function AfterReveal(r: Room): (after: Room) {
    r.(acceptingAnswers := false, status := Reveal)
  }

  /** A player's departure: its entries leave the list, nothing else changes. */
  function AfterLeave(r: Room, sid: string): (after: Room) {
    r.(players := RemoveSocket(r.players, sid))
  }

  /** A newly created room satisfies the invariant. */
  lemma NewRoomWellFormed(code: string, hostId: string, n: nat)
    ensures WellFormed(NewRoom(code, hostId), n)
    ensures !Collecting(NewRoom(code, hostId))
  {
  }

  /**
   * A join keeps the invariant and the phase, leaves exactly one entry for
   * the joining connection, appends a fresh entry (no points, not answered)
   * at the end when there was none, and changes no one's score.
   */
  lemma JoinStep(r: Room, sid: string, name: string, n: nat)
    requires WellFormed(r, n)
    ensures var r' := AfterJoin(r, sid, name);
      && WellFormed(r', n)
      && r'.status == r.status && r'.questionIndex == r.questionIndex
      && r'.acceptingAnswers == r.acceptingAnswers
      && HasSocket(r'.players, sid)
      && (HasSocket(r.players, sid) ==> r'.players == r.players)
      && (!HasSocket(r.players, sid) ==>
            && |r'.players| == |r.players| + 1
            && r'.players[..|r.players|] == r.players
            && r'.players[|r.players|] == Player(sid, name, 0, false))
      && NoScoreLost(r.players, r'.players)
  {
    var r' := AfterJoin(r, sid, name);
    if !HasSocket(r.players, sid) {
      var ps := r'.players;
      assert ps[|r.players|].socketId == sid;
      forall i, j | 0 <= i < j < |ps| ensures ps[i].socketId != ps[j].socketId {
        if j == |r.players| {
          assert ps[i] == r.players[i];
        }
      }
      assert r'.players[..|r.players|] == r.players;
    }
  }

  /**
   * Moving on from the lobby or a reveal keeps the invariant, advances the
   * index by one, ends the game exactly when the index reaches `n`, and
   * otherwise opens the next question with every answered flag cleared;
   * connections, names, order and scores of the players stay as they were.
   */
  lemma AdvanceStep(r: Room, n: nat)
    requires WellFormed(r, n)
    requires r.status == Lobby || r.status == Reveal
    ensures var r' := AfterAdvance(r, n);
      && WellFormed(r', n)
      && r'.questionIndex == r.questionIndex + 1
      && (r'.status == Over <==> r'.questionIndex == n)
      && (r'.status != Over ==> Collecting(r') && !AllAnswered(r'.players))
      && (r'.status != Over ==> forall i | 0 <= i < |r'.players| :: !r'.players[i].answered)
      && Entries(r'.players) == Entries(r.players)
      && (forall i | 0 <= i < |r.players| :: r'.players[i].socketId == r.players[i].socketId)
      && NoScoreLost(r.players, r'.players)
  {
    var r' := AfterAdvance(r, n);
    assert |r'.players| == |r.players|;
    assert forall i | 0 <= i < |r.players| ::
      r'.players[i].socketId == r.players[i].socketId && r'.players[i].score == r.players[i].score;
    assert Entries(r'.players) == Entries(r.players);
    if r'.status != Over && |r'.players| > 0 {
      assert !r'.players[0].answered;
    }
  }

  /**
   * A first answer keeps the invariant and the phase, marks exactly the
   * answering player, raises that player's score by one when the choice is
   * right and leaves it otherwise, and leaves every other entry unchanged.
   */
  lemma AnswerStep(r: Room, sid: string, correct: bool, n: nat)
    requires WellFormed(r, n) && Collecting(r)
    requires HasSocket(r.players, sid)
    requires !r.players[PlayerIndex(r.players, sid).value].answered
    ensures var r' := AfterAnswer(r, sid, correct); var k := PlayerIndex(r.players, sid).value;
      && WellFormed(r', n)
      && r'.status == r.status && r'.questionIndex == r.questionIndex
      && r'.acceptingAnswers == r.acceptingAnswers
      && |r'.players| == |r.players|
      && r'.players[k].answered
      && r'.players[k].score == r.players[k].score + (if correct then 1 else 0)
      && (forall j | 0 <= j < |r.players| && j != k :: r'.players[j] == r.players[j])
      && NoScoreLost(r.players, r'.players)
  {
    var k := PlayerIndex(r.players, sid).value;
    var r' := AfterAnswer(r, sid, correct);
    assert forall j | 0 <= j < |r.players| :: r'.players[j].socketId == r.players[j].socketId;
    assert r.players[k].score <= r.questionIndex;
  }

  /** A reveal keeps the invariant, closes answers and leaves the players untouched. */
  lemma RevealStep(r: Room, n: nat)
    requires WellFormed(r, n) && r.status == Question
    ensures WellFormed(AfterReveal(r), n)
    ensures AfterReveal(r).status == Reveal && !Collecting(AfterReveal(r))
    ensures AfterReveal(r).players == r.players
  {
  }

  /**
   * A departure keeps the invariant, the phase and the question; the
   * connection has no entry left; the entry it had is the only one removed
   * and the others keep their order and scores.
   */
  lemma LeaveStep(r: Room, sid: string, n: nat)
    requires WellFormed(r, n)
    ensures var r' := AfterLeave(r, sid);
      && WellFormed(r', n)
      && r'.status == r.status && r'.questionIndex == r.questionIndex
      && r'.acceptingAnswers == r.acceptingAnswers
      && !HasSocket(r'.players, sid)
      && (!HasSocket(r.players, sid) ==> r'.players == r.players)
      && (forall k | 0 <= k < |r.players| && r.players[k].socketId == sid ::
            r'.players == r.players[..k] + r.players[k + 1..])
      && NoScoreLost(r.players, r'.players)
  {
    var ps := r.players;
    var qs := RemoveSocket(ps, sid);
    RemoveSocketKeepsUnique(ps, sid);
    if HasSocket(ps, sid) {
      forall k | 0 <= k < |ps| && ps[k].socketId == sid ensures qs == ps[..k] + ps[k + 1..] {
        RemoveSocketAt(ps, k);
      }
    } else {
      RemoveAbsentSocket(ps, sid);
    }
    forall j | 0 <= j < |qs| ensures qs[j].score <= Chances(r, qs[j]) {
      assert qs[j] in ps;
    }
    forall i, j | 0 <= i < |ps| && 0 <= j < |qs| && ps[i].socketId == qs[j].socketId
      ensures ps[i].score <= qs[j].score
    {
      assert qs[j] in ps;
      var m :| 0 <= m < |ps| && ps[m] == qs[j];
    }
  }

  /**
   * The snapshot broadcast after a join: a newcomer's line (no points) is
   * added at the end; a repeated join shows the same snapshot again.
   */
  lemma SnapshotAfterJoin(r: Room, sid: string, name: string)
    ensures !HasSocket(r.players, sid) ==>
      SanitizeRoom(AfterJoin(r, sid, name)).players == SanitizeRoom(r).players + [Entry(name, 0)]
    ensures HasSocket(r.players, sid) ==> SanitizeRoom(AfterJoin(r, sid, name)) == SanitizeRoom(r)
  {
    if !HasSocket(r.players, sid) {
      var ps := r.players + [NewPlayer(sid, name)];
      assert forall i | 0 <= i < |r.players| :: ps[i] == r.players[i];
    }
  }

  /**
   * The snapshot broadcast after the departure of entry `k`'s connection:
   * exactly that entry's line is gone, the others keep their order.
   */
  lemma SnapshotAfterLeave(r: Room, k: nat)
    requires UniqueSockets(r.players) && k < |r.players|
    ensures var before := SanitizeRoom(r).players;
      SanitizeRoom(AfterLeave(r, r.players[k].socketId)).players == before[..k] + before[k + 1..]
  {
    RemoveSocketAt(r.players, k);
    var qs := r.players[..k] + r.players[k + 1..];
    var before := SanitizeRoom(r).players;
    assert forall i | 0 <= i < |qs| :: qs[i] == r.players[if i < k then i else i + 1];
    assert |Entries(qs)| == |before[..k] + before[k + 1..]|;
    forall i | 0 <= i < |qs|
      ensures Entries(qs)[i] == (before[..k] + before[k + 1..])[i]
    {
      if i < k {
        assert (before[..k] + before[k + 1..])[i] == before[i];
      } else {
        assert (before[..k] + before[k + 1..])[i] == before[i + 1];
      }
    }
  }

  /** Nobody ever holds more points than the quiz has questions. */
  lemma ScoreAtMostQuizLength(r: Room, n: nat)
    requires WellFormed(r, n)
    ensures forall i | 0 <= i < |r.players| :: r.players[i].score <= n
  {
  }
}
