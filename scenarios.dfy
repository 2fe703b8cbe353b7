/**
 * Runs of the server, one method per run. Most start from the empty server
 * and fix their connections, codes and answers; each contract states what
 * the players end up seeing.
 */
module Scenarios {
  import opened Wrappers
  import opened RoomModel
  import opened Roster
  import opened Session
  import opened QuizServer

  /** A one-question quiz whose right choice is the second one. */
  function OneQuestion(): (quiz: seq<QuizItem>) {
    [QuizItem("2 + 2 = ?", ["3", "4", "5"], 1)]
  }

  /** A single free draw is the code a room is created under. */
  lemma Drawn(code: Option<string>, draws: seq<string>, rooms: map<string, Room>)
    requires |draws| == 1 && draws[0] !in rooms
    requires code.None? <==> forall k | 0 <= k < |draws| :: draws[k] in rooms
    requires code.Some? ==> exists k | 0 <= k < |draws| :: draws[k] == code.value
    ensures code == Some(draws[0])
  {
  }

  /** A fresh server playing OneQuestion in which `host` has opened room 4821. */
  method Opened(host: string) returns (s: Server)
    ensures fresh(s) && s.Valid() && s.PausesTracked() && s.quiz == OneQuestion()
    ensures s.rooms == map["4821" := NewRoom("4821", host)]
    ensures s.questionTimers == {} && s.pauses == multiset{}
  {
    s := new Server(OneQuestion());
    var code := s.CreateRoom(host, ["4821"]);
    Drawn(code, ["4821"], map[]);
  }

  /** Ava's right answer to the first question of room 4821 gives her a point and completes the answers. */
  lemma AvaScores(r: Room)
    requires r.players == [Player("ava", "Ava", 0, false)]
    ensures AfterAnswer(r, "ava", true).players == [Player("ava", "Ava", 1, true)]
    ensures AllAnswered(AfterAnswer(r, "ava", true).players)
  {
    assert PlayerIndex(r.players, "ava") == Some(0);
  }

  /** Ava's entry before she has answered anything. */
  function Ava(): (p: Player) {
    Player("ava", "Ava", 0, false)
  }

  /** A fresh server in which room 4821 of `host` waits in its lobby with Ava in it. */
  method AvaWaiting() returns (s: Server)
    ensures fresh(s) && s.Valid() && s.quiz == OneQuestion()
    ensures s.rooms == map["4821" := NewRoom("4821", "host").(players := [Ava()])]
  {
    s := Opened("host");
    var joined := s.Join("ava", "4821", "Ava");
    assert AfterJoin(NewRoom("4821", "host"), "ava", "Ava") == NewRoom("4821", "host").(players := [Ava()]);
  }

  /** Room 4821 with Ava in it shows its first question. */
  method AvaAsked() returns (s: Server)
    ensures fresh(s) && s.Valid() && s.quiz == OneQuestion()
    ensures s.rooms == map["4821" := Room("4821", "host", Question, 0, true, [Ava()])]
  {
    s := AvaWaiting();
    s.Start("host", "4821");
    assert Unanswered([Ava()]) == [Ava()];
  }

  /**
   * A host opens room 4821, Ava joins, the host starts and Ava picks the
   * right choice: as every player has answered, the question is revealed at
   * once and Ava has one point.
   */
  method FirstRound() returns (status: Status, score: nat)
    ensures status == Reveal && score == 1
  {
    var s := AvaAsked();
    AvaScores(s.rooms["4821"]);
    var ack := s.Answer("ava", "4821", 1);
    status := s.rooms["4821"].status;
    score := s.rooms["4821"].players[0].score;
  }

  /**
   * Ava's right answer reveals the question at once, and then its question
   * timer goes off: of the two triggers only the first has an effect, so
   * exactly one reveal is broadcast and the room stays in its reveal.
   */
  method TimerAfterEarlyReveal() returns (log: seq<Event>, status: Status)
    ensures |log| == 1 && log[0].GameReveal? && log[0].correct == 1
    ensures status == Reveal
  {
    var s := AvaAsked();
    AvaScores(s.rooms["4821"]);
    var before := s.events;
    var ack := s.Answer("ava", "4821", 1);
    assert "4821" !in s.questionTimers;
    s.QuestionTimerFires("4821");
    log := s.events[|before|..];
    status := s.rooms["4821"].status;
  }

  /**
   * In any consistent server, a room showing its question is revealed by
   * whichever trigger comes first; the question timer and any further
   * reveal for the same question then broadcast nothing and change nothing.
   */
  method RevealOnce(s: Server, code: string)
    requires s.Valid() && code in s.rooms && s.rooms[code].status == Question
    modifies s
    ensures s.Valid()
    ensures s.rooms == old(s.rooms)[code := AfterReveal(old(s.rooms)[code])]
    ensures s.events == old(s.events) + [RevealEvent(code, old(s.rooms)[code], s.quiz)]
    ensures s.pauses == old(s.pauses) + multiset{code} && code !in s.questionTimers
  {
    s.RevealAndQueueNext(code);
    ghost var revealed := s.events;
    s.QuestionTimerFires(code);
    s.RevealAndQueueNext(code);
    assert s.events == revealed;
  }

  /**
   * A fresh server playing OneQuestion in which `host` has opened room 4821,
   * started it with nobody in it and let the question timer expire: the
   * room is in its reveal and its pause is pending.
   */
  method Revealed(host: string) returns (s: Server)
    ensures fresh(s) && s.Valid() && s.PausesTracked() && s.quiz == OneQuestion()
    ensures s.rooms == map["4821" := Room("4821", host, Reveal, 0, false, [])]
    ensures s.questionTimers == {} && s.pauses == multiset{"4821"}
  {
    s := Opened(host);
    s.Start(host, "4821");
    assert s.rooms == map["4821" := Room("4821", host, Question, 0, true, [])];
    s.QuestionTimerFires("4821");
  }

  /**
   * The host of room 4821 leaves while its question is being revealed; the
   * next room created draws the same code. When the old room's reveal pause
   * ends, the handlers as written move the new room, still in its lobby and
   * never started by its host, to its first question.
   */
  method StalePauseAsWritten() returns (status: Status)
    ensures status == Question
  {
    var s := Revealed("h1");
    var left := s.DisconnectAsWritten("h1");
    assert left == HostLeft("4821");
    assert s.rooms == map[] && s.pauses == multiset{"4821"};
    var reused := s.CreateRoom("h2", ["4821"]);
    Drawn(reused, ["4821"], map[]);
    assert s.rooms == map["4821" := NewRoom("4821", "h2")];
    s.RevealPauseEnds("4821");
    status := s.rooms["4821"].status;
  }

  /**
   * The same run with the host's departure also cancelling its room's
   * reveal pause: the new room under the reused code stays in its lobby.
   */
  method StalePauseCorrected() returns (status: Status)
    ensures status == Lobby
  {
    var s := Revealed("h1");
    var left := s.Disconnect("h1");
    assert left == HostLeft("4821");
    assert s.rooms == map[] && s.pauses == multiset{};
    var reused := s.CreateRoom("h2", ["4821"]);
    Drawn(reused, ["4821"], map[]);
    s.RevealPauseEnds("4821");
    status := s.rooms["4821"].status;
  }
}
