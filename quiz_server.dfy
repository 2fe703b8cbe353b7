/**
 * The quiz server: the stored rooms keyed by code, the pending question
 * timers, the pending reveal pauses and the log of broadcast events, with
 * one method per socket handler, per helper and per timer expiry. Each
 * handler runs as one atomic step.
 */
module QuizServer {
  import opened Wrappers
  import opened RoomModel
  import opened Roster
  import opened Standings
  import opened Session

  /** Seconds announced to the players for every question. */
  const QuestionTimeLimit := 10

  /** A broadcast to the members of room `to`. */
  datatype Event =
    | RoomUpdate(to: string, room: RoomView)
    | GameQuestion(to: string, index: int, total: nat, prompt: string, choices: seq<string>, timeLimit: int)
    | GameReveal(to: string, correct: int, leaderboard: seq<Entry>)
    | GameOver(to: string, leaderboard: seq<Entry>)
    | RoomEnded(to: string)

  /** Why a join was refused. */
  datatype JoinError = RoomNotFound | GameFinished

  /** Why an answer was refused. */
  datatype AnswerError = RoomMissing | NoActiveQuestion | PlayerMissing

  /** The acknowledgement a handler sends back to its caller. */
  datatype Reply<E> = Ok | Error(error: E)

  /** What a disconnect did: ended the room the connection hosted, left a room, or nothing. */
  datatype Departure = HostLeft(code: string) | PlayerLeft(code: string) | Unknown

  /** Moving on applies to room `code`: it exists and is in the lobby or a reveal. */
  predicate CanAdvance(rooms: map<string, Room>, code: string) {
    code in rooms && (rooms[code].status == Lobby || rooms[code].status == Reveal)
  }

  /** A start request by `sid` applies: the room exists, `sid` hosts it and it is in the lobby. */
  predicate CanStart(rooms: map<string, Room>, code: string, sid: string) {
    code in rooms && rooms[code].hostId == sid && rooms[code].status == Lobby
  }

  /** An answer of `sid` to room `code` is recorded: the room takes answers and `sid` has not answered yet. */
  predicate FirstAnswer(rooms: map<string, Room>, code: string, sid: string) {
    && code in rooms && Collecting(rooms[code]) && HasSocket(rooms[code].players, sid)
    && !rooms[code].players[PlayerIndex(rooms[code].players, sid).value].answered
  }

  /** Some stored room was created by connection `sid`. */
  predicate Hosts(rooms: map<string, Room>, sid: string) {
    exists c | c in rooms :: rooms[c].hostId == sid
  }

  /** Some stored room has an entry for connection `sid`. */
  predicate Seated(rooms: map<string, Room>, sid: string) {
    exists c | c in rooms :: HasSocket(rooms[c].players, sid)
  }

  /** The broadcasts of moving on from room `r`: the game-over leaderboard, or the next question and a snapshot. */
  function AdvanceEvents(code: string, r: Room, quiz: seq<QuizItem>): (events: seq<Event>)
    requires WellFormed(r, |quiz|) && (r.status == Lobby || r.status == Reveal)
  {
    var next := AfterAdvance(r, |quiz|);
    if next.status == Over then [GameOver(code, Leaderboard(next.players))]
    else
      var q := quiz[next.questionIndex];
      [ GameQuestion(code, next.questionIndex + 1, |quiz|, q.prompt, q.choices, QuestionTimeLimit),
        RoomUpdate(code, SanitizeRoom(next)) ]
  }

  /** The broadcast of revealing the current question of room `r`. */
  function RevealEvent(code: string, r: Room, quiz: seq<QuizItem>): (event: Event)
    requires 0 <= r.questionIndex < |quiz|
  {
    GameReveal(code, quiz[r.questionIndex].answer, Leaderboard(r.players))
  }

  /** No player of a room that is stored before and after has fewer points after. */
  predicate ScoresKept(before: map<string, Room>, after: map<string, Room>) {
    forall c | c in before && c in after :: NoScoreLost(before[c].players, after[c].players)
  }

  lemma UpdateTwice(m: map<string, Room>, k: string, a: Room, b: Room)
    ensures m[k := a][k := b] == m[k := b]
  {
  }

  lemma UpdateSame(m: map<string, Room>, k: string)
    requires k in m
    ensures m[k := m[k]] == m
  {
  }

  lemma ScoresKeptUpdate(before: map<string, Room>, code: string, r: Room)
    requires forall c | c in before :: UniqueSockets(before[c].players)
    requires code in before ==> NoScoreLost(before[code].players, r.players)
    ensures ScoresKept(before, before[code := r])
  {
  }

  lemma ScoresKeptRemove(before: map<string, Room>, code: string)
    requires forall c | c in before :: UniqueSockets(before[c].players)
    ensures ScoresKept(before, before - {code})
  {
  }

  /**
   * Every stored room is filed under its own four-digit code and keeps the
   * room invariant, and a question timer is pending exactly for the rooms
   * showing a question.
   */
  ghost predicate Consistent(rooms: map<string, Room>, timers: set<string>, n: nat) {
    && (forall c | c in rooms :: IsCode(c) && rooms[c].code == c && WellFormed(rooms[c], n))
    && (forall c | c in timers :: c in rooms && rooms[c].status == Question)
    && (forall c | c in rooms && rooms[c].status == Question :: c in timers)
  }

  /** Exactly the rooms in a reveal have a reveal pause pending, one each. */
  ghost predicate Tracked(rooms: map<string, Room>, pauses: multiset<string>) {
    && (forall c | c in pauses :: pauses[c] == 1 && c in rooms && rooms[c].status == Reveal)
    && (forall c | c in rooms && rooms[c].status == Reveal :: c in pauses)
  }

  /** What consistency says of one code: its room is well formed, and its timer is pending exactly while it shows a question. */
  lemma Lookup(rooms: map<string, Room>, timers: set<string>, n: nat, code: string)
    requires Consistent(rooms, timers, n)
    ensures code in timers ==> code in rooms && rooms[code].status == Question
    ensures code in rooms ==> IsCode(code) && rooms[code].code == code && WellFormed(rooms[code], n)
    ensures code in rooms ==> (code in timers <==> rooms[code].status == Question)
  {
  }

  /** Storing a new well-formed room that shows no question under an unused code keeps consistency. */
  lemma ConsistentAfterCreate(rooms: map<string, Room>, timers: set<string>, n: nat, r: Room)
    requires Consistent(rooms, timers, n)
    requires r.code !in rooms && IsCode(r.code) && WellFormed(r, n) && r.status != Question
    ensures Consistent(rooms[r.code := r], timers, n)
  {
  }

  /** Replacing a room by a well-formed one that shows a question exactly when it did keeps consistency. */
  lemma ConsistentSamePhase(rooms: map<string, Room>, timers: set<string>, n: nat, code: string, r: Room)
    requires Consistent(rooms, timers, n)
    requires code in rooms && r.code == code && WellFormed(r, n)
    requires r.status == Question <==> rooms[code].status == Question
    ensures Consistent(rooms[code := r], timers, n)
  {
  }

  /** Replacing a room, with its timer pending exactly when it shows a question, keeps consistency. */
  lemma ConsistentAfterStore(rooms: map<string, Room>, timers: set<string>, n: nat, code: string, r: Room)
    requires Consistent(rooms, timers, n)
    requires code in rooms && r.code == code && WellFormed(r, n)
    ensures Consistent(rooms[code := r], if r.status == Question then timers + {code} else timers - {code}, n)
  {
  }

  /** Deleting a room together with its timer keeps consistency. */
  lemma ConsistentAfterDelete(rooms: map<string, Room>, timers: set<string>, n: nat, code: string)
    requires Consistent(rooms, timers, n)
    ensures Consistent(rooms - {code}, timers - {code}, n)
  {
  }

  /** Storing a new room that is not in a reveal under an unused code keeps the pauses tracked. */
  lemma TrackedAfterCreate(rooms: map<string, Room>, pauses: multiset<string>, r: Room)
    requires Tracked(rooms, pauses)
    requires r.code !in rooms && r.status != Reveal
    ensures Tracked(rooms[r.code := r], pauses)
  {
  }

  /** Replacing a room by one that is in a reveal exactly when it was keeps the pauses tracked. */
  lemma TrackedSamePhase(rooms: map<string, Room>, pauses: multiset<string>, code: string, r: Room)
    requires Tracked(rooms, pauses)
    requires code in rooms && (r.status == Reveal <==> rooms[code].status == Reveal)
    ensures Tracked(rooms[code := r], pauses)
  {
  }

  /** Entering a reveal from a question and queuing its pause keeps the pauses tracked. */
  lemma TrackedEnterReveal(rooms: map<string, Room>, pauses: multiset<string>, code: string, r: Room)
    requires Tracked(rooms, pauses)
    requires code in rooms && rooms[code].status == Question && r.status == Reveal
    ensures Tracked(rooms[code := r], pauses + multiset{code})
  {
  }

  /**
   * A tracked pause belongs to a stored room in a reveal; consuming it and
   * moving that room on keeps the pauses tracked.
   */
  lemma TrackedLeaveReveal(rooms: map<string, Room>, pauses: multiset<string>, code: string, n: nat)
    requires Tracked(rooms, pauses)
    requires code in pauses
    ensures code in rooms && rooms[code].status == Reveal
    ensures Tracked(rooms[code := AfterAdvance(rooms[code], n)], pauses - multiset{code})
  {
  }

  /** Deleting a room together with its pauses keeps the pauses tracked. */
  lemma TrackedAfterDelete(rooms: map<string, Room>, pauses: multiset<string>, code: string)
    requires Tracked(rooms, pauses)
    ensures Tracked(rooms - {code}, pauses[code := 0])
  {
  }

  /**
   * A join of `sid` to stored room `code`, on the whole store: the entry is
   * appended unless the connection has one, and consistency, scores and
   * tracked pauses are kept.
   */
  lemma StoreJoin(rooms: map<string, Room>, timers: set<string>, pauses: multiset<string>,
                  n: nat, code: string, sid: string, name: string)
    requires Consistent(rooms, timers, n)
    requires code in rooms
    ensures
      var after := AfterJoin(rooms[code], sid, name);
      && Consistent(rooms[code := after], timers, n)
      && ScoresKept(rooms, rooms[code := after])
      && (Tracked(rooms, pauses) ==> Tracked(rooms[code := after], pauses))
  {
    var after := AfterJoin(rooms[code], sid, name);
    Lookup(rooms, timers, n, code);
    JoinStep(rooms[code], sid, name, n);
    ScoresKeptUpdate(rooms, code, after);
    ConsistentSamePhase(rooms, timers, n, code, after);
    if Tracked(rooms, pauses) {
      TrackedSamePhase(rooms, pauses, code, after);
    }
  }

  /**
   * Moving room `code` on from the lobby or a reveal, on the whole store:
   * the question timer is pending afterwards exactly when the room shows a
   * question, none was pending before, and consistency and scores are kept.
   */
  lemma StoreAdvance(rooms: map<string, Room>, timers: set<string>, n: nat, code: string)
    requires Consistent(rooms, timers, n)
    requires CanAdvance(rooms, code)
    ensures code !in timers && WellFormed(rooms[code], n)
    ensures
      var after := AfterAdvance(rooms[code], n);
      && (after.status == Over || 0 <= after.questionIndex < n)
      && Consistent(rooms[code := after], if after.status == Over then timers else timers + {code}, n)
      && ScoresKept(rooms, rooms[code := after])
  {
    var after := AfterAdvance(rooms[code], n);
    Lookup(rooms, timers, n, code);
    AdvanceStep(rooms[code], n);
    ScoresKeptUpdate(rooms, code, after);
    ConsistentAfterStore(rooms, timers, n, code, after);
    assert timers - {code} == timers;
  }

  /**
   * Revealing the question room `code` shows, on the whole store: its
   * question timer is cancelled, consistency and scores are kept, and
   * queuing its pause keeps the pauses tracked.
   */
  lemma StoreReveal(rooms: map<string, Room>, timers: set<string>, pauses: multiset<string>,
                    n: nat, code: string)
    requires Consistent(rooms, timers, n)
    requires code in rooms && rooms[code].status == Question
    ensures 0 <= rooms[code].questionIndex < n
    ensures
      var after := AfterReveal(rooms[code]);
      && Consistent(rooms[code := after], timers - {code}, n)
      && ScoresKept(rooms, rooms[code := after])
      && (Tracked(rooms, pauses) ==> Tracked(rooms[code := after], pauses + multiset{code}))
  {
    var after := AfterReveal(rooms[code]);
    Lookup(rooms, timers, n, code);
    RevealStep(rooms[code], n);
    ScoresKeptUpdate(rooms, code, after);
    ConsistentAfterStore(rooms, timers, n, code, after);
    if Tracked(rooms, pauses) {
      TrackedEnterReveal(rooms, pauses, code, after);
    }
  }

  /**
   * Recording the first answer of entry `k` of room `code`, on the whole
   * store: the entry is marked answered and gains a point for the right
   * choice, the room still shows its question, and consistency, scores and
   * tracked pauses are kept, also when the question is then revealed.
   */
  lemma StoreAnswer(rooms: map<string, Room>, timers: set<string>, pauses: multiset<string>,
                    quiz: seq<QuizItem>, code: string, k: nat, choice: int)
    requires Consistent(rooms, timers, |quiz|)
    requires code in rooms && Collecting(rooms[code])
    requires k < |rooms[code].players| && !rooms[code].players[k].answered
    ensures 0 <= rooms[code].questionIndex < |quiz|
    ensures
      var r := rooms[code];
      var p := r.players[k];
      var correct := choice == quiz[r.questionIndex].answer;
      var after := AfterAnswer(r, p.socketId, correct);
      && after == r.(players := r.players[k := p.(answered := true, score := p.score + if correct then 1 else 0)])
      && after.status == Question
      && Consistent(rooms[code := after], timers, |quiz|)
      && ScoresKept(rooms, rooms[code := after])
      && ScoresKept(rooms, rooms[code := AfterReveal(after)])
      && (Tracked(rooms, pauses) ==> Tracked(rooms[code := after], pauses))
  {
    var r := rooms[code];
    Lookup(rooms, timers, |quiz|, code);
    PlayerIndexUnique(r.players, k);
    var correct := choice == quiz[r.questionIndex].answer;
    var after := AfterAnswer(r, r.players[k].socketId, correct);
    AnswerStep(r, r.players[k].socketId, correct, |quiz|);
    ScoresKeptUpdate(rooms, code, after);
    ScoresKeptUpdate(rooms, code, AfterReveal(after));
    ConsistentSamePhase(rooms, timers, |quiz|, code, after);
    if Tracked(rooms, pauses) {
      TrackedSamePhase(rooms, pauses, code, after);
    }
  }

  class Server {
    /** The quiz every room plays. */
    const quiz: seq<QuizItem>
    /** The stored rooms, by code. */
    var rooms: map<string, Room>
    /** Codes of the rooms whose question timer is pending. */
    var questionTimers: set<string>
    /** Codes of the pending reveal pauses, one occurrence per pause. */
    var pauses: multiset<string>
    /** Every broadcast so far, in order. */
    var events: seq<Event>

    /** The stored rooms and the question timers are consistent. */
    ghost predicate Valid()
      reads this
    {
      Consistent(rooms, questionTimers, |quiz|)
    }

    /** Exactly the rooms in a reveal have a pause pending, one each. */
    ghost predicate PausesTracked()
      reads this
    {
      Tracked(rooms, pauses)
    }

    constructor (quiz: seq<QuizItem>)
      ensures Valid() && PausesTracked()
      ensures this.quiz == quiz
      ensures rooms == map[] && questionTimers == {} && pauses == multiset{} && events == []
    {
      this.quiz := quiz;
      rooms := map[];
      questionTimers := {};
      pauses := multiset{};
      events := [];
    }

    /**
     * Cancels the pending question timer of room `code`, if any. Called only
     * inside other methods, which restore Valid around it.
     */
    method ClearTimer(code: string)
      modifies this`questionTimers
      ensures questionTimers == old(questionTimers) - {code}
    {
      questionTimers := questionTimers - {code};
    }

    /**
     * Creates a room for host `hostId` under the first of the generator's
     * `draws` that no stored room uses, in the lobby and empty, and
     * broadcasts its snapshot. When every draw is taken nothing changes.
     */
    method CreateRoom(hostId: string, draws: seq<string>) returns (code: Option<string>)
      requires Valid()
      requires forall k | 0 <= k < |draws| :: IsCode(draws[k])
      modifies this
      ensures Valid() && ScoresKept(old(rooms), rooms)
      ensures old(PausesTracked()) ==> PausesTracked()
      ensures questionTimers == old(questionTimers) && pauses == old(pauses)
      ensures code.None? <==> forall k | 0 <= k < |draws| :: draws[k] in old(rooms)
      ensures code.None? ==> rooms == old(rooms) && events == old(events)
      ensures code.Some? ==>
        && IsCode(code.value) && code.value !in old(rooms)
        && (exists k | 0 <= k < |draws| ::
              draws[k] == code.value && forall j | 0 <= j < k :: draws[j] in old(rooms))
        && rooms == old(rooms)[code.value := NewRoom(code.value, hostId)]
        && events == old(events) + [RoomUpdate(code.value, SanitizeRoom(NewRoom(code.value, hostId)))]
    {
      var i := PickCode(draws, rooms.Keys);
      if i == |draws| {
        return None;
      }
      var room := NewRoom(draws[i], hostId);
      NewRoomWellFormed(room.code, hostId, |quiz|);
      ScoresKeptUpdate(rooms, room.code, room);
      ConsistentAfterCreate(rooms, questionTimers, |quiz|, room);
      if PausesTracked() {
        TrackedAfterCreate(rooms, pauses, room);
      }
      rooms := rooms[room.code := room];
      events := events + [RoomUpdate(room.code, SanitizeRoom(room))];
      code := Some(room.code);
    }

    /**
     * Connection `sid` joins room `code` as `name`: refused when the room is
     * unknown or over; otherwise the connection gets an entry unless it has
     * one, and the room's snapshot is broadcast.
     */
    method Join(sid: string, code: string, name: string) returns (reply: Reply<JoinError>)
      requires Valid()
      modifies this
      ensures Valid() && ScoresKept(old(rooms), rooms)
      ensures old(PausesTracked()) ==> PausesTracked()
      ensures questionTimers == old(questionTimers) && pauses == old(pauses)
      ensures code !in old(rooms) ==>
        reply == Error(RoomNotFound) && rooms == old(rooms) && events == old(events)
      ensures code in old(rooms) && old(rooms)[code].status == Over ==>
        reply == Error(GameFinished) && rooms == old(rooms) && events == old(events)
      ensures code in old(rooms) && old(rooms)[code].status != Over ==>
        && reply == Ok
        && rooms == old(rooms)[code := AfterJoin(old(rooms)[code], sid, name)]
        && events == old(events) + [RoomUpdate(code, SanitizeRoom(rooms[code]))]
    {
      if code !in rooms {
        return Error(RoomNotFound);
      }
      var room := rooms[code];
      if room.status == Over {
        return Error(GameFinished);
      }
      StoreJoin(rooms, questionTimers, pauses, |quiz|, code, sid, name);
      if PlayerIndex(room.players, sid).None? {
        room := room.(players := room.players + [NewPlayer(sid, name)]);
        rooms := rooms[code := room];
      } else {
        UpdateSame(rooms, code);
      }
      events := events + [RoomUpdate(code, SanitizeRoom(room))];
      reply := Ok;
    }

    /**
     * The host starts the game: ignored unless room `code` exists, `sid`
     * hosts it and it is in the lobby; otherwise the first question opens
     * (or, with an empty quiz, the game ends).
     */
    method Start(sid: string, code: string)
      requires Valid()
      modifies this
      ensures Valid() && ScoresKept(old(rooms), rooms)
      ensures old(PausesTracked()) ==> PausesTracked()
      ensures pauses == old(pauses)
      ensures !CanStart(old(rooms), code, sid) ==>
        rooms == old(rooms) && questionTimers == old(questionTimers) && events == old(events)
      ensures CanStart(old(rooms), code, sid) ==>
        && rooms == old(rooms)[code := AfterAdvance(old(rooms)[code], |quiz|)]
        && rooms[code].questionIndex == 0
        && (|quiz| > 0 ==> rooms[code].status == Question && questionTimers == old(questionTimers) + {code})
        && (|quiz| == 0 ==> rooms[code].status == Over && questionTimers == old(questionTimers))
        && events == old(events) + AdvanceEvents(code, old(rooms)[code], quiz)
    {
      if code !in rooms || rooms[code].hostId != sid {
        return;
      }
      if rooms[code].status != Lobby {
        return;
      }
      assert CanStart(rooms, code, sid) && CanAdvance(rooms, code);
      Lookup(rooms, questionTimers, |quiz|, code);
      if PausesTracked() {
        TrackedSamePhase(rooms, pauses, code, AfterAdvance(rooms[code], |quiz|));
      }
      var room := rooms[code].(questionIndex := -1);
      assert room == rooms[code];
      UpdateSame(rooms, code);
      rooms := rooms[code := room];
      NextQuestion(code);
    }

    /**
     * Moves room `code` on from the lobby or a reveal: to its next question,
     * with answers reset, a snapshot broadcast and the question timer armed,
     * or to game over after the last question. Otherwise nothing happens.
     */
    method NextQuestion(code: string)
      requires Valid()
      modifies this
      ensures Valid() && ScoresKept(old(rooms), rooms)
      ensures pauses == old(pauses)
      ensures !CanAdvance(old(rooms), code) ==>
        rooms == old(rooms) && questionTimers == old(questionTimers) && events == old(events)
      ensures CanAdvance(old(rooms), code) ==>
        && rooms == old(rooms)[code := AfterAdvance(old(rooms)[code], |quiz|)]
        && (rooms[code].status == Over ==> questionTimers == old(questionTimers))
        && (rooms[code].status != Over ==> questionTimers == old(questionTimers) + {code})
        && events == old(events) + AdvanceEvents(code, old(rooms)[code], quiz)
    {
      if code !in rooms {
        return;
      }
      var room := rooms[code];
      if room.status != Lobby && room.status != Reveal {
        return;
      }
      assert CanAdvance(rooms, code);
      if room.questionIndex + 1 >= |quiz| {
        EndGame(code);
      } else {
        OpenQuestion(code);
      }
    }

    /**
     * Moving on past the last question of a room in the lobby or a reveal:
     * the game is over and its leaderboard broadcast.
     */
    method EndGame(code: string)
      requires Valid() && CanAdvance(rooms, code)
      requires rooms[code].questionIndex + 1 >= |quiz|
      modifies this
      ensures Valid() && ScoresKept(old(rooms), rooms)
      ensures pauses == old(pauses) && questionTimers == old(questionTimers)
      ensures rooms == old(rooms)[code := AfterAdvance(old(rooms)[code], |quiz|)]
      ensures rooms[code].status == Over
      ensures events == old(events) + AdvanceEvents(code, old(rooms)[code], quiz)
    {
      StoreAdvance(rooms, questionTimers, |quiz|, code);
      var room := rooms[code];
      room := room.(questionIndex := room.questionIndex + 1);
      room := room.(status := Over, acceptingAnswers := false);
      assert room == AfterAdvance(rooms[code], |quiz|);
      assert AdvanceEvents(code, rooms[code], quiz) == [GameOver(code, Leaderboard(room.players))];
      rooms := rooms[code := room];
      events := events + [GameOver(code, Leaderboard(room.players))];
      ClearTimer(code);
    }

    /**
     * Moving on to a next question of a room in the lobby or a reveal:
     * answers reopen with every entry reset, the question and a snapshot
     * are broadcast and the question timer is armed.
     */
    method OpenQuestion(code: string)
      requires Valid() && CanAdvance(rooms, code)
      requires rooms[code].questionIndex + 1 < |quiz|
      modifies this
      ensures Valid() && ScoresKept(old(rooms), rooms)
      ensures pauses == old(pauses) && questionTimers == old(questionTimers) + {code}
      ensures rooms == old(rooms)[code := AfterAdvance(old(rooms)[code], |quiz|)]
      ensures rooms[code].status == Question
      ensures events == old(events) + AdvanceEvents(code, old(rooms)[code], quiz)
    {
      StoreAdvance(rooms, questionTimers, |quiz|, code);
      var room := rooms[code];
      room := room.(questionIndex := room.questionIndex + 1);
      room := room.(status := Question, acceptingAnswers := true);
      var cleared := ResetAnswers(room.players);
      room := room.(players := cleared);
      assert room == AfterAdvance(rooms[code], |quiz|);
      rooms := rooms[code := room];
      var q := quiz[room.questionIndex];
      events := events + [
        GameQuestion(code, room.questionIndex + 1, |quiz|, q.prompt, q.choices, QuestionTimeLimit),
        RoomUpdate(code, SanitizeRoom(room))];
      ClearTimer(code);
      questionTimers := questionTimers + {code};
    }

    /**
     * Ends the current question of room `code` if it is showing one: answers
     * close, the question timer is cancelled, the right choice and the
     * leaderboard are broadcast and a reveal pause is queued. Otherwise,
     * including a second trigger for the same question, nothing happens.
     */
    method RevealAndQueueNext(code: string)
      requires Valid()
      modifies this
      ensures Valid() && ScoresKept(old(rooms), rooms)
      ensures old(PausesTracked()) ==> PausesTracked()
      ensures !(code in old(rooms) && old(rooms)[code].status == Question) ==>
        && rooms == old(rooms) && questionTimers == old(questionTimers)
        && pauses == old(pauses) && events == old(events)
      ensures code in old(rooms) && old(rooms)[code].status == Question ==>
        && rooms == old(rooms)[code := AfterReveal(old(rooms)[code])]
        && questionTimers == old(questionTimers) - {code}
        && pauses == old(pauses) + multiset{code}
        && events == old(events) + [RevealEvent(code, old(rooms)[code], quiz)]
    {
      if code !in rooms {
        return;
      }
      var room := rooms[code];
      if room.status != Question {
        return;
      }
      StoreReveal(rooms, questionTimers, pauses, |quiz|, code);
      room := room.(acceptingAnswers := false, status := Reveal);
      rooms := rooms[code := room];
      var q := quiz[room.questionIndex];
      events := events + [GameReveal(code, q.answer, Leaderboard(room.players))];
      ClearTimer(code);
      pauses := pauses + multiset{code};
    }

    /**
     * Connection `sid` answers `choice` in room `code`. Refused when the room
     * is unknown, takes no answers, or has no entry for `sid`; acknowledged
     * without effect when `sid` already answered; otherwise recorded with one
     * point for the right choice, and the question is revealed at once when
     * every player has answered.
     */
    method Answer(sid: string, code: string, choice: int) returns (reply: Reply<AnswerError>)
      requires Valid()
      modifies this
      ensures Valid() && ScoresKept(old(rooms), rooms)
      ensures old(PausesTracked()) ==> PausesTracked()
      ensures code !in old(rooms) ==> reply == Error(RoomMissing)
      ensures code in old(rooms) && !Collecting(old(rooms)[code]) ==> reply == Error(NoActiveQuestion)
      ensures code in old(rooms) && Collecting(old(rooms)[code]) && !HasSocket(old(rooms)[code].players, sid) ==>
        reply == Error(PlayerMissing)
      ensures code in old(rooms) && Collecting(old(rooms)[code]) && HasSocket(old(rooms)[code].players, sid) ==>
        reply == Ok
      ensures !FirstAnswer(old(rooms), code, sid) ==> rooms == old(rooms)
      ensures !FirstAnswer(old(rooms), code, sid) ==> questionTimers == old(questionTimers)
      ensures !FirstAnswer(old(rooms), code, sid) ==> pauses == old(pauses)
      ensures !FirstAnswer(old(rooms), code, sid) ==> events == old(events)
      ensures FirstAnswer(old(rooms), code, sid) ==>
        var before := old(rooms)[code];
        var after := AfterAnswer(before, sid, choice == quiz[before.questionIndex].answer);
        if AllAnswered(after.players) then
          && rooms == old(rooms)[code := AfterReveal(after)]
          && questionTimers == old(questionTimers) - {code}
          && pauses == old(pauses) + multiset{code}
          && events == old(events) + [RevealEvent(code, after, quiz)]
        else
          && rooms == old(rooms)[code := after]
          && questionTimers == old(questionTimers) && pauses == old(pauses) && events == old(events)
    {
      if code !in rooms {
        return Error(RoomMissing);
      }
      var room := rooms[code];
      if !room.acceptingAnswers || room.status != Question {
        return Error(NoActiveQuestion);
      }
      var found := PlayerIndex(room.players, sid);
      if found.None? {
        return Error(PlayerMissing);
      }
      var k := found.value;
      if room.players[k].answered {
        return Ok;
      }
      assert FirstAnswer(rooms, code, sid);
      RecordAnswer(code, k, choice);
      reply := Ok;
    }

    /**
     * The recording part of an answer: entry `k` of room `code`, which has
     * not answered the question being shown, is marked answered and gets one
     * point when `choice` is the right one; when every player has then
     * answered, the question is revealed at once.
     */
    method RecordAnswer(code: string, k: nat, choice: int)
      requires Valid()
      requires code in rooms && Collecting(rooms[code])
      requires k < |rooms[code].players| && !rooms[code].players[k].answered
      modifies this
      ensures Valid() && ScoresKept(old(rooms), rooms)
      ensures old(PausesTracked()) ==> PausesTracked()
      ensures
        var before := old(rooms)[code];
        var after := AfterAnswer(before, before.players[k].socketId, choice == quiz[before.questionIndex].answer);
        if AllAnswered(after.players) then
          && rooms == old(rooms)[code := AfterReveal(after)]
          && questionTimers == old(questionTimers) - {code}
          && pauses == old(pauses) + multiset{code}
          && events == old(events) + [RevealEvent(code, after, quiz)]
        else
          && rooms == old(rooms)[code := after]
          && questionTimers == old(questionTimers) && pauses == old(pauses) && events == old(events)
    {
      MarkAnswered(code, k, choice);
      if AllAnswered(rooms[code].players) {
        ghost var marked := rooms;
        RevealAndQueueNext(code);
        UpdateTwice(old(rooms), code, marked[code], AfterReveal(marked[code]));
      }
    }

    /**
     * Entry `k` of room `code`, which has not answered the question being
     * shown, is marked answered and gets one point when `choice` is the
     * right one; the room still shows its question.
     */
    method MarkAnswered(code: string, k: nat, choice: int)
      requires Valid()
      requires code in rooms && Collecting(rooms[code])
      requires k < |rooms[code].players| && !rooms[code].players[k].answered
      modifies this`rooms
      ensures Valid() && ScoresKept(old(rooms), rooms)
      ensures old(PausesTracked()) ==> PausesTracked()
      ensures
        var before := old(rooms)[code];
        rooms == old(rooms)[code := AfterAnswer(before, before.players[k].socketId, choice == quiz[before.questionIndex].answer)]
      ensures rooms[code].status == Question
      ensures ScoresKept(old(rooms), old(rooms)[code := AfterReveal(rooms[code])])
    {
      StoreAnswer(rooms, questionTimers, pauses, quiz, code, k, choice);
      var room := rooms[code];
      var q := quiz[room.questionIndex];
      var player := room.players[k].(answered := true);
      if choice == q.answer {
        player := player.(score := player.score + 1);
      }
      ghost var after := AfterAnswer(room, room.players[k].socketId, choice == q.answer);
      room := room.(players := room.players[k := player]);
      assert room == after;
      rooms := rooms[code := room];
    }

    /**
     * Connection `sid` goes away, as the source handles it. If it hosts a
     * room, that one room ends: its question timer is cancelled, the end is
     * broadcast and the room is deleted (a queued reveal pause stays
     * pending). Otherwise, if some room has an entry for it, that entry
     * leaves that one room and its snapshot is broadcast; nothing is
     * revealed early because of it.
     */
    method DisconnectAsWritten(sid: string) returns (d: Departure)
      requires Valid()
      modifies this
      ensures Valid() && ScoresKept(old(rooms), rooms)
      ensures pauses == old(pauses)
      ensures d.HostLeft? <==> Hosts(old(rooms), sid)
      ensures d.Unknown? <==> !Hosts(old(rooms), sid) && !Seated(old(rooms), sid)
      ensures d.HostLeft? ==>
        && d.code in old(rooms) && old(rooms)[d.code].hostId == sid
        && rooms == old(rooms) - {d.code}
        && questionTimers == old(questionTimers) - {d.code}
        && events == old(events) + [RoomEnded(d.code)]
      ensures d.PlayerLeft? ==>
        && d.code in old(rooms) && HasSocket(old(rooms)[d.code].players, sid)
        && rooms == old(rooms)[d.code := AfterLeave(old(rooms)[d.code], sid)]
        && questionTimers == old(questionTimers)
        && events == old(events) + [RoomUpdate(d.code, SanitizeRoom(rooms[d.code]))]
      ensures d.Unknown? ==>
        rooms == old(rooms) && questionTimers == old(questionTimers) && events == old(events)
    {
      if c :| c in rooms && rooms[c].hostId == sid {
        Lookup(rooms, questionTimers, |quiz|, c);
        ScoresKeptRemove(rooms, c);
        ConsistentAfterDelete(rooms, questionTimers, |quiz|, c);
        ClearTimer(c);
        events := events + [RoomEnded(c)];
        rooms := rooms - {c};
        return HostLeft(c);
      }
      if c :| c in rooms && HasSocket(rooms[c].players, sid) {
        Lookup(rooms, questionTimers, |quiz|, c);
        LeaveStep(rooms[c], sid, |quiz|);
        ScoresKeptUpdate(rooms, c, AfterLeave(rooms[c], sid));
        ConsistentSamePhase(rooms, questionTimers, |quiz|, c, AfterLeave(rooms[c], sid));
        var room := rooms[c].(players := RemoveSocket(rooms[c].players, sid));
        rooms := rooms[c := room];
        events := events + [RoomUpdate(c, SanitizeRoom(room))];
        return PlayerLeft(c);
      }
      return Unknown;
    }

    /**
     * Connection `sid` goes away, with the host's departure also cancelling
     * the reveal pause its room may have queued; otherwise as
     * DisconnectAsWritten.
     */
    method Disconnect(sid: string) returns (d: Departure)
      requires Valid()
      modifies this
      ensures Valid() && ScoresKept(old(rooms), rooms)
      ensures old(PausesTracked()) ==> PausesTracked()
      ensures d.HostLeft? <==> Hosts(old(rooms), sid)
      ensures d.Unknown? <==> !Hosts(old(rooms), sid) && !Seated(old(rooms), sid)
      ensures d.HostLeft? ==>
        && d.code in old(rooms) && old(rooms)[d.code].hostId == sid
        && rooms == old(rooms) - {d.code}
        && questionTimers == old(questionTimers) - {d.code}
        && pauses == old(pauses)[d.code := 0]
        && events == old(events) + [RoomEnded(d.code)]
      ensures d.PlayerLeft? ==>
        && d.code in old(rooms) && HasSocket(old(rooms)[d.code].players, sid)
        && rooms == old(rooms)[d.code := AfterLeave(old(rooms)[d.code], sid)]
        && questionTimers == old(questionTimers) && pauses == old(pauses)
        && events == old(events) + [RoomUpdate(d.code, SanitizeRoom(rooms[d.code]))]
      ensures d.Unknown? ==>
        && rooms == old(rooms) && questionTimers == old(questionTimers)
        && pauses == old(pauses) && events == old(events)
    {
      ghost var rooms0, pauses0, tracked0 := rooms, pauses, PausesTracked();
      d := DisconnectAsWritten(sid);
      if d.HostLeft? {
        pauses := pauses[d.code := 0];
        if tracked0 {
          TrackedAfterDelete(rooms0, pauses0, d.code);
        }
      } else if d.PlayerLeft? && tracked0 {
        TrackedSamePhase(rooms0, pauses0, d.code, AfterLeave(rooms0[d.code], sid));
      }
    }

    /**
     * The question timer of room `code` expires: when one is pending, the
     * question is revealed; stale or absent timers do nothing.
     */
    method QuestionTimerFires(code: string)
      requires Valid()
      modifies this
      ensures Valid() && ScoresKept(old(rooms), rooms)
      ensures old(PausesTracked()) ==> PausesTracked()
      ensures code !in old(questionTimers) ==>
        && rooms == old(rooms) && questionTimers == old(questionTimers)
        && pauses == old(pauses) && events == old(events)
      ensures code in old(questionTimers) ==>
        && code in old(rooms) && old(rooms)[code].status == Question
        && rooms == old(rooms)[code := AfterReveal(old(rooms)[code])]
        && questionTimers == old(questionTimers) - {code}
        && pauses == old(pauses) + multiset{code}
        && events == old(events) + [RevealEvent(code, old(rooms)[code], quiz)]
    {
      Lookup(rooms, questionTimers, |quiz|, code);
      if code in questionTimers {
        RevealAndQueueNext(code);
      }
    }

    /**
     * A reveal pause queued for code `code` ends: it is consumed and whatever
     * room is stored under that code is moved on, if it is in the lobby or a
     * reveal. While every pause is tracked, that room is the one in a reveal
     * that queued it.
     */
    method RevealPauseEnds(code: string)
      requires Valid()
      modifies this
      ensures Valid() && ScoresKept(old(rooms), rooms)
      ensures old(PausesTracked()) ==> PausesTracked()
      ensures old(PausesTracked()) && code in old(pauses) ==>
        code in old(rooms) && old(rooms)[code].status == Reveal
      ensures code !in old(pauses) ==>
        && rooms == old(rooms) && questionTimers == old(questionTimers)
        && pauses == old(pauses) && events == old(events)
      ensures code in old(pauses) ==> pauses == old(pauses) - multiset{code}
      ensures code in old(pauses) && !CanAdvance(old(rooms), code) ==>
        rooms == old(rooms) && questionTimers == old(questionTimers) && events == old(events)
      ensures code in old(pauses) && CanAdvance(old(rooms), code) ==>
        && rooms == old(rooms)[code := AfterAdvance(old(rooms)[code], |quiz|)]
        && (rooms[code].status == Over ==> questionTimers == old(questionTimers))
        && (rooms[code].status != Over ==> questionTimers == old(questionTimers) + {code})
        && events == old(events) + AdvanceEvents(code, old(rooms)[code], quiz)
    {
      if code in pauses {
        if PausesTracked() {
          TrackedLeaveReveal(rooms, pauses, code, |quiz|);
        }
        pauses := pauses - multiset{code};
        NextQuestion(code);
      }
    }
  }

  /**
   * The retry loop of room creation: the position of the first draw not in
   * `taken`, or |draws| when every draw is taken.
   */
  method PickCode(draws: seq<string>, taken: set<string>) returns (i: nat)
    ensures i <= |draws|
    ensures forall j | 0 <= j < i :: draws[j] in taken
    ensures i < |draws| ==> draws[i] !in taken
  {
    i := 0;
    while i < |draws| && draws[i] in taken
      invariant i <= |draws|
      invariant forall j | 0 <= j < i :: draws[j] in taken
    {
      i := i + 1;
    }
  }
}
