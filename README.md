# Quiz rooms: a verified model of the quiz server's session core

The quiz server runs live multiple-choice games. A host opens a room and gets a
four-digit code. Players join the room with that code. When the host starts,
every question is shown with a ten-second timer. A question ends at the timer
or as soon as every player has answered. The right choice and the leaderboard
are then revealed. After a short pause the next question follows, and after
the last one the game is over. When the host disconnects, the room ends.

The model covers the socket handlers of `quiz-app/server/index.js` and the
room record of `quiz-app/server/models/Room.js`.

- `RoomModel` (file `room_model.dfy`) holds the stored room and player records, with their schema defaults.
- `Roster` (file `roster.dfy`) holds the operations on a room's ordered player list:
  - lookup by connection handle;
  - the per-question reset of the answered flags, as a loop;
  - the "everyone answered" test;
  - removal of a departed connection.
- `Standings` (file `standings.dfy`) holds the leaderboard, a stable sort by descending score, and the room snapshot that every room update broadcasts.
- `Session` (file `session.dfy`) holds the per-room state machine.
  - Each step is a function from a room to the room after it.
  - `WellFormed` is the invariant every stored room keeps.
  - One lemma per step shows that the step keeps the invariant.
- `QuizServer` (file `quiz_server.dfy`) holds the class `Server`. Its fields are:
  - the stored rooms, as a map from code to room;
  - the codes whose question timer is pending;
  - the pending reveal pauses, as a multiset of codes;
  - the log of broadcast events.

  Each socket handler, each timer expiry and each helper except `leaderboard` and `sanitizeRoom` is a method of `Server`, and each runs as one atomic step. `leaderboard` and `sanitizeRoom` are functions of `Standings`.
  - `Valid` says the stores agree: every room is filed under its own code and is well formed, and a question timer is pending exactly for the rooms showing a question.
  - Every handler and timer expiry keeps `Valid`, and so does every helper except `ClearTimer`. `ClearTimer` runs only inside the other methods, which restore `Valid` around it: it cancels a timer that `Valid` still requires while the room shows its question.
  - No method lowers a stored player's score (`ScoresKept`).
  - Every method states exactly what the stores and the event log become.
- `Scenarios` (file `scenarios.dfy`) holds complete runs from an empty server, among them the two runs behind the finding below, and `RevealOnce`, which reveals a question of any consistent server twice over and its timer in between.

## Model

| member | source | states |
|---|---|---|
| Session.NewRoomWellFormed | quiz-app/server/models/Room.js:14-21 | A new room (lobby, question index -1, answers closed, no players) satisfies the room invariant and takes no answers. |
| Session.JoinStep | quiz-app/server/index.js:55-60 | A join keeps the invariant and the phase. A connection that already has an entry changes nothing. Otherwise exactly one entry with the player defaults (0 points, not answered) is appended at the end, and no score changes. |
| Session.AdvanceStep | quiz-app/server/index.js:142-157 | Moving on raises the question index by one. The room is over exactly when the index reaches the quiz length. Otherwise it takes answers and every answered flag is cleared. Connections, names and scores stay, in order, and the invariant holds. |
| Session.AnswerStep | quiz-app/server/index.js:91-93 | A first answer keeps the invariant and the phase. It marks the answering entry answered and adds exactly one point when the choice is right, none otherwise. Every other entry is unchanged. |
| Session.RevealStep | quiz-app/server/index.js:189-190 | A reveal keeps the invariant, closes answers, enters the reveal phase and leaves the players untouched. |
| Session.LeaveStep | quiz-app/server/index.js:123 | A departure keeps the invariant, the phase and the question. The connection has no entry left. Exactly its entry is removed, and the other entries keep their order and scores. |
| Session.ScoreAtMostQuizLength | quiz-app/server/index.js:91-93 | In a well-formed room no player has more points than the quiz has questions. |
| Roster.PlayerIndex | quiz-app/server/index.js:85-86 | The lookup finds an entry exactly when the connection has one, and it returns the first such entry. |
| Roster.PlayerIndexUnique | quiz-app/server/index.js:56 | With no duplicate handles, the entry found for a handle is its only entry. |
| Roster.ResetAnswers | quiz-app/server/index.js:157 | The loop clears every answered flag and changes nothing else. |
| Roster.RemoveSocket | quiz-app/server/index.js:123 | The filter keeps exactly the entries of other connections. It leaves none for the departed one and never grows the list. |
| Roster.RemoveSocketAt | quiz-app/server/index.js:123 | With unique handles, removing entry k's handle removes exactly entry k and keeps the others in order. |
| Roster.RemoveAbsentSocket | quiz-app/server/index.js:123 | Removing a handle that has no entry leaves the list as it was. |
| Roster.RemoveSocketKeepsUnique | quiz-app/server/index.js:123 | Removing a handle keeps the list free of duplicate handles. |
| Standings.SortByScoreOrdered | quiz-app/server/index.js:215-219 | In the leaderboard, scores never increase from one line to the next. |
| Standings.SortByScorePermutes | quiz-app/server/index.js:215-219 | The leaderboard holds exactly the players' (name, score) pairs, each as often as given. |
| Standings.SortByScoreStable | quiz-app/server/index.js:218 | For every score, the lines with that score keep player-list order, as the stable `Array.prototype.sort` does. |
| Standings.InsertOrdered | quiz-app/server/index.js:218 | Inserting into an ordered list keeps it ordered, one line longer. |
| Standings.InsertPermutes | quiz-app/server/index.js:218 | Inserting adds exactly the one line. |
| Standings.InsertWithScore | quiz-app/server/index.js:218 | Inserting puts the new line ahead of the existing lines with the same score. |
| Standings.SnapshotMatchesLeaderboard | quiz-app/server/index.js:215-229 | The room snapshot and the leaderboard show the same (name, score) lines, each as often: the snapshot in player-list order, the leaderboard by score. |
| Session.SnapshotAfterJoin | quiz-app/server/index.js:56-63 | The snapshot broadcast after a newcomer joins is the previous one with a line for the newcomer, with no points, at the end. After a repeated join it is the same snapshot as before. |
| Session.SnapshotAfterLeave | quiz-app/server/index.js:123-126 | The snapshot broadcast after a player leaves is the previous one without exactly that player's line, with the other lines in their order. |
| QuizServer.StoreJoin | quiz-app/server/index.js:51-60 | A join, written back to the store, keeps consistency, scores and the tracked pauses. |
| QuizServer.StoreAdvance | quiz-app/server/index.js:133-179 | Moving a room on from the lobby or a reveal finds no question timer pending. Afterwards a timer is pending exactly when the room shows a question, and the question index is in range while it does. Consistency and scores are kept. |
| QuizServer.StoreReveal | quiz-app/server/index.js:183-199 | A reveal, written back with its question timer cancelled, keeps consistency and scores. Queuing its pause keeps the pauses tracked. |
| QuizServer.StoreAnswer | quiz-app/server/index.js:85-96 | A first answer, written back, marks exactly that entry and adds a point for the right choice. It keeps consistency, scores and the tracked pauses, also across an immediate reveal. |
| QuizServer.TrackedLeaveReveal | quiz-app/server/index.js:202-204 | A tracked pause belongs to a stored room in its reveal, and consuming it while moving that room on keeps the pauses tracked. |
| QuizServer.TrackedAfterDelete | quiz-app/server/index.js:109-117 | Deleting a room together with its pauses keeps the pauses tracked. |
| QuizServer.ConsistentAfterDelete | quiz-app/server/index.js:114-116 | Deleting a room together with its question timer keeps consistency. |
| QuizServer.PickCode | quiz-app/server/index.js:30-35 | The retry loop stops at the first draw that no stored room uses. Every earlier draw is taken. When every draw is taken, it stops at the end. |
| QuizServer.Server.constructor | quiz-app/server/index.js:25 | The server starts with no rooms, no timers, no pauses and no broadcasts, and it is consistent. |
| QuizServer.Server.ClearTimer | quiz-app/server/index.js:207-213 | Cancels room code's pending question timer, if there is one. |
| QuizServer.Server.CreateRoom | quiz-app/server/index.js:29-47 | The room is stored under the first free draw, which is a four-digit code. It holds the schema defaults and its snapshot is broadcast. Nothing changes when every draw is taken. Consistency, scores and the tracked pauses are kept. |
| QuizServer.Server.Join | quiz-app/server/index.js:50-65 | An unknown code gives "room not found" and a finished room gives "game finished", each with no change. Otherwise the room becomes `AfterJoin` of itself and its snapshot is broadcast. |
| QuizServer.Server.Start | quiz-app/server/index.js:68-75 | Nothing happens unless the caller hosts a room in its lobby. Otherwise the first question opens, with its timer armed and its broadcasts sent. With an empty quiz the game ends instead. |
| QuizServer.Server.NextQuestion | quiz-app/server/index.js:133-180 | Nothing happens outside the lobby and the reveal phases. Otherwise the room becomes `AfterAdvance` of itself, the question timer is pending exactly when a question is shown, and the question or game-over broadcasts are logged. |
| QuizServer.Server.EndGame | quiz-app/server/index.js:145-151 | Past the last question, the room is over, its leaderboard is broadcast and no timer is pending. |
| QuizServer.Server.OpenQuestion | quiz-app/server/index.js:154-179 | The next question opens with answers reset. The question, as item index+1 of the quiz length with a ten-second limit, is broadcast with a snapshot, and its timer is armed. |
| QuizServer.Server.RevealAndQueueNext | quiz-app/server/index.js:182-205 | Nothing happens unless the room shows a question, so of the timer and the early reveal only the first has an effect. Otherwise the room enters its reveal, the timer is cancelled, the right choice and leaderboard are broadcast and one pause is queued. |
| QuizServer.Server.Answer | quiz-app/server/index.js:78-106 | The three refusals come in the source's order. A repeat answer is acknowledged with no change. A first answer is recorded, and the question is revealed exactly when the list is non-empty and everyone has answered. |
| QuizServer.Server.RecordAnswer | quiz-app/server/index.js:90-103 | A recorded first answer, followed by the early reveal exactly when every player has answered. |
| QuizServer.Server.MarkAnswered | quiz-app/server/index.js:90-96 | The answering entry is marked answered and scored, and the room still shows its question. |
| QuizServer.Server.DisconnectAsWritten | quiz-app/server/index.js:109-128 | A host's departure deletes one room it hosts, cancels that room's question timer and broadcasts the end, but leaves its reveal pause pending. Otherwise the connection leaves one room that has its entry, with no early-reveal re-check. Otherwise nothing happens. |
| QuizServer.Server.Disconnect | quiz-app/server/index.js:109-128 | As DisconnectAsWritten, except that a host's departure also drops its room's pending reveal pauses. This keeps every pending pause tied to a stored room in its reveal. |
| QuizServer.Server.QuestionTimerFires | quiz-app/server/index.js:176-178 | A pending question timer reveals its question. A stale or absent timer does nothing. |
| QuizServer.Server.RevealPauseEnds | quiz-app/server/index.js:202-204 | The pause is consumed and the room stored under its code is moved on, if that room is in its lobby or a reveal. While the pauses are tracked, that room is the revealing room that queued the pause. |
| Scenarios.FirstRound | quiz-app/server/index.js:29-106 | Create, join, start and one right answer: the question is revealed at once and the player has one point. |
| Scenarios.TimerAfterEarlyReveal | quiz-app/server/index.js:176-187 | When the last answer reveals the question and its timer then goes off, exactly one reveal is broadcast, and the room stays in its reveal. |
| Scenarios.RevealOnce | quiz-app/server/index.js:183-187 | In any consistent server, a question is revealed once: after the first reveal, its timer and a second reveal broadcast nothing, so the log gains exactly one reveal and one pause is queued. |
| Scenarios.StalePauseAsWritten | quiz-app/server/index.js:109-117 | As written, a pause left behind by a departed host starts the next room created under the same code, without its host. |
| Scenarios.StalePauseCorrected | quiz-app/server/index.js:109-117 | With the pause cancelled on the host's departure, that new room stays in its lobby. |

## Left out

- Sockets, the Express app, the MongoDB connection and the console are not modelled. A broadcast is an event appended to the log, and the acknowledgement callback is a method's reply. Joining a socket.io room is not modelled.
- The 4-digit generator is not modelled. `CreateRoom` takes the sequence of codes the generator would draw. QuizServer.Server.CreateRoom stops and reports no code when those draws run out, whereas the source retries forever.
- Timer delays (10 s for questions, 3 s for the reveal pause) are not modelled. An expiry is a method call that the environment makes at any later point.
- Interleaving of the awaits between concurrent handlers is not modelled: each handler is atomic, so the read-modify-write races are outside the model.
- `quiz.js` is not part of this model. The quiz is an arbitrary sequence of items, given to the server at construction.
- `Number(choiceIdx)` coercion is not modelled: the choice arrives as an integer.
- The `updatedAt` timestamp in room snapshots and the record's `createdAt` are not modelled.
- QuizServer.Server.DisconnectAsWritten: the source picks whichever matching room the database returns first; the model picks any matching room.
- QuizServer.Server.Disconnect: the same choice of room.
- A player's disconnect does not re-check whether the remaining players have all answered. The source does not do it, so the model does not either. A room can therefore wait for its timer even though everyone left has answered.

## Findings

| source | as written | input that shows it | evidently intended | confidence | as-written member | corrected member |
|---|---|---|---|---|---|---|
| quiz-app/server/index.js:109-117, 202-204 | The host's disconnect cancels the question timer but not the reveal-pause timer. That timer calls `nextQuestion(code)` by code. | Host h1 starts room 4821, whose quiz has one question. The timer reveals it, so a pause is queued. h1 disconnects and host h2 creates a room that draws 4821. The pause ends: h2's room goes from the lobby to question 1 without h2 starting it. | A departed room's pause is cancelled, so it cannot move a later room that reuses the code. | not executed | QuizServer.Server.DisconnectAsWritten, Scenarios.StalePauseAsWritten | QuizServer.Server.Disconnect, Scenarios.StalePauseCorrected |
