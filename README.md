# QuizSprint server core in Dafny

QuizSprint is a multiplayer quiz game. Players join a room by a six-character code, the host
starts a game of ten questions drawn from a fixed bank, and every player answers each question
against a timer. An answer earns points for correctness, speed and an answer streak. The server
is a WebSocket handler over an in-memory store.

This project models the server's core as one sequential state machine and proves properties of
the model:

- `Schema` (`schema.dfy`): the shared record shapes, the table defaults, the join/create form
  rules and the ten-question bank.
- `Scoring` (`scoring.dfy`): the points a submitted answer earns, as exact integer arithmetic.
- `OrderedMap` (`ordered_map.dfy`): a JavaScript `Map`. A value pairs the entries with the key
  insertion order, because `values()` iterates in that order and the store's queries depend on
  it.
- `Storage` (`storage.dfy`): the `MemStorage` class. Its four map-valued fields are rooms,
  players, per-room answer lists and per-key chat lists. One method per `IStorage` operation,
  each framed to the one field it changes.
- `Messages` (`messages.dfy`): the messages the server writes to sockets. A broadcast is a
  fan-out over a room's player set. Every write is a `Delivery` appended to a log, and a socket's
  outbox is its part of that log.
- `Routes` (`routes.dfy`):
  - the `GameServer` class, holding the four module-level tables (socket per player, player set
    per room, questions per room, armed round timer per room), the two closure variables of each
    open socket, the store and the delivery log;
  - one method per handled client message (`join_room`, `player_ready`, `start_game`,
    `submit_answer`, `send_emoji`, `leave_room`), per socket close, and per firing of the round
    timer;
  - pure functions of a snapshot of the eight tables, which state the new tables and the messages
    sent.

  `GameServer.Valid()` is the store's own invariant together with `Routes.Invariant`:
  - every stored player belongs to a stored room;
  - no room is before its first question;
  - every question list has well-formed 15-second questions;
  - every room's player set lists each id once.

  Every handler keeps `Valid()`.

The model follows the code as written, including these behaviours:

- `start_game` does not look at the room's status, so a host can restart a running game.
- `join_room` honours a client-sent `isHost`, so a room can have more than one host. The first
  player of a room is host either way.
- `join_room` does not apply the `joinRoomSchema` rules to its payload. Those rules are modelled
  on their own, in `Schema.JoinRoomIssues`.
- `joinRoomSchema` reports every failed rule, not just the first.
- The database's uniqueness constraint on room codes is not enforced by `MemStorage`.
  `getRoomByCode` returns the first room with the code.
- The "everyone answered" test compares the raw number of saved answers to the question with the
  current roster size. Repeated answers by one player count every time, and answers by departed
  players still count.
- A player that re-joins on the same socket leaves its earlier player row stored.
- A message is filed under the part of its id before the first dash, and `send_emoji` ids start
  with the room id. So a room id that contains a dash, as every random UUID does, files its chat
  under a different key. The room's clean-up then leaves that chat behind (`Routes.EmojiFiling`).
- A second `handleDisconnect` for the same player, as the socket close after `leave_room`, changes
  no table (`Routes.DepartedIdempotent`). It does send the remaining players the same roster once
  more (`Routes.FarewellRepeats`).
- The speed bonus is not clamped: after the time limit it is negative, so the base of 100 plus
  the bonus falls below 100 (`Scoring.SpeedBonusRange`). The streak multiplier still applies to
  that base, so the points earned can exceed 100.

Fresh ids, the clock and the shuffle are parameters:

- `newRoomId`, `newPlayerId`: the UUIDs the store draws, required to be fresh;
- `now`: `Date.now()` and `new Date()`, as an integer;
- `stamp`: the `Date.now()-Math.random()` tail of a chat message id;
- `perm`: the order the random sort leaves the bank in, required to be a permutation of its
  indices.

## Model

| member | source | states |
|---|---|---|
| Schema.DefaultRoom | shared/schema.ts:9-11 | a room row filled in from its code is in the lobby at question 0 |
| Schema.DefaultPlayer | shared/schema.ts:18-23 | a player row filled in from name and room has score 0, streak 0, not ready, not host |
| Schema.NameIssues | shared/schema.ts:89 | "Name is required" is reported iff the name is empty, "Name too long" iff it is longer than 20, and nothing else is reported |
| Schema.JoinRoomIssues | shared/schema.ts:87-90 | the join form passes iff the code has exactly 6 characters and the name 1 to 20; the code message appears iff the code length is wrong |
| Schema.CreateRoomIssues | shared/schema.ts:92-94 | the create form passes iff the name has 1 to 20 characters |
| Schema.BankIds | shared/schema.ts:105-186 | the bank has exactly 10 questions whose ids are 1..10 in order |
| Schema.BankQuestionsWellFormed | shared/schema.ts:105-186 | every bank question has 4 options, a correct answer in 0..3 and a 15-second limit |
| Schema.BankIdsDistinct | shared/schema.ts:105-186 | no two bank questions share an id |
| Scoring.SpeedBonus | server/routes.ts:144 | the bonus is the floor of 50 times the unused fraction of the time limit (both floor inequalities) |
| Scoring.Multiplier | server/routes.ts:153 | below streak 9 the multiplier is exactly the streak divided by 3, rounded down, and from streak 9 on it is exactly 3 |
| Scoring.Scaled | server/routes.ts:154 | the scaled points are the floor of points times (1 + m/2) |
| Scoring.Score | server/routes.ts:138-158 | correct iff the selected answer is the correct one; a wrong answer earns 0 and resets the streak; a correct one increments the streak and earns the floor of (100 + bonus) times the multiplier of the new streak |
| Scoring.SpeedBonusRange | server/routes.ts:144 | within the limit the bonus is 0..50, 50 at time 0, 0 at the deadline, and negative after it |
| Scoring.SpeedBonusMonotone | server/routes.ts:144 | a slower answer never earns a larger bonus |
| Scoring.MultiplierRange | server/routes.ts:153 | for a non-negative streak the multiplier is 0..3, and 3 from streak 9 on |
| Scoring.EarnedRange | server/routes.ts:138-158 | a correct answer within the limit earns between 100 and 375 points |
| Scoring.Examples | server/routes.ts:138-158 | 150 points at once, 100 at the deadline, 225 on a third straight correct answer, 0 and streak 0 for a wrong one |
| Seqs.Filter | server/storage.ts:95-97 | the filter keeps exactly the accepted elements, in their order, each as many times as it occurs |
| Seqs.Find | server/storage.ts:120-122 | find returns nothing iff no element is accepted, else the element at the first accepted position |
| Seqs.FindIndex | server/storage.ts:61-63 | the index found is the first accepted position, or the length when there is none |
| Seqs.FindIndexAppend | server/storage.ts:119-122 | searching a concatenation finds the first part's match if it has one, else the second part's, shifted by the first part's length |
| Seqs.FindFlatten | server/storage.ts:119-122 | find over the flattened lists returns the first accepted element of the first list that has one |
| OrderedMap.Empty | server/storage.ts:37-42 | a new map has no entries |
| OrderedMap.Put | server/storage.ts:52 | set stores the value; a new key goes last in the order, an existing key keeps its place |
| OrderedMap.Remove | server/storage.ts:74-76 | delete drops exactly the key and keeps the order of the others |
| OrderedMap.RemoveAll | server/storage.ts:112-115 | deleting a list of keys drops exactly those keys, keeps every other entry unchanged, and keeps their order |
| OrderedMap.RemoveAllSnoc | server/storage.ts:114 | deleting one more key extends a run of deletions by one step |
| OrderedMap.Values | server/storage.ts:61 | values() lists the entries in key insertion order, each once |
| OrderedMap.ValuesAfterAdd | server/storage.ts:86 | setting a new key adds its value at the end of values() |
| OrderedMap.RemoveAbsent | server/storage.ts:108-110 | deleting a missing key changes nothing |
| OrderedMap.RemoveTwice | server/storage.ts:108-110 | deleting a key twice is deleting it once |
| Storage.RoomByCode | server/storage.ts:60-64 | undefined iff no room has the code, else a room with the code before which no room in insertion order has it |
| Storage.PlayersOf | server/storage.ts:94-98 | the roster lists exactly the stored players of the room, in insertion order |
| Storage.RosterEmpty | server/storage.ts:94-98 | a roster is empty iff no stored player points at the room |
| Storage.RosterAfterCreate | server/storage.ts:79-88 | creating a player appends it to its own room's roster and leaves every other roster alone |
| Storage.RoomByCodeAfterCreate | server/storage.ts:45-64 | after creating a room with a code no room had, the lookup of that code finds the new room |
| Storage.RosterIds | server/storage.ts:94-98 | a stored id is on a room's roster iff its player points at the room |
| Storage.WithoutRoom | server/storage.ts:112-115 | the table keeps exactly the players of other rooms, unchanged and in order, and the room's roster is empty |
| Storage.RosterRemoved | server/storage.ts:112-115 | deleting exactly the roster's ids leaves exactly the other rooms' players |
| Storage.AnswersFor | server/storage.ts:134-137 | the room's answers to the question are exactly its saved answers with that id, in saving order, each saved copy counted, and none for a room without a list |
| Storage.AllAnswers | server/storage.ts:119 | the list is the rooms' answer lists concatenated in room insertion order, so it holds exactly the answers saved under some room |
| Storage.FirstAnswer | server/storage.ts:118-123 | undefined iff no saved answer is by the player to the question, else the first such answer, scanning rooms in insertion order and each room's list in saving order |
| Storage.FindAnswerNone | server/storage.ts:118-123 | the search over all answers finds nothing iff no saved answer is by the player to the question |
| Storage.FindAnswerFirst | server/storage.ts:118-123 | what the search over all answers finds is the first match, room by room in insertion order |
| Storage.ChatKey | server/storage.ts:149 | the key is the longest dash-free prefix of the id |
| Storage.ApplyRoomUpdate | server/storage.ts:69 | fields the update carries replace the room's, the rest keep their values, and an empty update changes nothing |
| Storage.ApplyPlayerUpdate | server/storage.ts:103 | fields the update carries replace the player's, the rest keep their values, and an empty update changes nothing |
| Storage.UpdatedRooms | server/storage.ts:66-72 | updating a room changes no key, no order and no other room; a missing id changes nothing |
| Storage.UpdatedPlayers | server/storage.ts:100-106 | updating a player changes no key, no order and no other player; a missing id changes nothing |
| Storage.SavedAnswers | server/storage.ts:125-132 | saving an answer by an unknown player changes nothing, else appends it to the list of the player's room |
| Storage.AddedChat | server/storage.ts:148-152 | a message is appended to the list under its chat key and no other list changes |
| Storage.RosterAfterUpdate | server/storage.ts:100-106 | after updating a player every roster lists the same players in the same order, the updated one changed |
| Storage.TouchedKeepsRoom | server/storage.ts:100-106 | no update moves a player to another room |
| Storage.ValuesAfterUpdate | server/storage.ts:100-106 | after an update the table's values are the old ones with the updated player changed in place |
| Storage.AnswersForAfterSave | server/storage.ts:125-137 | after saving an answer for the room, the room's answers to a question gain it at the end iff it is to that question |
| Storage.ClearedAnswersGone | server/storage.ts:139-141 | after clearing a room's answers it has none to any question, and other rooms' lists are unchanged |
| Storage.ChatKeyOfRoomMessage | server/storage.ts:149 | a message id made of a dash-free room id, a dash and a tail is filed under the room id |
| Storage.ChatKeyOfDashedRoom | server/storage.ts:149 | a message id that starts with a room id that contains a dash is filed under a key other than the room id |
| Storage.ChatKeyPrefix | server/storage.ts:149 | the chat key of a string with a dash does not depend on what follows it |
| Storage.MemStorage.constructor | server/storage.ts:37-42 | a new store has four empty tables |
| Storage.MemStorage.CreateRoom | server/storage.ts:45-54 | exactly one new room, under the fresh id and last in order, with the given fields |
| Storage.MemStorage.GetRoom | server/storage.ts:56-58 | returns the room stored under the id, or undefined iff there is none |
| Storage.MemStorage.GetRoomByCode | server/storage.ts:60-64 | returns the first room in insertion order with the code |
| Storage.MemStorage.UpdateRoom | server/storage.ts:66-72 | a missing id returns undefined and changes nothing, else the merged room is stored in place and returned |
| Storage.MemStorage.DeleteRoom | server/storage.ts:74-76 | only the room's entry goes |
| Storage.MemStorage.CreatePlayer | server/storage.ts:79-88 | exactly one new player, under the fresh id and last in order, with the given fields |
| Storage.MemStorage.GetPlayer | server/storage.ts:90-92 | returns the player stored under the id, or undefined iff there is none |
| Storage.MemStorage.GetPlayersByRoom | server/storage.ts:94-98 | returns the room's roster in insertion order |
| Storage.MemStorage.UpdatePlayer | server/storage.ts:100-106 | a missing id returns undefined and changes nothing, else the merged player is stored in place and returned |
| Storage.MemStorage.DeletePlayer | server/storage.ts:108-110 | only the player's entry goes |
| Storage.MemStorage.DeletePlayersByRoom | server/storage.ts:112-115 | all and only the room's players go, the rest keep their order |
| Storage.MemStorage.DeleteEach | server/storage.ts:114 | the loop deletes the listed players' ids one after another |
| Storage.MemStorage.GetAnswer | server/storage.ts:118-123 | returns the first saved answer by the player to the question, rooms in insertion order, each list in saving order |
| Storage.MemStorage.SaveAnswer | server/storage.ts:125-132 | an unknown player changes nothing, else the answer is appended to the list of the player's room |
| Storage.MemStorage.GetAnswersByQuestion | server/storage.ts:134-137 | returns the room's answers to the question in saving order, each saved copy counted |
| Storage.MemStorage.ClearAnswers | server/storage.ts:139-141 | the room's list goes, it has no answers to any question, and other lists stay |
| Storage.MemStorage.GetChatMessages | server/storage.ts:144-146 | returns the list under the room id, or an empty one |
| Storage.MemStorage.AddChatMessage | server/storage.ts:148-152 | the message is appended under the prefix of its id before the first dash |
| Storage.MemStorage.ClearChatMessages | server/storage.ts:154-156 | only the key equal to the room id goes |
| Messages.View | server/routes.ts:272-278 | the question payload carries every field of the question except the correct answer |
| Messages.ViewHidesAnswer | server/routes.ts:272-278 | changing the correct answer does not change the payload |
| Messages.ViewKeepsTheRest | server/routes.ts:272-278 | questions with the same payload differ at most in the correct answer |
| Messages.Fanout | server/routes.ts:316-328 | the deliveries of a broadcast to a player list, one per listed player with a socket, in list order; its properties are stated by Messages.FanoutDelivers, FanoutOnce, FanoutAppend and OutboxAbsent |
| Messages.FanoutDelivers | server/routes.ts:316-328 | a broadcast carries only the message, at most once per listed player, and reaches the socket of every listed player that has one and no other socket |
| Messages.FanoutAppend | server/routes.ts:322-327 | a broadcast to two lists in turn is the broadcast to their concatenation |
| Messages.Outbox | server/routes.ts:325 | a socket's outbox holds a message iff the log addresses it to that socket |
| Messages.OutboxAppend | server/routes.ts:325 | appending to the log appends to every outbox |
| Messages.FanoutOnce | server/routes.ts:316-328 | a listed player with its own socket gets a broadcast exactly once |
| Messages.OutboxAbsent | server/routes.ts:316-328 | a socket of no listed player gets nothing from a broadcast |
| Routes.AddMember | server/routes.ts:72-75 | adding to a set keeps its members, adds the id once, and keeps it free of repeats |
| Routes.RemoveMember | server/routes.ts:333 | deleting from a set leaves exactly the other members, in order and free of repeats |
| Routes.GameQuestions | server/routes.ts:116-117 | the first ten bank questions in the shuffled order; Routes.GameQuestionsShape states their shape |
| Routes.GameQuestionsShape | server/routes.ts:115-118 | a game is ten bank questions with distinct ids, each with four options and 15 seconds |
| Routes.NextStep | server/routes.ts:197-206 | the game finishes iff the next index (from question 0 for a missing room) reaches the question count (0 for missing questions), else moves to that index |
| Routes.NextStepWalk | server/routes.ts:287-295 | from question k of n a round end moves to k+1 while questions are left and finishes after the last |
| Routes.NextStepOrphan | server/routes.ts:286-291 | a round end whose questions are gone finishes the game; one whose room is gone moves to question 1 or finishes |
| Routes.Purge | server/routes.ts:340-351 | the room's row, answers, chat key, questions, player set and timer are gone and the tables stay sound; Routes.DepartedEmptiesRoom and PurgeAbsent state its effects |
| Routes.Promoted | server/routes.ts:353-357 | the players after the host check; Routes.DepartedHandsOver and PromoteSettles state that the first remaining player becomes host only when no host is left |
| Routes.Promote | server/routes.ts:353-357 | the hand-over keeps the tables sound; Routes.PromoteKeepsIds, PromoteSettles and PromoteFindsHost state its effects |
| Routes.Departed | server/routes.ts:330-365 | a disconnect keeps the tables sound; Routes.DepartedEmptiesRoom, DepartedKeepsRoom, DepartedHandsOver and DepartedIdempotent state its effects |
| Routes.Leave | server/routes.ts:331-336 | the player loses its row and its socket |
| Routes.MakeHostSetsFlag | server/routes.ts:356 | the host update sets the host flag and nothing else |
| Routes.LeaveAbsent | server/routes.ts:331-336 | a player with no row, socket or membership has nothing left to lose |
| Routes.PurgeAbsent | server/routes.ts:340-351 | cleaning up a room absent from every table changes nothing |
| Routes.PromoteKeepsIds | server/routes.ts:353-357 | the host hand-over changes no player's presence |
| Routes.PromoteSettles | server/routes.ts:353-357 | after the hand-over a room with players has a host, and a second hand-over changes nothing |
| Routes.PromoteFindsHost | server/routes.ts:353-357 | the hand-over leaves a room with players with a host |
| Routes.DepartedIdempotent | server/routes.ts:330-365 | a second disconnect of the same player from the same room changes no table |
| Routes.DepartedEmptiesRoom | server/routes.ts:338-351 | when the room empties, its row, answers, chat key equal to its id, questions, player set and timer all go, the player's row and socket go, and no player points at the room |
| Routes.DepartedKeepsRoom | server/routes.ts:352-363 | when players remain, the room's row, answers, chat, questions and timer stay, and only the leaving player loses its row, socket and membership |
| Routes.DepartedHandsOver | server/routes.ts:353-357 | when players remain the room has a host: the old players unchanged if one is left, else exactly the first remaining player in store order becomes host |
| Routes.LeaveKeepsInvariant | server/routes.ts:331-336 | losing a player keeps the server invariant |
| Routes.PurgeKeepsInvariant | server/routes.ts:340-351 | wiping a room no player points at keeps the server invariant |
| Routes.PromoteKeepsInvariant | server/routes.ts:353-357 | the hand-over keeps the server invariant |
| Routes.RoomUpdateKeepsInvariant | server/storage.ts:66-72 | a status change or a move to a non-negative question keeps the server invariant |
| Routes.GameOver | server/routes.ts:301-308 | finishing a game keeps the tables sound; the room's timer goes and its status becomes finished, as Routes.GameServer.Retire states |
| Routes.GameOverKeepsInvariant | server/routes.ts:301-308 | finishing a game keeps the server invariant |
| Routes.DepartedKeepsInvariant | server/routes.ts:330-365 | a disconnect keeps every player in a stored room |
| Routes.FarewellSent | server/routes.ts:338-363 | a disconnect that empties the room sends nothing, else the room's set gets the roster after the hand-over |
| Routes.FarewellRepeats | server/routes.ts:243-259 | a second disconnect of the same player sends the room the same roster again |
| Routes.Admitted | server/routes.ts:57-75 | storing the newcomer, binding its socket and adding it to the room's set keeps the tables sound; Routes.AdmitKeepsInvariant keeps the invariant |
| Routes.Entered | server/routes.ts:47-75 | past the lobby nothing changes, else the newcomer is admitted; Routes.JoinEffects states both cases |
| Routes.JoinedTables | server/routes.ts:32-90 | the tables after a join; Routes.JoinEffects and JoinKeepsInvariant state its effects |
| Routes.JoinSent | server/routes.ts:47-87 | the messages of a join; Routes.JoinEffects states them |
| Routes.JoinFindsRoom | server/routes.ts:36-45 | join ends in a stored room with the code, found by a later lookup; the table changes only when no room had the code, by one new lobby room at question 0 |
| Routes.JoinEffects | server/routes.ts:32-90 | in a lobby, the new player (score 0, streak 0, not ready, host iff asked or first) goes last on the roster, gets the socket and joins the room's set, and the socket gets joined and the room the roster; past the lobby only the error is sent and no player, socket or set changes |
| Routes.JoinKeepsInvariant | server/routes.ts:32-90 | join keeps the server invariant |
| Routes.AdmitKeepsInvariant | server/routes.ts:57-75 | storing a new player of a stored room keeps the server invariant |
| Routes.RoomAddKeepsInvariant | server/routes.ts:38-45 | storing a room at a non-negative question keeps the server invariant |
| Routes.PlayerUpdateKeepsInvariant | server/routes.ts:157-160 | player updates keep the server invariant |
| Routes.MayStart | server/routes.ts:107-113 | the start guard: a player and room on the socket, a stored host player and a stored room; Routes.GameServer.StartGame changes nothing when it fails |
| Routes.Started | server/routes.ts:118-121 | storing the questions and playing question 0 keeps the tables sound; Routes.StartKeepsInvariant keeps the invariant |
| Routes.StartKeepsInvariant | server/routes.ts:115-121 | starting a game with playable questions keeps the server invariant |
| Routes.Graded | server/routes.ts:130-149 | a graded answer's question is well formed with 15 seconds |
| Routes.Judge | server/routes.ts:138-154 | the outcome of an answer to the found question; Scoring.Score and Scoring.EarnedRange state it |
| Routes.Credit | server/routes.ts:157-160 | the score and streak update; Routes.CreditAgrees states it |
| Routes.Record | server/routes.ts:163-171 | the saved answer row; Routes.CreditAgrees and CreditEffects state it |
| Routes.Feedback | server/routes.ts:174-182 | the reply to the answering socket; Routes.CreditAgrees states that its score is the stored one |
| Routes.Credited | server/routes.ts:156-171 | grading keeps the tables sound; Routes.CreditAgrees and CreditEffects state its effects |
| Routes.CreditAgrees | server/routes.ts:156-182 | the reported new score is the stored one, it grows by exactly the saved points, the stored streak is the new streak, and no other player changes |
| Routes.RoundStep | server/routes.ts:197-201 | a move goes to an existing question after the first |
| Routes.RoundEndIgnoresTimer | server/routes.ts:189-194 | clearing the room's timer first changes neither the round's outcome nor what it sends |
| Routes.CreditKeepsInvariant | server/routes.ts:156-171 | grading an answer keeps the server invariant |
| Routes.RoundEnded | server/routes.ts:196-206 | ending a round keeps the tables sound; Routes.RoundEndEffects states its effects |
| Routes.RoundEndKeepsInvariant | server/routes.ts:196-206 | ending a round keeps the server invariant |
| Routes.Submitted | server/routes.ts:129-216 | the tables after submit_answer stay sound; Routes.SubmitKeepsInvariant keeps the invariant |
| Routes.SubmitKeepsInvariant | server/routes.ts:129-216 | submit_answer keeps the server invariant |
| Routes.RoundEndEffects | server/routes.ts:196-206 | after the last question the room is finished with no timer and gets the final roster; otherwise it moves to k+1 with its status, a 17000 ms timer, and question k+1 numbered k+2 |
| Routes.CreditEffects | server/routes.ts:156-171 | the room's roster after grading is the old one with only the submitter changed, and the saved answer is the last of the room's answers to the question |
| Routes.EmojiMessage | server/routes.ts:225-231 | the chat row of an emoji, its id starting with the room id and a dash; Routes.EmojiFiling states where it is filed |
| Routes.TimerFor | server/routes.ts:296 | the round timer's delay, the time limit plus 2 s in ms; Routes.RoundEndEffects states 17000 ms for a 15-second question |
| Routes.EmojiFiling | server/routes.ts:226-233 | an emoji in a room whose id has no dash is removed by the room's clean-up; in a room whose id has a dash it survives it |
| Routes.FindQuestion | server/routes.ts:133-136 | nothing iff the room has no list or no question with the id, else the first question of the list with that id |
| Routes.GameServer.constructor | server/routes.ts:8-11 | every table, session and log starts empty |
| Routes.GameServer.Connect | server/routes.ts:19-21 | a new socket has no player and no room |
| Routes.GameServer.Send | server/routes.ts:50-53 | one delivery to the socket is appended |
| Routes.GameServer.Broadcast | server/routes.ts:316-328 | the loop sends the room's fan-out in set order; nothing for a room without a set |
| Routes.GameServer.SendQuestion | server/routes.ts:262-299 | nothing for a missing list or an index past it; else the answer-free question numbered index+1 of the count goes to the room and a (limit+2)*1000 ms timer is armed |
| Routes.GameServer.EndGame | server/routes.ts:301-314 | the timer goes, the room is finished, and the room gets the roster |
| Routes.GameServer.Retire | server/routes.ts:302-308 | the timer goes and the room is finished |
| Routes.GameServer.Final | server/routes.ts:310-313 | the room gets the current roster |
| Routes.GameServer.Advance | server/routes.ts:286-293 | the step is the advance rule; a finish ends the game, a move changes only the room's question |
| Routes.GameServer.Timeout | server/routes.ts:285-296 | a round timer firing ends the round and sends the final roster or the next question |
| Routes.GameServer.EndRound | server/routes.ts:188-213 | with everyone answered, the timer goes, the round ends, and the scores go after the final roster or before the next question |
| Routes.GameServer.Conclude | server/routes.ts:196-213 | the advance rule picks the finish or the move, with the scores in the order the handler sends them |
| Routes.GameServer.FinishThenScores | server/routes.ts:201-213 | the last round ends the game, then the scores go |
| Routes.GameServer.MoveThenScores | server/routes.ts:203-213 | any other round moves the room on, then the scores and the next question go |
| Routes.GameServer.MoveOn | server/routes.ts:204 | only the room's current question changes |
| Routes.GameServer.Scores | server/routes.ts:210-213 | the room gets the current roster |
| Routes.GameServer.ScoresThenQuestion | server/routes.ts:205-213 | the scores, then the next question, go to the room, and its timer is armed |
| Routes.GameServer.CloseRound | server/routes.ts:184-213 | the round ends iff the answers to the question number the roster; the scores go either way |
| Routes.GameServer.Lookup | server/routes.ts:130-149 | the answer is ignored without a player and room, a question with the id, or a stored player |
| Routes.GameServer.Grade | server/routes.ts:151-182 | the score and streak are stored, the answer saved, and the result sent to the socket |
| Routes.GameServer.Respond | server/routes.ts:151-213 | grading, then the answer check |
| Routes.GameServer.SubmitAnswer | server/routes.ts:129-216 | the tables become the submitted ones and the socket and room get exactly the submission's messages |
| Routes.GameServer.SendEmoji | server/routes.ts:218-241 | without a player, room or stored player nothing changes; else the message is filed under its chat key and sent to the room |
| Routes.GameServer.FindOrCreateRoom | server/routes.ts:36-45 | the room is the first with the code, or a new lobby room at question 0 |
| Routes.GameServer.Register | server/routes.ts:57-75 | the new player is stored, bound to the socket and added to the room's set |
| Routes.GameServer.Admit | server/routes.ts:57-87 | the newcomer is registered; the socket gets joined and the room the roster with the newcomer last |
| Routes.GameServer.Enter | server/routes.ts:47-87 | past the lobby only an error to the socket; else the newcomer is admitted |
| Routes.GameServer.JoinRoom | server/routes.ts:32-90 | the tables, sessions and deliveries of a join, as the join functions state |
| Routes.GameServer.PlayerReady | server/routes.ts:92-104 | without a player and room nothing changes; else only the player is marked ready and the room gets its roster with that change |
| Routes.GameServer.Begin | server/routes.ts:115-124 | the room gets its questions, plays question 0, gets that question, and a timer is armed |
| Routes.GameServer.Deal | server/routes.ts:118-121 | the room's questions are stored and the room plays from question 0 |
| Routes.GameServer.StartGame | server/routes.ts:106-127 | without a host with a stored room nothing changes; else, whatever the status, ten shuffled bank questions, the room playing question 0, its timer, and the first question sent |
| Routes.GameServer.DropPlayer | server/routes.ts:331-336 | the socket, the membership and the row of the player go |
| Routes.GameServer.PurgeRoom | server/routes.ts:340-351 | every table loses the room |
| Routes.GameServer.PromoteHost | server/routes.ts:353-357 | with no host left the first remaining player becomes host |
| Routes.GameServer.HandOver | server/routes.ts:353-363 | the hand-over, then the roster to the room |
| Routes.GameServer.HandleDisconnect | server/routes.ts:330-365 | the tables become the departed ones and the room gets exactly the farewell |
| Routes.GameServer.Settle | server/routes.ts:338-364 | the clean-up of an empty room or the hand-over of a non-empty one |
| Routes.GameServer.LeaveRoom | server/routes.ts:243-248 | without a player and room nothing changes; else the disconnect of the socket's player |
| Routes.GameServer.Close | server/routes.ts:255-259 | the same as leave_room, and the socket is gone |

## Left out

- The WebSocket server, JSON parsing and serialisation, and `ws.on('error')` are transport I/O.
- The `readyState === OPEN` check is transport state: a broadcast delivers to every registered
  socket.
- The `try`/`catch` around a message handler is left out: no modelled step throws.
- Messages of other types, such as `send_chat`, match no case of the handler's switch. They do
  nothing, and no method models that no-op.
- `setTimeout`/`clearTimeout` are real-time scheduling. An armed timer is the delay it was armed
  with, and its firing is the `Timeout` event, which may arrive for any room at any time, as a
  stale timer can. The race between a timer and the last answer is not modelled.
- Routes.GameServer.ScoresThenQuestion: sends the next question at once, not 2 seconds later.
  The delayed send's reading of the socket's room variable when it fires is therefore not
  modelled: a leave in the meantime is not modelled.
- Scoring.SpeedBonus: exact integer arithmetic replaces double precision. Where the exact product
  is an integer, the double product can round just below it and floor one lower: with a 15 s
  limit, 12000 ms gives 10 here and 9 in doubles, and so do 5100, 8400, 10200, 11700, 13500 and
  13800 ms. NaN, infinities and rounding of very large values are not modelled.
- `Math.random`, `randomUUID` and `Date.now` are parameters: a permutation of the bank, fresh
  ids and opaque stamps. The comparator sort's actual distribution is not modelled.
- drizzle `pgTable` and zod internals: only the constraints the schema states are modelled. The
  database's unique-code and not-null constraints are not enforced by the in-memory store.
- The update records carry only the fields that callers of `updateRoom`/`updatePlayer` change:
  status and current question; score, streak, ready and host. An update that changes a key
  field is not modelled.
- Stored arrays are modelled as values: the store's in-place `push` on the list it just read is
  the append `SavedAnswers`/`AddedChat` describe. Aliasing of returned rows is not modelled.
- Strings are sequences of characters; UTF-16 code units and `payload: any` type confusion are
  not modelled.
- The client, including its reconnecting socket, React state, pages and components, is not part of
  this model.
