/**
 * The shapes shared by the quiz server and its clients: rooms, players,
 * questions, answers and chat messages, the column defaults of the room and
 * player tables, the join/create form rules and the fixed question bank.
 */
module Schema {
  import opened Wrappers

  /** Room and player ids are opaque strings (random UUIDs in the server). */
  type Id = string

  /** A point in time as the store records it; its value is never inspected. */
  type Timestamp = int

  /** The `status` column, which holds one of "lobby", "playing" and "finished". */
  datatype Status = Lobby | Playing | Finished

  datatype Room = Room(id: Id, code: string, status: Status, currentQuestion: int, createdAt: Timestamp)

  datatype Player = Player(
    id: Id, name: string, roomId: Id,
    score: int, streak: int, ready: bool, isHost: bool,
    joinedAt: Timestamp)

  /** A multiple-choice question; `timeLimit` is in seconds. */
  datatype Question = Question(
    id: int, text: string, options: seq<string>,
    correctAnswer: int, timeLimit: int, category: Option<string>)

  /** One submission; `timeTaken` is in milliseconds. */
  datatype Answer = Answer(
    playerId: Id, questionId: int, selectedAnswer: int,
    timeTaken: int, isCorrect: bool, pointsEarned: int)

  datatype ChatMessage = ChatMessage(
    id: string, playerId: Id, playerName: string,
    message: Option<string>, emoji: Option<string>, timestamp: int)

  /** A room row without the columns the store fills in (`id`, `createdAt`). */
  datatype InsertRoom = InsertRoom(code: string, status: Status, currentQuestion: int)

  /** A player row without the columns the store fills in (`id`, `joinedAt`). */
  datatype InsertPlayer = InsertPlayer(
    name: string, roomId: Id, score: int, streak: int, ready: bool, isHost: bool)

  /** The fields of a room that callers of `updateRoom` change. */
  datatype RoomUpdate = RoomUpdate(status: Option<Status>, currentQuestion: Option<int>)

  /** The fields of a player that callers of `updatePlayer` change. */
  datatype PlayerUpdate = PlayerUpdate(
    score: Option<int>, streak: Option<int>, ready: Option<bool>, isHost: Option<bool>)

  // Column constraints and defaults of the `rooms` and `players` tables.
  const RoomCodeLength := 6
  const DefaultStatus := Lobby
  const DefaultCurrentQuestion := 0
  const DefaultScore := 0
  const DefaultStreak := 0
  const DefaultReady := false
  const DefaultIsHost := false

  /** A room row as the table's defaults fill it in from just its code. */
  function DefaultRoom(code: string): (r: InsertRoom)
    ensures r.code == code && r.status == Lobby && r.currentQuestion == 0
  {
    InsertRoom(code, DefaultStatus, DefaultCurrentQuestion)
  }

  /** A player row as the table's defaults fill it in from its name and room. */
  function DefaultPlayer(name: string, roomId: Id): (p: InsertPlayer)
    ensures p.name == name && p.roomId == roomId
    ensures p.score == 0 && p.streak == 0 && !p.ready && !p.isHost
  {
    InsertPlayer(name, roomId, DefaultScore, DefaultStreak, DefaultReady, DefaultIsHost)
  }

  // The extended validation schemas: the messages each rule reports.
  const CodeLengthIssue := "Room code must be 6 characters"
  const NameRequiredIssue := "Name is required"
  const NameTooLongIssue := "Name too long"
  const MaxNameLength := 20

  /** The issues a player name raises: at least one and at most 20 characters. */
  function NameIssues(playerName: string): (issues: seq<string>)
    ensures NameRequiredIssue in issues <==> |playerName| < 1
    ensures NameTooLongIssue in issues <==> |playerName| > MaxNameLength
    ensures forall m :: m in issues ==> m == NameRequiredIssue || m == NameTooLongIssue
  {
    (if |playerName| < 1 then [NameRequiredIssue] else [])
    + (if |playerName| > MaxNameLength then [NameTooLongIssue] else [])
  }

  /** `joinRoomSchema`: every rule is checked and every failed rule is reported. */
  function JoinRoomIssues(code: string, playerName: string): (issues: seq<string>)
    ensures issues == [] <==> |code| == RoomCodeLength && 1 <= |playerName| <= MaxNameLength
    ensures CodeLengthIssue in issues <==> |code| != RoomCodeLength
  {
    (if |code| != RoomCodeLength then [CodeLengthIssue] else []) + NameIssues(playerName)
  }

  /** `createRoomSchema`: only the name rules. */
  function CreateRoomIssues(playerName: string): (issues: seq<string>)
    ensures issues == [] <==> 1 <= |playerName| <= MaxNameLength
  {
    NameIssues(playerName)
  }

  /** `SAMPLE_QUESTIONS`. */
  const SampleQuestions: seq<Question> := [
    Question(1, "What is the capital of France?",
      ["London", "Berlin", "Paris", "Madrid"], 2, 15, Some("Geography")),
    Question(2, "Which planet is known as the Red Planet?",
      ["Venus", "Mars", "Jupiter", "Saturn"], 1, 15, Some("Science")),
    Question(3, "Who painted the Mona Lisa?",
      ["Vincent van Gogh", "Pablo Picasso", "Leonardo da Vinci", "Michelangelo"], 2, 15, Some("Art")),
    Question(4, "What is the largest ocean on Earth?",
      ["Atlantic Ocean", "Indian Ocean", "Arctic Ocean", "Pacific Ocean"], 3, 15, Some("Geography")),
    Question(5, "In what year did World War II end?",
      ["1943", "1944", "1945", "1946"], 2, 15, Some("History")),
    Question(6, "What is the smallest prime number?",
      ["0", "1", "2", "3"], 2, 15, Some("Math")),
    Question(7, "Which element has the chemical symbol 'O'?",
      ["Gold", "Oxygen", "Osmium", "Oganesson"], 1, 15, Some("Science")),
    Question(8, "Who wrote 'Romeo and Juliet'?",
      ["Charles Dickens", "William Shakespeare", "Jane Austen", "Mark Twain"], 1, 15, Some("Literature")),
    Question(9, "What is the speed of light in vacuum?",
      ["300,000 km/s", "150,000 km/s", "450,000 km/s", "600,000 km/s"], 0, 15, Some("Science")),
    Question(10, "Which country is home to the kangaroo?",
      ["New Zealand", "South Africa", "Australia", "Brazil"], 2, 15, Some("Geography"))
  ]

  /** A well-formed question: four options, a correct index among them, a positive time limit. */
  predicate WellFormed(q: Question) {
    |q.options| == 4 && 0 <= q.correctAnswer < |q.options| && q.timeLimit > 0
  }

  /** The bank holds ten questions whose ids are 1 to 10 in order. */
  lemma BankIds()
    ensures |SampleQuestions| == 10
    ensures forall i :: 0 <= i < |SampleQuestions| ==> SampleQuestions[i].id == i + 1
  {
  }

  /** Every bank question has four options, a correct index in 0..3 and 15 seconds. */
  lemma BankQuestionsWellFormed()
    ensures forall q :: q in SampleQuestions ==>
      WellFormed(q) && |q.options| == 4 && 0 <= q.correctAnswer < 4 && q.timeLimit == 15
  {
  }

  /** Bank questions with the same id are the same question. */
  lemma BankIdsDistinct()
    ensures forall i, j :: 0 <= i < |SampleQuestions| && 0 <= j < |SampleQuestions| && i != j ==>
      SampleQuestions[i].id != SampleQuestions[j].id
  {
    BankIds();
  }
}
