/**
 * What the quiz server sends over its sockets. A socket is a `ConnId`; every
 * `ws.send` is one `Delivery` appended to a global log, and a connection's
 * outbox is the part of that log addressed to it.
 */
module Messages {
  import opened Wrappers
  import opened Schema
  import Seqs

  /** A client socket. */
  type ConnId = nat

  /** A question as `sendQuestion` puts it on the wire: every field except `correctAnswer`. */
  datatype QuestionView = QuestionView(
    id: int, text: string, options: seq<string>, timeLimit: int, category: Option<string>)

  /** The server-to-client messages, one constructor per `type` the server emits. */
  datatype ServerMessage =
    | Joined(player: Player, room: Room)
    | PlayersUpdated(players: seq<Player>)
    | SendQuestion(question: QuestionView, questionNumber: int, totalQuestions: int)
    | AnswerResult(isCorrect: bool, correctAnswer: int, pointsEarned: int, newScore: int)
    | UpdateScores(players: seq<Player>)
    | ChatMessageSent(message: ChatMessage)
    | GameFinished(players: seq<Player>)
    | Error(reason: string)

  /** One `ws.send`: the socket written to and the message written. */
  datatype Delivery = Delivery(to: ConnId, msg: ServerMessage)

  const GameInProgress := "Game already in progress"

  /** The question payload of `send_question`. */
  function View(q: Question): (v: QuestionView)
    ensures v.id == q.id && v.text == q.text && v.options == q.options
    ensures v.timeLimit == q.timeLimit && v.category == q.category
  {
    QuestionView(q.id, q.text, q.options, q.timeLimit, q.category)
  }

  /** The correct answer does not reach the wire: questions that differ only there look the same. */
  lemma ViewHidesAnswer(q: Question, other: int)
    ensures View(q) == View(q.(correctAnswer := other))
  {
  }

  /** Two questions with the same view differ at most in their correct answer. */
  lemma ViewKeepsTheRest(q1: Question, q2: Question)
    requires View(q1) == View(q2)
    ensures q1.(correctAnswer := 0) == q2.(correctAnswer := 0)
  {
  }

  /**
   * The loop of `broadcastToRoom`: one delivery, in order, to the socket of
   * each listed player that has one; players without a socket are skipped.
   */
  function Fanout(ids: seq<Id>, conns: map<Id, ConnId>, msg: ServerMessage): seq<Delivery> {
    if ids == [] then []
    else (if ids[0] in conns then [Delivery(conns[ids[0]], msg)] else []) + Fanout(ids[1..], conns, msg)
  }

  /**
   * A broadcast carries only `msg`, at most once per listed player, to sockets
   * of listed players, and reaches the socket of every listed player that has one.
   */
  lemma {:induction false} FanoutDelivers(ids: seq<Id>, conns: map<Id, ConnId>, msg: ServerMessage)
    ensures var r := Fanout(ids, conns, msg);
      && |r| <= |ids|
      && (forall d :: d in r ==> d.msg == msg)
      && (forall d :: d in r ==> exists id :: id in ids && id in conns && conns[id] == d.to)
      && (forall id :: id in ids && id in conns ==> Delivery(conns[id], msg) in r)
  {
    if ids != [] {
      FanoutDelivers(ids[1..], conns, msg);
      assert forall id :: id in ids[1..] ==> id in ids;
      assert forall id :: id in ids && id != ids[0] ==> id in ids[1..];
    }
  }

  /** Sending to a list of players in two parts sends the same deliveries in the same order. */
  lemma {:induction false} FanoutAppend(a: seq<Id>, b: seq<Id>, conns: map<Id, ConnId>, msg: ServerMessage)
    ensures Fanout(a + b, conns, msg) == Fanout(a, conns, msg) + Fanout(b, conns, msg)
  {
    if a == [] {
      assert a + b == b;
    } else {
      assert (a + b)[1..] == a[1..] + b;
      FanoutAppend(a[1..], b, conns, msg);
    }
  }

  /** The messages the log addresses to connection `c`, in the order they were sent. */
  function Outbox(log: seq<Delivery>, c: ConnId): (out: seq<ServerMessage>)
    ensures |out| <= |log|
    ensures forall m :: m in out <==> Delivery(c, m) in log
  {
    if log == [] then []
    else
      var rest := Outbox(log[1..], c);
      assert forall d :: d in log <==> d == log[0] || d in log[1..];
      (if log[0].to == c then [log[0].msg] else []) + rest
  }

  /** Appending to the log appends to each outbox. */
  lemma {:induction false} OutboxAppend(a: seq<Delivery>, b: seq<Delivery>, c: ConnId)
    ensures Outbox(a + b, c) == Outbox(a, c) + Outbox(b, c)
  {
    if a == [] {
      assert a + b == b;
    } else {
      assert (a + b)[1..] == a[1..] + b;
      OutboxAppend(a[1..], b, c);
    }
  }

  /**
   * A broadcast to a list without repetitions puts the message exactly once in
   * the outbox of a listed player's socket, when no other listed player shares it.
   */
  lemma {:induction false} FanoutOnce(ids: seq<Id>, conns: map<Id, ConnId>, msg: ServerMessage, id: Id)
    requires Seqs.Distinct(ids) && id in ids && id in conns
    requires forall other :: other in ids && other in conns && other != id ==> conns[other] != conns[id]
    ensures Outbox(Fanout(ids, conns, msg), conns[id]) == [msg]
  {
    var head := if ids[0] in conns then [Delivery(conns[ids[0]], msg)] else [];
    assert Fanout(ids, conns, msg) == head + Fanout(ids[1..], conns, msg);
    OutboxAppend(head, Fanout(ids[1..], conns, msg), conns[id]);
    assert Seqs.Distinct(ids[1..]);
    if ids[0] == id {
      assert id !in ids[1..];
      OutboxAbsent(ids[1..], conns, msg, conns[id]);
    } else {
      assert id in ids[1..];
      FanoutOnce(ids[1..], conns, msg, id);
    }
  }

  /** A broadcast reaches only the sockets of listed players. */
  lemma {:induction false} OutboxAbsent(ids: seq<Id>, conns: map<Id, ConnId>, msg: ServerMessage, c: ConnId)
    requires forall id :: id in ids && id in conns ==> conns[id] != c
    ensures Outbox(Fanout(ids, conns, msg), c) == []
  {
    if ids != [] {
      var head := if ids[0] in conns then [Delivery(conns[ids[0]], msg)] else [];
      OutboxAppend(head, Fanout(ids[1..], conns, msg), c);
      OutboxAbsent(ids[1..], conns, msg, c);
    }
  }
}
