/**
 * The quiz server's WebSocket handlers, run as one sequential state machine.
 * A `GameServer` holds the four module-level tables of the server (socket per
 * player, player set per room, question list per room, armed timer per room),
 * the two closure variables of each socket, the store, and the log of every
 * message written to a socket. Each client message, each socket close and each
 * round timer firing is one method.
 */
module Routes {
  import opened Wrappers
  import opened Schema
  import opened Messages
  import opened Storage
  import Seqs
  import OM = OrderedMap
  import Scoring

  /** The closure variables `currentPlayerId` and `currentRoomId` of one socket. */
  datatype Session = Session(playerId: Option<Id>, roomId: Option<Id>)

  /** JavaScript truthiness of a `string | null`: set, and not the empty string. */
  predicate Truthy(s: Option<Id>) {
    s.Some? && s.value != ""
  }

  /** The guard `currentPlayerId && currentRoomId` that every in-room handler starts with. */
  predicate InRoom(s: Session) {
    Truthy(s.playerId) && Truthy(s.roomId)
  }

  /** `set.add(pid)` on a JavaScript `Set` kept as its members in insertion order. */
  function AddMember(members: seq<Id>, pid: Id): (r: seq<Id>)
    ensures forall x :: x in r <==> x in members || x == pid
    ensures members <= r
    ensures Seqs.Distinct(members) ==> Seqs.Distinct(r)
  {
    if pid in members then members else members + [pid]
  }

  /** `set.delete(pid)`. */
  function RemoveMember(members: seq<Id>, pid: Id): (r: seq<Id>)
    ensures forall x :: x in r <==> x in members && x != pid
    ensures Seqs.IsSubsequence(r, members)
    ensures Seqs.Distinct(members) ==> Seqs.Distinct(r)
  {
    Seqs.FilterKeepsDistinct(members, x => x != pid);
    Seqs.Filter(members, x => x != pid)
  }

  // ---------------------------------------------------------------------------
  // Question selection

  const QuestionsPerGame := 10

  /** `perm` lists each of the indices `0 .. n-1` once: the order a sort left the bank in. */
  ghost predicate IsPermutation(perm: seq<int>, n: nat) {
    && |perm| == n
    && (forall i :: 0 <= i < n ==> 0 <= perm[i] < n)
    && (forall i, j :: 0 <= i < j < n ==> perm[i] != perm[j])
  }

  /** `[...SAMPLE_QUESTIONS].sort(random).slice(0, 10)`, with the order the sort produced given as `perm`. */
  function GameQuestions(perm: seq<int>): (qs: seq<Question>)
    requires IsPermutation(perm, |SampleQuestions|)
  {
    var shuffled := seq(|perm|, i requires 0 <= i < |perm| => SampleQuestions[perm[i]]);
    shuffled[..QuestionsPerGame]
  }

  /** Every question of the list comes from the bank. */
  ghost predicate FromBank(qs: seq<Question>) {
    forall q :: q in qs ==> q in SampleQuestions
  }

  /** What the handlers rely on of a room's questions: each is well formed, with 15 seconds to answer. */
  ghost predicate Playable(qs: seq<Question>) {
    forall q :: q in qs ==> WellFormed(q) && q.timeLimit == 15
  }

  /** A game is ten different bank questions, each with four options and 15 seconds. */
  lemma GameQuestionsShape(perm: seq<int>)
    requires IsPermutation(perm, |SampleQuestions|)
    ensures var qs := GameQuestions(perm);
      && |qs| == QuestionsPerGame
      && FromBank(qs)
      && (forall i, j :: 0 <= i < j < |qs| ==> qs[i].id != qs[j].id)
      && (forall q :: q in qs ==> WellFormed(q) && q.timeLimit == 15)
  {
    BankIds();
    BankIdsDistinct();
    BankQuestionsWellFormed();
    var qs := GameQuestions(perm);
    forall i, j | 0 <= i < j < |qs|
      ensures qs[i].id != qs[j].id
    {
      assert qs[i] == SampleQuestions[perm[i]] && qs[j] == SampleQuestions[perm[j]];
    }
    forall q | q in qs
      ensures q in SampleQuestions
    {
      var i :| 0 <= i < |qs| && qs[i] == q;
      assert q == SampleQuestions[perm[i]];
    }
  }

  // ---------------------------------------------------------------------------
  // The advance rule shared by `submit_answer` and the round timer

  /** What happens when a round ends: the game finishes, or moves to question `index`. */
  datatype Step = Finish | MoveTo(index: int)

  /** `questions?.length || 0`. */
  function CountOf(questions: Option<seq<Question>>): nat {
    if questions.Some? then |questions.value| else 0
  }

  /**
   * `nextQuestionIndex = (room?.currentQuestion || 0) + 1`, then `endGame` when
   * it reaches the number of questions, else a move to that index.
   */
  function NextStep(room: Option<Room>, questions: Option<seq<Question>>): (s: Step)
    ensures var next := (if room.Some? then room.value.currentQuestion else 0) + 1;
      && (s.Finish? <==> next >= CountOf(questions))
      && (s.MoveTo? ==> s.index == next && s.index < CountOf(questions))
  {
    var next := (if room.Some? then room.value.currentQuestion else 0) + 1;
    if next >= CountOf(questions) then Finish else MoveTo(next)
  }

  /** From question `k` of `n`, a round end moves to `k + 1` while one is left and finishes after the last. */
  lemma NextStepWalk(room: Room, qs: seq<Question>)
    requires 0 <= room.currentQuestion < |qs|
    ensures NextStep(Some(room), Some(qs)) == if room.currentQuestion == |qs| - 1 then Finish
      else MoveTo(room.currentQuestion + 1)
    ensures NextStep(Some(room), Some(qs)).MoveTo? ==> 0 < NextStep(Some(room), Some(qs)).index < |qs|
  {
  }

  /** A round end in a room that is gone, or whose questions are gone, finishes the game. */
  lemma NextStepOrphan(room: Option<Room>, qs: Option<seq<Question>>)
    requires room.None? || qs.None?
    requires room.Some? ==> room.value.currentQuestion >= 0
    ensures NextStep(room, qs) == Finish || (room.None? && qs.Some? && NextStep(room, qs) == MoveTo(1))
  {
  }

  // ---------------------------------------------------------------------------
  // The server's tables and what `handleDisconnect` does to them

  /** A snapshot of every table the handlers touch: the four of the store and the four of the server. */
  datatype Tables = Tables(
    rooms: OM.OMap<Id, Room>, players: OM.OMap<Id, Player>,
    answers: OM.OMap<Id, seq<Answer>>, chat: OM.OMap<string, seq<ChatMessage>>,
    playerConnections: map<Id, ConnId>, roomConnections: map<Id, seq<Id>>,
    roomQuestions: map<Id, seq<Question>>, questionTimers: map<Id, int>)

  /** The store's own invariant, read off a snapshot. */
  ghost predicate Sound(t: Tables) {
    && t.rooms.Valid() && t.players.Valid() && t.answers.Valid() && t.chat.Valid()
    && RoomsKeyedById(t.rooms) && PlayersKeyedById(t.players)
  }

  /**
   * What the handlers keep true: every player belongs to a stored room, no room
   * is before its first question, every question list is playable, and a
   * room's player set holds each id once.
   */
  ghost predicate Invariant(t: Tables) {
    && (forall pid :: pid in t.players.entries ==> t.players.entries[pid].roomId in t.rooms.entries)
    && (forall rid :: rid in t.rooms.entries ==> t.rooms.entries[rid].currentQuestion >= 0)
    && (forall rid :: rid in t.roomQuestions ==> Playable(t.roomQuestions[rid]))
    && (forall rid :: rid in t.roomConnections ==> Seqs.Distinct(t.roomConnections[rid]))
  }

  const MakeHost := PlayerUpdate(None, None, None, Some(true))

  /** The host update sets `isHost` and nothing else. */
  lemma MakeHostSetsFlag(p: Player)
    ensures ApplyPlayerUpdate(p, MakeHost) == p.(isHost := true)
  {
  }

  /** `players.some(p => p.isHost)`. */
  predicate HasHost(roster: seq<Player>) {
    Seqs.Any(roster, (p: Player) => p.isHost)
  }

  /** The host hand-over of `handleDisconnect`: with no host left, the first remaining player becomes host. */
  function Promoted(players: OM.OMap<Id, Player>, roster: seq<Player>): (r: OM.OMap<Id, Player>)
    requires players.Valid()
  {
    if !HasHost(roster) && |roster| > 0 then UpdatedPlayers(players, roster[0].id, MakeHost) else players
  }

  /** The first steps of `handleDisconnect(pid, rid)`: the player loses its socket, its room membership and its row. */
  function Leave(t: Tables, pid: Id, rid: Id): (r: Tables)
    requires Sound(t)
    ensures Sound(r)
    ensures r.players == OM.Remove(t.players, pid) && r.playerConnections == t.playerConnections - {pid}
  {
    var members := if rid in t.roomConnections
      then t.roomConnections[rid := RemoveMember(t.roomConnections[rid], pid)]
      else t.roomConnections;
    t.(players := OM.Remove(t.players, pid), playerConnections := t.playerConnections - {pid},
       roomConnections := members)
  }

  /** The clean-up of an empty room: its row, answers, chat key, questions, player set and timer go. */
  function Purge(t: Tables, rid: Id): (r: Tables)
    requires Sound(t)
    ensures Sound(r)
  {
    t.(rooms := OM.Remove(t.rooms, rid), answers := OM.Remove(t.answers, rid), chat := OM.Remove(t.chat, rid),
       roomConnections := t.roomConnections - {rid}, roomQuestions := t.roomQuestions - {rid},
       questionTimers := t.questionTimers - {rid})
  }

  /** The host hand-over of a room that still has players. */
  function Promote(t: Tables, rid: Id): (r: Tables)
    requires Sound(t)
    ensures Sound(r)
  {
    t.(players := Promoted(t.players, PlayersOf(t.players, rid)))
  }

  /** Whether `handleDisconnect(pid, rid)` finds the room empty once the player is gone. */
  ghost predicate Emptied(t: Tables, pid: Id, rid: Id)
    requires Sound(t)
  {
    PlayersOf(Leave(t, pid, rid).players, rid) == []
  }

  /** The second half of `handleDisconnect`: clean up the room if no player is left in it, else hand over the host role. */
  function Settled(t: Tables, rid: Id): (r: Tables)
    requires Sound(t)
    ensures Sound(r)
  {
    if PlayersOf(t.players, rid) == [] then Purge(t, rid) else Promote(t, rid)
  }

  /** The tables after `handleDisconnect(pid, rid)`. */
  function Departed(t: Tables, pid: Id, rid: Id): (r: Tables)
    requires Sound(t)
    ensures Sound(r)
  {
    Settled(Leave(t, pid, rid), rid)
  }

  /** What `broadcastToRoom(rid, msg)` sends, read off a snapshot. */
  function AudienceIn(t: Tables, rid: Id, msg: ServerMessage): seq<Delivery> {
    if rid in t.roomConnections then Fanout(t.roomConnections[rid], t.playerConnections, msg) else []
  }

  /** What the second half of `handleDisconnect` sends: nothing for an emptied room, else the new roster to the room. */
  function Notice(t: Tables, rid: Id): seq<Delivery>
    requires Sound(t)
  {
    var r := Settled(t, rid);
    if PlayersOf(t.players, rid) == [] then [] else AudienceIn(r, rid, PlayersUpdated(PlayersOf(r.players, rid)))
  }

  /** What `handleDisconnect(pid, rid)` sends. */
  function Farewell(t: Tables, pid: Id, rid: Id): seq<Delivery>
    requires Sound(t)
  {
    Notice(Leave(t, pid, rid), rid)
  }

  /** A player with no row, no socket and no membership has nothing left to leave. */
  lemma LeaveAbsent(t: Tables, pid: Id, rid: Id)
    requires Sound(t) && pid !in t.players.entries && pid !in t.playerConnections
    requires rid in t.roomConnections ==> pid !in t.roomConnections[rid]
    ensures Leave(t, pid, rid) == t
  {
    OM.RemoveAbsent(t.players, pid);
    if rid in t.roomConnections {
      Seqs.FilterAll(t.roomConnections[rid], x => x != pid);
      assert RemoveMember(t.roomConnections[rid], pid) == t.roomConnections[rid];
      assert t.roomConnections[rid := t.roomConnections[rid]] == t.roomConnections;
    }
    assert t.playerConnections - {pid} == t.playerConnections;
  }

  /** A room that is already gone from every table has nothing left to clean up. */
  lemma PurgeAbsent(t: Tables, rid: Id)
    requires Sound(t) && rid !in t.rooms.entries && rid !in t.answers.entries && rid !in t.chat.entries
    requires rid !in t.roomConnections && rid !in t.roomQuestions && rid !in t.questionTimers
    ensures Purge(t, rid) == t
  {
    OM.RemoveAbsent(t.rooms, rid);
    OM.RemoveAbsent(t.answers, rid);
    OM.RemoveAbsent(t.chat, rid);
  }

  /** The hand-over changes no player's presence in the table. */
  lemma PromoteKeepsIds(t: Tables, rid: Id)
    requires Sound(t)
    ensures Promote(t, rid).players.entries.Keys == t.players.entries.Keys
  {
  }

  /** After the hand-over a room with players has a host, so a second hand-over changes nothing. */
  lemma PromoteSettles(t: Tables, rid: Id)
    requires Sound(t) && PlayersOf(t.players, rid) != []
    ensures HasHost(PlayersOf(Promote(t, rid).players, rid))
    ensures Promote(Promote(t, rid), rid) == Promote(t, rid)
  {
    PromoteFindsHost(t, rid);
    var once := Promote(t, rid);
    assert Promoted(once.players, PlayersOf(once.players, rid)) == once.players;
  }

  /** The hand-over leaves a room with players with a host. */
  lemma PromoteFindsHost(t: Tables, rid: Id)
    requires Sound(t) && PlayersOf(t.players, rid) != []
    ensures HasHost(PlayersOf(Promote(t, rid).players, rid))
  {
    var roster := PlayersOf(t.players, rid);
    var after := Promote(t, rid).players;
    if !HasHost(roster) {
      var first := roster[0];
      assert first in OM.Values(t.players);
      assert first.id in t.players.entries && t.players.entries[first.id] == first;
      assert after.entries[first.id] == first.(isHost := true);
      assert after.entries[first.id] in PlayersOf(after, rid);
    }
  }

  /** Closing a socket after `leave_room` repeats `handleDisconnect`; the second run changes no table. */
  lemma DepartedIdempotent(t: Tables, pid: Id, rid: Id)
    requires Sound(t)
    ensures Departed(Departed(t, pid, rid), pid, rid) == Departed(t, pid, rid)
  {
    var left := Leave(t, pid, rid);
    var once := Departed(t, pid, rid);
    if PlayersOf(left.players, rid) == [] {
      LeaveAbsent(once, pid, rid);
      PurgeAbsent(once, rid);
    } else {
      PromoteKeepsIds(left, rid);
      assert once == Promote(left, rid);
      LeaveAbsent(once, pid, rid);
      PromoteSettles(left, rid);
      assert Settled(once, rid) == once;
    }
  }

  /** A room that empties is wiped from every table, its chat under the key equal to its id. */
  lemma DepartedEmptiesRoom(t: Tables, pid: Id, rid: Id)
    requires Sound(t) && Emptied(t, pid, rid)
    ensures var r := Departed(t, pid, rid);
      && r.rooms == OM.Remove(t.rooms, rid) && r.answers == OM.Remove(t.answers, rid)
      && r.chat == OM.Remove(t.chat, rid)
      && r.roomConnections == t.roomConnections - {rid} && r.roomQuestions == t.roomQuestions - {rid}
      && r.questionTimers == t.questionTimers - {rid}
      && r.players == OM.Remove(t.players, pid) && r.playerConnections == t.playerConnections - {pid}
      && forall id :: id in r.players.entries ==> r.players.entries[id].roomId != rid
  {
    var left := Leave(t, pid, rid);
    assert Departed(t, pid, rid) == Purge(left, rid);
    RosterEmpty(left.players, rid);
  }

  /** A room that keeps players keeps its row, answers, chat, questions and timer, and loses only the player. */
  lemma DepartedKeepsRoom(t: Tables, pid: Id, rid: Id)
    requires Sound(t) && !Emptied(t, pid, rid)
    ensures var r := Departed(t, pid, rid);
      && r.rooms == t.rooms && r.answers == t.answers && r.chat == t.chat
      && r.roomQuestions == t.roomQuestions && r.questionTimers == t.questionTimers
      && r.playerConnections == t.playerConnections - {pid}
      && (rid in t.roomConnections ==>
        r.roomConnections == t.roomConnections[rid := RemoveMember(t.roomConnections[rid], pid)])
      && (rid !in t.roomConnections ==> r.roomConnections == t.roomConnections)
      && r.players.entries.Keys == t.players.entries.Keys - {pid}
      && forall id :: id in r.players.entries ==> r.players.entries[id].roomId == t.players.entries[id].roomId
  {
    var left := Leave(t, pid, rid);
    assert Departed(t, pid, rid) == Promote(left, rid);
  }

  /**
   * A room that keeps players has a host afterwards: the old one if any is
   * left, or else its first remaining player in store order, and no one else
   * changes.
   */
  lemma DepartedHandsOver(t: Tables, pid: Id, rid: Id)
    requires Sound(t) && !Emptied(t, pid, rid)
    ensures var left := OM.Remove(t.players, pid);
      var roster := PlayersOf(left, rid);
      var after := Departed(t, pid, rid).players;
      && HasHost(PlayersOf(after, rid))
      && (HasHost(roster) ==> after == left)
      && (!HasHost(roster) ==>
        && after.keys == left.keys
        && after.entries == left.entries[roster[0].id := roster[0].(isHost := true)])
  {
    var left := Leave(t, pid, rid);
    PromoteSettles(left, rid);
    var roster := PlayersOf(left.players, rid);
    if !HasHost(roster) {
      var first := roster[0];
      assert first in OM.Values(left.players);
      assert first.id in left.players.entries && left.players.entries[first.id] == first;
      MakeHostSetsFlag(first);
      assert Departed(t, pid, rid).players == OM.Put(left.players, first.id, first.(isHost := true));
    }
  }

  /** Losing one player keeps the invariant. */
  lemma LeaveKeepsInvariant(t: Tables, pid: Id, rid: Id)
    requires Sound(t) && Invariant(t)
    ensures Invariant(Leave(t, pid, rid))
  {
  }

  /** Wiping a room that no player points at keeps the invariant. */
  lemma PurgeKeepsInvariant(t: Tables, rid: Id)
    requires Sound(t) && Invariant(t)
    requires forall id :: id in t.players.entries ==> t.players.entries[id].roomId != rid
    ensures Invariant(Purge(t, rid))
  {
  }

  /** Handing over the host role keeps the invariant. */
  lemma PromoteKeepsInvariant(t: Tables, rid: Id)
    requires Sound(t) && Invariant(t)
    ensures Invariant(Promote(t, rid))
  {
  }

  /** Updating a room's status or moving it to a later question keeps the invariant. */
  lemma RoomUpdateKeepsInvariant(t: Tables, rid: Id, u: RoomUpdate)
    requires Sound(t) && Invariant(t)
    requires u.currentQuestion.Some? ==> u.currentQuestion.value >= 0
    ensures Invariant(t.(rooms := UpdatedRooms(t.rooms, rid, u)))
  {
  }

  /** The tables after `endGame`: the room finished and its timer gone. */
  function GameOver(t: Tables, rid: Id): (r: Tables)
    requires Sound(t)
    ensures Sound(r)
  {
    t.(rooms := UpdatedRooms(t.rooms, rid, RoomUpdate(Some(Finished), None)), questionTimers := t.questionTimers - {rid})
  }

  /** Finishing a game keeps the invariant. */
  lemma GameOverKeepsInvariant(t: Tables, rid: Id)
    requires Sound(t) && Invariant(t)
    ensures Invariant(GameOver(t, rid))
  {
    RoomUpdateKeepsInvariant(t, rid, RoomUpdate(Some(Finished), None));
  }

  /** `handleDisconnect` keeps every player in a stored room, which is what deleting only empty rooms is for. */
  lemma DepartedKeepsInvariant(t: Tables, pid: Id, rid: Id)
    requires Sound(t) && Invariant(t)
    ensures Invariant(Departed(t, pid, rid))
  {
    var left := Leave(t, pid, rid);
    LeaveKeepsInvariant(t, pid, rid);
    if PlayersOf(left.players, rid) == [] {
      RosterEmpty(left.players, rid);
      PurgeKeepsInvariant(left, rid);
    } else {
      PromoteKeepsInvariant(left, rid);
    }
  }

  /** A disconnect that empties its room sends nothing; otherwise the room's set gets the roster after the hand-over. */
  lemma FarewellSent(t: Tables, pid: Id, rid: Id)
    requires Sound(t)
    ensures Emptied(t, pid, rid) ==> Farewell(t, pid, rid) == []
    ensures !Emptied(t, pid, rid) ==>
      var r := Departed(t, pid, rid);
      Farewell(t, pid, rid) == AudienceIn(r, rid, PlayersUpdated(PlayersOf(r.players, rid)))
  {
  }

  /**
   * A second `handleDisconnect` for the same player and room, as a socket close
   * after `leave_room` runs it, sends the room the same roster once more.
   */
  lemma FarewellRepeats(t: Tables, pid: Id, rid: Id)
    requires Sound(t)
    ensures Farewell(Departed(t, pid, rid), pid, rid) == Farewell(t, pid, rid)
  {
    var left := Leave(t, pid, rid);
    var once := Departed(t, pid, rid);
    if PlayersOf(left.players, rid) == [] {
      LeaveAbsent(once, pid, rid);
      RosterEmpty(left.players, rid);
      assert PlayersOf(once.players, rid) == [] by {
        RosterEmpty(once.players, rid);
      }
    } else {
      PromoteKeepsIds(left, rid);
      assert once == Promote(left, rid);
      LeaveAbsent(once, pid, rid);
      PromoteSettles(left, rid);
      assert PlayersOf(once.players, rid) != [];
      assert Settled(once, rid) == once;
      var roster := PlayersUpdated(PlayersOf(once.players, rid));
      assert Notice(once, rid) == AudienceIn(once, rid, roster);
      assert Notice(left, rid) == AudienceIn(once, rid, roster);
    }
  }

  // ---------------------------------------------------------------------------
  // What `join_room` finds or creates

  /** The room `join_room` ends up in: the first room with the code, or else a new lobby room at question 0. */
  function JoinTarget(rooms: OM.OMap<Id, Room>, code: string, newRoomId: Id, now: Timestamp): Room
    requires rooms.Valid()
  {
    var found := RoomByCode(rooms, code);
    if found.Some? then found.value else Room(newRoomId, code, Lobby, 0, now)
  }

  /** The room table after `join_room` looked the code up: unchanged if found, else with the new room. */
  function JoinedRooms(rooms: OM.OMap<Id, Room>, code: string, newRoomId: Id, now: Timestamp): OM.OMap<Id, Room>
    requires rooms.Valid()
  {
    if RoomByCode(rooms, code).Some? then rooms else OM.Put(rooms, newRoomId, Room(newRoomId, code, Lobby, 0, now))
  }

  /**
   * `join_room` ends up in a stored room with the requested code, which a
   * later lookup of the code finds; only a code no room has creates a room.
   */
  lemma JoinFindsRoom(rooms: OM.OMap<Id, Room>, code: string, newRoomId: Id, now: Timestamp)
    requires rooms.Valid() && RoomsKeyedById(rooms) && newRoomId !in rooms.entries
    ensures var room := JoinTarget(rooms, code, newRoomId, now);
      var after := JoinedRooms(rooms, code, newRoomId, now);
      && after.Valid() && RoomsKeyedById(after)
      && room.code == code && room.id in after.entries && after.entries[room.id] == room
      && RoomByCode(after, code) == Some(room)
      && (RoomByCode(rooms, code).Some? ==> after == rooms)
      && (RoomByCode(rooms, code).None? ==>
        && room == Room(newRoomId, code, Lobby, 0, now)
        && after.entries == rooms.entries[newRoomId := room] && after.keys == rooms.keys + [newRoomId])
  {
    var found := RoomByCode(rooms, code);
    if found.Some? {
      var i :| 0 <= i < |rooms.keys| && found.value == rooms.entries[rooms.keys[i]];
    } else {
      RoomByCodeAfterCreate(rooms, Room(newRoomId, code, Lobby, 0, now));
    }
  }

  /** The player `join_room` creates: no points, no streak, not ready, host when asked or when first in the room. */
  function Newcomer(id: Id, name: string, roomId: Id, roster: seq<Player>, isHost: bool, now: Timestamp): Player {
    Player(id, name, roomId, 0, 0, false, isHost || |roster| == 0, now)
  }

  /** `roomConnections.get(rid)`, with a missing set read as an empty one. */
  function MembersOf(roomConnections: map<Id, seq<Id>>, rid: Id): seq<Id> {
    if rid in roomConnections then roomConnections[rid] else []
  }

  /** The tables once `join_room` has stored player `p` and bound it to socket `c`. */
  function Admitted(t: Tables, p: Player, c: ConnId): (r: Tables)
    requires Sound(t) && p.id !in t.players.entries
    ensures Sound(r)
  {
    t.(players := OM.Put(t.players, p.id, p), playerConnections := t.playerConnections[p.id := c],
       roomConnections := t.roomConnections[p.roomId := AddMember(MembersOf(t.roomConnections, p.roomId), p.id)])
  }

  /** The tables once a socket asked to enter `room`: unchanged past the lobby, else with the newcomer admitted. */
  function Entered(t: Tables, c: ConnId, room: Room, roster: seq<Player>, name: string, isHost: bool,
                   pid: Id, now: Timestamp): Tables
    requires Sound(t) && pid !in t.players.entries
  {
    if room.status != Lobby then t else Admitted(t, Newcomer(pid, name, room.id, roster, isHost, now), c)
  }

  /** What entering `room` sends: an error to the socket past the lobby, else `joined` to it and the new roster to the room. */
  function EnterSent(t: Tables, c: ConnId, room: Room, roster: seq<Player>, name: string, isHost: bool,
                     pid: Id, now: Timestamp): seq<Delivery>
    requires Sound(t) && pid !in t.players.entries
  {
    var p := Newcomer(pid, name, room.id, roster, isHost, now);
    if room.status != Lobby then [Delivery(c, Error(GameInProgress))]
    else [Delivery(c, Joined(p, room))] + AudienceIn(Admitted(t, p, c), room.id, PlayersUpdated(roster + [p]))
  }

  /** The socket's player and room once it asked to enter `room`. */
  function EnterSessions(sessions: map<ConnId, Session>, c: ConnId, room: Room, pid: Id): map<ConnId, Session> {
    if room.status != Lobby then sessions else sessions[c := Session(Some(pid), Some(room.id))]
  }

  /** The tables after `join_room`: the room table as looked up, then the room entered. */
  function JoinedTables(t: Tables, c: ConnId, code: string, name: string, isHost: bool,
                        newRoomId: Id, newPlayerId: Id, now: Timestamp): (r: Tables)
    requires Sound(t) && newRoomId !in t.rooms.entries && newPlayerId !in t.players.entries
  {
    var room := JoinTarget(t.rooms, code, newRoomId, now);
    JoinFindsRoom(t.rooms, code, newRoomId, now);
    var looked := t.(rooms := JoinedRooms(t.rooms, code, newRoomId, now));
    Entered(looked, c, room, PlayersOf(t.players, room.id), name, isHost, newPlayerId, now)
  }

  /** The socket's player and room after `join_room`. */
  function JoinedSessions(t: Tables, sessions: map<ConnId, Session>, c: ConnId, code: string,
                          newRoomId: Id, newPlayerId: Id, now: Timestamp): map<ConnId, Session>
    requires t.rooms.Valid()
  {
    EnterSessions(sessions, c, JoinTarget(t.rooms, code, newRoomId, now), newPlayerId)
  }

  /** What `join_room` sends. */
  function JoinSent(t: Tables, c: ConnId, code: string, name: string, isHost: bool,
                    newRoomId: Id, newPlayerId: Id, now: Timestamp): seq<Delivery>
    requires Sound(t) && newRoomId !in t.rooms.entries && newPlayerId !in t.players.entries
  {
    var room := JoinTarget(t.rooms, code, newRoomId, now);
    JoinFindsRoom(t.rooms, code, newRoomId, now);
    var looked := t.(rooms := JoinedRooms(t.rooms, code, newRoomId, now));
    EnterSent(looked, c, room, PlayersOf(t.players, room.id), name, isHost, newPlayerId, now)
  }

  /**
   * In a lobby, `join_room` stores the newcomer under its fresh id as the
   * last player of the room, gives it the socket, adds it to the room's
   * set, and sends the room a roster that is the old one with the newcomer
   * last; a first player is always host. Past the lobby, no player, socket
   * or set changes and the socket alone gets the error.
   */
  lemma JoinEffects(t: Tables, c: ConnId, code: string, name: string, isHost: bool,
                    newRoomId: Id, newPlayerId: Id, now: Timestamp)
    requires Sound(t) && newRoomId !in t.rooms.entries && newPlayerId !in t.players.entries
    ensures var room := JoinTarget(t.rooms, code, newRoomId, now);
      var r := JoinedTables(t, c, code, name, isHost, newRoomId, newPlayerId, now);
      var sent := JoinSent(t, c, code, name, isHost, newRoomId, newPlayerId, now);
      && r.rooms == JoinedRooms(t.rooms, code, newRoomId, now)
      && r.answers == t.answers && r.chat == t.chat
      && r.roomQuestions == t.roomQuestions && r.questionTimers == t.questionTimers
      && (room.status != Lobby ==>
        && r.players == t.players && r.playerConnections == t.playerConnections
        && r.roomConnections == t.roomConnections && sent == [Delivery(c, Error(GameInProgress))])
      && (room.status == Lobby ==>
        var p := r.players.entries[newPlayerId];
        && r.players.keys == t.players.keys + [newPlayerId]
        && r.players.entries == t.players.entries[newPlayerId := p]
        && p.roomId == room.id && p.name == name && p.score == 0 && p.streak == 0 && !p.ready
        && (p.isHost <==> isHost || PlayersOf(t.players, room.id) == [])
        && PlayersOf(r.players, room.id) == PlayersOf(t.players, room.id) + [p]
        && r.playerConnections == t.playerConnections[newPlayerId := c]
        && room.id in r.roomConnections && newPlayerId in r.roomConnections[room.id]
        && (forall id :: id in MembersOf(t.roomConnections, room.id) ==> id in r.roomConnections[room.id])
        && sent == [Delivery(c, Joined(p, room))] + AudienceIn(r, room.id, PlayersUpdated(PlayersOf(r.players, room.id))))
  {
    var room := JoinTarget(t.rooms, code, newRoomId, now);
    if room.status == Lobby {
      var p := Newcomer(newPlayerId, name, room.id, PlayersOf(t.players, room.id), isHost, now);
      RosterAfterCreate(t.players, p, room.id);
    }
  }

  /** `join_room` keeps the invariant: the newcomer's room is stored, found or created. */
  lemma JoinKeepsInvariant(t: Tables, c: ConnId, code: string, name: string, isHost: bool,
                           newRoomId: Id, newPlayerId: Id, now: Timestamp)
    requires Sound(t) && Invariant(t) && newRoomId !in t.rooms.entries && newPlayerId !in t.players.entries
    ensures Invariant(JoinedTables(t, c, code, name, isHost, newRoomId, newPlayerId, now))
  {
    JoinFindsRoom(t.rooms, code, newRoomId, now);
    var room := JoinTarget(t.rooms, code, newRoomId, now);
    var looked := t.(rooms := JoinedRooms(t.rooms, code, newRoomId, now));
    if RoomByCode(t.rooms, code).None? {
      RoomAddKeepsInvariant(t, room);
    }
    if room.status == Lobby {
      AdmitKeepsInvariant(looked, Newcomer(newPlayerId, name, room.id, PlayersOf(t.players, room.id), isHost, now), c);
    }
  }

  /** Storing a new player of a stored room keeps the invariant. */
  lemma AdmitKeepsInvariant(t: Tables, p: Player, c: ConnId)
    requires Sound(t) && Invariant(t) && p.id !in t.players.entries && p.roomId in t.rooms.entries
    ensures Invariant(Admitted(t, p, c))
  {
  }

  /** Storing a new room that is not before its first question keeps the invariant. */
  lemma RoomAddKeepsInvariant(t: Tables, room: Room)
    requires Sound(t) && Invariant(t) && room.currentQuestion >= 0
    ensures Invariant(t.(rooms := OM.Put(t.rooms, room.id, room)))
  {
  }

  /** Updating players keeps the invariant, since no update moves a player to another room. */
  lemma PlayerUpdateKeepsInvariant(t: Tables, pid: Id, u: PlayerUpdate)
    requires Sound(t) && Invariant(t)
    ensures Invariant(t.(players := UpdatedPlayers(t.players, pid, u)))
  {
  }

  // ---------------------------------------------------------------------------
  // What `start_game` and `submit_answer` decide

  const MakeReady := PlayerUpdate(None, None, Some(true), None)

  /** The guards of `start_game`: a player and room on the socket, the player stored and host, the room stored. */
  predicate MayStart(s: Session, players: OM.OMap<Id, Player>, rooms: OM.OMap<Id, Room>) {
    && InRoom(s)
    && s.playerId.value in players.entries && players.entries[s.playerId.value].isHost
    && s.roomId.value in rooms.entries
  }

  /** A started game: the room's questions `qs`, the room playing question 0. */
  function Started(t: Tables, rid: Id, qs: seq<Question>): (r: Tables)
    requires Sound(t)
    ensures Sound(r)
  {
    t.(roomQuestions := t.roomQuestions[rid := qs],
       rooms := UpdatedRooms(t.rooms, rid, RoomUpdate(Some(Playing), Some(0))))
  }

  /** Starting a game keeps the invariant when the new questions are playable, as a game drawn from the bank is. */
  lemma StartKeepsInvariant(t: Tables, rid: Id, qs: seq<Question>)
    requires Sound(t) && Invariant(t) && Playable(qs)
    ensures Invariant(Started(t, rid, qs))
  {
  }

  /** An answer `submit_answer` grades: its player and room, the question answered, and the player's row before. */
  datatype Submission = Submission(playerId: Id, roomId: Id, question: Question, player: Player)

  /**
   * The guards of `submit_answer`: a player and room on the socket, the
   * question among the room's questions, the player stored.
   */
  function Graded(s: Session, roomQuestions: map<Id, seq<Question>>, players: OM.OMap<Id, Player>, questionId: int)
    : (g: Option<Submission>)
    requires forall rid :: rid in roomQuestions ==> Playable(roomQuestions[rid])
    ensures g.Some? ==> g.value.question.timeLimit == 15 && WellFormed(g.value.question)
  {
    if !InRoom(s) then None
    else
      var q := FindQuestion(roomQuestions, s.roomId.value, questionId);
      if q.None? || s.playerId.value !in players.entries then None
      else
        assert Playable(roomQuestions[s.roomId.value]);
        Some(Submission(s.playerId.value, s.roomId.value, q.value, players.entries[s.playerId.value]))
  }

  /** The outcome of a graded answer: the player's streak before it and the question's time limit decide the points. */
  function Judge(sub: Submission, selectedAnswer: int, timeTaken: int): Scoring.Outcome
    requires sub.question.timeLimit > 0
  {
    Scoring.Score(sub.question.correctAnswer, selectedAnswer, timeTaken, sub.question.timeLimit, sub.player.streak)
  }

  /** The score and streak update `submit_answer` writes. */
  function Credit(sub: Submission, o: Scoring.Outcome): PlayerUpdate {
    PlayerUpdate(Some(sub.player.score + o.pointsEarned), Some(o.newStreak), None, None)
  }

  /** The answer row `submit_answer` saves. */
  function Record(sub: Submission, questionId: int, selectedAnswer: int, timeTaken: int, o: Scoring.Outcome): Answer {
    Answer(sub.playerId, questionId, selectedAnswer, timeTaken, o.isCorrect, o.pointsEarned)
  }

  /** The reply `submit_answer` sends the answering socket. */
  function Feedback(sub: Submission, o: Scoring.Outcome): ServerMessage {
    AnswerResult(o.isCorrect, sub.question.correctAnswer, o.pointsEarned, sub.player.score + o.pointsEarned)
  }

  /**
   * The score `answer_result` reports is the one stored, it grows by exactly
   * the points saved with the answer, the streak stored is the outcome's, and
   * every other player is left alone.
   */
  lemma CreditAgrees(players: OM.OMap<Id, Player>, sub: Submission, o: Scoring.Outcome,
                     questionId: int, selectedAnswer: int, timeTaken: int)
    requires players.Valid() && sub.playerId in players.entries && players.entries[sub.playerId] == sub.player
    ensures var after := UpdatedPlayers(players, sub.playerId, Credit(sub, o));
      && after.entries[sub.playerId].score == Feedback(sub, o).newScore
      && after.entries[sub.playerId].score - sub.player.score == Record(sub, questionId, selectedAnswer, timeTaken, o).pointsEarned
      && after.entries[sub.playerId].streak == o.newStreak
      && after.entries[sub.playerId].roomId == sub.player.roomId
      && forall id :: id in players.entries && id != sub.playerId ==> after.entries[id] == players.entries[id]
  {
  }

  /** The tables after a graded answer: the player's new score and streak stored, and the answer saved. */
  function Credited(t: Tables, sub: Submission, questionId: int, selectedAnswer: int, timeTaken: int): (r: Tables)
    requires Sound(t) && sub.question.timeLimit > 0
    ensures Sound(r)
  {
    var o := Judge(sub, selectedAnswer, timeTaken);
    var players := UpdatedPlayers(t.players, sub.playerId, Credit(sub, o));
    t.(players := players, answers := SavedAnswers(t.answers, players, Record(sub, questionId, selectedAnswer, timeTaken, o)))
  }

  /** The advance rule read off a snapshot: `currentQuestion + 1` against the room's question count. */
  function RoundStep(t: Tables, rid: Id): (s: Step)
    requires Invariant(t)
    ensures s.MoveTo? ==> rid in t.roomQuestions && 0 < s.index < |t.roomQuestions[rid]|
  {
    NextStep(OM.Get(t.rooms, rid), QuestionsOf(t.roomQuestions, rid))
  }

  /**
   * The tables after a round of `rid` ends: the room finished and its timer
   * gone, or the room at the next question with that question's timer armed.
   */
  function RoundEnded(t: Tables, rid: Id): (r: Tables)
    requires Sound(t) && Invariant(t)
    ensures Sound(r)
  {
    match RoundStep(t, rid)
    case Finish => GameOver(t, rid)
    case MoveTo(i) =>
      t.(rooms := UpdatedRooms(t.rooms, rid, RoomUpdate(None, Some(i))),
         questionTimers := t.questionTimers[rid := TimerFor(t.roomQuestions[rid][i])])
  }

  /** What the end of a round of `rid` sends the room: the final roster, or the next question without its answer. */
  function RoundEndSent(t: Tables, rid: Id): seq<Delivery>
    requires Sound(t) && Invariant(t)
  {
    match RoundStep(t, rid)
    case Finish => AudienceIn(t, rid, GameFinished(PlayersOf(t.players, rid)))
    case MoveTo(i) =>
      var qs := t.roomQuestions[rid];
      AudienceIn(t, rid, ServerMessage.SendQuestion(View(qs[i]), i + 1, |qs|))
  }

  /** The end of a round does not depend on the room's armed timer, which it clears or replaces. */
  lemma RoundEndIgnoresTimer(t: Tables, rid: Id)
    requires Sound(t) && Invariant(t)
    ensures var cleared := t.(questionTimers := t.questionTimers - {rid});
      && RoundStep(cleared, rid) == RoundStep(t, rid)
      && RoundEndSent(cleared, rid) == RoundEndSent(t, rid)
      && RoundEnded(cleared, rid) == RoundEnded(t, rid)
  {
    var cleared := t.(questionTimers := t.questionTimers - {rid});
    match RoundStep(t, rid)
    case Finish =>
      assert cleared.questionTimers - {rid} == t.questionTimers - {rid};
    case MoveTo(i) =>
      assert cleared.questionTimers[rid := TimerFor(t.roomQuestions[rid][i])]
        == t.questionTimers[rid := TimerFor(t.roomQuestions[rid][i])];
  }

  /** Whether the room has as many answers to the question as it has players; repeated answers count each time. */
  ghost predicate AllAnswered(t: Tables, rid: Id, questionId: int)
    requires Sound(t)
  {
    |AnswersFor(t.answers, rid, questionId)| == |PlayersOf(t.players, rid)|
  }

  /** The tables after the answer check of `submit_answer`: the round ends only once all have answered. */
  function Closed(t: Tables, rid: Id, questionId: int): (r: Tables)
    requires Sound(t) && Invariant(t)
    ensures Sound(r)
  {
    if |AnswersFor(t.answers, rid, questionId)| == |PlayersOf(t.players, rid)| then RoundEnded(t, rid) else t
  }

  /**
   * What the answer check of `submit_answer` sends the room: the scores, after
   * the final roster if the game ended and before the next question if it moves on.
   */
  function ClosingSent(t: Tables, rid: Id, questionId: int): seq<Delivery>
    requires Sound(t) && Invariant(t)
  {
    if |AnswersFor(t.answers, rid, questionId)| != |PlayersOf(t.players, rid)| then
      AudienceIn(t, rid, UpdateScores(PlayersOf(t.players, rid)))
    else RoundCloseSent(t, rid)
  }

  /** What the room gets when every player answered: the scores, after the final roster or before the next question. */
  function RoundCloseSent(t: Tables, rid: Id): seq<Delivery>
    requires Sound(t) && Invariant(t)
  {
    var scores := AudienceIn(t, rid, UpdateScores(PlayersOf(t.players, rid)));
    if RoundStep(t, rid).Finish? then RoundEndSent(t, rid) + scores else scores + RoundEndSent(t, rid)
  }

  /** The tables after `submit_answer` on a socket with closure variables `s`. */
  function Submitted(t: Tables, s: Session, questionId: int, selectedAnswer: int, timeTaken: int): (r: Tables)
    requires Sound(t) && Invariant(t)
    ensures Sound(r)
  {
    var g := Graded(s, t.roomQuestions, t.players, questionId);
    if g.None? then t
    else
      CreditKeepsInvariant(t, g.value, questionId, selectedAnswer, timeTaken);
      Closed(Credited(t, g.value, questionId, selectedAnswer, timeTaken), g.value.roomId, questionId)
  }

  /** What `submit_answer` on socket `c` sends: nothing if ignored, else the result to `c` and then the room's messages. */
  function SubmitSent(t: Tables, c: ConnId, s: Session, questionId: int, selectedAnswer: int, timeTaken: int)
    : seq<Delivery>
    requires Sound(t) && Invariant(t)
  {
    var g := Graded(s, t.roomQuestions, t.players, questionId);
    if g.None? then []
    else
      var o := Judge(g.value, selectedAnswer, timeTaken);
      CreditKeepsInvariant(t, g.value, questionId, selectedAnswer, timeTaken);
      [Delivery(c, Feedback(g.value, o))]
        + ClosingSent(Credited(t, g.value, questionId, selectedAnswer, timeTaken), g.value.roomId, questionId)
  }

  /** Grading an answer keeps the invariant: no player changes room, and answers are not part of it. */
  lemma CreditKeepsInvariant(t: Tables, sub: Submission, questionId: int, selectedAnswer: int, timeTaken: int)
    requires Sound(t) && Invariant(t) && sub.question.timeLimit > 0
    ensures Invariant(Credited(t, sub, questionId, selectedAnswer, timeTaken))
  {
    var o := Judge(sub, selectedAnswer, timeTaken);
    PlayerUpdateKeepsInvariant(t, sub.playerId, Credit(sub, o));
  }

  /** Ending a round keeps the invariant. */
  lemma RoundEndKeepsInvariant(t: Tables, rid: Id)
    requires Sound(t) && Invariant(t)
    ensures Invariant(RoundEnded(t, rid))
  {
    match RoundStep(t, rid)
    case Finish => GameOverKeepsInvariant(t, rid);
    case MoveTo(i) => RoomUpdateKeepsInvariant(t, rid, RoomUpdate(None, Some(i)));
  }

  /** `submit_answer` keeps the invariant. */
  lemma SubmitKeepsInvariant(t: Tables, s: Session, questionId: int, selectedAnswer: int, timeTaken: int)
    requires Sound(t) && Invariant(t)
    ensures Invariant(Submitted(t, s, questionId, selectedAnswer, timeTaken))
  {
    var g := Graded(s, t.roomQuestions, t.players, questionId);
    if g.Some? {
      CreditKeepsInvariant(t, g.value, questionId, selectedAnswer, timeTaken);
      var t1 := Credited(t, g.value, questionId, selectedAnswer, timeTaken);
      if |AnswersFor(t1.answers, g.value.roomId, questionId)| == |PlayersOf(t1.players, g.value.roomId)| {
        RoundEndKeepsInvariant(t1, g.value.roomId);
      }
    }
  }

  /**
   * A round end in a room playing question `k` of a playable list either
   * finishes the game after the last question, or moves to question `k + 1`,
   * sends it numbered `k + 2`, and arms a 17-second timer.
   */
  lemma RoundEndEffects(t: Tables, rid: Id)
    requires Sound(t) && Invariant(t) && rid in t.rooms.entries && rid in t.roomQuestions
    requires t.rooms.entries[rid].currentQuestion < |t.roomQuestions[rid]|
    ensures var k := t.rooms.entries[rid].currentQuestion;
      var qs := t.roomQuestions[rid];
      var r := RoundEnded(t, rid);
      && (k == |qs| - 1 ==>
        && r.rooms.entries[rid].status == Finished && rid !in r.questionTimers
        && RoundEndSent(t, rid) == AudienceIn(t, rid, GameFinished(PlayersOf(t.players, rid))))
      && (k < |qs| - 1 ==>
        && r.rooms.entries[rid].currentQuestion == k + 1 && r.rooms.entries[rid].status == t.rooms.entries[rid].status
        && r.questionTimers == t.questionTimers[rid := 17000]
        && RoundEndSent(t, rid) == AudienceIn(t, rid, ServerMessage.SendQuestion(View(qs[k + 1]), k + 2, |qs|)))
      && r.players == t.players && r.answers == t.answers && r.roomQuestions == t.roomQuestions
  {
    var room := t.rooms.entries[rid];
    NextStepWalk(room, t.roomQuestions[rid]);
    if room.currentQuestion < |t.roomQuestions[rid]| - 1 {
      assert t.roomQuestions[rid][room.currentQuestion + 1] in t.roomQuestions[rid];
    }
  }

  /**
   * The roster `update_scores` carries after a graded answer is the room's
   * roster before it with the submitter's score and streak changed, and the
   * saved answer is the last of the room's answers to that question.
   */
  lemma CreditEffects(t: Tables, sub: Submission, questionId: int, selectedAnswer: int, timeTaken: int)
    requires Sound(t) && sub.question.timeLimit > 0
    requires sub.playerId in t.players.entries && t.players.entries[sub.playerId] == sub.player
    ensures var o := Judge(sub, selectedAnswer, timeTaken);
      var r := Credited(t, sub, questionId, selectedAnswer, timeTaken);
      var rid := sub.player.roomId;
      && PlayersOf(r.players, rid) == Seqs.Map(PlayersOf(t.players, rid), Touched(sub.playerId, Credit(sub, o)))
      && AnswersFor(r.answers, rid, questionId)
         == AnswersFor(t.answers, rid, questionId) + [Record(sub, questionId, selectedAnswer, timeTaken, o)]
  {
    var o := Judge(sub, selectedAnswer, timeTaken);
    var players := UpdatedPlayers(t.players, sub.playerId, Credit(sub, o));
    RosterAfterUpdate(t.players, sub.playerId, Credit(sub, o), sub.player.roomId);
    AnswersForAfterSave(t.answers, players, Record(sub, questionId, selectedAnswer, timeTaken, o), sub.player.roomId, questionId);
  }

  /** The chat message of `send_emoji`: its id starts with the room id and a dash, and it carries no text. */
  function EmojiMessage(rid: Id, stamp: string, pid: Id, name: string, emoji: Option<string>, now: Timestamp): ChatMessage {
    ChatMessage(rid + "-" + stamp, pid, name, None, emoji, now)
  }

  /**
   * An emoji sent in a room whose id has no dash is filed under the room id,
   * so the room's clean-up removes it; one sent in a room whose id has a dash
   * is filed under another key and outlives the clean-up.
   */
  lemma EmojiFiling(chat: OM.OMap<string, seq<ChatMessage>>, rid: Id, stamp: string, pid: Id, name: string,
                    emoji: Option<string>, now: Timestamp)
    requires chat.Valid()
    ensures var m := EmojiMessage(rid, stamp, pid, name, emoji, now);
      && ('-' !in rid ==> rid !in OM.Remove(AddedChat(chat, m), rid).entries)
      && ('-' in rid ==> m in OM.ListAt(OM.Remove(AddedChat(chat, m), rid), ChatKey(m.id)))
  {
    var m := EmojiMessage(rid, stamp, pid, name, emoji, now);
    if '-' in rid {
      ChatKeyOfDashedRoom(rid, stamp);
    } else {
      ChatKeyOfRoomMessage(rid, stamp);
    }
  }

  // ---------------------------------------------------------------------------
  // The server

  /** `questions.find(q => q.id === questionId)` on the room's list, if it has one. */
  function FindQuestion(roomQuestions: map<Id, seq<Question>>, roomId: Id, questionId: int): (r: Option<Question>)
    ensures r.None? <==> roomId !in roomQuestions || forall q :: q in roomQuestions[roomId] ==> q.id != questionId
    ensures r.Some? ==> r.value in roomQuestions[roomId] && r.value.id == questionId
    ensures r.Some? ==> exists i :: (
      && 0 <= i < |roomQuestions[roomId]| && roomQuestions[roomId][i] == r.value
      && forall j :: 0 <= j < i ==> roomQuestions[roomId][j].id != questionId)
  {
    if roomId in roomQuestions then Seqs.Find(roomQuestions[roomId], (q: Question) => q.id == questionId) else None
  }

  /** `roomQuestions.get(roomId)`. */
  function QuestionsOf(roomQuestions: map<Id, seq<Question>>, roomId: Id): Option<seq<Question>> {
    if roomId in roomQuestions then Some(roomQuestions[roomId]) else None
  }

  /** The armed round timer of a question, as the delay `setTimeout` got: the time limit plus two seconds. */
  function TimerFor(q: Question): int {
    (q.timeLimit + 2) * 1000
  }

  class GameServer {
    /** The store the handlers read and write. */
    const store: MemStorage
    /** `playerConnections`: the socket of each joined player. */
    var playerConnections: map<Id, ConnId>
    /** `roomConnections`: the player set of each room, in insertion order. */
    var roomConnections: map<Id, seq<Id>>
    /** `roomQuestions`: the questions of each started game. */
    var roomQuestions: map<Id, seq<Question>>
    /** `questionTimers`: the armed round timer of each room, as its delay in milliseconds. */
    var questionTimers: map<Id, int>
    /** The closure variables of each open socket. */
    var sessions: map<ConnId, Session>
    /** Every `ws.send`, in order. */
    var sent: seq<Delivery>

    ghost function Snapshot(): Tables
      reads this`playerConnections, this`roomConnections, this`roomQuestions, this`questionTimers
      reads store`rooms, store`players, store`answers, store`chatMessages
    {
      Tables(store.rooms, store.players, store.answers, store.chatMessages,
             playerConnections, roomConnections, roomQuestions, questionTimers)
    }

    ghost predicate Valid()
      reads this`playerConnections, this`roomConnections, this`roomQuestions, this`questionTimers
      reads store, store`rooms, store`players, store`answers, store`chatMessages
    {
      store.Valid() && Invariant(Snapshot())
    }

    /** What `broadcastToRoom(roomId, msg)` sends: one delivery per member of the room's set that has a socket. */
    function Audience(roomId: Id, msg: ServerMessage): seq<Delivery>
      reads this`playerConnections, this`roomConnections
    {
      if roomId in roomConnections then Fanout(roomConnections[roomId], playerConnections, msg) else []
    }

    /** The server before any socket connects. */
    constructor()
      ensures Valid() && fresh(store)
      ensures store.rooms.entries == map[] && store.players.entries == map[]
      ensures store.answers.entries == map[] && store.chatMessages.entries == map[]
      ensures playerConnections == map[] && roomConnections == map[]
      ensures roomQuestions == map[] && questionTimers == map[]
      ensures sessions == map[] && sent == []
    {
      store := new MemStorage();
      playerConnections := map[];
      roomConnections := map[];
      roomQuestions := map[];
      questionTimers := map[];
      sessions := map[];
      sent := [];
    }

    /** `wss.on('connection')`: a new socket with no player and no room yet. */
    method Connect(c: ConnId)
      requires c !in sessions
      modifies this`sessions
      ensures sessions == old(sessions)[c := Session(None, None)]
    {
      sessions := sessions[c := Session(None, None)];
    }

    /** `ws.send(msg)`. */
    method Send(c: ConnId, msg: ServerMessage)
      modifies this`sent
      ensures sent == old(sent) + [Delivery(c, msg)]
    {
      sent := sent + [Delivery(c, msg)];
    }

    /** `broadcastToRoom`: nothing for a room with no player set, else one send per member with a socket. */
    method Broadcast(roomId: Id, msg: ServerMessage)
      modifies this`sent
      ensures sent == old(sent) + Audience(roomId, msg)
    {
      if roomId !in roomConnections {
        return;
      }
      var ids := roomConnections[roomId];
      var i := 0;
      while i < |ids|
        invariant 0 <= i <= |ids|
        invariant sent == old(sent) + Fanout(ids[..i], playerConnections, msg)
      {
        var one := if ids[i] in playerConnections then [Delivery(playerConnections[ids[i]], msg)] else [];
        assert Fanout([ids[i]], playerConnections, msg) == one;
        assert ids[..i + 1] == ids[..i] + [ids[i]];
        FanoutAppend(ids[..i], [ids[i]], playerConnections, msg);
        if ids[i] in playerConnections {
          sent := sent + [Delivery(playerConnections[ids[i]], msg)];
        }
        i := i + 1;
      }
      assert ids[..i] == ids;
    }

    /**
     * `sendQuestion(roomId, index)`: nothing without a question at `index`;
     * else the question, without its answer, numbered from 1, to the room,
     * and a round timer armed for its time limit plus two seconds.
     */
    method SendQuestion(roomId: Id, index: nat)
      modifies this`sent, this`questionTimers
      ensures roomId !in roomQuestions || index >= |roomQuestions[roomId]| ==>
        sent == old(sent) && questionTimers == old(questionTimers)
      ensures roomId in roomQuestions && index < |roomQuestions[roomId]| ==>
        var qs := roomQuestions[roomId];
        && sent == old(sent) + Audience(roomId, ServerMessage.SendQuestion(View(qs[index]), index + 1, |qs|))
        && questionTimers == old(questionTimers)[roomId := TimerFor(qs[index])]
    {
      if roomId !in roomQuestions || index >= |roomQuestions[roomId]| {
        return;
      }
      var questions := roomQuestions[roomId];
      var question := questions[index];
      Broadcast(roomId, ServerMessage.SendQuestion(View(question), index + 1, |questions|));
      questionTimers := questionTimers[roomId := TimerFor(question)];
    }

    /** `endGame`: the timer is cleared, the room finished, and the final roster sent to the room. */
    method EndGame(roomId: Id)
      requires Valid()
      modifies this`sent, this`questionTimers, store`rooms
      ensures Valid()
      ensures Snapshot() == GameOver(old(Snapshot()), roomId)
      ensures sent == old(sent) + AudienceIn(old(Snapshot()), roomId, GameFinished(PlayersOf(store.players, roomId)))
    {
      GameOverKeepsInvariant(Snapshot(), roomId);
      Retire(roomId);
      Final(roomId);
    }

    /** The first two steps of `endGame`: the timer cleared, the room finished. */
    method Retire(roomId: Id)
      requires store.Valid()
      modifies this`questionTimers, store`rooms
      ensures store.Valid()
      ensures Snapshot() == GameOver(old(Snapshot()), roomId)
    {
      questionTimers := questionTimers - {roomId};
      var _ := store.UpdateRoom(roomId, RoomUpdate(Some(Finished), None));
    }

    /** The `game_finished` broadcast of `endGame`: the room's roster as stored now. */
    method Final(roomId: Id)
      requires store.Valid()
      modifies this`sent
      ensures sent == old(sent) + Audience(roomId, GameFinished(PlayersOf(store.players, roomId)))
    {
      var players := store.GetPlayersByRoom(roomId);
      Broadcast(roomId, GameFinished(players));
    }

    /**
     * The end of a round, shared by `submit_answer` and the round timer: the
     * game finishes, or the room moves to the next question, which the caller sends.
     */
    method Advance(roomId: Id) returns (step: Step)
      requires Valid()
      modifies this`sent, this`questionTimers, store`rooms
      ensures Valid()
      ensures step == RoundStep(old(Snapshot()), roomId)
      ensures step.Finish? ==>
        && Snapshot() == RoundEnded(old(Snapshot()), roomId)
        && sent == old(sent) + RoundEndSent(old(Snapshot()), roomId)
      ensures step.MoveTo? ==>
        && Snapshot() == old(Snapshot()).(rooms := UpdatedRooms(old(store.rooms), roomId, RoomUpdate(None, Some(step.index))))
        && sent == old(sent)
    {
      var room := store.GetRoom(roomId);
      step := NextStep(room, QuestionsOf(roomQuestions, roomId));
      if step.Finish? {
        EndGame(roomId);
      } else {
        RoomUpdateKeepsInvariant(Snapshot(), roomId, RoomUpdate(None, Some(step.index)));
        MoveOn(roomId, step.index);
      }
    }

    /**
     * The round timer firing (the callback armed by `sendQuestion`), whether or
     * not it is still the room's current timer: the game finishes, or moves to
     * the next question and sends it at once.
     */
    method Timeout(roomId: Id)
      requires Valid()
      modifies this`sent, this`questionTimers, store`rooms
      ensures Valid()
      ensures Snapshot() == RoundEnded(old(Snapshot()), roomId)
      ensures sent == old(sent) + RoundEndSent(old(Snapshot()), roomId)
    {
      var step := Advance(roomId);
      if step.MoveTo? {
        SendQuestion(roomId, step.index);
      }
    }

    /**
     * The end of a round once every player answered: the timer is cleared,
     * the round ends, and the room gets the scores, after the final roster or
     * before the next question.
     */
    method EndRound(roomId: Id)
      requires Valid()
      modifies this`sent, this`questionTimers, store`rooms
      ensures Valid()
      ensures Snapshot() == RoundEnded(old(Snapshot()), roomId)
      ensures sent == old(sent) + RoundCloseSent(old(Snapshot()), roomId)
    {
      ghost var t := Snapshot();
      RoundEndIgnoresTimer(t, roomId);
      questionTimers := questionTimers - {roomId};
      assert Snapshot() == t.(questionTimers := t.questionTimers - {roomId});
      Conclude(roomId);
    }

    /** The rest of the round's end once its timer is cleared: the advance rule, then one of its two outcomes. */
    method Conclude(roomId: Id)
      requires Valid()
      modifies this`sent, this`questionTimers, store`rooms
      ensures Valid()
      ensures Snapshot() == RoundEnded(old(Snapshot()), roomId)
      ensures sent == old(sent) + RoundCloseSent(old(Snapshot()), roomId)
    {
      var room := store.GetRoom(roomId);
      var step := NextStep(room, QuestionsOf(roomQuestions, roomId));
      assert step == RoundStep(Snapshot(), roomId);
      if step.Finish? {
        FinishThenScores(roomId);
      } else {
        MoveThenScores(roomId, step.index);
      }
    }

    /** The last round's end: `endGame`, then the scores. */
    method FinishThenScores(roomId: Id)
      requires Valid() && RoundStep(Snapshot(), roomId).Finish?
      modifies this`sent, this`questionTimers, store`rooms
      ensures Valid()
      ensures Snapshot() == RoundEnded(old(Snapshot()), roomId)
      ensures sent == old(sent) + RoundCloseSent(old(Snapshot()), roomId)
    {
      ghost var t := Snapshot();
      ghost var before := sent;
      EndGame(roomId);
      ghost var finished := sent;
      Scores(roomId);
      Seqs.AppendAssoc(before, finished[|before|..], sent[|finished|..]);
    }

    /** Any other round's end: the room moves on, then the scores and the next question. */
    method MoveThenScores(roomId: Id, index: nat)
      requires Valid() && RoundStep(Snapshot(), roomId) == MoveTo(index)
      modifies this`sent, this`questionTimers, store`rooms
      ensures Valid()
      ensures Snapshot() == RoundEnded(old(Snapshot()), roomId)
      ensures sent == old(sent) + RoundCloseSent(old(Snapshot()), roomId)
    {
      ghost var t := Snapshot();
      RoundEndKeepsInvariant(t, roomId);
      RoomUpdateKeepsInvariant(t, roomId, RoomUpdate(None, Some(index)));
      MoveOn(roomId, index);
      ScoresThenQuestion(roomId, index);
    }

    /** The room's `currentQuestion` set to the next question's index. */
    method MoveOn(roomId: Id, index: nat)
      requires store.Valid()
      modifies store`rooms
      ensures store.Valid()
      ensures Snapshot() == old(Snapshot()).(rooms := UpdatedRooms(old(store.rooms), roomId, RoomUpdate(None, Some(index))))
    {
      var _ := store.UpdateRoom(roomId, RoomUpdate(None, Some(index)));
    }

    /** The `update_scores` broadcast that closes the answer check: the room's roster as stored now. */
    method Scores(roomId: Id)
      requires store.Valid()
      modifies this`sent
      ensures sent == old(sent) + Audience(roomId, UpdateScores(PlayersOf(store.players, roomId)))
    {
      var roster := store.GetPlayersByRoom(roomId);
      Broadcast(roomId, UpdateScores(roster));
    }

    /** The scores, then the next question, whose delayed send is taken to happen at once. */
    method ScoresThenQuestion(roomId: Id, index: nat)
      requires store.Valid() && roomId in roomQuestions && index < |roomQuestions[roomId]|
      modifies this`sent, this`questionTimers
      ensures var qs := roomQuestions[roomId];
        && sent == old(sent) + (Audience(roomId, UpdateScores(PlayersOf(store.players, roomId)))
                                + Audience(roomId, ServerMessage.SendQuestion(View(qs[index]), index + 1, |qs|)))
        && questionTimers == old(questionTimers)[roomId := TimerFor(qs[index])]
    {
      ghost var before := sent;
      Scores(roomId);
      ghost var scored := sent;
      SendQuestion(roomId, index);
      Seqs.AppendAssoc(before, scored[|before|..], sent[|scored|..]);
    }

    /** The answer check of `submit_answer`: the round ends once the answers match the roster, and the scores go out. */
    method CloseRound(roomId: Id, questionId: int)
      requires Valid()
      modifies this`sent, this`questionTimers, store`rooms
      ensures Valid()
      ensures Snapshot() == Closed(old(Snapshot()), roomId, questionId)
      ensures sent == old(sent) + ClosingSent(old(Snapshot()), roomId, questionId)
    {
      var answers := store.GetAnswersByQuestion(roomId, questionId);
      var players := store.GetPlayersByRoom(roomId);
      if |answers| == |players| {
        EndRound(roomId);
      } else {
        Broadcast(roomId, UpdateScores(players));
      }
    }

    /** The guards of `submit_answer`: the socket's player and room, the question in the room's list, the player stored. */
    method Lookup(c: ConnId, questionId: int) returns (g: Option<Submission>)
      requires Valid() && c in sessions
      ensures g == Graded(sessions[c], roomQuestions, store.players, questionId)
    {
      var s := sessions[c];
      if !InRoom(s) {
        return None;
      }
      var question := FindQuestion(roomQuestions, s.roomId.value, questionId);
      if question.None? {
        return None;
      }
      var player := store.GetPlayer(s.playerId.value);
      if player.None? {
        return None;
      }
      g := Some(Submission(s.playerId.value, s.roomId.value, question.value, player.value));
    }

    /** The grading of `submit_answer`: the score and streak stored, the answer saved, the result sent to the socket. */
    method Grade(c: ConnId, sub: Submission, questionId: int, selectedAnswer: int, timeTaken: int)
      requires store.Valid() && sub.question.timeLimit > 0
      requires sub.playerId in store.players.entries && store.players.entries[sub.playerId] == sub.player
      modifies store`players, store`answers, this`sent
      ensures store.Valid()
      ensures Snapshot() == Credited(old(Snapshot()), sub, questionId, selectedAnswer, timeTaken)
      ensures sent == old(sent) + [Delivery(c, Feedback(sub, Judge(sub, selectedAnswer, timeTaken)))]
    {
      var o := Judge(sub, selectedAnswer, timeTaken);
      var _ := store.UpdatePlayer(sub.playerId, Credit(sub, o));
      store.SaveAnswer(Record(sub, questionId, selectedAnswer, timeTaken, o));
      Send(c, Feedback(sub, o));
    }

    /** `submit_answer` past its guards: the grading, then the answer check. */
    method Respond(c: ConnId, sub: Submission, questionId: int, selectedAnswer: int, timeTaken: int)
      requires Valid() && sub.question.timeLimit > 0
      requires sub.playerId in store.players.entries && store.players.entries[sub.playerId] == sub.player
      modifies store`rooms, store`players, store`answers, this`questionTimers, this`sent
      ensures Valid()
      ensures Invariant(Credited(old(Snapshot()), sub, questionId, selectedAnswer, timeTaken))
      ensures Snapshot() == Closed(Credited(old(Snapshot()), sub, questionId, selectedAnswer, timeTaken), sub.roomId, questionId)
      ensures sent == old(sent) + ([Delivery(c, Feedback(sub, Judge(sub, selectedAnswer, timeTaken)))]
        + ClosingSent(Credited(old(Snapshot()), sub, questionId, selectedAnswer, timeTaken), sub.roomId, questionId))
    {
      CreditKeepsInvariant(Snapshot(), sub, questionId, selectedAnswer, timeTaken);
      ghost var before := sent;
      ghost var result := [Delivery(c, Feedback(sub, Judge(sub, selectedAnswer, timeTaken)))];
      ghost var closing := ClosingSent(Credited(Snapshot(), sub, questionId, selectedAnswer, timeTaken), sub.roomId, questionId);
      Grade(c, sub, questionId, selectedAnswer, timeTaken);
      CloseRound(sub.roomId, questionId);
      Seqs.AppendAssoc(before, result, closing);
    }

    /**
     * `submit_answer`: ignored unless the socket has a player and room, the
     * question is in the room's list and the player is stored; else graded,
     * reported to the socket, and the round closed once all have answered.
     */
    method SubmitAnswer(c: ConnId, questionId: int, selectedAnswer: int, timeTaken: int)
      requires Valid() && c in sessions
      modifies store`rooms, store`players, store`answers, this`questionTimers, this`sent
      ensures Valid()
      ensures Snapshot() == Submitted(old(Snapshot()), sessions[c], questionId, selectedAnswer, timeTaken)
      ensures sent == old(sent) + SubmitSent(old(Snapshot()), c, sessions[c], questionId, selectedAnswer, timeTaken)
    {
      ghost var t := Snapshot();
      var g := Lookup(c, questionId);
      assert g == Graded(sessions[c], t.roomQuestions, t.players, questionId);
      if g.Some? {
        Respond(c, g.value, questionId, selectedAnswer, timeTaken);
      }
    }

    /**
     * `send_emoji`: with a player and room on the socket and the player
     * stored, an emoji message is filed in the chat table and sent to the room.
     */
    method SendEmoji(c: ConnId, emoji: Option<string>, stamp: string, now: Timestamp)
      requires Valid() && c in sessions
      modifies store`chatMessages, this`sent
      ensures Valid()
      ensures var s := sessions[c];
        !(InRoom(s) && s.playerId.value in store.players.entries) ==>
          store.chatMessages == old(store.chatMessages) && sent == old(sent)
      ensures var s := sessions[c];
        InRoom(s) && s.playerId.value in store.players.entries ==>
          var rid := s.roomId.value;
          var pid := s.playerId.value;
          var m := EmojiMessage(rid, stamp, pid, store.players.entries[pid].name, emoji, now);
          && store.chatMessages == AddedChat(old(store.chatMessages), m)
          && sent == old(sent) + Audience(rid, ChatMessageSent(m))
    {
      var s := sessions[c];
      if !InRoom(s) {
        return;
      }
      var player := store.GetPlayer(s.playerId.value);
      if player.None? {
        return;
      }
      var message := EmojiMessage(s.roomId.value, stamp, s.playerId.value, player.value.name, emoji, now);
      store.AddChatMessage(message);
      Broadcast(s.roomId.value, ChatMessageSent(message));
    }

    /** The lookup of `join_room`: the first room with the code, created as a lobby room at question 0 if there is none. */
    method FindOrCreateRoom(code: string, newRoomId: Id, now: Timestamp) returns (room: Room)
      requires store.Valid() && newRoomId !in store.rooms.entries
      modifies store`rooms
      ensures store.Valid()
      ensures room == JoinTarget(old(store.rooms), code, newRoomId, now)
      ensures Snapshot() == old(Snapshot()).(rooms := JoinedRooms(old(store.rooms), code, newRoomId, now))
    {
      JoinFindsRoom(store.rooms, code, newRoomId, now);
      var found := store.GetRoomByCode(code);
      if found.Some? {
        return found.value;
      }
      room := store.CreateRoom(InsertRoom(code, Lobby, 0), newRoomId, now);
    }

    /** The first steps of the lobby branch of `join_room`: the player is stored, bound to the socket and added to the room's set. */
    method Register(c: ConnId, roomId: Id, roster: seq<Player>, name: string, isHost: bool, pid: Id, now: Timestamp)
      returns (player: Player)
      requires store.Valid() && pid !in store.players.entries
      modifies store`players, this`playerConnections, this`roomConnections
      ensures store.Valid()
      ensures player == Newcomer(pid, name, roomId, roster, isHost, now)
      ensures Snapshot() == Admitted(old(Snapshot()), player, c)
    {
      playerConnections := playerConnections[pid := c];
      roomConnections := roomConnections[roomId := AddMember(MembersOf(roomConnections, roomId), pid)];
      player := store.CreatePlayer(InsertPlayer(name, roomId, 0, 0, false, isHost || |roster| == 0), pid, now);
    }

    /** The lobby branch of `join_room`: the player is registered, told it joined, and the room gets the roster with the newcomer last. */
    method Admit(c: ConnId, room: Room, roster: seq<Player>, name: string, isHost: bool, pid: Id, now: Timestamp)
      requires store.Valid() && pid !in store.players.entries
      requires roster == PlayersOf(store.players, room.id)
      modifies store`players, this`sessions, this`playerConnections, this`roomConnections, this`sent
      ensures store.Valid()
      ensures var p := Newcomer(pid, name, room.id, roster, isHost, now);
        && Snapshot() == Admitted(old(Snapshot()), p, c)
        && sessions == old(sessions)[c := Session(Some(pid), Some(room.id))]
        && sent == old(sent) + [Delivery(c, Joined(p, room))] + AudienceIn(Snapshot(), room.id, PlayersUpdated(roster + [p]))
    {
      RosterAfterCreate(store.players, Newcomer(pid, name, room.id, roster, isHost, now), room.id);
      var player := Register(c, room.id, roster, name, isHost, pid, now);
      sessions := sessions[c := Session(Some(player.id), Some(room.id))];
      Send(c, Joined(player, room));
      var now_roster := store.GetPlayersByRoom(room.id);
      Broadcast(room.id, PlayersUpdated(now_roster));
      assert Audience(room.id, PlayersUpdated(now_roster)) == AudienceIn(Snapshot(), room.id, PlayersUpdated(now_roster));
    }

    /** The rest of `join_room` once the room is found: an error past the lobby, else the newcomer admitted. */
    method Enter(c: ConnId, room: Room, roster: seq<Player>, name: string, isHost: bool, pid: Id, now: Timestamp)
      requires store.Valid() && pid !in store.players.entries
      requires roster == PlayersOf(store.players, room.id)
      modifies store`players, this`sessions, this`playerConnections, this`roomConnections, this`sent
      ensures store.Valid()
      ensures Snapshot() == Entered(old(Snapshot()), c, room, roster, name, isHost, pid, now)
      ensures sessions == EnterSessions(old(sessions), c, room, pid)
      ensures sent == old(sent) + EnterSent(old(Snapshot()), c, room, roster, name, isHost, pid, now)
    {
      if room.status != Lobby {
        Send(c, Error(GameInProgress));
      } else {
        Admit(c, room, roster, name, isHost, pid, now);
      }
    }

    /**
     * `join_room`: the room is found by code or created; a room past its lobby
     * only gets the socket an error; otherwise the socket's player joins it.
     * The socket's earlier player, if any, stays stored.
     */
    method JoinRoom(c: ConnId, code: string, name: string, isHost: bool, newRoomId: Id, newPlayerId: Id, now: Timestamp)
      requires Valid() && newRoomId !in store.rooms.entries && newPlayerId !in store.players.entries
      modifies store`rooms, store`players, this`sessions, this`playerConnections, this`roomConnections, this`sent
      ensures Valid()
      ensures Snapshot() == JoinedTables(old(Snapshot()), c, code, name, isHost, newRoomId, newPlayerId, now)
      ensures sessions == JoinedSessions(old(Snapshot()), old(sessions), c, code, newRoomId, newPlayerId, now)
      ensures sent == old(sent) + JoinSent(old(Snapshot()), c, code, name, isHost, newRoomId, newPlayerId, now)
    {
      JoinKeepsInvariant(Snapshot(), c, code, name, isHost, newRoomId, newPlayerId, now);
      var room := FindOrCreateRoom(code, newRoomId, now);
      var players := store.GetPlayersByRoom(room.id);
      Enter(c, room, players, name, isHost, newPlayerId, now);
    }

    /** `player_ready`: with a player and room on the socket, the player is marked ready and the room gets its roster. */
    method PlayerReady(c: ConnId)
      requires Valid() && c in sessions
      modifies store`players, this`sent
      ensures Valid()
      ensures !InRoom(sessions[c]) ==> store.players == old(store.players) && sent == old(sent)
      ensures InRoom(sessions[c]) ==>
        var pid := sessions[c].playerId.value;
        var rid := sessions[c].roomId.value;
        && store.players == UpdatedPlayers(old(store.players), pid, MakeReady)
        && sent == old(sent) + Audience(rid, PlayersUpdated(Seqs.Map(PlayersOf(old(store.players), rid), Touched(pid, MakeReady))))
    {
      var s := sessions[c];
      if !InRoom(s) {
        return;
      }
      var pid, rid := s.playerId.value, s.roomId.value;
      PlayerUpdateKeepsInvariant(Snapshot(), pid, MakeReady);
      RosterAfterUpdate(store.players, pid, MakeReady, rid);
      var _ := store.UpdatePlayer(pid, MakeReady);
      var players := store.GetPlayersByRoom(rid);
      Broadcast(rid, PlayersUpdated(players));
    }

    /** The body of `start_game` past its guards: ten questions, the room playing question 0, and that question sent. */
    method Begin(rid: Id, qs: seq<Question>)
      requires Valid() && |qs| == QuestionsPerGame && Playable(qs)
      modifies store`rooms, this`roomQuestions, this`questionTimers, this`sent
      ensures Valid()
      ensures Snapshot() == Started(old(Snapshot()), rid, qs).(questionTimers := old(questionTimers)[rid := TimerFor(qs[0])])
      ensures sent == old(sent) + Audience(rid, ServerMessage.SendQuestion(View(qs[0]), 1, QuestionsPerGame))
    {
      StartKeepsInvariant(Snapshot(), rid, qs);
      Deal(rid, qs);
      ghost var dealt := Snapshot();
      SendQuestion(rid, 0);
      assert Snapshot() == dealt.(questionTimers := questionTimers);
    }

    /** The room's ten questions stored, and the room playing from question 0. */
    method Deal(rid: Id, qs: seq<Question>)
      requires store.Valid()
      modifies store`rooms, this`roomQuestions
      ensures store.Valid()
      ensures Snapshot() == Started(old(Snapshot()), rid, qs)
    {
      roomQuestions := roomQuestions[rid := qs];
      var _ := store.UpdateRoom(rid, RoomUpdate(Some(Playing), Some(0)));
    }

    /**
     * `start_game`: a host with a stored room gets ten questions for the room,
     * the room playing from question 0, and the first question sent. The
     * room's status is not checked, so a host can restart a running game.
     */
    method StartGame(c: ConnId, perm: seq<int>)
      requires Valid() && c in sessions && IsPermutation(perm, |SampleQuestions|)
      modifies store`rooms, this`roomQuestions, this`questionTimers, this`sent
      ensures Valid()
      ensures !MayStart(sessions[c], store.players, old(store.rooms)) ==>
        Snapshot() == old(Snapshot()) && sent == old(sent)
      ensures MayStart(sessions[c], store.players, old(store.rooms)) ==>
        var rid := sessions[c].roomId.value;
        var qs := GameQuestions(perm);
        && roomQuestions == old(roomQuestions)[rid := qs]
        && store.rooms == UpdatedRooms(old(store.rooms), rid, RoomUpdate(Some(Playing), Some(0)))
        && questionTimers == old(questionTimers)[rid := TimerFor(qs[0])]
        && sent == old(sent) + Audience(rid, ServerMessage.SendQuestion(View(qs[0]), 1, QuestionsPerGame))
    {
      var s := sessions[c];
      if !InRoom(s) {
        return;
      }
      var player := store.GetPlayer(s.playerId.value);
      if player.None? || !player.value.isHost {
        return;
      }
      var room := store.GetRoom(s.roomId.value);
      if room.None? {
        return;
      }
      GameQuestionsShape(perm);
      Begin(s.roomId.value, GameQuestions(perm));
    }

    /** The first steps of `handleDisconnect`: the socket, the set membership and the row of the player go. */
    method DropPlayer(pid: Id, rid: Id)
      requires store.Valid()
      modifies store`players, this`playerConnections, this`roomConnections
      ensures store.Valid()
      ensures Snapshot() == Leave(old(Snapshot()), pid, rid)
    {
      playerConnections := playerConnections - {pid};
      if rid in roomConnections {
        roomConnections := roomConnections[rid := RemoveMember(roomConnections[rid], pid)];
      }
      store.DeletePlayer(pid);
    }

    /** The clean-up branch of `handleDisconnect`: every table loses the room, and nothing is sent. */
    method PurgeRoom(rid: Id)
      requires store.Valid() && PlayersOf(store.players, rid) == []
      modifies store`rooms, store`answers, store`chatMessages
      modifies this`roomQuestions, this`roomConnections, this`questionTimers
      ensures store.Valid()
      ensures Snapshot() == Settled(old(Snapshot()), rid)
    {
      store.DeleteRoom(rid);
      store.ClearAnswers(rid);
      store.ClearChatMessages(rid);
      roomQuestions := roomQuestions - {rid};
      roomConnections := roomConnections - {rid};
      questionTimers := questionTimers - {rid};
    }

    /** The host hand-over of `handleDisconnect`: with no host left, the first remaining player becomes host. */
    method PromoteHost(rid: Id)
      requires store.Valid()
      modifies store`players
      ensures store.Valid()
      ensures Snapshot() == Promote(old(Snapshot()), rid)
    {
      var players := store.GetPlayersByRoom(rid);
      var hasHost := Seqs.Any(players, (p: Player) => p.isHost);
      if !hasHost && |players| > 0 {
        var _ := store.UpdatePlayer(players[0].id, MakeHost);
      }
    }

    /** The other branch of `handleDisconnect`: the host hand-over, then the new roster to the room. */
    method HandOver(rid: Id)
      requires store.Valid() && PlayersOf(store.players, rid) != []
      modifies store`players, this`sent
      ensures store.Valid()
      ensures Snapshot() == Settled(old(Snapshot()), rid)
      ensures sent == old(sent) + Notice(old(Snapshot()), rid)
    {
      ghost var t := Snapshot();
      PromoteHost(rid);
      ghost var r := Snapshot();
      assert r == Settled(t, rid);
      var roster := store.GetPlayersByRoom(rid);
      Broadcast(rid, PlayersUpdated(roster));
      assert Audience(rid, PlayersUpdated(roster)) == AudienceIn(r, rid, PlayersUpdated(roster));
    }

    /**
     * `handleDisconnect(pid, rid)`: the tables become `Departed` and the
     * messages sent are `Farewell`.
     */
    method HandleDisconnect(pid: Id, rid: Id)
      requires Valid()
      modifies store`rooms, store`players, store`answers, store`chatMessages
      modifies this`playerConnections, this`roomConnections, this`roomQuestions, this`questionTimers, this`sent
      ensures Valid()
      ensures Snapshot() == Departed(old(Snapshot()), pid, rid)
      ensures sent == old(sent) + Farewell(old(Snapshot()), pid, rid)
    {
      ghost var before := Snapshot();
      DepartedKeepsInvariant(before, pid, rid);
      DropPlayer(pid, rid);
      ghost var left := Snapshot();
      Settle(rid);
      assert Snapshot() == Settled(left, rid) == Departed(before, pid, rid);
    }

    /** The second half of `handleDisconnect`. */
    method Settle(rid: Id)
      requires store.Valid()
      modifies store`rooms, store`players, store`answers, store`chatMessages
      modifies this`roomConnections, this`roomQuestions, this`questionTimers, this`sent
      ensures store.Valid()
      ensures Snapshot() == Settled(old(Snapshot()), rid)
      ensures sent == old(sent) + Notice(old(Snapshot()), rid)
    {
      var players := store.GetPlayersByRoom(rid);
      if |players| == 0 {
        PurgeRoom(rid);
      } else {
        HandOver(rid);
      }
    }

    /** `leave_room`: `handleDisconnect` for the socket's player and room, if both are set; the socket keeps them. */
    method LeaveRoom(c: ConnId)
      requires Valid() && c in sessions
      modifies store`rooms, store`players, store`answers, store`chatMessages
      modifies this`playerConnections, this`roomConnections, this`roomQuestions, this`questionTimers, this`sent
      ensures Valid()
      ensures !InRoom(sessions[c]) ==> Snapshot() == old(Snapshot()) && sent == old(sent)
      ensures InRoom(sessions[c]) ==>
        var pid := sessions[c].playerId.value;
        var rid := sessions[c].roomId.value;
        && Snapshot() == Departed(old(Snapshot()), pid, rid)
        && sent == old(sent) + Farewell(old(Snapshot()), pid, rid)
    {
      var s := sessions[c];
      if InRoom(s) {
        HandleDisconnect(s.playerId.value, s.roomId.value);
      }
    }

    /** `ws.on('close')`: the same as `leave_room`, and the socket is gone. */
    method Close(c: ConnId)
      requires Valid() && c in sessions
      modifies store`rooms, store`players, store`answers, store`chatMessages
      modifies this`playerConnections, this`roomConnections, this`roomQuestions, this`questionTimers
      modifies this`sent, this`sessions
      ensures Valid()
      ensures sessions == old(sessions) - {c}
      ensures !InRoom(old(sessions[c])) ==> Snapshot() == old(Snapshot()) && sent == old(sent)
      ensures InRoom(old(sessions[c])) ==>
        var pid := old(sessions[c]).playerId.value;
        var rid := old(sessions[c]).roomId.value;
        && Snapshot() == Departed(old(Snapshot()), pid, rid)
        && sent == old(sent) + Farewell(old(Snapshot()), pid, rid)
    {
      LeaveRoom(c);
      sessions := sessions - {c};
    }
  }
}
