/**
 * The in-memory store behind the quiz server: rooms and players keyed by id,
 * answer lists keyed by room id and chat lists keyed by a prefix of the
 * message id. Every table is an insertion-ordered map, so "the first room with
 * this code" and "the players of this room" are taken in insertion order.
 */
module Storage {
  import opened Wrappers
  import opened Schema
  import Seqs
  import OM = OrderedMap

  /** Every room is stored under its own id. */
  ghost predicate RoomsKeyedById(rooms: OM.OMap<Id, Room>) {
    forall id :: id in rooms.entries ==> rooms.entries[id].id == id
  }

  /** Every player is stored under its own id. */
  ghost predicate PlayersKeyedById(players: OM.OMap<Id, Player>) {
    forall id :: id in players.entries ==> players.entries[id].id == id
  }

  /** `getRoomByCode`: the first room, in insertion order, whose code is `code`. */
  function RoomByCode(rooms: OM.OMap<Id, Room>, code: string): (r: Option<Room>)
    requires rooms.Valid()
    ensures r.None? <==> forall id :: id in rooms.entries ==> rooms.entries[id].code != code
    ensures r.Some? ==> r.value.code == code && exists i :: (
      && 0 <= i < |rooms.keys| && r.value == rooms.entries[rooms.keys[i]]
      && forall j :: 0 <= j < i ==> rooms.entries[rooms.keys[j]].code != code)
  {
    var all := OM.Values(rooms);
    var i := Seqs.FindIndex(all, (room: Room) => room.code == code);
    if i < |all| then Some(all[i]) else None
  }

  /** `getPlayersByRoom`: the players whose `roomId` is `roomId`, in insertion order. */
  function PlayersOf(players: OM.OMap<Id, Player>, roomId: Id): (r: seq<Player>)
    requires players.Valid()
    ensures forall p :: p in r ==> p.roomId == roomId && p in OM.Values(players)
    ensures forall id :: id in players.entries && players.entries[id].roomId == roomId ==>
      players.entries[id] in r
    ensures Seqs.IsSubsequence(r, OM.Values(players))
  {
    Seqs.Filter(OM.Values(players), (p: Player) => p.roomId == roomId)
  }

  /** A room has an empty roster exactly when no stored player points at it. */
  lemma RosterEmpty(players: OM.OMap<Id, Player>, roomId: Id)
    requires players.Valid()
    ensures PlayersOf(players, roomId) == [] <==>
      forall id :: id in players.entries ==> players.entries[id].roomId != roomId
  {
    var r := PlayersOf(players, roomId);
    if r != [] {
      assert r[0] in OM.Values(players);
    }
  }

  /** `createPlayer` puts the new player last on its room's roster and leaves every other roster alone. */
  lemma RosterAfterCreate(players: OM.OMap<Id, Player>, p: Player, roomId: Id)
    requires players.Valid() && p.id !in players.entries
    ensures PlayersOf(OM.Put(players, p.id, p), roomId)
      == PlayersOf(players, roomId) + (if p.roomId == roomId then [p] else [])
  {
    var keep := (q: Player) => q.roomId == roomId;
    OM.ValuesAfterAdd(players, p.id, p);
    Seqs.FilterAppend(OM.Values(players), [p], keep);
    assert Seqs.Filter([p], keep) == (if p.roomId == roomId then [p] else []) by {
      assert [p][1..] == [];
    }
  }

  /** After `createRoom` for a code no room has, `getRoomByCode` finds the new room. */
  lemma RoomByCodeAfterCreate(rooms: OM.OMap<Id, Room>, room: Room)
    requires rooms.Valid() && room.id !in rooms.entries && RoomByCode(rooms, room.code).None?
    ensures RoomByCode(OM.Put(rooms, room.id, room), room.code) == Some(room)
  {
    var after := OM.Put(rooms, room.id, room);
    var r := RoomByCode(after, room.code);
    assert room.id in after.entries;
    var i :| && 0 <= i < |after.keys| && r.value == after.entries[after.keys[i]]
             && forall j :: 0 <= j < i ==> after.entries[after.keys[j]].code != room.code;
    assert i == |rooms.keys|;
  }

  /** The ids on a room's roster are exactly the ids of the players pointing at the room. */
  lemma RosterIds(players: OM.OMap<Id, Player>, roomId: Id)
    requires players.Valid() && PlayersKeyedById(players)
    ensures var r := PlayersOf(players, roomId);
      forall id :: id in players.entries ==>
        ((exists j :: 0 <= j < |r| && r[j].id == id) <==> players.entries[id].roomId == roomId)
  {
    var r := PlayersOf(players, roomId);
    forall id | id in players.entries
      ensures (exists j :: 0 <= j < |r| && r[j].id == id) <==> players.entries[id].roomId == roomId
    {
      if players.entries[id].roomId == roomId {
        assert players.entries[id] in r;
        var j :| 0 <= j < |r| && r[j] == players.entries[id];
      }
      if exists j :: 0 <= j < |r| && r[j].id == id {
        var j :| 0 <= j < |r| && r[j].id == id;
        assert r[j] in r;
        var k :| k in players.entries && players.entries[k] == r[j];
        assert k == id;
      }
    }
  }

  /** The ids of a list of players, in the same order. */
  function IdsOf(ps: seq<Player>): (ids: seq<Id>)
    ensures |ids| == |ps| && forall j :: 0 <= j < |ps| ==> ids[j] == ps[j].id
  {
    seq(|ps|, j requires 0 <= j < |ps| => ps[j].id)
  }

  /** One more player on the list is one more id at the end. */
  lemma IdsOfSnoc(ps: seq<Player>, i: int)
    requires 0 <= i < |ps|
    ensures IdsOf(ps[..i + 1]) == IdsOf(ps[..i]) + [ps[i].id]
  {
    assert ps[..i + 1] == ps[..i] + [ps[i]];
  }

  /** The player table after `deletePlayersByRoom`: all and only the room's players gone, the rest in order. */
  function WithoutRoom(players: OM.OMap<Id, Player>, roomId: Id): (r: OM.OMap<Id, Player>)
    requires players.Valid() && PlayersKeyedById(players)
    ensures r.Valid() && PlayersKeyedById(r)
    ensures forall id :: id in r.entries <==> id in players.entries && players.entries[id].roomId != roomId
    ensures forall id :: id in r.entries ==> r.entries[id] == players.entries[id]
    ensures Seqs.IsSubsequence(r.keys, players.keys)
    ensures PlayersOf(r, roomId) == []
  {
    var ids := IdsOf(PlayersOf(players, roomId));
    var r := OM.RemoveAll(players, ids);
    RosterRemoved(players, r, roomId, ids);
    r
  }

  /** Taking a room's roster ids out of the player table leaves exactly the other rooms' players. */
  lemma RosterRemoved(before: OM.OMap<Id, Player>, after: OM.OMap<Id, Player>, roomId: Id, gone: seq<Id>)
    requires before.Valid() && after.Valid() && PlayersKeyedById(before)
    requires forall id :: id in after.entries <==> id in before.entries && id !in gone
    requires forall id :: id in after.entries ==> after.entries[id] == before.entries[id]
    requires var r := PlayersOf(before, roomId);
      forall id :: id in gone <==> exists j :: 0 <= j < |r| && r[j].id == id
    ensures forall id :: id in after.entries <==> id in before.entries && before.entries[id].roomId != roomId
    ensures forall id :: id in after.entries ==> after.entries[id] == before.entries[id]
    ensures PlayersOf(after, roomId) == []
  {
    RosterIds(before, roomId);
    RosterEmpty(after, roomId);
  }

  /** `getAnswersByQuestion`: the room's answers to this question, in the order they were saved. */
  function AnswersFor(answers: OM.OMap<Id, seq<Answer>>, roomId: Id, questionId: int): (r: seq<Answer>)
    ensures forall a :: a in r ==> a.questionId == questionId && a in OM.ListAt(answers, roomId)
    ensures forall a :: a in OM.ListAt(answers, roomId) && a.questionId == questionId ==> a in r
    ensures Seqs.IsSubsequence(r, OM.ListAt(answers, roomId))
    ensures forall a :: a in OM.ListAt(answers, roomId) ==>
      multiset(r)[a] == if a.questionId == questionId then multiset(OM.ListAt(answers, roomId))[a] else 0
  {
    Seqs.Filter(OM.ListAt(answers, roomId), (a: Answer) => a.questionId == questionId)
  }

  /** Every saved answer, room after room in insertion order: `Array.from(answers.values()).flat()`. */
  function AllAnswers(answers: OM.OMap<Id, seq<Answer>>): (all: seq<Answer>)
    requires answers.Valid()
    ensures forall room, a :: room in answers.entries && a in answers.entries[room] ==> a in all
    ensures forall x :: x in all ==> exists room :: room in answers.entries && x in answers.entries[room]
    ensures all == Seqs.Flatten(OM.Values(answers))
  {
    var lists := OM.Values(answers);
    var all := Seqs.Flatten(lists);
    assert forall room, a :: room in answers.entries && a in answers.entries[room] ==> a in all by {
      forall room, a | room in answers.entries && a in answers.entries[room] ensures a in all {
        var i :| 0 <= i < |lists| && lists[i] == answers.entries[room];
      }
    }
    assert forall x :: x in all ==> exists room :: room in answers.entries && x in answers.entries[room] by {
      forall x | x in all ensures exists room :: room in answers.entries && x in answers.entries[room] {
        var i :| 0 <= i < |lists| && x in lists[i];
        assert lists[i] == answers.entries[answers.keys[i]];
      }
    }
    all
  }

  /** Whether `a` is an answer by the player to the question. */
  predicate Matches(a: Answer, playerId: Id, questionId: int) {
    a.playerId == playerId && a.questionId == questionId
  }

  /** The test `getAnswer` hands to `find`. */
  function MatchTest(playerId: Id, questionId: int): Answer -> bool {
    (a: Answer) => Matches(a, playerId, questionId)
  }

  /**
   * Whether position `p` of the `k`-th room's answers (rooms in insertion
   * order) is the first answer by the player to the question.
   */
  ghost predicate FirstAt(answers: OM.OMap<Id, seq<Answer>>, playerId: Id, questionId: int, k: int, p: int)
    requires answers.Valid()
  {
    && 0 <= k < |answers.keys| && 0 <= p < |answers.entries[answers.keys[k]]|
    && Matches(answers.entries[answers.keys[k]][p], playerId, questionId)
    && (forall k2, a :: 0 <= k2 < k && a in answers.entries[answers.keys[k2]] ==> !Matches(a, playerId, questionId))
    && (forall p2 :: 0 <= p2 < p ==> !Matches(answers.entries[answers.keys[k]][p2], playerId, questionId))
  }

  /**
   * `getAnswer`: the first answer by this player to this question, scanning
   * rooms in insertion order and each room's answers in saving order.
   */
  function FirstAnswer(answers: OM.OMap<Id, seq<Answer>>, playerId: Id, questionId: int): (r: Option<Answer>)
    requires answers.Valid()
    ensures r.None? <==> forall room, a :: room in answers.entries && a in answers.entries[room] ==>
      !Matches(a, playerId, questionId)
    ensures r.Some? ==> Matches(r.value, playerId, questionId)
    ensures r.Some? ==> exists k, p ::
      FirstAt(answers, playerId, questionId, k, p) && r.value == answers.entries[answers.keys[k]][p]
  {
    FindAnswerNone(answers, playerId, questionId);
    FindAnswerFirst(answers, playerId, questionId);
    Seqs.Find(AllAnswers(answers), MatchTest(playerId, questionId))
  }

  /** `find` over all answers finds nothing exactly when no saved answer matches. */
  lemma FindAnswerNone(answers: OM.OMap<Id, seq<Answer>>, playerId: Id, questionId: int)
    requires answers.Valid()
    ensures Seqs.Find(AllAnswers(answers), MatchTest(playerId, questionId)).None? <==>
      forall room, a :: room in answers.entries && a in answers.entries[room] ==> !Matches(a, playerId, questionId)
  {
    var all := AllAnswers(answers);
    if Seqs.Find(all, MatchTest(playerId, questionId)).None? {
      forall room, a | room in answers.entries && a in answers.entries[room]
        ensures !Matches(a, playerId, questionId)
      {
        assert a in all;
        assert !MatchTest(playerId, questionId)(a);
      }
    }
  }

  /** What `find` over all answers finds is the first match, room by room in insertion order. */
  lemma FindAnswerFirst(answers: OM.OMap<Id, seq<Answer>>, playerId: Id, questionId: int)
    requires answers.Valid()
    ensures var r := Seqs.Find(AllAnswers(answers), MatchTest(playerId, questionId));
      r.Some? ==> exists k, p ::
        FirstAt(answers, playerId, questionId, k, p) && r.value == answers.entries[answers.keys[k]][p]
  {
    var lists := OM.Values(answers);
    var test := MatchTest(playerId, questionId);
    Seqs.FindFlatten(lists, test);
    var r := Seqs.Find(AllAnswers(answers), test);
    if r.Some? {
      var k, p :| Seqs.FirstNested(lists, test, k, p) && r.value == lists[k][p];
      assert lists[k] == answers.entries[answers.keys[k]];
      forall k2, a | 0 <= k2 < k && a in answers.entries[answers.keys[k2]]
        ensures !Matches(a, playerId, questionId)
      {
        assert lists[k2] == answers.entries[answers.keys[k2]];
        assert !test(a);
      }
      forall p2 | 0 <= p2 < p
        ensures !Matches(answers.entries[answers.keys[k]][p2], playerId, questionId)
      {
        assert !test(lists[k][p2]);
      }
      assert test(lists[k][p]);
      assert FirstAt(answers, playerId, questionId, k, p);
    }
  }

  /** `id.split('-')[0]`: the part of a message id before its first dash. */
  function ChatKey(id: string): (k: string)
    ensures k <= id
    ensures '-' !in k
    ensures |k| < |id| ==> id[|k|] == '-'
  {
    if id == [] || id[0] == '-' then [] else [id[0]] + ChatKey(id[1..])
  }

  /** `{ ...room, ...updates }`: the fields `updates` carries replace the old ones. */
  function ApplyRoomUpdate(room: Room, u: RoomUpdate): (r: Room)
    ensures r.id == room.id && r.code == room.code && r.createdAt == room.createdAt
    ensures r.status == u.status.GetOr(room.status)
    ensures r.currentQuestion == u.currentQuestion.GetOr(room.currentQuestion)
    ensures u == RoomUpdate(None, None) ==> r == room
  {
    room.(status := u.status.GetOr(room.status),
          currentQuestion := u.currentQuestion.GetOr(room.currentQuestion))
  }

  /** `{ ...player, ...updates }`. */
  function ApplyPlayerUpdate(player: Player, u: PlayerUpdate): (r: Player)
    ensures r.id == player.id && r.name == player.name && r.roomId == player.roomId
    ensures r.joinedAt == player.joinedAt
    ensures r.score == u.score.GetOr(player.score) && r.streak == u.streak.GetOr(player.streak)
    ensures r.ready == u.ready.GetOr(player.ready) && r.isHost == u.isHost.GetOr(player.isHost)
    ensures u == PlayerUpdate(None, None, None, None) ==> r == player
  {
    player.(score := u.score.GetOr(player.score), streak := u.streak.GetOr(player.streak),
            ready := u.ready.GetOr(player.ready), isHost := u.isHost.GetOr(player.isHost))
  }

  /** The room table after `updateRoom(id, u)`. */
  function UpdatedRooms(rooms: OM.OMap<Id, Room>, id: Id, u: RoomUpdate): (r: OM.OMap<Id, Room>)
    requires rooms.Valid()
    ensures r.Valid() && r.keys == rooms.keys && r.entries.Keys == rooms.entries.Keys
    ensures forall k :: k in rooms.entries && k != id ==> r.entries[k] == rooms.entries[k]
    ensures id in rooms.entries ==> r.entries[id] == ApplyRoomUpdate(rooms.entries[id], u)
  {
    if id in rooms.entries then OM.Put(rooms, id, ApplyRoomUpdate(rooms.entries[id], u)) else rooms
  }

  /** The player table after `updatePlayer(id, u)`. */
  function UpdatedPlayers(players: OM.OMap<Id, Player>, id: Id, u: PlayerUpdate): (r: OM.OMap<Id, Player>)
    requires players.Valid()
    ensures r.Valid() && r.keys == players.keys && r.entries.Keys == players.entries.Keys
    ensures forall k :: k in players.entries && k != id ==> r.entries[k] == players.entries[k]
    ensures id in players.entries ==> r.entries[id] == ApplyPlayerUpdate(players.entries[id], u)
  {
    if id in players.entries then OM.Put(players, id, ApplyPlayerUpdate(players.entries[id], u)) else players
  }

  /** The answer table after `saveAnswer(a)`: appended to the list of the player's room, if the player exists. */
  function SavedAnswers(answers: OM.OMap<Id, seq<Answer>>, players: OM.OMap<Id, Player>, a: Answer)
    : (r: OM.OMap<Id, seq<Answer>>)
    requires answers.Valid()
    ensures r.Valid()
    ensures a.playerId !in players.entries ==> r == answers
    ensures a.playerId in players.entries ==>
      var room := players.entries[a.playerId].roomId;
      && r.entries == answers.entries[room := OM.ListAt(answers, room) + [a]]
      && OM.ListAt(r, room) == OM.ListAt(answers, room) + [a]
  {
    if a.playerId !in players.entries then answers
    else
      var room := players.entries[a.playerId].roomId;
      OM.Put(answers, room, OM.ListAt(answers, room) + [a])
  }

  /** The chat table after `addChatMessage(m)`: appended under `ChatKey(m.id)`. */
  function AddedChat(chat: OM.OMap<string, seq<ChatMessage>>, m: ChatMessage): (r: OM.OMap<string, seq<ChatMessage>>)
    requires chat.Valid()
    ensures r.Valid()
    ensures r.entries == chat.entries[ChatKey(m.id) := OM.ListAt(chat, ChatKey(m.id)) + [m]]
  {
    OM.Put(chat, ChatKey(m.id), OM.ListAt(chat, ChatKey(m.id)) + [m])
  }

  /** The player `updatePlayer(id, u)` changes, and every other player unchanged. */
  function Touched(id: Id, u: PlayerUpdate): Player -> Player {
    (p: Player) => if p.id == id then ApplyPlayerUpdate(p, u) else p
  }

  /** After `updatePlayer(id, u)` every roster lists the same players in the same order, with the updated one changed. */
  lemma RosterAfterUpdate(players: OM.OMap<Id, Player>, id: Id, u: PlayerUpdate, roomId: Id)
    requires players.Valid() && PlayersKeyedById(players)
    ensures PlayersOf(UpdatedPlayers(players, id, u), roomId) == Seqs.Map(PlayersOf(players, roomId), Touched(id, u))
  {
    var keep := (p: Player) => p.roomId == roomId;
    var vs := OM.Values(players);
    ValuesAfterUpdate(players, id, u);
    forall x ensures keep(Touched(id, u)(x)) == keep(x) {
      TouchedKeepsRoom(id, u, x);
    }
    Seqs.FilterMap(vs, Touched(id, u), keep, keep);
    assert PlayersOf(players, roomId) == Seqs.Filter(vs, keep);
  }

  /** An update never moves a player to another room. */
  lemma TouchedKeepsRoom(id: Id, u: PlayerUpdate, p: Player)
    ensures Touched(id, u)(p).roomId == p.roomId
  {
  }

  /** After `updatePlayer(id, u)` the values of the table are the old ones with the updated player changed. */
  lemma ValuesAfterUpdate(players: OM.OMap<Id, Player>, id: Id, u: PlayerUpdate)
    requires players.Valid() && PlayersKeyedById(players)
    ensures OM.Values(UpdatedPlayers(players, id, u)) == Seqs.Map(OM.Values(players), Touched(id, u))
  {
    forall i | 0 <= i < |players.keys|
      ensures OM.Values(UpdatedPlayers(players, id, u))[i] == Seqs.Map(OM.Values(players), Touched(id, u))[i]
    {
      ValueAfterUpdate(players, id, u, i);
    }
  }

  /** One position of the values after `updatePlayer(id, u)`. */
  lemma ValueAfterUpdate(players: OM.OMap<Id, Player>, id: Id, u: PlayerUpdate, i: int)
    requires players.Valid() && PlayersKeyedById(players) && 0 <= i < |players.keys|
    ensures OM.Values(UpdatedPlayers(players, id, u))[i] == Touched(id, u)(OM.Values(players)[i])
  {
    assert players.entries[players.keys[i]].id == players.keys[i];
  }

  /** A room's answers to a question after one more answer is saved: the new one is last if it matches. */
  lemma AnswersForAfterSave(answers: OM.OMap<Id, seq<Answer>>, players: OM.OMap<Id, Player>, a: Answer,
                            roomId: Id, questionId: int)
    requires answers.Valid() && a.playerId in players.entries && players.entries[a.playerId].roomId == roomId
    ensures AnswersFor(SavedAnswers(answers, players, a), roomId, questionId)
      == AnswersFor(answers, roomId, questionId) + (if a.questionId == questionId then [a] else [])
  {
    var keep := (x: Answer) => x.questionId == questionId;
    Seqs.FilterAppend(OM.ListAt(answers, roomId), [a], keep);
    assert Seqs.Filter([a], keep) == (if a.questionId == questionId then [a] else []) by {
      assert [a][1..] == [];
    }
  }

  /** After a room's answers are cleared, none of its answers to any question remain. */
  lemma ClearedAnswersGone(answers: OM.OMap<Id, seq<Answer>>, roomId: Id, questionId: int)
    requires answers.Valid()
    ensures AnswersFor(OM.Remove(answers, roomId), roomId, questionId) == []
    ensures forall other :: other != roomId ==>
      OM.ListAt(OM.Remove(answers, roomId), other) == OM.ListAt(answers, other)
  {
  }

  /** A message id that starts with a dash-free room id and a dash is filed under that room id. */
  lemma ChatKeyOfRoomMessage(roomId: Id, rest: string)
    requires '-' !in roomId
    ensures ChatKey(roomId + "-" + rest) == roomId
  {
    var id := roomId + "-" + rest;
    assert id[|roomId|] == '-';
    assert forall i :: 0 <= i < |roomId| ==> id[i] == roomId[i];
  }

  /** A room id that contains a dash files its chat under a strictly shorter key. */
  lemma ChatKeyOfDashedRoom(roomId: Id, rest: string)
    requires '-' in roomId
    ensures ChatKey(roomId + "-" + rest) == ChatKey(roomId)
    ensures ChatKey(roomId) != roomId
  {
    var id := roomId + "-" + rest;
    ChatKeyPrefix(roomId, "-" + rest);
    assert id == roomId + ("-" + rest);
  }

  /** The dash-free prefix of `s` is the same in any extension of `s` that does not reach past its first dash. */
  lemma {:induction false} ChatKeyPrefix(s: string, t: string)
    requires '-' in s
    ensures ChatKey(s + t) == ChatKey(s)
  {
    if s[0] != '-' {
      assert (s + t)[1..] == s[1..] + t;
      ChatKeyPrefix(s[1..], t);
    }
  }

  /**
   * `MemStorage`: four insertion-ordered maps. The `IStorage` operations are
   * its methods; each one's contract names the table it touches, and its
   * `modifies` clause leaves the other tables alone.
   */
  class MemStorage {
    var rooms: OM.OMap<Id, Room>
    var players: OM.OMap<Id, Player>
    var answers: OM.OMap<Id, seq<Answer>>
    var chatMessages: OM.OMap<string, seq<ChatMessage>>

    ghost predicate Valid()
      reads this
    {
      && rooms.Valid() && players.Valid() && answers.Valid() && chatMessages.Valid()
      && RoomsKeyedById(rooms) && PlayersKeyedById(players)
    }

    constructor()
      ensures Valid()
      ensures rooms.entries == map[] && players.entries == map[]
      ensures answers.entries == map[] && chatMessages.entries == map[]
    {
      rooms := OM.Empty();
      players := OM.Empty();
      answers := OM.Empty();
      chatMessages := OM.Empty();
    }

    /** `createRoom`: one new entry, last in the order, under the fresh id. */
    method CreateRoom(insert: InsertRoom, id: Id, createdAt: Timestamp) returns (room: Room)
      requires Valid() && id !in rooms.entries
      modifies this`rooms
      ensures Valid()
      ensures room == Room(id, insert.code, insert.status, insert.currentQuestion, createdAt)
      ensures rooms == OM.Put(old(rooms), id, room)
      ensures rooms.entries == old(rooms.entries)[id := room]
      ensures rooms.keys == old(rooms.keys) + [id]
    {
      room := Room(id, insert.code, insert.status, insert.currentQuestion, createdAt);
      rooms := OM.Put(rooms, id, room);
    }

    /** `getRoom`. */
    method GetRoom(id: Id) returns (r: Option<Room>)
      requires Valid()
      ensures r.Some? <==> id in rooms.entries
      ensures r.Some? ==> r.value == rooms.entries[id] && r.value.id == id
    {
      r := OM.Get(rooms, id);
    }

    /** `getRoomByCode`. */
    method GetRoomByCode(code: string) returns (r: Option<Room>)
      requires Valid()
      ensures r == RoomByCode(rooms, code)
    {
      r := RoomByCode(rooms, code);
    }

    /** `updateRoom`: undefined and no change for a missing id, else the merged room in the same place. */
    method UpdateRoom(id: Id, u: RoomUpdate) returns (r: Option<Room>)
      requires Valid()
      modifies this`rooms
      ensures Valid()
      ensures rooms == UpdatedRooms(old(rooms), id, u)
      ensures id !in old(rooms.entries) ==> r.None? && rooms == old(rooms)
      ensures id in old(rooms.entries) ==> r == Some(ApplyRoomUpdate(old(rooms.entries[id]), u))
    {
      var room := OM.Get(rooms, id);
      if room.None? {
        return None;
      }
      var updated := ApplyRoomUpdate(room.value, u);
      rooms := OM.Put(rooms, id, updated);
      r := Some(updated);
    }

    /** `deleteRoom`. */
    method DeleteRoom(id: Id)
      requires Valid()
      modifies this`rooms
      ensures Valid()
      ensures rooms == OM.Remove(old(rooms), id)
    {
      rooms := OM.Remove(rooms, id);
    }

    /** `createPlayer`: one new entry, last in the order, under the fresh id. */
    method CreatePlayer(insert: InsertPlayer, id: Id, joinedAt: Timestamp) returns (player: Player)
      requires Valid() && id !in players.entries
      modifies this`players
      ensures Valid()
      ensures player == Player(id, insert.name, insert.roomId, insert.score, insert.streak,
                               insert.ready, insert.isHost, joinedAt)
      ensures players == OM.Put(old(players), id, player)
      ensures players.entries == old(players.entries)[id := player]
      ensures players.keys == old(players.keys) + [id]
    {
      player := Player(id, insert.name, insert.roomId, insert.score, insert.streak,
                       insert.ready, insert.isHost, joinedAt);
      players := OM.Put(players, id, player);
    }

    /** `getPlayer`. */
    method GetPlayer(id: Id) returns (r: Option<Player>)
      requires Valid()
      ensures r.Some? <==> id in players.entries
      ensures r.Some? ==> r.value == players.entries[id] && r.value.id == id
    {
      r := OM.Get(players, id);
    }

    /** `getPlayersByRoom`. */
    method GetPlayersByRoom(roomId: Id) returns (r: seq<Player>)
      requires Valid()
      ensures r == PlayersOf(players, roomId)
    {
      r := PlayersOf(players, roomId);
    }

    /** `updatePlayer`: undefined and no change for a missing id, else the merged player in the same place. */
    method UpdatePlayer(id: Id, u: PlayerUpdate) returns (r: Option<Player>)
      requires Valid()
      modifies this`players
      ensures Valid()
      ensures players == UpdatedPlayers(old(players), id, u)
      ensures id !in old(players.entries) ==> r.None? && players == old(players)
      ensures id in old(players.entries) ==> r == Some(ApplyPlayerUpdate(old(players.entries[id]), u))
    {
      var player := OM.Get(players, id);
      if player.None? {
        return None;
      }
      var updated := ApplyPlayerUpdate(player.value, u);
      players := OM.Put(players, id, updated);
      r := Some(updated);
    }

    /** `deletePlayer`. */
    method DeletePlayer(id: Id)
      requires Valid()
      modifies this`players
      ensures Valid()
      ensures players == OM.Remove(old(players), id)
    {
      players := OM.Remove(players, id);
    }

    /** `deletePlayersByRoom`: removes all and only the room's players, keeping the others in order. */
    method DeletePlayersByRoom(roomId: Id)
      requires Valid()
      modifies this`players
      ensures Valid()
      ensures players == WithoutRoom(old(players), roomId)
    {
      var doomed := GetPlayersByRoom(roomId);
      DeleteEach(doomed);
    }

    /** The `forEach` of `deletePlayersByRoom`: deletes the given players' ids one after another. */
    method DeleteEach(doomed: seq<Player>)
      requires Valid()
      modifies this`players
      ensures Valid()
      ensures players == OM.RemoveAll(old(players), IdsOf(doomed))
    {
      var i := 0;
      while i < |doomed|
        invariant 0 <= i <= |doomed|
        invariant players == OM.RemoveAll(old(players), IdsOf(doomed[..i]))
      {
        var id := doomed[i].id;
        IdsOfSnoc(doomed, i);
        OM.RemoveAllSnoc(old(players), IdsOf(doomed[..i]), id);
        players := OM.Remove(players, id);
        i := i + 1;
      }
      assert doomed[..i] == doomed;
    }

    /** `getAnswer`. */
    method GetAnswer(playerId: Id, questionId: int) returns (r: Option<Answer>)
      requires Valid()
      ensures r == FirstAnswer(answers, playerId, questionId)
    {
      r := FirstAnswer(answers, playerId, questionId);
    }

    /** `saveAnswer`: nothing for an unknown player, else appended to the list of the player's room. */
    method SaveAnswer(a: Answer)
      requires Valid()
      modifies this`answers
      ensures Valid()
      ensures answers == SavedAnswers(old(answers), players, a)
    {
      var player := GetPlayer(a.playerId);
      if player.None? {
        return;
      }
      var roomAnswers := OM.ListAt(answers, player.value.roomId);
      answers := OM.Put(answers, player.value.roomId, roomAnswers + [a]);
    }

    /** `getAnswersByQuestion`. */
    method GetAnswersByQuestion(roomId: Id, questionId: int) returns (r: seq<Answer>)
      requires Valid()
      ensures r == AnswersFor(answers, roomId, questionId)
    {
      r := AnswersFor(answers, roomId, questionId);
    }

    /** `clearAnswers`: the room's list goes; every other room's list stays. */
    method ClearAnswers(roomId: Id)
      requires Valid()
      modifies this`answers
      ensures Valid()
      ensures answers == OM.Remove(old(answers), roomId)
      ensures forall q :: AnswersFor(answers, roomId, q) == []
      ensures forall other :: other != roomId ==> OM.ListAt(answers, other) == OM.ListAt(old(answers), other)
    {
      answers := OM.Remove(answers, roomId);
    }

    /** `getChatMessages`. */
    method GetChatMessages(roomId: Id) returns (r: seq<ChatMessage>)
      requires Valid()
      ensures r == OM.ListAt(chatMessages, roomId)
    {
      r := OM.ListAt(chatMessages, roomId);
    }

    /** `addChatMessage`: appended under the prefix of the message id before its first dash. */
    method AddChatMessage(m: ChatMessage)
      requires Valid()
      modifies this`chatMessages
      ensures Valid()
      ensures chatMessages == AddedChat(old(chatMessages), m)
    {
      var key := ChatKey(m.id);
      var messages := OM.ListAt(chatMessages, key);
      chatMessages := OM.Put(chatMessages, key, messages + [m]);
    }

    /** `clearChatMessages`: deletes exactly the key `roomId`. */
    method ClearChatMessages(roomId: Id)
      requires Valid()
      modifies this`chatMessages
      ensures Valid()
      ensures chatMessages == OM.Remove(old(chatMessages), roomId)
    {
      chatMessages := OM.Remove(chatMessages, roomId);
    }
  }
}
