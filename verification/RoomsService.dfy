// The rooms service: loads a copy of the room, edits it in place and saves it.
module RoomsServices {
  import opened Common
  import opened Domain
  import opened RoomRules

  // The rule's result when the room exists, and the save it leads to.
  ghost predicate Edits(before: map<GameId, Room>, after: map<GameId, Room>, roomId: GameId,
                        result: Result<Room, Error>, rule: Room -> Result<Room, Error>) {
    && result == (if roomId in before then rule(before[roomId]) else Err(RoomNotFound))
    && after == (if result.Ok? then before[roomId := result.value] else before)
  }

  const DEFAULT_SIZE: int := 8

  class RoomsService {
    var rooms: map<GameId, Room>

    constructor ()
      ensures rooms == map[]
    {
      rooms := map[];
    }

    // The id is drawn afresh. A room without a requested size seats eight.
    method CreateRoom(roomId: GameId, host: UserId, requested: Option<int>) returns (r: Result<Room, Error>)
      requires roomId !in rooms
      modifies this
      ensures r.Ok? <==> requested.GetOr(DEFAULT_SIZE) >= 2
      ensures r.Ok? ==> r.value == NewRoom(host, requested.GetOr(DEFAULT_SIZE)) && RoomInv(r.value)
      ensures requested.None? ==> r == Ok(Room(host, WaitingRoom, 8, [Participant(host, false)]))
      ensures r.Err? ==> r.error == RoomTooSmall
      ensures rooms == if r.Ok? then old(rooms)[roomId := r.value] else old(rooms)
    {
      var maxPlayers := requested.GetOr(DEFAULT_SIZE);
      if maxPlayers < 2 { return Err(RoomTooSmall); }
      var room := Room(host, WaitingRoom, maxPlayers, [Participant(host, false)]);
      rooms := rooms[roomId := room];
      r := Ok(room);
    }

    method JoinRoom(roomId: GameId, id: UserId) returns (r: Result<Room, Error>)
      modifies this
      ensures Edits(old(rooms), rooms, roomId, r, room => Join(room, id))
    {
      if roomId !in rooms { return Err(RoomNotFound); }
      var room := rooms[roomId];
      if !room.status.WaitingRoom? { return Err(RoomNotJoinable); }
      if ParticipantIndex(room.participants, id) < 0 {
        if |room.participants| >= room.maxPlayers { return Err(RoomIsFull); }
        room := room.(participants := room.participants + [Participant(id, false)]);
      }
      rooms := rooms[roomId := room];
      r := Ok(room);
    }

    method LeaveRoom(roomId: GameId, id: UserId) returns (r: Result<Room, Error>)
      modifies this
      ensures Edits(old(rooms), rooms, roomId, r, room => Leave(room, id))
    {
      if roomId !in rooms { return Err(RoomNotFound); }
      var room := rooms[roomId];
      var i := ParticipantIndex(room.participants, id);
      if i < 0 { return Err(ParticipantNotFound); }
      room := room.(participants := room.participants[..i] + room.participants[i + 1..]);
      rooms := rooms[roomId := room];
      r := Ok(room);
    }

    method SetReady(roomId: GameId, id: UserId, isReady: bool) returns (r: Result<Room, Error>)
      modifies this
      ensures Edits(old(rooms), rooms, roomId, r, room => ChangeReady(room, id, isReady))
    {
      if roomId !in rooms { return Err(RoomNotFound); }
      var room := rooms[roomId];
      if !room.status.WaitingRoom? { return Err(RoomNotJoinable); }
      var i := ParticipantIndex(room.participants, id);
      if i < 0 { return Err(ParticipantNotFound); }
      room := room.(participants := room.participants[i := room.participants[i].(isReady := isReady)]);
      rooms := rooms[roomId := room];
      r := Ok(room);
    }

    method StartGame(roomId: GameId, id: UserId) returns (r: Result<Room, Error>)
      modifies this
      ensures Edits(old(rooms), rooms, roomId, r, room => Start(room, id))
    {
      if roomId !in rooms { return Err(RoomNotFound); }
      var room := rooms[roomId];
      if !room.status.WaitingRoom? { return Err(RoomNotStartable); }
      if room.hostUserId != id { return Err(NotHost); }
      if |room.participants| < 4 { return Err(RoomNeedsPlayers); }
      for i := 0 to |room.participants|
        invariant forall j | 0 <= j < i :: room.participants[j].isReady
      {
        if !room.participants[i].isReady {
          assert room.participants[i] in room.participants;
          return Err(NotAllReady);
        }
      }
      room := room.(status := InProgress);
      rooms := rooms[roomId := room];
      r := Ok(room);
    }

    method AssertCanAdvancePhase(roomId: GameId, id: UserId) returns (r: Result<Room, Error>)
      ensures Edits(rooms, rooms, roomId, r, room => CanAdvancePhase(room, id))
    {
      if roomId !in rooms { return Err(RoomNotFound); }
      var room := rooms[roomId];
      if room.hostUserId != id { return Err(NotHost); }
      if !room.status.InProgress? { return Err(RoomNotInProgress); }
      assert rooms[roomId := room] == rooms;
      r := Ok(room);
    }
  }
}
