// Which socket speaks for a user: the user record and the socket index.
module ConnectionStates {
  import opened Common
  import opened Domain

  type SocketId = string

  datatype ConnectionRecord = ConnectionRecord(
    userId: UserId, socketId: SocketId, roomId: Option<GameId>, status: Connection,
    connectedAt: Millis, lastSeenAt: Millis, disconnectedAt: Option<Millis>)

  datatype Index = Index(byUser: map<UserId, ConnectionRecord>, bySocket: map<SocketId, ConnectionRecord>)

  function BaseState(user: UserId, socket: SocketId, now: Millis): ConnectionRecord {
    ConnectionRecord(user, socket, None, Connected, now, now, None)
  }

  function SavedState(index: Index, r: ConnectionRecord): Index {
    Index(index.byUser[r.userId := r], index.bySocket[r.socketId := r])
  }

  datatype Call =
    | MarkConnected(user: UserId, socket: SocketId, now: Millis)
    | MarkDisconnected(user: UserId, socket: SocketId, now: Millis)
    | SetRoom(user: UserId, socket: SocketId, now: Millis, roomId: GameId)
    | ClearRoom(user: UserId, socket: SocketId, now: Millis, roomId: GameId)

  // What one call leaves behind.
  function After(index: Index, c: Call): Index {
    var known := c.user in index.byUser;
    var current := if known then index.byUser[c.user] else BaseState(c.user, c.socket, c.now);
    match c
    case MarkConnected(user, socket, now) =>
      SavedState(index, BaseState(user, socket, now).(roomId := if current.socketId == socket then current.roomId else None))
    case MarkDisconnected(user, socket, now) =>
      if current.socketId != socket then index
      else SavedState(index, current.(userId := user, status := Disconnected, lastSeenAt := now, disconnectedAt := Some(now)))
    case SetRoom(user, socket, now, roomId) =>
      if current.socketId != socket then index
      else SavedState(index,
        current.(userId := user, roomId := Some(roomId), status := Connected, lastSeenAt := now, disconnectedAt := None))
    case ClearRoom(user, socket, now, roomId) =>
      if !known then SavedState(index, current)
      else if current.socketId != socket || current.roomId != Some(roomId) then index
      else SavedState(index,
        current.(userId := user, roomId := None, status := Connected, lastSeenAt := now, disconnectedAt := None))
  }

  class ConnectionStateService {
    var byUser: map<UserId, ConnectionRecord>
    var bySocket: map<SocketId, ConnectionRecord>

    constructor ()
      ensures Stored() == Index(map[], map[])
    {
      byUser, bySocket := map[], map[];
    }

    function Stored(): Index
      reads this
    {
      Index(byUser, bySocket)
    }

    method SaveState(r: ConnectionRecord)
      modifies this
      ensures Stored() == SavedState(old(Stored()), r)
    {
      byUser := byUser[r.userId := r];
      bySocket := bySocket[r.socketId := r];
    }

    method MarkSocketConnected(user: UserId, socket: SocketId, now: Millis) returns (state: ConnectionRecord)
      modifies this
      ensures Stored() == After(old(Stored()), MarkConnected(user, socket, now))
      ensures user in byUser && state == byUser[user]
    {
      var room: Option<GameId> := None;
      if user in byUser && byUser[user].socketId == socket { room := byUser[user].roomId; }
      state := ConnectionRecord(user, socket, room, Connected, now, now, None);
      SaveState(state);
    }

    method MarkSocketDisconnected(user: UserId, socket: SocketId, now: Millis) returns (state: ConnectionRecord)
      modifies this
      ensures Stored() == After(old(Stored()), MarkDisconnected(user, socket, now))
      ensures user in byUser && state == byUser[user]
    {
      if user in byUser && byUser[user].socketId != socket { return byUser[user]; }
      var base := if user in byUser then byUser[user] else BaseState(user, socket, now);
      state := base.(userId := user, socketId := socket, status := Disconnected, lastSeenAt := now, disconnectedAt := Some(now));
      SaveState(state);
    }

    method SetSocketRoom(user: UserId, socket: SocketId, roomId: GameId, now: Millis) returns (state: ConnectionRecord)
      modifies this
      ensures Stored() == After(old(Stored()), SetRoom(user, socket, now, roomId))
      ensures user in byUser && state == byUser[user]
    {
      if user in byUser && byUser[user].socketId != socket { return byUser[user]; }
      var base := if user in byUser then byUser[user] else BaseState(user, socket, now);
      state := base.(userId := user, socketId := socket, roomId := Some(roomId), status := Connected,
                     lastSeenAt := now, disconnectedAt := None);
      SaveState(state);
    }

    method ClearSocketRoom(user: UserId, socket: SocketId, roomId: GameId, now: Millis) returns (state: ConnectionRecord)
      modifies this
      ensures Stored() == After(old(Stored()), ClearRoom(user, socket, now, roomId))
      ensures user in byUser && state == byUser[user]
    {
      if user !in byUser {
        state := BaseState(user, socket, now);
        SaveState(state);
        return;
      }
      state := byUser[user];
      if state.socketId != socket { return; }
      if state.roomId != Some(roomId) { return; }
      state := state.(userId := user, socketId := socket, roomId := None, status := Connected,
                      lastSeenAt := now, disconnectedAt := None);
      SaveState(state);
    }
  }

  // ---- Runs ----

  function AfterAll(calls: seq<Call>): Index {
    if calls == [] then Index(map[], map[]) else After(AfterAll(ButLast(calls)), Last(calls))
  }

  // The socket of the user's latest connection.
  function LatestSocket(calls: seq<Call>, user: UserId): Option<SocketId> {
    if calls == [] then None
    else if Last(calls).MarkConnected? && Last(calls).user == user then Some(Last(calls).socket)
    else LatestSocket(ButLast(calls), user)
  }

  // The same, except that before any connection the first call of any kind speaks.
  function Speaker(calls: seq<Call>, user: UserId): Option<SocketId> {
    if calls == [] then None
    else
      var before, last := Speaker(ButLast(calls), user), Last(calls);
      if last.user == user && (last.MarkConnected? || before.None?) then Some(last.socket) else before
  }

  // The room the speaking socket last chose. Calls from other sockets do not count, and a
  // new socket starts in no room.
  function ChosenRoom(calls: seq<Call>, user: UserId): Option<GameId> {
    if calls == [] then None
    else
      var before, speaker, last := ChosenRoom(ButLast(calls), user), Speaker(ButLast(calls), user), Last(calls);
      var heard := speaker.None? || speaker == Some(last.socket);
      if last.user != user then before
      else match last
        case MarkConnected(_, _, _) => if heard then before else None
        case SetRoom(_, _, _, roomId) => if heard then Some(roomId) else before
        case ClearRoom(_, _, _, roomId) => if heard && before == Some(roomId) then None else before
        case MarkDisconnected(_, _, _) => before
  }

  // Whether the speaking socket, as far as it said, is there.
  function HeardStatus(calls: seq<Call>, user: UserId): Connection {
    if calls == [] then Connected
    else
      var before, speaker, last := HeardStatus(ButLast(calls), user), Speaker(ButLast(calls), user), Last(calls);
      if last.user != user then before
      else if last.MarkConnected? || speaker.None? then (if last.MarkDisconnected? then Disconnected else Connected)
      else if speaker != Some(last.socket) then before
      else match last
        case MarkDisconnected(_, _, _) => Disconnected
        case ClearRoom(_, _, _, roomId) => if ChosenRoom(ButLast(calls), user) == Some(roomId) then Connected else before
        case _ => Connected
  }

  lemma OlderSocketIsIgnored(index: Index, c: Call)
    requires c.user in index.byUser && index.byUser[c.user].socketId != c.socket && !c.MarkConnected?
    ensures After(index, c) == index
  {
  }

  ghost predicate Holds(index: Index, user: UserId, speaker: Option<SocketId>, room: Option<GameId>,
                        status: Connection, owner: SocketId -> UserId) {
    && (user in index.byUser <==> speaker.Some?)
    && (speaker.None? ==> room == None)
    && (speaker.Some? ==>
          && owner(speaker.value) == user
          && index.byUser[user].userId == user
          && index.byUser[user].socketId == speaker.value
          && index.byUser[user].roomId == room
          && index.byUser[user].status == status
          && index.byUser[user].disconnectedAt == (if status.Disconnected? then Some(index.byUser[user].lastSeenAt) else None)
          && speaker.value in index.bySocket
          && index.bySocket[speaker.value] == index.byUser[user])
  }

  // Another user's call writes neither this user's record nor its socket's entry.
  lemma OthersDoNotSpeak(index: Index, c: Call, user: UserId, speaker: Option<SocketId>, room: Option<GameId>,
                         status: Connection, owner: SocketId -> UserId)
    requires Holds(index, user, speaker, room, status, owner) && owner(c.socket) == c.user && c.user != user
    requires c.user in index.byUser ==> index.byUser[c.user].userId == c.user
    ensures Holds(After(index, c), user, speaker, room, status, owner)
  {
  }

  lemma {:induction false} SpeakerHolds(calls: seq<Call>, owner: SocketId -> UserId, user: UserId)
    requires forall c <- calls :: owner(c.socket) == c.user
    ensures Holds(AfterAll(calls), user, Speaker(calls, user), ChosenRoom(calls, user), HeardStatus(calls, user), owner)
    ensures LatestSocket(calls, user).Some? ==> Speaker(calls, user) == LatestSocket(calls, user)
  {
    if calls != [] {
      var front, last := ButLast(calls), Last(calls);
      assert last in calls;
      SpeakerHolds(front, owner, user);
      if last.user != user {
        SpeakerHolds(front, owner, last.user);
        OthersDoNotSpeak(AfterAll(front), last, user, Speaker(front, user), ChosenRoom(front, user), HeardStatus(front, user), owner);
      } else if Speaker(front, user).Some? && Speaker(front, user).value != last.socket && !last.MarkConnected? {
        OlderSocketIsIgnored(AfterAll(front), last);
      }
    }
  }

  // Over every run in which a socket belongs to one user, the user's record names the socket
  // of its latest connection, the room that socket chose and whether it said it was going, and
  // the socket's index entry is the same record: disconnects and room changes of older sockets do nothing.
  lemma LatestSocketSpeaks(calls: seq<Call>, owner: SocketId -> UserId, user: UserId)
    requires forall c <- calls :: owner(c.socket) == c.user
    requires LatestSocket(calls, user).Some?
    ensures var index, socket := AfterAll(calls), LatestSocket(calls, user).value;
      && user in index.byUser && socket in index.bySocket
      && index.byUser[user].socketId == socket
      && index.byUser[user].roomId == ChosenRoom(calls, user)
      && index.byUser[user].status == HeardStatus(calls, user)
      && (index.byUser[user].disconnectedAt.Some? <==> HeardStatus(calls, user).Disconnected?)
      && index.bySocket[socket] == index.byUser[user]
  {
    SpeakerHolds(calls, owner, user);
  }
}
