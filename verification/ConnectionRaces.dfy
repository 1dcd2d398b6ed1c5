// A user's connection record and the player's status in one started game's session: handlers
// of opening and closing sockets write the record first and mark the session later, under the
// lock, and the user's own commands write the record without ever marking the session.
module ConnectionRaces {
  import opened Common
  import opened Domain
  import opened Players
  import opened GameRules
  import opened GameSpec
  import opened ConnectionStates

  // One write of a status to the record, and whether its handler marks this game's session.
  datatype RecordWrite = RecordWrite(status: Connection, marks: bool)

  // An opening socket's handler between its steps: the room it read, and its first write.
  datatype Opening = RoomRead(room: Option<GameId>) | RecordTaken(room: Option<GameId>, ticket: nat)

  // A handler is known by the number of its write. Some still have to mark the session; the
  // others did, in the order of marks.
  datatype Race = Race(
    index: Index, session: Session, writes: seq<RecordWrite>,
    openings: map<SocketId, Opening>, pending: set<nat>, marks: seq<nat>)

  datatype RaceStep =
    | OpenReads(socket: SocketId)  // the room of the record
    | OpenTakes(socket: SocketId, now: Millis)  // the record
    | OpenSeats(socket: SocketId, now: Millis)  // back in the room it read
    | Closes(socket: SocketId, now: Millis)
    | Leaves(socket: SocketId, now: Millis)  // this game's room; every room status allows it
    | Joins(socket: SocketId, now: Millis, roomId: GameId)  // another room; this one has started
    | Marks(ticket: nat)
    | GivesUp(ticket: nat)  // the lock was busy

  predicate CanRace(r: Race, s: RaceStep, gameId: GameId) {
    match s
    case OpenReads(socket) => socket !in r.openings
    case OpenTakes(socket, _) => socket in r.openings && r.openings[socket].RoomRead?
    case OpenSeats(socket, _) =>
      socket in r.openings && r.openings[socket].RecordTaken? && r.openings[socket].ticket < |r.writes|
    case Joins(_, _, roomId) => roomId != gameId
    case Marks(ticket) => ticket in r.pending && ticket < |r.writes|
    case GivesUp(ticket) => ticket in r.pending && ticket < |r.writes|
    case _ => true
  }

  predicate Speaks(index: Index, user: UserId, socket: SocketId) {
    user in index.byUser && index.byUser[user].socketId == socket
  }

  function RoomOf(index: Index, user: UserId): Option<GameId> {
    if user in index.byUser then index.byUser[user].roomId else None
  }

  // A call on the record that writes a status, and the handler's duty to mark the session.
  function Written(r: Race, c: Call, status: Connection, marks: bool): Race {
    r.(index := After(r.index, c),
       writes := r.writes + [RecordWrite(status, marks)],
       pending := if marks then r.pending + {|r.writes|} else r.pending)
  }

  function RaceNext(r: Race, s: RaceStep, user: UserId, gameId: GameId): Race
    requires CanRace(r, s, gameId)
  {
    match s
    case OpenReads(socket) => r.(openings := r.openings[socket := RoomRead(RoomOf(r.index, user))])
    case OpenTakes(socket, now) =>
      Written(r, MarkConnected(user, socket, now), Connected, false)
        .(openings := r.openings[socket := RecordTaken(r.openings[socket].room, |r.writes|)])
    case OpenSeats(socket, now) =>
      var room, ticket := r.openings[socket].room, r.openings[socket].ticket;
      var r := r.(openings := r.openings - {socket});
      if room.None? then r
      else if Speaks(r.index, user, socket) then
        Written(r, SetRoom(user, socket, now, room.value), Connected, room.value == gameId)
      else if room.value == gameId then
        // The record ignores it, but the session is marked all the same.
        r.(writes := r.writes[ticket := RecordWrite(r.writes[ticket].status, true)], pending := r.pending + {ticket})
      else r
    case Closes(socket, now) =>
      if Speaks(r.index, user, socket) then
        Written(r, MarkDisconnected(user, socket, now), Disconnected, RoomOf(r.index, user) == Some(gameId))
      else r
    case Leaves(socket, now) =>
      if Speaks(r.index, user, socket) && RoomOf(r.index, user) == Some(gameId) then
        Written(r, ClearRoom(user, socket, now, gameId), Connected, false)
      else r
    case Joins(socket, now, roomId) =>
      if Speaks(r.index, user, socket) then Written(r, SetRoom(user, socket, now, roomId), Connected, false) else r
    case Marks(ticket) =>
      var marked := SetConnection(r.session, user, r.writes[ticket].status);
      r.(session := if marked.Ok? then marked.value else r.session,
         pending := r.pending - {ticket}, marks := r.marks + [ticket])
    case GivesUp(ticket) =>
      r.(writes := r.writes[ticket := RecordWrite(r.writes[ticket].status, false)], pending := r.pending - {ticket})
  }

  // The record carries the last write's status and the player the last mark's; a handler with
  // a mark to make has made it or still has to.
  predicate RaceInv(r: Race, user: UserId) {
    && user in r.index.byUser && r.index.byUser[user].userId == user
    && Has(r.session.players, user)
    && r.writes != [] && r.index.byUser[user].status == Last(r.writes).status
    && r.marks != [] && Last(r.marks) < |r.writes| && (forall t <- r.marks :: t < |r.writes|)
    && Get(r.session.players, user).connection == r.writes[Last(r.marks)].status
    && (forall t <- r.pending :: t < |r.writes|)
    && (forall t: nat | t < |r.writes| && r.writes[t].marks :: t in r.pending || t in r.marks)
  }

  lemma MarkedPlayer(s: Session, user: UserId, c: Connection)
    requires Has(s.players, user)
    ensures SetConnection(s, user, c).Ok?
    ensures var t := SetConnection(s, user, c).value;
      Has(t.players, user) && Get(t.players, user).connection == c
  {
    LookupSame(s.players, SetConnection(s, user, c).value.players, user);
  }

  // Every call of a socket the record listens to leaves the status it writes.
  lemma WrittenStatus(index: Index, c: Call, user: UserId)
    requires c.user == user && user in index.byUser && index.byUser[user].userId == user
    requires c.MarkConnected? || Speaks(index, user, c.socket)
    requires c.ClearRoom? ==> RoomOf(index, user) == Some(c.roomId)
    ensures var next := After(index, c);
      && user in next.byUser && next.byUser[user].userId == user && next.byUser[user].socketId == c.socket
      && next.byUser[user].status == (if c.MarkDisconnected? then Disconnected else Connected)
      && next.byUser[user].roomId ==
           (match c
            case MarkConnected(_, _, _) => if Speaks(index, user, c.socket) then RoomOf(index, user) else None
            case MarkDisconnected(_, _, _) => RoomOf(index, user)
            case SetRoom(_, _, _, roomId) => Some(roomId)
            case ClearRoom(_, _, _, _) => None)
  {
  }

  lemma WrittenKeepsInv(r: Race, c: Call, status: Connection, marks: bool, user: UserId)
    requires RaceInv(r, user) && c.user == user
    requires c.MarkConnected? || Speaks(r.index, user, c.socket)
    requires c.ClearRoom? ==> RoomOf(r.index, user) == Some(c.roomId)
    requires status == if c.MarkDisconnected? then Disconnected else Connected
    ensures RaceInv(Written(r, c, status, marks), user)
  {
    hide After, IndexOf, Get;
    WrittenStatus(r.index, c, user);
    var n := Written(r, c, status, marks);
    assert Last(n.marks) in r.marks;
    forall t: nat | t < |n.writes| && n.writes[t].marks ensures t in n.pending || t in n.marks {
      if t < |r.writes| { assert n.writes[t] == r.writes[t]; }
    }
  }

  lemma StepKeepsRaceInv(r: Race, s: RaceStep, user: UserId, gameId: GameId)
    requires RaceInv(r, user) && CanRace(r, s, gameId)
    ensures RaceInv(RaceNext(r, s, user, gameId), user)
  {
    hide After, IndexOf, SetConnection, Get, Written;
    match s
    case OpenTakes(socket, now) => WrittenKeepsInv(r, MarkConnected(user, socket, now), Connected, false, user);
    case OpenSeats(socket, now) =>
      var room := r.openings[socket].room;
      var q := r.(openings := r.openings - {socket});
      if room.Some? && Speaks(q.index, user, socket) {
        WrittenKeepsInv(q, SetRoom(user, socket, now, room.value), Connected, room.value == gameId, user);
      } else {
        FlagKeepsInv(q, r.openings[socket].ticket, true, user);
      }
    case Closes(socket, now) =>
      if Speaks(r.index, user, socket) {
        WrittenKeepsInv(r, MarkDisconnected(user, socket, now), Disconnected, RoomOf(r.index, user) == Some(gameId), user);
      }
    case Leaves(socket, now) =>
      if Speaks(r.index, user, socket) && RoomOf(r.index, user) == Some(gameId) {
        WrittenKeepsInv(r, ClearRoom(user, socket, now, gameId), Connected, false, user);
      }
    case Joins(socket, now, roomId) =>
      if Speaks(r.index, user, socket) { WrittenKeepsInv(r, SetRoom(user, socket, now, roomId), Connected, false, user); }
    case Marks(ticket) =>
      MarkedPlayer(r.session, user, r.writes[ticket].status);
      assert Last(r.marks + [ticket]) == ticket && ticket in r.marks + [ticket];
    case GivesUp(ticket) => FlagKeepsInv(r, ticket, false, user);
    case _ =>
  }

  // Whether a handler marks is not what it wrote.
  lemma FlagKeepsInv(r: Race, ticket: nat, marks: bool, user: UserId)
    requires RaceInv(r, user) && ticket < |r.writes|
    ensures RaceInv(r.(writes := r.writes[ticket := RecordWrite(r.writes[ticket].status, marks)],
                       pending := if marks then r.pending + {ticket} else r.pending - {ticket}), user)
  {
    hide IndexOf, Get;
    var n := r.(writes := r.writes[ticket := RecordWrite(r.writes[ticket].status, marks)],
                pending := if marks then r.pending + {ticket} else r.pending - {ticket});
    assert Last(r.marks) in r.marks;
    forall t: nat | t < |n.writes| ensures n.writes[t].status == r.writes[t].status
                                          && (n.writes[t].marks ==> t in n.pending || t in n.marks) {
      if t != ticket { assert n.writes[t] == r.writes[t]; }
    }
  }

  ghost function RaceRun(r: Race, steps: seq<RaceStep>, user: UserId, gameId: GameId): Option<Race>
    decreases |steps|
  {
    if steps == [] then Some(r)
    else if !CanRace(r, steps[0], gameId) then None
    else RaceRun(RaceNext(r, steps[0], user, gameId), steps[1..], user, gameId)
  }

  lemma {:induction false} RunsKeepRaceInv(r: Race, steps: seq<RaceStep>, user: UserId, gameId: GameId)
    requires RaceInv(r, user)
    ensures var n := RaceRun(r, steps, user, gameId); n.Some? ==> RaceInv(n.value, user)
    decreases |steps|
  {
    hide RaceInv, RaceNext, CanRace;
    if steps != [] && CanRace(r, steps[0], gameId) {
      StepKeepsRaceInv(r, steps[0], user, gameId);
      RunsKeepRaceInv(RaceNext(r, steps[0], user, gameId), steps[1..], user, gameId);
    }
  }

  predicate StatusesAgree(r: Race, user: UserId)
    requires user in r.index.byUser && Has(r.session.players, user)
  {
    Get(r.session.players, user).connection == r.index.byUser[user].status
  }

  predicate InOrder(marks: seq<nat>) {
    forall i, j | 0 <= i < j < |marks| :: marks[i] < marks[j]
  }

  // No handler is between its first step and its last.
  predicate Settled(r: Race) {
    r.pending == {} && r.openings == map[]
  }

  // Over every run of openings, closings, leaving, joining elsewhere, marks and busy locks:
  // the player's status is the record's exactly when the handler that marked last wrote the
  // status that was written last. When all handlers are done and marked in the order they
  // wrote, that leaves one way to disagree: the last write is of a handler or command that
  // does not mark this session, and it wrote the other status.
  lemma StatusesAgreeIff(r: Race, steps: seq<RaceStep>, user: UserId, gameId: GameId)
    requires RaceInv(r, user)
    ensures var n := RaceRun(r, steps, user, gameId);
      n.Some? ==>
        && user in n.value.index.byUser && Has(n.value.session.players, user)
        && n.value.marks != [] && n.value.writes != [] && Last(n.value.marks) < |n.value.writes|
        && (StatusesAgree(n.value, user)
            <==> n.value.writes[Last(n.value.marks)].status == Last(n.value.writes).status)
        && (Settled(n.value) && InOrder(n.value.marks) ==>
              (StatusesAgree(n.value, user)
               <==> Last(n.value.writes).marks || n.value.writes[Last(n.value.marks)].status == Last(n.value.writes).status))
  {
    hide RaceRun, IndexOf, Get;
    RunsKeepRaceInv(r, steps, user, gameId);
    var n := RaceRun(r, steps, user, gameId);
    if n.Some? {
      assert Last(n.value.marks) in n.value.marks;
      if Settled(n.value) && InOrder(n.value.marks) && Last(n.value.writes).marks { LastWriterMarkedLast(n.value, user); }
    }
  }

  lemma LastWriterMarkedLast(r: Race, user: UserId)
    requires RaceInv(r, user) && Settled(r) && InOrder(r.marks) && Last(r.writes).marks
    ensures Last(r.marks) == |r.writes| - 1
  {
    hide IndexOf, Get;
    var t: nat := |r.writes| - 1;
    assert r.writes[t].marks;
    assert t in r.marks;
    var k :| 0 <= k < |r.marks| && r.marks[k] == t;
    assert Last(r.marks) in r.marks;
    assert r.marks[k] <= Last(r.marks);
  }

  // A new session seats everybody connected, whatever the record says: it is the first mark.
  function NewRace(index: Index, session: Session, status: Connection): Race {
    Race(index, session, [RecordWrite(Connected, true)] + (if status.Connected? then [] else [RecordWrite(status, false)]),
         map[], {}, [0])
  }

  // So every game starts in a settled state of these runs, in which exactly the users whose
  // socket is open agree; a player whose socket closed in the waiting room starts connected.
  lemma StartAgreesIff(index: Index, host: UserId, deal: seq<Assignment>, now: Millis, d: Durations, user: UserId)
    requires user in index.byUser && index.byUser[user].userId == user && Has(DealtPlayers(deal), user)
    ensures var r := NewRace(index, NewSession(host, DealtPlayers(deal), now, d), index.byUser[user].status);
      RaceInv(r, user) && Settled(r) && InOrder(r.marks)
      && (StatusesAgree(r, user) <==> index.byUser[user].status == Connected)
  {
    hide IndexOf;
  }

  // ---- The record without this game's room ----

  // Nothing can mark the session any more: the record is not in the room, and no handler that
  // read it there is still under way.
  predicate OutOfRoom(r: Race, user: UserId, gameId: GameId) {
    && RoomOf(r.index, user) != Some(gameId) && r.pending == {}
    && forall socket <- r.openings :: r.openings[socket].room != Some(gameId)
  }

  lemma OutOfRoomStep(r: Race, s: RaceStep, user: UserId, gameId: GameId)
    requires OutOfRoom(r, user, gameId) && CanRace(r, s, gameId)
    ensures var n := RaceNext(r, s, user, gameId); OutOfRoom(n, user, gameId) && n.session == r.session
  {
  }

  // A user who left the room of a running game keeps the status the session had, whatever the
  // user's sockets do from then on.
  lemma {:induction false} OutOfRoomIsFrozen(r: Race, steps: seq<RaceStep>, user: UserId, gameId: GameId)
    requires OutOfRoom(r, user, gameId)
    ensures var n := RaceRun(r, steps, user, gameId); n.Some? ==> OutOfRoom(n.value, user, gameId) && n.value.session == r.session
    decreases |steps|
  {
    hide OutOfRoom, RaceNext, CanRace;
    if steps != [] && CanRace(r, steps[0], gameId) {
      OutOfRoomStep(r, steps[0], user, gameId);
      OutOfRoomIsFrozen(RaceNext(r, steps[0], user, gameId), steps[1..], user, gameId);
    }
  }

  lemma OneStep(r: Race, s: RaceStep, rest: seq<RaceStep>, user: UserId, gameId: GameId)
    requires CanRace(r, s, gameId)
    ensures RaceRun(r, [s] + rest, user, gameId) == RaceRun(RaceNext(r, s, user, gameId), rest, user, gameId)
  {
    hide CanRace, RaceNext;
    assert ([s] + rest)[1..] == rest;
  }

  // The seated, connected user behind the socket leaves and then closes it: all handlers are
  // done, in order, the record says disconnected, and the session says connected for good.
  lemma LeavingThenClosing(r: Race, user: UserId, gameId: GameId, socket: SocketId, t1: Millis, t2: Millis)
    requires RaceInv(r, user) && Settled(r) && InOrder(r.marks) && StatusesAgree(r, user)
    requires Speaks(r.index, user, socket) && RoomOf(r.index, user) == Some(gameId)
    requires r.index.byUser[user].status == Connected
    ensures var n := RaceRun(r, [Leaves(socket, t1), Closes(socket, t2)], user, gameId);
      && n.Some? && Settled(n.value) && InOrder(n.value.marks) && OutOfRoom(n.value, user, gameId)
      && user in n.value.index.byUser && n.value.index.byUser[user].status == Disconnected
      && Has(n.value.session.players, user) && Get(n.value.session.players, user).connection == Connected
  {
    hide IndexOf;
    var r1 := RaceNext(r, Leaves(socket, t1), user, gameId);
    OneStep(r, Leaves(socket, t1), [Closes(socket, t2)], user, gameId);
    OneStep(r1, Closes(socket, t2), [], user, gameId);
    assert [Leaves(socket, t1)] + [Closes(socket, t2)] == [Leaves(socket, t1), Closes(socket, t2)];
    assert [Closes(socket, t2)] + [] == [Closes(socket, t2)];
  }

  // ---- Races ----

  function Overtaking(older: SocketId, newer: SocketId, t: Millis, k: nat): seq<RaceStep> {
    [Closes(older, t)] + ([OpenReads(newer)] + ([OpenTakes(newer, t)] + ([OpenSeats(newer, t)] + ([Marks(k + 2)] + ([Marks(k)] + [])))))
  }

  // The old socket's handler writes before the new one's and marks after it: the record says
  // connected, the player stays disconnected, and nobody is left to correct it.
  lemma OvertakenMark(r: Race, user: UserId, gameId: GameId, older: SocketId, newer: SocketId, t: Millis)
    requires RaceInv(r, user) && Settled(r) && RoomOf(r.index, user) == Some(gameId)
    requires Speaks(r.index, user, older) && older != newer
    ensures var n := RaceRun(r, Overtaking(older, newer, t, |r.writes|), user, gameId);
      && n.Some? && Settled(n.value)
      && Speaks(n.value.index, user, newer) && n.value.index.byUser[user].status == Connected
      && Has(n.value.session.players, user) && Get(n.value.session.players, user).connection == Disconnected
  {
    hide SetConnection, IndexOf, After;
    var k := |r.writes|;
    WrittenStatus(r.index, MarkDisconnected(user, older, t), user);
    var r1 := RaceNext(r, Closes(older, t), user, gameId);
    WrittenStatus(r1.index, MarkConnected(user, newer, t), user);
    var r2 := RaceNext(r1, OpenReads(newer), user, gameId);
    var r3 := RaceNext(r2, OpenTakes(newer, t), user, gameId);
    WrittenStatus(r3.index, SetRoom(user, newer, t, gameId), user);
    var r4 := RaceNext(r3, OpenSeats(newer, t), user, gameId);
    assert r4.pending == {k, k + 2} && r4.openings == map[];
    var r5 := RaceNext(r4, Marks(k + 2), user, gameId);
    MarkedPlayer(r4.session, user, Connected);
    MarkedPlayer(r5.session, user, Disconnected);
    OneStep(r5, Marks(k), [], user, gameId);
    OneStep(r4, Marks(k + 2), [Marks(k)] + [], user, gameId);
    OneStep(r3, OpenSeats(newer, t), [Marks(k + 2)] + ([Marks(k)] + []), user, gameId);
    OneStep(r2, OpenTakes(newer, t), [OpenSeats(newer, t)] + ([Marks(k + 2)] + ([Marks(k)] + [])), user, gameId);
    OneStep(r1, OpenReads(newer), [OpenTakes(newer, t)] + ([OpenSeats(newer, t)] + ([Marks(k + 2)] + ([Marks(k)] + []))), user, gameId);
    OneStep(r, Closes(older, t), [OpenReads(newer)] + ([OpenTakes(newer, t)] + ([OpenSeats(newer, t)] + ([Marks(k + 2)] + ([Marks(k)] + [])))), user, gameId);
  }

  function Overlapping(a: SocketId, b: SocketId, t: Millis): seq<RaceStep> {
    [OpenReads(a)] + ([OpenTakes(a, t)] + ([OpenReads(b)] + ([OpenTakes(b, t)] + ([OpenSeats(a, t)] + ([OpenSeats(b, t)] + [])))))
  }

  // Two openings overlap: the second reads the record between the first's taking it and
  // sitting down again, finds no room, and takes the record out of the room; only the first
  // marks the session, and closing the second marks nobody.
  lemma OverlappingOpeningsLoseTheRoom(r: Race, user: UserId, gameId: GameId, a: SocketId, b: SocketId, t: Millis)
    requires RaceInv(r, user) && Settled(r) && RoomOf(r.index, user) == Some(gameId)
    requires !Speaks(r.index, user, a) && !Speaks(r.index, user, b) && a != b
    ensures var n := RaceRun(r, Overlapping(a, b, t), user, gameId);
      && n.Some? && n.value.openings == map[] && n.value.pending == {|r.writes|}
      && Speaks(n.value.index, user, b) && RoomOf(n.value.index, user) == None
      && RaceNext(n.value, Closes(b, t), user, gameId).pending == n.value.pending
  {
    hide SetConnection, IndexOf, After;
    WrittenStatus(r.index, MarkConnected(user, a, t), user);
    var r1 := RaceNext(r, OpenReads(a), user, gameId);
    var r2 := RaceNext(r1, OpenTakes(a, t), user, gameId);
    var r3 := RaceNext(r2, OpenReads(b), user, gameId);
    WrittenStatus(r3.index, MarkConnected(user, b, t), user);
    var r4 := RaceNext(r3, OpenTakes(b, t), user, gameId);
    var r5 := RaceNext(r4, OpenSeats(a, t), user, gameId);
    OneStep(r5, OpenSeats(b, t), [], user, gameId);
    OneStep(r4, OpenSeats(a, t), [OpenSeats(b, t)] + [], user, gameId);
    OneStep(r3, OpenTakes(b, t), [OpenSeats(a, t)] + ([OpenSeats(b, t)] + []), user, gameId);
    OneStep(r2, OpenReads(b), [OpenTakes(b, t)] + ([OpenSeats(a, t)] + ([OpenSeats(b, t)] + [])), user, gameId);
    OneStep(r1, OpenTakes(a, t), [OpenReads(b)] + ([OpenTakes(b, t)] + ([OpenSeats(a, t)] + ([OpenSeats(b, t)] + []))), user, gameId);
    OneStep(r, OpenReads(a), [OpenTakes(a, t)] + ([OpenReads(b)] + ([OpenTakes(b, t)] + ([OpenSeats(a, t)] + ([OpenSeats(b, t)] + [])))), user, gameId);
    assert RaceNext(r5, OpenSeats(b, t), user, gameId).openings == map[];
  }
}
