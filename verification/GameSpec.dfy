// One game as a value: its room, its session and its event log, and what one accepted or
// rejected input does to it. Commands of one game run one at a time under the game lock.
module GameSpec {
  import opened Common
  import opened Domain
  import opened Players
  import opened GameRules
  import opened RoomRules

  datatype Game = Game(room: Option<Room>, session: Option<Session>, log: seq<Entry>)

  datatype Command =
    | JoinRoom
    | LeaveRoom
    | ChangeReadyState(isReady: bool)
    | StartGame(deal: seq<Assignment>)  // with the roles the shuffle dealt
    | AdvancePhase
    | Vote(target: UserId)
    | SelectTarget(slot: Slot, target: UserId)
    | SendChat(channel: Channel, text: Text)
    | OtherCommand(kind: Text)  // any type the dispatch does not know

  datatype Input =
    | Client(user: UserId, requestId: RequestId, now: Millis, command: Command)
    | Timer(requestId: RequestId, now: Millis)
    | SocketLost(user: UserId)
    | SocketOvertaken(user: UserId)  // an older socket's loss, marked after a newer one came back
    | SocketBack(user: UserId)

  // The game afterwards, and the effects to deliver or the error to report.
  datatype Outcome = Outcome(game: Game, result: Result<seq<Effect>, Error>)

  function Rejected(g: Game, e: Error): Outcome {
    Outcome(g, Err(e))
  }

  ghost function Exec(g: Game, input: Input, d: Durations): Outcome {
    match input
    case Timer(requestId, now) => ExecPhase(g, requestId, None, now, d)
    case SocketLost(user) => ExecConnection(g, user, Disconnected)
    case SocketOvertaken(user) => ExecConnection(g, user, Disconnected)
    case SocketBack(user) => ExecConnection(g, user, Connected)
    case Client(user, requestId, now, command) =>
      match command
      case JoinRoom => ExecJoin(g, user, requestId)
      case LeaveRoom => ExecLeave(g, user, requestId)
      case ChangeReadyState(isReady) => ExecReady(g, user, isReady, requestId)
      case StartGame(deal) => ExecStart(g, user, deal, requestId, now, d)
      case AdvancePhase => ExecNextPhase(g, user, requestId, now, d)
      case Vote(target) => ExecVote(g, user, target, requestId)
      case SelectTarget(slot, target) => ExecNight(g, user, target, slot, requestId)
      case SendChat(channel, text) => ExecChat(g, ChatMessage(channel, text, user), requestId)
      case OtherCommand(_) => Outcome(g, Ok([]))
  }

  // ---- Rooms ----

  function RoomChange(g: Game, changed: Result<Room, Error>, requestId: RequestId, event: Event, first: seq<Effect>): Outcome {
    match changed
    case Err(e) => Rejected(g, e)
    case Ok(room) =>
      Outcome(g.(room := Some(room), log := g.log + [Entry(0, Waiting, requestId, event)]),
              Ok(first + [Broadcast(RoomUpdated(room))]))
  }

  function ExecJoin(g: Game, user: UserId, requestId: RequestId): Outcome {
    if g.room.None? then Rejected(g, RoomNotFound)
    else RoomChange(g, Join(g.room.value, user), requestId, PlayerJoined(user), [JoinSocketRoom])
  }

  function ExecLeave(g: Game, user: UserId, requestId: RequestId): Outcome {
    if g.room.None? then Rejected(g, RoomNotFound)
    else RoomChange(g, Leave(g.room.value, user), requestId, PlayerLeft(user), [LeaveSocketRoom])
  }

  function ExecReady(g: Game, user: UserId, isReady: bool, requestId: RequestId): Outcome {
    if g.room.None? then Rejected(g, RoomNotFound)
    else RoomChange(g, ChangeReady(g.room.value, user, isReady), requestId, PlayerReadyChanged(user, isReady), [])
  }

  // ---- Starting ----

  function DealtPlayers(deal: seq<Assignment>): (ps: seq<Player>)
    ensures |ps| == |deal|
  {
    seq(|deal|, i requires 0 <= i < |deal| => Player(deal[i].userId, deal[i].role, Alive, Connected))
  }

  function NewSession(host: UserId, players: seq<Player>, now: Millis, d: Durations): Session {
    Session(host, Night, 0, 1, players, map[], map[], Deadline(d, Night, now), map[])
  }

  function RoleEntries(deal: seq<Assignment>, requestId: RequestId): (es: seq<Entry>)
    ensures |es| == |deal|
  {
    seq(|deal|, i requires 0 <= i < |deal| => Entry(0, Waiting, requestId, RoleAssigned(deal[i])))
  }

  function RoleEffects(deal: seq<Assignment>): (es: seq<Effect>)
    ensures |es| == |deal|
  {
    seq(|deal|, i requires 0 <= i < |deal| => Private(deal[i].userId, RoleAssignedMessage(deal[i])))
  }

  function ExecStart(g: Game, user: UserId, deal: seq<Assignment>, requestId: RequestId, now: Millis, d: Durations): Outcome {
    if g.room.None? then Rejected(g, RoomNotFound)
    else match Start(g.room.value, user)
      case Err(e) => Rejected(g, e)
      case Ok(room) =>
        var session := NewSession(user, DealtPlayers(deal), now, d);
        Outcome(
          Game(Some(room), Some(session),
               g.log + [Entry(0, Waiting, requestId, GameStarted(user, now))] + RoleEntries(deal, requestId)),
          Ok([Broadcast(GameStartedMessage(user, session.phaseEndsAt))] + RoleEffects(deal)
             + [Broadcast(RoomUpdated(room))]))
  }

  // ---- Phases ----

  function ChangeEntry(r: PhaseReport, caller: Option<UserId>, requestId: RequestId): Entry {
    Entry(r.turn, r.toPhase, requestId, PhaseChanged(r.fromPhase, r.toPhase, r.turn, caller, r.phaseEndsAt))
  }

  function DeathEntries(r: PhaseReport, requestId: RequestId): seq<Entry> {
    if r.died.None? then []
    else [Entry(r.turn, r.toPhase, requestId,
                if r.fromPhase.Night? then PlayerKilled(r.died.value) else PlayerExecuted(r.died.value))]
  }

  function FinishEntries(r: PhaseReport, requestId: RequestId): seq<Entry> {
    if r.winner.None? then [] else [Entry(r.turn, Finished, requestId, GameFinished(r.winner.value))]
  }

  function PhaseEntries(r: PhaseReport, caller: Option<UserId>, requestId: RequestId): seq<Entry> {
    [ChangeEntry(r, caller, requestId)] + DeathEntries(r, requestId) + FinishEntries(r, requestId)
  }

  function ResolvedEffects(r: PhaseReport): seq<Effect> {
    if r.fromPhase.Night? then [Broadcast(NightResolved(r.attacked, r.protected, r.died))]
    else if r.fromPhase.Voting? then [Broadcast(VotingResolved(r.died))]
    else []
  }

  function FinishedEffects(r: PhaseReport): seq<Effect> {
    if r.winner.None? then [] else [Broadcast(GameFinishedMessage(r.winner.value))]
  }

  function PhaseEffects(r: PhaseReport, caller: Option<UserId>): seq<Effect> {
    [Broadcast(PhaseChangedMessage(r.fromPhase, r.toPhase, r.turn, caller, r.phaseEndsAt))]
    + ResolvedEffects(r) + FinishedEffects(r)
  }

  ghost function ExecPhase(g: Game, requestId: RequestId, caller: Option<UserId>, now: Millis, d: Durations): Outcome {
    if g.session.None? then Rejected(g, SessionNotFound)
    else
      var step := PhaseStep(g.session.value, now, d);
      match step.report
      case Err(e) => Rejected(g.(session := Some(step.session)), e)
      case Ok(report) =>
        Outcome(g.(session := Some(step.session), log := g.log + PhaseEntries(report, caller, requestId)),
                Ok(PhaseEffects(report, caller)))
  }

  ghost function ExecNextPhase(g: Game, user: UserId, requestId: RequestId, now: Millis, d: Durations): Outcome {
    if g.room.None? then Rejected(g, RoomNotFound)
    else match CanAdvancePhase(g.room.value, user)
      case Err(e) => Rejected(g, e)
      case Ok(_) => ExecPhase(g, requestId, Some(user), now, d)
  }

  // ---- Votes, night actions and chat ----

  function ExecVote(g: Game, user: UserId, target: UserId, requestId: RequestId): Outcome {
    if g.session.None? then Rejected(g, SessionNotFound)
    else match CastVote(g.session.value, user, target, requestId)
      case Err(e) => Rejected(g, e)
      case Ok(VoteCast(session, duplicate)) =>
        Outcome(
          if duplicate then g
          else g.(session := Some(session),
                  log := g.log + [Entry(session.turn, session.phase, requestId, VoteCasted(user, target))]),
          Ok([]))
  }

  function ExecNight(g: Game, user: UserId, target: UserId, slot: Slot, requestId: RequestId): Outcome {
    if g.session.None? then Rejected(g, SessionNotFound)
    else match SelectNightAction(g.session.value, user, target, slot)
      case Err(e) => Rejected(g, e)
      case Ok(session) =>
        Outcome(
          g.(session := Some(session),
             log := g.log + [Entry(session.turn, session.phase, requestId, NightTargetSelected(slot, user, target))]),
          Ok(if slot.PoliceTarget?
             then [Private(user, InvestigationResult(target, Get(session.players, target).role))] else []))
  }

  function PrivateTo(ps: seq<Player>, test: Player -> bool, m: Message): seq<Effect> {
    if ps == [] then []
    else (if test(ps[0]) then [Private(ps[0].userId, m)] else []) + PrivateTo(ps[1..], test, m)
  }

  const IsDead := (p: Player) => p.status.Dead?

  function ChatRefusal(g: Game, channel: Channel, user: UserId): Option<Error> {
    match channel
    case LobbyChat =>
      if g.room.None? then Some(RoomNotFound)
      else if !g.room.value.status.WaitingRoom? then Some(ChatNotAllowedInPhase)
      else if ParticipantIndex(g.room.value.participants, user) < 0 then Some(ParticipantNotFound)
      else None
    case DayChat =>
      if g.session.None? then Some(SessionNotFound)
      else var s := g.session.value;
        if !s.phase.DayDiscussion? then Some(ChatNotAllowedInPhase)
        else if !Has(s.players, user) then Some(ActorNotFound)
        else if !Get(s.players, user).status.Alive? then Some(ActorNotAlive)
        else None
    case MafiaChat =>
      if g.session.None? then Some(SessionNotFound)
      else var s := g.session.value;
        if !s.phase.Night? then Some(ChatNotAllowedInPhase)
        else if !Has(s.players, user) then Some(ActorNotFound)
        else if !Get(s.players, user).role.Mafia? then Some(RoleNotAllowed)
        else if !Get(s.players, user).status.Alive? then Some(ActorNotAlive)
        else None
    case GhostChat =>
      if g.session.None? then Some(SessionNotFound)
      else var s := g.session.value;
        if !Has(s.players, user) then Some(ActorNotFound)
        else if !Get(s.players, user).status.Dead? then Some(ActorNotDead)
        else None
  }

  function ChatEffects(g: Game, m: ChatMessage): seq<Effect> {
    if m.channel.MafiaChat? && g.session.Some? then PrivateTo(g.session.value.players, IsAliveMafia, Chat(m))
    else if m.channel.GhostChat? && g.session.Some? then PrivateTo(g.session.value.players, IsDead, Chat(m))
    else [Broadcast(Chat(m))]
  }

  function ExecChat(g: Game, m: ChatMessage, requestId: RequestId): Outcome {
    match ChatRefusal(g, m.channel, m.sender)
    case Some(e) => Rejected(g, e)
    case None =>
      var lobby := m.channel.LobbyChat? || g.session.None?;
      var entry := Entry(if lobby then 0 else g.session.value.turn,
                         if lobby then Waiting else g.session.value.phase,
                         requestId, ChatMessageSent(m));
      Outcome(g.(log := g.log + [entry]), Ok(ChatEffects(g, m)))
  }

  // ---- Connections ----

  function ExecConnection(g: Game, user: UserId, c: Connection): Outcome {
    if g.session.None? then Rejected(g, SessionNotFound)
    else match SetConnection(g.session.value, user, c)
      case Err(e) => Rejected(g, e)
      case Ok(session) =>
        Outcome(g.(session := Some(session)),
                Ok(if c.Disconnected? then [Broadcast(PlayerDisconnected(user))] else []))
  }

  // ---- Runs ----

  // The only inputs a run excludes: a START_GAME whose roles no shuffle could have dealt.
  predicate Possible(g: Game, input: Input) {
    input.Client? && input.command.StartGame? && g.room.Some? ==>
      IsDeal(ParticipantIds(g.room.value.participants), input.command.deal)
        || |g.room.value.participants| < 4
  }

  function NewGame(host: UserId, maxPlayers: nat): Game
    requires maxPlayers >= 2
  {
    Game(Some(NewRoom(host, maxPlayers)), None, [])
  }

  ghost function Run(g: Game, inputs: seq<Input>, d: Durations): Game {
    if inputs == [] then g else Exec(Run(g, ButLast(inputs), d), Last(inputs), d).game
  }

  ghost predicate PossibleRun(g: Game, inputs: seq<Input>, d: Durations) {
    forall i | 0 <= i < |inputs| :: Possible(Run(g, inputs[..i], d), inputs[i])
  }

  lemma PossiblePrefix(g: Game, inputs: seq<Input>, d: Durations)
    requires inputs != [] && PossibleRun(g, inputs, d)
    ensures PossibleRun(g, ButLast(inputs), d)
    ensures Possible(Run(g, ButLast(inputs), d), Last(inputs))
  {
    forall i | 0 <= i < |inputs| - 1 ensures Possible(Run(g, ButLast(inputs)[..i], d), ButLast(inputs)[i]) {
      assert ButLast(inputs)[..i] == inputs[..i];
    }
  }
}
