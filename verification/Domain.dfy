// The values the game server stores and sends.
module Domain {
  import opened Common

  // Ids are non-empty strings in every request the server accepts, so "truthy" and
  // "present" mean the same for the maps keyed by or holding them.
  type GameId = string
  type UserId = string
  type RequestId = string
  type Text = string
  type Millis = int

  datatype Phase = Waiting | Night | DayDiscussion | Voting | Result | Finished
  datatype Role = Mafia | Doctor | Police | Citizen
  datatype Status = Alive | Dead
  datatype Connection = Connected | Disconnected
  datatype Team = MafiaTeam | CitizenTeam

  datatype Player = Player(userId: UserId, role: Role, status: Status, connection: Connection)

  // The three optional fields of the night-action record.
  datatype Slot = MafiaTarget | DoctorTarget | PoliceTarget

  datatype Session = Session(
    hostUserId: UserId,
    phase: Phase,
    turn: nat,
    version: nat,
    players: seq<Player>,
    votes: map<UserId, UserId>,
    nightActions: map<Slot, UserId>,
    phaseEndsAt: Option<Millis>,
    processedRequests: map<RequestId, UserId>)

  datatype RoomStatus = WaitingRoom | InProgress
  datatype Participant = Participant(userId: UserId, isReady: bool)
  datatype Room = Room(
    hostUserId: UserId, status: RoomStatus, maxPlayers: nat, participants: seq<Participant>)

  // How long each phase lasts. The server accepts any positive number of seconds; that it is
  // at least a millisecond is assumed here.
  type Duration = n: int | 1 <= n witness 1
  datatype Durations = Durations(night: Duration, day: Duration, voting: Duration, result: Duration) {
    function Of(phase: Phase): Option<Duration> {
      match phase
      case Night => Some(night)
      case DayDiscussion => Some(day)
      case Voting => Some(voting)
      case Result => Some(result)
      case Waiting => None
      case Finished => None
    }
  }

  datatype Error =
    | RoomTooSmall | RoomNotFound | RoomNotJoinable | RoomIsFull | ParticipantNotFound
    | NotHost | RoomNeedsPlayers | NotAllReady | RoomNotStartable | RoomNotInProgress
    | SessionNotFound | GameIsFinished | NotVotingPhase | NotNightPhase
    | ActorNotFound | ActorNotAlive | ActorNotDead | RoleNotAllowed
    | TargetNotFound | TargetNotAlive | TargetIsSelf
    | EventNumberTaken | VoteAlreadyCast | NightActionAlreadySelected | ChatNotAllowedInPhase

  datatype Assignment = Assignment(userId: UserId, role: Role)

  datatype Channel = LobbyChat | DayChat | MafiaChat | GhostChat
  datatype ChatMessage = ChatMessage(channel: Channel, text: Text, sender: UserId)

  // The rows of the append-only event log.
  datatype Event =
    | PlayerJoined(userId: UserId)
    | PlayerLeft(userId: UserId)
    | PlayerReadyChanged(userId: UserId, isReady: bool)
    | GameStarted(startedBy: UserId, startedAt: Millis)
    | RoleAssigned(assignment: Assignment)
    | PhaseChanged(fromPhase: Phase, toPhase: Phase, toTurn: nat,
                   requestedBy: Option<UserId>, endsAt: Option<Millis>)
    | NightTargetSelected(slot: Slot, actor: UserId, target: UserId)
    | VoteCasted(voter: UserId, target: UserId)
    | PlayerKilled(target: UserId)
    | PlayerExecuted(target: UserId)
    | GameFinished(winner: Team)
    | ChatMessageSent(message: ChatMessage)
  datatype Entry = Entry(turn: nat, phase: Phase, requestId: RequestId, event: Event)

  // What a command asks the gateway to send.
  datatype Message =
    | RoomUpdated(room: Room)
    | GameStartedMessage(startedBy: UserId, phaseEndsAt: Option<Millis>)
    | RoleAssignedMessage(assignment: Assignment)
    | PhaseChangedMessage(fromPhase: Phase, toPhase: Phase, turn: nat,
                          requestedBy: Option<UserId>, phaseEndsAt: Option<Millis>)
    | NightResolved(attacked: Option<UserId>, protected: Option<UserId>, killed: Option<UserId>)
    | VotingResolved(executed: Option<UserId>)
    | GameFinishedMessage(winner: Team)
    | InvestigationResult(target: UserId, role: Role)
    | Chat(message: ChatMessage)
    | PlayerDisconnected(userId: UserId)
  datatype Effect =
    | JoinSocketRoom
    | LeaveSocketRoom
    | Broadcast(message: Message)
    | Private(userId: UserId, message: Message)
}
