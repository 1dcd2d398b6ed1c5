// The command handlers: the calls they make on rooms, sessions and the recorder, one after
// the other, and that together they are one step of the game.
module CommandService {
  import opened Common
  import opened Domain
  import opened Players
  import opened GameRules
  import opened RoomRules
  import opened GameSpec
  import opened Invariants
  import opened VoteTally
  import opened EventRecorder
  import opened RoleDeal
  import opened SessionService
  import opened RoomsServices

  type Response = Result<seq<Effect>, Error>

  class GameCommandService {
    const rooms: RoomsService
    const sessions: GameSessionService
    const recorder: GameEventRecorder

    constructor (rooms: RoomsService, sessions: GameSessionService, recorder: GameEventRecorder)
      ensures this.rooms == rooms && this.sessions == sessions && this.recorder == recorder
    {
      this.rooms, this.sessions, this.recorder := rooms, sessions, recorder;
    }

    // One game as the three stores hold it.
    ghost function GameAt(gameId: GameId): Game
      reads rooms, sessions, recorder
    {
      Game(if gameId in rooms.rooms then Some(rooms.rooms[gameId]) else None,
           if gameId in sessions.sessions then Some(sessions.sessions[gameId]) else None,
           EntriesOf(recorder.rows, gameId))
    }

    method HandleJoinRoom(gameId: GameId, user: UserId, requestId: RequestId) returns (r: Response)
      modifies rooms, recorder
      ensures var out := ExecJoin(old(GameAt(gameId)), user, requestId); GameAt(gameId) == out.game && r == out.result
      ensures forall other | other != gameId :: GameAt(other) == old(GameAt(other))
    {
      var joined := rooms.JoinRoom(gameId, user);
      if joined.Err? { return Err(joined.error); }
      var _ := recorder.RecordEvent(gameId, Entry(0, Waiting, requestId, PlayerJoined(user)));
      r := Ok([JoinSocketRoom] + [Broadcast(RoomUpdated(joined.value))]);
    }

    method HandleLeaveRoom(gameId: GameId, user: UserId, requestId: RequestId) returns (r: Response)
      modifies rooms, recorder
      ensures var out := ExecLeave(old(GameAt(gameId)), user, requestId); GameAt(gameId) == out.game && r == out.result
      ensures forall other | other != gameId :: GameAt(other) == old(GameAt(other))
    {
      var left := rooms.LeaveRoom(gameId, user);
      if left.Err? { return Err(left.error); }
      var _ := recorder.RecordEvent(gameId, Entry(0, Waiting, requestId, PlayerLeft(user)));
      r := Ok([LeaveSocketRoom] + [Broadcast(RoomUpdated(left.value))]);
    }

    method HandleChangeReady(gameId: GameId, user: UserId, isReady: bool, requestId: RequestId) returns (r: Response)
      modifies rooms, recorder
      ensures var out := ExecReady(old(GameAt(gameId)), user, isReady, requestId);
        GameAt(gameId) == out.game && r == out.result
      ensures forall other | other != gameId :: GameAt(other) == old(GameAt(other))
    {
      var changed := rooms.SetReady(gameId, user, isReady);
      if changed.Err? { return Err(changed.error); }
      var _ := recorder.RecordEvent(gameId, Entry(0, Waiting, requestId, PlayerReadyChanged(user, isReady)));
      r := Ok([] + [Broadcast(RoomUpdated(changed.value))]);
    }

    // One private event and one private message per assignment.
    method RecordRoles(gameId: GameId, deal: seq<Assignment>, requestId: RequestId) returns (effects: seq<Effect>)
      modifies recorder
      ensures EntriesOf(recorder.rows, gameId) == EntriesOf(old(recorder.rows), gameId) + RoleEntries(deal, requestId)
      ensures forall other | other != gameId :: EntriesOf(recorder.rows, other) == EntriesOf(old(recorder.rows), other)
      ensures effects == RoleEffects(deal)
    {
      hide EntriesOf, MaxSeq, GapFree;
      effects := [];
      for i := 0 to |deal|
        invariant EntriesOf(recorder.rows, gameId)
               == EntriesOf(old(recorder.rows), gameId) + RoleEntries(deal[..i], requestId)
        invariant forall other | other != gameId :: EntriesOf(recorder.rows, other) == EntriesOf(old(recorder.rows), other)
        invariant effects == RoleEffects(deal[..i])
      {
        var entry := Entry(0, Waiting, requestId, RoleAssigned(deal[i]));
        var _ := recorder.RecordEvent(gameId, entry);
        effects := effects + [Private(deal[i].userId, RoleAssignedMessage(deal[i]))];
        assert RoleEntries(deal[..i + 1], requestId) == RoleEntries(deal[..i], requestId) + [entry];
        assert RoleEffects(deal[..i + 1]) == RoleEffects(deal[..i]) + [Private(deal[i].userId, RoleAssignedMessage(deal[i]))];
      }
      assert deal[..|deal|] == deal;
    }

    // Also returns the roles it dealt, which no later run of the same command would repeat.
    method HandleStartGame(gameId: GameId, user: UserId, requestId: RequestId, now: Millis)
      returns (r: Response, deal: seq<Assignment>)
      modifies rooms, sessions, recorder
      ensures r.Ok? ==> Possible(old(GameAt(gameId)), Client(user, requestId, now, StartGame(deal)))
      ensures var out := ExecStart(old(GameAt(gameId)), user, deal, requestId, now, sessions.durations);
        GameAt(gameId) == out.game && r == out.result
      ensures forall other | other != gameId :: GameAt(other) == old(GameAt(other))
    {
      hide EntriesOf, MaxSeq, GapFree, RoleEntries, RoleEffects, DealtPlayers, IsDeal, Draws, DealFrom, DealtIds, DealtRoles,
           ParticipantIds, RolePool;
      deal := [];
      var started := rooms.StartGame(gameId, user);
      if started.Err? { r := Err(started.error); return; }
      var seatDraws := DrawIndices(|started.value.participants|);
      var roleDraws := DrawIndices(|RolePool(|started.value.participants|)|);
      deal := BuildRoleAssignments(started.value, seatDraws, roleDraws);
      var session := sessions.StartGameSession(gameId, user, DealtPlayers(deal), now);
      var _ := recorder.RecordEvent(gameId, Entry(0, Waiting, requestId, GameStarted(user, now)));
      var effects := RecordRoles(gameId, deal, requestId);
      r := Ok([Broadcast(GameStartedMessage(user, session.phaseEndsAt))] + effects
              + [Broadcast(RoomUpdated(started.value))]);
    }

    // The event and effect tail that both copies of the phase step write after settling.
    method RecordPhase(gameId: GameId, report: PhaseReport, caller: Option<UserId>, requestId: RequestId)
      returns (effects: seq<Effect>)
      modifies recorder
      ensures EntriesOf(recorder.rows, gameId)
           == EntriesOf(old(recorder.rows), gameId) + PhaseEntries(report, caller, requestId)
      ensures forall other | other != gameId :: EntriesOf(recorder.rows, other) == EntriesOf(old(recorder.rows), other)
      ensures effects == PhaseEffects(report, caller)
    {
      hide EntriesOf, MaxSeq, GapFree;
      ghost var entries := EntriesOf(recorder.rows, gameId);
      var _ := recorder.RecordEvent(gameId, Entry(report.turn, report.toPhase, requestId,
        PhaseChanged(report.fromPhase, report.toPhase, report.turn, caller, report.phaseEndsAt)));
      if report.died.Some? {
        var _ := recorder.RecordEvent(gameId, Entry(report.turn, report.toPhase, requestId,
          if report.fromPhase.Night? then PlayerKilled(report.died.value) else PlayerExecuted(report.died.value)));
      }
      if report.winner.Some? {
        var _ := recorder.RecordEvent(gameId, Entry(report.turn, Finished, requestId, GameFinished(report.winner.value)));
      }
      assert EntriesOf(recorder.rows, gameId) == entries + PhaseEntries(report, caller, requestId);
      effects := [Broadcast(PhaseChangedMessage(report.fromPhase, report.toPhase, report.turn, caller, report.phaseEndsAt))];
      if report.fromPhase.Night? {
        effects := effects + [Broadcast(NightResolved(report.attacked, report.protected, report.died))];
      }
      if report.fromPhase.Voting? {
        effects := effects + [Broadcast(VotingResolved(report.died))];
      }
      if report.winner.Some? {
        effects := effects + [Broadcast(GameFinishedMessage(report.winner.value))];
      }
    }

    // The host's copy of the phase step.
    method HandleNextPhase(gameId: GameId, user: UserId, requestId: RequestId, now: Millis) returns (r: Response)
      modifies sessions, recorder
      ensures var out := ExecNextPhase(old(GameAt(gameId)), user, requestId, now, sessions.durations);
        GameAt(gameId) == out.game && r == out.result
      ensures forall other | other != gameId :: GameAt(other) == old(GameAt(other))
    {
      hide EntriesOf, MaxSeq, GapFree, PhaseEntries, PhaseEffects, ResolveNight, ResolveVoting, IsTally, SlotTarget, Deadline;
      var allowed := rooms.AssertCanAdvancePhase(gameId, user);
      if allowed.Err? { return Err(allowed.error); }
      var advanced := sessions.AdvancePhase(gameId, now);
      if advanced.Err? { return Err(advanced.error); }
      var fromPhase, t := advanced.value.fromPhase, advanced.value.session;
      assert sessions.sessions[gameId] == t && t.phase == NextPhase(fromPhase).value;
      var report := PhaseReport(fromPhase, t.phase, t.turn, t.phaseEndsAt, None, None, None, None);
      if fromPhase.Night? && t.phase.DayDiscussion? {
        var beforeResolution := sessions.sessions[gameId];
        ResolutionKeepsPhase(beforeResolution);
        report := report.(attacked := SlotTarget(beforeResolution, MafiaTarget),
                          protected := SlotTarget(beforeResolution, DoctorTarget));
        var outcome := sessions.ResolveNightOutcome(gameId);
        if outcome.Err? { return Err(outcome.error); }
        report := report.(died := outcome.value.died, winner := outcome.value.winner);
        if outcome.value.winner.Some? {
          var finished := sessions.FinishGame(gameId);
          assert finished.Ok?;
        }
      }
      if fromPhase.Voting? && t.phase.Result? {
        ResolutionKeepsPhase(sessions.sessions[gameId]);
        var outcome, _ := sessions.ResolveVotingOutcome(gameId);
        if outcome.Err? { return Err(outcome.error); }
        report := report.(died := outcome.value.died, winner := outcome.value.winner);
        if outcome.value.winner.Some? {
          var finished := sessions.FinishGame(gameId);
          assert finished.Ok?;
        }
      }
      var effects := RecordPhase(gameId, report, Some(user), requestId);
      r := Ok(effects);
    }

    // The timer's copy of the phase step: no caller, no room check.
    method AdvancePhaseAutomatically(gameId: GameId, requestId: RequestId, now: Millis) returns (r: Response)
      modifies sessions, recorder
      ensures var out := ExecPhase(old(GameAt(gameId)), requestId, None, now, sessions.durations);
        GameAt(gameId) == out.game && r == out.result
      ensures forall other | other != gameId :: GameAt(other) == old(GameAt(other))
    {
      hide EntriesOf, MaxSeq, GapFree, PhaseEntries, PhaseEffects, ResolveNight, ResolveVoting, IsTally, SlotTarget, Deadline;
      var advanced := sessions.AdvancePhase(gameId, now);
      if advanced.Err? { return Err(advanced.error); }
      var fromPhase, t := advanced.value.fromPhase, advanced.value.session;
      assert sessions.sessions[gameId] == t && t.phase == NextPhase(fromPhase).value;
      var report := PhaseReport(fromPhase, t.phase, t.turn, t.phaseEndsAt, None, None, None, None);
      if fromPhase.Night? && t.phase.DayDiscussion? {
        var beforeResolution := sessions.sessions[gameId];
        ResolutionKeepsPhase(beforeResolution);
        report := report.(attacked := SlotTarget(beforeResolution, MafiaTarget),
                          protected := SlotTarget(beforeResolution, DoctorTarget));
        var outcome := sessions.ResolveNightOutcome(gameId);
        if outcome.Err? { return Err(outcome.error); }
        report := report.(died := outcome.value.died, winner := outcome.value.winner);
        if outcome.value.winner.Some? {
          var finished := sessions.FinishGame(gameId);
          assert finished.Ok?;
        }
      }
      if fromPhase.Voting? && t.phase.Result? {
        ResolutionKeepsPhase(sessions.sessions[gameId]);
        var outcome, _ := sessions.ResolveVotingOutcome(gameId);
        if outcome.Err? { return Err(outcome.error); }
        report := report.(died := outcome.value.died, winner := outcome.value.winner);
        if outcome.value.winner.Some? {
          var finished := sessions.FinishGame(gameId);
          assert finished.Ok?;
        }
      }
      var effects := RecordPhase(gameId, report, None, requestId);
      r := Ok(effects);
    }

    method HandleCastVote(gameId: GameId, user: UserId, target: UserId, requestId: RequestId) returns (r: Response)
      modifies sessions, recorder
      ensures var out := ExecVote(old(GameAt(gameId)), user, target, requestId);
        GameAt(gameId) == out.game && r == out.result
      ensures forall other | other != gameId :: GameAt(other) == old(GameAt(other))
    {
      var cast := sessions.Cast(gameId, user, target, requestId);
      if cast.Err? { return Err(cast.error); }
      if !cast.value.duplicate {
        var s := cast.value.session;
        var _ := recorder.RecordEvent(gameId, Entry(s.turn, s.phase, requestId, VoteCasted(user, target)));
      }
      r := Ok([]);
    }

    method HandleNightTargetCommand(gameId: GameId, user: UserId, target: UserId, slot: Slot, requestId: RequestId)
      returns (r: Response)
      modifies sessions, recorder
      ensures var out := ExecNight(old(GameAt(gameId)), user, target, slot, requestId);
        GameAt(gameId) == out.game && r == out.result
      ensures forall other | other != gameId :: GameAt(other) == old(GameAt(other))
    {
      var selection := sessions.SelectTarget(gameId, user, target, slot);
      if selection.Err? { return Err(selection.error); }
      var s := selection.value;
      var _ := recorder.RecordEvent(gameId, Entry(s.turn, s.phase, requestId, NightTargetSelected(slot, user, target)));
      r := Ok(if slot.PoliceTarget? then [Private(user, InvestigationResult(target, Get(s.players, target).role))] else []);
    }

    method HandleSendChatMessage(gameId: GameId, m: ChatMessage, requestId: RequestId) returns (r: Response)
      modifies recorder
      ensures var out := ExecChat(old(GameAt(gameId)), m, requestId); GameAt(gameId) == out.game && r == out.result
      ensures forall other | other != gameId :: GameAt(other) == old(GameAt(other))
    {
      var turn, phase := 0, Waiting;
      var effects := [Broadcast(Chat(m))];
      if m.channel.LobbyChat? {
        if gameId !in rooms.rooms { return Err(RoomNotFound); }
        var room := rooms.rooms[gameId];
        if !room.status.WaitingRoom? { return Err(ChatNotAllowedInPhase); }
        if ParticipantIndex(room.participants, m.sender) < 0 { return Err(ParticipantNotFound); }
      } else {
        if gameId !in sessions.sessions { return Err(SessionNotFound); }
        var s := sessions.sessions[gameId];
        turn, phase := s.turn, s.phase;
        match m.channel {
          case DayChat =>
            if !s.phase.DayDiscussion? { return Err(ChatNotAllowedInPhase); }
            if !Has(s.players, m.sender) { return Err(ActorNotFound); }
            if !Get(s.players, m.sender).status.Alive? { return Err(ActorNotAlive); }
          case MafiaChat =>
            if !s.phase.Night? { return Err(ChatNotAllowedInPhase); }
            if !Has(s.players, m.sender) { return Err(ActorNotFound); }
            if !Get(s.players, m.sender).role.Mafia? { return Err(RoleNotAllowed); }
            if !Get(s.players, m.sender).status.Alive? { return Err(ActorNotAlive); }
            effects := PrivateTo(s.players, IsAliveMafia, Chat(m));
          case GhostChat =>
            if !Has(s.players, m.sender) { return Err(ActorNotFound); }
            if !Get(s.players, m.sender).status.Dead? { return Err(ActorNotDead); }
            effects := PrivateTo(s.players, IsDead, Chat(m));
        }
      }
      var _ := recorder.RecordEvent(gameId, Entry(turn, phase, requestId, ChatMessageSent(m)));
      r := Ok(effects);
    }

    // The dispatch. The command it reports back is the one it ran, with the roles it dealt.
    method HandleCommand(gameId: GameId, user: UserId, requestId: RequestId, now: Millis, command: Command)
      returns (r: Response, ran: Command)
      modifies rooms, sessions, recorder
      ensures if command.StartGame? then ran.StartGame? else ran == command
      ensures r.Ok? ==> Possible(old(GameAt(gameId)), Client(user, requestId, now, ran))
      ensures var out := Exec(old(GameAt(gameId)), Client(user, requestId, now, ran), sessions.durations);
        GameAt(gameId) == out.game && r == out.result
      ensures forall other | other != gameId :: GameAt(other) == old(GameAt(other))
    {
      hide ExecJoin, ExecLeave, ExecReady, ExecStart, ExecNextPhase, ExecVote, ExecNight, ExecChat, EntriesOf, IsDeal;
      ran := command;
      match command {
        case JoinRoom => r := HandleJoinRoom(gameId, user, requestId);
        case LeaveRoom => r := HandleLeaveRoom(gameId, user, requestId);
        case ChangeReadyState(isReady) => r := HandleChangeReady(gameId, user, isReady, requestId);
        case StartGame(_) =>
          var deal;
          r, deal := HandleStartGame(gameId, user, requestId, now);
          ran := StartGame(deal);
        case AdvancePhase => r := HandleNextPhase(gameId, user, requestId, now);
        case Vote(target) => r := HandleCastVote(gameId, user, target, requestId);
        case SelectTarget(slot, target) => r := HandleNightTargetCommand(gameId, user, target, slot, requestId);
        case SendChat(channel, text) => r := HandleSendChatMessage(gameId, ChatMessage(channel, text, user), requestId);
        case OtherCommand(_) => r := Ok([]);
      }
    }
  }
}
