// What holds after every run of accepted and rejected inputs of one game.
module GameRuns {
  import opened Common
  import opened Domain
  import opened Players
  import opened GameRules
  import opened RoomRules
  import opened GameSpec
  import opened Invariants
  import opened EventSourcing

  // The game a new room's inputs lead to.
  ghost function Played(host: UserId, maxPlayers: nat, inputs: seq<Input>, d: Durations): Game
    requires maxPlayers >= 2
  {
    Run(NewGame(host, maxPlayers), inputs, d)
  }

  ghost predicate CanPlay(host: UserId, maxPlayers: nat, inputs: seq<Input>, d: Durations)
    requires maxPlayers >= 2
  {
    PossibleRun(NewGame(host, maxPlayers), inputs, d)
  }

  lemma PlayedInv(host: UserId, maxPlayers: nat, inputs: seq<Input>, d: Durations)
    requires maxPlayers >= 2 && CanPlay(host, maxPlayers, inputs, d)
    ensures GameInv(Played(host, maxPlayers, inputs, d), d)
  {
    NewGameInv(host, maxPlayers, d);
    RunKeepsInv(NewGame(host, maxPlayers), inputs, d);
  }

  // The event log alone gives back the session, all but its save counter and connections.
  lemma LogRebuildsSession(host: UserId, maxPlayers: nat, inputs: seq<Input>, d: Durations)
    requires maxPlayers >= 2 && CanPlay(host, maxPlayers, inputs, d)
    ensures var g := Played(host, maxPlayers, inputs, d);
      Replay(g.log, d) == if g.session.None? then None else Some(Forget(g.session.value))
  {
    PlayedInv(host, maxPlayers, inputs, d);
  }

  // FINISHED exactly when somebody has won, which is when no living player is mafia or only
  // two are left; phase and turn count the phase changes.
  lemma PhaseTurnAndWinner(host: UserId, maxPlayers: nat, inputs: seq<Input>, d: Durations)
    requires maxPlayers >= 2 && CanPlay(host, maxPlayers, inputs, d)
    ensures var g := Played(host, maxPlayers, inputs, d);
      g.session.Some? ==>
      var s, k := g.session.value, Occurrences(g.log, IsPhaseChange);
      && (s.phase.Finished? <==> EvaluateWinner(s.players).Some?)
      && (s.phase.Finished? <==>
            (forall p <- s.players :: p.status.Alive? ==> !p.role.Mafia?) || Count(s.players, IsAlive) == 2)
      && (!s.phase.Finished? ==> s.phase == [Night, DayDiscussion, Voting, Phase.Result][k % 4])
      && s.turn == (k + 3) / 4
  {
    hide SessionInv, Replay;
    var g := Played(host, maxPlayers, inputs, d);
    PlayedInv(host, maxPlayers, inputs, d);
    if g.session.Some? { WinnerOf(g.session.value); }
  }

  lemma WinnerOf(s: Session)
    requires SessionInv(s)
    ensures s.phase.Finished? <==> EvaluateWinner(s.players).Some?
    ensures s.phase.Finished? <==>
      (forall p <- s.players :: p.status.Alive? ==> !p.role.Mafia?) || Count(s.players, IsAlive) == 2
  {
    WinnerMeans(s.players);
  }

  // Deaths plus living players make the roster; at most all but two die, and once all but
  // two are dead the game is over.
  lemma DeathBound(host: UserId, maxPlayers: nat, inputs: seq<Input>, d: Durations)
    requires maxPlayers >= 2 && CanPlay(host, maxPlayers, inputs, d)
    ensures var g := Played(host, maxPlayers, inputs, d);
      g.session.Some? ==>
      var s, deaths := g.session.value, Occurrences(g.log, IsDeath);
      && deaths + Count(s.players, IsAlive) == |s.players|
      && deaths <= |s.players| - 2
      && (deaths == |s.players| - 2 ==> s.phase.Finished?)
  {
    hide Replay, Occurrences;
    var g := Played(host, maxPlayers, inputs, d);
    PlayedInv(host, maxPlayers, inputs, d);
    if g.session.Some? && !g.session.value.phase.Finished? { SurvivorCounts(g.session.value); }
  }

  // A game in which every round, four phase changes, kills somebody is over after n - 2 rounds.
  lemma KillingGameEnds(host: UserId, maxPlayers: nat, inputs: seq<Input>, d: Durations)
    requires maxPlayers >= 2 && CanPlay(host, maxPlayers, inputs, d)
    ensures var g := Played(host, maxPlayers, inputs, d);
      g.session.Some?
      && Occurrences(g.log, IsDeath) >= Occurrences(g.log, IsPhaseChange) / 4
      && Occurrences(g.log, IsPhaseChange) >= 4 * (|g.session.value.players| - 2)
      ==> g.session.value.phase.Finished?
  {
    hide Occurrences, Run, PossibleRun, Exec;
    DeathBound(host, maxPlayers, inputs, d);
  }

  // In a played, unfinished game a phase step is never refused half-way: both copies of
  // the composite step succeed, whatever votes and night actions were chosen.
  lemma ResolutionNeverFails(host: UserId, maxPlayers: nat, inputs: seq<Input>, d: Durations,
                             requestId: RequestId, caller: Option<UserId>, now: Millis)
    requires maxPlayers >= 2 && CanPlay(host, maxPlayers, inputs, d)
    ensures var g := Played(host, maxPlayers, inputs, d);
      g.session.Some? && !g.session.value.phase.Finished? ==>
      var s := g.session.value;
      && ExecPhase(g, requestId, caller, now, d).result.Ok?
      && ExecPhase(g, requestId, caller, now, d).game.session == Some(Settled(s, now, d))
      && (Victim(s).Some? ==> Living(s.players, Victim(s).value))
  {
    hide Replay, Occurrences;
    var g := Played(host, maxPlayers, inputs, d);
    PlayedInv(host, maxPlayers, inputs, d);
    if g.session.Some? && !g.session.value.phase.Finished? {
      PhaseStepSettles(g.session.value, now, d);
      if Victim(g.session.value).Some? { VictimIsLiving(g.session.value); }
    }
  }

  // ---- Nothing but chat, leaving and connections happens to a finished game ----

  lemma FinishedStep(g: Game, input: Input, d: Durations)
    requires GameInv(g, d) && g.session.Some? && g.session.value.phase.Finished?
    ensures var h := Exec(g, input, d).game;
      h.session.Some? && h.session.value.phase.Finished? && Forget(h.session.value) == Forget(g.session.value)
  {
    hide SessionInv, Replay, Occurrences;
    if !input.Client? && !input.Timer? {
      var c := if input.SocketBack? then Connected else Disconnected;
      var changed := SetConnection(g.session.value, input.user, c);
      if changed.Ok? {
        assert Reachable(changed.value.players) == Reachable(g.session.value.players);
      }
    }
  }

  lemma {:induction false} FinishedIsFinal(g: Game, inputs: seq<Input>, d: Durations)
    requires GameInv(g, d) && g.session.Some? && g.session.value.phase.Finished?
    requires PossibleRun(g, inputs, d)
    ensures var h := Run(g, inputs, d);
      h.session.Some? && h.session.value.phase.Finished? && Forget(h.session.value) == Forget(g.session.value)
  {
    if inputs != [] {
      PossiblePrefix(g, inputs, d);
      FinishedIsFinal(g, ButLast(inputs), d);
      RunKeepsInv(g, ButLast(inputs), d);
      FinishedStep(Run(g, ButLast(inputs), d), Last(inputs), d);
    }
  }

  // What a finished game still accepts: connection changes of its players, a seated user
  // leaving the room, the chat of its dead, and command types the server does not know.
  predicate AcceptedWhenFinished(g: Game, input: Input)
    requires g.room.Some? && g.session.Some?
  {
    var ps := g.session.value.players;
    match input
    case Timer(_, _) => false
    case SocketLost(user) => Has(ps, user)
    case SocketOvertaken(user) => Has(ps, user)
    case SocketBack(user) => Has(ps, user)
    case Client(user, _, _, command) =>
      match command
      case LeaveRoom => Seated(g.room.value, user)
      case SendChat(channel, _) => channel.GhostChat? && Has(ps, user) && Get(ps, user).status.Dead?
      case OtherCommand(_) => true
      case _ => false
  }

  lemma FinishedAcceptsIff(g: Game, input: Input, d: Durations)
    requires GameInv(g, d) && g.session.Some? && g.session.value.phase.Finished?
    ensures Exec(g, input, d).result.Ok? <==> AcceptedWhenFinished(g, input)
  {
    hide SessionInv, Replay, Occurrences, Distinct, Count, IndexOf, ParticipantIndex;
  }

  // Of the players who may act at night, exactly the doctor may choose themselves.
  lemma SelfChoiceIff(s: Session, actor: UserId, slot: Slot)
    requires s.phase.Night? && Living(s.players, actor)
    requires Get(s.players, actor).role == RoleOf(slot) && slot !in s.nightActions
    ensures SelectNightAction(s, actor, actor, slot).Ok? <==> slot.DoctorTarget?
    ensures slot.DoctorTarget? ==> SelectNightAction(s, actor, actor, slot).value.nightActions[slot] == actor
  {
    hide IndexOf;
  }

  // ---- One step kills at most one player, and nobody comes back ----

  lemma SessionStep(g: Game, input: Input, d: Durations)
    requires GameInv(g, d) && g.session.Some?
    ensures var h := Exec(g, input, d).game;
      h.session.Some? && (
        || h.session == g.session
        || (!g.session.value.phase.Finished? && (input.Timer? || input.Client?)
            && exists now :: h.session == Some(Settled(g.session.value, now, d)))
        || SamePlayersButConnection(g.session.value.players, h.session.value.players))
  {
    hide SessionInv, Replay, Occurrences, Settled, PhaseStep, IndexOf, RoomInv, Count;
    match input
    case Timer(_, now) => PhaseStepSettles(g.session.value, now, d);
    case Client(_, _, now, command) =>
      if command.AdvancePhase? { PhaseStepSettles(g.session.value, now, d); }
    case SocketLost(_) =>
    case SocketOvertaken(_) =>
    case SocketBack(_) =>
  }

  ghost predicate SamePlayersButConnection(ps: seq<Player>, qs: seq<Player>) {
    SameRoles(ps, qs) && forall i | 0 <= i < |ps| :: ps[i].status == qs[i].status
  }

  ghost predicate LosesOnly(ps: seq<Player>, qs: seq<Player>, died: Option<UserId>) {
    forall id :: Living(qs, id) <==> Living(ps, id) && died != Some(id)
  }

  lemma ConnectionLosesNobody(ps: seq<Player>, qs: seq<Player>)
    requires SamePlayersButConnection(ps, qs)
    ensures LosesOnly(ps, qs, None)
  {
    forall id ensures Living(qs, id) <==> Living(ps, id) {
      SameLiving(ps, qs, id);
    }
  }

  lemma StepLosesVictim(s: Session)
    requires SessionInv(s) && !s.phase.Finished?
    ensures SameRoles(s.players, Survivors(s)) && LosesOnly(s.players, Survivors(s), Victim(s))
  {
    hide PluralityWinner, Count;
    if Victim(s).Some? {
      VictimIsLiving(s);
      DeathOfOne(s.players, Victim(s).value);
    }
  }

  lemma AtMostOneDies(g: Game, input: Input, d: Durations)
    requires GameInv(g, d) && g.session.Some?
    ensures var h := Exec(g, input, d).game;
      && h.session.Some?
      && SameRoles(g.session.value.players, h.session.value.players)
      && exists died :: LosesOnly(g.session.value.players, h.session.value.players, died)
  {
    hide Exec, Replay, Occurrences, SessionInv, LosesOnly, Survivors, Victim, RoomInv, Count;
    var s, h := g.session.value, Exec(g, input, d).game;
    SessionStep(g, input, d);
    if h.session == g.session || SamePlayersButConnection(s.players, h.session.value.players) {
      ConnectionLosesNobody(s.players, h.session.value.players);
    } else {
      StepLosesVictim(s);
    }
  }

  // ---- Accepted votes that are not recorded ----

  // A vote is accepted without being recorded exactly when its request id was already used
  // in this game, by anybody: then nothing changes, even for a player who never voted.
  lemma AcceptedVoteIsRecordedIff(s: Session, actor: UserId, target: UserId, requestId: RequestId)
    requires CastVote(s, actor, target, requestId).Ok?
    ensures var t := CastVote(s, actor, target, requestId).value.session;
      && (requestId !in s.processedRequests <==> t == s.(votes := s.votes[actor := target],
            processedRequests := s.processedRequests[requestId := target], version := s.version + 1))
      && (requestId in s.processedRequests <==> t == s)
  {
    assert s.version != s.version + 1;
  }

  // Such a vote: the voter and the target play, and somebody's vote carried the same id.
  lemma ReusedRequestIdSwallowsVote(g: Game, voter: UserId, target: UserId, requestId: RequestId, now: Millis, d: Durations)
    requires g.session.Some? && g.session.value.phase.Voting? && requestId in g.session.value.processedRequests
    ensures Exec(g, Client(voter, requestId, now, Vote(target)), d) == Outcome(g, Ok([]))
      <==> Has(g.session.value.players, voter) && Has(g.session.value.players, target)
  {
    hide IndexOf;
  }
}
