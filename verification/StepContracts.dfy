// What each input does to a game, said outright: when it is accepted and with which error it
// is refused otherwise, what it stores and records, and what it sends to whom.
module StepContracts {
  import opened Common
  import opened Domain
  import opened Players
  import opened GameRules
  import opened RoomRules
  import opened GameSpec
  import opened Invariants
  import opened EventSourcing
  import opened GameRuns
  import opened ChatCache

  // ---- Refusals ----

  // One check of a handler: when it fails, its error is the answer.
  datatype Check = Check(fails: bool, error: Error)

  function FirstFailing(checks: seq<Check>): (e: Option<Error>)
    ensures e.None? <==> forall c <- checks :: !c.fails
  {
    if checks == [] then None
    else if checks[0].fails then Some(checks[0].error)
    else FirstFailing(checks[1..])
  }

  function Refusal(out: Outcome): Option<Error> {
    if out.result.Err? then Some(out.result.error) else None
  }

  // The checks in their order decide: the first that fails is the error, and the input is
  // accepted when none fails; a refused input changes nothing.
  ghost predicate DecidedBy(g: Game, out: Outcome, checks: seq<Check>) {
    && Refusal(out) == FirstFailing(checks)
    && (out.result.Err? ==> out.game == g)
  }

  lemma ChecksMore(a: Check, rest: seq<Check>)
    ensures FirstFailing([a] + rest) == if a.fails then Some(a.error) else FirstFailing(rest)
  {
    assert ([a] + rest)[1..] == rest;
  }

  // ---- Rooms ----

  // Only the participants change.
  predicate SameRoomBut(a: Room, b: Room) {
    b.hostUserId == a.hostUserId && b.status == a.status && b.maxPlayers == a.maxPlayers
  }

  predicate IsSeated(room: Room, user: UserId) {
    exists p <- room.participants :: p.userId == user
  }

  lemma SeatedIsIsSeated(room: Room, user: UserId)
    ensures IsSeated(room, user) <==> ParticipantIndex(room.participants, user) >= 0
  {
  }

  // A joined room tells the joining socket and the room; a seated user keeps seat and flag.
  lemma JoinContract(g: Game, user: UserId, r: RequestId, now: Millis, d: Durations)
    requires g.room.Some?
    ensures var out, room := Exec(g, Client(user, r, now, JoinRoom), d), g.room.value;
      && DecidedBy(g, out, [
           Check(room.status.InProgress?, RoomNotJoinable),
           Check(!IsSeated(room, user) && |room.participants| >= room.maxPlayers, RoomIsFull)])
      && (out.result.Ok? ==>
            && out.game.room.Some? && SameRoomBut(room, out.game.room.value)
            && out.game.room.value.participants
                 == (if IsSeated(room, user) then room.participants else room.participants + [Participant(user, false)])
            && out.game.session == g.session
            && out.game.log == g.log + [Entry(0, Waiting, r, PlayerJoined(user))]
            && out.result.value == [JoinSocketRoom, Broadcast(RoomUpdated(out.game.room.value))])
  {
    SeatedIsIsSeated(g.room.value, user);
    var room := g.room.value;
    ChecksMore(Check(room.status.InProgress?, RoomNotJoinable),
      [Check(!IsSeated(room, user) && |room.participants| >= room.maxPlayers, RoomIsFull)]);
    assert [Check(room.status.InProgress?, RoomNotJoinable)]
      + [Check(!IsSeated(room, user) && |room.participants| >= room.maxPlayers, RoomIsFull)]
      == [Check(room.status.InProgress?, RoomNotJoinable),
          Check(!IsSeated(room, user) && |room.participants| >= room.maxPlayers, RoomIsFull)];
  }

  function Others(ps: seq<Participant>, user: UserId): seq<Participant> {
    if ps == [] then [] else (if ps[0].userId == user then [] else [ps[0]]) + Others(ps[1..], user)
  }

  lemma {:induction false} OthersOfNobody(ps: seq<Participant>, user: UserId)
    requires forall p <- ps :: p.userId != user
    ensures Others(ps, user) == ps
  {
    if ps != [] {
      assert ps == [ps[0]] + ps[1..];
      OthersOfNobody(ps[1..], user);
    }
  }

  lemma {:induction false} OthersAround(ps: seq<Participant>, i: nat)
    requires i < |ps| && Distinct(ParticipantIds(ps))
    ensures Others(ps, ps[i].userId) == ps[..i] + ps[i + 1..]
  {
    var ids := ParticipantIds(ps);
    if i == 0 {
      forall p | p in ps[1..] ensures p.userId != ps[0].userId {
        var k :| 0 <= k < |ps[1..]| && ps[1..][k] == p;
        assert ids[0] != ids[k + 1];
      }
      OthersOfNobody(ps[1..], ps[0].userId);
      assert ps[..0] + ps[1..] == ps[1..];
    } else {
      assert ids[0] != ids[i];
      assert ParticipantIds(ps[1..]) == ids[1..];
      forall j, k | 0 <= j < k < |ids[1..]| ensures ids[1..][j] != ids[1..][k] { assert ids[j + 1] != ids[k + 1]; }
      OthersAround(ps[1..], i - 1);
      assert [ps[0]] + (ps[1..][..i - 1] + ps[1..][i..]) == ps[..i] + ps[i + 1..];
    }
  }

  // Leaving is refused to exactly the unseated; the others keep order and flags.
  lemma LeaveContract(g: Game, user: UserId, r: RequestId, now: Millis, d: Durations)
    requires g.room.Some? && RoomInv(g.room.value)
    ensures var out, room := Exec(g, Client(user, r, now, LeaveRoom), d), g.room.value;
      && Refusal(out) == (if IsSeated(room, user) then None else Some(ParticipantNotFound))
      && (out.result.Err? ==> out.game == g)
      && (out.result.Ok? ==>
            && out.game.room.Some? && SameRoomBut(room, out.game.room.value)
            && out.game.room.value.participants == Others(room.participants, user)
            && out.game.session == g.session
            && out.game.log == g.log + [Entry(0, Waiting, r, PlayerLeft(user))]
            && out.result.value == [LeaveSocketRoom, Broadcast(RoomUpdated(out.game.room.value))])
  {
    hide Distinct, ParticipantIds, Others, ParticipantIndex;
    SeatedIsIsSeated(g.room.value, user);
    var i := ParticipantIndex(g.room.value.participants, user);
    if i >= 0 { OthersAround(g.room.value.participants, i); }
  }

  lemma ReadyContract(g: Game, user: UserId, isReady: bool, r: RequestId, now: Millis, d: Durations)
    requires g.room.Some? && RoomInv(g.room.value)
    ensures var out, room := Exec(g, Client(user, r, now, ChangeReadyState(isReady)), d), g.room.value;
      && Refusal(out) == (if room.status.InProgress? then Some(RoomNotJoinable)
                          else if !IsSeated(room, user) then Some(ParticipantNotFound) else None)
      && (out.result.Err? ==> out.game == g)
      && (out.result.Ok? ==>
            && out.game.room.Some? && SameRoomBut(room, out.game.room.value)
            && |out.game.room.value.participants| == |room.participants|
            && (forall k | 0 <= k < |room.participants| :: out.game.room.value.participants[k]
                  == if room.participants[k].userId == user then Participant(user, isReady) else room.participants[k])
            && out.game.session == g.session
            && out.game.log == g.log + [Entry(0, Waiting, r, PlayerReadyChanged(user, isReady))]
            && out.result.value == [Broadcast(RoomUpdated(out.game.room.value))])
  {
    SeatedIsIsSeated(g.room.value, user);
    if Exec(g, Client(user, r, now, ChangeReadyState(isReady)), d).result.Ok? {
      forall k: nat | k < |g.room.value.participants| { ReadyChangesOneUser(g.room.value, user, isReady, k); }
      assert [] + [Broadcast(RoomUpdated(ChangeReady(g.room.value, user, isReady).value))]
          == [Broadcast(RoomUpdated(ChangeReady(g.room.value, user, isReady).value))];
    }
  }

  // A room is started by exactly its host, with at least four seated and everybody ready,
  // whether or not seats are free.
  lemma StartContract(g: Game, user: UserId, deal: seq<Assignment>, r: RequestId, now: Millis, d: Durations)
    requires g.room.Some?
    ensures var out, room := Exec(g, Client(user, r, now, StartGame(deal)), d), g.room.value;
      && Refusal(out) == (if room.status.InProgress? then Some(RoomNotStartable)
                          else if user != room.hostUserId then Some(NotHost)
                          else if |room.participants| < 4 then Some(RoomNeedsPlayers)
                          else if !(forall p <- room.participants :: p.isReady) then Some(NotAllReady)
                          else None)
      && (out.result.Err? ==> out.game == g)
      && (out.result.Ok? ==>
            && out.game.room == Some(room.(status := InProgress))
            && out.game.session.Some?
            && (var s := out.game.session.value;
                && s == Session(user, Night, 0, 1, s.players, map[], map[], Some(now + d.night), map[])
                && |s.players| == |deal|
                && (forall i | 0 <= i < |deal| :: s.players[i] == Player(deal[i].userId, deal[i].role, Alive, Connected)))
            && |out.game.log| == |g.log| + 1 + |deal|
            && out.game.log[..|g.log|] == g.log
            && out.game.log[|g.log|] == Entry(0, Waiting, r, GameStarted(user, now))
            && (forall i | 0 <= i < |deal| :: out.game.log[|g.log| + 1 + i] == Entry(0, Waiting, r, RoleAssigned(deal[i])))
            && |out.result.value| == |deal| + 2
            && out.result.value[0] == Broadcast(GameStartedMessage(user, Some(now + d.night)))
            && (forall i | 0 <= i < |deal| ::
                  out.result.value[i + 1] == Private(deal[i].userId, RoleAssignedMessage(deal[i])))
            && out.result.value[|deal| + 1] == Broadcast(RoomUpdated(room.(status := InProgress))))
  {
    hide IsDeal, ParticipantIndex;
  }

  // ---- Phases ----

  // The phase a step leads to, and how long it lasts.
  function PhaseAfter(phase: Phase): Phase
    requires !phase.Finished?
  {
    match phase
    case Waiting => Night
    case Night => DayDiscussion
    case DayDiscussion => Voting
    case Voting => Phase.Result
    case Result => Night
  }

  function LengthOf(phase: Phase, d: Durations): int {
    if phase.Night? then d.night else if phase.DayDiscussion? then d.day
    else if phase.Voting? then d.voting else if phase.Result? then d.result else 0
  }

  function Choice(s: Session, slot: Slot): Option<UserId> {
    if slot in s.nightActions then Some(s.nightActions[slot]) else None
  }

  // Whoever a phase step kills: at night the attacked, unless protected; after a voting the
  // one who strictly leads.
  ghost predicate Dies(s: Session, id: UserId) {
    || (s.phase.Night? && Choice(s, MafiaTarget) == Some(id) && Choice(s, DoctorTarget) != Some(id))
    || (s.phase.Voting? && Leads(s.votes, id))
  }

  ghost function Death(s: Session): Option<UserId> {
    if exists id :: Dies(s, id) then var id :| Dies(s, id); Some(id) else None
  }

  lemma VictimDies(s: Session)
    ensures forall id :: Victim(s) == Some(id) <==> Dies(s, id)
    ensures Victim(s) == Death(s)
  {
    if s.phase.Voting? {
      forall id ensures PluralityWinner(s.votes) == Some(id) <==> Leads(s.votes, id) {
        if Leads(s.votes, id) && PluralityWinner(s.votes).Some? {
          var w := PluralityWinner(s.votes).value;
          assert w != id ==> VotesFor(s.votes, w) < VotesFor(s.votes, id) < VotesFor(s.votes, w);
        }
      }
    }
    if Victim(s).Some? { assert Dies(s, Victim(s).value); }
  }

  // What an accepted phase step records, in order: the change, the death, the end.
  ghost predicate PhaseRecord(s: Session, t: Session, added: seq<Entry>, caller: Option<UserId>, r: RequestId, endsAt: Millis)
    requires !s.phase.Finished?
  {
    var next := PhaseAfter(s.phase);
    added == [Entry(t.turn, next, r, PhaseChanged(s.phase, next, t.turn, caller, Some(endsAt)))]
      + (match Death(s)
         case None => []
         case Some(id) => [Entry(t.turn, next, r, if s.phase.Voting? then PlayerExecuted(id) else PlayerKilled(id))])
      + (match EvaluateWinner(t.players) case None => [] case Some(w) => [Entry(t.turn, Finished, r, GameFinished(w))])
  }

  // And what it tells the room, in order: the change, the outcome, the winner.
  ghost predicate PhaseNews(s: Session, t: Session, told: seq<Effect>, caller: Option<UserId>, endsAt: Millis)
    requires !s.phase.Finished?
  {
    told == [Broadcast(PhaseChangedMessage(s.phase, PhaseAfter(s.phase), t.turn, caller, Some(endsAt)))]
      + (match s.phase
         case Night => [Broadcast(NightResolved(Choice(s, MafiaTarget), Choice(s, DoctorTarget), Death(s)))]
         case Voting => [Broadcast(VotingResolved(Death(s)))]
         case _ => [])
      + (match EvaluateWinner(t.players) case None => [] case Some(w) => [Broadcast(GameFinishedMessage(w))])
  }

  ghost predicate PhaseState(s: Session, t: Session, endsAt: Millis)
    requires !s.phase.Finished?
  {
    var over := EvaluateWinner(t.players).Some?;
    && t.phase == (if over then Finished else PhaseAfter(s.phase))
    && t.turn == (if s.phase.Night? then s.turn + 1 else s.turn)
    && t.phaseEndsAt == (if over then None else Some(endsAt))
    && t.votes == map[] && t.nightActions == map[]
    && t.hostUserId == s.hostUserId && t.processedRequests == s.processedRequests
    && |t.players| == |s.players|
    && (forall i | 0 <= i < |s.players| ::
          t.players[i] == if Dies(s, s.players[i].userId) then s.players[i].(status := Dead) else s.players[i])
  }

  // A phase step, whoever asked for it.
  ghost predicate SteppedPhase(g: Game, out: Outcome, caller: Option<UserId>, r: RequestId, now: Millis, d: Durations)
    requires g.session.Some? && !g.session.value.phase.Finished?
  {
    var s := g.session.value;
    var endsAt := now + LengthOf(PhaseAfter(s.phase), d);
    && out.result.Ok? && out.game.room == g.room && out.game.session.Some?
    && PhaseState(s, out.game.session.value, endsAt)
    && |g.log| <= |out.game.log| && out.game.log[..|g.log|] == g.log
    && PhaseRecord(s, out.game.session.value, out.game.log[|g.log|..], caller, r, endsAt)
    && PhaseNews(s, out.game.session.value, out.result.value, caller, endsAt)
  }

  lemma StateOfStep(s: Session, now: Millis, d: Durations)
    requires !s.phase.Finished?
    ensures PhaseState(s, Settled(s, now, d), now + LengthOf(PhaseAfter(s.phase), d))
    ensures EvaluateWinner(Survivors(s)) == EvaluateWinner(Settled(s, now, d).players)
  {
    hide PluralityWinner, NightVictim, EvaluateWinner, Leads;
    VictimDies(s);
  }

  lemma RecordOfStep(s: Session, caller: Option<UserId>, r: RequestId, now: Millis, d: Durations)
    requires !s.phase.Finished?
    ensures PhaseRecord(s, Settled(s, now, d), PhaseEntries(SettledReport(s, now, d), caller, r), caller, r,
                        now + LengthOf(PhaseAfter(s.phase), d))
  {
    hide PluralityWinner, NightVictim, EvaluateWinner, Dies, Death, MarkDead;
    VictimDies(s);
  }

  lemma NewsOfStep(s: Session, caller: Option<UserId>, now: Millis, d: Durations)
    requires !s.phase.Finished?
    ensures PhaseNews(s, Settled(s, now, d), PhaseEffects(SettledReport(s, now, d), caller), caller,
                      now + LengthOf(PhaseAfter(s.phase), d))
  {
    hide PluralityWinner, NightVictim, EvaluateWinner, Dies, Death, MarkDead, Victim;
    VictimDies(s);
  }

  // The room is told exactly the winner of the settled session, and the log the same.
  lemma WinnerIsAnnounced(s: Session, t: Session, added: seq<Entry>, told: seq<Effect>, caller: Option<UserId>,
                          r: RequestId, endsAt: Millis, w: Team)
    requires !s.phase.Finished? && PhaseRecord(s, t, added, caller, r, endsAt) && PhaseNews(s, t, told, caller, endsAt)
    ensures Broadcast(GameFinishedMessage(w)) in told <==> EvaluateWinner(t.players) == Some(w)
    ensures Announces(added, w) <==> EvaluateWinner(t.players) == Some(w)
  {
    hide EvaluateWinner, Death;
    if EvaluateWinner(t.players) == Some(w) {
      assert Last(told) == Broadcast(GameFinishedMessage(w)) && Last(told) in told;
      assert Last(added) == Entry(t.turn, Finished, r, GameFinished(w)) && Last(added) in added;
    }
  }

  lemma PhaseContract(g: Game, r: RequestId, caller: Option<UserId>, now: Millis, d: Durations)
    requires GameInv(g, d) && g.session.Some?
    ensures !g.session.value.phase.Finished? ==> SteppedPhase(g, ExecPhase(g, r, caller, now, d), caller, r, now, d)
    ensures g.session.value.phase.Finished? ==> ExecPhase(g, r, caller, now, d) == Outcome(g, Err(GameIsFinished))
  {
    hide SessionInv, Replay, Occurrences, PhaseStep, Settled, SettledReport, PhaseEntries, PhaseEffects,
         PhaseState, PhaseRecord, PhaseNews, LengthOf;
    var s := g.session.value;
    PhaseStepSettles(s, now, d);
    if !s.phase.Finished? {
      StateOfStep(s, now, d);
      RecordOfStep(s, caller, r, now, d);
      NewsOfStep(s, caller, now, d);
      var added := PhaseEntries(SettledReport(s, now, d), caller, r);
      assert (g.log + added)[|g.log|..] == added && (g.log + added)[..|g.log|] == g.log;
    }
  }

  // The timer's step needs a session that is not over; nobody is named in it.
  lemma TimerContract(g: Game, r: RequestId, now: Millis, d: Durations)
    requires GameInv(g, d)
    ensures var out := Exec(g, Timer(r, now), d);
      && Refusal(out) == (if g.session.None? then Some(SessionNotFound)
                          else if g.session.value.phase.Finished? then Some(GameIsFinished) else None)
      && (out.result.Err? ==> out.game == g)
      && (out.result.Ok? ==> SteppedPhase(g, out, None, r, now, d))
  {
    hide GameInv, ExecPhase, SteppedPhase;
    if g.session.Some? {
      PhaseContract(g, r, None, now, d);
      StepIsAccepted(g, ExecPhase(g, r, None, now, d), None, r, now, d);
    } else {
      NoSession(g, r, None, now, d);
    }
  }

  lemma StepIsAccepted(g: Game, out: Outcome, caller: Option<UserId>, r: RequestId, now: Millis, d: Durations)
    requires g.session.Some?
    ensures !g.session.value.phase.Finished? && SteppedPhase(g, out, caller, r, now, d) ==> out.result.Ok?
  {
  }

  lemma NoSession(g: Game, r: RequestId, caller: Option<UserId>, now: Millis, d: Durations)
    requires g.session.None?
    ensures ExecPhase(g, r, caller, now, d) == Outcome(g, Err(SessionNotFound))
  {
  }

  // The next phase is the host's alone to ask for, in a running game that is not over.
  lemma AdvanceContract(g: Game, user: UserId, r: RequestId, now: Millis, d: Durations)
    requires GameInv(g, d)
    ensures var out := Exec(g, Client(user, r, now, AdvancePhase), d);
      && (out.result.Ok? <==>
            g.session.Some? && !g.session.value.phase.Finished? && user == g.room.value.hostUserId)
      && Refusal(out) == (if user != g.room.value.hostUserId then Some(NotHost)
                          else if g.session.None? then Some(RoomNotInProgress)
                          else if g.session.value.phase.Finished? then Some(GameIsFinished) else None)
      && (out.result.Err? ==> out.game == g)
      && (out.result.Ok? ==> SteppedPhase(g, out, Some(user), r, now, d))
  {
    hide SessionInv, Replay, Occurrences, ExecPhase, SteppedPhase;
    if g.session.Some? {
      PhaseContract(g, r, Some(user), now, d);
      StepIsAccepted(g, ExecPhase(g, r, Some(user), now, d), Some(user), r, now, d);
    }
  }

  // An accepted step announces a team exactly when it has won, and only a phase step does.
  lemma WinnerIsTold(g: Game, input: Input, d: Durations, w: Team)
    requires GameInv(g, d)
    ensures var out := Exec(g, input, d);
      out.result.Ok? ==>
        (Broadcast(GameFinishedMessage(w)) in out.result.value <==>
          && (input.Timer? || (input.Client? && input.command.AdvancePhase?))
          && out.game.session.Some? && EvaluateWinner(out.game.session.value.players) == Some(w))
  {
    hide GameInv, PhaseState, PhaseRecord, PhaseNews, ExecPhase, EvaluateWinner, Dies, LengthOf, CastVote, SelectNightAction,
         SetConnection, ParticipantIndex, ChatRefusal, IndexOf, Get;
    var out := Exec(g, input, d);
    if input.Timer? {
      TimerContract(g, input.requestId, input.now, d);
      if out.result.Ok? { StepTellsWinner(g, out, None, input.requestId, input.now, d, w); }
    } else if input.Client? && input.command.AdvancePhase? {
      AdvanceContract(g, input.user, input.requestId, input.now, d);
      if out.result.Ok? { StepTellsWinner(g, out, Some(input.user), input.requestId, input.now, d, w); }
    } else if g.session.Some? && input.Client? && input.command.SendChat? {
      var m := ChatMessage(input.command.channel, input.command.text, input.user);
      PrivateToIff(g.session.value.players, IsAliveMafia, Chat(m), input.user);
      PrivateToIff(g.session.value.players, IsDead, Chat(m), input.user);
    }
  }

  lemma StepTellsWinner(g: Game, out: Outcome, caller: Option<UserId>, r: RequestId, now: Millis, d: Durations, w: Team)
    requires g.session.Some? && !g.session.value.phase.Finished? && SteppedPhase(g, out, caller, r, now, d)
    ensures Broadcast(GameFinishedMessage(w)) in out.result.value <==> EvaluateWinner(out.game.session.value.players) == Some(w)
  {
    hide PhaseState, PhaseRecord, PhaseNews, EvaluateWinner, LengthOf;
    WinnerIsAnnounced(g.session.value, out.game.session.value, out.game.log[|g.log|..], out.result.value, caller, r,
      now + LengthOf(PhaseAfter(g.session.value.phase), d), w);
  }

  // ---- Votes, night actions and chat ----

  predicate IsPlayer(s: Session, user: UserId) {
    exists p <- s.players :: p.userId == user
  }

  predicate LivesIn(s: Session, user: UserId) {
    exists p <- s.players :: p.userId == user && p.status.Alive?
  }

  predicate HasRole(s: Session, user: UserId, role: Role) {
    exists p <- s.players :: p.userId == user && p.role == role
  }

  lemma PlayerFacts(s: Session, user: UserId)
    requires Distinct(Ids(s.players))
    ensures IsPlayer(s, user) <==> Has(s.players, user)
    ensures LivesIn(s, user) <==> Living(s.players, user)
    ensures forall role :: HasRole(s, user, role) <==> Has(s.players, user) && Get(s.players, user).role == role
  {
    var ps := s.players;
    forall k | 0 <= k < |ps| && ps[k].userId == user ensures IndexOf(ps, user) == k {
      assert Ids(ps)[k] == Ids(ps)[IndexOf(ps, user)];
    }
    if Has(ps, user) { assert ps[IndexOf(ps, user)] in ps; }
  }

  lemma RosterIsDistinct(g: Game, d: Durations)
    requires GameInv(g, d) && g.session.Some?
    ensures Distinct(Ids(g.session.value.players))
  {
  }

  // A vote: connected or not, every living player may vote once for a living player, and a
  // used request id makes any vote among players an accepted no-op.
  lemma VoteContract(g: Game, user: UserId, target: UserId, r: RequestId, now: Millis, d: Durations)
    requires GameInv(g, d) && g.session.Some?
    ensures var out, s := Exec(g, Client(user, r, now, Vote(target)), d), g.session.value;
      var used := r in s.processedRequests;
      && Refusal(out) == (if !s.phase.Voting? then Some(NotVotingPhase)
                          else if !IsPlayer(s, user) then Some(ActorNotFound)
                          else if !used && !LivesIn(s, user) then Some(ActorNotAlive)
                          else if !IsPlayer(s, target) then Some(TargetNotFound)
                          else if !used && !LivesIn(s, target) then Some(TargetNotAlive)
                          else if !used && user in s.votes then Some(VoteAlreadyCast)
                          else None)
      && (out.result.Err? || used ==> out.game == g)
      && (out.result.Ok? ==> out.result.value == [])
      && (out.result.Ok? && !used ==>
            out.game == Game(g.room,
              Some(s.(votes := s.votes[user := target], processedRequests := s.processedRequests[r := target], version := s.version + 1)),
              g.log + [Entry(s.turn, Voting, r, VoteCasted(user, target))]))
  {
    hide GameInv, Distinct, IndexOf;
    RosterIsDistinct(g, d);
    PlayerFacts(g.session.value, user);
    PlayerFacts(g.session.value, target);
  }

  // A night action: the living holder of the slot's role, once a night, on a living player,
  // on themselves only as the doctor; only the police hears of it, and what it hears is true.
  lemma NightContract(g: Game, user: UserId, target: UserId, slot: Slot, r: RequestId, now: Millis, d: Durations)
    requires GameInv(g, d) && g.session.Some?
    ensures var out, s := Exec(g, Client(user, r, now, SelectTarget(slot, target)), d), g.session.value;
      var role := match slot case MafiaTarget => Mafia case DoctorTarget => Doctor case PoliceTarget => Police;
      && Refusal(out) == (if !s.phase.Night? then Some(NotNightPhase)
                          else if !IsPlayer(s, user) then Some(ActorNotFound)
                          else if !LivesIn(s, user) then Some(ActorNotAlive)
                          else if !HasRole(s, user, role) then Some(RoleNotAllowed)
                          else if !IsPlayer(s, target) then Some(TargetNotFound)
                          else if !LivesIn(s, target) then Some(TargetNotAlive)
                          else if slot in s.nightActions then Some(NightActionAlreadySelected)
                          else if target == user && slot != DoctorTarget then Some(TargetIsSelf)
                          else None)
      && (out.result.Err? ==> out.game == g)
      && (out.result.Ok? ==>
            && out.game == Game(g.room,
                 Some(s.(nightActions := s.nightActions[slot := target], version := s.version + 1)),
                 g.log + [Entry(s.turn, Night, r, NightTargetSelected(slot, user, target))])
            && (slot != PoliceTarget ==> out.result.value == [])
            && (slot == PoliceTarget ==>
                  forall found :: HasRole(s, target, found) <==> out.result.value == [Private(user, InvestigationResult(target, found))]))
  {
    hide GameInv, Distinct, IndexOf;
    RosterIsDistinct(g, d);
    PlayerFacts(g.session.value, user);
    PlayerFacts(g.session.value, target);
  }

  // Who may speak where: in the lobby of a waiting room the seated, by day the living, at night
  // the living mafia, and among the ghosts, in any phase, the dead.
  predicate MaySpeak(g: Game, channel: Channel, user: UserId) {
    match channel
    case LobbyChat => g.room.Some? && g.room.value.status.WaitingRoom? && IsSeated(g.room.value, user)
    case DayChat => g.session.Some? && g.session.value.phase.DayDiscussion? && LivesIn(g.session.value, user)
    case MafiaChat =>
      g.session.Some? && g.session.value.phase.Night? && LivesIn(g.session.value, user) && HasRole(g.session.value, user, Mafia)
    case GhostChat => g.session.Some? && IsPlayer(g.session.value, user) && !LivesIn(g.session.value, user)
  }

  lemma ChatContract(g: Game, user: UserId, channel: Channel, text: Text, r: RequestId, now: Millis, d: Durations)
    requires GameInv(g, d)
    ensures var out := Exec(g, Client(user, r, now, SendChat(channel, text)), d);
      && (out.result.Ok? <==> MaySpeak(g, channel, user))
      && (out.result.Err? ==> out.game == g)
      && (out.result.Ok? ==>
            out.game == g.(log := g.log +
              [Entry(if channel.LobbyChat? then 0 else g.session.value.turn,
                     if channel.LobbyChat? then Waiting else g.session.value.phase,
                     r, ChatMessageSent(ChatMessage(channel, text, user)))]))
  {
    hide GameInv, Distinct, IndexOf, ParticipantIndex, ChatEffects;
    if g.session.Some? {
      RosterIsDistinct(g, d);
      PlayerFacts(g.session.value, user);
    }
    if g.room.Some? { SeatedIsIsSeated(g.room.value, user); }
  }

  // Why a message is refused: in the lobby and in the game the first of these that holds.
  lemma ChatRefusals(g: Game, user: UserId, channel: Channel, text: Text, r: RequestId, now: Millis, d: Durations)
    requires GameInv(g, d)
    ensures var out := Exec(g, Client(user, r, now, SendChat(channel, text)), d);
      if channel.LobbyChat? then
        Refusal(out) == (if g.session.Some? then Some(ChatNotAllowedInPhase)
                         else if !IsSeated(g.room.value, user) then Some(ParticipantNotFound) else None)
      else if g.session.None? then Refusal(out) == Some(SessionNotFound)
      else
        var s := g.session.value;
        Refusal(out) ==
          if (channel.DayChat? && !s.phase.DayDiscussion?) || (channel.MafiaChat? && !s.phase.Night?) then Some(ChatNotAllowedInPhase)
          else if !IsPlayer(s, user) then Some(ActorNotFound)
          else if channel.MafiaChat? && !HasRole(s, user, Mafia) then Some(RoleNotAllowed)
          else if channel.GhostChat? then (if LivesIn(s, user) then Some(ActorNotDead) else None)
          else if !LivesIn(s, user) then Some(ActorNotAlive)
          else None
  {
    hide SessionInv, Replay, Occurrences, Distinct, IndexOf, ParticipantIndex, ChatEffects;
    if g.session.Some? {
      RosterIsDistinct(g, d);
      PlayerFacts(g.session.value, user);
    }
    SeatedIsIsSeated(g.room.value, user);
  }

  // ---- Sockets ----

  // A lost or returning socket marks its own player and nobody else; only a loss is told.
  lemma SocketContract(g: Game, input: Input, d: Durations)
    requires GameInv(g, d) && !input.Client? && !input.Timer?
    ensures var out := Exec(g, input, d);
      var c := if input.SocketBack? then Connected else Disconnected;
      && Refusal(out) == (if g.session.None? then Some(SessionNotFound)
                          else if !IsPlayer(g.session.value, input.user) then Some(ActorNotFound) else None)
      && (out.result.Err? ==> out.game == g)
      && (out.result.Ok? ==>
            && out.game.room == g.room && out.game.log == g.log && out.game.session.Some?
            && (var s, t := g.session.value, out.game.session.value;
                && t == s.(players := t.players, version := s.version + 1) && |t.players| == |s.players|
                && forall i | 0 <= i < |s.players| ::
                     t.players[i] == if s.players[i].userId == input.user then s.players[i].(connection := c) else s.players[i])
            && out.result.value == (if input.SocketBack? then [] else [Broadcast(PlayerDisconnected(input.user))]))
  {
    if g.session.Some? {
      RosterIsDistinct(g, d);
      PlayerFacts(g.session.value, input.user);
      var ps := g.session.value.players;
      forall k | 0 <= k < |ps| && ps[k].userId == input.user ensures IndexOf(ps, input.user) == k {
        assert Ids(ps)[k] == Ids(ps)[IndexOf(ps, input.user)];
      }
    }
  }

  // Without a room and a session nothing happens, whatever is asked.
  lemma MissingGame(g: Game, input: Input, d: Durations)
    requires g.room.None? && g.session.None?
    ensures var out := Exec(g, input, d);
      && out.game == g
      && (match input
          case Client(_, _, _, OtherCommand(_)) => out.result == Ok([])
          case Client(_, _, _, Vote(_)) => out.result == Err(SessionNotFound)
          case Client(_, _, _, SelectTarget(_, _)) => out.result == Err(SessionNotFound)
          case Client(_, _, _, SendChat(DayChat, _)) => out.result == Err(SessionNotFound)
          case Client(_, _, _, SendChat(MafiaChat, _)) => out.result == Err(SessionNotFound)
          case Client(_, _, _, SendChat(GhostChat, _)) => out.result == Err(SessionNotFound)
          case Client(_, _, _, _) => out.result == Err(RoomNotFound)
          case _ => out.result == Err(SessionNotFound))
  {
  }

  // ---- The winner in the log ----

  predicate Announces(log: seq<Entry>, w: Team) {
    exists e <- log :: e.event == GameFinished(w)
  }

  predicate AnnouncesNobody(es: seq<Entry>) {
    forall e <- es :: !e.event.GameFinished?
  }

  lemma AnnouncesAppend(log: seq<Entry>, es: seq<Entry>, w: Team)
    ensures Announces(log + es, w) <==> Announces(log, w) || Announces(es, w)
    ensures AnnouncesNobody(es) ==> !Announces(es, w)
  {
    if Announces(es, w) {
      var e :| e in es && e.event == GameFinished(w);
      assert e in log + es;
    }
    if Announces(log, w) {
      var e :| e in log && e.event == GameFinished(w);
      assert e in log + es;
    }
  }

  ghost function WinnerOfGame(g: Game): Option<Team> {
    if g.session.Some? then EvaluateWinner(g.session.value.players) else None
  }

  ghost predicate WinnerLogged(g: Game) {
    forall w :: Announces(g.log, w) <==> WinnerOfGame(g) == Some(w)
  }

  // A step that is no phase step records no end and changes no living or dead player.
  lemma OthersAnnounceNobody(g: Game, input: Input, d: Durations) returns (added: seq<Entry>)
    requires GameInv(g, d) && Possible(g, input)
    requires !input.Timer? && !(input.Client? && input.command.AdvancePhase?)
    ensures Exec(g, input, d).game.log == g.log + added && AnnouncesNobody(added)
    ensures WinnerOfGame(Exec(g, input, d).game) == WinnerOfGame(g)
  {
    hide Replay, Occurrences, CastVote, SelectNightAction, ParticipantIndex, ChatRefusal, ChatEffects, Get, IndexOf, Count,
         EvaluateWinner, IsDeal;
    var h := Exec(g, input, d).game;
    if h.log == g.log { added := []; assert g.log + [] == g.log; }
    else if input.Client? && input.command.StartGame? {
      added := [Entry(0, Waiting, input.requestId, GameStarted(input.user, input.now))] + RoleEntries(input.command.deal, input.requestId);
    } else { added := [Last(h.log)]; }
    OthersKeepWinner(g, input, d);
  }

  lemma OthersKeepWinner(g: Game, input: Input, d: Durations)
    requires GameInv(g, d) && Possible(g, input)
    requires !input.Timer? && !(input.Client? && input.command.AdvancePhase?)
    ensures WinnerOfGame(Exec(g, input, d).game) == WinnerOfGame(g)
  {
    hide Exec, GameInv, Possible, EvaluateWinner;
    ExecKeepsInv(g, input, d);
    if g.session.None? && Exec(g, input, d).game.session.Some? {
      OnlyStartCreates(g, input, d);
      NoWinnerYet(Exec(g, input, d).game, d);
    } else if g.session.Some? {
      RunningRoom(g, d);
      QuietPlayers(g, input, d);
      SameStatusCounts(g.session.value.players, Exec(g, input, d).game.session.value.players);
    }
  }

  lemma OnlyStartCreates(g: Game, input: Input, d: Durations)
    requires GameInv(g, d) && g.session.None? && Exec(g, input, d).game.session.Some?
    ensures Exec(g, input, d).game.session.value.phase == Night
  {
    hide ParticipantIndex;
  }

  lemma QuietPlayers(g: Game, input: Input, d: Durations)
    requires g.session.Some? && g.room.Some? && g.room.value.status.InProgress?
    requires !input.Timer? && !(input.Client? && input.command.AdvancePhase?)
    ensures var h := Exec(g, input, d).game;
      h.session.Some? && SamePlayersButConnection(g.session.value.players, h.session.value.players)
  {
    hide IndexOf, ChatRefusal, ParticipantIndex, Get, ExecPhase, ExecNextPhase, Join, Leave, ChangeReady, ChatEffects;
  }

  lemma RunningRoom(g: Game, d: Durations)
    requires GameInv(g, d) && g.session.Some?
    ensures g.room.Some? && g.room.value.status.InProgress?
  {
  }

  lemma NoWinnerYet(g: Game, d: Durations)
    requires GameInv(g, d) && g.session.Some? && !g.session.value.phase.Finished?
    ensures WinnerOfGame(g) == None
  {
  }

  lemma PhaseAnnounces(g: Game, out: Outcome, caller: Option<UserId>, r: RequestId, now: Millis, d: Durations)
    requires g.session.Some? && !g.session.value.phase.Finished? && SteppedPhase(g, out, caller, r, now, d)
    requires WinnerLogged(g) && WinnerOfGame(g) == None
    ensures WinnerLogged(out.game)
  {
    hide PhaseState, PhaseNews, PhaseRecord, EvaluateWinner, LengthOf, Announces;
    var s, t, added := g.session.value, out.game.session.value, out.game.log[|g.log|..];
    assert out.game.log == g.log + added;
    forall w ensures Announces(out.game.log, w) <==> EvaluateWinner(t.players) == Some(w) {
      AnnouncesAppend(g.log, added, w);
      WinnerIsAnnounced(s, t, added, out.result.value, caller, r, now + LengthOf(PhaseAfter(s.phase), d), w);
    }
  }

  lemma WinnerStep(g: Game, input: Input, d: Durations)
    requires GameInv(g, d) && Possible(g, input) && WinnerLogged(g)
    ensures WinnerLogged(Exec(g, input, d).game)
  {
    hide GameInv, Exec, SteppedPhase, Announces, Possible, EvaluateWinner;
    var out := Exec(g, input, d);
    if input.Timer? {
      TimerContract(g, input.requestId, input.now, d);
      if out.result.Ok? {
        NoWinnerYet(g, d);
        PhaseAnnounces(g, out, None, input.requestId, input.now, d);
      }
    } else if input.Client? && input.command.AdvancePhase? {
      AdvanceContract(g, input.user, input.requestId, input.now, d);
      if out.result.Ok? {
        NoWinnerYet(g, d);
        PhaseAnnounces(g, out, Some(input.user), input.requestId, input.now, d);
      }
    } else {
      var added := OthersAnnounceNobody(g, input, d);
      forall w ensures Announces(out.game.log, w) <==> WinnerOfGame(out.game) == Some(w) {
        AnnouncesAppend(g.log, added, w);
      }
    }
  }

  lemma {:induction false} RunsLogWinner(g: Game, inputs: seq<Input>, d: Durations)
    requires GameInv(g, d) && PossibleRun(g, inputs, d) && WinnerLogged(g)
    ensures WinnerLogged(Run(g, inputs, d))
  {
    hide GameInv, Exec, PossibleRun, WinnerLogged;
    if inputs != [] {
      PossiblePrefix(g, inputs, d);
      RunsLogWinner(g, ButLast(inputs), d);
      RunKeepsInv(g, ButLast(inputs), d);
      WinnerStep(Run(g, ButLast(inputs), d), Last(inputs), d);
    }
  }

  // In every played game the log announces a team exactly when that team has won.
  lemma LoggedWinnerHasWon(host: UserId, maxPlayers: nat, inputs: seq<Input>, d: Durations, w: Team)
    requires maxPlayers >= 2 && CanPlay(host, maxPlayers, inputs, d)
    ensures var g := Played(host, maxPlayers, inputs, d);
      Announces(g.log, w) <==> g.session.Some? && EvaluateWinner(g.session.value.players) == Some(w)
  {
    hide GameInv, Exec, PossibleRun, EvaluateWinner;
    NewGameInv(host, maxPlayers, d);
    RunsLogWinner(NewGame(host, maxPlayers), inputs, d);
  }
}
