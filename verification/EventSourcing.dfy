// Folding the event log in order rebuilds the session.
module EventSourcing {
  import opened Common
  import opened Domain
  import opened Players
  import opened GameRules
  import opened RoomRules
  import opened GameSpec
  import opened Invariants

  // One event, read by somebody who knows nothing but the events before it.
  function Apply(state: Option<Session>, e: Entry, d: Durations): Option<Session> {
    match e.event
    case GameStarted(host, at) =>
      Some(Session(host, Night, 0, 0, [], map[], map[], Deadline(d, Night, at), map[]))
    case _ => if state.None? then None else Some(ApplyTo(state.value, e))
  }

  function ApplyTo(s: Session, e: Entry): Session {
    match e.event
    case RoleAssigned(a) => s.(players := s.players + [Player(a.userId, a.role, Alive, Connected)])
    case PhaseChanged(_, to, turn, _, endsAt) =>
      s.(phase := to, turn := turn, phaseEndsAt := endsAt, votes := map[], nightActions := map[])
    case NightTargetSelected(slot, _, target) => s.(nightActions := s.nightActions[slot := target])
    case VoteCasted(voter, target) =>
      s.(votes := s.votes[voter := target], processedRequests := s.processedRequests[e.requestId := target])
    case PlayerKilled(target) => s.(players := MarkDead(s.players, target))
    case PlayerExecuted(target) => s.(players := MarkDead(s.players, target))
    case GameFinished(_) => s.(phase := e.phase, turn := e.turn, phaseEndsAt := None)
    case _ => s
  }

  function Replay(log: seq<Entry>, d: Durations): Option<Session> {
    if log == [] then None else Apply(Replay(ButLast(log), d), Last(log), d)
  }

  // What no event records: the save counter and who is connected.
  function Forget(s: Session): Session {
    s.(version := 0, players := Reachable(s.players))
  }

  function Reachable(ps: seq<Player>): (r: seq<Player>)
    ensures |r| == |ps|
  {
    seq(|ps|, i requires 0 <= i < |ps| => ps[i].(connection := Connected))
  }

  lemma ReplayPush(log: seq<Entry>, e: Entry, d: Durations)
    ensures Replay(log + [e], d) == Apply(Replay(log, d), e, d)
  {
    assert ButLast(log + [e]) == log;
  }

  lemma ReplayRoles(log: seq<Entry>, host: UserId, deal: seq<Assignment>, requestId: RequestId, now: Millis, d: Durations)
    ensures Replay(log + [Entry(0, Waiting, requestId, GameStarted(host, now))] + RoleEntries(deal, requestId), d)
         == Some(Forget(NewSession(host, DealtPlayers(deal), now, d)))
  {
    hide Replay;
    var started := log + [Entry(0, Waiting, requestId, GameStarted(host, now))];
    if deal == [] {
      assert started + RoleEntries(deal, requestId) == started;
      ReplayPush(log, Entry(0, Waiting, requestId, GameStarted(host, now)), d);
      assert Reachable(DealtPlayers(deal)) == [];
    } else {
      var front, last := ButLast(deal), Last(deal);
      var e := Entry(0, Waiting, requestId, RoleAssigned(last));
      ReplayRoles(log, host, front, requestId, now, d);
      assert started + RoleEntries(deal, requestId) == started + RoleEntries(front, requestId) + [e];
      ReplayPush(started + RoleEntries(front, requestId), e, d);
      assert Reachable(DealtPlayers(deal))
          == Reachable(DealtPlayers(front)) + [Player(last.userId, last.role, Alive, Connected)];
    }
  }

  function AfterReport(s: Session, r: PhaseReport): Session {
    s.(phase := if r.winner.Some? then Finished else r.toPhase,
       turn := r.turn,
       phaseEndsAt := if r.winner.Some? then None else r.phaseEndsAt,
       votes := map[],
       nightActions := map[],
       players := if r.died.Some? then MarkDead(s.players, r.died.value) else s.players)
  }

  lemma ReplayDeath(log: seq<Entry>, r: PhaseReport, requestId: RequestId, d: Durations)
    requires Replay(log, d).Some?
    ensures var s := Replay(log, d).value;
      Replay(log + DeathEntries(r, requestId), d)
        == Some(s.(players := if r.died.Some? then MarkDead(s.players, r.died.value) else s.players))
  {
    if r.died.Some? { ReplayPush(log, DeathEntries(r, requestId)[0], d); }
    else { assert log + DeathEntries(r, requestId) == log; }
  }

  lemma ReplayFinish(log: seq<Entry>, r: PhaseReport, requestId: RequestId, d: Durations)
    requires Replay(log, d).Some?
    ensures var s := Replay(log, d).value;
      Replay(log + FinishEntries(r, requestId), d)
        == Some(if r.winner.Some? then s.(phase := Finished, turn := r.turn, phaseEndsAt := None) else s)
  {
    if r.winner.Some? { ReplayPush(log, FinishEntries(r, requestId)[0], d); }
    else { assert log + FinishEntries(r, requestId) == log; }
  }

  lemma ReplayReport(log: seq<Entry>, r: PhaseReport, caller: Option<UserId>, requestId: RequestId, d: Durations)
    requires Replay(log, d).Some?
    ensures Replay(log + PhaseEntries(r, caller, requestId), d) == Some(AfterReport(Replay(log, d).value, r))
  {
    hide Replay, MarkDead;
    var changed := ChangeEntry(r, caller, requestId);
    var log1 := log + [changed];
    assert Replay(log1, d) == Some(ApplyTo(Replay(log, d).value, changed)) by { ReplayPush(log, changed, d); }
    var log2 := log1 + DeathEntries(r, requestId);
    ReplayDeath(log1, r, requestId, d);
    ReplayFinish(log2, r, requestId, d);
    assert log + PhaseEntries(r, caller, requestId) == log2 + FinishEntries(r, requestId);
  }

  // The events a phase step writes, at most three, rebuild the settled session.
  lemma ReplayPhase(log: seq<Entry>, s: Session, caller: Option<UserId>, requestId: RequestId, now: Millis, d: Durations)
    requires !s.phase.Finished? && Replay(log, d) == Some(Forget(s))
    ensures Replay(log + PhaseEntries(SettledReport(s, now, d), caller, requestId), d)
         == Some(Forget(Settled(s, now, d)))
  {
    hide Replay, PluralityWinner, Count, NightVictim;
    ReplayReport(log, SettledReport(s, now, d), caller, requestId, d);
    if Victim(s).Some? {
      assert Reachable(MarkDead(s.players, Victim(s).value)) == MarkDead(Reachable(s.players), Victim(s).value);
    }
  }

  // ---- Counting the events of a log ----

  const IsPhaseChange := (e: Event) => e.PhaseChanged?
  const IsDeath := (e: Event) => e.PlayerKilled? || e.PlayerExecuted?

  function Occurrences(log: seq<Entry>, test: Event -> bool): nat {
    if log == [] then 0
    else Occurrences(ButLast(log), test) + (if test(Last(log).event) then 1 else 0)
  }

  lemma OccurrencesPush(log: seq<Entry>, e: Entry, test: Event -> bool)
    ensures Occurrences(log + [e], test) == Occurrences(log, test) + (if test(e.event) then 1 else 0)
  {
    assert ButLast(log + [e]) == log;
  }

  lemma {:induction false} OccurrencesAppend(log: seq<Entry>, es: seq<Entry>, test: Event -> bool)
    ensures Occurrences(log + es, test) == Occurrences(log, test) + Occurrences(es, test)
  {
    if es == [] {
      assert log + es == log;
    } else {
      assert log + es == log + ButLast(es) + [Last(es)];
      OccurrencesAppend(log, ButLast(es), test);
      OccurrencesPush(log + ButLast(es), Last(es), test);
    }
  }

  lemma PhaseEntriesCount(r: PhaseReport, caller: Option<UserId>, requestId: RequestId)
    ensures Occurrences(PhaseEntries(r, caller, requestId), IsPhaseChange) == 1
    ensures Occurrences(PhaseEntries(r, caller, requestId), IsDeath) == if r.died.Some? then 1 else 0
  {
    var changed, death, finish := [ChangeEntry(r, caller, requestId)], DeathEntries(r, requestId), FinishEntries(r, requestId);
    OccurrencesAppend(changed, death, IsPhaseChange);
    OccurrencesAppend(changed, death, IsDeath);
    OccurrencesAppend(changed + death, finish, IsPhaseChange);
    OccurrencesAppend(changed + death, finish, IsDeath);
    assert ButLast(changed) == [];
    assert death != [] ==> ButLast(death) == [];
    assert finish != [] ==> ButLast(finish) == [];
  }

  lemma {:induction false} RoleEntriesCount(deal: seq<Assignment>, requestId: RequestId)
    ensures Occurrences(RoleEntries(deal, requestId), IsPhaseChange) == 0
    ensures Occurrences(RoleEntries(deal, requestId), IsDeath) == 0
  {
    if deal != [] {
      assert ButLast(RoleEntries(deal, requestId)) == RoleEntries(ButLast(deal), requestId);
      RoleEntriesCount(ButLast(deal), requestId);
    }
  }

  // ---- The invariant of a game ----

  function Cycle(k: nat): Phase {
    match k % 4
    case 0 => Night
    case 1 => DayDiscussion
    case 2 => Voting
    case _ => Phase.Result
  }

  ghost predicate GameInv(g: Game, d: Durations) {
    && g.room.Some? && RoomInv(g.room.value)
    && match g.session
       case None =>
         && g.room.value.status.WaitingRoom?
         && Replay(g.log, d) == None
         && Occurrences(g.log, IsPhaseChange) == Occurrences(g.log, IsDeath) == 0
       case Some(s) =>
         && g.room.value.status.InProgress?
         && SessionInv(s)
         && Replay(g.log, d) == Some(Forget(s))
         && Timing(s, Occurrences(g.log, IsPhaseChange))
         && Occurrences(g.log, IsDeath) + Count(s.players, IsAlive) == |s.players|
  }

  predicate Timing(s: Session, k: nat) {
    s.turn == (k + 3) / 4 && (!s.phase.Finished? ==> s.phase == Cycle(k))
  }

  // Commands that write one event no session field depends on.
  lemma QuietEntry(g: Game, e: Entry, d: Durations)
    requires e.event.PlayerJoined? || e.event.PlayerLeft? || e.event.PlayerReadyChanged? || e.event.ChatMessageSent?
    ensures Replay(g.log + [e], d) == Replay(g.log, d)
    ensures Occurrences(g.log + [e], IsPhaseChange) == Occurrences(g.log, IsPhaseChange)
    ensures Occurrences(g.log + [e], IsDeath) == Occurrences(g.log, IsDeath)
  {
    ReplayPush(g.log, e, d);
    OccurrencesPush(g.log, e, IsPhaseChange);
    OccurrencesPush(g.log, e, IsDeath);
  }

  lemma StartKeepsInv(g: Game, user: UserId, deal: seq<Assignment>, requestId: RequestId, now: Millis, d: Durations)
    requires GameInv(g, d) && Possible(g, Client(user, requestId, now, StartGame(deal)))
    ensures GameInv(ExecStart(g, user, deal, requestId, now, d).game, d)
  {
    hide SessionInv, Replay, Occurrences, RoleEntries, Count;
    if ExecStart(g, user, deal, requestId, now, d).result.Ok? {
      var ids := ParticipantIds(g.room.value.participants);
      var h := ExecStart(g, user, deal, requestId, now, d).game;
      var e := Entry(0, Waiting, requestId, GameStarted(user, now));
      RoomOperationsKeepInv(g.room.value, user, true);
      NewSessionInv(ids, user, deal, now, d);
      AllAlive(DealtPlayers(deal));
      ReplayRoles(g.log, user, deal, requestId, now, d);
      OccurrencesPush(g.log, e, IsPhaseChange);
      OccurrencesPush(g.log, e, IsDeath);
      RoleEntriesCount(deal, requestId);
      OccurrencesAppend(g.log + [e], RoleEntries(deal, requestId), IsPhaseChange);
      OccurrencesAppend(g.log + [e], RoleEntries(deal, requestId), IsDeath);
    }
  }

  lemma NextTiming(s: Session, k: nat, now: Millis, d: Durations)
    requires !s.phase.Finished? && Timing(s, k)
    ensures Timing(Settled(s, now, d), k + 1)
  {
    assert s.phase == Cycle(k);
    assert NextPhase(Cycle(k)) == Some(Cycle(k + 1));
    assert (k + 4) / 4 == (k + 3) / 4 + (if k % 4 == 0 then 1 else 0);
  }

  lemma PhaseCounts(log: seq<Entry>, s: Session, caller: Option<UserId>, requestId: RequestId, now: Millis, d: Durations)
    requires SessionInv(s) && !s.phase.Finished?
    ensures var h := log + PhaseEntries(SettledReport(s, now, d), caller, requestId);
      && Occurrences(h, IsPhaseChange) == Occurrences(log, IsPhaseChange) + 1
      && Occurrences(h, IsDeath) + Count(Settled(s, now, d).players, IsAlive)
         == Occurrences(log, IsDeath) + Count(s.players, IsAlive)
      && |Settled(s, now, d).players| == |s.players|
  {
    var es := PhaseEntries(SettledReport(s, now, d), caller, requestId);
    PhaseEntriesCount(SettledReport(s, now, d), caller, requestId);
    OccurrencesAppend(log, es, IsPhaseChange);
    OccurrencesAppend(log, es, IsDeath);
    SurvivorCounts(s);
  }

  lemma PhaseKeepsInv(g: Game, requestId: RequestId, caller: Option<UserId>, now: Millis, d: Durations)
    requires GameInv(g, d)
    ensures GameInv(ExecPhase(g, requestId, caller, now, d).game, d)
  {
    hide SessionInv, Replay, PhaseStep, Settled, SettledReport, PhaseEntries, Occurrences, Timing, Count;
    if g.session.Some? {
      var s := g.session.value;
      PhaseStepSettles(s, now, d);
      if !s.phase.Finished? {
        SettledKeepsInv(s, now, d);
        ReplayPhase(g.log, s, caller, requestId, now, d);
        PhaseCounts(g.log, s, caller, requestId, now, d);
        NextTiming(s, Occurrences(g.log, IsPhaseChange), now, d);
      }
    }
  }

  lemma VoteKeepsGameInv(g: Game, user: UserId, target: UserId, requestId: RequestId, d: Durations)
    requires GameInv(g, d)
    ensures GameInv(ExecVote(g, user, target, requestId).game, d)
  {
    hide SessionInv, Replay, Occurrences, Count, RoomInv, IndexOf;
    var h := ExecVote(g, user, target, requestId).game;
    if h != g {
      var e := Last(h.log);
      VoteKeepsInv(g.session.value, user, target, requestId);
      ReplayPush(g.log, e, d);
      OccurrencesPush(g.log, e, IsPhaseChange);
      OccurrencesPush(g.log, e, IsDeath);
    }
  }

  lemma NightKeepsGameInv(g: Game, user: UserId, target: UserId, slot: Slot, requestId: RequestId, d: Durations)
    requires GameInv(g, d)
    ensures GameInv(ExecNight(g, user, target, slot, requestId).game, d)
  {
    hide SessionInv, Replay, Occurrences, Count, RoomInv, IndexOf;
    var h := ExecNight(g, user, target, slot, requestId).game;
    if h != g {
      var e := Last(h.log);
      NightActionKeepsInv(g.session.value, user, target, slot);
      ReplayPush(g.log, e, d);
      OccurrencesPush(g.log, e, IsPhaseChange);
      OccurrencesPush(g.log, e, IsDeath);
    }
  }

  lemma ConnectionKeepsGameInv(g: Game, user: UserId, c: Connection, d: Durations)
    requires GameInv(g, d)
    ensures GameInv(ExecConnection(g, user, c).game, d)
  {
    hide SessionInv, Replay, Occurrences, Count, RoomInv, IndexOf;
    if ExecConnection(g, user, c).result.Ok? {
      var s := g.session.value;
      var t := SetConnection(s, user, c).value;
      ConnectionKeepsInv(s, user, c);
      SameStatusCounts(s.players, t.players);
      assert Reachable(t.players) == Reachable(s.players);
    }
  }

  lemma QuietKeepsInv(g: Game, h: Game, e: Entry, d: Durations)
    requires GameInv(g, d) && h.log == g.log + [e] && h.session == g.session
    requires e.event.PlayerJoined? || e.event.PlayerLeft? || e.event.PlayerReadyChanged? || e.event.ChatMessageSent?
    requires h.room.Some? && RoomInv(h.room.value) && h.room.value.status == g.room.value.status
    ensures GameInv(h, d)
  {
    QuietEntry(g, e, d);
  }

  lemma RoomKeepsInv(g: Game, changed: Result<Room, Error>, requestId: RequestId, event: Event, first: seq<Effect>, d: Durations)
    requires GameInv(g, d) && (event.PlayerJoined? || event.PlayerLeft? || event.PlayerReadyChanged?)
    requires changed.Ok? ==> RoomInv(changed.value) && changed.value.status == g.room.value.status
    ensures GameInv(RoomChange(g, changed, requestId, event, first).game, d)
  {
    if changed.Ok? {
      QuietKeepsInv(g, RoomChange(g, changed, requestId, event, first).game, Entry(0, Waiting, requestId, event), d);
    }
  }

  lemma ChatKeepsInv(g: Game, m: ChatMessage, requestId: RequestId, d: Durations)
    requires GameInv(g, d)
    ensures GameInv(ExecChat(g, m, requestId).game, d)
  {
    var h := ExecChat(g, m, requestId).game;
    if ExecChat(g, m, requestId).result.Ok? { QuietKeepsInv(g, h, Last(h.log), d); }
  }

  lemma CommandKeepsInv(g: Game, user: UserId, requestId: RequestId, now: Millis, command: Command, d: Durations)
    requires GameInv(g, d) && Possible(g, Client(user, requestId, now, command))
    ensures GameInv(Exec(g, Client(user, requestId, now, command), d).game, d)
  {
    hide SessionInv, Replay, Occurrences, Timing, Count, RoomInv, ParticipantIndex, Distinct;
    match command
    case JoinRoom =>
      RoomOperationsKeepInv(g.room.value, user, true);
      RoomKeepsInv(g, Join(g.room.value, user), requestId, PlayerJoined(user), [JoinSocketRoom], d);
    case LeaveRoom =>
      RoomOperationsKeepInv(g.room.value, user, true);
      RoomKeepsInv(g, Leave(g.room.value, user), requestId, PlayerLeft(user), [LeaveSocketRoom], d);
    case ChangeReadyState(isReady) =>
      RoomOperationsKeepInv(g.room.value, user, isReady);
      RoomKeepsInv(g, ChangeReady(g.room.value, user, isReady), requestId, PlayerReadyChanged(user, isReady), [], d);
    case StartGame(deal) => StartKeepsInv(g, user, deal, requestId, now, d);
    case AdvancePhase => PhaseKeepsInv(g, requestId, Some(user), now, d);
    case Vote(target) => VoteKeepsGameInv(g, user, target, requestId, d);
    case SelectTarget(slot, target) => NightKeepsGameInv(g, user, target, slot, requestId, d);
    case SendChat(channel, text) => ChatKeepsInv(g, ChatMessage(channel, text, user), requestId, d);
    case OtherCommand(_) =>
  }

  // Every input keeps the invariant, accepted or not.
  lemma ExecKeepsInv(g: Game, input: Input, d: Durations)
    requires GameInv(g, d) && Possible(g, input)
    ensures GameInv(Exec(g, input, d).game, d)
  {
    match input
    case Timer(requestId, now) => PhaseKeepsInv(g, requestId, None, now, d);
    case SocketLost(user) => ConnectionKeepsGameInv(g, user, Disconnected, d);
    case SocketOvertaken(user) => ConnectionKeepsGameInv(g, user, Disconnected, d);
    case SocketBack(user) => ConnectionKeepsGameInv(g, user, Connected, d);
    case Client(user, requestId, now, command) => CommandKeepsInv(g, user, requestId, now, command, d);
  }

  lemma {:induction false} RunKeepsInv(g: Game, inputs: seq<Input>, d: Durations)
    requires GameInv(g, d) && PossibleRun(g, inputs, d)
    ensures GameInv(Run(g, inputs, d), d)
  {
    if inputs != [] {
      PossiblePrefix(g, inputs, d);
      RunKeepsInv(g, ButLast(inputs), d);
      ExecKeepsInv(Run(g, ButLast(inputs), d), Last(inputs), d);
    }
  }

  lemma NewGameInv(host: UserId, maxPlayers: nat, d: Durations)
    requires maxPlayers >= 2
    ensures GameInv(NewGame(host, maxPlayers), d)
  {
  }
}
