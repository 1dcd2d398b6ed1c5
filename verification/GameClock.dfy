// Many instances polling one set of deadlines: no unfinished game ever loses its clock.
module GameClock {
  import opened Common
  import opened Domain
  import opened Players
  import opened GameRules
  import opened RoomRules
  import opened GameSpec
  import opened Invariants
  import opened EventSourcing
  import opened PhaseTimers

  type Worker = nat  // one handling of one listed entry, on any instance

  // A poller's entry: listed as due; its session seen to match; or seen to be stale.
  datatype Poll = Listed(entry: TimerEntry) | Matched(entry: TimerEntry) | Stale(entry: TimerEntry)

  datatype World = World(
    games: map<GameId, Game>, timers: set<TimerEntry>, now: Millis, polls: map<Worker, Poll>)

  datatype Tick =
    | Elapse(ms: nat)
    | NewRoomOpened(gameId: GameId, host: UserId, maxPlayers: nat)
    | Handled(gameId: GameId, input: Input)  // one locked command or connection change
    | ListedDue(worker: Worker, entry: TimerEntry)
    | Checked(worker: Worker)  // reads the session before taking the lock
    | Dropped(worker: Worker)  // completes an entry that no longer matched
    | Fired(worker: Worker, requestId: RequestId)  // under the lock: advance, apply effects, complete
    | GaveUp(worker: Worker)  // the lock was busy

  predicate Current(games: map<GameId, Game>, e: TimerEntry) {
    && e.gameId in games
    && games[e.gameId].session.Some?
    && !games[e.gameId].session.value.phase.Finished?
    && games[e.gameId].session.value.phaseEndsAt == Some(e.at)
  }

  predicate Enabled(w: World, t: Tick) {
    match t
    case Elapse(_) => true
    case NewRoomOpened(gameId, _, maxPlayers) => gameId !in w.games && maxPlayers >= 2
    case Handled(gameId, input) =>
      && gameId in w.games && !input.Timer? && Possible(w.games[gameId], input)
      && (input.Client? ==> input.now == w.now)
    case ListedDue(worker, entry) => worker !in w.polls && entry in w.timers && entry.at <= w.now
    case Checked(worker) => worker in w.polls && w.polls[worker].Listed?
    case Dropped(worker) => worker in w.polls && w.polls[worker].Stale?
    case Fired(worker, _) => worker in w.polls && w.polls[worker].Matched?
    case GaveUp(worker) => worker in w.polls
  }

  ghost function LockedStep(w: World, gameId: GameId, input: Input, d: Durations): World
    requires gameId in w.games
  {
    var out := Exec(w.games[gameId], input, d);
    w.(games := w.games[gameId := out.game],
       timers := if out.result.Err? then w.timers else TimersAfter(w.timers, gameId, out.result.value))
  }

  // An expired clock advances the phase with the same code whoever polled the entry.
  ghost function WorldNext(w: World, t: Tick, d: Durations): World
    requires Enabled(w, t)
  {
    match t
    case Elapse(ms) => w.(now := w.now + ms)
    case NewRoomOpened(gameId, host, maxPlayers) => w.(games := w.games[gameId := NewGame(host, maxPlayers)])
    case Handled(gameId, input) => LockedStep(w, gameId, input, d)
    case ListedDue(worker, entry) => w.(polls := w.polls[worker := Listed(entry)])
    case Checked(worker) =>
      var e := w.polls[worker].entry;
      w.(polls := w.polls[worker := if Current(w.games, e) then Matched(e) else Stale(e)])
    case Dropped(worker) =>
      w.(timers := w.timers - {w.polls[worker].entry}, polls := w.polls - {worker})
    case Fired(worker, requestId) =>
      var e := w.polls[worker].entry;
      // A matched entry's game exists: games are never removed.
      var fired := if e.gameId in w.games then LockedStep(w, e.gameId, Timer(requestId, w.now), d) else w;
      fired.(timers := fired.timers - {e}, polls := w.polls - {worker})
    case GaveUp(worker) => w.(polls := w.polls - {worker})
  }

  ghost predicate Clocked(g: Game, gameId: GameId, timers: set<TimerEntry>) {
    g.session.Some? && !g.session.value.phase.Finished? ==>
      && g.session.value.phaseEndsAt.Some?
      && OfGame(timers, gameId) == {TimerEntry(gameId, g.session.value.phaseEndsAt.value)}
  }

  ghost predicate WorldInv(w: World, d: Durations) {
    && (forall id <- w.games :: GameInv(w.games[id], d) && Clocked(w.games[id], id, w.timers))
    && (forall worker <- w.polls ::
          && w.polls[worker].entry.at <= w.now
          && (w.polls[worker].Stale? ==> !Current(w.games, w.polls[worker].entry)))
  }

  // ---- One locked step ----

  predicate Inert(e: Effect) {
    !e.Broadcast? || !(e.message.GameStartedMessage? || e.message.PhaseChangedMessage?)
  }

  lemma {:induction false} InertEffects(timers: set<TimerEntry>, gameId: GameId, es: seq<Effect>)
    requires forall e <- es :: Inert(e)
    ensures TimersAfter(timers, gameId, es) == timers
  {
    if es != [] {
      assert Inert(es[0]);
      InertEffects(timers, gameId, es[1..]);
    }
  }

  lemma FirstSchedules(timers: set<TimerEntry>, gameId: GameId, es: seq<Effect>)
    requires es != [] && forall e <- es[1..] :: Inert(e)
    ensures TimersAfter(timers, gameId, es) == TimerAfter(timers, gameId, es[0])
  {
    InertEffects(TimerAfter(timers, gameId, es[0]), gameId, es[1..]);
  }

  // What the step may do to the clock: nothing, or replace it by a strictly later one.
  ghost predicate ClockStep(g: Game, out: Outcome, gameId: GameId, timers: set<TimerEntry>, now: Millis) {
    var after := if out.result.Err? then timers else TimersAfter(timers, gameId, out.result.value);
    && (forall other | other != gameId :: OfGame(after, other) == OfGame(timers, other))
    && (|| (after == timers && SameClock(g.session, out.game.session))
        || (exists at :: at > now && after == Scheduled(timers, TimerEntry(gameId, at))
              && out.game.session.Some?
              && (!out.game.session.value.phase.Finished? ==> out.game.session.value.phaseEndsAt == Some(at))))
  }

  predicate SameClock(s: Option<Session>, t: Option<Session>) {
    && s.Some? == t.Some?
    && (s.Some? ==> s.value.phaseEndsAt == t.value.phaseEndsAt
                    && (s.value.phase.Finished? <==> t.value.phase.Finished?))
  }

  lemma ScheduledElsewhere(timers: set<TimerEntry>, e: TimerEntry)
    ensures forall other | other != e.gameId :: OfGame(Scheduled(timers, e), other) == OfGame(timers, other)
    ensures OfGame(Scheduled(timers, e), e.gameId) == {e}
  {
  }

  lemma PhaseClockStep(g: Game, gameId: GameId, timers: set<TimerEntry>, requestId: RequestId, caller: Option<UserId>, now: Millis, d: Durations)
    requires GameInv(g, d)
    ensures ClockStep(g, ExecPhase(g, requestId, caller, now, d), gameId, timers, now)
    ensures var after := ExecPhase(g, requestId, caller, now, d).game.session;
      after.Some? && !after.value.phase.Finished? ==> after.value.phaseEndsAt.Some? && after.value.phaseEndsAt.value > now
  {
    hide SessionInv, Replay, Occurrences, PhaseStep, Scheduled, TimersAfter, Count, OfGame;
    if g.session.Some? && !g.session.value.phase.Finished? {
      var s := g.session.value;
      var r := SettledReport(s, now, d);
      NotWaiting(s);
      PhaseStepSettles(s, now, d);
      assert r.phaseEndsAt.Some? && r.phaseEndsAt.value > now;
      FirstSchedules(timers, gameId, PhaseEffects(r, caller));
      ScheduledElsewhere(timers, TimerEntry(gameId, r.phaseEndsAt.value));
    } else if g.session.Some? {
      PhaseStepSettles(g.session.value, now, d);
    }
  }

  lemma NotWaiting(s: Session)
    requires SessionInv(s)
    ensures !s.phase.Waiting?
  {
  }

  lemma StartClockStep(g: Game, gameId: GameId, timers: set<TimerEntry>, user: UserId, deal: seq<Assignment>, requestId: RequestId, now: Millis, d: Durations)
    ensures ClockStep(g, ExecStart(g, user, deal, requestId, now, d), gameId, timers, now)
  {
    hide Scheduled, TimersAfter, OfGame;
    var out := ExecStart(g, user, deal, requestId, now, d);
    if out.result.Ok? {
      FirstSchedules(timers, gameId, out.result.value);
      ScheduledElsewhere(timers, TimerEntry(gameId, now + d.night));
    }
  }

  lemma QuietClockStep(g: Game, out: Outcome, gameId: GameId, timers: set<TimerEntry>, now: Millis)
    requires out.result.Ok? ==> forall e <- out.result.value :: Inert(e)
    requires SameClock(g.session, out.game.session)
    ensures ClockStep(g, out, gameId, timers, now)
  {
    hide TimersAfter;
    if out.result.Ok? { InertEffects(timers, gameId, out.result.value); }
  }

  lemma {:induction false} PrivateIsInert(ps: seq<Player>, test: Player -> bool, m: Message)
    ensures forall e <- PrivateTo(ps, test, m) :: Inert(e)
  {
    if ps != [] { PrivateIsInert(ps[1..], test, m); }
  }

  // The host's accepted command, a timer step and a start replace the clock; nothing else
  // schedules or changes it.
  predicate ReplacesClock(g: Game, input: Input) {
    || input.Timer?
    || (input.Client? && input.command.StartGame?)
    || (input.Client? && input.command.AdvancePhase? && g.room.Some? && CanAdvancePhase(g.room.value, input.user).Ok?)
  }

  lemma OthersAreQuiet(g: Game, input: Input, d: Durations)
    requires GameInv(g, d) && !ReplacesClock(g, input)
    ensures var out := Exec(g, input, d);
      && (out.result.Ok? ==> forall e <- out.result.value :: Inert(e))
      && SameClock(g.session, out.game.session)
  {
    hide GameInv, ExecStart, ExecPhase, ChatRefusal, IndexOf, ParticipantIndex, Get, Join, Leave, ChangeReady;
    if input.Client? && input.command.SendChat? && g.session.Some? {
      var m := Chat(ChatMessage(input.command.channel, input.command.text, input.user));
      PrivateIsInert(g.session.value.players, IsAliveMafia, m);
      PrivateIsInert(g.session.value.players, IsDead, m);
    }
  }

  lemma ExecClockStep(g: Game, gameId: GameId, timers: set<TimerEntry>, input: Input, now: Millis, d: Durations)
    requires GameInv(g, d) && (input.Client? || input.Timer? ==> input.now == now)
    ensures ClockStep(g, Exec(g, input, d), gameId, timers, now)
  {
    hide GameInv, ClockStep, ExecStart, ExecPhase, ChatRefusal, IndexOf, ParticipantIndex;
    var out := Exec(g, input, d);
    if input.Timer? {
      PhaseClockStep(g, gameId, timers, input.requestId, None, now, d);
    } else if input.Client? && input.command.StartGame? {
      StartClockStep(g, gameId, timers, input.user, input.command.deal, input.requestId, now, d);
    } else if input.Client? && input.command.AdvancePhase? && g.room.Some? && CanAdvancePhase(g.room.value, input.user).Ok? {
      PhaseClockStep(g, gameId, timers, input.requestId, Some(input.user), now, d);
    } else {
      OthersAreQuiet(g, input, d);
      QuietClockStep(g, out, gameId, timers, now);
    }
  }

  // ---- Every interleaving ----

  lemma LockedStepKeepsInv(w: World, gameId: GameId, input: Input, d: Durations)
    requires WorldInv(w, d) && gameId in w.games && Possible(w.games[gameId], input)
    requires input.Client? || input.Timer? ==> input.now == w.now
    ensures WorldInv(LockedStep(w, gameId, input, d), d)
    ensures forall e: TimerEntry | e.at <= w.now :: Current(LockedStep(w, gameId, input, d).games, e) ==> Current(w.games, e)
  {
    hide GameInv, Exec, TimersAfter, Possible;
    var g := w.games[gameId];
    var out := Exec(g, input, d);
    var w' := LockedStep(w, gameId, input, d);
    ExecKeepsInv(g, input, d);
    ExecClockStep(g, gameId, w.timers, input, w.now, d);
    forall id | id in w'.games ensures Clocked(w'.games[id], id, w'.timers) {
      if id != gameId { assert Clocked(w.games[id], id, w.timers); }
    }
  }

  lemma WorldStepKeepsInv(w: World, t: Tick, d: Durations)
    requires WorldInv(w, d) && Enabled(w, t)
    ensures WorldInv(WorldNext(w, t, d), d)
  {
    hide GameInv, LockedStep, Possible;
    match t
    case Handled(gameId, input) => LockedStepKeepsInv(w, gameId, input, d);
    case NewRoomOpened(gameId, host, maxPlayers) => NewGameInv(host, maxPlayers, d);
    case Dropped(worker) =>
      RemovingOther(w, w.polls[worker].entry);
    case Fired(worker, requestId) => FiredKeepsInv(w, worker, requestId, d);
    case _ =>
  }

  // Removing an entry that is nobody's current deadline disturbs no clock.
  lemma RemovingOther(w: World, e: TimerEntry)
    requires !Current(w.games, e)
    requires forall id <- w.games :: Clocked(w.games[id], id, w.timers)
    ensures forall id <- w.games :: Clocked(w.games[id], id, w.timers - {e})
  {
    forall id | id in w.games && w.games[id].session.Some? && !w.games[id].session.value.phase.Finished?
      ensures OfGame(w.timers - {e}, id) == OfGame(w.timers, id)
    {
      assert Clocked(w.games[id], id, w.timers);
    }
  }

  // Completing the entry after the advance never removes the fresh one: it is later.
  lemma FiredKeepsInv(w: World, worker: Worker, requestId: RequestId, d: Durations)
    requires WorldInv(w, d) && Enabled(w, Fired(worker, requestId))
    ensures WorldInv(WorldNext(w, Fired(worker, requestId), d), d)
  {
    hide GameInv, ExecPhase, Clocked;
    var e := w.polls[worker].entry;
    if e.gameId in w.games {
      var input := Timer(requestId, w.now);
      LockedStepKeepsInv(w, e.gameId, input, d);
      PhaseClockStep(w.games[e.gameId], e.gameId, w.timers, requestId, None, w.now, d);
      RemovingOther(LockedStep(w, e.gameId, input, d), e);
    } else {
      RemovingOther(w, e);
    }
  }

  ghost predicate Path(ws: seq<World>, ts: seq<Tick>, d: Durations) {
    && |ws| == |ts| + 1
    && forall i | 0 <= i < |ts| :: Enabled(ws[i], ts[i]) && ws[i + 1] == WorldNext(ws[i], ts[i], d)
  }

  const EMPTY_WORLD := World(map[], {}, 0, map[])

  ghost predicate WorldRun(ws: seq<World>, ts: seq<Tick>, d: Durations) {
    Path(ws, ts, d) && ws[0] == EMPTY_WORLD
  }

  lemma {:induction false} RunsKeepWorldInv(ws: seq<World>, ts: seq<Tick>, d: Durations, n: nat)
    requires WorldRun(ws, ts, d) && n <= |ts|
    ensures WorldInv(ws[n], d)
  {
    if n > 0 {
      RunsKeepWorldInv(ws, ts, d, n - 1);
      WorldStepKeepsInv(ws[n - 1], ts[n - 1], d);
    }
  }

  // With each locked section as one step, in every interleaving of every number of pollers,
  // commands and rooms, an unfinished game has exactly one entry, at its session's deadline.
  lemma NoGameLosesItsClock(ws: seq<World>, ts: seq<Tick>, d: Durations, n: nat, gameId: GameId)
    requires WorldRun(ws, ts, d) && n <= |ts|
    requires gameId in ws[n].games && ws[n].games[gameId].session.Some?
    requires !ws[n].games[gameId].session.value.phase.Finished?
    ensures var endsAt := ws[n].games[gameId].session.value.phaseEndsAt;
      endsAt.Some? && forall e :: e in ws[n].timers && e.gameId == gameId <==> e == TimerEntry(gameId, endsAt.value)
  {
    hide GameInv, WorldNext, Enabled;
    RunsKeepWorldInv(ws, ts, d, n);
    var endsAt := ws[n].games[gameId].session.value.phaseEndsAt;
    assert Clocked(ws[n].games[gameId], gameId, ws[n].timers);
    forall e ensures e in ws[n].timers && e.gameId == gameId <==> e == TimerEntry(gameId, endsAt.value) {
      assert e in OfGame(ws[n].timers, gameId) <==> e in ws[n].timers && e.gameId == gameId;
    }
  }

  // A finished game's leftover entry is dropped, and no session is touched doing so.
  lemma LeftoverIsDropped(w: World, worker: Worker, d: Durations)
    requires worker in w.polls && w.polls[worker].Listed?
    requires var id := w.polls[worker].entry.gameId;
      id in w.games && w.games[id].session.Some? && w.games[id].session.value.phase.Finished?
    ensures var seen := WorldNext(w, Checked(worker), d);
      && Enabled(seen, Dropped(worker))
      && WorldNext(seen, Dropped(worker), d).games == w.games
      && WorldNext(seen, Dropped(worker), d).timers == w.timers - {w.polls[worker].entry}
  {
  }

  // ---- Does each deadline advance the game once? ----

  lemma SpentStep(w: World, t: Tick, d: Durations, e: TimerEntry)
    requires WorldInv(w, d) && Enabled(w, t) && e.at <= w.now && !Current(w.games, e)
    ensures e.at <= WorldNext(w, t, d).now && !Current(WorldNext(w, t, d).games, e)
  {
    hide GameInv, Exec, TimersAfter;
    match t
    case Handled(gameId, input) => LockedStepKeepsInv(w, gameId, input, d);
    case Fired(worker, requestId) =>
      var id := w.polls[worker].entry.gameId;
      if id in w.games { LockedStepKeepsInv(w, id, Timer(requestId, w.now), d); }
    case _ =>
  }

  // A passed deadline that is no longer the session's never becomes it again. So a poller
  // that checks after the advance drops the entry: only checks made before it can repeat it.
  lemma {:induction false} SpentDeadlineNeverReturns(ws: seq<World>, ts: seq<Tick>, d: Durations, n: nat, m: nat, e: TimerEntry)
    requires WorldRun(ws, ts, d) && n <= m <= |ts|
    requires e.at <= ws[n].now && !Current(ws[n].games, e)
    ensures e.at <= ws[m].now && !Current(ws[m].games, e)
  {
    hide WorldInv, WorldNext, Enabled, Current;
    if n < m {
      SpentDeadlineNeverReturns(ws, ts, d, n, m - 1, e);
      RunsKeepWorldInv(ws, ts, d, m - 1);
      SpentStep(ws[m - 1], ts[m - 1], d, e);
    }
  }

  // The ticks that advance a game: a firing of any of its entries, or its host's command.
  predicate Advances(w: World, t: Tick, gameId: GameId)
    requires Enabled(w, t)
  {
    match t
    case Fired(worker, _) => w.polls[worker].entry.gameId == gameId
    case Handled(id, input) =>
      && id == gameId && input.Client? && input.command.AdvancePhase?
      && w.games[id].room.Some? && CanAdvancePhase(w.games[id].room.value, input.user).Ok?
    case _ => false
  }

  // Whatever else happens to a started game leaves its deadline alone.
  lemma OthersKeepClock(g: Game, input: Input, d: Durations)
    requires GameInv(g, d) && g.session.Some? && !input.Timer?
    requires input.Client? && input.command.AdvancePhase? ==> CanAdvancePhase(g.room.value, input.user).Err?
    ensures SameClock(g.session, Exec(g, input, d).game.session)
  {
    hide SessionInv, Replay, Occurrences, IndexOf, ParticipantIndex, ChatRefusal, RoomInv, Get;
  }

  lemma OpenRoom(g: Game, d: Durations)
    requires GameInv(g, d)
    ensures g.room.Some?
  {
  }

  lemma FiringSpends(w: World, t: Tick, d: Durations, e: TimerEntry)
    requires WorldInv(w, d) && Enabled(w, t) && Current(w.games, e) && e.at <= w.now && Advances(w, t, e.gameId)
    ensures !Current(WorldNext(w, t, d).games, e)
  {
    hide GameInv, ExecPhase, Clocked, TimersAfter;
    var g := w.games[e.gameId];
    match t
    case Fired(worker, requestId) => PhaseClockStep(g, e.gameId, w.timers, requestId, None, w.now, d);
    case Handled(_, input) => PhaseClockStep(g, e.gameId, w.timers, input.requestId, Some(input.user), w.now, d);
  }

  // A due deadline that is the session's stops being it in exactly the ticks that advance the game.
  lemma SpentIff(w: World, t: Tick, d: Durations, e: TimerEntry)
    requires WorldInv(w, d) && Enabled(w, t) && Current(w.games, e) && e.at <= w.now
    ensures !Current(WorldNext(w, t, d).games, e) <==> Advances(w, t, e.gameId)
  {
    if Advances(w, t, e.gameId) {
      FiringSpends(w, t, d, e);
    } else {
      hide GameInv, Exec, Clocked, TimersAfter, CanAdvancePhase;
      if t.Handled? && t.gameId == e.gameId {
        OpenRoom(w.games[e.gameId], d);
        OthersKeepClock(w.games[e.gameId], t.input, d);
      }
    }
  }

  lemma {:induction false} StillCurrentIff(ws: seq<World>, ts: seq<Tick>, d: Durations, c: nat, m: nat, e: TimerEntry)
    requires WorldRun(ws, ts, d) && c <= m <= |ts|
    requires Current(ws[c].games, e) && e.at <= ws[c].now
    ensures e.at <= ws[m].now
    ensures Current(ws[m].games, e) <==> forall k | c <= k < m :: !Advances(ws[k], ts[k], e.gameId)
  {
    hide WorldInv, WorldNext, Enabled, Current, Advances;
    if c < m {
      StillCurrentIff(ws, ts, d, c, m - 1, e);
      RunsKeepWorldInv(ws, ts, d, m - 1);
      TimePasses(ws[m - 1], ts[m - 1], d);
      if Current(ws[m - 1].games, e) {
        SpentIff(ws[m - 1], ts[m - 1], d, e);
      } else {
        SpentStep(ws[m - 1], ts[m - 1], d, e);
      }
    }
  }

  lemma TimePasses(w: World, t: Tick, d: Durations)
    requires Enabled(w, t)
    ensures w.now <= WorldNext(w, t, d).now
  {
    hide Exec, TimersAfter;
  }

  // When a deadline advances its game exactly once. A poller compares at c and, under the
  // lock, fires at m. The deadline it fires is still the session's if and only if nobody,
  // poller or host, advanced the game in between; if somebody did, the firing advances the
  // game a second time for a deadline already spent, unless the game is over by then.
  lemma FiringIsItsOwnAdvanceIff(ws: seq<World>, ts: seq<Tick>, d: Durations, c: nat, m: nat,
                                 worker: Worker, requestId: RequestId)
    requires WorldRun(ws, ts, d) && c < m < |ts|
    requires ts[c] == Checked(worker) && ts[m] == Fired(worker, requestId)
    requires forall k | c < k <= m :: worker in ws[k].polls && ws[k].polls[worker] == ws[c + 1].polls[worker]
    ensures var e := ws[m].polls[worker].entry;
      && (Current(ws[m].games, e) <==> forall k | c < k < m :: !Advances(ws[k], ts[k], e.gameId))
      && !Current(ws[m + 1].games, e)
      && e.gameId in ws[m].games && ws[m].games[e.gameId].session.Some?
      && e.gameId in ws[m + 1].games
      && SettlesTo(ws[m].games[e.gameId].session.value, ws[m + 1].games[e.gameId], ws[m].now, d)
  {
    hide WorldInv, WorldNext, Advances;
    var e := ws[m].polls[worker].entry;
    RunsKeepWorldInv(ws, ts, d, c);
    RunsKeepWorldInv(ws, ts, d, m);
    CheckedIsCurrent(ws[c], worker, d);
    assert ws[c + 1].polls[worker] == Matched(e);
    StillCurrentIff(ws, ts, d, c + 1, m, e);
    GameStays(ws, ts, d, c + 1, m, e.gameId);
    FiringSettles(ws[m], worker, requestId, d);
    FiringSpendsItsDeadline(ws[m], worker, requestId, d);
  }

  // So of all the firings of one deadline at most one is its own advance.
  lemma DeadlineIsSpentOnce(ws: seq<World>, ts: seq<Tick>, d: Durations, m: nat, n: nat, a: Worker, b: Worker,
                            r1: RequestId, r2: RequestId)
    requires WorldRun(ws, ts, d) && m < n < |ts|
    requires ts[m] == Fired(a, r1) && ts[n] == Fired(b, r2) && a in ws[m].polls && b in ws[n].polls
    requires ws[m].polls[a].entry == ws[n].polls[b].entry
    ensures !Current(ws[n].games, ws[n].polls[b].entry)
  {
    hide WorldInv, WorldNext, Current;
    RunsKeepWorldInv(ws, ts, d, m);
    FiringSpendsItsDeadline(ws[m], a, r1, d);
    RunsKeepWorldInv(ws, ts, d, m + 1);
    TimePasses(ws[m], ts[m], d);
    PolledIsDue(ws[m], a, d);
    SpentDeadlineNeverReturns(ws, ts, d, m + 1, n, ws[m].polls[a].entry);
  }

  lemma PolledIsDue(w: World, worker: Worker, d: Durations)
    requires WorldInv(w, d) && worker in w.polls
    ensures w.polls[worker].entry.at <= w.now
  {
  }

  // A check changes no game, and matches exactly a current deadline.
  lemma CheckedIsCurrent(w: World, worker: Worker, d: Durations)
    requires WorldInv(w, d) && Enabled(w, Checked(worker))
    ensures var next := WorldNext(w, Checked(worker), d);
      && next.games == w.games && next.now == w.now
      && worker in next.polls && next.polls[worker].entry == w.polls[worker].entry
      && (next.polls[worker].Matched? <==> Current(w.games, w.polls[worker].entry))
      && w.polls[worker].entry.at <= w.now
  {
  }

  ghost predicate SettlesTo(s: Session, after: Game, now: Millis, d: Durations) {
    after.session == Some(if s.phase.Finished? then s else Settled(s, now, d))
  }

  lemma FiringSettles(w: World, worker: Worker, requestId: RequestId, d: Durations)
    requires WorldInv(w, d) && Enabled(w, Fired(worker, requestId))
    requires var id := w.polls[worker].entry.gameId; id in w.games && w.games[id].session.Some?
    ensures var id := w.polls[worker].entry.gameId;
      var next := WorldNext(w, Fired(worker, requestId), d);
      id in next.games && SettlesTo(w.games[id].session.value, next.games[id], w.now, d)
  {
    hide Replay, Occurrences, TimersAfter, Settled, SettledReport, PhaseStep;
    PhaseStepSettles(w.games[w.polls[worker].entry.gameId].session.value, w.now, d);
  }

  // No game and no session is ever removed.
  lemma {:induction false} GameStays(ws: seq<World>, ts: seq<Tick>, d: Durations, c: nat, m: nat, gameId: GameId)
    requires WorldRun(ws, ts, d) && c <= m <= |ts|
    requires gameId in ws[c].games && ws[c].games[gameId].session.Some?
    ensures gameId in ws[m].games && ws[m].games[gameId].session.Some?
  {
    hide WorldNext, Enabled;
    if c < m {
      GameStays(ws, ts, d, c, m - 1, gameId);
      GameStaysStep(ws[m - 1], ts[m - 1], d, gameId);
    }
  }

  lemma GameStaysStep(w: World, t: Tick, d: Durations, gameId: GameId)
    requires Enabled(w, t) && gameId in w.games && w.games[gameId].session.Some?
    ensures var next := WorldNext(w, t, d); gameId in next.games && next.games[gameId].session.Some?
  {
    hide TimersAfter, PhaseStep, CastVote, SelectNightAction, SetConnection, ParticipantIndex, ChatRefusal;
  }

  // The lock alone does not prevent a second advance: the deadline is compared before the
  // lock is taken. In every world with a due game two pollers can both list and compare the
  // entry and then fire one after the other, and unless the first firing ends the game the
  // second advances it again. A discussion goes straight through the voting, although no
  // voting deadline has passed.
  lemma TwoPollersAdvanceTwice(w: World, a: Worker, b: Worker, gameId: GameId, d: Durations, r1: RequestId, r2: RequestId)
    returns (ws: seq<World>)
    requires WorldInv(w, d) && a != b && a !in w.polls && b !in w.polls
    requires gameId in w.games && w.games[gameId].session.Some?
    requires var s := w.games[gameId].session.value;
      !s.phase.Finished? && s.phaseEndsAt.Some? && s.phaseEndsAt.value <= w.now
    ensures var s := w.games[gameId].session.value;
      var e := TimerEntry(gameId, s.phaseEndsAt.value);
      var once := Settled(s, w.now, d);
      && Path(ws, [ListedDue(a, e), ListedDue(b, e), Checked(a), Checked(b)] + [Fired(a, r1)] + [Fired(b, r2)], d)
      && |ws| == 7 && ws[0] == w && ws[6].now == w.now
      && gameId in ws[5].games && ws[5].games[gameId].session == Some(once)
      && gameId in ws[6].games
      && ws[6].games[gameId].session == Some(if once.phase.Finished? then once else Settled(once, w.now, d))
      && (s.phase.DayDiscussion? ==>
            && once.phase == Voting && once.phaseEndsAt == Some(w.now + d.voting) && w.now < w.now + d.voting
            && ws[6].games[gameId].session.value.phase == Phase.Result)
  {
    var s := w.games[gameId].session.value;
    var e := TimerEntry(gameId, s.phaseEndsAt.value);
    hide GameInv, WorldNext, WorldInv, Path, Settled, Current, Clocked, Exec;
    assert Current(w.games, e) by { DueIsCurrent(w, gameId); }
    ws := BothCompare(w, a, b, e, d);
    ws := BothFire(ws, [ListedDue(a, e), ListedDue(b, e), Checked(a), Checked(b)], a, b, e, r1, r2, d);
    if s.phase.DayDiscussion? { NoVotesNoVictim(w, gameId, d); }
  }

  lemma BothFire(ws: seq<World>, ts: seq<Tick>, a: Worker, b: Worker, e: TimerEntry, r1: RequestId, r2: RequestId, d: Durations)
    returns (longer: seq<World>)
    requires |ws| == |ts| + 1 && Path(ws, ts, d) && WorldInv(ws[|ts|], d) && a != b
    requires var w := ws[|ts|];
      && a in w.polls && b in w.polls && w.polls[a] == w.polls[b] == Matched(e)
      && e.gameId in w.games && w.games[e.gameId].session.Some?
    ensures |longer| == |ws| + 2 && longer[..|ws|] == ws && Path(longer, ts + [Fired(a, r1)] + [Fired(b, r2)], d)
    ensures var w, w1, w2 := ws[|ts|], longer[|ws|], longer[|ws| + 1];
      && e.gameId in w1.games && e.gameId in w2.games && w1.now == w2.now == w.now && w1.games[e.gameId].session.Some?
      && SettlesTo(w.games[e.gameId].session.value, w1.games[e.gameId], w.now, d)
      && SettlesTo(w1.games[e.gameId].session.value, w2.games[e.gameId], w.now, d)
  {
    hide GameInv, WorldNext, WorldInv, Settled, Exec;
    var w := ws[|ts|];
    FiringSettles(w, a, r1, d);
    FiringKeepsOthers(w, a, b, r1, d);
    FiredKeepsInv(w, a, r1, d);
    longer := PathPush(ws, ts, Fired(a, r1), d);
    assert longer[|ts| + 1] == WorldNext(w, Fired(a, r1), d);
    FiringSettles(longer[|ts| + 1], b, r2, d);
    FiringKeepsOthers(longer[|ts| + 1], b, b, r2, d);
    longer := PathPush(longer, ts + [Fired(a, r1)], Fired(b, r2), d);
  }

  lemma DueIsCurrent(w: World, gameId: GameId)
    requires gameId in w.games && w.games[gameId].session.Some?
    requires var s := w.games[gameId].session.value; !s.phase.Finished? && s.phaseEndsAt.Some?
    ensures Current(w.games, TimerEntry(gameId, w.games[gameId].session.value.phaseEndsAt.value))
  {
  }

  lemma PathPush(ws: seq<World>, ts: seq<Tick>, t: Tick, d: Durations) returns (longer: seq<World>)
    requires Path(ws, ts, d) && Enabled(ws[|ts|], t)
    ensures longer == ws + [WorldNext(ws[|ts|], t, d)] && Path(longer, ts + [t], d)
  {
    hide Enabled, WorldNext;
    longer := ws + [WorldNext(ws[|ts|], t, d)];
  }

  lemma BothCompare(w: World, a: Worker, b: Worker, e: TimerEntry, d: Durations) returns (ws: seq<World>)
    requires WorldInv(w, d) && a != b && a !in w.polls && b !in w.polls && Current(w.games, e) && e.at <= w.now
    ensures Path(ws, [ListedDue(a, e), ListedDue(b, e), Checked(a), Checked(b)], d)
    ensures |ws| == 5 && ws[0] == w && WorldInv(ws[4], d)
    ensures ws[4].games == w.games && ws[4].now == w.now
    ensures forall x <- [a, b] :: x in ws[4].polls && ws[4].polls[x] == Matched(e)
  {
    hide GameInv, Path;
    assert e in w.timers by {
      assert Clocked(w.games[e.gameId], e.gameId, w.timers);
      assert e in OfGame(w.timers, e.gameId);
    }
    EmptyPath(w, d);
    ws := PathPush([w], [], ListedDue(a, e), d);
    ws := PathPush(ws, [] + [ListedDue(a, e)], ListedDue(b, e), d);
    ws := PathPush(ws, [] + [ListedDue(a, e)] + [ListedDue(b, e)], Checked(a), d);
    ws := PathPush(ws, [] + [ListedDue(a, e)] + [ListedDue(b, e)] + [Checked(a)], Checked(b), d);
    assert [] + [ListedDue(a, e)] + [ListedDue(b, e)] + [Checked(a)] + [Checked(b)]
        == [ListedDue(a, e), ListedDue(b, e), Checked(a), Checked(b)];
  }

  lemma EmptyPath(w: World, d: Durations)
    ensures Path([w], [], d)
  {
  }

  lemma FiringKeepsOthers(w: World, a: Worker, b: Worker, requestId: RequestId, d: Durations)
    requires Enabled(w, Fired(a, requestId)) && b in w.polls
    ensures WorldNext(w, Fired(a, requestId), d).now == w.now
    ensures b != a ==> b in WorldNext(w, Fired(a, requestId), d).polls
                       && WorldNext(w, Fired(a, requestId), d).polls[b] == w.polls[b]
  {
    hide Exec, TimersAfter;
  }

  // A discussion is followed by a voting nobody is executed in when no vote is cast.
  lemma NoVotesNoVictim(w: World, gameId: GameId, d: Durations)
    requires WorldInv(w, d) && gameId in w.games && w.games[gameId].session.Some?
    requires w.games[gameId].session.value.phase.DayDiscussion?
    ensures var once := Settled(w.games[gameId].session.value, w.now, d);
      && once.phase == Voting && once.phaseEndsAt == Some(w.now + d.voting)
      && Settled(once, w.now, d).phase == Phase.Result
  {
    hide Replay, Occurrences, Count, EvaluateWinner, MarkDead;
    NobodyLeadsNoVotes();
  }

  lemma NobodyLeadsNoVotes()
    ensures PluralityWinner(map[]) == None
  {
    var none: map<UserId, UserId> := map[];
    if PluralityWinner(none).Some? { LeaderHasVoter(none, PluralityWinner(none).value); }
  }

  // Whatever a firing does, its own deadline is not the session's afterwards.
  lemma FiringSpendsItsDeadline(w: World, worker: Worker, requestId: RequestId, d: Durations)
    requires WorldInv(w, d) && Enabled(w, Fired(worker, requestId))
    ensures !Current(WorldNext(w, Fired(worker, requestId), d).games, w.polls[worker].entry)
  {
    hide GameInv, ExecPhase;
    var e := w.polls[worker].entry;
    if e.gameId in w.games {
      PhaseClockStep(w.games[e.gameId], e.gameId, w.timers, requestId, None, w.now, d);
    }
  }
}
