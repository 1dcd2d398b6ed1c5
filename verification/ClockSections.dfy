// The clock of a game, section by section: every save of the session and every command on the
// deadline set is a step of its own, and pollers list, compare and drop between any two.
module ClockSections {
  import opened Common
  import opened Domain
  import opened Players
  import opened GameRules
  import opened RoomRules
  import opened GameSpec
  import opened Invariants
  import opened EventSourcing
  import opened PhaseTimers
  import opened LockedSections
  import opened GameClock

  // ---- The deadline commands of one section ----

  datatype TimerOp =
    | ReadGame  // read the game's entries
    | RemoveRead  // remove the entries read
    | AddEntry(e: TimerEntry)
    | RemoveEntry(e: TimerEntry)

  function OpsOf(gameId: GameId, e: Effect): seq<TimerOp> {
    if !e.Broadcast? || !(e.message.GameStartedMessage? || e.message.PhaseChangedMessage?) then []
    else if e.message.phaseEndsAt.None? then [ReadGame, RemoveRead]
    else [ReadGame, RemoveRead, AddEntry(TimerEntry(gameId, e.message.phaseEndsAt.value))]
  }

  function TimerOps(gameId: GameId, es: seq<Effect>): seq<TimerOp>
    decreases |es|
  {
    if es == [] then [] else OpsOf(gameId, es[0]) + TimerOps(gameId, es[1..])
  }

  // What a handler plans once it knows its answer: its effects' commands, and the fired entry.
  function Plan(gameId: GameId, answer: Result<seq<Effect>, Error>, fired: Option<TimerEntry>): seq<TimerOp> {
    (if answer.Ok? then TimerOps(gameId, answer.value) else [])
    + (if fired.Some? then [RemoveEntry(fired.value)] else [])
  }

  function NextRead(op: TimerOp, read: set<TimerEntry>, mine: set<TimerEntry>): set<TimerEntry> {
    if op.ReadGame? then mine else read
  }

  function NextMine(op: TimerOp, read: set<TimerEntry>, mine: set<TimerEntry>): set<TimerEntry> {
    match op
    case ReadGame => mine
    case RemoveRead => mine - read
    case AddEntry(e) => mine + {e}
    case RemoveEntry(e) => mine - {e}
  }

  // The game's own entries after the remaining commands, if nobody else touches them.
  function RunOps(ops: seq<TimerOp>, read: set<TimerEntry>, mine: set<TimerEntry>): set<TimerEntry>
    decreases |ops|
  {
    if ops == [] then mine else RunOps(ops[1..], NextRead(ops[0], read, mine), NextMine(ops[0], read, mine))
  }

  // Somebody else's removal of x commutes with all of them, unless x itself is added.
  lemma {:induction false} DropCommutes(ops: seq<TimerOp>, read: set<TimerEntry>, read': set<TimerEntry>, mine: set<TimerEntry>, x: TimerEntry)
    requires AddEntry(x) !in ops && read' - {x} == read - {x}
    ensures RunOps(ops, read', mine - {x}) == RunOps(ops, read, mine) - {x}
    decreases |ops|
  {
    if ops != [] {
      assert ops[0] in ops;
      var nextMine := NextMine(ops[0], read, mine);
      assert NextMine(ops[0], read', mine - {x}) == nextMine - {x} by {
        if ops[0].RemoveRead? { RemovalsAgree(mine, read, read', x); }
      }
      DropCommutes(ops[1..], NextRead(ops[0], read, mine), NextRead(ops[0], read', mine - {x}), nextMine, x);
    }
  }

  lemma RemovalsAgree(mine: set<TimerEntry>, read: set<TimerEntry>, read': set<TimerEntry>, x: TimerEntry)
    requires read' - {x} == read - {x}
    ensures (mine - {x}) - read' == (mine - read) - {x}
  {
    forall e ensures e in (mine - {x}) - read' <==> e in (mine - read) - {x} {
      assert e in read' - {x} <==> e in read - {x};
    }
  }

  // ---- The world ----

  // A section in progress: the game and input it began with, what is left of its operations,
  // and then of its deadline commands.
  datatype Work = Work(
    before: Game, input: Input, todo: seq<Operation>, memory: Memory, fired: Option<TimerEntry>,
    answered: bool, timerTodo: seq<TimerOp>, read: set<TimerEntry>)

  datatype FineWorld = FineWorld(
    games: map<GameId, Game>, timers: set<TimerEntry>, now: Millis,
    polls: map<Worker, Poll>, works: map<GameId, Work>)

  datatype FineTick =
    | Passed(ms: nat)
    | Opened(gameId: GameId, host: UserId, maxPlayers: nat)
    | Began(gameId: GameId, input: Input, firing: Option<Worker>)
    | Operated(gameId: GameId)
    | Responded(gameId: GameId)
    | Commanded(gameId: GameId)
    | Left(gameId: GameId)
    | PollListed(worker: Worker, entry: TimerEntry)
    | PollChecked(worker: Worker)
    | PollDropped(worker: Worker)
    | PollGaveUp(worker: Worker)

  // The operations before a section's first use of the clock only read or save the room, which
  // no poller reads; they are one step with it.
  function HeadLength(input: Input): nat {
    match input
    case Timer(_, _) => 1
    case Client(_, _, _, command) => if command.AdvancePhase? || command.StartGame? then 2 else 0
    case _ => 0
  }

  datatype Begun = Begun(todo: seq<Operation>, memory: Memory, game: Game)

  ghost function AfterHead(n: nat, ops: seq<Operation>, m: Memory, g: Game): Begun {
    if n == 0 || ops == [] then Begun(ops, m, g)
    else
      var (m', w) := Perform(ops[0], m, g);
      AfterHead(n - 1, ops[1..], m', Applied(g, w))
  }

  ghost predicate FineEnabled(w: FineWorld, t: FineTick) {
    match t
    case Passed(_) => true
    case Opened(gameId, _, maxPlayers) => gameId !in w.games && gameId !in w.works && maxPlayers >= 2
    case Began(gameId, input, worker) =>
      && gameId in w.games && gameId !in w.works && Possible(w.games[gameId], input)
      && (input.Client? || input.Timer? ==> input.now == w.now)
      && (worker.Some? <==> input.Timer?)
      && (worker.Some? ==> worker.value in w.polls && w.polls[worker.value].Matched?
                           && w.polls[worker.value].entry.gameId == gameId)
    case Operated(gameId) => gameId in w.works && gameId in w.games && w.works[gameId].todo != []
    case Responded(gameId) => gameId in w.works && w.works[gameId].todo == [] && !w.works[gameId].answered
    case Commanded(gameId) => gameId in w.works && w.works[gameId].answered && w.works[gameId].timerTodo != []
    case Left(gameId) => gameId in w.works && w.works[gameId].answered && w.works[gameId].timerTodo == []
    case PollListed(worker, entry) => worker !in w.polls && entry in w.timers && entry.at <= w.now
    case PollChecked(worker) => worker in w.polls && w.polls[worker].Listed?
    case PollDropped(worker) => worker in w.polls && w.polls[worker].Stale?
    case PollGaveUp(worker) => worker in w.polls
  }

  // The command acts on the whole set; only entries of its game are read or written.
  function Commanding(op: TimerOp, gameId: GameId, read: set<TimerEntry>, timers: set<TimerEntry>): set<TimerEntry> {
    match op
    case ReadGame => timers
    case RemoveRead => timers - read
    case AddEntry(e) => timers + {e}
    case RemoveEntry(e) => timers - {e}
  }

  ghost function FineNext(w: FineWorld, t: FineTick, d: Durations): FineWorld
    requires FineEnabled(w, t)
  {
    match t
    case Passed(ms) => w.(now := w.now + ms)
    case Opened(gameId, host, maxPlayers) => w.(games := w.games[gameId := NewGame(host, maxPlayers)])
    case Began(gameId, input, worker) =>
      var b := AfterHead(HeadLength(input), Program(input, d), START, w.games[gameId]);
      var fired := if worker.Some? then Some(w.polls[worker.value].entry) else None;
      w.(games := w.games[gameId := b.game],
         polls := if worker.Some? then w.polls - {worker.value} else w.polls,
         works := w.works[gameId := Work(w.games[gameId], input, b.todo, b.memory, fired, false, [], {})])
    case Operated(gameId) =>
      var k := w.works[gameId];
      var (m, write) := Perform(k.todo[0], k.memory, w.games[gameId]);
      w.(games := w.games[gameId := Applied(w.games[gameId], write)],
         works := w.works[gameId := k.(todo := k.todo[1..], memory := m)])
    case Responded(gameId) =>
      var k := w.works[gameId];
      w.(works := w.works[gameId := k.(answered := true, timerTodo := Plan(gameId, Answer(k.memory), k.fired))])
    case Commanded(gameId) =>
      var k := w.works[gameId];
      w.(timers := Commanding(k.timerTodo[0], gameId, k.read, w.timers),
         works := w.works[gameId := k.(timerTodo := k.timerTodo[1..],
                                       read := NextRead(k.timerTodo[0], k.read, OfGame(w.timers, gameId)))])
    case Left(gameId) => w.(works := w.works - {gameId})
    case PollListed(worker, entry) => w.(polls := w.polls[worker := Listed(entry)])
    case PollChecked(worker) =>
      var e := w.polls[worker].entry;
      w.(polls := w.polls[worker := if Current(w.games, e) then Matched(e) else Stale(e)])
    case PollDropped(worker) =>
      w.(timers := w.timers - {w.polls[worker].entry}, polls := w.polls - {worker})
    case PollGaveUp(worker) => w.(polls := w.polls - {worker})
  }

  // ---- The invariant ----

  predicate Unfinished(g: Game) {
    g.session.Some? && !g.session.value.phase.Finished?
  }

  // Exactly one entry, at the deadline.
  predicate OnTime(g: Game, gameId: GameId, mine: set<TimerEntry>) {
    Unfinished(g) ==>
      g.session.value.phaseEndsAt.Some? && mine == {TimerEntry(gameId, g.session.value.phaseEndsAt.value)}
  }

  predicate ReadsClock(op: Operation) {
    op.AdvanceSession? || op.CreateSession?
  }

  predicate OwnOp(op: TimerOp, gameId: GameId) {
    (op.AddEntry? || op.RemoveEntry?) ==> op.e.gameId == gameId
  }

  ghost function Remaining(k: Work, gameId: GameId, d: Durations): seq<TimerOp> {
    if k.answered then k.timerTodo else Plan(gameId, Exec(k.before, k.input, d).result, k.fired)
  }

  ghost predicate WorkInv(g: Game, k: Work, gameId: GameId, mine: set<TimerEntry>, d: Durations) {
    var out, ops := Exec(k.before, k.input, d), Remaining(k, gameId, d);
    && GameInv(out.game, d)
    && Complete(k.todo, k.memory, g) == out
    && (forall op <- k.todo :: !ReadsClock(op))
    && (k.answered ==> k.todo == [])
    && OnTime(out.game, gameId, RunOps(ops, k.read, mine))
    && (forall op <- ops :: OwnOp(op, gameId))
    && (forall e <- k.read :: e.gameId == gameId)
    && (Unfinished(out.game) ==> forall op <- ops :: op.AddEntry? ==> out.game.session.value.phaseEndsAt == Some(op.e.at))
  }

  ghost predicate ClockInv(w: FineWorld, gameId: GameId, d: Durations)
    requires gameId in w.games
  {
    if gameId in w.works then WorkInv(w.games[gameId], w.works[gameId], gameId, OfGame(w.timers, gameId), d)
    else GameInv(w.games[gameId], d) && OnTime(w.games[gameId], gameId, OfGame(w.timers, gameId))
  }

  ghost predicate PollInv(w: FineWorld, worker: Worker)
    requires worker in w.polls
  {
    w.polls[worker].entry.at <= w.now && (w.polls[worker].Stale? ==> !Current(w.games, w.polls[worker].entry))
  }

  ghost predicate FineInv(w: FineWorld, d: Durations) {
    && w.works.Keys <= w.games.Keys
    && (forall gameId <- w.games :: ClockInv(w, gameId, d))
    && (forall worker <- w.polls :: PollInv(w, worker))
  }

  // ---- Operations and the clock ----

  // An operation that does not read the clock keeps the deadline or ends the game.
  lemma QuietOperation(op: Operation, m: Memory, g: Game)
    requires !ReadsClock(op)
    ensures var h := Applied(g, Perform(op, m, g).1);
      Unfinished(h) ==> Unfinished(g) && h.session.value.phaseEndsAt == g.session.value.phaseEndsAt
  {
    hide PluralityWinner, EvaluateWinner, MarkDead, IndexOf, Get, ChatRefusal, ChatEffects, PhaseEntries, PhaseEffects, NightVictim;
  }

  lemma {:induction false} QuietRest(todo: seq<Operation>, m: Memory, g: Game)
    requires forall op <- todo :: !ReadsClock(op)
    ensures var h := Complete(todo, m, g).game;
      Unfinished(h) ==> Unfinished(g) && h.session.value.phaseEndsAt == g.session.value.phaseEndsAt
    decreases |todo|
  {
    hide Perform, Applied;
    if todo != [] {
      assert todo[0] in todo;
      var (m', w) := Perform(todo[0], m, g);
      QuietOperation(todo[0], m, g);
      QuietRest(todo[1..], m', Applied(g, w));
    }
  }

  lemma {:induction false} HeadThenRest(n: nat, ops: seq<Operation>, m: Memory, g: Game)
    ensures var b := AfterHead(n, ops, m, g); Complete(b.todo, b.memory, b.game) == Complete(ops, m, g)
    decreases n
  {
    hide Perform;
    if n > 0 && ops != [] {
      var (m', w) := Perform(ops[0], m, g);
      HeadThenRest(n - 1, ops[1..], m', Applied(g, w));
    }
  }

  lemma {:induction false} HeadDrops(n: nat, ops: seq<Operation>, m: Memory, g: Game)
    requires n <= |ops|
    ensures AfterHead(n, ops, m, g).todo == ops[n..]
    decreases n
  {
    hide Perform;
    if n > 0 { HeadDrops(n - 1, ops[1..], Perform(ops[0], m, g).0, Applied(g, Perform(ops[0], m, g).1)); }
  }

  lemma RestIsQuiet(input: Input, d: Durations, g: Game)
    ensures forall op <- AfterHead(HeadLength(input), Program(input, d), START, g).todo :: !ReadsClock(op)
  {
    hide AfterHead;
    HeadDrops(HeadLength(input), Program(input, d), START, g);
  }

  // The head leaves the session alone or gives it a deadline that is still to come.
  lemma HeadClock(input: Input, d: Durations, g: Game)
    requires input.Client? || input.Timer?
    ensures var h := AfterHead(HeadLength(input), Program(input, d), START, g).game;
      h.session == g.session
      || (h.session.Some? && (h.session.value.phaseEndsAt.Some? ==> h.session.value.phaseEndsAt.value > input.now))
  {
    hide Join, Leave, ChangeReady, Start, RoleEntries, RoleEffects, DealtPlayers, ChatRefusal;
    var ops := Program(input, d);
    if HeadLength(input) >= 1 {
      var (m1, w1) := Perform(ops[0], START, g);
      var g1 := Applied(g, w1);
      assert AfterHead(HeadLength(input), ops, START, g) == AfterHead(HeadLength(input) - 1, ops[1..], m1, g1);
      if HeadLength(input) == 2 {
        var (m2, w2) := Perform(ops[1], m1, g1);
        assert AfterHead(1, ops[1..], m1, g1) == AfterHead(0, ops[1..][1..], m2, Applied(g1, w2));
      }
    }
  }

  // ---- What a section plans ----

  lemma {:induction false} InertPlans(gameId: GameId, es: seq<Effect>)
    requires forall e <- es :: Inert(e)
    ensures TimerOps(gameId, es) == []
    decreases |es|
  {
    if es != [] {
      assert Inert(es[0]);
      InertPlans(gameId, es[1..]);
    }
  }

  lemma FirstPlans(gameId: GameId, es: seq<Effect>)
    requires es != [] && forall e <- es[1..] :: Inert(e)
    ensures TimerOps(gameId, es) == OpsOf(gameId, es[0])
  {
    InertPlans(gameId, es[1..]);
    assert OpsOf(gameId, es[0]) + [] == OpsOf(gameId, es[0]);
  }

  // Either nothing is planned and the clock stays, or it is replaced by a later one.
  ghost predicate Planned(g: Game, out: Outcome, gameId: GameId, now: Millis) {
    var ops := if out.result.Ok? then TimerOps(gameId, out.result.value) else [];
    || (ops == [] && SameClock(g.session, out.game.session))
    || (exists at :: at > now && ops == [ReadGame, RemoveRead, AddEntry(TimerEntry(gameId, at))]
          && out.game.session.Some?
          && (!out.game.session.value.phase.Finished? ==> out.game.session.value.phaseEndsAt == Some(at)))
  }

  lemma PhasePlanned(g: Game, gameId: GameId, requestId: RequestId, caller: Option<UserId>, now: Millis, d: Durations)
    requires GameInv(g, d)
    ensures Planned(g, ExecPhase(g, requestId, caller, now, d), gameId, now)
    ensures Unfinished(g) ==> !(ExecPhase(g, requestId, caller, now, d).result.Err?)
  {
    hide SessionInv, Replay, Occurrences, PhaseStep, Count, TimerOps;
    if g.session.Some? && !g.session.value.phase.Finished? {
      var s := g.session.value;
      var r := SettledReport(s, now, d);
      NotWaiting(s);
      PhaseStepSettles(s, now, d);
      assert r.phaseEndsAt.Some? && r.phaseEndsAt.value > now;
      FirstPlans(gameId, PhaseEffects(r, caller));
    } else if g.session.Some? {
      PhaseStepSettles(g.session.value, now, d);
    }
  }

  lemma StartPlanned(g: Game, gameId: GameId, user: UserId, deal: seq<Assignment>, requestId: RequestId, now: Millis, d: Durations)
    ensures Planned(g, ExecStart(g, user, deal, requestId, now, d), gameId, now)
  {
    hide TimerOps;
    var out := ExecStart(g, user, deal, requestId, now, d);
    if out.result.Ok? { FirstPlans(gameId, out.result.value); }
  }

  lemma QuietPlanned(g: Game, out: Outcome, gameId: GameId, now: Millis)
    requires out.result.Ok? ==> forall e <- out.result.value :: Inert(e)
    requires SameClock(g.session, out.game.session)
    ensures Planned(g, out, gameId, now)
  {
    hide TimerOps;
    if out.result.Ok? { InertPlans(gameId, out.result.value); }
  }

  lemma ExecPlanned(g: Game, gameId: GameId, input: Input, now: Millis, d: Durations)
    requires GameInv(g, d) && (input.Client? || input.Timer? ==> input.now == now)
    ensures Planned(g, Exec(g, input, d), gameId, now)
  {
    hide GameInv, Planned, ExecStart, ExecPhase, CanAdvancePhase;
    if input.Timer? {
      PhasePlanned(g, gameId, input.requestId, None, now, d);
    } else if input.Client? && input.command.StartGame? {
      StartPlanned(g, gameId, input.user, input.command.deal, input.requestId, now, d);
    } else if ReplacesClock(g, input) {
      PhasePlanned(g, gameId, input.requestId, Some(input.user), now, d);
    } else {
      OthersAreQuiet(g, input, d);
      QuietPlanned(g, Exec(g, input, d), gameId, now);
    }
  }

  // Running the plan on a game that is on time leaves the next game on time; the fired entry,
  // if any, was due and is not the new one.
  lemma PlanIsOnTime(g: Game, out: Outcome, gameId: GameId, now: Millis, fired: Option<TimerEntry>, mine: set<TimerEntry>)
    requires Planned(g, out, gameId, now) && OnTime(g, gameId, mine) && forall e <- mine :: e.gameId == gameId
    requires fired.Some? ==> fired.value.gameId == gameId && fired.value.at <= now && (out.result.Err? || TimerOps(gameId, out.result.value) == [] ==> !Unfinished(out.game))
    ensures var ops := Plan(gameId, out.result, fired);
      && OnTime(out.game, gameId, RunOps(ops, {}, mine))
      && (forall op <- ops :: OwnOp(op, gameId))
      && (Unfinished(out.game) ==> forall op <- ops :: op.AddEntry? ==> out.game.session.value.phaseEndsAt == Some(op.e.at))
  {
    var effects := if out.result.Ok? then TimerOps(gameId, out.result.value) else [];
    var last := if fired.Some? then [RemoveEntry(fired.value)] else [];
    var ops := Plan(gameId, out.result, fired);
    assert ops == effects + last;
    if effects == [] {
      assert ops == last;
      if fired.Some? { assert ops[1..] == []; }
    } else {
      var at :| at > now && effects == [ReadGame, RemoveRead, AddEntry(TimerEntry(gameId, at))]
        && out.game.session.Some?
        && (!out.game.session.value.phase.Finished? ==> out.game.session.value.phaseEndsAt == Some(at));
      ReplacedBy(ops, mine, TimerEntry(gameId, at), last);
      assert mine - mine == {};
      if fired.Some? { assert last[1..] == []; }
    }
  }

  lemma ReplacedBy(ops: seq<TimerOp>, mine: set<TimerEntry>, e: TimerEntry, last: seq<TimerOp>)
    requires ops == [ReadGame, RemoveRead, AddEntry(e)] + last
    ensures RunOps(ops, {}, mine) == RunOps(last, mine, {e})
  {
    assert ops[1..] == [RemoveRead, AddEntry(e)] + last && ops[1..][1..] == [AddEntry(e)] + last;
    assert ops[1..][1..][1..] == last;
    assert RunOps(ops, {}, mine) == RunOps(ops[1..], mine, mine);
    assert RunOps(ops[1..], mine, mine) == RunOps(ops[1..][1..], mine, mine - mine);
    assert mine - mine + {e} == {e};
    assert RunOps(ops[1..][1..], mine, mine - mine) == RunOps(last, mine, mine - mine + {e});
  }

  // ---- Each tick ----

  lemma ClockInvDepends(w: FineWorld, w': FineWorld, gameId: GameId, d: Durations)
    requires gameId in w.games && gameId in w'.games && ClockInv(w, gameId, d)
    requires w'.games[gameId] == w.games[gameId]
    requires (gameId in w'.works <==> gameId in w.works) && (gameId in w.works ==> w'.works[gameId] == w.works[gameId])
    requires OfGame(w'.timers, gameId) == OfGame(w.timers, gameId)
    ensures ClockInv(w', gameId, d)
  {
    hide WorkInv, GameInv, OnTime, OfGame;
  }

  lemma FineParts(w: FineWorld, d: Durations, gameId: GameId)
    requires FineInv(w, d) && gameId in w.games
    ensures ClockInv(w, gameId, d)
  {
  }

  lemma BeganWork(w: FineWorld, gameId: GameId, input: Input, firing: Option<Worker>, d: Durations)
    requires FineInv(w, d) && FineEnabled(w, Began(gameId, input, firing))
    ensures ClockInv(FineNext(w, Began(gameId, input, firing), d), gameId, d)
  {
    hide GameInv, Exec, AfterHead, Program, Complete, Possible, Planned, TimerOps, OnTime, RunOps;
    FineParts(w, d, gameId);
    var g, b := w.games[gameId], AfterHead(HeadLength(input), Program(input, d), START, w.games[gameId]);
    var mine := OfGame(w.timers, gameId);
    var fired := if firing.Some? then Some(w.polls[firing.value].entry) else None;
    assert firing.Some? ==> PollInv(w, firing.value);
    ExecKeepsInv(g, input, d);
    HeadThenRest(HeadLength(input), Program(input, d), START, g);
    ProgramIsWhole(input, d, g);
    RestIsQuiet(input, d, g);
    ExecPlanned(g, gameId, input, w.now, d);
    if input.Timer? { FiringPlans(g, gameId, input.requestId, w.now, d); }
    PlanIsOnTime(g, Exec(g, input, d), gameId, w.now, fired, mine);
  }

  // A firing that plans nothing finds the game over, or no game at all.
  lemma FiringPlans(g: Game, gameId: GameId, requestId: RequestId, now: Millis, d: Durations)
    requires GameInv(g, d)
    ensures var out := Exec(g, Timer(requestId, now), d);
      out.result.Err? || TimerOps(gameId, out.result.value) == [] ==> !Unfinished(out.game)
  {
    hide SessionInv, Replay, Occurrences, PhaseStep, Count, TimerOps;
    if g.session.Some? {
      PhaseStepSettles(g.session.value, now, d);
      if Unfinished(g) {
        NotWaiting(g.session.value);
        FirstPlans(gameId, PhaseEffects(SettledReport(g.session.value, now, d), None));
      }
    }
  }

  lemma BeganPoll(w: FineWorld, gameId: GameId, input: Input, firing: Option<Worker>, d: Durations, e: TimerEntry)
    requires FineEnabled(w, Began(gameId, input, firing)) && e.at <= w.now && !Current(w.games, e)
    ensures !Current(FineNext(w, Began(gameId, input, firing), d).games, e)
  {
    hide AfterHead, Program, Possible;
    if input.Client? || input.Timer? {
      HeadClock(input, d, w.games[gameId]);
    } else {
      NoHead(Program(input, d), w.games[gameId]);
    }
  }

  lemma NoHead(ops: seq<Operation>, g: Game)
    ensures AfterHead(0, ops, START, g).game == g
  {
  }

  lemma OperatedWork(w: FineWorld, gameId: GameId, d: Durations)
    requires FineInv(w, d) && FineEnabled(w, Operated(gameId))
    ensures ClockInv(FineNext(w, Operated(gameId), d), gameId, d)
    ensures forall e :: Current(FineNext(w, Operated(gameId), d).games, e) ==> Current(w.games, e)
  {
    hide GameInv, Exec, Perform, Applied, OnTime, RunOps, Plan;
    FineParts(w, d, gameId);
    var k := w.works[gameId];
    assert k.todo[0] in k.todo;
    QuietOperation(k.todo[0], k.memory, w.games[gameId]);
  }

  lemma RespondedWork(w: FineWorld, gameId: GameId, d: Durations)
    requires FineInv(w, d) && FineEnabled(w, Responded(gameId))
    ensures ClockInv(FineNext(w, Responded(gameId), d), gameId, d)
  {
    hide GameInv, Exec, OnTime, RunOps, Plan;
    FineParts(w, d, gameId);
  }

  // A command of one game changes that game's entries and no other's.
  lemma CommandingOwn(op: TimerOp, gameId: GameId, read: set<TimerEntry>, timers: set<TimerEntry>)
    requires OwnOp(op, gameId) && forall e <- read :: e.gameId == gameId
    ensures OfGame(Commanding(op, gameId, read, timers), gameId) == NextMine(op, read, OfGame(timers, gameId))
    ensures forall other | other != gameId :: OfGame(Commanding(op, gameId, read, timers), other) == OfGame(timers, other)
    ensures forall e <- NextRead(op, read, OfGame(timers, gameId)) :: e.gameId == gameId
  {
  }

  lemma CommandedWork(w: FineWorld, gameId: GameId, d: Durations)
    requires FineInv(w, d) && FineEnabled(w, Commanded(gameId))
    ensures gameId in w.games
    ensures ClockInv(FineNext(w, Commanded(gameId), d), gameId, d)
    ensures forall other | other != gameId :: OfGame(FineNext(w, Commanded(gameId), d).timers, other) == OfGame(w.timers, other)
  {
    hide GameInv, Exec, OnTime, Plan, Complete, OfGame, NextMine, NextRead, Commanding;
    assert gameId in w.games;
    FineParts(w, d, gameId);
    var k := w.works[gameId];
    assert k.timerTodo[0] in k.timerTodo;
    CommandingOwn(k.timerTodo[0], gameId, k.read, w.timers);
  }

  lemma LeftWork(w: FineWorld, gameId: GameId, d: Durations)
    requires FineInv(w, d) && FineEnabled(w, Left(gameId))
    ensures gameId in w.games && ClockInv(FineNext(w, Left(gameId), d), gameId, d)
  {
    hide GameInv, Exec, OfGame;
    assert gameId in w.games;
    FineParts(w, d, gameId);
  }

  // Dropping an entry that is no game's deadline disturbs neither an idle game nor one at work.
  lemma DroppedClock(w: FineWorld, x: TimerEntry, d: Durations, gameId: GameId)
    requires FineInv(w, d) && gameId in w.games && !Current(w.games, x)
    ensures ClockInv(w.(timers := w.timers - {x}), gameId, d)
  {
    hide GameInv, Exec, Complete, RunOps, Plan;
    FineParts(w, d, gameId);
    var w' := w.(timers := w.timers - {x});
    var mine := OfGame(w.timers, gameId);
    assert OfGame(w'.timers, gameId) == mine - {x};
    if gameId in w.works {
      var k := w.works[gameId];
      var out := Exec(k.before, k.input, d);
      QuietRest(k.todo, k.memory, w.games[gameId]);
      if Unfinished(out.game) {
        var next := TimerEntry(gameId, out.game.session.value.phaseEndsAt.value);
        assert x != next;
        var ops := Remaining(k, gameId, d);
        if x.gameId == gameId { DropCommutes(ops, k.read, k.read, mine, x); } else { assert mine - {x} == mine; }
      }
    }
  }

  // ---- Every tick and every run ----

  lemma TickKeepsClocks(w: FineWorld, t: FineTick, d: Durations, gameId: GameId)
    requires FineInv(w, d) && FineEnabled(w, t) && gameId in FineNext(w, t, d).games
    ensures ClockInv(FineNext(w, t, d), gameId, d)
  {
    hide GameInv, ClockInv, Perform, AfterHead, Program, OfGame, Commanding, Plan, NextRead, Possible, Applied;
    var w' := FineNext(w, t, d);
    if gameId in w.games { FineParts(w, d, gameId); }
    match t
    case Began(id, input, firing) =>
      if id == gameId { BeganWork(w, id, input, firing, d); } else { ClockInvDepends(w, w', gameId, d); }
    case Operated(id) =>
      if id == gameId { OperatedWork(w, id, d); } else { ClockInvDepends(w, w', gameId, d); }
    case Responded(id) =>
      if id == gameId { RespondedWork(w, id, d); } else { ClockInvDepends(w, w', gameId, d); }
    case Commanded(id) =>
      CommandedWork(w, id, d);
      if id != gameId { ClockInvDepends(w, w', gameId, d); }
    case Left(id) =>
      if id == gameId { LeftWork(w, id, d); } else { ClockInvDepends(w, w', gameId, d); }
    case PollDropped(worker) =>
      assert PollInv(w, worker);
      DroppedClock(w, w.polls[worker].entry, d, gameId);
      ClockInvDepends(w.(timers := w'.timers), w', gameId, d);
    case Opened(id, host, maxPlayers) =>
      if id == gameId { OpenedClock(w, id, host, maxPlayers, d); } else { ClockInvDepends(w, w', gameId, d); }
    case _ => ClockInvDepends(w, w', gameId, d);
  }

  lemma OpenedClock(w: FineWorld, gameId: GameId, host: UserId, maxPlayers: nat, d: Durations)
    requires FineEnabled(w, Opened(gameId, host, maxPlayers))
    ensures ClockInv(FineNext(w, Opened(gameId, host, maxPlayers), d), gameId, d)
  {
    NewGameInv(host, maxPlayers, d);
  }

  lemma TickKeepsPolls(w: FineWorld, t: FineTick, d: Durations, worker: Worker)
    requires FineInv(w, d) && FineEnabled(w, t) && worker in FineNext(w, t, d).polls
    ensures PollInv(FineNext(w, t, d), worker)
  {
    hide ClockInv, Perform, AfterHead, Program, Commanding, Plan, NextRead, Possible, Applied;
    if worker in w.polls { assert PollInv(w, worker); }
    match t
    case Began(id, input, firing) =>
      if w.polls[worker].Stale? { BeganPoll(w, id, input, firing, d, w.polls[worker].entry); }
    case Operated(id) => OperatedWork(w, id, d);
    case _ =>
  }

  lemma TickKeepsFineInv(w: FineWorld, t: FineTick, d: Durations)
    requires FineInv(w, d) && FineEnabled(w, t)
    ensures FineInv(FineNext(w, t, d), d)
  {
    hide ClockInv, PollInv, Perform, AfterHead, Program, Commanding, Plan, NextRead, Possible, Applied;
    var w' := FineNext(w, t, d);
    assert w'.works.Keys <= w'.games.Keys;
    forall gameId | gameId in w'.games ensures ClockInv(w', gameId, d) { TickKeepsClocks(w, t, d, gameId); }
    forall worker | worker in w'.polls ensures PollInv(w', worker) { TickKeepsPolls(w, t, d, worker); }
  }

  const EMPTY_FINE := FineWorld(map[], {}, 0, map[], map[])

  ghost predicate FineRun(ws: seq<FineWorld>, ts: seq<FineTick>, d: Durations) {
    && |ws| == |ts| + 1
    && ws[0] == EMPTY_FINE
    && forall i | 0 <= i < |ts| :: FineEnabled(ws[i], ts[i]) && ws[i + 1] == FineNext(ws[i], ts[i], d)
  }

  lemma {:induction false} RunsKeepFineInv(ws: seq<FineWorld>, ts: seq<FineTick>, d: Durations, n: nat)
    requires FineRun(ws, ts, d) && n <= |ts|
    ensures FineInv(ws[n], d)
  {
    hide FineEnabled, FineNext, ClockInv, PollInv;
    if n > 0 {
      RunsKeepFineInv(ws, ts, d, n - 1);
      TickKeepsFineInv(ws[n - 1], ts[n - 1], d);
    }
  }

  // In every run of single saves, single commands on the deadline set and unlocked polling, a
  // game that no section is working on and that is not over has exactly one entry, at its deadline.
  lemma IdleGamesAreClocked(ws: seq<FineWorld>, ts: seq<FineTick>, d: Durations, n: nat, gameId: GameId)
    requires FineRun(ws, ts, d) && n <= |ts|
    requires gameId in ws[n].games && gameId !in ws[n].works && Unfinished(ws[n].games[gameId])
    ensures var endsAt := ws[n].games[gameId].session.value.phaseEndsAt;
      endsAt.Some? && forall e :: e in ws[n].timers && e.gameId == gameId <==> e == TimerEntry(gameId, endsAt.value)
  {
    hide GameInv, FineEnabled, FineNext, WorkInv;
    RunsKeepFineInv(ws, ts, d, n);
    FineParts(ws[n], d, gameId);
    var endsAt := ws[n].games[gameId].session.value.phaseEndsAt;
    forall e ensures e in ws[n].timers && e.gameId == gameId <==> e == TimerEntry(gameId, endsAt.value) {
      assert e in OfGame(ws[n].timers, gameId) <==> e in ws[n].timers && e.gameId == gameId;
    }
  }

  // And a section at work cannot lose it either: finishing it alone leaves the game on time.
  lemma WorkEndsOnTime(ws: seq<FineWorld>, ts: seq<FineTick>, d: Durations, n: nat, gameId: GameId)
    requires FineRun(ws, ts, d) && n <= |ts|
    requires gameId in ws[n].games && gameId in ws[n].works
    ensures var k := ws[n].works[gameId];
      var out := Exec(k.before, k.input, d);
      && Complete(k.todo, k.memory, ws[n].games[gameId]) == out
      && OnTime(out.game, gameId, RunOps(Remaining(k, gameId, d), k.read, OfGame(ws[n].timers, gameId)))
  {
    hide GameInv, FineEnabled, FineNext, Complete, Exec, OnTime, RunOps, Remaining;
    RunsKeepFineInv(ws, ts, d, n);
    FineParts(ws[n], d, gameId);
  }
}
