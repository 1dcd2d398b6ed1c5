// Runs from an empty room that reach the cases the other modules speak of. Any four or more
// users, a room with at least as many seats, any deal of roles to them and any phase lengths
// will do; every step is a client's.
module PlayedRuns {
  import opened Common
  import opened Domain
  import opened Players
  import opened GameRules
  import opened RoomRules
  import opened GameSpec
  import opened Invariants
  import opened EventSourcing
  import opened GameRuns
  import opened PhaseTimers
  import opened GameClock
  import opened LockedSections

  // The inputs are possible, all of clients at time zero, and lead a room of us[0], with that
  // many seats, to g.
  ghost predicate LeadTo(us: seq<UserId>, seats: nat, inputs: seq<Input>, g: Game, d: Durations) {
    && 4 <= |us| <= seats && Distinct(us)
    && CanPlay(us[0], seats, inputs, d)
    && Played(us[0], seats, inputs, d) == g
    && forall i | 0 <= i < |inputs| :: inputs[i].Client? && inputs[i].now == 0
  }

  function By(user: UserId, requestId: RequestId, command: Command): Input {
    Client(user, requestId, 0, command)
  }

  lemma PlayOn(us: seq<UserId>, seats: nat, inputs: seq<Input>, g: Game, input: Input, d: Durations) returns (longer: seq<Input>)
    requires LeadTo(us, seats, inputs, g, d) && input.Client? && input.now == 0 && Possible(g, input)
    ensures longer == inputs + [input] && LeadTo(us, seats, longer, Exec(g, input, d).game, d)
  {
    hide Exec, Possible;
    longer := inputs + [input];
    assert ButLast(longer) == inputs;
    var g0 := NewGame(us[0], seats);
    forall i | 0 <= i < |longer| ensures Possible(Run(g0, longer[..i], d), longer[i]) {
      assert longer[..i] == inputs[..i];
      if i == |inputs| { assert inputs[..i] == inputs; }
    }
  }

  function Seats(us: seq<UserId>, ready: nat): (ps: seq<Participant>)
    ensures |ps| == |us|
  {
    seq(|us|, i requires 0 <= i < |us| => Participant(us[i], i < ready))
  }

  lemma SeatAt(us: seq<UserId>, ready: nat, k: nat)
    requires Distinct(us) && k < |us|
    ensures ParticipantIndex(Seats(us, ready), us[k]) == k
  {
    assert Seats(us, ready)[k].userId == us[k];
  }

  lemma NotSeated(us: seq<UserId>, k: nat, ready: nat)
    requires Distinct(us) && k < |us|
    ensures ParticipantIndex(Seats(us[..k], ready), us[k]) < 0
  {
  }

  lemma {:induction false} JoinedRoom(us: seq<UserId>, seats: nat, k: nat, r: RequestId, d: Durations) returns (inputs: seq<Input>, g: Game)
    requires 4 <= |us| <= seats && Distinct(us) && 1 <= k <= |us|
    ensures LeadTo(us, seats, inputs, g, d)
    ensures g.session.None? && g.room == Some(Room(us[0], WaitingRoom, seats, Seats(us[..k], 0)))
  {
    if k == 1 {
      inputs, g := [], NewGame(us[0], seats);
      assert Seats(us[..1], 0) == [Participant(us[0], false)];
    } else {
      var g0;
      inputs, g0 := JoinedRoom(us, seats, k - 1, r, d);
      var input := By(us[k - 1], r, JoinRoom);
      g := Exec(g0, input, d).game;
      NotSeated(us, k - 1, 0);
      assert Seats(us[..k], 0) == Seats(us[..k - 1], 0) + [Participant(us[k - 1], false)];
      inputs := PlayOn(us, seats, inputs, g0, input, d);
    }
  }

  lemma {:induction false} ReadyRoom(us: seq<UserId>, seats: nat, k: nat, r: RequestId, d: Durations) returns (inputs: seq<Input>, g: Game)
    requires 4 <= |us| <= seats && Distinct(us) && k <= |us|
    ensures LeadTo(us, seats, inputs, g, d)
    ensures g.session.None? && g.room == Some(Room(us[0], WaitingRoom, seats, Seats(us, k)))
  {
    if k == 0 {
      inputs, g := JoinedRoom(us, seats, |us|, r, d);
      assert us[..|us|] == us;
    } else {
      var g0;
      inputs, g0 := ReadyRoom(us, seats, k - 1, r, d);
      var input := By(us[k - 1], r, ChangeReadyState(true));
      g := Exec(g0, input, d).game;
      SeatAt(us, k - 1, k - 1);
      assert Seats(us, k) == Seats(us, k - 1)[k - 1 := Participant(us[k - 1], true)];
      inputs := PlayOn(us, seats, inputs, g0, input, d);
    }
  }

  // Any four or more in a room, seats left free or not, can get ready and be started with
  // every deal.
  lemma StartedGame(us: seq<UserId>, seats: nat, deal: seq<Assignment>, r: RequestId, d: Durations) returns (inputs: seq<Input>, g: Game)
    requires 4 <= |us| <= seats && Distinct(us) && IsDeal(us, deal)
    ensures LeadTo(us, seats, inputs, g, d)
    ensures g.room == Some(Room(us[0], InProgress, seats, Seats(us, |us|)))
    ensures g.session == Some(NewSession(us[0], DealtPlayers(deal), 0, d))
  {
    hide IsDeal, NewSession;
    var g0;
    inputs, g0 := ReadyRoom(us, seats, |us|, r, d);
    assert ParticipantIds(Seats(us, |us|)) == us;
    var input := By(us[0], r, StartGame(deal));
    g := Exec(g0, input, d).game;
    inputs := PlayOn(us, seats, inputs, g0, input, d);
  }

  // What the next lemmas need of a game in progress.
  ghost predicate InPlay(us: seq<UserId>, deal: seq<Assignment>, g: Game, phase: Phase) {
    && us != [] && g.room.Some? && g.room.value.hostUserId == us[0] && g.room.value.status.InProgress?
    && (forall u <- us :: Seated(g.room.value, u))
    && g.session.Some?
    && g.session.value.players == DealtPlayers(deal)
    && g.session.value.phase == phase
    && g.session.value.votes == map[] && g.session.value.nightActions == map[]
    && g.session.value.processedRequests == map[]
  }

  lemma NobodyDies(s: Session)
    requires s.votes == map[] && s.nightActions == map[]
    ensures Victim(s) == None
  {
    NobodyLeadsNoVotes();
  }

  // The host moves an idle game on.
  lemma IdleAdvance(us: seq<UserId>, seats: nat, deal: seq<Assignment>, inputs: seq<Input>, g: Game, phase: Phase, r: RequestId, d: Durations)
    returns (longer: seq<Input>, next: Game)
    requires LeadTo(us, seats, inputs, g, d) && InPlay(us, deal, g, phase) && NextPhase(phase).Some?
    requires !phase.Finished?
    ensures LeadTo(us, seats, longer, next, d) && InPlay(us, deal, next, NextPhase(phase).value)
    ensures next.session.value.phaseEndsAt == Deadline(d, NextPhase(phase).value, 0)
  {
    hide PhaseStep, PluralityWinner, NightVictim, Count, EvaluateWinner, SessionInv, Seats, Replay, Occurrences;
    var input, s := By(us[0], r, AdvancePhase), g.session.value;
    PlayedInv(us[0], seats, inputs, d);
    PhaseStepSettles(s, 0, d);
    NobodyDies(s);
    WinnerOf(s);
    next := Exec(g, input, d).game;
    longer := PlayOn(us, seats, inputs, g, input, d);
  }

  lemma NightGame(us: seq<UserId>, seats: nat, deal: seq<Assignment>, r: RequestId, d: Durations) returns (inputs: seq<Input>, g: Game)
    requires 4 <= |us| <= seats && Distinct(us) && IsDeal(us, deal)
    ensures LeadTo(us, seats, inputs, g, d) && InPlay(us, deal, g, Night)
  {
    hide IsDeal;
    inputs, g := StartedGame(us, seats, deal, r, d);
    forall u | u in us ensures Seated(g.room.value, u) {
      var k :| 0 <= k < |us| && us[k] == u;
      SeatAt(us, |us|, k);
    }
  }

  lemma VotingGame(us: seq<UserId>, seats: nat, deal: seq<Assignment>, r: RequestId, d: Durations) returns (inputs: seq<Input>, g: Game)
    requires 4 <= |us| <= seats && Distinct(us) && IsDeal(us, deal)
    ensures LeadTo(us, seats, inputs, g, d) && InPlay(us, deal, g, Voting)
  {
    hide IsDeal, InPlay, LeadTo;
    inputs, g := NightGame(us, seats, deal, r, d);
    inputs, g := IdleAdvance(us, seats, deal, inputs, g, Night, r, d);
    inputs, g := IdleAdvance(us, seats, deal, inputs, g, DayDiscussion, r, d);
  }

  lemma DealtAreLiving(us: seq<UserId>, deal: seq<Assignment>)
    requires IsDeal(us, deal) && Distinct(us)
    ensures forall u <- us :: Living(DealtPlayers(deal), u)
    ensures Distinct(Ids(DealtPlayers(deal)))
  {
    hide IsDeal;
    DealtRoster(us, deal);
  }

  // One vote has been cast in a first voting.
  lemma VotedGame(us: seq<UserId>, seats: nat, deal: seq<Assignment>, voter: UserId, target: UserId, r: RequestId, d: Durations)
    returns (inputs: seq<Input>, g: Game)
    requires 4 <= |us| <= seats && Distinct(us) && IsDeal(us, deal) && voter in us && target in us
    ensures LeadTo(us, seats, inputs, g, d)
    ensures g.room.Some? && g.room.value.hostUserId == us[0] && g.room.value.status.InProgress?
    ensures forall u <- us :: Seated(g.room.value, u)
    ensures g.session.Some? && g.session.value.phase.Voting? && g.session.value.players == DealtPlayers(deal)
    ensures g.session.value.votes == map[voter := target] && r in g.session.value.processedRequests
  {
    hide IsDeal, IndexOf, LeadTo;
    var g0;
    inputs, g0 := VotingGame(us, seats, deal, r, d);
    DealtAreLiving(us, deal);
    var input := By(voter, r, Vote(target));
    g := Exec(g0, input, d).game;
    inputs := PlayOn(us, seats, inputs, g0, input, d);
  }

  // A played vote that is accepted and lost: somebody else used its request id.
  lemma SwallowedVoteIsPlayed(us: seq<UserId>, seats: nat, deal: seq<Assignment>, voter: UserId, other: UserId, target: UserId,
                              r: RequestId, d: Durations)
    returns (inputs: seq<Input>)
    requires 4 <= |us| <= seats && Distinct(us) && IsDeal(us, deal)
    requires voter in us && other in us && target in us && voter != other
    ensures CanPlay(us[0], seats, inputs, d)
    ensures var g := Played(us[0], seats, inputs, d);
      && g.session.Some? && other !in g.session.value.votes && Living(g.session.value.players, other)
      && Exec(g, By(other, r, Vote(target)), d) == Outcome(g, Ok([]))
  {
    hide IsDeal;
    var g;
    inputs, g := VotedGame(us, seats, deal, voter, target, r, d);
    DealtAreLiving(us, deal);
    ReusedRequestIdSwallowsVote(g, other, target, r, 0, d);
  }

  // A played voting in which a saved vote is overwritten, by a section that outlived its lock.
  lemma LostVoteIsPlayed(us: seq<UserId>, seats: nat, deal: seq<Assignment>, a: UserId, b: UserId, target: UserId,
                         r1: RequestId, r2: RequestId, ttlMs: nat, d: Durations)
    returns (inputs: seq<Input>, cs: seq<Cluster>)
    requires 4 <= |us| <= seats && Distinct(us) && IsDeal(us, deal) && ttlMs > 0
    requires a in us && b in us && target in us && a != b
    ensures CanPlay(us[0], seats, inputs, d)
    ensures ClusterRun(cs, Race(a, b, target, r1, r2, ttlMs, ttlMs), Played(us[0], seats, inputs, d), d)
    ensures |cs| == 8 && Overwritten(cs[6], cs[7], a, b)
  {
    hide IsDeal, IndexOf, ClusterRun, Overwritten;
    var g;
    inputs, g := VotingGame(us, seats, deal, r1, d);
    DealtAreLiving(us, deal);
    cs := RaceRun(g, d, a, b, target, r1, r2, ttlMs, ttlMs);
    RaceEnds(cs, g, d, a, b, target, r1, r2, ttlMs, ttlMs);
  }

  lemma OnlyVoteLeads(voter: UserId, target: UserId)
    ensures PluralityWinner(map[voter := target]) == Some(target)
  {
    var votes := map[voter := target];
    assert (set v | v in votes.Keys && v in votes && votes[v] == target) == {voter};
    assert VotesFor(votes, target) == 1;
    forall other | other != target ensures VotesFor(votes, other) == 0 {
      assert (set v | v in votes.Keys && v in votes && votes[v] == other) == {};
    }
    assert Leads(votes, target);
  }

  // Without its one mafia the game is over.
  lemma MafiaExecuted(us: seq<UserId>, deal: seq<Assignment>, mafia: UserId)
    requires IsDeal(us, deal) && Distinct(us) && mafia in us
    requires Has(DealtPlayers(deal), mafia) && Get(DealtPlayers(deal), mafia).role.Mafia?
    ensures var qs := MarkDead(DealtPlayers(deal), mafia);
      && EvaluateWinner(qs) == Some(CitizenTeam)
      && Has(qs, mafia) && Get(qs, mafia).status.Dead?
  {
    var ps := DealtPlayers(deal);
    DealtRoster(us, deal);
    DealtAreLiving(us, deal);
    AllAlive(ps);
    DeathOfOne(ps, mafia);
    LookupSame(ps, MarkDead(ps, mafia), mafia);
  }

  // A finished game that is played, and its dead mafia still talking and leaving.
  lemma FinishedGameIsPlayed(us: seq<UserId>, seats: nat, deal: seq<Assignment>, voter: UserId, mafia: UserId, r: RequestId, text: Text, d: Durations)
    returns (inputs: seq<Input>)
    requires 4 <= |us| <= seats && Distinct(us) && IsDeal(us, deal) && voter in us && mafia in us
    requires Has(DealtPlayers(deal), mafia) && Get(DealtPlayers(deal), mafia).role.Mafia?
    ensures CanPlay(us[0], seats, inputs, d)
    ensures var g := Played(us[0], seats, inputs, d);
      && g.session.Some? && g.session.value.phase.Finished?
      && Exec(g, By(mafia, r, SendChat(GhostChat, text)), d).result.Ok?
      && Exec(g, By(mafia, r, LeaveRoom), d).result.Ok?
  {
    hide IsDeal, PhaseStep, PluralityWinner, IndexOf, SessionInv, EvaluateWinner, ParticipantIndex, Replay, Occurrences;
    var g0;
    inputs, g0 := VotedGame(us, seats, deal, voter, mafia, r, d);
    var input, s := By(us[0], r, AdvancePhase), g0.session.value;
    PlayedInv(us[0], seats, inputs, d);
    PhaseStepSettles(s, 0, d);
    OnlyVoteLeads(voter, mafia);
    MafiaExecuted(us, deal, mafia);
    assert Victim(s) == Some(mafia);
    var g := Exec(g0, input, d).game;
    assert g.session == Some(Settled(s, 0, d)) && g.room == g0.room;
    inputs := PlayOn(us, seats, inputs, g0, input, d);
    PlayedInv(us[0], seats, inputs, d);
    FinishedAcceptsIff(g, By(mafia, r, SendChat(GhostChat, text)), d);
    FinishedAcceptsIff(g, By(mafia, r, LeaveRoom), d);
  }

  // In a played first night, everybody's choice of themselves is accepted from exactly the doctor.
  lemma SelfChoiceIsPlayed(us: seq<UserId>, seats: nat, deal: seq<Assignment>, actor: UserId, slot: Slot, r: RequestId, d: Durations)
    returns (inputs: seq<Input>)
    requires 4 <= |us| <= seats && Distinct(us) && IsDeal(us, deal) && actor in us
    requires Has(DealtPlayers(deal), actor) && Get(DealtPlayers(deal), actor).role == RoleOf(slot)
    ensures CanPlay(us[0], seats, inputs, d)
    ensures var g := Played(us[0], seats, inputs, d);
      Exec(g, By(actor, r, SelectTarget(slot, actor)), d).result.Ok? <==> slot.DoctorTarget?
  {
    hide IsDeal, IndexOf;
    var g;
    inputs, g := NightGame(us, seats, deal, r, d);
    DealtAreLiving(us, deal);
    SelfChoiceIff(g.session.value, actor, slot);
  }

  // In a played first night the police learns the role of whomever it chooses.
  lemma InvestigationIsPlayed(us: seq<UserId>, seats: nat, deal: seq<Assignment>, police: UserId, target: UserId, r: RequestId, d: Durations)
    returns (inputs: seq<Input>)
    requires 4 <= |us| <= seats && Distinct(us) && IsDeal(us, deal) && police in us && target in us && target != police
    requires Has(DealtPlayers(deal), police) && Get(DealtPlayers(deal), police).role.Police? && Has(DealtPlayers(deal), target)
    ensures CanPlay(us[0], seats, inputs, d)
    ensures Exec(Played(us[0], seats, inputs, d), By(police, r, SelectTarget(PoliceTarget, target)), d).result
         == Ok([Private(police, InvestigationResult(target, Get(DealtPlayers(deal), target).role))])
  {
    hide IsDeal, IndexOf;
    var g;
    inputs, g := NightGame(us, seats, deal, r, d);
    DealtAreLiving(us, deal);
  }

  // ---- As worlds ----

  // Every such run is a run of the world with one room and no poller.
  lemma {:induction false} RunIsReached(us: seq<UserId>, seats: nat, inputs: seq<Input>, gameId: GameId, d: Durations)
    returns (ws: seq<World>, ts: seq<Tick>)
    requires 4 <= |us| <= seats && LeadTo(us, seats, inputs, Played(us[0], seats, inputs, d), d)
    ensures WorldRun(ws, ts, d) && |ws| == |ts| + 1
    ensures var w := ws[|ts|];
      w.games == map[gameId := Played(us[0], seats, inputs, d)] && w.now == 0 && w.polls == map[]
    decreases |inputs|
  {
    hide Exec, TimersAfter, Path, Possible;
    if inputs == [] {
      EmptyPath(EMPTY_WORLD, d);
      ws := PathPush([EMPTY_WORLD], [], NewRoomOpened(gameId, us[0], seats), d);
      ts := [] + [NewRoomOpened(gameId, us[0], seats)];
    } else {
      var g0 := NewGame(us[0], seats);
      PossiblePrefix(g0, inputs, d);
      ws, ts := RunIsReached(us, seats, ButLast(inputs), gameId, d);
      ws := PathPush(ws, ts, Handled(gameId, Last(inputs)), d);
      ts := ts + [Handled(gameId, Last(inputs))];
    }
  }

  lemma {:induction false} PathJoin(ws: seq<World>, ts: seq<Tick>, vs: seq<World>, us: seq<Tick>, d: Durations)
    requires |ws| == |ts| + 1 && Path(ws, ts, d) && Path(vs, us, d) && |vs| == |us| + 1 && ws[|ts|] == vs[0]
    ensures Path(ws + vs[1..], ts + us, d)
  {
    hide Enabled, WorldNext;
    var xs, ys := ws + vs[1..], ts + us;
    forall i | 0 <= i < |ys| ensures Enabled(xs[i], ys[i]) && xs[i + 1] == WorldNext(xs[i], ys[i], d) {
      if i >= |ts| { assert xs[i] == vs[i - |ts|] && xs[i + 1] == vs[i - |ts| + 1] && ys[i] == us[i - |ts|]; }
    }
  }

  lemma DueDiscussionIsReached(us: seq<UserId>, seats: nat, deal: seq<Assignment>, gameId: GameId, r: RequestId, d: Durations)
    returns (ws: seq<World>, ts: seq<Tick>)
    requires 4 <= |us| <= seats && Distinct(us) && IsDeal(us, deal)
    ensures WorldRun(ws, ts, d) && |ws| == |ts| + 1
    ensures var w := ws[|ts|];
      && w.polls == map[] && WorldInv(w, d)
      && gameId in w.games && w.games[gameId].session.Some?
      && w.games[gameId].session.value.phase.DayDiscussion?
      && w.games[gameId].session.value.phaseEndsAt == Some(w.now)
  {
    hide IsDeal, Path, WorldInv, WorldNext, InPlay, LeadTo, Exec;
    var inputs, g := NightGame(us, seats, deal, r, d);
    inputs, g := IdleAdvance(us, seats, deal, inputs, g, Night, r, d);
    DiscussionFacts(us, seats, deal, inputs, g, d);
    ws, ts := RunIsReached(us, seats, inputs, gameId, d);
    ElapseOnly(ws[|ts|], d.day, d);
    ws := PathPush(ws, ts, Elapse(d.day), d);
    ts := ts + [Elapse(d.day)];
    RunsKeepWorldInv(ws, ts, d, |ts|);
  }

  // A run from the empty world in which two pollers spend one deadline twice: a discussion
  // that is due, two firings of its entry, and a voting over before its own deadline.
  lemma DoubleAdvanceIsReached(us: seq<UserId>, seats: nat, deal: seq<Assignment>, gameId: GameId, a: Worker, b: Worker, r: RequestId, d: Durations)
    returns (ws: seq<World>, ts: seq<Tick>)
    requires 4 <= |us| <= seats && Distinct(us) && IsDeal(us, deal) && a != b
    ensures WorldRun(ws, ts, d) && |ws| == |ts| + 1 >= 7
    ensures var n := |ts|;
      var due, once, twice := ws[n - 6], ws[n - 1], ws[n];
      && ts[n - 2] == Fired(a, r) && ts[n - 1] == Fired(b, r)
      && gameId in due.games && due.games[gameId].session.Some? && due.games[gameId].session.value.phase.DayDiscussion?
      && due.games[gameId].session.value.phaseEndsAt == Some(due.now)
      && gameId in once.games && once.games[gameId].session.Some? && once.games[gameId].session.value.phase.Voting?
      && once.games[gameId].session.value.phaseEndsAt == Some(due.now + d.voting)
      && gameId in twice.games && twice.games[gameId].session.Some?
      && twice.games[gameId].session.value.phase == Phase.Result && twice.now == due.now < due.now + d.voting
  {
    hide IsDeal, Path, WorldInv, WorldNext, Settled;
    ws, ts := DueDiscussionIsReached(us, seats, deal, gameId, r, d);
    var w := ws[|ts|];
    var vs := TwoPollersAdvanceTwice(w, a, b, gameId, d, r, r);
    var e := TimerEntry(gameId, w.now);
    var more := [ListedDue(a, e), ListedDue(b, e), Checked(a), Checked(b)] + [Fired(a, r)] + [Fired(b, r)];
    PathJoin(ws, ts, vs, more, d);
    ghost var n := |ts|;
    ws, ts := ws + vs[1..], ts + more;
    assert ws[n] == vs[0] && ws[n + 5] == vs[5] && ws[n + 6] == vs[6];
  }

  lemma DiscussionFacts(us: seq<UserId>, seats: nat, deal: seq<Assignment>, inputs: seq<Input>, g: Game, d: Durations)
    requires LeadTo(us, seats, inputs, g, d) && InPlay(us, deal, g, DayDiscussion)
    ensures g == Played(us[0], seats, inputs, d) && g.session.Some? && g.session.value.phase.DayDiscussion?
  {
  }

  lemma ElapseOnly(w: World, ms: nat, d: Durations)
    ensures WorldNext(w, Elapse(ms), d) == w.(now := w.now + ms)
  {
  }
}
