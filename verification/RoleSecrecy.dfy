// Whose role a page learns from what the game sends it: its own from the deal, the roles its
// user investigates as the police, and every role from a reconnect snapshot.
module RoleSecrecy {
  import opened Common
  import opened Domain
  import opened Players
  import opened GameRules
  import opened RoomRules
  import opened GameSpec
  import opened Invariants
  import opened EventSourcing
  import opened GameRuns
  import opened ChatCache
  import opened ClientView

  // The page's table shows nobody's role but, perhaps, its own.
  predicate Secret(view: View, me: UserId) {
    view.session.Some? ==>
      forall i | 0 <= i < |view.session.value.players| ::
        view.session.value.players[i].userId != me ==> view.session.value.players[i].role.None?
  }

  // The page's table shows every player's role.
  predicate Exposed(view: View, ps: seq<Player>) {
    && view.session.Some?
    && |view.session.value.players| == |ps| > 0
    && forall i | 0 <= i < |ps| ::
         view.session.value.players[i].userId == ps[i].userId && view.session.value.players[i].role == Some(ps[i].role)
  }

  // The page's user came back at least once while there was a session to show.
  ghost predicate SnapshotSeen(me: UserId, g: Game, inputs: seq<Input>, d: Durations) {
    && inputs != []
    && (SnapshotSeen(me, g, ButLast(inputs), d)
        || (Last(inputs) == SocketBack(me) && Run(g, inputs, d).session.Some?))
  }

  predicate AssignsRole(e: Effect) {
    (e.Broadcast? || e.Private?) && e.message.RoleAssignedMessage?
  }

  // Every message that carries a role.
  predicate TellsRole(e: Effect) {
    (e.Broadcast? || e.Private?) && (e.message.RoleAssignedMessage? || e.message.InvestigationResult?)
  }

  lemma MessageKeepsSecret(view: View, me: UserId, m: Message)
    requires Secret(view, me)
    ensures Secret(Handle(view, me, m), me)
  {
  }

  lemma {:induction false} MessagesKeepSecret(c: Page, me: UserId, mine: bool, es: seq<Effect>)
    requires Secret(c.view, me)
    ensures Secret(ReceiveAll(c, me, mine, es).view, me)
  {
    hide Secret, Handle;
    if es != [] {
      MessagesKeepSecret(c, me, mine, ButLast(es));
      var before, e := ReceiveAll(c, me, mine, ButLast(es)), Last(es);
      if e.Broadcast? || e.Private? { MessageKeepsSecret(before.view, me, e.message); }
    }
  }

  lemma {:induction false} MessagesKeepExposed(c: Page, me: UserId, mine: bool, es: seq<Effect>, ps: seq<Player>)
    requires Exposed(c.view, ps) && forall e <- es :: !AssignsRole(e)
    ensures Exposed(ReceiveAll(c, me, mine, es).view, ps)
  {
    if es != [] {
      assert Last(es) in es;
      MessagesKeepExposed(c, me, mine, ButLast(es), ps);
    }
  }

  // The police's choice, accepted, and the message that answers it.
  predicate IsPoliceChoice(input: Input) {
    input.Client? && input.command.SelectTarget? && input.command.slot.PoliceTarget?
  }

  lemma PoliceIsAnswered(g: Game, input: Input, d: Durations)
    requires g.session.Some? && IsPoliceChoice(input) && Exec(g, input, d).result.Ok?
    ensures var ps := g.session.value.players;
      && Has(ps, input.user) && Get(ps, input.user).role.Police?
      && Has(ps, input.command.target) && input.command.target != input.user
      && Exec(g, input, d).result.value
           == [Private(input.user, InvestigationResult(input.command.target, Get(ps, input.command.target).role))]
  {
    hide IndexOf;
  }

  lemma ChatTellsNoRole(ps: seq<Player>, test: Player -> bool, m: ChatMessage)
    ensures forall e <- PrivateTo(ps, test, Chat(m)) :: !TellsRole(e)
  {
    forall e | e in PrivateTo(ps, test, Chat(m)) ensures !TellsRole(e) {
      PrivateToIff(ps, test, Chat(m), m.sender);
    }
  }

  lemma OthersTellNoRole(g: Game, input: Input, d: Durations)
    requires GameInv(g, d) && g.session.Some? && !IsPoliceChoice(input) && Exec(g, input, d).result.Ok?
    ensures forall e <- Exec(g, input, d).result.value :: !TellsRole(e)
  {
    hide SessionInv, Replay, Occurrences, PhaseStep, IndexOf, ParticipantIndex, ChatRefusal, Get;
    if input.Client? && input.command.SendChat? {
      var m := ChatMessage(input.command.channel, input.command.text, input.user);
      ChatTellsNoRole(g.session.value.players, IsAliveMafia, m);
      ChatTellsNoRole(g.session.value.players, IsDead, m);
    }
  }

  // After the start a role is told by exactly the accepted choices of the police: to the
  // police alone, and it is the chosen player's.
  lemma RoleIsToldIff(g: Game, input: Input, d: Durations, e: Effect)
    requires GameInv(g, d) && g.session.Some? && Exec(g, input, d).result.Ok?
    ensures var ps := g.session.value.players;
      e in Exec(g, input, d).result.value && TellsRole(e) <==>
        && IsPoliceChoice(input)
        && Has(ps, input.user) && Get(ps, input.user).role.Police?
        && Has(ps, input.command.target) && input.command.target != input.user
        && e == Private(input.user, InvestigationResult(input.command.target, Get(ps, input.command.target).role))
  {
    hide Exec, GameInv;
    if IsPoliceChoice(input) { PoliceIsAnswered(g, input, d); } else { OthersTellNoRole(g, input, d); }
  }

  lemma SnapshotExposes(s: Session, room: seq<UserId>)
    requires s.players != []
    ensures Exposed(View(room, Some(Snapshot(s))), s.players)
  {
  }

  lemma StepKeepsSecret(c: Page, me: UserId, g: Game, input: Input, d: Durations)
    requires GameInv(g, d) && Secret(c.view, me)
    requires !(input == SocketBack(me) && Exec(g, input, d).game.session.Some?)
    ensures Secret(Observe(c, me, g, input, d).view, me)
  {
    hide Exec, GameInv;
    var out := Exec(g, input, d);
    if out.result.Ok? && input != SocketLost(me) && input != SocketBack(me) {
      MessagesKeepSecret(c, me, Mine(c, me, input), out.result.value);
    }
  }

  lemma NothingIsAssigned(g: Game, input: Input, d: Durations)
    requires GameInv(g, d) && g.session.Some? && Exec(g, input, d).result.Ok?
    ensures forall e <- Exec(g, input, d).result.value :: !AssignsRole(e)
  {
    hide Exec, GameInv;
    forall e | e in Exec(g, input, d).result.value ensures !AssignsRole(e) {
      RoleIsToldIff(g, input, d, e);
    }
  }

  lemma StepExposes(c: Page, me: UserId, g: Game, input: Input, d: Durations)
    requires GameInv(g, d) && GameInv(Exec(g, input, d).game, d)
    requires if g.session.Some? then Exposed(c.view, g.session.value.players) || input == SocketBack(me)
             else input == SocketBack(me) && Exec(g, input, d).game.session.Some?
    ensures var h := Exec(g, input, d).game;
      h.session.Some? && Exposed(Observe(c, me, g, input, d).view, h.session.value.players)
  {
    hide Exec, GameInv, Exposed, Snapshot;
    var out := Exec(g, input, d);
    if g.session.Some? { AtMostOneDies(g, input, d); }
    if input == SocketBack(me) {
      SeatedPlayers(out.game, d);
      SnapshotExposes(out.game.session.value,
        if out.game.room.Some? then ParticipantIds(out.game.room.value.participants) else []);
    } else {
      SameRolesExposed(c.view, g.session.value.players, out.game.session.value.players);
      if out.result.Ok? && input != SocketLost(me) {
        NothingIsAssigned(g, input, d);
        MessagesKeepExposed(c, me, Mine(c, me, input), out.result.value, out.game.session.value.players);
      }
    }
  }

  lemma SeatedPlayers(g: Game, d: Durations)
    requires GameInv(g, d) && g.session.Some?
    ensures |g.session.value.players| >= 4 && Distinct(Ids(g.session.value.players))
  {
  }

  lemma SameRolesExposed(view: View, ps: seq<Player>, qs: seq<Player>)
    requires Exposed(view, ps) && SameRoles(ps, qs)
    ensures Exposed(view, qs)
  {
  }

  lemma {:induction false} RolesFollowSnapshots(c: Page, me: UserId, g: Game, inputs: seq<Input>, d: Durations)
    requires GameInv(g, d) && PossibleRun(g, inputs, d) && Secret(c.view, me)
    ensures var h, view := Run(g, inputs, d), ObserveRun(c, me, g, inputs, d).view;
      if SnapshotSeen(me, g, inputs, d) then h.session.Some? && Exposed(view, h.session.value.players) else Secret(view, me)
  {
    hide Exec, GameInv, Observe, Exposed, Secret, PossibleRun;
    if inputs != [] {
      var front, input := ButLast(inputs), Last(inputs);
      PossiblePrefix(g, inputs, d);
      RolesFollowSnapshots(c, me, g, front, d);
      RunKeepsInv(g, front, d);
      RunKeepsInv(g, inputs, d);
      var h, page := Run(g, front, d), ObserveRun(c, me, g, front, d);
      if SnapshotSeen(me, g, inputs, d) {
        StepExposes(page, me, h, input, d);
      } else {
        StepKeepsSecret(page, me, h, input, d);
      }
    }
  }

  // ---- Investigations ----

  // The targets of this user's accepted police choices that the page heard the answer to.
  ghost function Investigated(c: Page, me: UserId, g: Game, inputs: seq<Input>, d: Durations): set<UserId> {
    if inputs == [] then {}
    else
      var front, input := ButLast(inputs), Last(inputs);
      Investigated(c, me, g, front, d)
      + (if IsPoliceChoice(input) && input.user == me && Exec(Run(g, front, d), input, d).result.Ok?
            && !ObserveRun(c, me, g, front, d).reach.Offline?
         then {input.command.target} else {})
  }

  // The page was told the role of exactly these players, truly.
  ghost predicate ToldOf(told: set<(UserId, Role)>, ids: set<UserId>, g: Game) {
    forall id, role :: (id, role) in told <==>
      id in ids && g.session.Some? && Has(g.session.value.players, id) && Get(g.session.value.players, id).role == role
  }

  lemma {:induction false} NothingHeard(c: Page, me: UserId, mine: bool, es: seq<Effect>)
    requires forall e <- es :: !((e.Broadcast? || e.Private?) && e.message.InvestigationResult?)
    ensures ReceiveAll(c, me, mine, es).told == c.told
  {
    if es != [] {
      assert Last(es) in es;
      NothingHeard(c, me, mine, ButLast(es));
    }
  }

  lemma AnswerHeard(c: Page, me: UserId, mine: bool, user: UserId, target: UserId, role: Role)
    ensures ReceiveAll(c, me, mine, [Private(user, InvestigationResult(target, role))]).told
         == c.told + (if user == me && !c.reach.Offline? then {(target, role)} else {})
  {
    var e := Private(user, InvestigationResult(target, role));
    assert [e] == [] + [e];
    ReceivePush(c, me, mine, [], e);
  }

  lemma StartInvestigatesNothing(g: Game, input: Input, d: Durations)
    requires g.session.None? && Exec(g, input, d).result.Ok?
    ensures forall e <- Exec(g, input, d).result.value :: !((e.Broadcast? || e.Private?) && e.message.InvestigationResult?)
    ensures !IsPoliceChoice(input)
  {
    hide ParticipantIndex, Start;
  }

  lemma ToldStep(c: Page, me: UserId, g: Game, input: Input, ids: set<UserId>, d: Durations)
    requires GameInv(g, d) && ToldOf(c.told, ids, g) && (g.session.None? ==> ids == {})
    ensures var h := Exec(g, input, d);
      ToldOf(Observe(c, me, g, input, d).told,
             ids + (if IsPoliceChoice(input) && input.user == me && h.result.Ok? && !c.reach.Offline?
                    then {input.command.target} else {}),
             h.game)
  {
    hide Exec, GameInv, TellsRole;
    var out := Exec(g, input, d);
    if out.result.Ok? {
      var mine := Mine(c, me, input);
      if g.session.None? {
        StartInvestigatesNothing(g, input, d);
        NothingHeard(c, me, mine, out.result.value);
      } else if IsPoliceChoice(input) {
        PoliceIsAnswered(g, input, d);
        AnswerHeard(c, me, mine, input.user, input.command.target, Get(g.session.value.players, input.command.target).role);
      } else {
        OthersAnswerNothing(g, input, d);
        NothingHeard(c, me, mine, out.result.value);
      }
    }
    if g.session.Some? { RolesStay(g, input, d); }
  }

  lemma OthersAnswerNothing(g: Game, input: Input, d: Durations)
    requires GameInv(g, d) && g.session.Some? && !IsPoliceChoice(input) && Exec(g, input, d).result.Ok?
    ensures forall e <- Exec(g, input, d).result.value :: !((e.Broadcast? || e.Private?) && e.message.InvestigationResult?)
  {
    hide Exec, GameInv;
    OthersTellNoRole(g, input, d);
    forall e | e in Exec(g, input, d).result.value
      ensures !((e.Broadcast? || e.Private?) && e.message.InvestigationResult?) { assert !TellsRole(e); }
  }

  lemma RolesStay(g: Game, input: Input, d: Durations)
    requires GameInv(g, d) && g.session.Some?
    ensures var h := Exec(g, input, d).game;
      && h.session.Some?
      && forall id :: (Has(h.session.value.players, id) <==> Has(g.session.value.players, id))
           && (Has(g.session.value.players, id) ==> Get(h.session.value.players, id).role == Get(g.session.value.players, id).role)
  {
    hide Exec, GameInv;
    AtMostOneDies(g, input, d);
    var ps, qs := g.session.value.players, Exec(g, input, d).game.session.value.players;
    forall id ensures IndexOf(qs, id) == IndexOf(ps, id) { LookupSame(ps, qs, id); }
  }

  lemma {:induction false} ToldInvestigations(c: Page, me: UserId, g: Game, inputs: seq<Input>, d: Durations)
    requires GameInv(g, d) && PossibleRun(g, inputs, d) && c.told == {}
    ensures ToldOf(ObserveRun(c, me, g, inputs, d).told, Investigated(c, me, g, inputs, d), Run(g, inputs, d))
    ensures Run(g, inputs, d).session.None? ==> Investigated(c, me, g, inputs, d) == {}
  {
    hide Exec, GameInv, Observe, PossibleRun, ToldOf;
    if inputs != [] {
      var front, input := ButLast(inputs), Last(inputs);
      PossiblePrefix(g, inputs, d);
      ToldInvestigations(c, me, g, front, d);
      RunKeepsInv(g, front, d);
      var h := Run(g, front, d);
      ToldStep(ObserveRun(c, me, g, front, d), me, h, input, Investigated(c, me, g, front, d), d);
      if h.session.Some? { RolesStay(h, input, d); }
      else if Exec(h, input, d).result.Ok? { StartInvestigatesNothing(h, input, d); }
    } else {
      NobodyTold(g);
    }
  }

  lemma NobodyTold(g: Game)
    ensures ToldOf({}, {}, g)
  {
  }

  // ---- What a page knows ----

  // The table shows it, or an investigation said it.
  ghost predicate Knows(page: Page, id: UserId, role: Role) {
    || (page.view.session.Some? && exists p <- page.view.session.value.players :: p.userId == id && p.role == Some(role))
    || (id, role) in page.told
  }

  // From what the game sends it, a page knows another user's role in exactly these cases: the
  // role is the dealt one, and either the page was sent a reconnect snapshot of the session,
  // or its user is the police, investigated that player and heard the answer.
  lemma RolesKnownIff(c: Page, me: UserId, host: UserId, maxPlayers: nat, inputs: seq<Input>, d: Durations, id: UserId, role: Role)
    requires maxPlayers >= 2 && CanPlay(host, maxPlayers, inputs, d) && c.view.session.None? && c.told == {} && id != me
    ensures var g0 := NewGame(host, maxPlayers);
      var g, page := Played(host, maxPlayers, inputs, d), ObserveRun(c, me, g0, inputs, d);
      Knows(page, id, role) <==>
        && g.session.Some? && Has(g.session.value.players, id) && Get(g.session.value.players, id).role == role
        && (SnapshotSeen(me, g0, inputs, d) || id in Investigated(c, me, g0, inputs, d))
  {
    hide Exec, GameInv, Observe, PossibleRun, Exposed, Secret, ToldOf, IndexOf;
    var g0 := NewGame(host, maxPlayers);
    NewGameInv(host, maxPlayers, d);
    PlayedInv(host, maxPlayers, inputs, d);
    assert Secret(c.view, me) by { BlankIsSecret(c.view, me); }
    RolesFollowSnapshots(c, me, g0, inputs, d);
    ToldInvestigations(c, me, g0, inputs, d);
    var g, page := Played(host, maxPlayers, inputs, d), ObserveRun(c, me, g0, inputs, d);
    ToldMeans(page.told, Investigated(c, me, g0, inputs, d), g, id, role);
    if SnapshotSeen(me, g0, inputs, d) {
      SeatedPlayers(g, d);
      ExposedMeans(page.view, g.session.value.players, id, role);
    } else {
      SecretMeans(page.view, me, id, role);
    }
  }

  lemma BlankIsSecret(view: View, me: UserId)
    requires view.session.None?
    ensures Secret(view, me)
  {
  }

  lemma ToldMeans(told: set<(UserId, Role)>, ids: set<UserId>, g: Game, id: UserId, role: Role)
    requires ToldOf(told, ids, g)
    ensures (id, role) in told <==>
      id in ids && g.session.Some? && Has(g.session.value.players, id) && Get(g.session.value.players, id).role == role
  {
  }

  lemma SecretMeans(view: View, me: UserId, id: UserId, role: Role)
    requires Secret(view, me) && id != me
    ensures view.session.Some? ==> !exists p <- view.session.value.players :: p.userId == id && p.role == Some(role)
  {
  }

  lemma ExposedMeans(view: View, ps: seq<Player>, id: UserId, role: Role)
    requires Exposed(view, ps) && Distinct(Ids(ps))
    ensures view.session.Some?
    ensures (exists p <- view.session.value.players :: p.userId == id && p.role == Some(role))
      <==> Has(ps, id) && Get(ps, id).role == role
  {
    var vs := view.session.value.players;
    if Has(ps, id) { assert vs[IndexOf(ps, id)] in vs; }
    if exists p <- vs :: p.userId == id && p.role == Some(role) {
      var k :| 0 <= k < |vs| && vs[k].userId == id && vs[k].role == Some(role);
      assert Ids(ps)[k] == id && Has(ps, id) && Ids(ps)[IndexOf(ps, id)] == id;
    }
  }
}
