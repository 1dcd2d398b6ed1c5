// The play page's fold of the events it receives, and its agreement with the server.
module ClientView {
  import opened Common
  import opened Domain
  import opened Players
  import opened GameRules
  import opened RoomRules
  import opened GameSpec
  import opened Invariants
  import opened EventSourcing
  import opened GameRuns
  import opened AvailableActions

  // A role nobody told this client is UNKNOWN, here None.
  datatype PlayerView = PlayerView(userId: UserId, role: Option<Role>, status: Status, connection: Connection)
  datatype SessionView = SessionView(phase: Phase, turn: nat, players: seq<PlayerView>)
  datatype View = View(room: seq<UserId>, session: Option<SessionView>)

  // ---- normalizeSession and the record updates ----

  function SeatedView(ids: seq<UserId>): (vs: seq<PlayerView>)
    ensures |vs| == |ids|
  {
    seq(|ids|, i requires 0 <= i < |ids| => PlayerView(ids[i], None, Alive, Connected))
  }

  function BasePlayers(view: View): seq<PlayerView> {
    if view.session.Some? && view.session.value.players != [] then view.session.value.players
    else SeatedView(view.room)
  }

  function Normalize(view: View, phase: Option<Phase>, turn: Option<nat>): SessionView {
    var current := view.session.GetOr(SessionView(Waiting, 0, []));
    SessionView(phase.GetOr(current.phase), turn.GetOr(current.turn), BasePlayers(view))
  }

  function SetRole(vs: seq<PlayerView>, id: UserId, role: Role): (r: seq<PlayerView>)
    ensures |r| == |vs|
  {
    seq(|vs|, i requires 0 <= i < |vs| => if vs[i].userId == id then vs[i].(role := Some(role)) else vs[i])
  }

  function SetStatus(vs: seq<PlayerView>, id: UserId, status: Status): (r: seq<PlayerView>)
    ensures |r| == |vs|
  {
    seq(|vs|, i requires 0 <= i < |vs| => if vs[i].userId == id then vs[i].(status := status) else vs[i])
  }

  function SetViewConnection(vs: seq<PlayerView>, id: UserId, c: Connection): (r: seq<PlayerView>)
    ensures |r| == |vs|
  {
    seq(|vs|, i requires 0 <= i < |vs| => if vs[i].userId == id then vs[i].(connection := c) else vs[i])
  }

  function WithPlayers(view: View, players: seq<PlayerView>): View {
    view.(session := Some(Normalize(view, None, None).(players := players)))
  }

  // The socket handlers.
  function Handle(view: View, me: UserId, m: Message): View {
    match m
    case RoomUpdated(room) => view.(room := ParticipantIds(room.participants))
    case GameStartedMessage(_, _) => view.(session := Some(Normalize(view, Some(Night), Some(0))))
    case RoleAssignedMessage(a) =>
      if a.userId == me then WithPlayers(view, SetRole(BasePlayers(view), me, a.role)) else view
    case PhaseChangedMessage(_, to, turn, _, _) => view.(session := Some(Normalize(view, Some(to), Some(turn))))
    case NightResolved(_, _, killed) =>
      if killed.Some? then WithPlayers(view, SetStatus(BasePlayers(view), killed.value, Dead)) else view
    case VotingResolved(executed) =>
      if executed.Some? then WithPlayers(view, SetStatus(BasePlayers(view), executed.value, Dead)) else view
    case GameFinishedMessage(_) =>
      if view.session.Some? then view.(session := Some(view.session.value.(phase := Finished))) else view
    case PlayerDisconnected(id) => WithPlayers(view, SetViewConnection(BasePlayers(view), id, Disconnected))
    case InvestigationResult(_, _) => view
    case Chat(_) => view
  }

  // ---- Delivery ----

  // A page without a socket hears nothing; with one, its user's private messages; and with
  // the socket in the game's room, the room's broadcasts too.
  datatype Reach = Offline | Online | InRoom

  // What the page shows in its table, and what investigations have told it beside that.
  datatype Page = Page(reach: Reach, view: View, told: set<(UserId, Role)>)

  function Hear(c: Page, me: UserId, m: Message): Page {
    Page(c.reach, Handle(c.view, me, m),
         if m.InvestigationResult? then c.told + {(m.target, m.role)} else c.told)
  }

  function Receive(c: Page, me: UserId, mine: bool, e: Effect): Page {
    match e
    case JoinSocketRoom => if mine then c.(reach := InRoom) else c
    case LeaveSocketRoom => if mine then c.(reach := Online) else c
    case Broadcast(m) => if c.reach.InRoom? then Hear(c, me, m) else c
    case Private(user, m) => if !c.reach.Offline? && user == me then Hear(c, me, m) else c
  }

  function ReceiveAll(c: Page, me: UserId, mine: bool, es: seq<Effect>): Page {
    if es == [] then c else Receive(ReceiveAll(c, me, mine, ButLast(es)), me, mine, Last(es))
  }

  function Snapshot(s: Session): SessionView {
    SessionView(s.phase, s.turn,
      seq(|s.players|, i requires 0 <= i < |s.players| =>
        PlayerView(s.players[i].userId, Some(s.players[i].role), s.players[i].status, s.players[i].connection)))
  }

  // The input came through this page's own socket.
  predicate Mine(c: Page, me: UserId, input: Input) {
    input.Client? && input.user == me && !c.reach.Offline?
  }

  // One server step seen by one client: a lost socket hears nothing, a returning one gets
  // the reconnect snapshot, everybody else gets the effects in order.
  ghost function Observe(c: Page, me: UserId, g: Game, input: Input, d: Durations): Page {
    var out := Exec(g, input, d);
    if input == SocketLost(me) then c.(reach := Offline)
    else if input == SocketBack(me) then
      Page(InRoom,
           View(if out.game.room.Some? then ParticipantIds(out.game.room.value.participants) else [],
                if out.game.session.Some? then Some(Snapshot(out.game.session.value)) else c.view.session),
           c.told)
    else if out.result.Err? then c
    else ReceiveAll(c, me, Mine(c, me, input), out.result.value)
  }

  ghost function ObserveRun(c: Page, me: UserId, g: Game, inputs: seq<Input>, d: Durations): Page {
    if inputs == [] then c
    else Observe(ObserveRun(c, me, g, ButLast(inputs), d), me, Run(g, ButLast(inputs), d), Last(inputs), d)
  }

  // ---- Agreement ----

  function ViewIndex(vs: seq<PlayerView>, id: UserId): (i: int)
    ensures -1 <= i < |vs|
    ensures i >= 0 ==> vs[i].userId == id && forall j | 0 <= j < i :: vs[j].userId != id
    ensures i < 0 ==> forall j | 0 <= j < |vs| :: vs[j].userId != id
  {
    if vs == [] then -1
    else if vs[0].userId == id then 0
    else var i := ViewIndex(vs[1..], id); if i < 0 then -1 else i + 1
  }

  // The same people, alive and dead alike; nobody twice; and this client's own role.
  ghost predicate SameTable(vs: seq<PlayerView>, ps: seq<Player>, me: UserId) {
    && vs != []
    && (forall i, j | 0 <= i < j < |vs| :: vs[i].userId != vs[j].userId)
    && (forall id :: ViewIndex(vs, id) >= 0 <==> Has(ps, id))
    && (forall id | Has(ps, id) :: vs[ViewIndex(vs, id)].status == Get(ps, id).status)
    && (Has(ps, me) ==>
          && vs[ViewIndex(vs, me)].role == Some(Get(ps, me).role)
          && vs[ViewIndex(vs, me)].connection == Get(ps, me).connection)
  }

  ghost predicate Agrees(v: SessionView, s: Session, me: UserId) {
    v.phase == s.phase && v.turn == s.turn && SameTable(v.players, s.players, me)
  }

  ghost predicate InStep(c: Page, me: UserId, g: Game) {
    match g.session
    case None => c.view.session.None?
      && (c.reach.InRoom? && g.room.Some? ==> c.view.room == ParticipantIds(g.room.value.participants))
    case Some(s) => c.reach.InRoom? ==> c.view.session.Some? && Agrees(c.view.session.value, s, me)
  }

  // Rewriting players one by one, keeping their ids, keeps every lookup.
  lemma {:induction false} SameViewIndex(vs: seq<PlayerView>, ws: seq<PlayerView>, id: UserId)
    requires |vs| == |ws| && forall i | 0 <= i < |vs| :: vs[i].userId == ws[i].userId
    ensures ViewIndex(vs, id) == ViewIndex(ws, id)
  {
    if vs != [] { SameViewIndex(vs[1..], ws[1..], id); }
  }

  lemma DeathKeepsTable(vs: seq<PlayerView>, ps: seq<Player>, me: UserId, id: UserId)
    requires SameTable(vs, ps, me)
    ensures SameTable(SetStatus(vs, id, Dead), MarkDead(ps, id), me)
  {
    hide IndexOf, ViewIndex;
    var ws, qs := SetStatus(vs, id, Dead), MarkDead(ps, id);
    forall x ensures ViewIndex(ws, x) == ViewIndex(vs, x) && IndexOf(qs, x) == IndexOf(ps, x) {
      SameViewIndex(vs, ws, x);
      LookupSame(ps, qs, x);
    }
  }

  lemma ConnectionKeepsTable(vs: seq<PlayerView>, ws: seq<PlayerView>, ps: seq<Player>, qs: seq<Player>, me: UserId)
    requires SameTable(vs, ps, me)
    requires SamePlayersButConnection(ps, qs)
    requires |ws| == |vs| && forall i | 0 <= i < |vs| :: ws[i] == vs[i].(connection := ws[i].connection)
    requires Has(ps, me) && ViewIndex(vs, me) >= 0 ==>
      ws[ViewIndex(vs, me)].connection == qs[IndexOf(ps, me)].connection
    ensures SameTable(ws, qs, me)
  {
    hide IndexOf, ViewIndex;
    forall x ensures ViewIndex(ws, x) == ViewIndex(vs, x) && IndexOf(qs, x) == IndexOf(ps, x) {
      SameViewIndex(vs, ws, x);
      LookupSame(ps, qs, x);
    }
  }

  lemma SnapshotAgrees(s: Session, me: UserId)
    requires Distinct(Ids(s.players)) && s.players != []
    ensures Agrees(Snapshot(s), s, me)
  {
    var vs := Snapshot(s).players;
    forall x ensures ViewIndex(vs, x) == IndexOf(s.players, x) {
      SnapshotIndex(s.players, vs, x);
    }
    forall i, j | 0 <= i < j < |vs| ensures vs[i].userId != vs[j].userId {
      assert Ids(s.players)[i] != Ids(s.players)[j];
    }
  }

  // A snapshot delivered after the session moved on from s to t agrees with t exactly when
  // nothing the page acts on has changed: neither phase nor turn nor the user's own
  // connection, and nobody has died.
  lemma LateSnapshotAgreesIff(s: Session, t: Session, me: UserId)
    requires SameRoles(s.players, t.players) && Distinct(Ids(s.players)) && s.players != []
    ensures Agrees(Snapshot(s), t, me) <==>
      && s.phase == t.phase && s.turn == t.turn
      && (forall id :: Living(s.players, id) <==> Living(t.players, id))
      && (Has(s.players, me) && Has(t.players, me) ==> Get(s.players, me).connection == Get(t.players, me).connection)
  {
    hide IndexOf, ViewIndex, Distinct;
    var vs := Snapshot(s).players;
    SnapshotAgrees(s, me);
    forall x ensures ViewIndex(vs, x) == IndexOf(s.players, x) && IndexOf(t.players, x) == IndexOf(s.players, x) {
      SnapshotIndex(s.players, vs, x);
      LookupSame(s.players, t.players, x);
    }
    if Agrees(Snapshot(s), t, me) {
      forall id ensures Living(s.players, id) <==> Living(t.players, id) {
        if Has(t.players, id) { assert vs[ViewIndex(vs, id)].status == Get(t.players, id).status; }
      }
    }
    if forall id :: Living(s.players, id) <==> Living(t.players, id) {
      forall id | Has(t.players, id) ensures vs[ViewIndex(vs, id)].status == Get(t.players, id).status {
        assert Living(s.players, id) <==> Living(t.players, id);
      }
    }
  }

  lemma {:induction false} SnapshotIndex(ps: seq<Player>, vs: seq<PlayerView>, id: UserId)
    requires |vs| == |ps| && forall i | 0 <= i < |ps| :: vs[i].userId == ps[i].userId
    ensures ViewIndex(vs, id) == IndexOf(ps, id)
  {
    if ps != [] { SnapshotIndex(ps[1..], vs[1..], id); }
  }

  // ---- One kind of step at a time ----

  lemma ReceivePush(c: Page, me: UserId, mine: bool, es: seq<Effect>, e: Effect)
    ensures ReceiveAll(c, me, mine, es + [e]) == Receive(ReceiveAll(c, me, mine, es), me, mine, e)
  {
    assert ButLast(es + [e]) == es;
  }

  lemma {:induction false} DeafClient(c: Page, me: UserId, es: seq<Effect>, mine: bool)
    requires !c.reach.InRoom? && JoinSocketRoom !in es
    ensures !ReceiveAll(c, me, mine, es).reach.InRoom?
  {
    if es != [] {
      assert Last(es) in es;
      DeafClient(c, me, ButLast(es), mine);
    }
  }

  // A step's report, told to a listening page that already has players.
  function AfterMessages(v: SessionView, r: PhaseReport): SessionView {
    SessionView(
      if r.winner.Some? then Finished else r.toPhase,
      r.turn,
      if r.died.Some? then SetStatus(v.players, r.died.value, Dead) else v.players)
  }

  lemma HearResolved(c: Page, me: UserId, mine: bool, r: PhaseReport)
    requires c.reach.InRoom? && c.view.session.Some? && c.view.session.value.players != []
    requires r.died.Some? ==> r.fromPhase.Night? || r.fromPhase.Voting?
    ensures var v := c.view.session.value;
      ReceiveAll(c, me, mine, ResolvedEffects(r))
        == c.(view := c.view.(session := Some(v.(players :=
             if r.died.Some? then SetStatus(v.players, r.died.value, Dead) else v.players))))
  {
    if ResolvedEffects(r) != [] {
      assert ResolvedEffects(r) == [] + ResolvedEffects(r);
      ReceivePush(c, me, mine, [], ResolvedEffects(r)[0]);
    }
  }

  lemma HearReport(c: Page, me: UserId, mine: bool, r: PhaseReport, caller: Option<UserId>)
    requires c.reach.InRoom? && c.view.session.Some? && c.view.session.value.players != []
    requires r.died.Some? ==> r.fromPhase.Night? || r.fromPhase.Voting?
    ensures ReceiveAll(c, me, mine, PhaseEffects(r, caller))
         == c.(view := c.view.(session := Some(AfterMessages(c.view.session.value, r))))
  {
    var first := Broadcast(PhaseChangedMessage(r.fromPhase, r.toPhase, r.turn, caller, r.phaseEndsAt));
    var c1 := Receive(c, me, mine, first);
    HearResolved(c1, me, mine, r);
    ReceiveSplit(c, me, mine, first, ResolvedEffects(r));
    var heard := [first] + ResolvedEffects(r);
    if r.winner.Some? {
      ReceivePush(c, me, mine, heard, FinishedEffects(r)[0]);
      assert PhaseEffects(r, caller) == heard + [FinishedEffects(r)[0]];
    } else {
      assert PhaseEffects(r, caller) == heard;
    }
  }

  lemma PhaseInStep(c: Page, me: UserId, mine: bool, s: Session, now: Millis, d: Durations, caller: Option<UserId>)
    requires c.reach.InRoom? && c.view.session.Some? && !s.phase.Finished? && Agrees(c.view.session.value, s, me)
    ensures var c' := ReceiveAll(c, me, mine, PhaseEffects(SettledReport(s, now, d), caller));
      c'.reach.InRoom? && c'.view.session.Some? && Agrees(c'.view.session.value, Settled(s, now, d), me)
  {
    hide SameTable, PluralityWinner, NightVictim, Count, ReceiveAll, PhaseEffects;
    NonEmptyTable(c.view.session.value.players, s.players, me);
    HearReport(c, me, mine, SettledReport(s, now, d), caller);
    if Victim(s).Some? { DeathKeepsTable(c.view.session.value.players, s.players, me, Victim(s).value); }
  }

  lemma NonEmptyTable(vs: seq<PlayerView>, ps: seq<Player>, me: UserId)
    requires SameTable(vs, ps, me)
    ensures vs != []
  {
  }

  function RoleFor(deal: seq<Assignment>, id: UserId): Option<Role> {
    if deal == [] then None
    else if Last(deal).userId == id then Some(Last(deal).role)
    else RoleFor(ButLast(deal), id)
  }

  function Told(vs: seq<PlayerView>, me: UserId, role: Option<Role>): seq<PlayerView> {
    if role.Some? then SetRole(vs, me, role.value) else vs
  }

  // Being told a role again replaces the one told before.
  lemma ToldAgain(vs: seq<PlayerView>, me: UserId, before: Option<Role>, role: Role)
    ensures SetRole(Told(vs, me, before), me, role) == SetRole(vs, me, role)
  {
  }

  lemma HearRole(c: Page, me: UserId, mine: bool, a: Assignment)
    requires c.reach.InRoom? && c.view.session.Some? && c.view.session.value.players != []
    ensures var v := c.view.session.value;
      Receive(c, me, mine, Private(a.userId, RoleAssignedMessage(a)))
        == c.(view := c.view.(session := Some(v.(players := if a.userId == me then SetRole(v.players, me, a.role) else v.players))))
  {
  }

  // Hearing the deal, this client learns exactly its own role.
  lemma {:induction false} RolesHeard(c: Page, me: UserId, mine: bool, deal: seq<Assignment>)
    requires c.reach.InRoom? && c.view.session.Some? && c.view.session.value.players != []
    ensures var v := c.view.session.value;
      ReceiveAll(c, me, mine, RoleEffects(deal))
        == c.(view := c.view.(session := Some(v.(players := Told(v.players, me, RoleFor(deal, me))))))
  {
    var v := c.view.session.value;
    if deal != [] {
      hide ReceiveAll, Receive, SetRole;
      var front, last := ButLast(deal), Last(deal);
      RolesHeard(c, me, mine, front);
      assert RoleEffects(deal) == RoleEffects(front) + [Private(last.userId, RoleAssignedMessage(last))];
      ReceivePush(c, me, mine, RoleEffects(front), Private(last.userId, RoleAssignedMessage(last)));
      HearRole(ReceiveAll(c, me, mine, RoleEffects(front)), me, mine, last);
      ToldAgain(v.players, me, RoleFor(front, me), last.role);
    } else {
      assert RoleEffects(deal) == [];
    }
  }

  lemma RoleForDealt(deal: seq<Assignment>, id: UserId)
    requires Distinct(DealtIds(deal))
    ensures RoleFor(deal, id).Some? <==> Has(DealtPlayers(deal), id)
    ensures Has(DealtPlayers(deal), id) ==> RoleFor(deal, id) == Some(Get(DealtPlayers(deal), id).role)
  {
    hide RoleFor, IndexOf;
    var ps := DealtPlayers(deal);
    RoleForIndex(deal, id);
    assert forall i | 0 <= i < |deal| :: ps[i].userId == deal[i].userId;
    if RoleFor(deal, id).Some? {
      var i :| 0 <= i < |deal| && deal[i].userId == id;
      assert ps[i].userId == id;
    }
    if Has(ps, id) && RoleFor(deal, id).Some? {
      var i :| 0 <= i < |deal| && deal[i].userId == id && RoleFor(deal, id) == Some(deal[i].role);
      var j := IndexOf(ps, id);
      assert DealtIds(deal)[i] == DealtIds(deal)[j];
    }
  }

  lemma {:induction false} RoleForIndex(deal: seq<Assignment>, id: UserId)
    ensures match RoleFor(deal, id)
      case None => forall i | 0 <= i < |deal| :: deal[i].userId != id
      case Some(role) => exists i | 0 <= i < |deal| :: deal[i].userId == id && role == deal[i].role
  {
    if deal != [] {
      RoleForIndex(ButLast(deal), id);
      assert deal[|deal| - 1] == Last(deal);
      if Last(deal).userId != id && RoleFor(deal, id).Some? {
        var i :| 0 <= i < |ButLast(deal)| && ButLast(deal)[i].userId == id && RoleFor(deal, id).value == ButLast(deal)[i].role;
        assert deal[i].userId == id && RoleFor(deal, id).value == deal[i].role;
      }
    }
  }

  lemma DealIsLarge(ids: seq<UserId>, deal: seq<Assignment>)
    requires IsDeal(ids, deal)
    ensures |ids| >= 3 && |deal| == |ids|
  {
    assert |multiset(DealtIds(deal))| == |multiset(ids)|;
  }

  // The dealt table seen from the room's seats plus the private role.
  lemma DealtTable(ids: seq<UserId>, deal: seq<Assignment>, me: UserId)
    requires IsDeal(ids, deal) && Distinct(ids)
    ensures SameTable(Told(SeatedView(ids), me, RoleFor(deal, me)), DealtPlayers(deal), me)
  {
    hide IndexOf, ViewIndex, IsDeal, RoleFor;
    var vs, ps := Told(SeatedView(ids), me, RoleFor(deal, me)), DealtPlayers(deal);
    DealIsLarge(ids, deal);
    DealtRoster(ids, deal);
    assert Ids(ps) == DealtIds(deal);
    RoleForDealt(deal, me);
    forall id ensures ViewIndex(vs, id) >= 0 <==> id in ids {
      if id in ids { var i :| 0 <= i < |ids| && ids[i] == id; assert vs[i].userId == id; }
    }
    forall i, j | 0 <= i < j < |vs| ensures vs[i].userId != vs[j].userId {
      assert ids[i] != ids[j];
    }
  }

  lemma StartInStep(c: Page, me: UserId, mine: bool, ids: seq<UserId>, room: Room, user: UserId, deal: seq<Assignment>, now: Millis, d: Durations)
    requires c.reach.InRoom? && c.view == View(ids, None)
    requires IsDeal(ids, deal) && Distinct(ids)
    ensures var s := NewSession(user, DealtPlayers(deal), now, d);
      var c' := ReceiveAll(c, me, mine,
        [Broadcast(GameStartedMessage(user, s.phaseEndsAt))] + RoleEffects(deal) + [Broadcast(RoomUpdated(room))]);
      c'.reach.InRoom? && c'.view.session.Some? && Agrees(c'.view.session.value, s, me)
  {
    hide SameTable, IsDeal;
    var s := NewSession(user, DealtPlayers(deal), now, d);
    var e1, e3 := Broadcast(GameStartedMessage(user, s.phaseEndsAt)), Broadcast(RoomUpdated(room));
    var c1 := Receive(c, me, mine, e1);
    assert c1.view.session == Some(SessionView(Night, 0, SeatedView(ids)));
    DealIsLarge(ids, deal);
    ReceiveSplit(c, me, mine, e1, RoleEffects(deal));
    RolesHeard(c1, me, mine, deal);
    ReceivePush(c, me, mine, [e1] + RoleEffects(deal), e3);
    DealtTable(ids, deal, me);
  }

  lemma {:induction false} ReceiveSplit(c: Page, me: UserId, mine: bool, e: Effect, es: seq<Effect>)
    ensures ReceiveAll(c, me, mine, [e] + es) == ReceiveAll(Receive(c, me, mine, e), me, mine, es)
  {
    if es == [] {
      assert [e] + es == [] + [e];
      ReceivePush(c, me, mine, [], e);
    } else {
      assert [e] + es == [e] + ButLast(es) + [Last(es)];
      ReceiveSplit(c, me, mine, e, ButLast(es));
      ReceivePush(c, me, mine, [e] + ButLast(es), Last(es));
    }
  }

  // ---- Every step ----

  predicate Unseen(e: Effect) {
    (e.Broadcast? || e.Private?) && (e.message.Chat? || e.message.InvestigationResult?)
  }

  lemma {:induction false} UnseenEffects(c: Page, me: UserId, mine: bool, es: seq<Effect>)
    requires forall e <- es :: Unseen(e)
    ensures ReceiveAll(c, me, mine, es).view == c.view && ReceiveAll(c, me, mine, es).reach == c.reach
  {
    if es != [] {
      assert Last(es) in es;
      UnseenEffects(c, me, mine, ButLast(es));
    }
  }

  lemma {:induction false} PrivateToIsUnseen(ps: seq<Player>, test: Player -> bool, m: Message)
    requires m.Chat?
    ensures forall e <- PrivateTo(ps, test, m) :: Unseen(e)
  {
    if ps != [] { PrivateToIsUnseen(ps[1..], test, m); }
  }

  // A marked connection reaches this client's own seat on both sides or on neither.
  lemma OwnConnection(vs: seq<PlayerView>, s: Session, user: UserId, status: Connection, me: UserId)
    requires SameTable(vs, s.players, me) && SetConnection(s, user, status).Ok?
    requires user != me || status.Disconnected?
    ensures var ws := if status.Disconnected? then SetViewConnection(vs, user, Disconnected) else vs;
      Has(s.players, me) && ViewIndex(vs, me) >= 0 ==>
        ws[ViewIndex(vs, me)].connection == SetConnection(s, user, status).value.players[IndexOf(s.players, me)].connection
  {
  }

  lemma ConnectionStep(c: Page, me: UserId, g: Game, user: UserId, status: Connection, d: Durations)
    requires GameInv(g, d) && InStep(c, me, g) && (user != me || status.Disconnected?)
    ensures var out := ExecConnection(g, user, status);
      InStep(if out.result.Err? then c else ReceiveAll(c, me, false, out.result.value), me, out.game)
  {
    hide SessionInv, Replay, Occurrences, SameTable;
    var out := ExecConnection(g, user, status);
    if out.result.Ok? {
      var s, t := g.session.value, out.game.session.value;
      if c.reach.InRoom? {
        var vs := c.view.session.value.players;
        NonEmptyTable(vs, s.players, me);
        OwnConnection(vs, s, user, status, me);
        if status.Disconnected? {
          assert out.result.value == [] + [Broadcast(PlayerDisconnected(user))];
          ReceivePush(c, me, false, [], Broadcast(PlayerDisconnected(user)));
          ConnectionKeepsTable(vs, SetViewConnection(vs, user, Disconnected), s.players, t.players, me);
        } else {
          ConnectionKeepsTable(vs, vs, s.players, t.players, me);
        }
      } else {
        DeafClient(c, me, out.result.value, false);
      }
    }
  }

  lemma ReturnStep(c: Page, me: UserId, g: Game, d: Durations)
    requires GameInv(g, d) && InStep(c, me, g)
    ensures InStep(Observe(c, me, g, SocketBack(me), d), me, Exec(g, SocketBack(me), d).game)
  {
    hide Replay, Occurrences, SameTable, Agrees, Snapshot, Count;
    if g.session.Some? {
      var t := Exec(g, SocketBack(me), d).game.session.value;
      if SetConnection(g.session.value, me, Connected).Ok? {
        assert Ids(t.players) == Ids(g.session.value.players);
      }
      SnapshotAgrees(t, me);
    }
  }

  lemma PhaseStepInStep(c: Page, me: UserId, mine: bool, g: Game, requestId: RequestId, caller: Option<UserId>, now: Millis, d: Durations)
    requires GameInv(g, d) && InStep(c, me, g)
    ensures var out := ExecPhase(g, requestId, caller, now, d);
      InStep(if out.result.Err? then c else ReceiveAll(c, me, mine, out.result.value), me, out.game)
  {
    hide SessionInv, Replay, Occurrences, Agrees, PhaseStep, Settled, SettledReport, ReceiveAll, Count;
    if g.session.Some? {
      PhaseStepSettles(g.session.value, now, d);
      if !g.session.value.phase.Finished? {
        if c.reach.InRoom? { PhaseInStep(c, me, mine, g.session.value, now, d, caller); }
        else { DeafClient(c, me, PhaseEffects(SettledReport(g.session.value, now, d), caller), mine); }
      }
    }
  }

  lemma RoomStep(c: Page, me: UserId, mine: bool, g: Game, changed: Result<Room, Error>,
                 requestId: RequestId, event: Event, first: seq<Effect>, d: Durations)
    requires GameInv(g, d) && InStep(c, me, g)
    requires first in {[], [JoinSocketRoom], [LeaveSocketRoom]}
    requires first == [JoinSocketRoom] && changed.Ok? ==> g.session.None?
    ensures var out := RoomChange(g, changed, requestId, event, first);
      InStep(if out.result.Err? then c else ReceiveAll(c, me, mine, out.result.value), me, out.game)
  {
    hide GameInv, Agrees, ReceiveAll, ParticipantIds;
    if changed.Ok? {
      HearRoom(c, me, mine, first, changed.value);
    }
  }

  // Joining, leaving, or neither, and then the room's new seats.
  lemma HearRoom(c: Page, me: UserId, mine: bool, first: seq<Effect>, room: Room)
    requires first in {[], [JoinSocketRoom], [LeaveSocketRoom]}
    ensures var c1 := if first == [] then c else Receive(c, me, mine, first[0]);
      ReceiveAll(c, me, mine, first + [Broadcast(RoomUpdated(room))])
        == if c1.reach.InRoom? then c1.(view := c1.view.(room := ParticipantIds(room.participants))) else c1
  {
    hide ReceiveAll, ParticipantIds;
    ReceivePush(c, me, mine, first, Broadcast(RoomUpdated(room)));
    NothingHeardYet(c, me, mine);
    if first != [] {
      assert first == [] + [first[0]];
      ReceivePush(c, me, mine, [], first[0]);
    }
  }

  lemma NothingHeardYet(c: Page, me: UserId, mine: bool)
    ensures ReceiveAll(c, me, mine, []) == c
  {
  }

  lemma StartStep(c: Page, me: UserId, mine: bool, g: Game, user: UserId, deal: seq<Assignment>, requestId: RequestId, now: Millis, d: Durations)
    requires GameInv(g, d) && InStep(c, me, g) && Possible(g, Input.Client(user, requestId, now, StartGame(deal)))
    ensures var out := ExecStart(g, user, deal, requestId, now, d);
      InStep(if out.result.Err? then c else ReceiveAll(c, me, mine, out.result.value), me, out.game)
  {
    hide SessionInv, Replay, Occurrences, Agrees, ReceiveAll, NewSession, IsDeal;
    var out := ExecStart(g, user, deal, requestId, now, d);
    if out.result.Ok? {
      if c.reach.InRoom? {
        var ids := ParticipantIds(g.room.value.participants);
        StartInStep(c, me, mine, ids, out.game.room.value, user, deal, now, d);
      } else {
        DeafClient(c, me, out.result.value, mine);
      }
    }
  }

  lemma QuietStep(c: Page, me: UserId, mine: bool, g: Game, out: Outcome, d: Durations)
    requires GameInv(g, d) && InStep(c, me, g) && out.game.room == g.room
    requires out.result.Ok? ==> forall e <- out.result.value :: Unseen(e)
    requires out.game.session.Some? == g.session.Some?
    requires g.session.Some? ==>
      var s, t := g.session.value, out.game.session.value;
      t.phase == s.phase && t.turn == s.turn && t.players == s.players
    ensures InStep(if out.result.Err? then c else ReceiveAll(c, me, mine, out.result.value), me, out.game)
  {
    hide SameTable;
    if out.result.Ok? { UnseenEffects(c, me, mine, out.result.value); }
  }

  lemma CommandStep(c: Page, me: UserId, g: Game, user: UserId, requestId: RequestId, now: Millis, command: Command, d: Durations)
    requires GameInv(g, d) && InStep(c, me, g) && Possible(g, Input.Client(user, requestId, now, command))
    ensures var out := Exec(g, Input.Client(user, requestId, now, command), d);
      InStep(if out.result.Err? then c else ReceiveAll(c, me, user == me && !c.reach.Offline?, out.result.value), me, out.game)
  {
    hide SessionInv, Replay, Occurrences, InStep, ReceiveAll, ParticipantIndex, IndexOf, RoomInv;
    var mine := user == me && !c.reach.Offline?;
    match command
    case JoinRoom => RoomStep(c, me, mine, g, Join(g.room.value, user), requestId, PlayerJoined(user), [JoinSocketRoom], d);
    case LeaveRoom => RoomStep(c, me, mine, g, Leave(g.room.value, user), requestId, PlayerLeft(user), [LeaveSocketRoom], d);
    case ChangeReadyState(isReady) =>
      RoomStep(c, me, mine, g, ChangeReady(g.room.value, user, isReady), requestId, PlayerReadyChanged(user, isReady), [], d);
    case StartGame(deal) => StartStep(c, me, mine, g, user, deal, requestId, now, d);
    case AdvancePhase =>
      if CanAdvancePhase(g.room.value, user).Ok? { PhaseStepInStep(c, me, mine, g, requestId, Some(user), now, d); }
    case Vote(target) => QuietStep(c, me, mine, g, ExecVote(g, user, target, requestId), d);
    case SelectTarget(slot, target) => QuietStep(c, me, mine, g, ExecNight(g, user, target, slot, requestId), d);
    case SendChat(channel, text) =>
      var m := ChatMessage(channel, text, user);
      if g.session.Some? {
        PrivateToIsUnseen(g.session.value.players, IsAliveMafia, Chat(m));
        PrivateToIsUnseen(g.session.value.players, IsDead, Chat(m));
      }
      QuietStep(c, me, mine, g, ExecChat(g, m, requestId), d);
    case OtherCommand(_) => QuietStep(c, me, mine, g, Outcome(g, Ok([])), d);
  }

  lemma ObserveInStep(c: Page, me: UserId, g: Game, input: Input, d: Durations)
    requires GameInv(g, d) && InStep(c, me, g) && Possible(g, input)
    ensures InStep(Observe(c, me, g, input, d), me, Exec(g, input, d).game)
  {
    match input
    case Timer(requestId, now) => PhaseStepInStep(c, me, false, g, requestId, None, now, d);
    case SocketLost(user) => if user != me { ConnectionStep(c, me, g, user, Disconnected, d); }
    case SocketOvertaken(user) => ConnectionStep(c, me, g, user, Disconnected, d);
    case SocketBack(user) =>
      if user == me { ReturnStep(c, me, g, d); } else { ConnectionStep(c, me, g, user, Connected, d); }
    case Client(user, requestId, now, command) => CommandStep(c, me, g, user, requestId, now, command, d);
  }

  lemma {:induction false} ObserveRunInStep(c: Page, me: UserId, g: Game, inputs: seq<Input>, d: Durations)
    requires GameInv(g, d) && InStep(c, me, g) && PossibleRun(g, inputs, d)
    ensures InStep(ObserveRun(c, me, g, inputs, d), me, Run(g, inputs, d))
  {
    if inputs != [] {
      PossiblePrefix(g, inputs, d);
      ObserveRunInStep(c, me, g, ButLast(inputs), d);
      RunKeepsInv(g, ButLast(inputs), d);
      ObserveInStep(ObserveRun(c, me, g, ButLast(inputs), d), me, Run(g, ButLast(inputs), d), Last(inputs), d);
    }
  }

  // ---- The derived actions ----

  function AliveViewIds(vs: seq<PlayerView>): seq<UserId> {
    if vs == [] then []
    else (if vs[0].status.Alive? then [vs[0].userId] else []) + AliveViewIds(vs[1..])
  }

  lemma {:induction false} AliveViewMembers(vs: seq<PlayerView>, x: UserId)
    requires forall i, j | 0 <= i < j < |vs| :: vs[i].userId != vs[j].userId
    ensures x in AliveViewIds(vs) <==> ViewIndex(vs, x) >= 0 && vs[ViewIndex(vs, x)].status.Alive?
  {
    if vs != [] { AliveViewMembers(vs[1..], x); }
  }

  function Derived(v: SessionView, me: UserId): seq<Action> {
    var i := ViewIndex(v.players, me);
    if i < 0 || v.players[i].connection.Disconnected? || v.phase.Finished? then []
    else
      var living := AliveViewIds(v.players);
      if v.players[i].status.Dead? then [ChatAction(GhostChat)]
      else match v.phase
        case Night =>
          (match v.players[i].role
           case Some(Mafia) => [SelectTargetAction(MafiaTarget, Without(living, me)), ChatAction(MafiaChat)]
           case Some(Doctor) => [SelectTargetAction(DoctorTarget, living)]
           case Some(Police) => [SelectTargetAction(PoliceTarget, Without(living, me))]
           case _ => [])
        case DayDiscussion => [ChatAction(DayChat)]
        case Voting => [CastVoteAction(living)]
        case _ => []
  }

  // Keeps the first occurrence of each action.
  method DedupeAvailableActions(actions: seq<Action>) returns (kept: seq<Action>)
    ensures Distinct(kept) && forall a :: a in kept <==> a in actions
    ensures Distinct(actions) ==> kept == actions
  {
    kept := [];
    var seen: set<Action> := {};
    for n := 0 to |actions|
      invariant Distinct(kept)
      invariant forall a :: a in seen <==> a in kept
      invariant forall a :: a in kept <==> a in actions[..n]
      invariant Distinct(actions) ==> kept == actions[..n]
    {
      if actions[n] !in seen {
        seen := seen + {actions[n]};
        kept := kept + [actions[n]];
      }
      assert actions[..n + 1] == actions[..n] + [actions[n]];
    }
    assert actions[..|actions|] == actions;
  }

  method DeriveAvailableActions(v: SessionView, me: UserId) returns (actions: seq<Action>)
    ensures actions == Derived(v, me)
  {
    var i := ViewIndex(v.players, me);
    if i < 0 { return []; }
    var player := v.players[i];
    if player.connection.Disconnected? { return []; }
    if v.phase.Finished? { return []; }
    var living := AliveViewIds(v.players);
    var others := Without(living, me);
    actions := [];
    if player.status.Dead? {
      actions := actions + [ChatAction(GhostChat)];
      actions := DedupeAvailableActions(actions);
      return;
    }
    if v.phase.Night? && player.status.Alive? {
      if player.role == Some(Mafia) {
        actions := actions + [SelectTargetAction(MafiaTarget, others)];
        actions := actions + [ChatAction(MafiaChat)];
      }
      if player.role == Some(Doctor) { actions := actions + [SelectTargetAction(DoctorTarget, living)]; }
      if player.role == Some(Police) { actions := actions + [SelectTargetAction(PoliceTarget, others)]; }
    }
    if v.phase.DayDiscussion? && player.status.Alive? { actions := actions + [ChatAction(DayChat)]; }
    if v.phase.Voting? && player.status.Alive? { actions := actions + [CastVoteAction(living)]; }
    actions := DedupeAvailableActions(actions);
  }

  ghost predicate SameAction(a: Action, b: Action) {
    match (a, b)
    case (CastVoteAction(ts), CastVoteAction(us)) => forall x :: x in ts <==> x in us
    case (SelectTargetAction(slot, ts), SelectTargetAction(slot', us)) => slot == slot' && forall x :: x in ts <==> x in us
    case (ChatAction(ch), ChatAction(ch')) => ch == ch'
    case _ => false
  }

  ghost predicate SameActions(xs: seq<Action>, ys: seq<Action>) {
    |xs| == |ys| && forall i | 0 <= i < |xs| :: SameAction(xs[i], ys[i])
  }

  lemma AgreementGivesActions(v: SessionView, s: Session, me: UserId)
    requires Agrees(v, s, me) && Distinct(Ids(s.players))
    ensures SameActions(Derived(v, me), Offered(s, me))
  {
    hide IndexOf, ViewIndex, Distinct, AliveViewIds, AliveIds, Without;
    var living, living' := AliveViewIds(v.players), AliveIds(s.players);
    forall x ensures (x in living <==> x in living') && (x in Without(living, me) <==> x in Without(living', me)) {
      AliveViewMembers(v.players, x);
      AliveIdsMembers(s.players, x);
      WithoutMembers(living, me, x);
      WithoutMembers(living', me, x);
    }
  }

  // A page that starts with the right room and misses nothing while it is connected always
  // shows the server's phase, turn and living players, and derives the actions the server
  // offers it: after every command, timer step, disconnect and reconnect.
  lemma PageAgreesWithServer(c: Page, me: UserId, host: UserId, maxPlayers: nat, inputs: seq<Input>, d: Durations)
    requires maxPlayers >= 2 && CanPlay(host, maxPlayers, inputs, d)
    requires c.view.session.None? && (c.reach.InRoom? ==> c.view.room == [host])
    requires Played(host, maxPlayers, inputs, d).session.Some?
    requires ObserveRun(c, me, NewGame(host, maxPlayers), inputs, d).reach.InRoom?
    ensures var s := Played(host, maxPlayers, inputs, d).session.value;
      var page := ObserveRun(c, me, NewGame(host, maxPlayers), inputs, d);
      && page.view.session.Some?
      && page.view.session.value.phase == s.phase
      && page.view.session.value.turn == s.turn
      && (forall id :: id in AliveViewIds(page.view.session.value.players) <==> Living(s.players, id))
      && SameActions(Derived(page.view.session.value, me), Offered(s, me))
  {
    hide Replay, Occurrences, SameActions, Count, IndexOf, ViewIndex, Derived, Offered;
    NewGameInv(host, maxPlayers, d);
    PlayedInv(host, maxPlayers, inputs, d);
    assert ParticipantIds(NewRoom(host, maxPlayers).participants) == [host];
    ObserveRunInStep(c, me, NewGame(host, maxPlayers), inputs, d);
    var s := Played(host, maxPlayers, inputs, d).session.value;
    var v := ObserveRun(c, me, NewGame(host, maxPlayers), inputs, d).view.session.value;
    forall id ensures id in AliveViewIds(v.players) <==> Living(s.players, id) {
      AliveViewMembers(v.players, id);
    }
    AgreementGivesActions(v, s, me);
  }
}
