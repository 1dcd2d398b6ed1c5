// The timeline endpoint: which events it serves, and when those include private ones.
module GameTimeline {
  import opened Common
  import opened Domain
  import opened Players
  import opened GameRules
  import opened RoomRules
  import opened GameSpec
  import opened Invariants
  import opened EventSourcing
  import opened GameRuns
  import opened ChatCache

  datatype Visibility = Everybody | OnePlayer | MafiaOnly | GhostOnly

  // The two visibilities the handlers record with an event.
  function DuringGame(e: Event): Visibility {
    match e
    case RoleAssigned(_) => OnePlayer
    case NightTargetSelected(slot, _, _) => if slot.MafiaTarget? then MafiaOnly else OnePlayer
    case ChatMessageSent(m) =>
      (match m.channel
       case LobbyChat => Everybody
       case DayChat => Everybody
       case MafiaChat => MafiaOnly
       case GhostChat => GhostOnly)
    case _ => Everybody
  }

  function AfterGame(e: Event): Visibility {
    Everybody
  }

  // The endpoint filters on the visibility after the game, whatever the phase and the caller.
  function Served(log: seq<Entry>): seq<Entry> {
    if log == [] then []
    else Served(ButLast(log)) + (if AfterGame(Last(log).event).Everybody? then [Last(log)] else [])
  }

  lemma FrontAndLast(log: seq<Entry>)
    requires log != []
    ensures ButLast(log) + [Last(log)] == log
  {
  }

  lemma {:induction false} EverythingIsServed(log: seq<Entry>)
    ensures Served(log) == log
  {
    if log != [] {
      var front, last := ButLast(log), Last(log);
      EverythingIsServed(front);
      hide Last, ButLast;
      assert Served(log) == front + [last];
      FrontAndLast(log);
    }
  }

  predicate Lists(log: seq<Entry>, id: UserId, role: Role) {
    exists e <- log :: e.event == RoleAssigned(Assignment(id, role))
  }

  predicate AllPublic(log: seq<Entry>) {
    forall e <- log :: DuringGame(e.event).Everybody?
  }

  // Before the start a log is public; from the start on it lists exactly the dealt roles.
  ghost predicate RolesListed(g: Game) {
    match g.session
    case None => AllPublic(g.log)
    case Some(s) => forall id, role :: Lists(g.log, id, role) <==> Has(s.players, id) && Get(s.players, id).role == role
  }

  predicate AssignsNobody(es: seq<Entry>) {
    forall e <- es :: !e.event.RoleAssigned?
  }

  lemma ListsAppend(log: seq<Entry>, es: seq<Entry>, id: UserId, role: Role)
    ensures Lists(log + es, id, role) <==> Lists(log, id, role) || Lists(es, id, role)
    ensures AssignsNobody(es) ==> !Lists(es, id, role)
  {
    if Lists(es, id, role) {
      var e :| e in es && e.event == RoleAssigned(Assignment(id, role));
      assert e in log + es;
    }
    if Lists(log, id, role) {
      var e :| e in log && e.event == RoleAssigned(Assignment(id, role));
      assert e in log + es;
    }
  }

  // A chat message's visibility during the game is its audience.
  lemma ChatVisibility(g: Game, m: ChatMessage, requestId: RequestId)
    requires ExecChat(g, m, requestId).result.Ok?
    ensures var out := ExecChat(g, m, requestId);
      match DuringGame(Last(out.game.log).event)
      case Everybody => out.result.value == [Broadcast(Chat(m))]
      case MafiaOnly => forall id :: Private(id, Chat(m)) in out.result.value
                          <==> exists p <- g.session.value.players :: p.userId == id && p.role.Mafia? && p.status.Alive?
      case GhostOnly => forall id :: Private(id, Chat(m)) in out.result.value
                          <==> exists p <- g.session.value.players :: p.userId == id && p.status.Dead?
      case OnePlayer => false
  {
    forall id { ChatReachesExactly(g, m, requestId, id); }
  }

  // ---- One step ----

  lemma LaterEntries(g: Game, input: Input, d: Durations) returns (added: seq<Entry>)
    requires GameInv(g, d) && g.session.Some?
    ensures Exec(g, input, d).game.log == g.log + added && AssignsNobody(added)
  {
    hide SessionInv, Replay, Occurrences, PhaseStep, CastVote, SelectNightAction, SetConnection, ParticipantIndex,
         ChatRefusal, ChatEffects, Get, IndexOf;
    var h := Exec(g, input, d).game;
    if h.log == g.log { added := []; assert g.log + [] == g.log; return; }
    if input.Timer? || (input.Client? && input.command.AdvancePhase?) {
      var now := input.now;
      var report := PhaseStep(g.session.value, now, d).report.value;
      added := PhaseEntries(report, if input.Timer? then None else Some(input.user), input.requestId);
    } else {
      added := [Last(h.log)];
    }
  }

  lemma EarlierStep(g: Game, input: Input, d: Durations)
    requires g.session.None? && AllPublic(g.log) && Exec(g, input, d).game.session.None?
    ensures AllPublic(Exec(g, input, d).game.log)
  {
    hide ParticipantIndex;
  }

  lemma DealListed(deal: seq<Assignment>, requestId: RequestId, id: UserId, role: Role)
    requires Distinct(DealtIds(deal))
    ensures Lists(RoleEntries(deal, requestId), id, role)
      <==> Has(DealtPlayers(deal), id) && Get(DealtPlayers(deal), id).role == role
  {
    var es, ps := RoleEntries(deal, requestId), DealtPlayers(deal);
    if Lists(es, id, role) {
      var k :| 0 <= k < |es| && es[k].event == RoleAssigned(Assignment(id, role));
      assert ps[k].userId == id && ps[k].role == role;
      assert Has(ps, id);
      assert DealtIds(deal)[k] == DealtIds(deal)[IndexOf(ps, id)];
    }
    if Has(ps, id) && Get(ps, id).role == role {
      assert es[IndexOf(ps, id)].event == RoleAssigned(Assignment(id, role));
      assert es[IndexOf(ps, id)] in es;
    }
  }

  lemma StartStep(g: Game, input: Input, d: Durations)
    requires GameInv(g, d) && g.session.None? && AllPublic(g.log) && Possible(g, input)
    requires Exec(g, input, d).game.session.Some?
    ensures RolesListed(Exec(g, input, d).game)
  {
    hide Replay, Occurrences, ParticipantIndex, IsDeal, Get, IndexOf;
    var deal, requestId := input.command.deal, input.requestId;
    var ids := ParticipantIds(g.room.value.participants);
    DealtRoster(ids, deal);
    assert Ids(DealtPlayers(deal)) == DealtIds(deal);
    var first := Entry(0, Waiting, requestId, GameStarted(input.user, input.now));
    var h := Exec(g, input, d).game;
    forall id, role ensures Lists(h.log, id, role)
      <==> Has(DealtPlayers(deal), id) && Get(DealtPlayers(deal), id).role == role {
      ListsAppend(g.log, [first], id, role);
      ListsAppend(g.log + [first], RoleEntries(deal, requestId), id, role);
      DealListed(deal, requestId, id, role);
      assert AssignsNobody([first]);
      PublicListsNobody(g.log, id, role);
    }
  }

  lemma PublicListsNobody(log: seq<Entry>, id: UserId, role: Role)
    requires AllPublic(log)
    ensures !Lists(log, id, role)
  {
  }

  lemma ListedStep(g: Game, input: Input, d: Durations)
    requires GameInv(g, d) && Possible(g, input) && RolesListed(g)
    ensures RolesListed(Exec(g, input, d).game)
  {
    hide Exec, GameInv, Possible, AllPublic, Lists;
    var h := Exec(g, input, d).game;
    if g.session.Some? {
      var added := LaterEntries(g, input, d);
      AtMostOneDies(g, input, d);
      forall id, role ensures Lists(h.log, id, role)
        <==> Has(h.session.value.players, id) && Get(h.session.value.players, id).role == role {
        ListsAppend(g.log, added, id, role);
        LookupSame(g.session.value.players, h.session.value.players, id);
      }
    } else if h.session.Some? {
      StartStep(g, input, d);
    } else {
      EarlierStep(g, input, d);
    }
  }

  lemma {:induction false} RunsListRoles(g: Game, inputs: seq<Input>, d: Durations)
    requires GameInv(g, d) && PossibleRun(g, inputs, d) && RolesListed(g)
    ensures RolesListed(Run(g, inputs, d))
  {
    hide Exec, GameInv, PossibleRun, RolesListed;
    if inputs != [] {
      PossiblePrefix(g, inputs, d);
      RunsListRoles(g, ButLast(inputs), d);
      RunKeepsInv(g, ButLast(inputs), d);
      ListedStep(Run(g, ButLast(inputs), d), Last(inputs), d);
    }
  }

  // From the first night on, the served timeline of every played game names every player's
  // role, and only true ones.
  lemma TimelineListsRoles(host: UserId, maxPlayers: nat, inputs: seq<Input>, d: Durations, id: UserId, role: Role)
    requires maxPlayers >= 2 && CanPlay(host, maxPlayers, inputs, d)
    ensures var g := Played(host, maxPlayers, inputs, d);
      Lists(Served(g.log), id, role) <==>
        g.session.Some? && Has(g.session.value.players, id) && Get(g.session.value.players, id).role == role
  {
    hide Exec, GameInv, PossibleRun, Lists, AllPublic, IndexOf;
    NewGameInv(host, maxPlayers, d);
    NothingLogged();
    RunsListRoles(NewGame(host, maxPlayers), inputs, d);
    var g := Played(host, maxPlayers, inputs, d);
    EverythingIsServed(g.log);
    if g.session.None? { PublicListsNobody(g.log, id, role); }
  }

  lemma NothingLogged()
    ensures AllPublic([])
  {
  }

  // The timeline of an unfinished game keeps to what the events allow during the game exactly
  // as long as the game has not started.
  lemma TimelineIsPublicIff(host: UserId, maxPlayers: nat, inputs: seq<Input>, d: Durations)
    requires maxPlayers >= 2 && CanPlay(host, maxPlayers, inputs, d)
    ensures var g := Played(host, maxPlayers, inputs, d);
      AllPublic(Served(g.log)) <==> g.session.None?
  {
    hide Exec, PossibleRun, Lists, AllPublic, IndexOf, Replay, Occurrences;
    NewGameInv(host, maxPlayers, d);
    NothingLogged();
    RunsListRoles(NewGame(host, maxPlayers), inputs, d);
    PlayedInv(host, maxPlayers, inputs, d);
    var g := Played(host, maxPlayers, inputs, d);
    EverythingIsServed(g.log);
    if g.session.Some? {
      var ps := g.session.value.players;
      var id, role := ps[0].userId, ps[0].role;
      assert IndexOf(ps, id) == 0;
      assert Lists(g.log, id, role);
      if AllPublic(g.log) { PublicListsNobody(g.log, id, role); }
    }
  }
}
