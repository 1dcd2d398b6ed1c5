// The actions the server offers a player, and that they are the ones it would accept.
module AvailableActions {
  import opened Common
  import opened Domain
  import opened Players
  import opened GameRules
  import opened RoomRules
  import opened GameSpec

  datatype Action =
    | CastVoteAction(targets: seq<UserId>)
    | SelectTargetAction(slot: Slot, targets: seq<UserId>)
    | ChatAction(channel: Channel)

  // The living players' ids, in roster order.
  function AliveIds(ps: seq<Player>): (ids: seq<UserId>) {
    if ps == [] then []
    else (if ps[0].status.Alive? then [ps[0].userId] else []) + AliveIds(ps[1..])
  }

  function Without(ids: seq<UserId>, id: UserId): seq<UserId> {
    if ids == [] then []
    else (if ids[0] != id then [ids[0]] else []) + Without(ids[1..], id)
  }

  lemma {:induction false} WithoutMembers(ids: seq<UserId>, id: UserId, x: UserId)
    ensures x in Without(ids, id) <==> x in ids && x != id
  {
    if ids != [] { WithoutMembers(ids[1..], id, x); }
  }

  lemma {:induction false} AliveIdsMembers(ps: seq<Player>, x: UserId)
    requires Distinct(Ids(ps))
    ensures x in AliveIds(ps) <==> Living(ps, x)
  {
    if ps != [] {
      assert Ids(ps)[1..] == Ids(ps[1..]);
      forall i, j | 0 <= i < j < |ps[1..]| ensures Ids(ps[1..])[i] != Ids(ps[1..])[j] {
        assert Ids(ps)[i + 1] != Ids(ps)[j + 1];
      }
      AliveIdsMembers(ps[1..], x);
      forall j | 0 <= j < |ps[1..]| ensures ps[1..][j].userId != ps[0].userId {
        assert Ids(ps)[0] != Ids(ps)[j + 1];
      }
    }
  }

  // What buildForPlayer offers, by phase, role and status.
  function Offered(s: Session, id: UserId): seq<Action> {
    if !Has(s.players, id) || Get(s.players, id).connection.Disconnected? || s.phase.Finished? then []
    else
      var p := Get(s.players, id);
      var living := AliveIds(s.players);
      if p.status.Dead? then [ChatAction(GhostChat)]
      else match s.phase
        case Voting => [CastVoteAction(living)]
        case Night =>
          (match p.role
           case Mafia => [SelectTargetAction(MafiaTarget, Without(living, id)), ChatAction(MafiaChat)]
           case Doctor => [SelectTargetAction(DoctorTarget, living)]
           case Police => [SelectTargetAction(PoliceTarget, Without(living, id))]
           case Citizen => [])
        case DayDiscussion => [ChatAction(DayChat)]
        case _ => []
  }

  // The branch-guarded pushes, in their order in the source.
  method BuildForPlayer(s: Session, id: UserId) returns (actions: seq<Action>)
    ensures actions == Offered(s, id)
  {
    if !Has(s.players, id) { return []; }
    var player := Get(s.players, id);
    if player.connection.Disconnected? { return []; }
    if s.phase.Finished? { return []; }
    actions := [];
    var living := AliveIds(s.players);
    var others := Without(living, id);
    if s.phase.Voting? && player.status.Alive? {
      actions := actions + [CastVoteAction(living)];
    }
    if s.phase.Night? && player.status.Alive? {
      if player.role.Mafia? {
        actions := actions + [SelectTargetAction(MafiaTarget, others)];
        actions := actions + [ChatAction(MafiaChat)];
      }
      if player.role.Doctor? {
        actions := actions + [SelectTargetAction(DoctorTarget, living)];
      }
      if player.role.Police? {
        actions := actions + [SelectTargetAction(PoliceTarget, others)];
      }
    }
    if s.phase.DayDiscussion? && player.status.Alive? {
      actions := actions + [ChatAction(DayChat)];
    }
    if player.status.Dead? {
      actions := actions + [ChatAction(GhostChat)];
    }
  }

  // The list offers this command.
  predicate Offers(actions: seq<Action>, command: Command) {
    match command
    case Vote(target) => exists a <- actions :: a.CastVoteAction? && target in a.targets
    case SelectTarget(slot, target) => exists a <- actions :: a.SelectTargetAction? && a.slot == slot && target in a.targets
    case SendChat(channel, _) => ChatAction(channel) in actions
    case _ => false
  }

  // The vote, or the night slot of the role, is still unused.
  predicate StillUnused(s: Session, id: UserId, command: Command) {
    match command
    case Vote(_) => id !in s.votes
    case SelectTarget(slot, _) => slot !in s.nightActions
    case _ => true
  }

  predicate InGameCommand(command: Command) {
    command.Vote? || command.SelectTarget? || (command.SendChat? && !command.channel.LobbyChat?)
  }

  // Offered exactly when accepted: for every player of the game, a vote, night action or
  // game chat is offered if and only if the server would accept it with a fresh request id,
  // the game is unfinished and the player connected, and the action is not used up.
  lemma OfferedIffAccepted(g: Game, id: UserId, command: Command, requestId: RequestId, now: Millis, d: Durations)
    requires g.session.Some? && InGameCommand(command)
    requires Distinct(Ids(g.session.value.players)) && Has(g.session.value.players, id)
    requires requestId !in g.session.value.processedRequests
    ensures var s := g.session.value;
      && (StillUnused(s, id, command) && !s.phase.Finished? && Get(s.players, id).connection.Connected? ==>
          (Offers(Offered(s, id), command) <==> Exec(g, Client(id, requestId, now, command), d).result.Ok?))
      && (s.phase.Finished? || Get(s.players, id).connection.Disconnected? ==> !Offers(Offered(s, id), command))
      && (!StillUnused(s, id, command) ==> Exec(g, Client(id, requestId, now, command), d).result.Err?)
  {
    hide Distinct, IndexOf, AliveIds, Without;
    var s := g.session.value;
    var living := AliveIds(s.players);
    if command.Vote? || command.SelectTarget? {
      AliveIdsMembers(s.players, command.target);
      WithoutMembers(living, id, command.target);
    }
    var actions := Offered(s, id);
    assert |actions| <= 2;
  }
}
