// The gateway: what one server instance does with a timer entry, with a client's command and
// with a lost or returning socket, and that each is a step of the machines of the other modules.
module Gateway {
  import opened Common
  import opened Domain
  import opened Players
  import opened GameRules
  import opened RoomRules
  import opened GameSpec
  import opened PhaseTimers
  import opened ChatCache
  import opened ConnectionStates
  import opened RequestIdempotency
  import opened GameLock
  import opened GameClock
  import opened EventRecorder
  import opened CommandService

  // ---- Applying effects ----

  datatype Sent = Sent(roomId: GameId, effect: Effect)

  // Everything but joining and leaving is sent, in order.
  function SentAfter(sent: seq<Sent>, gameId: GameId, es: seq<Effect>): seq<Sent>
    decreases |es|
  {
    if es == [] then sent
    else SentAfter(if es[0].Broadcast? || es[0].Private? then sent + [Sent(gameId, es[0])] else sent, gameId, es[1..])
  }

  function BroadcastsOf(es: seq<Effect>): seq<Effect> {
    if es == [] then [] else (if es[0].Broadcast? then [es[0]] else []) + BroadcastsOf(es[1..])
  }

  // The rooms a socket is in.
  function JoinedAfter(joined: set<(SocketId, GameId)>, socket: SocketId, gameId: GameId, es: seq<Effect>): set<(SocketId, GameId)>
    decreases |es|
  {
    if es == [] then joined
    else
      var joined := if es[0].JoinSocketRoom? then joined + {(socket, gameId)}
                    else if es[0].LeaveSocketRoom? then joined - {(socket, gameId)}
                    else joined;
      JoinedAfter(joined, socket, gameId, es[1..])
  }

  // The connection record kept for the client.
  function IndexAfter(index: Index, user: UserId, socket: SocketId, gameId: GameId, now: Millis, es: seq<Effect>): Index
    decreases |es|
  {
    if es == [] then index
    else
      var index := if es[0].JoinSocketRoom? then After(index, SetRoom(user, socket, now, gameId))
                   else if es[0].LeaveSocketRoom? then After(index, ClearRoom(user, socket, now, gameId))
                   else index;
      IndexAfter(index, user, socket, gameId, now, es[1..])
  }

  predicate Sendable(e: Effect) {
    e.Broadcast? || e.Private?
  }

  // Every broadcast and every private message is sent, as often as it occurs and in its place;
  // nothing else is.
  lemma {:induction false} SentExactly(sent: seq<Sent>, gameId: GameId, es: seq<Effect>, e: Effect)
    ensures sent <= SentAfter(sent, gameId, es)
    ensures Sent(gameId, e) in SentAfter(sent, gameId, es) <==> Sent(gameId, e) in sent || (e in es && Sendable(e))
    ensures multiset(SentAfter(sent, gameId, es))[Sent(gameId, e)]
         == multiset(sent)[Sent(gameId, e)] + if Sendable(e) then multiset(es)[e] else 0
    ensures |SentAfter(sent, gameId, es)| <= |sent| + |es|
    decreases |es|
  {
    if es != [] {
      assert es == [es[0]] + es[1..];
      var first := if Sendable(es[0]) then sent + [Sent(gameId, es[0])] else sent;
      SentExactly(first, gameId, es[1..], e);
      assert sent <= first;
    }
  }

  lemma {:induction false} SentLast(sent: seq<Sent>, gameId: GameId, es: seq<Effect>, e: Effect)
    ensures SentAfter(sent, gameId, es + [e])
         == SentAfter(sent, gameId, es) + if Sendable(e) then [Sent(gameId, e)] else []
    decreases |es|
  {
    if es != [] {
      assert (es + [e])[1..] == es[1..] + [e];
      SentLast(if Sendable(es[0]) then sent + [Sent(gameId, es[0])] else sent, gameId, es[1..], e);
    }
  }

  // The timer sends the broadcasts, each as often as it occurs and in its place.
  lemma {:induction false} BroadcastsExactly(es: seq<Effect>, e: Effect)
    ensures multiset(BroadcastsOf(es))[e] == if e.Broadcast? then multiset(es)[e] else 0
    ensures BroadcastsOf(es + [e]) == BroadcastsOf(es) + if e.Broadcast? then [e] else []
  {
    if es != [] {
      assert es == [es[0]] + es[1..] && (es + [e])[1..] == es[1..] + [e];
      BroadcastsExactly(es[1..], e);
    }
  }

  // The last joining or leaving decides where the socket and the record are; no other socket
  // or room is touched.
  lemma {:induction false} LastMoveDecides(joined: set<(SocketId, GameId)>, index: Index, user: UserId, socket: SocketId,
                                           gameId: GameId, now: Millis, es: seq<Effect>, e: Effect)
    ensures var before, after := JoinedAfter(joined, socket, gameId, es), JoinedAfter(joined, socket, gameId, es + [e]);
      && ((socket, gameId) in after <==> e.JoinSocketRoom? || (!e.LeaveSocketRoom? && (socket, gameId) in before))
      && (forall other | other != (socket, gameId) :: other in after <==> other in joined)
    ensures var before, after := IndexAfter(index, user, socket, gameId, now, es),
                                 IndexAfter(index, user, socket, gameId, now, es + [e]);
      after == if e.JoinSocketRoom? then After(before, SetRoom(user, socket, now, gameId))
               else if e.LeaveSocketRoom? then After(before, ClearRoom(user, socket, now, gameId)) else before
    decreases |es|
  {
    hide After;
    var first := (es + [e])[0];
    var here := if first.JoinSocketRoom? then joined + {(socket, gameId)}
                else if first.LeaveSocketRoom? then joined - {(socket, gameId)} else joined;
    var record := if first.JoinSocketRoom? then After(index, SetRoom(user, socket, now, gameId))
                  else if first.LeaveSocketRoom? then After(index, ClearRoom(user, socket, now, gameId)) else index;
    if es != [] {
      assert (es + [e])[1..] == es[1..] + [e];
      LastMoveDecides(here, record, user, socket, gameId, now, es[1..], e);
    } else {
      assert ([] + [e])[1..] == [];
    }
  }

  // What an accepted command sends and where it leaves its socket: a start sends each dealt
  // player the own role; an investigation its answer; joining and leaving move the socket.
  lemma CommandIsDelivered(g: Game, user: UserId, r: RequestId, now: Millis, command: Command, d: Durations,
                           sent: seq<Sent>, joined: set<(SocketId, GameId)>, index: Index, socket: SocketId, gameId: GameId)
    requires Exec(g, Client(user, r, now, command), d).result.Ok?
    ensures var es := Exec(g, Client(user, r, now, command), d).result.value;
      var out, rooms := SentAfter(sent, gameId, es), JoinedAfter(joined, socket, gameId, es);
      && (command.StartGame? ==>
            forall a <- command.deal :: Sent(gameId, Private(a.userId, RoleAssignedMessage(a))) in out)
      && (command.SelectTarget? && command.slot.PoliceTarget? ==>
            exists role :: Sent(gameId, Private(user, InvestigationResult(command.target, role))) in out)
      && (command.JoinRoom? ==>
            && (socket, gameId) in rooms
            && IndexAfter(index, user, socket, gameId, now, es) == After(index, SetRoom(user, socket, now, gameId)))
      && (command.LeaveRoom? ==>
            && (socket, gameId) !in rooms
            && IndexAfter(index, user, socket, gameId, now, es) == After(index, ClearRoom(user, socket, now, gameId)))
      && (!command.JoinRoom? && !command.LeaveRoom? ==>
            rooms == joined && IndexAfter(index, user, socket, gameId, now, es) == index)
  {
    hide SentAfter, JoinedAfter, IndexAfter, After, CastVote, PhaseStep, ParticipantIndex, ChatRefusal, IndexOf, Start, PrivateTo;
    var es := Exec(g, Client(user, r, now, command), d).result.value;
    if command.StartGame? {
      var room := Start(g.room.value, user).value;
      RolesAreSent(g, user, command.deal, r, now, d, sent, gameId);
    } else if command.SelectTarget? && command.slot.PoliceTarget? {
      SentExactly(sent, gameId, es, es[0]);
    }
    if command.JoinRoom? || command.LeaveRoom? {
      assert es == [es[0]] + [es[1]];
      MoveThenTell(joined, index, user, socket, gameId, now, es);
    } else {
      MovesNobody(g, user, r, now, command, d);
      StaysPut(joined, index, user, socket, gameId, now, es);
    }
  }

  lemma RolesAreSent(g: Game, user: UserId, deal: seq<Assignment>, r: RequestId, now: Millis, d: Durations, sent: seq<Sent>, gameId: GameId)
    requires ExecStart(g, user, deal, r, now, d).result.Ok?
    ensures forall a <- deal ::
      Sent(gameId, Private(a.userId, RoleAssignedMessage(a))) in SentAfter(sent, gameId, ExecStart(g, user, deal, r, now, d).result.value)
  {
    hide SentAfter, Start;
    var es := ExecStart(g, user, deal, r, now, d).result.value;
    forall a | a in deal ensures Sent(gameId, Private(a.userId, RoleAssignedMessage(a))) in SentAfter(sent, gameId, es) {
      var i :| 0 <= i < |deal| && deal[i] == a;
      assert es[i + 1] == Private(a.userId, RoleAssignedMessage(a));
      SentExactly(sent, gameId, es, es[i + 1]);
    }
  }

  lemma MovesNobody(g: Game, user: UserId, r: RequestId, now: Millis, command: Command, d: Durations)
    requires Exec(g, Client(user, r, now, command), d).result.Ok? && !command.JoinRoom? && !command.LeaveRoom?
    ensures forall e <- Exec(g, Client(user, r, now, command), d).result.value :: Sendable(e)
  {
    hide CastVote, PhaseStep, ParticipantIndex, ChatRefusal, IndexOf, Start, PrivateTo;
    if command.SendChat? && g.session.Some? {
      var m := ChatMessage(command.channel, command.text, user);
      PrivateToIff(g.session.value.players, IsAliveMafia, Chat(m), user);
      PrivateToIff(g.session.value.players, IsDead, Chat(m), user);
    }
  }

  lemma MoveThenTell(joined: set<(SocketId, GameId)>, index: Index, user: UserId, socket: SocketId, gameId: GameId, now: Millis, es: seq<Effect>)
    requires |es| == 2 && (es[0].JoinSocketRoom? || es[0].LeaveSocketRoom?) && es[1].Broadcast?
    ensures (socket, gameId) in JoinedAfter(joined, socket, gameId, es) <==> es[0].JoinSocketRoom?
    ensures IndexAfter(index, user, socket, gameId, now, es)
         == After(index, if es[0].JoinSocketRoom? then SetRoom(user, socket, now, gameId) else ClearRoom(user, socket, now, gameId))
  {
    hide After;
    LastMoveDecides(joined, index, user, socket, gameId, now, [], es[0]);
    LastMoveDecides(joined, index, user, socket, gameId, now, [es[0]], es[1]);
    assert [] + [es[0]] == [es[0]] && [es[0]] + [es[1]] == es;
  }

  lemma {:induction false} StaysPut(joined: set<(SocketId, GameId)>, index: Index, user: UserId, socket: SocketId, gameId: GameId, now: Millis, es: seq<Effect>)
    requires forall e <- es :: Sendable(e)
    ensures JoinedAfter(joined, socket, gameId, es) == joined && IndexAfter(index, user, socket, gameId, now, es) == index
  {
    hide After;
    if es != [] { assert Sendable(es[0]); StaysPut(joined, index, user, socket, gameId, now, es[1..]); }
  }

  class EffectApplier {
    const timers: PhaseTimerService
    const cache: ChatMessageCache
    const connections: ConnectionStateService
    var sent: seq<Sent>
    var joined: set<(SocketId, GameId)>

    constructor (timers: PhaseTimerService, cache: ChatMessageCache, connections: ConnectionStateService)
      ensures this.timers == timers && this.cache == cache && this.connections == connections
      ensures sent == [] && joined == {}
    {
      this.timers, this.cache, this.connections := timers, cache, connections;
      sent, joined := [], {};
    }

    method SchedulePhaseTimer(gameId: GameId, e: Effect)
      requires e.Broadcast?
      modifies timers
      ensures timers.members == TimerAfter(old(timers.members), gameId, e)
    {
      if !e.message.GameStartedMessage? && !e.message.PhaseChangedMessage? { return; }
      if e.message.phaseEndsAt.None? {
        timers.ClearGame(gameId);
        return;
      }
      timers.Schedule(TimerEntry(gameId, e.message.phaseEndsAt.value));
    }

    // The loop over a command's effects: join or leave the socket room and keep the record
    // of it, send the rest, schedule from broadcasts, and cache chat messages once.
    method ApplyCommandEffects(gameId: GameId, user: UserId, socket: SocketId, now: Millis, effects: seq<Effect>)
      requires cache.Valid()
      modifies this, timers, cache, connections
      ensures cache.Valid()
      ensures timers.members == TimersAfter(old(timers.members), gameId, effects)
      ensures cache.lists == PushedAll(old(cache.lists), gameId, NewChats(effects, {}), cache.limit)
      ensures sent == SentAfter(old(sent), gameId, effects)
      ensures joined == JoinedAfter(old(joined), socket, gameId, effects)
      ensures connections.Stored() == IndexAfter(old(connections.Stored()), user, socket, gameId, now, effects)
    {
      hide PushedAll, After;
      var seen: set<ChatMessage> := {};
      for n := 0 to |effects|
        invariant cache.Valid()
        invariant TimersAfter(timers.members, gameId, effects[n..]) == TimersAfter(old(timers.members), gameId, effects)
        invariant PushedAll(cache.lists, gameId, NewChats(effects[n..], seen), cache.limit)
               == PushedAll(old(cache.lists), gameId, NewChats(effects, {}), cache.limit)
        invariant SentAfter(sent, gameId, effects[n..]) == SentAfter(old(sent), gameId, effects)
        invariant JoinedAfter(joined, socket, gameId, effects[n..]) == JoinedAfter(old(joined), socket, gameId, effects)
        invariant IndexAfter(connections.Stored(), user, socket, gameId, now, effects[n..])
               == IndexAfter(old(connections.Stored()), user, socket, gameId, now, effects)
      {
        var e := effects[n];
        assert effects[n..][1..] == effects[n + 1..];
        if e.JoinSocketRoom? {
          joined := joined + {(socket, gameId)};
          var _ := connections.SetSocketRoom(user, socket, gameId, now);
        } else if e.LeaveSocketRoom? {
          joined := joined - {(socket, gameId)};
          var _ := connections.ClearSocketRoom(user, socket, gameId, now);
        } else {
          sent := sent + [Sent(gameId, e)];
          if e.Broadcast? { SchedulePhaseTimer(gameId, e); }
          var m := ChatOf(e);
          if m.Some? && m.value !in seen {
            PushFirst(cache.lists, gameId, m.value, NewChats(effects[n + 1..], seen + {m.value}), cache.limit);
            seen := seen + {m.value};
            cache.Append(gameId, m.value);
          }
        }
      }
      PushNone(cache.lists, gameId, effects[|effects|..], seen, cache.limit);
    }

    // The timer's effects: broadcasts only.
    method ApplySystemCommandEffects(gameId: GameId, effects: seq<Effect>)
      requires cache.Valid()
      modifies this, timers, cache
      ensures cache.Valid()
      ensures timers.members == TimersAfter(old(timers.members), gameId, effects)
      ensures cache.lists == PushedAll(old(cache.lists), gameId, NewChats(BroadcastsOf(effects), {}), cache.limit)
      ensures sent == SentAfter(old(sent), gameId, BroadcastsOf(effects)) && joined == old(joined)
    {
      hide PushedAll;
      var seen: set<ChatMessage> := {};
      for n := 0 to |effects|
        invariant cache.Valid() && joined == old(joined)
        invariant TimersAfter(timers.members, gameId, effects[n..]) == TimersAfter(old(timers.members), gameId, effects)
        invariant PushedAll(cache.lists, gameId, NewChats(BroadcastsOf(effects[n..]), seen), cache.limit)
               == PushedAll(old(cache.lists), gameId, NewChats(BroadcastsOf(effects), {}), cache.limit)
        invariant SentAfter(sent, gameId, BroadcastsOf(effects[n..])) == SentAfter(old(sent), gameId, BroadcastsOf(effects))
      {
        var e := effects[n];
        assert effects[n..][1..] == effects[n + 1..];
        if e.Broadcast? {
          ghost var rest := BroadcastsOf(effects[n + 1..]);
          assert BroadcastsOf(effects[n..]) == [e] + rest && ([e] + rest)[1..] == rest;
          sent := sent + [Sent(gameId, e)];
          SchedulePhaseTimer(gameId, e);
          var m := ChatOf(e);
          if m.Some? && m.value !in seen {
            PushFirst(cache.lists, gameId, m.value, NewChats(rest, seen + {m.value}), cache.limit);
            seen := seen + {m.value};
            cache.Append(gameId, m.value);
          }
        } else {
          assert BroadcastsOf(effects[n..]) == BroadcastsOf(effects[n + 1..]);
        }
      }
      PushNone(cache.lists, gameId, BroadcastsOf(effects[|effects|..]), seen, cache.limit);
    }
  }

  lemma PushFirst(lists: Lists, gameId: GameId, m: ChatMessage, rest: seq<ChatMessage>, limit: nat)
    ensures PushedAll(lists, gameId, [m] + rest, limit) == PushedAll(Pushed(lists, gameId, m, limit), gameId, rest, limit)
  {
    assert ([m] + rest)[1..] == rest;
  }

  lemma PushNone(lists: Lists, gameId: GameId, es: seq<Effect>, seen: set<ChatMessage>, limit: nat)
    requires es == []
    ensures PushedAll(lists, gameId, NewChats(es, seen), limit) == lists
  {
  }

  // ---- The stores as one world ----

  // The three ways a handling of one entry ends.
  lemma OneHandling(games: map<GameId, Game>, timers: set<TimerEntry>, now: Millis, later: Millis, e: TimerEntry,
                    requestId: RequestId, d: Durations)
    ensures var w := WorldNext(World(games, timers, now, map[0 := Listed(e)]), Checked(0), d);
      && 0 in w.polls
      && (w.polls[0].Matched? <==> Current(games, e)) && (w.polls[0].Stale? <==> !Current(games, e))
      && (!Current(games, e) ==> WorldNext(w, Dropped(0), d) == World(games, timers - {e}, now, map[]))
      && (Current(games, e) ==>
            && WorldNext(w.(now := later), GaveUp(0), d) == World(games, timers, later, map[])
            && WorldNext(w.(now := later), Fired(0, requestId), d)
                 == (var out := Exec(games[e.gameId], Timer(requestId, later), d);
                     World(games[e.gameId := out.game],
                           (if out.result.Err? then timers else TimersAfter(timers, e.gameId, out.result.value)) - {e},
                           later, map[])))
  {
    hide Exec, TimersAfter;
    assert map[0 := Stale(e)] - {0} == map[];
    assert map[0 := Matched(e)] - {0} == map[];
  }

  predicate Exists(g: Game) {
    g.room.Some? || g.session.Some?
  }

  lemma StepKeepsExistence(g: Game, input: Input, d: Durations)
    ensures Exists(g) ==> Exists(Exec(g, input, d).game)
    ensures !Exists(g) ==> Exec(g, input, d).game == g
    ensures !Exists(g) && Exec(g, input, d).result.Ok? ==> Exec(g, input, d).result.value == []
  {
    hide PhaseStep, CastVote, SelectNightAction, SetConnection, ParticipantIndex, IndexOf;
  }

  // The delivery 0 makes these moves, one after the other, and ends with these records.
  ghost predicate Delivers(w: Registry, moves: seq<Move>, records: map<RequestKey, Record>, progress: Progress, known: set<Text>)
    decreases |moves|
  {
    if moves == [] then w.records == records && 0 in w.deliveries && w.deliveries[0].progress == progress
    else CanMove(w, moves[0], known) && Delivers(Moved(w, moves[0], known), moves[1..], records, progress, known)
  }

  lemma OneDelivery(records: map<RequestKey, Record>, key: RequestKey, commandType: Text, known: set<Text>)
    ensures key in records ==>
      Delivers(Arrived(records, key, commandType), [SetNx(0), FindRecord(0)], records,
        if records[key].completed then RepeatAnswered(Replayed(records[key], commandType, known)) else RepeatInProgress, known)
    ensures var w, v := Moved(Arrived(records, key, commandType), SetNx(0), {}), Moved(Arrived(records, key, commandType), SetNx(0), known);
      w == v && 0 in w.deliveries
      && (if key in records then w.records == records && w.deliveries[0].progress.LostRace?
          else w.records == records[key := ProcessingRecord(commandType)] && w.deliveries[0].progress.Running?)
  {
    var moves := [SetNx(0), FindRecord(0)];
    assert moves[1..] == [FindRecord(0)] && moves[1..][1..] == [];
  }

  lemma OneAnswer(records: map<RequestKey, Record>, key: RequestKey, commandType: Text, reply: Reply, known: set<Text>)
    requires key !in records && Standard(reply, known)
    ensures var after := records[key := ProcessingRecord(commandType)][key := CompletedRecord(commandType, reply)];
      && Delivers(Arrived(records, key, commandType), [SetNx(0), Execute(0, reply), Store(0)], after, Done(reply), known)
      && (reply.RejectedReply? ==>
            Delivers(Arrived(records, key, commandType), [SetNx(0), LockBusy(0, reply), Store(0)], after, Done(reply), known))
  {
    var w := Moved(Arrived(records, key, commandType), SetNx(0), known);
    AnswerThenStore(w, Execute(0, reply), reply, known);
    DeliversPush(Arrived(records, key, commandType), SetNx(0), [Execute(0, reply), Store(0)],
      Moved(Moved(w, Execute(0, reply), known), Store(0), known).records, Done(reply), known);
    if reply.RejectedReply? {
      AnswerThenStore(w, LockBusy(0, reply), reply, known);
      DeliversPush(Arrived(records, key, commandType), SetNx(0), [LockBusy(0, reply), Store(0)],
        Moved(Moved(w, LockBusy(0, reply), known), Store(0), known).records, Done(reply), known);
    }
  }

  lemma AnswerThenStore(w: Registry, answer: Move, reply: Reply, known: set<Text>)
    requires answer in {Execute(0, reply), LockBusy(0, reply)} && CanMove(w, answer, known)
    ensures var answered := Moved(w, answer, known);
      && CanMove(answered, Store(0), known)
      && Delivers(w, [answer, Store(0)], Moved(answered, Store(0), known).records, Done(reply), known)
  {
    assert [answer, Store(0)][1..] == [Store(0)] && [Store(0)][1..] == [];
  }

  lemma DeliversPush(w: Registry, move: Move, rest: seq<Move>, records: map<RequestKey, Record>, progress: Progress, known: set<Text>)
    requires CanMove(w, move, known) && Delivers(Moved(w, move, known), rest, records, progress, known)
    ensures Delivers(w, [move] + rest, records, progress, known)
  {
    assert ([move] + rest)[1..] == rest;
  }

  datatype TimerOutcome = EntryDropped | LockWasBusy | EntryFired

  class RealtimeGateway {
    const commands: GameCommandService
    const applier: EffectApplier
    const registry: RequestIdempotencyService
    const reasonOf: Error -> Text  // the published reason of each error
    const messageOf: Error -> Text
    const known: set<Text>  // the published reasons

    constructor (commands: GameCommandService, applier: EffectApplier, registry: RequestIdempotencyService,
                 reasonOf: Error -> Text, messageOf: Error -> Text, known: set<Text>)
      ensures this.commands == commands && this.applier == applier && this.registry == registry
      ensures this.reasonOf == reasonOf && this.messageOf == messageOf && this.known == known
    {
      this.commands, this.applier, this.registry := commands, applier, registry;
      this.reasonOf, this.messageOf, this.known := reasonOf, messageOf, known;
    }

    ghost predicate Published() {
      LOCK_BUSY in known && forall e :: reasonOf(e) in known
    }

    ghost function GamesAt(): map<GameId, Game>
      reads commands.rooms, commands.sessions, commands.recorder
    {
      map id | id in commands.rooms.rooms.Keys + commands.sessions.sessions.Keys :: commands.GameAt(id)
    }

    ghost function WorldAt(now: Millis, polls: map<Worker, Poll>): World
      reads commands.rooms, commands.sessions, commands.recorder, applier.timers
    {
      World(GamesAt(), applier.timers.members, now, polls)
    }

    // When one game changed, and still exists, the world's games are updated at its id.
    twostate lemma GamesUpdated(gameId: GameId)
      requires forall other | other != gameId :: commands.GameAt(other) == old(commands.GameAt(other))
      requires Exists(old(commands.GameAt(gameId))) && Exists(commands.GameAt(gameId))
      ensures GamesAt() == old(GamesAt())[gameId := commands.GameAt(gameId)]
    {
      forall id ensures id in GamesAt() <==> Exists(commands.GameAt(id)) {}
      forall id ensures id in old(GamesAt()) <==> Exists(old(commands.GameAt(id))) {}
    }

    lemma GameIn(gameId: GameId)
      ensures gameId in GamesAt() ==> GamesAt()[gameId] == commands.GameAt(gameId)
    {
    }

    twostate lemma GamesUnchanged()
      requires forall id :: commands.GameAt(id) == old(commands.GameAt(id))
      ensures GamesAt() == old(GamesAt())
    {
      forall id ensures id in GamesAt() <==> Exists(commands.GameAt(id)) {}
      forall id ensures id in old(GamesAt()) <==> Exists(old(commands.GameAt(id))) {}
    }

    // Under the lock: advance, send and schedule, and complete the entry.
    method FireEntry(e: TimerEntry, requestId: RequestId, now: Millis)
      requires applier.cache.Valid() && Exists(commands.GameAt(e.gameId))
      modifies commands.sessions, commands.recorder, applier, applier.timers, applier.cache
      ensures applier.cache.Valid()
      ensures var out := Exec(old(commands.GameAt(e.gameId)), Timer(requestId, now), commands.sessions.durations);
        && GamesAt() == old(GamesAt())[e.gameId := out.game]
        && applier.timers.members
             == (if out.result.Err? then old(applier.timers.members)
                 else TimersAfter(old(applier.timers.members), e.gameId, out.result.value)) - {e}
        && applier.sent == if out.result.Err? then old(applier.sent)
                           else SentAfter(old(applier.sent), e.gameId, BroadcastsOf(out.result.value))
    {
      hide ExecPhase, TimersAfter, EntriesOf, PushedAll, NewChats, SentAfter, BroadcastsOf;
      var result := commands.AdvancePhaseAutomatically(e.gameId, requestId, now);
      StepKeepsExistence(old(commands.GameAt(e.gameId)), Timer(requestId, now), commands.sessions.durations);
      GamesUpdated(e.gameId);
      if result.Ok? { applier.ApplySystemCommandEffects(e.gameId, result.value); }
      applier.timers.Complete(e);
    }

    // One due entry, alone: compare, then fire under the lock.
    method AdvancePhaseFromTimer(e: TimerEntry, requestId: RequestId, lock: LockStore, ttlMs: nat, waitMs: nat, retryMs: nat)
      returns (outcome: TimerOutcome)
      requires applier.cache.Valid() && ttlMs > 0 && waitMs > 0 && retryMs > 0
      modifies commands.sessions, commands.recorder, applier, applier.timers, applier.cache, lock
      ensures applier.cache.Valid() && lock.now >= old(lock.now)
      ensures var d := commands.sessions.durations;
        var w := WorldNext(old(WorldAt(lock.now, map[0 := Listed(e)])), Checked(0), d);
        match outcome
        case EntryDropped => w.polls[0].Stale? && WorldAt(lock.now, map[]) == WorldNext(w, Dropped(0), d)
        case LockWasBusy => w.polls[0].Matched? && WorldAt(lock.now, map[]) == WorldNext(w.(now := lock.now), GaveUp(0), d)
        case EntryFired => w.polls[0].Matched? && WorldAt(lock.now, map[]) == WorldNext(w.(now := lock.now), Fired(0, requestId), d)
      ensures var out := Exec(old(commands.GameAt(e.gameId)), Timer(requestId, lock.now), commands.sessions.durations);
        applier.sent == if !outcome.EntryFired? || out.result.Err? then old(applier.sent)
                        else SentAfter(old(applier.sent), e.gameId, BroadcastsOf(out.result.value))
    {
      hide Exec, TimersAfter, EntriesOf, WorldNext, SentAfter, BroadcastsOf;
      var id := e.gameId;
      var sessions := commands.sessions.sessions;
      if id !in sessions || sessions[id].phase.Finished? || sessions[id].phaseEndsAt != Some(e.at) {
        OneHandling(GamesAt(), applier.timers.members, lock.now, lock.now, e, requestId, commands.sessions.durations);
        applier.timers.Complete(e);
        return EntryDropped;
      }
      var token := lock.Acquire(ttlMs, waitMs, retryMs);
      OneHandling(GamesAt(), applier.timers.members, old(lock.now), lock.now, e, requestId, commands.sessions.durations);
      if token.None? { return LockWasBusy; }
      FireEntry(e, requestId, lock.now);
      var _ := lock.Release(token.value);
      outcome := EntryFired;
    }

    method RunCommand(key: RequestKey, command: Command, now: Millis) returns (result: Response, ran: Command)
      modifies commands.rooms, commands.sessions, commands.recorder
      ensures if command.StartGame? then ran.StartGame? else ran == command
      ensures var out := Exec(old(commands.GameAt(key.gameId)), Client(key.userId, key.requestId, now, ran), commands.sessions.durations);
        && result == out.result
        && (if key.gameId in old(GamesAt()) then GamesAt() == old(GamesAt())[key.gameId := out.game]
            else GamesAt() == old(GamesAt()) && (result.Ok? ==> result.value == []))
    {
      hide Exec, EntriesOf;
      var id := key.gameId;
      result, ran := commands.HandleCommand(id, key.userId, key.requestId, now, command);
      StepKeepsExistence(old(commands.GameAt(id)), Client(key.userId, key.requestId, now, ran), commands.sessions.durations);
      if Exists(old(commands.GameAt(id))) { GamesUpdated(id); } else { GamesUnchanged(); }
    }

    // These effects, and no others, were sent and applied to the caller's socket and record.
    twostate predicate Delivered(key: RequestKey, socket: SocketId, now: Millis, es: seq<Effect>)
      reads applier, applier.connections
    {
      && applier.sent == SentAfter(old(applier.sent), key.gameId, es)
      && applier.joined == JoinedAfter(old(applier.joined), socket, key.gameId, es)
      && applier.connections.Stored() == IndexAfter(old(applier.connections.Stored()), key.userId, socket, key.gameId, now, es)
    }

    // Execute, send, reply, and store the reply for repeats.
    method ExecuteCommandWithCompletion(key: RequestKey, commandType: Text, command: Command, socket: SocketId, now: Millis)
      returns (reply: Reply, ran: Command)
      requires applier.cache.Valid()
      modifies commands.rooms, commands.sessions, commands.recorder, registry
      modifies applier, applier.timers, applier.cache, applier.connections
      ensures applier.cache.Valid()
      ensures registry.records == old(registry.records)[key := CompletedRecord(commandType, reply)]
      ensures if command.StartGame? then ran.StartGame? else ran == command
      ensures var out := Exec(old(commands.GameAt(key.gameId)), Client(key.userId, key.requestId, now, ran), commands.sessions.durations);
        && reply == (if out.result.Ok? then AcceptedReply(commandType)
                     else RejectedReply(reasonOf(out.result.error), messageOf(out.result.error)))
        && GamesAt() == (if key.gameId in old(GamesAt()) then old(GamesAt())[key.gameId := out.game] else old(GamesAt()))
        && applier.timers.members
             == (if out.result.Err? then old(applier.timers.members)
                 else TimersAfter(old(applier.timers.members), key.gameId, out.result.value))
        && (key.gameId !in old(GamesAt()) ==> applier.timers.members == old(applier.timers.members))
        && Delivered(key, socket, now, if out.result.Err? then [] else out.result.value)
      ensures var out := Exec(old(commands.GameAt(key.gameId)), Client(key.userId, key.requestId, now, ran), commands.sessions.durations);
        ran.StartGame? && out.result.Ok? ==>
          forall a <- ran.deal :: Sent(key.gameId, Private(a.userId, RoleAssignedMessage(a))) in applier.sent
    {
      hide Exec, TimersAfter, EntriesOf, PushedAll, NewChats, IndexAfter, SentAfter, JoinedAfter, CompletedRecord;
      var id := key.gameId;
      var result;
      result, ran := RunCommand(key, command, now);
      if result.Err? {
        reply := RejectedReply(reasonOf(result.error), messageOf(result.error));
        NothingToDeliver(applier.sent, applier.joined, applier.connections.Stored(), key.userId, socket, id, now);
      } else {
        NothingToSchedule(applier.timers.members, id);
        applier.ApplyCommandEffects(id, key.userId, socket, now, result.value);
        reply := AcceptedReply(commandType);
        CommandIsDelivered(old(commands.GameAt(id)), key.userId, key.requestId, now, ran, commands.sessions.durations,
          old(applier.sent), old(applier.joined), old(applier.connections.Stored()), socket, id);
      }
      registry.Complete(key, commandType, reply);
    }

    // One delivery of a request, alone: begin, execute under the lock, reply and complete.
    // A repeat, or a request that found the lock busy, leaves every game and timer alone.
    method HandleRequest(key: RequestKey, commandType: Text, command: Command, socket: SocketId,
                         lock: LockStore, ttlMs: nat, waitMs: nat, retryMs: nat)
      returns (progress: Progress, executed: bool, ran: Command)
      requires applier.cache.Valid() && Published() && ttlMs > 0 && waitMs > 0 && retryMs > 0
      modifies commands.rooms, commands.sessions, commands.recorder, registry, lock
      modifies applier, applier.timers, applier.cache, applier.connections
      ensures applier.cache.Valid()
      ensures executed ==> progress.Done?
      ensures var moves := if executed then [SetNx(0), Execute(0, progress.reply), Store(0)]
                           else if progress.Done? then [SetNx(0), LockBusy(0, progress.reply), Store(0)]
                           else [SetNx(0), FindRecord(0)];
        Delivers(Arrived(old(registry.records), key, commandType), moves, registry.records, progress, known)
      ensures !executed ==>
        && GamesAt() == old(GamesAt()) && applier.timers.members == old(applier.timers.members)
        && applier.sent == old(applier.sent) && applier.joined == old(applier.joined)
        && applier.connections.Stored() == old(applier.connections.Stored())
      ensures !executed && progress.Done? ==>
        progress.reply == RejectedReply("GAME_LOCK_BUSY", "Game command is busy. Retry later.")
      ensures executed ==>
        var w := old(WorldAt(lock.now, map[])).(now := lock.now);
        var input := Client(key.userId, key.requestId, lock.now, ran);
        && (if command.StartGame? then ran.StartGame? else ran == command)
        && (if key.gameId in w.games
            then WorldAt(lock.now, map[]) == LockedStep(w, key.gameId, input, commands.sessions.durations)
            else WorldAt(lock.now, map[]) == w)
        && (var out := Exec(old(commands.GameAt(key.gameId)), input, commands.sessions.durations);
            && progress.reply == (if out.result.Ok? then AcceptedReply(commandType)
                                  else RejectedReply(reasonOf(out.result.error), messageOf(out.result.error)))
            && Delivered(key, socket, lock.now, if out.result.Err? then [] else out.result.value))
    {
      hide Exec, TimersAfter, Moved, Delivers, CompletedRecord, Replayed, ProcessingRecord, RealtimeGateway.GamesAt, Arrived,
           SentAfter, JoinedAfter, IndexAfter;
      GameIn(key.gameId);
      executed, ran := false, command;
      var begun := registry.Begin(key, commandType);
      OneDelivery(old(registry.records), key, commandType, known);
      if begun.DuplicateProcessing? { return RepeatInProgress, false, command; }
      if begun.DuplicateCompleted? {
        return RepeatAnswered(Replayed(begun.record, commandType, known)), false, command;
      }
      var token := lock.Acquire(ttlMs, waitMs, retryMs);
      if token.None? {
        var busy := RejectedReply(LOCK_BUSY, "Game command is busy. Retry later.");
        registry.Complete(key, commandType, busy);
        OneAnswer(old(registry.records), key, commandType, busy, known);
        return Done(busy), false, command;
      }
      var reply;
      reply, ran := ExecuteCommandWithCompletion(key, commandType, command, socket, lock.now);
      OneAnswer(old(registry.records), key, commandType, reply, known);
      var _ := lock.Release(token.value);
      progress, executed := Done(reply), true;
    }

    // A closed socket: only the socket that speaks for the user counts, and only in a room.
    method HandleDisconnectedUser(user: UserId, socket: SocketId, now: Millis, lock: LockStore, ttlMs: nat, waitMs: nat, retryMs: nat)
      returns (reached: Option<GameId>)
      requires ttlMs > 0 && waitMs > 0 && retryMs > 0
      modifies commands.sessions, applier, applier.connections, lock
      ensures applier.connections.Stored() == After(old(applier.connections.Stored()), MarkDisconnected(user, socket, now))
      ensures reached.Some? ==>
        && applier.connections.byUser[user].socketId == socket && applier.connections.byUser[user].roomId == reached
        && (var out := ExecConnection(old(commands.GameAt(reached.value)), user, Disconnected);
            && commands.GameAt(reached.value) == out.game
            && applier.sent == if out.result.Ok? then SentAfter(old(applier.sent), reached.value, out.result.value) else old(applier.sent))
        && forall other | other != reached.value :: commands.GameAt(other) == old(commands.GameAt(other))
      ensures reached.None? ==>
        applier.sent == old(applier.sent) && forall id :: commands.GameAt(id) == old(commands.GameAt(id))
      ensures reached.None? ==> var state := applier.connections.byUser[user];
        state.socketId != socket || state.roomId.None? || lock.now - old(lock.now) >= waitMs
    {
      hide SetConnection, EntriesOf;
      var state := applier.connections.MarkSocketDisconnected(user, socket, now);
      if state.socketId != socket || state.roomId.None? { return None; }
      var id := state.roomId.value;
      var token := lock.Acquire(ttlMs, waitMs, retryMs);
      if token.None? { return None; }
      var marked := commands.sessions.MarkPlayer(id, user, Disconnected);
      if marked.Ok? {
        var e := Broadcast(PlayerDisconnected(user));
        assert SentAfter(applier.sent, id, [e]) == SentAfter(applier.sent + [Sent(id, e)], id, [e][1..]);
        applier.sent := applier.sent + [Sent(id, e)];
      }
      var _ := lock.Release(token.value);
      reached := Some(id);
    }

    method MarkReconnectedPlayerWithLock(gameId: GameId, user: UserId, lock: LockStore, ttlMs: nat, waitMs: nat, retryMs: nat)
      returns (reached: bool)
      requires ttlMs > 0 && waitMs > 0 && retryMs > 0
      modifies commands.sessions, lock
      ensures commands.GameAt(gameId)
           == if reached then ExecConnection(old(commands.GameAt(gameId)), user, Connected).game else old(commands.GameAt(gameId))
      ensures forall other | other != gameId :: commands.GameAt(other) == old(commands.GameAt(other))
      ensures !reached ==> lock.now - old(lock.now) >= waitMs
    {
      hide SetConnection, EntriesOf;
      var token := lock.Acquire(ttlMs, waitMs, retryMs);
      if token.None? { return false; }
      var _ := commands.sessions.MarkPlayer(gameId, user, Connected);
      var _ := lock.Release(token.value);
      reached := true;
    }
  }

  const LOCK_BUSY: Text := "GAME_LOCK_BUSY"

  lemma NothingToDeliver(sent: seq<Sent>, joined: set<(SocketId, GameId)>, index: Index, user: UserId, socket: SocketId,
                         gameId: GameId, now: Millis)
    ensures SentAfter(sent, gameId, []) == sent && JoinedAfter(joined, socket, gameId, []) == joined
    ensures IndexAfter(index, user, socket, gameId, now, []) == index
  {
  }

  lemma NothingToSchedule(members: set<TimerEntry>, gameId: GameId)
    ensures TimersAfter(members, gameId, []) == members
  {
  }
}
