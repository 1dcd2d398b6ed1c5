// The recent-chat lists kept beside the event log.
module ChatCache {
  import opened Common
  import opened Domain
  import opened Players
  import opened GameRules
  import opened RoomRules
  import opened GameSpec
  import opened Invariants
  import opened EventSourcing
  import opened GameRuns

  type ListKey = (GameId, Channel)
  type Lists = map<ListKey, seq<ChatMessage>>

  function Cached(lists: Lists, gameId: GameId, channel: Channel): seq<ChatMessage> {
    if (gameId, channel) in lists then lists[(gameId, channel)] else []
  }

  // RPUSH, then LTRIM -limit -1.
  function Pushed(lists: Lists, gameId: GameId, m: ChatMessage, limit: nat): Lists {
    lists[(gameId, m.channel) := Suffix(Cached(lists, gameId, m.channel) + [m], limit)]
  }

  function PushedAll(lists: Lists, gameId: GameId, ms: seq<ChatMessage>, limit: nat): Lists
    decreases |ms|
  {
    if ms == [] then lists else PushedAll(Pushed(lists, gameId, ms[0], limit), gameId, ms[1..], limit)
  }

  const DEFAULT_LIMIT: nat := 50

  function ResolveLimit(raw: Option<int>): (limit: nat)
    ensures limit >= 1
    ensures raw.Some? && raw.value >= 1 ==> limit == raw.value
    ensures raw.None? || raw.value < 1 ==> limit == 50
  {
    if raw.Some? && raw.value > 0 then raw.value else DEFAULT_LIMIT
  }

  class ChatMessageCache {
    var lists: Lists
    const limit: nat

    // The configured limit comes from the environment.
    constructor (configured: Option<int>)
      ensures lists == map[] && limit == ResolveLimit(configured) && Valid()
    {
      lists, limit := map[], ResolveLimit(configured);
    }

    // Every list holds messages of its own channel only.
    ghost predicate Valid()
      reads this
    {
      limit >= 1 && forall key <- lists, m <- lists[key] :: m.channel == key.1
    }

    method Append(gameId: GameId, m: ChatMessage)
      requires Valid()
      modifies this
      ensures Valid() && lists == Pushed(old(lists), gameId, m, limit)
    {
      var list := Cached(lists, gameId, m.channel) + [m];
      lists := lists[(gameId, m.channel) := list];
      lists := lists[(gameId, m.channel) := Suffix(list, limit)];
    }

    // An absent limit means the configured one; a zero or negative one means the default.
    method GetRecent(gameId: GameId, channel: Channel, requested: Option<int>) returns (messages: seq<ChatMessage>)
      requires Valid()
      ensures messages == Suffix(Cached(lists, gameId, channel), if requested.None? then limit else ResolveLimit(requested))
    {
      var values := Suffix(Cached(lists, gameId, channel), if requested.None? then limit else ResolveLimit(requested));
      messages := [];
      for n := 0 to |values|
        invariant messages == values[..n]
      {
        if values[n].channel == channel {
          messages := messages + [values[n]];
        }
      }
    }
  }

  // ---- What one command adds ----

  function ChatOf(e: Effect): Option<ChatMessage> {
    if (e.Broadcast? || e.Private?) && e.message.Chat? then Some(e.message.message) else None
  }

  // The messages a list of effects caches: each once, however many effects carry it.
  function NewChats(es: seq<Effect>, seen: set<ChatMessage>): seq<ChatMessage> {
    if es == [] then []
    else
      var m := ChatOf(es[0]);
      if m.Some? && m.value !in seen then [m.value] + NewChats(es[1..], seen + {m.value}) else NewChats(es[1..], seen)
  }

  lemma {:induction false} RepeatsAddNothing(es: seq<Effect>, seen: set<ChatMessage>)
    requires forall e <- es :: ChatOf(e).Some? ==> ChatOf(e).value in seen
    ensures NewChats(es, seen) == []
  {
    if es != [] { RepeatsAddNothing(es[1..], seen); }
  }

  lemma {:induction false} PrivateChats(ps: seq<Player>, test: Player -> bool, m: ChatMessage)
    ensures forall e <- PrivateTo(ps, test, Chat(m)) :: ChatOf(e) == Some(m)
    ensures (exists p <- ps :: test(p)) ==> PrivateTo(ps, test, Chat(m)) != []
  {
    if ps != [] {
      PrivateChats(ps[1..], test, m);
      if exists p <- ps :: test(p) {
        var p :| p in ps && test(p);
        if p != ps[0] { assert p in ps[1..]; }
      }
    }
  }

  lemma {:induction false} PrivateToIff(ps: seq<Player>, test: Player -> bool, m: Message, user: UserId)
    ensures Private(user, m) in PrivateTo(ps, test, m) <==> exists p <- ps :: test(p) && p.userId == user
    ensures forall e <- PrivateTo(ps, test, m) :: e.Private? && e.message == m
  {
    if ps != [] {
      PrivateToIff(ps[1..], test, m, user);
      assert ps == [ps[0]] + ps[1..];
    }
  }

  // Who hears an accepted message: mafia chat exactly the living mafia, ghost chat exactly
  // the dead, and nobody else; lobby and day chat the whole room.
  lemma ChatReachesExactly(g: Game, m: ChatMessage, requestId: RequestId, user: UserId)
    requires ExecChat(g, m, requestId).result.Ok?
    ensures var es := ExecChat(g, m, requestId).result.value;
      if m.channel.LobbyChat? || m.channel.DayChat? then es == [Broadcast(Chat(m))]
      else
        && (forall e <- es :: e.Private? && e.message == Chat(m))
        && (Private(user, Chat(m)) in es <==>
              exists p <- g.session.value.players :: p.userId == user
                && if m.channel.MafiaChat? then p.role.Mafia? && p.status.Alive? else p.status.Dead?)
  {
    if g.session.Some? {
      PrivateToIff(g.session.value.players, IsAliveMafia, Chat(m), user);
      PrivateToIff(g.session.value.players, IsDead, Chat(m), user);
    }
  }

  lemma {:induction false} PrivateToOnce(ps: seq<Player>, test: Player -> bool, m: Message, user: UserId)
    requires Distinct(Ids(ps))
    ensures |PrivateTo(ps, test, m)| <= |ps|
    ensures multiset(PrivateTo(ps, test, m))[Private(user, m)] <= 1
  {
    if ps != [] {
      assert Ids(ps[1..]) == Ids(ps)[1..];
      forall j, k | 0 <= j < k < |ps[1..]| ensures Ids(ps[1..])[j] != Ids(ps[1..])[k] { assert Ids(ps)[j + 1] != Ids(ps)[k + 1]; }
      PrivateToOnce(ps[1..], test, m, user);
      PrivateToIff(ps[1..], test, m, ps[0].userId);
      forall k | 0 <= k < |ps[1..]| ensures ps[1..][k].userId != ps[0].userId { assert Ids(ps)[0] != Ids(ps)[k + 1]; }
    }
  }

  // No listener hears an accepted message twice.
  lemma ChatReachesOnce(g: Game, m: ChatMessage, requestId: RequestId, d: Durations, user: UserId)
    requires GameInv(g, d) && ExecChat(g, m, requestId).result.Ok?
    ensures multiset(ExecChat(g, m, requestId).result.value)[Private(user, Chat(m))] <= 1
  {
    hide SessionInv, Replay, Occurrences;
    if g.session.Some? {
      DistinctPlayers(g, d);
      PrivateToOnce(g.session.value.players, IsAliveMafia, Chat(m), user);
      PrivateToOnce(g.session.value.players, IsDead, Chat(m), user);
    }
  }

  lemma DistinctPlayers(g: Game, d: Durations)
    requires GameInv(g, d) && g.session.Some?
    ensures Distinct(Ids(g.session.value.players))
  {
  }

  // Whatever its fan-out, an accepted message has at least one effect, because its sender
  // is among the recipients, and is cached exactly once.
  lemma AcceptedChatIsNewOnce(g: Game, m: ChatMessage, requestId: RequestId)
    requires ExecChat(g, m, requestId).result.Ok?
    ensures NewChats(ExecChat(g, m, requestId).result.value, {}) == [m]
  {
    var es := ExecChat(g, m, requestId).result.value;
    if m.channel.MafiaChat? || m.channel.GhostChat? {
      var ps := g.session.value.players;
      var test := if m.channel.MafiaChat? then IsAliveMafia else IsDead;
      PrivateChats(ps, test, m);
      assert Get(ps, m.sender) in ps && test(Get(ps, m.sender));
      assert es[0] in PrivateTo(ps, test, Chat(m));
    }
    assert es != [] && ChatOf(es[0]) == Some(m);
    assert {} + {m} == {m};
    RepeatsAddNothing(es[1..], {m});
  }

  function History(log: seq<Entry>, channel: Channel): seq<ChatMessage> {
    if log == [] then []
    else
      var last := Last(log).event;
      History(ButLast(log), channel)
      + (if last.ChatMessageSent? && last.message.channel == channel then [last.message] else [])
  }

  lemma HistoryPush(log: seq<Entry>, e: Entry, channel: Channel)
    ensures History(log + [e], channel) == History(log, channel)
      + (if e.event.ChatMessageSent? && e.event.message.channel == channel then [e.event.message] else [])
  {
    assert ButLast(log + [e]) == log;
  }

  lemma {:induction false} HistorySilent(log: seq<Entry>, es: seq<Entry>, channel: Channel)
    requires forall e <- es :: !e.event.ChatMessageSent?
    ensures History(log + es, channel) == History(log, channel)
  {
    if es == [] {
      assert log + es == log;
    } else {
      assert Last(es) in es;
      assert log + es == log + ButLast(es) + [Last(es)];
      HistorySilent(log, ButLast(es), channel);
      HistoryPush(log + ButLast(es), Last(es), channel);
    }
  }

  lemma {:induction false} NoChats(es: seq<Effect>)
    requires forall e <- es :: ChatOf(e).None?
    ensures NewChats(es, {}) == []
  {
    if es != [] { NoChats(es[1..]); }
  }

  predicate IsChat(input: Input) {
    input.Client? && input.command.SendChat?
  }

  ghost predicate Silent(g: Game, out: Outcome, channel: Channel) {
    && History(out.game.log, channel) == History(g.log, channel)
    && (out.result.Ok? ==> NewChats(out.result.value, {}) == [])
  }

  lemma AddsNoChat(g: Game, out: Outcome, added: seq<Entry>, channel: Channel)
    requires out.game.log == g.log + added && forall e <- added :: !e.event.ChatMessageSent?
    requires out.result.Ok? ==> forall e <- out.result.value :: ChatOf(e).None?
    ensures Silent(g, out, channel)
  {
    HistorySilent(g.log, added, channel);
    if out.result.Ok? { NoChats(out.result.value); }
  }

  lemma PhaseIsSilent(g: Game, requestId: RequestId, caller: Option<UserId>, now: Millis, d: Durations, channel: Channel)
    ensures Silent(g, ExecPhase(g, requestId, caller, now, d), channel)
  {
    hide PhaseStep, Silent;
    var out := ExecPhase(g, requestId, caller, now, d);
    if out.result.Ok? {
      AddsNoChat(g, out, PhaseEntries(PhaseStep(g.session.value, now, d).report.value, caller, requestId), channel);
    } else {
      AddsNoChat(g, out, [], channel);
    }
  }

  lemma StartIsSilent(g: Game, user: UserId, deal: seq<Assignment>, requestId: RequestId, now: Millis, d: Durations, channel: Channel)
    ensures Silent(g, ExecStart(g, user, deal, requestId, now, d), channel)
  {
    hide Silent;
    var out := ExecStart(g, user, deal, requestId, now, d);
    AddsNoChat(g, out,
      if out.result.Err? then []
      else [Entry(0, Waiting, requestId, GameStarted(user, now))] + RoleEntries(deal, requestId), channel);
  }

  // Every other input writes no chat event and sends no chat message.
  lemma OtherInputsAreSilent(g: Game, input: Input, d: Durations, channel: Channel)
    requires !IsChat(input)
    ensures Silent(g, Exec(g, input, d), channel)
  {
    hide ExecPhase, ExecStart, Silent, CastVote, SelectNightAction, SetConnection, Join, Leave, ChangeReady, IndexOf, ParticipantIndex, Get;
    var out := Exec(g, input, d);
    if input.Timer? {
      PhaseIsSilent(g, input.requestId, None, input.now, d, channel);
    } else if input.Client? && input.command.AdvancePhase?
              && out == ExecPhase(g, input.requestId, Some(input.user), input.now, d) {
      PhaseIsSilent(g, input.requestId, Some(input.user), input.now, d, channel);
    } else if input.Client? && input.command.StartGame? {
      StartIsSilent(g, input.user, input.command.deal, input.requestId, input.now, d, channel);
    } else {
      var added := if out.game.log == g.log then [] else [Last(out.game.log)];
      AddsNoChat(g, out, added, channel);
    }
  }

  // ---- Over runs ----

  ghost function CacheRun(g: Game, gameId: GameId, inputs: seq<Input>, limit: nat, d: Durations): Lists {
    if inputs == [] then map[]
    else
      var lists := CacheRun(g, gameId, ButLast(inputs), limit, d);
      var out := Exec(Run(g, ButLast(inputs), d), Last(inputs), d);
      if out.result.Err? then lists else PushedAll(lists, gameId, NewChats(out.result.value, {}), limit)
  }

  // The cached list is always the last messages of the channel's history, in order, and a
  // reader asking for k of them gets the last min(k, limit).
  lemma {:induction false} CacheIsRecentHistory(host: UserId, maxPlayers: nat, gameId: GameId, inputs: seq<Input>,
                                                limit: nat, d: Durations, channel: Channel, k: nat)
    requires maxPlayers >= 2 && CanPlay(host, maxPlayers, inputs, d)
    ensures var lists := CacheRun(NewGame(host, maxPlayers), gameId, inputs, limit, d);
      var history := History(Played(host, maxPlayers, inputs, d).log, channel);
      && Cached(lists, gameId, channel) == Suffix(history, limit)
      && Suffix(Cached(lists, gameId, channel), k) == Suffix(history, if k <= limit then k else limit)
  {
    hide Exec, GameInv;
    var g0 := NewGame(host, maxPlayers);
    if inputs != [] {
      var front, input := ButLast(inputs), Last(inputs);
      PossiblePrefix(g0, inputs, d);
      CacheIsRecentHistory(host, maxPlayers, gameId, front, limit, d, channel, k);
      CacheStep(Run(g0, front, d), CacheRun(g0, gameId, front, limit, d), gameId, input, limit, d, channel);
    }
    var history := History(Played(host, maxPlayers, inputs, d).log, channel);
    SuffixOfSuffix(history, limit, k);
  }

  lemma PushedKeepsSuffix(lists: Lists, gameId: GameId, m: ChatMessage, limit: nat, history: seq<ChatMessage>, channel: Channel)
    requires Cached(lists, gameId, channel) == Suffix(history, limit)
    ensures Cached(PushedAll(lists, gameId, [m], limit), gameId, channel)
         == Suffix(history + (if m.channel == channel then [m] else []), limit)
  {
    hide Suffix;
    SuffixPush(history, m, limit);
    assert PushedAll(lists, gameId, [m], limit) == Pushed(lists, gameId, m, limit);
    assert history + [] == history;
  }

  lemma CacheStep(g: Game, lists: Lists, gameId: GameId, input: Input, limit: nat, d: Durations, channel: Channel)
    requires Cached(lists, gameId, channel) == Suffix(History(g.log, channel), limit)
    ensures var out := Exec(g, input, d);
      Cached(if out.result.Err? then lists else PushedAll(lists, gameId, NewChats(out.result.value, {}), limit), gameId, channel)
        == Suffix(History(out.game.log, channel), limit)
  {
    hide History, Suffix, Cached, NewChats, ChatRefusal, ChatEffects, ExecPhase, ExecStart;
    if IsChat(input) {
      var m := ChatMessage(input.command.channel, input.command.text, input.user);
      var out := ExecChat(g, m, input.requestId);
      assert Exec(g, input, d) == out;
      if out.result.Ok? {
        AcceptedChatIsNewOnce(g, m, input.requestId);
        HistoryPush(g.log, Last(out.game.log), channel);
        PushedKeepsSuffix(lists, gameId, m, limit, History(g.log, channel), channel);
      }
    } else {
      OtherInputsAreSilent(g, input, d, channel);
    }
  }
}
