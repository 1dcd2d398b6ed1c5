// Many instances reading and saving one game's room, session and event log as separate
// steps: as long as no section outlives its lock, every run is the inputs run whole, one at
// a time, in the order the lock was acquired.
module LockedSections {
  import opened Common
  import opened Domain
  import opened Players
  import opened GameRules
  import opened RoomRules
  import opened GameSpec
  import opened GameLock

  // ---- What an input does inside its section: operations that each load and save once ----

  datatype RoomEdit = JoinEdit | LeaveEdit | ReadyEdit(isReady: bool) | StartEdit

  datatype Operation =
    | EditRoom(user: UserId, requestId: RequestId, edit: RoomEdit)
    | CheckHost(user: UserId)
    | CreateSession(user: UserId, requestId: RequestId, deal: seq<Assignment>, now: Millis, d: Durations)
    | AdvanceSession(now: Millis, d: Durations)
    | ResolveSession
    | FinishSession(caller: Option<UserId>, requestId: RequestId)
    | SaveVote(actor: UserId, target: UserId, requestId: RequestId)
    | SaveNightAction(actor: UserId, target: UserId, slot: Slot, requestId: RequestId)
    | CheckChat(message: ChatMessage, requestId: RequestId)
    | SaveConnection(id: UserId, c: Connection)
    | RecordNext  // reads the highest number, inserts the next event

  // What a handler remembers between its operations: the error one threw, the phase step so
  // far, the events still to be recorded, and the effects it will answer with.
  datatype Memory = Memory(failed: Option<Error>, report: Option<PhaseReport>, pending: seq<Entry>, effects: seq<Effect>)

  const START := Memory(None, None, [], [])

  function Failed(e: Error): Memory {
    Memory(Some(e), None, [], [])
  }

  function Answer(m: Memory): Result<seq<Effect>, Error> {
    if m.failed.Some? then Err(m.failed.value) else Ok(m.effects)
  }

  datatype Write = NoWrite | WriteRoom(room: Room) | WriteSession(session: Session) | WriteEntry(entry: Entry)

  function Edited(edit: RoomEdit, room: Room, user: UserId): Result<Room, Error> {
    match edit
    case JoinEdit => Join(room, user)
    case LeaveEdit => Leave(room, user)
    case ReadyEdit(isReady) => ChangeReady(room, user, isReady)
    case StartEdit => Start(room, user)
  }

  function EditEntries(edit: RoomEdit, user: UserId, requestId: RequestId): seq<Entry> {
    match edit
    case JoinEdit => [Entry(0, Waiting, requestId, PlayerJoined(user))]
    case LeaveEdit => [Entry(0, Waiting, requestId, PlayerLeft(user))]
    case ReadyEdit(isReady) => [Entry(0, Waiting, requestId, PlayerReadyChanged(user, isReady))]
    case StartEdit => []
  }

  // Starting tells of the room last, after the messages the session adds.
  function EditEffects(edit: RoomEdit, room: Room): seq<Effect> {
    (if edit.JoinEdit? then [JoinSocketRoom] else if edit.LeaveEdit? then [LeaveSocketRoom] else [])
    + [Broadcast(RoomUpdated(room))]
  }

  // The handler's memory afterwards, and what it saves, having loaded g.
  ghost function Perform(op: Operation, m: Memory, g: Game): (Memory, Write) {
    if m.failed.Some? then (m, NoWrite)
    else match op
      case EditRoom(user, requestId, edit) =>
        if g.room.None? then (Failed(RoomNotFound), NoWrite)
        else (match Edited(edit, g.room.value, user)
              case Err(e) => (Failed(e), NoWrite)
              case Ok(room) =>
                (m.(pending := EditEntries(edit, user, requestId), effects := EditEffects(edit, room)), WriteRoom(room)))
      case CheckHost(user) =>
        if g.room.None? then (Failed(RoomNotFound), NoWrite)
        else (match CanAdvancePhase(g.room.value, user) case Err(e) => (Failed(e), NoWrite) case Ok(_) => (m, NoWrite))
      case CreateSession(user, requestId, deal, now, d) =>
        var session := NewSession(user, DealtPlayers(deal), now, d);
        (m.(pending := [Entry(0, Waiting, requestId, GameStarted(user, now))] + RoleEntries(deal, requestId),
            effects := [Broadcast(GameStartedMessage(user, session.phaseEndsAt))] + RoleEffects(deal) + m.effects),
         WriteSession(session))
      case CheckChat(message, requestId) =>
        (match ChatRefusal(g, message.channel, message.sender)
         case Some(e) => (Failed(e), NoWrite)
         case None =>
           var lobby := message.channel.LobbyChat? || g.session.None?;
           (m.(pending := [Entry(if lobby then 0 else g.session.value.turn,
                                 if lobby then Waiting else g.session.value.phase,
                                 requestId, ChatMessageSent(message))],
               effects := ChatEffects(g, message)), NoWrite))
      case RecordNext =>
        if m.pending == [] then (m, NoWrite) else (m.(pending := m.pending[1..]), WriteEntry(m.pending[0]))
      case _ => if g.session.None? then (Failed(SessionNotFound), NoWrite) else PerformOnSession(op, m, g.session.value)
  }

  ghost function PerformOnSession(op: Operation, m: Memory, s: Session): (Memory, Write) {
    match op
    case AdvanceSession(now, d) =>
      (match Advance(s)
       case Err(e) => (Failed(e), NoWrite)
       case Ok(t) =>
         var t := t.(phaseEndsAt := Deadline(d, t.phase, now));
         (m.(report := Some(PhaseReport(s.phase, t.phase, t.turn, t.phaseEndsAt, None, None, None, None))), WriteSession(t)))
    case ResolveSession =>
      if m.report.None? then (Failed(SessionNotFound), NoWrite)
      else if m.report.value.fromPhase.Night? then
        Resolved(m, m.report.value.(attacked := SlotTarget(s, MafiaTarget), protected := SlotTarget(s, DoctorTarget)), ResolveNight(s))
      else if m.report.value.fromPhase.Voting? then Resolved(m, m.report.value, ResolveVoting(s))
      else (m, NoWrite)
    case FinishSession(caller, requestId) =>
      if m.report.None? then (Failed(SessionNotFound), NoWrite)
      else
        var done := m.(pending := PhaseEntries(m.report.value, caller, requestId),
                       effects := PhaseEffects(m.report.value, caller));
        if m.report.value.winner.None? then (done, NoWrite)
        else (match Finish(s)
              case Err(e) => (Failed(e), NoWrite)
              case Ok(t) => (done, WriteSession(t)))
    case SaveVote(actor, target, requestId) =>
      (match CastVote(s, actor, target, requestId)
       case Err(e) => (Failed(e), NoWrite)
       case Ok(v) =>
         if v.duplicate then (m, NoWrite)
         else (m.(pending := [Entry(v.session.turn, v.session.phase, requestId, VoteCasted(actor, target))]), WriteSession(v.session)))
    case SaveNightAction(actor, target, slot, requestId) =>
      (match SelectNightAction(s, actor, target, slot)
       case Err(e) => (Failed(e), NoWrite)
       case Ok(t) =>
         (m.(pending := [Entry(t.turn, t.phase, requestId, NightTargetSelected(slot, actor, target))],
             effects := if slot.PoliceTarget?
                        then [Private(actor, InvestigationResult(target, Get(t.players, target).role))] else []),
          WriteSession(t)))
    case SaveConnection(id, c) =>
      (match SetConnection(s, id, c)
       case Err(e) => (Failed(e), NoWrite)
       case Ok(t) =>
         (m.(effects := if c.Disconnected? then [Broadcast(PlayerDisconnected(id))] else []), WriteSession(t)))
    case _ => (m, NoWrite)
  }

  function Resolved(m: Memory, report: PhaseReport, r: Result<Resolution, Error>): (Memory, Write) {
    match r
    case Err(e) => (Failed(e), NoWrite)
    case Ok(x) => (m.(report := Some(report.(died := x.died, winner := x.winner))), WriteSession(x.session))
  }

  function Recording(n: nat): (ops: seq<Operation>)
    ensures |ops| == n
  {
    seq(n, _ => RecordNext)
  }

  function PhaseProgram(caller: Option<UserId>, requestId: RequestId, now: Millis, d: Durations): seq<Operation> {
    [AdvanceSession(now, d), ResolveSession, FinishSession(caller, requestId)] + Recording(3)
  }

  // The handler of an input. A dead end makes the operations after it do nothing.
  function Program(input: Input, d: Durations): seq<Operation> {
    match input
    case Timer(requestId, now) => PhaseProgram(None, requestId, now, d)
    case SocketLost(user) => [SaveConnection(user, Disconnected)]
    case SocketOvertaken(user) => [SaveConnection(user, Disconnected)]
    case SocketBack(user) => [SaveConnection(user, Connected)]
    case Client(user, requestId, now, command) =>
      match command
      case JoinRoom => [EditRoom(user, requestId, JoinEdit)] + Recording(1)
      case LeaveRoom => [EditRoom(user, requestId, LeaveEdit)] + Recording(1)
      case ChangeReadyState(isReady) => [EditRoom(user, requestId, ReadyEdit(isReady))] + Recording(1)
      case StartGame(deal) =>
        [EditRoom(user, requestId, StartEdit), CreateSession(user, requestId, deal, now, d)] + Recording(|deal| + 1)
      case AdvancePhase => [CheckHost(user)] + PhaseProgram(Some(user), requestId, now, d)
      case Vote(target) => [SaveVote(user, target, requestId)] + Recording(1)
      case SelectTarget(slot, target) => [SaveNightAction(user, target, slot, requestId)] + Recording(1)
      case SendChat(channel, text) => [CheckChat(ChatMessage(channel, text, user), requestId)] + Recording(1)
      case OtherCommand(_) => []
  }

  function Applied(g: Game, w: Write): Game {
    match w
    case NoWrite => g
    case WriteRoom(room) => g.(room := Some(room))
    case WriteSession(session) => g.(session := Some(session))
    case WriteEntry(entry) => g.(log := g.log + [entry])
  }

  // The rest of a section run without interruption, and its answer.
  ghost function Complete(todo: seq<Operation>, m: Memory, g: Game): Outcome {
    if todo == [] then Outcome(g, Answer(m))
    else
      var (m', w) := Perform(todo[0], m, g);
      Complete(todo[1..], m', Applied(g, w))
  }

  lemma CompleteOne(op: Operation, rest: seq<Operation>, m: Memory, g: Game)
    ensures var (m', w) := Perform(op, m, g);
      Complete([op] + rest, m, g) == Complete(rest, m', Applied(g, w))
  {
    hide Perform;
    assert ([op] + rest)[1..] == rest;
  }

  lemma {:induction false} FailedDoesNothing(todo: seq<Operation>, m: Memory, g: Game)
    requires m.failed.Some?
    ensures Complete(todo, m, g) == Outcome(g, Answer(m))
  {
    if todo != [] { FailedDoesNothing(todo[1..], m, g); }
  }

  lemma {:induction false} RecordsAll(n: nat, m: Memory, g: Game)
    requires m.failed.None? && |m.pending| <= n
    ensures Complete(Recording(n), m, g) == Outcome(g.(log := g.log + m.pending), Ok(m.effects))
  {
    if n == 0 {
      assert g.log + m.pending == g.log;
    } else {
      var (m', w) := Perform(RecordNext, m, g);
      assert Recording(n) == [RecordNext] + Recording(n - 1);
      CompleteOne(RecordNext, Recording(n - 1), m, g);
      RecordsAll(n - 1, m', Applied(g, w));
      if m.pending == [] { assert g.log + m.pending == g.log; }
      else { assert g.log + [m.pending[0]] + m.pending[1..] == g.log + m.pending; }
    }
  }

  // One operation and then its events.
  lemma OneThenRecords(op: Operation, n: nat, g: Game)
    requires |Perform(op, START, g).0.pending| <= n
    ensures var (m, w) := Perform(op, START, g);
      Complete([op] + Recording(n), START, g)
        == if m.failed.Some? then Outcome(Applied(g, w), Err(m.failed.value))
           else Outcome(Applied(g, w).(log := Applied(g, w).log + m.pending), Ok(m.effects))
  {
    hide Perform;
    var (m, w) := Perform(op, START, g);
    CompleteOne(op, Recording(n), START, g);
    if m.failed.Some? { FailedDoesNothing(Recording(n), m, Applied(g, w)); } else { RecordsAll(n, m, Applied(g, w)); }
  }

  // The phase step's three operations on the session.
  ghost function ThreeOperations(caller: Option<UserId>, requestId: RequestId, now: Millis, d: Durations, g: Game): (Memory, Game) {
    var (m1, w1) := Perform(AdvanceSession(now, d), START, g);
    var g1 := Applied(g, w1);
    var (m2, w2) := Perform(ResolveSession, m1, g1);
    var g2 := Applied(g1, w2);
    var (m3, w3) := Perform(FinishSession(caller, requestId), m2, g2);
    (m3, Applied(g2, w3))
  }

  lemma ThreeThenRecords(caller: Option<UserId>, requestId: RequestId, now: Millis, d: Durations, g: Game)
    ensures Complete(PhaseProgram(caller, requestId, now, d), START, g)
         == Complete(Recording(3), ThreeOperations(caller, requestId, now, d, g).0, ThreeOperations(caller, requestId, now, d, g).1)
  {
    hide Perform, Complete;
    var advance, finish := AdvanceSession(now, d), FinishSession(caller, requestId);
    var (m1, w1) := Perform(advance, START, g);
    var g1 := Applied(g, w1);
    var (m2, w2) := Perform(ResolveSession, m1, g1);
    assert PhaseProgram(caller, requestId, now, d) == [advance] + ([ResolveSession] + ([finish] + Recording(3)));
    CompleteOne(advance, [ResolveSession] + ([finish] + Recording(3)), START, g);
    CompleteOne(ResolveSession, [finish] + Recording(3), m1, g1);
    CompleteOne(finish, Recording(3), m2, Applied(g1, w2));
  }

  lemma ThreeAreTheStep(caller: Option<UserId>, requestId: RequestId, now: Millis, d: Durations, g: Game)
    requires g.session.Some?
    ensures var step := PhaseStep(g.session.value, now, d);
      var (m, h) := ThreeOperations(caller, requestId, now, d, g);
      && h == g.(session := Some(step.session))
      && (match step.report
          case Err(e) => m.failed == Some(e)
          case Ok(r) => m == Memory(None, Some(r), PhaseEntries(r, caller, requestId), PhaseEffects(r, caller)))
  {
    hide ResolveNight, ResolveVoting, PhaseEntries, PhaseEffects, Deadline, SlotTarget, NextPhase;
  }

  lemma PhaseIsWhole(caller: Option<UserId>, requestId: RequestId, now: Millis, d: Durations, g: Game)
    ensures Complete(PhaseProgram(caller, requestId, now, d), START, g) == ExecPhase(g, requestId, caller, now, d)
  {
    hide Complete, PhaseEntries, PhaseEffects, PhaseProgram, PhaseStep;
    ThreeThenRecords(caller, requestId, now, d, g);
    var (m, h) := ThreeOperations(caller, requestId, now, d, g);
    if g.session.Some? {
      hide ThreeOperations;
      ThreeAreTheStep(caller, requestId, now, d, g);
    }
    if m.failed.Some? {
      FailedDoesNothing(Recording(3), m, h);
    } else {
      AtMostThreeEvents(m.report.value, caller, requestId);
      RecordsAll(3, m, h);
    }
  }

  lemma AtMostThreeEvents(r: PhaseReport, caller: Option<UserId>, requestId: RequestId)
    ensures |PhaseEntries(r, caller, requestId)| <= 3
  {
  }

  lemma StartIsWhole(user: UserId, requestId: RequestId, now: Millis, deal: seq<Assignment>, d: Durations, g: Game)
    ensures var input := Client(user, requestId, now, StartGame(deal));
      Complete(Program(input, d), START, g) == Exec(g, input, d)
  {
    hide Complete, NewSession, Start;
    var start, create := EditRoom(user, requestId, StartEdit), CreateSession(user, requestId, deal, now, d);
    var (m1, w1) := Perform(start, START, g);
    var g1 := Applied(g, w1);
    var n := |deal| + 1;
    assert [start, create] + Recording(n) == [start] + ([create] + Recording(n));
    CompleteOne(start, [create] + Recording(n), START, g);
    if m1.failed.Some? {
      FailedDoesNothing([create] + Recording(n), m1, g1);
    } else {
      assert m1.effects == [Broadcast(RoomUpdated(g1.room.value))];
      CreatedWithRecords(create, m1, n, g1);
      assert g.log + ([Entry(0, Waiting, requestId, GameStarted(user, now))] + RoleEntries(deal, requestId))
          == g.log + [Entry(0, Waiting, requestId, GameStarted(user, now))] + RoleEntries(deal, requestId);
    }
  }

  // Uninterrupted, the operations of an input's handler are the input's whole step.
  lemma ProgramIsWhole(input: Input, d: Durations, g: Game)
    ensures Complete(Program(input, d), START, g) == Exec(g, input, d)
  {
    hide Complete, PhaseProgram, ExecPhase, CastVote, SelectNightAction, SetConnection, ChatRefusal, ChatEffects, Get,
         Join, Leave, ChangeReady, PhaseEntries;
    match input
    case Timer(requestId, now) => PhaseIsWhole(None, requestId, now, d, g);
    case SocketLost(user) => OneThenNothing(SaveConnection(user, Disconnected), g);
    case SocketOvertaken(user) => OneThenNothing(SaveConnection(user, Disconnected), g);
    case SocketBack(user) => OneThenNothing(SaveConnection(user, Connected), g);
    case Client(user, requestId, now, command) =>
      match command
      case StartGame(deal) => StartIsWhole(user, requestId, now, deal, d, g);
      case AdvancePhase =>
        CompleteOne(CheckHost(user), PhaseProgram(Some(user), requestId, now, d), START, g);
        var m := Perform(CheckHost(user), START, g).0;
        if m.failed.Some? { FailedDoesNothing(PhaseProgram(Some(user), requestId, now, d), m, g); }
        PhaseIsWhole(Some(user), requestId, now, d, g);
      case JoinRoom => OneThenRecords(EditRoom(user, requestId, JoinEdit), 1, g);
      case LeaveRoom => OneThenRecords(EditRoom(user, requestId, LeaveEdit), 1, g);
      case ChangeReadyState(isReady) => OneThenRecords(EditRoom(user, requestId, ReadyEdit(isReady)), 1, g);
      case Vote(target) =>
        OneThenRecords(SaveVote(user, target, requestId), 1, g);
        assert g.log + [] == g.log;
      case SelectTarget(slot, target) => OneThenRecords(SaveNightAction(user, target, slot, requestId), 1, g);
      case SendChat(channel, text) => OneThenRecords(CheckChat(ChatMessage(channel, text, user), requestId), 1, g);
      case OtherCommand(_) => NothingToDo(g);
  }

  lemma OneThenNothing(op: Operation, g: Game)
    requires Perform(op, START, g).0.pending == []
    ensures Complete([op], START, g) == Outcome(Applied(g, Perform(op, START, g).1), Answer(Perform(op, START, g).0))
  {
    assert [op] == [op] + Recording(0);
    OneThenRecords(op, 0, g);
    var h := Applied(g, Perform(op, START, g).1);
    assert h.log + [] == h.log;
  }

  lemma NothingToDo(g: Game)
    ensures Complete([], START, g) == Outcome(g, Ok([]))
  {
  }

  // The session is created, and its events and effects go before those of the room.
  lemma CreatedWithRecords(op: Operation, m: Memory, n: nat, g: Game)
    requires op.CreateSession? && m.failed.None? && m.pending == [] && |Perform(op, m, g).0.pending| <= n
    ensures var (m', w) := Perform(op, m, g);
      Complete([op] + Recording(n), m, g) == Outcome(Applied(g, w).(log := Applied(g, w).log + m'.pending), Ok(m'.effects))
  {
    hide NewSession, RoleEntries;
    var (m', w) := Perform(op, m, g);
    CompleteOne(op, Recording(n), m, g);
    RecordsAll(n, m', Applied(g, w));
  }

  // Every save of an existing session raises its version by one.
  lemma SaveRaisesVersion(op: Operation, m: Memory, g: Game)
    ensures Perform(op, m, g).1.WriteSession? ==>
      if op.CreateSession? then Perform(op, m, g).1.session.version == 1
      else g.session.Some? && Perform(op, m, g).1.session.version == g.session.value.version + 1
  {
    hide PluralityWinner, EvaluateWinner, MarkDead, IndexOf, Get;
  }

  // ---- The instances ----

  type Instance = nat

  datatype Where =
    | Inside(lock: Held, todo: seq<Operation>, memory: Memory, loaded: Option<Game>)
    | Leaving(lock: Held)  // about to release, perhaps after its lock expired

  // saves counts the session saves since the session was created.
  datatype Cluster = Cluster(
    now: Millis, key: Option<Held>, game: Game, saves: nat, nextToken: Token,
    instances: map<Instance, Where>, order: seq<Input>, answers: seq<Result<seq<Effect>, Error>>)

  datatype Action =
    | Wait(ms: nat)
    | TryAcquire(i: Instance, input: Input, ttlMs: nat)
    | Load(i: Instance)
    | Save(i: Instance)
    | Finished(i: Instance)
    | Release(i: Instance)

  predicate InsideAt(c: Cluster, i: Instance) {
    i in c.instances && c.instances[i].Inside?
  }

  predicate Quiescent(c: Cluster) {
    forall i <- c.instances :: !c.instances[i].Inside?
  }

  predicate May(c: Cluster, a: Action) {
    match a
    case Wait(_) => true
    case TryAcquire(i, _, ttlMs) => i !in c.instances && ttlMs > 0
    case Load(i) => InsideAt(c, i) && c.instances[i].todo != [] && c.instances[i].loaded.None?
    case Save(i) => InsideAt(c, i) && c.instances[i].todo != [] && c.instances[i].loaded.Some?
    case Finished(i) => InsideAt(c, i) && c.instances[i].todo == []
    case Release(i) => i in c.instances && c.instances[i].Leaving?
  }

  // Time passes only as far as no section in progress outlives its lock.
  predicate Timely(c: Cluster, a: Action) {
    a.Wait? ==> forall i <- c.instances :: c.instances[i].Inside? ==> c.now + a.ms < c.instances[i].lock.expiresAt
  }

  // An insert numbers its event after the last one it read; a taken number makes it fail.
  ghost function Saved(c: Cluster, i: Instance): Cluster
    requires May(c, Save(i))
  {
    var p := c.instances[i];
    var (m, w) := Perform(p.todo[0], p.memory, p.loaded.value);
    if w.WriteEntry? && |c.game.log| != |p.loaded.value.log|
    then c.(instances := c.instances[i := Inside(p.lock, p.todo[1..], Failed(EventNumberTaken), None)])
    else c.(game := Applied(c.game, w),
            saves := if !w.WriteSession? then c.saves else if p.todo[0].CreateSession? then 1 else c.saves + 1,
            instances := c.instances[i := Inside(p.lock, p.todo[1..], m, None)])
  }

  ghost function Act(c: Cluster, a: Action, d: Durations): Cluster
    requires May(c, a)
  {
    match a
    case Wait(ms) => c.(now := c.now + ms)
    case TryAcquire(i, input, ttlMs) =>
      c.(key := SetNxPx(c.key, c.now, c.nextToken, ttlMs), nextToken := c.nextToken + 1,
         order := if Free(c.key, c.now) then c.order + [input] else c.order,
         instances := if Free(c.key, c.now)
                      then c.instances[i := Inside(Held(c.nextToken, c.now + ttlMs), Program(input, d), START, None)]
                      else c.instances)
    case Load(i) => c.(instances := c.instances[i := c.instances[i].(loaded := Some(c.game))])
    case Save(i) => Saved(c, i)
    case Finished(i) =>
      c.(instances := c.instances[i := Leaving(c.instances[i].lock)], answers := c.answers + [Answer(c.instances[i].memory)])
    case Release(i) =>
      c.(key := CompareAndDelete(c.key, c.now, c.instances[i].lock.token), instances := c.instances - {i})
  }

  // ---- The invariants ----

  // Tokens are never drawn twice: this much holds even when locks are outlived.
  ghost predicate TokenInv(c: Cluster) {
    && (c.key.Some? ==> c.key.value.token < c.nextToken)
    && (forall i <- c.instances :: c.instances[i].lock.token < c.nextToken)
    && (forall i <- c.instances, j <- c.instances :: i != j ==> c.instances[i].lock.token != c.instances[j].lock.token)
  }

  ghost predicate LockInv(c: Cluster) {
    && TokenInv(c)
    && (forall i <- c.instances :: c.instances[i].Inside? ==>
          c.key == Some(c.instances[i].lock) && c.now < c.instances[i].lock.expiresAt)
  }

  ghost predicate GameSerial(c: Cluster, g0: Game, d: Durations) {
    && (forall i <- c.instances :: c.instances[i].Inside? ==>
          && (c.instances[i].loaded.Some? ==> c.instances[i].loaded.value == c.game)
          && |c.order| == |c.answers| + 1
          && Complete(c.instances[i].todo, c.instances[i].memory, c.game)
               == Exec(Run(g0, ButLast(c.order), d), Last(c.order), d))
    && (Quiescent(c) ==> c.game == Run(g0, c.order, d) && |c.order| == |c.answers|)
    && |c.answers| <= |c.order|
    && (forall k | 0 <= k < |c.answers| :: c.answers[k] == Exec(Run(g0, c.order[..k], d), c.order[k], d).result)
    && (c.game.session.Some? ==> c.game.session.value.version == c.saves)
  }

  lemma AtMostOneInside(c: Cluster, i: Instance, j: Instance)
    requires LockInv(c) && InsideAt(c, i) && InsideAt(c, j)
    ensures i == j
  {
  }

  lemma TokenStep(c: Cluster, a: Action, d: Durations)
    requires TokenInv(c) && May(c, a)
    ensures TokenInv(Act(c, a, d))
  {
    hide Perform, Program;
  }

  lemma LockStep(c: Cluster, a: Action, d: Durations)
    requires LockInv(c) && May(c, a) && Timely(c, a)
    ensures LockInv(Act(c, a, d))
  {
    hide Perform, Program;
    TokenStep(c, a, d);
  }

  lemma RunPush(g0: Game, order: seq<Input>, input: Input, d: Durations)
    ensures Run(g0, order + [input], d) == Exec(Run(g0, order, d), input, d).game
  {
    hide Exec;
    assert ButLast(order + [input]) == order;
  }

  lemma FreeKeyIsEntered(c: Cluster, i: Instance, input: Input, ttlMs: nat, g0: Game, d: Durations)
    requires LockInv(c) && GameSerial(c, g0, d) && May(c, TryAcquire(i, input, ttlMs)) && Free(c.key, c.now)
    ensures GameSerial(Act(c, TryAcquire(i, input, ttlMs), d), g0, d)
  {
    hide Perform, Exec, Run, Complete, Program;
    var c' := Act(c, TryAcquire(i, input, ttlMs), d);
    assert Quiescent(c);
    assert forall j <- c'.instances :: c'.instances[j].Inside? ==> j == i;
    assert c'.instances[i].Inside?;
    ProgramIsWhole(input, d, c.game);
    RunPush(g0, c.order, input, d);
    assert ButLast(c'.order) == c.order && Last(c'.order) == input;
    assert forall k | 0 <= k < |c.order| :: c'.order[..k] == c.order[..k];
  }

  lemma SaveStep(c: Cluster, i: Instance, g0: Game, d: Durations)
    requires LockInv(c) && GameSerial(c, g0, d) && May(c, Save(i))
    ensures GameSerial(Act(c, Save(i), d), g0, d)
  {
    hide Perform, Run;
    var p, c' := c.instances[i], Act(c, Save(i), d);
    SaveRaisesVersion(p.todo[0], p.memory, p.loaded.value);
    forall j | j in c'.instances && c'.instances[j].Inside? ensures j == i {
      if j != i { AtMostOneInside(c, i, j); }
    }
    assert c'.instances[i].Inside?;
  }

  // A section that has nothing left to do stored, and answers, what its input's step does.
  lemma FinishedStep(c: Cluster, i: Instance, g0: Game, d: Durations)
    requires LockInv(c) && GameSerial(c, g0, d) && May(c, Action.Finished(i))
    ensures c.game == Run(g0, c.order, d) && |c.order| == |c.answers| + 1
    ensures Answer(c.instances[i].memory) == Exec(Run(g0, c.order[..|c.answers|], d), c.order[|c.answers|], d).result
  {
    hide Exec;
    assert c.instances[i].Inside?;
    assert c.order[..|c.answers|] == ButLast(c.order);
  }

  lemma SerialStep(c: Cluster, a: Action, g0: Game, d: Durations)
    requires LockInv(c) && GameSerial(c, g0, d) && May(c, a)
    ensures GameSerial(Act(c, a, d), g0, d)
  {
    hide Perform, Run, Exec, Program;
    var c' := Act(c, a, d);
    match a
    case TryAcquire(i, input, ttlMs) =>
      if Free(c.key, c.now) { FreeKeyIsEntered(c, i, input, ttlMs, g0, d); }
    case Save(i) => SaveStep(c, i, g0, d);
    case Load(i) => assert c'.instances[i].Inside?; assert c.instances[i].Inside?;
    case Finished(i) =>
      FinishedStep(c, i, g0, d);
      assert c.instances[i].Inside?;
      forall j | j in c'.instances ensures !c'.instances[j].Inside? {
        if j != i && c.instances[j].Inside? { AtMostOneInside(c, i, j); }
      }
    case Release(i) =>
      assert forall j <- c'.instances :: c'.instances[j] == c.instances[j];
      if Quiescent(c') {
        assert forall j <- c.instances :: j != i ==> j in c'.instances;
      }
    case Wait(_) =>
  }

  // ---- Runs ----

  function Idle(g0: Game): Cluster {
    Cluster(0, None, g0, if g0.session.Some? then g0.session.value.version else 0, 0, map[], [], [])
  }

  ghost predicate ClusterRun(cs: seq<Cluster>, acts: seq<Action>, g0: Game, d: Durations) {
    && |cs| == |acts| + 1
    && cs[0] == Idle(g0)
    && forall n | 0 <= n < |acts| :: May(cs[n], acts[n]) && cs[n + 1] == Act(cs[n], acts[n], d)
  }

  ghost predicate TimelyRun(cs: seq<Cluster>, acts: seq<Action>, g0: Game, d: Durations) {
    ClusterRun(cs, acts, g0, d) && forall n | 0 <= n < |acts| :: Timely(cs[n], acts[n])
  }

  lemma {:induction false} RunsKeepTokenInv(cs: seq<Cluster>, acts: seq<Action>, g0: Game, d: Durations, n: nat)
    requires ClusterRun(cs, acts, g0, d) && n <= |acts|
    ensures TokenInv(cs[n])
  {
    hide Act, May;
    if n > 0 {
      RunsKeepTokenInv(cs, acts, g0, d, n - 1);
      TokenStep(cs[n - 1], acts[n - 1], d);
    }
  }

  // In every run, timely or not, a holder whose lock has passed to somebody else cannot free it.
  lemma StaleReleaseIsHarmless(cs: seq<Cluster>, acts: seq<Action>, g0: Game, d: Durations, n: nat, i: Instance, j: Instance)
    requires ClusterRun(cs, acts, g0, d) && n <= |acts| && May(cs[n], Release(i)) && i != j
    requires j in cs[n].instances && cs[n].key == Some(cs[n].instances[j].lock)
    ensures Act(cs[n], Release(i), d).key == cs[n].key
  {
    hide Perform, Program;
    RunsKeepTokenInv(cs, acts, g0, d, n);
  }

  lemma {:induction false} RunsAreSerial(cs: seq<Cluster>, acts: seq<Action>, g0: Game, d: Durations, n: nat)
    requires TimelyRun(cs, acts, g0, d) && n <= |acts|
    ensures LockInv(cs[n]) && GameSerial(cs[n], g0, d)
  {
    hide Act, May, LockInv, GameSerial, Timely;
    if n > 0 {
      RunsAreSerial(cs, acts, g0, d, n - 1);
      LockStep(cs[n - 1], acts[n - 1], d);
      SerialStep(cs[n - 1], acts[n - 1], g0, d);
    } else {
      IdleIsSerial(g0, d);
    }
  }

  lemma IdleIsSerial(g0: Game, d: Durations)
    ensures LockInv(Idle(g0)) && GameSerial(Idle(g0), g0, d)
  {
  }

  // No update is lost: in every timely interleaving at most one instance is inside the
  // section; whenever none is, room, session and event log are those of the inputs run whole
  // in acquire order; the handlers' answers are those of these steps; and the session's
  // version counts its saves.
  lemma NoLostUpdates(cs: seq<Cluster>, acts: seq<Action>, g0: Game, d: Durations, n: nat)
    requires TimelyRun(cs, acts, g0, d) && n <= |acts|
    ensures forall i, j | InsideAt(cs[n], i) && InsideAt(cs[n], j) :: i == j
    ensures Quiescent(cs[n]) ==> cs[n].game == Run(g0, cs[n].order, d) && |cs[n].answers| == |cs[n].order|
    ensures |cs[n].answers| <= |cs[n].order|
    ensures forall k | 0 <= k < |cs[n].answers| ::
      cs[n].answers[k] == Exec(Run(g0, cs[n].order[..k], d), cs[n].order[k], d).result
    ensures cs[n].game.session.Some? ==> cs[n].game.session.value.version == cs[n].saves
  {
    hide Run, Exec;
    RunsAreSerial(cs, acts, g0, d, n);
  }

  // ---- Why the lock must outlast its section ----

  function Race(a: UserId, b: UserId, t: UserId, r1: RequestId, r2: RequestId, ttlMs: nat, ms: nat): seq<Action> {
    [TryAcquire(0, Client(a, r1, 0, Vote(t)), ttlMs), Load(0), Wait(ms),
     TryAcquire(1, Client(b, r2, 0, Vote(t)), ttlMs), Load(1), Save(0), Save(1)]
  }

  // Two votes, each acceptable: a's handler has loaded the session when the time passes, and
  // b's handler loads it before a's saves. The run exists if and only if a's section outlives
  // its lock, and then a's vote, accepted and saved, is overwritten.
  lemma OutlivedLockLosesVote(g0: Game, d: Durations, a: UserId, b: UserId, t: UserId, r1: RequestId, r2: RequestId,
                              ttlMs: nat, ms: nat)
    requires ttlMs > 0 && a != b && g0.session.Some?
    requires var s := g0.session.value;
      && r1 !in s.processedRequests && CastVote(s, a, t, r1).Ok?
      && r2 !in s.processedRequests && CastVote(s, b, t, r2).Ok?
    ensures (exists cs: seq<Cluster> :: ClusterRun(cs, Race(a, b, t, r1, r2, ttlMs, ms), g0, d)) <==> ms >= ttlMs
    ensures forall cs: seq<Cluster> | ClusterRun(cs, Race(a, b, t, r1, r2, ttlMs, ms), g0, d) ::
      Overwritten(cs[6], cs[7], a, b)
  {
    hide ClusterRun, Overwritten;
    if ms >= ttlMs {
      var cs := RaceRun(g0, d, a, b, t, r1, r2, ttlMs, ms);
    }
    forall cs: seq<Cluster> | ClusterRun(cs, Race(a, b, t, r1, r2, ttlMs, ms), g0, d)
      ensures ms >= ttlMs && |cs| == 8 && Overwritten(cs[6], cs[7], a, b)
    {
      RaceEnds(cs, g0, d, a, b, t, r1, r2, ttlMs, ms);
    }
  }

  // a's vote was stored and is gone, b's is there, and the version is one save behind.
  ghost predicate Overwritten(before: Cluster, after: Cluster, a: UserId, b: UserId) {
    && before.game.session.Some? && a in before.game.session.value.votes
    && after.game.session.Some? && a !in after.game.session.value.votes && b in after.game.session.value.votes
    && after.saves == after.game.session.value.version + 1
  }

  lemma RaceRun(g0: Game, d: Durations, a: UserId, b: UserId, t: UserId, r1: RequestId, r2: RequestId, ttlMs: nat, ms: nat)
    returns (cs: seq<Cluster>)
    requires 0 < ttlMs <= ms
    ensures ClusterRun(cs, Race(a, b, t, r1, r2, ttlMs, ms), g0, d)
  {
    hide Perform;
    var acts := Race(a, b, t, r1, r2, ttlMs, ms);
    var c0 := Idle(g0);
    var c1 := Act(c0, acts[0], d);
    var c2 := Act(c1, acts[1], d);
    var c3 := Act(c2, acts[2], d);
    var c4 := Act(c3, acts[3], d);
    var c5 := Act(c4, acts[4], d);
    var c6 := Act(c5, acts[5], d);
    var c7 := Act(c6, acts[6], d);
    cs := [c0, c1, c2, c3, c4, c5, c6, c7];
  }

  lemma FreshVote(g: Game, actor: UserId, target: UserId, requestId: RequestId)
    requires g.session.Some? && requestId !in g.session.value.processedRequests
    requires CastVote(g.session.value, actor, target, requestId).Ok?
    ensures var s, t := g.session.value, CastVote(g.session.value, actor, target, requestId).value.session;
      && Perform(SaveVote(actor, target, requestId), START, g).1 == WriteSession(t)
      && t.votes == s.votes[actor := target] && t.version == s.version + 1 && actor !in s.votes
  {
    hide IndexOf, Get;
  }

  lemma RaceEnds(cs: seq<Cluster>, g0: Game, d: Durations, a: UserId, b: UserId, t: UserId, r1: RequestId, r2: RequestId,
                 ttlMs: nat, ms: nat)
    requires ttlMs > 0 && a != b && g0.session.Some?
    requires var s := g0.session.value;
      && r1 !in s.processedRequests && CastVote(s, a, t, r1).Ok?
      && r2 !in s.processedRequests && CastVote(s, b, t, r2).Ok?
    requires ClusterRun(cs, Race(a, b, t, r1, r2, ttlMs, ms), g0, d)
    ensures ms >= ttlMs && |cs| == 8 && Overwritten(cs[6], cs[7], a, b)
  {
    hide Perform, Exec, CastVote;
    FreshVote(g0, a, t, r1);
    FreshVote(g0, b, t, r2);
    assert Program(Client(a, r1, 0, Vote(t)), d)[0] == SaveVote(a, t, r1);
    assert Program(Client(b, r2, 0, Vote(t)), d)[0] == SaveVote(b, t, r2);
    var acts := Race(a, b, t, r1, r2, ttlMs, ms);
    assert cs[1] == Act(cs[0], acts[0], d);
    assert cs[2] == Act(cs[1], acts[1], d);
    assert cs[3] == Act(cs[2], acts[2], d);
    assert cs[4] == Act(cs[3], acts[3], d) && May(cs[4], acts[4]);
    assert cs[5] == Act(cs[4], acts[4], d);
    assert cs[6] == Act(cs[5], acts[5], d);
    assert cs[7] == Act(cs[6], acts[6], d);
  }
}
