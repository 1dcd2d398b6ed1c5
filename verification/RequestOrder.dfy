// Requests and the lock together: every accepted request takes its place in the game's order
// of steps at most once, and the stored reply is that step's.
module RequestOrder {
  import opened Common
  import opened Domain
  import opened GameRules
  import opened GameSpec
  import opened RequestIdempotency
  import GameLock
  import opened LockedSections

  // How errors are published, and the published reasons.
  datatype Texts = Texts(reasonOf: Error -> Text, messageOf: Error -> Text, known: set<Text>) {
    ghost predicate Published() {
      forall e :: reasonOf(e) in known
    }

    function ReplyOf(commandType: Text, answer: Result<seq<Effect>, Error>): Reply {
      match answer
      case Ok(_) => AcceptedReply(commandType)
      case Err(e) => RejectedReply(reasonOf(e), messageOf(e))
    }
  }

  // The registry and the cluster of one game; a delivery's number is also its instance's.
  datatype Joint = Joint(registry: Registry, cluster: Cluster)

  datatype Step =
    | Registered(m: Move)  // arriving, beginning, giving up on a busy lock, storing the reply
    | Entered(id: DeliveryId, command: Command, now: Millis, ttlMs: nat)
    | Replied(id: DeliveryId)  // the section is done; its answer is the reply
    | Elsewhere(a: Action)  // time, loads and saves, releases, timers and sockets

  function InputOf(v: Delivery, command: Command, now: Millis): Input {
    Client(v.key.userId, v.key.requestId, now, command)
  }

  ghost predicate CanStep(j: Joint, s: Step, gameId: GameId, texts: Texts) {
    match s
    case Registered(m) =>
      && CanMove(j.registry, m, texts.known) && !m.Execute?
      && (m.LockBusy? || m.Arrive? ==> m.id !in j.cluster.instances)
    case Entered(id, _, _, ttlMs) =>
      && id in j.registry.deliveries && j.registry.deliveries[id].progress.Running?
      && j.registry.deliveries[id].key.gameId == gameId
      && id !in j.cluster.instances && ttlMs > 0
    case Replied(id) =>
      && id in j.registry.deliveries && May(j.cluster, Action.Finished(id))
      && CanMove(j.registry, Execute(id, ReplyTo(j, id, texts)), texts.known)
    case Elsewhere(a) =>
      && May(j.cluster, a) && Timely(j.cluster, a)
      && (a.TryAcquire? ==> !a.input.Client? && a.i !in j.registry.deliveries)
      && (a.Finished? ==> a.i !in j.registry.deliveries)
  }

  ghost function Stepped(j: Joint, s: Step, d: Durations, gameId: GameId, texts: Texts): Joint
    requires CanStep(j, s, gameId, texts)
  {
    match s
    case Registered(m) => j.(registry := Moved(j.registry, m, texts.known))
    case Entered(id, command, now, ttlMs) =>
      j.(cluster := Act(j.cluster, TryAcquire(id, InputOf(j.registry.deliveries[id], command, now), ttlMs), d))
    case Replied(id) =>
      Joint(Moved(j.registry, Execute(id, ReplyTo(j, id, texts)), texts.known), Act(j.cluster, Action.Finished(id), d))
    case Elsewhere(a) => j.(cluster := Act(j.cluster, a, d))
  }

  ghost function ReplyTo(j: Joint, id: DeliveryId, texts: Texts): Reply
    requires id in j.registry.deliveries && InsideAt(j.cluster, id)
  {
    texts.ReplyOf(j.registry.deliveries[id].commandType, Answer(j.cluster.instances[id].memory))
  }

  // ---- Places in the order ----

  predicate IsFor(input: Input, gameId: GameId, key: RequestKey) {
    input.Client? && key == RequestKey(gameId, input.user, input.requestId)
  }

  function Places(order: seq<Input>, gameId: GameId, key: RequestKey): nat {
    if order == [] then 0 else Places(ButLast(order), gameId, key) + (if IsFor(Last(order), gameId, key) then 1 else 0)
  }

  lemma PlacesPush(order: seq<Input>, input: Input, gameId: GameId, key: RequestKey)
    ensures Places(order + [input], gameId, key) == Places(order, gameId, key) + (if IsFor(input, gameId, key) then 1 else 0)
  {
    assert ButLast(order + [input]) == order;
  }

  // The delivery's own section is in progress.
  predicate Working(j: Joint, id: DeliveryId) {
    id in j.registry.deliveries && InsideAt(j.cluster, id)
  }

  // A place is taken exactly by the executed requests and the one being worked on.
  ghost predicate PlaceInv(j: Joint, gameId: GameId, key: RequestKey) {
    && ((forall id | Working(j, id) :: j.registry.deliveries[id].key != key)
          ==> Places(j.cluster.order, gameId, key) == j.registry.executed[key])
    && (forall id | Working(j, id) && j.registry.deliveries[id].key == key ::
          Places(j.cluster.order, gameId, key) == j.registry.executed[key] + 1)
  }

  ghost predicate WorkInv(j: Joint, gameId: GameId, id: DeliveryId) {
    Working(j, id) ==>
      && j.registry.deliveries[id].progress.Running?
      && j.registry.deliveries[id].key.gameId == gameId
      && j.cluster.order != [] && IsFor(Last(j.cluster.order), gameId, j.registry.deliveries[id].key)
  }

  // The reply of an executed delivery is the answer of its place.
  ghost predicate ReplyAt(c: Cluster, v: Delivery, gameId: GameId, texts: Texts, n: nat)
    requires v.progress.Answered? || v.progress.Done?
  {
    && n < |c.answers| <= |c.order|
    && IsFor(c.order[n], gameId, v.key) && v.progress.reply == texts.ReplyOf(v.commandType, c.answers[n])
  }

  ghost predicate ReplyInv(j: Joint, gameId: GameId, texts: Texts, id: DeliveryId) {
    id in j.registry.deliveries ==>
      var v := j.registry.deliveries[id];
      (v.progress.Answered? || v.progress.Done?) && j.registry.executed[v.key] >= 1 ==>
        exists n: nat :: ReplyAt(j.cluster, v, gameId, texts, n)
  }

  ghost predicate LinkInv(j: Joint, gameId: GameId, texts: Texts) {
    && (forall key :: PlaceInv(j, gameId, key))
    && (forall id :: WorkInv(j, gameId, id) && ReplyInv(j, gameId, texts, id))
  }

  ghost predicate JointInv(j: Joint, g0: Game, d: Durations, gameId: GameId, texts: Texts) {
    && RegistryInv(j.registry, texts.known)
    && LockInv(j.cluster) && GameSerial(j.cluster, g0, d)
    && LinkInv(j, gameId, texts)
  }

  // A finished section's delivery can always reply.
  lemma FinishedCanReply(j: Joint, g0: Game, d: Durations, gameId: GameId, texts: Texts, id: DeliveryId)
    requires JointInv(j, g0, d, gameId, texts) && texts.Published()
    requires id in j.registry.deliveries && May(j.cluster, Action.Finished(id))
    ensures CanStep(j, Replied(id), gameId, texts)
  {
    hide RegistryInv, LockInv, GameSerial, PlaceInv, ReplyInv;
    assert WorkInv(j, gameId, id);
  }

  // ---- Each kind of step ----

  lemma ClusterFrame(c: Cluster, a: Action, d: Durations)
    requires May(c, a)
    ensures var c' := Act(c, a, d);
      if a.TryAcquire? && GameLock.Free(c.key, c.now) then
        c'.order == c.order + [a.input] && c'.answers == c.answers
        && forall i :: InsideAt(c', i) <==> InsideAt(c, i) || i == a.i
      else
        c'.order == c.order
        && c'.answers == (if a.Finished? then c.answers + [Answer(c.instances[a.i].memory)] else c.answers)
        && forall i :: InsideAt(c', i) <==> InsideAt(c, i) && !(a.Finished? && i == a.i)
  {
    hide Perform, Program;
  }

  lemma NobodyInside(c: Cluster)
    requires LockInv(c) && GameLock.Free(c.key, c.now)
    ensures forall i :: !InsideAt(c, i)
  {
  }

  lemma RegistryFacts(w: Registry, known: set<Text>, id: DeliveryId)
    requires RegistryInv(w, known) && id in w.deliveries && Owns(w.deliveries[id].progress)
    ensures w.deliveries[id].key in w.owner && w.owner[w.deliveries[id].key] == id
    ensures w.deliveries[id].progress.Running? ==> w.executed[w.deliveries[id].key] == 0
    ensures w.executed[w.deliveries[id].key] <= 1
  {
    RegistryParts(w, known, w.deliveries[id].key);
    assert DeliveryInv(w, id);
  }

  lemma ReplyStays(c: Cluster, c': Cluster, v: Delivery, v': Delivery, gameId: GameId, texts: Texts)
    requires v.progress.Answered? || v.progress.Done?
    requires v'.progress.Answered? || v'.progress.Done?
    requires v'.key == v.key && v'.commandType == v.commandType && v'.progress.reply == v.progress.reply
    requires c.order <= c'.order && c.answers <= c'.answers && |c'.answers| <= |c'.order|
    requires exists n: nat :: ReplyAt(c, v, gameId, texts, n)
    ensures exists n: nat :: ReplyAt(c', v', gameId, texts, n)
  {
    var n: nat :| ReplyAt(c, v, gameId, texts, n);
    assert ReplyAt(c', v', gameId, texts, n);
  }

  lemma AnswersInOrder(c: Cluster, g0: Game, d: Durations)
    requires GameSerial(c, g0, d)
    ensures |c.answers| <= |c.order|
    ensures (exists i :: InsideAt(c, i)) ==> |c.order| == |c.answers| + 1
  {
  }

  lemma PlacesUnmoved(j: Joint, m: Move, gameId: GameId, texts: Texts, key: RequestKey)
    requires CanStep(j, Registered(m), gameId, texts) && PlaceInv(j, gameId, key)
    ensures PlaceInv(j.(registry := Moved(j.registry, m, texts.known)), gameId, key)
  {
    hide Places, Standard, CompletedRecord, Replayed;
    var j' := j.(registry := Moved(j.registry, m, texts.known));
    assert j'.registry.executed == j.registry.executed;
    forall id ensures (Working(j', id) <==> Working(j, id))
                      && (Working(j, id) ==> j'.registry.deliveries[id].key == j.registry.deliveries[id].key) {
    }
  }

  lemma RegisteredKeeps(j: Joint, m: Move, g0: Game, d: Durations, gameId: GameId, texts: Texts)
    requires JointInv(j, g0, d, gameId, texts) && CanStep(j, Registered(m), gameId, texts)
    ensures LinkInv(Stepped(j, Registered(m), d, gameId, texts), gameId, texts)
  {
    hide RegistryInv, LockInv, GameSerial, ReplyAt, Places, Standard, CompletedRecord, Replayed;
    var j' := Stepped(j, Registered(m), d, gameId, texts);
    AnswersInOrder(j.cluster, g0, d);
    forall key ensures PlaceInv(j', gameId, key) {
      PlacesUnmoved(j, m, gameId, texts, key);
    }
    forall id ensures WorkInv(j', gameId, id) && ReplyInv(j', gameId, texts, id) {
      assert WorkInv(j, gameId, id) && ReplyInv(j, gameId, texts, id);
      if id == m.id && id in j.registry.deliveries {
        if m.LockBusy? { RegistryFacts(j.registry, texts.known, id); }
        if m.Store? && j.registry.executed[j.registry.deliveries[id].key] >= 1 {
          ReplyStays(j.cluster, j.cluster, j.registry.deliveries[id], j'.registry.deliveries[id], gameId, texts);
        }
      }
    }
  }

  lemma EnteredKeeps(j: Joint, s: Step, g0: Game, d: Durations, gameId: GameId, texts: Texts)
    requires JointInv(j, g0, d, gameId, texts) && s.Entered? && CanStep(j, s, gameId, texts)
    requires |Stepped(j, s, d, gameId, texts).cluster.answers| <= |Stepped(j, s, d, gameId, texts).cluster.order|
    ensures LinkInv(Stepped(j, s, d, gameId, texts), gameId, texts)
  {
    hide RegistryInv, LockInv, GameSerial, ReplyAt, Places, Act;
    var j' := Stepped(j, s, d, gameId, texts);
    var a := TryAcquire(s.id, InputOf(j.registry.deliveries[s.id], s.command, s.now), s.ttlMs);
    ClusterFrame(j.cluster, a, d);
    var entered := GameLock.Free(j.cluster.key, j.cluster.now);
    if entered { NobodyInside(j.cluster); }
    forall key ensures PlaceInv(j', gameId, key) {
      assert PlaceInv(j, gameId, key);
      if entered { PlacesPush(j.cluster.order, a.input, gameId, key); }
    }
    forall id ensures WorkInv(j', gameId, id) && ReplyInv(j', gameId, texts, id) {
      assert WorkInv(j, gameId, id) && ReplyInv(j, gameId, texts, id);
      StaysReplied(j, j', gameId, texts, id);
    }
  }

  lemma StaysReplied(j: Joint, j': Joint, gameId: GameId, texts: Texts, id: DeliveryId)
    requires ReplyInv(j, gameId, texts, id) && j'.registry == j.registry
    requires j.cluster.order <= j'.cluster.order && j.cluster.answers <= j'.cluster.answers
    requires |j'.cluster.answers| <= |j'.cluster.order|
    ensures ReplyInv(j', gameId, texts, id)
  {
    hide ReplyAt;
    if id in j.registry.deliveries {
      var v := j.registry.deliveries[id];
      if (v.progress.Answered? || v.progress.Done?) && j.registry.executed[v.key] >= 1 {
        ReplyStays(j.cluster, j'.cluster, v, v, gameId, texts);
      }
    }
  }

  lemma ElsewhereKeeps(j: Joint, a: Action, g0: Game, d: Durations, gameId: GameId, texts: Texts)
    requires JointInv(j, g0, d, gameId, texts) && CanStep(j, Elsewhere(a), gameId, texts)
    requires |Act(j.cluster, a, d).answers| <= |Act(j.cluster, a, d).order|
    ensures LinkInv(Stepped(j, Elsewhere(a), d, gameId, texts), gameId, texts)
  {
    hide RegistryInv, LockInv, GameSerial, ReplyAt, Places, Act;
    var j' := Stepped(j, Elsewhere(a), d, gameId, texts);
    ClusterFrame(j.cluster, a, d);
    if a.TryAcquire? && GameLock.Free(j.cluster.key, j.cluster.now) { NobodyInside(j.cluster); }
    forall key ensures PlaceInv(j', gameId, key) {
      assert PlaceInv(j, gameId, key);
      if a.TryAcquire? { PlacesPush(j.cluster.order, a.input, gameId, key); }
    }
    forall id ensures WorkInv(j', gameId, id) && ReplyInv(j', gameId, texts, id) {
      assert WorkInv(j, gameId, id) && ReplyInv(j, gameId, texts, id);
      StaysReplied(j, j', gameId, texts, id);
    }
  }

  lemma RepliedKeeps(j: Joint, me: DeliveryId, g0: Game, d: Durations, gameId: GameId, texts: Texts)
    requires JointInv(j, g0, d, gameId, texts) && CanStep(j, Replied(me), gameId, texts)
    requires |Act(j.cluster, Action.Finished(me), d).answers| <= |Act(j.cluster, Action.Finished(me), d).order|
    ensures LinkInv(Stepped(j, Replied(me), d, gameId, texts), gameId, texts)
  {
    hide RegistryInv, LockInv, GameSerial, ReplyAt, Places, Act;
    var j' := Stepped(j, Replied(me), d, gameId, texts);
    var mine := j.registry.deliveries[me];
    assert WorkInv(j, gameId, me) && Working(j, me);
    AnswersInOrder(j.cluster, g0, d);
    ClusterFrame(j.cluster, Action.Finished(me), d);
    forall id | Working(j, id) ensures id == me { AtMostOneInside(j.cluster, id, me); }
    assert forall id :: Working(j', id) ==> Working(j, id) && id != me;
    forall key ensures PlaceInv(j', gameId, key) {
      assert PlaceInv(j, gameId, key);
      PlaceOfReply(j, j', me, gameId, key);
    }
    forall id ensures WorkInv(j', gameId, id) && ReplyInv(j', gameId, texts, id) {
      assert WorkInv(j, gameId, id) && ReplyInv(j, gameId, texts, id);
      if id == me {
        AnswerIsAt(j, j', me, gameId, texts);
      } else if id in j.registry.deliveries {
        var v := j.registry.deliveries[id];
        if v.progress.Answered? || v.progress.Done? {
          RegistryFacts(j.registry, texts.known, id);
          RegistryFacts(j.registry, texts.known, me);
          if j.registry.executed[v.key] >= 1 { ReplyStays(j.cluster, j'.cluster, v, v, gameId, texts); }
        }
      }
    }
  }

  lemma PlaceOfReply(j: Joint, j': Joint, me: DeliveryId, gameId: GameId, key: RequestKey)
    requires PlaceInv(j, gameId, key) && Working(j, me) && (forall id | Working(j, id) :: id == me)
    requires j'.cluster.order == j.cluster.order
    requires j'.registry.executed == j.registry.executed + multiset{j.registry.deliveries[me].key}
    requires forall id :: !Working(j', id)
    ensures PlaceInv(j', gameId, key)
  {
    hide Places;
    if j.registry.deliveries[me].key == key {
      assert Places(j.cluster.order, gameId, key) == j.registry.executed[key] + 1;
    }
  }

  lemma AnswerIsAt(j: Joint, j': Joint, me: DeliveryId, gameId: GameId, texts: Texts)
    requires me in j.registry.deliveries && InsideAt(j.cluster, me) && WorkInv(j, gameId, me)
    requires |j.cluster.order| == |j.cluster.answers| + 1
    requires j'.cluster.order == j.cluster.order
    requires j'.cluster.answers == j.cluster.answers + [Answer(j.cluster.instances[me].memory)]
    requires me in j'.registry.deliveries
    requires j'.registry.deliveries[me] == j.registry.deliveries[me].(progress := Answered(ReplyTo(j, me, texts)))
    ensures ReplyInv(j', gameId, texts, me)
  {
    var n := |j.cluster.answers|;
    assert ReplyAt(j'.cluster, j'.registry.deliveries[me], gameId, texts, n);
  }

  // ---- Every step and every run ----

  lemma MachinesStep(j: Joint, s: Step, g0: Game, d: Durations, gameId: GameId, texts: Texts)
    requires JointInv(j, g0, d, gameId, texts) && CanStep(j, s, gameId, texts)
    ensures var j' := Stepped(j, s, d, gameId, texts);
      RegistryInv(j'.registry, texts.known) && LockInv(j'.cluster) && GameSerial(j'.cluster, g0, d)
  {
    hide RegistryInv, LockInv, GameSerial, LinkInv, Moved, Act;
    match s
    case Registered(m) => MoveKeepsInv(j.registry, m, texts.known);
    case Entered(id, command, now, ttlMs) =>
      var a := TryAcquire(id, InputOf(j.registry.deliveries[id], command, now), ttlMs);
      LockStep(j.cluster, a, d);
      SerialStep(j.cluster, a, g0, d);
    case Replied(id) =>
      MoveKeepsInv(j.registry, Execute(id, ReplyTo(j, id, texts)), texts.known);
      LockStep(j.cluster, Action.Finished(id), d);
      SerialStep(j.cluster, Action.Finished(id), g0, d);
    case Elsewhere(a) =>
      LockStep(j.cluster, a, d);
      SerialStep(j.cluster, a, g0, d);
  }

  lemma StepKeepsJointInv(j: Joint, s: Step, g0: Game, d: Durations, gameId: GameId, texts: Texts)
    requires JointInv(j, g0, d, gameId, texts) && CanStep(j, s, gameId, texts)
    ensures JointInv(Stepped(j, s, d, gameId, texts), g0, d, gameId, texts)
  {
    hide RegistryInv, LockInv, GameSerial, LinkInv, Moved, Act;
    MachinesStep(j, s, g0, d, gameId, texts);
    AnswersInOrder(Stepped(j, s, d, gameId, texts).cluster, g0, d);
    match s
    case Registered(m) => RegisteredKeeps(j, m, g0, d, gameId, texts);
    case Entered(_, _, _, _) => EnteredKeeps(j, s, g0, d, gameId, texts);
    case Replied(id) => RepliedKeeps(j, id, g0, d, gameId, texts);
    case Elsewhere(a) => ElsewhereKeeps(j, a, g0, d, gameId, texts);
  }

  ghost predicate JointRun(js: seq<Joint>, steps: seq<Step>, g0: Game, d: Durations, gameId: GameId, texts: Texts) {
    && |js| == |steps| + 1
    && js[0] == Joint(Registry(map[], map[], map[], multiset{}, multiset{}), Idle(g0))
    && forall n | 0 <= n < |steps| ::
         CanStep(js[n], steps[n], gameId, texts) && js[n + 1] == Stepped(js[n], steps[n], d, gameId, texts)
  }

  lemma FirstJoint(g0: Game, d: Durations, gameId: GameId, texts: Texts)
    ensures JointInv(Joint(Registry(map[], map[], map[], multiset{}, multiset{}), Idle(g0)), g0, d, gameId, texts)
  {
    hide LockInv, GameSerial;
    IdleIsSerial(g0, d);
  }

  lemma {:induction false} RunsKeepJointInv(js: seq<Joint>, steps: seq<Step>, g0: Game, d: Durations, gameId: GameId,
                                            texts: Texts, n: nat)
    requires JointRun(js, steps, g0, d, gameId, texts) && n <= |steps|
    ensures JointInv(js[n], g0, d, gameId, texts)
  {
    hide JointInv, CanStep, Stepped;
    if n > 0 {
      RunsKeepJointInv(js, steps, g0, d, gameId, texts, n - 1);
      StepKeepsJointInv(js[n - 1], steps[n - 1], g0, d, gameId, texts);
    } else {
      FirstJoint(g0, d, gameId, texts);
    }
  }

  // Over every interleaving of deliveries, sections, timers and sockets: a request is in the
  // game's order of steps at most once, and what its delivery replied, and stored for its
  // repeats, publishes the result of exactly that step.
  lemma ExactlyOnceInOrder(js: seq<Joint>, steps: seq<Step>, g0: Game, d: Durations, gameId: GameId, texts: Texts,
                           n: nat, key: RequestKey)
    requires JointRun(js, steps, g0, d, gameId, texts) && n <= |steps|
    ensures Places(js[n].cluster.order, gameId, key) <= 1
    ensures forall id | id in js[n].registry.deliveries && js[n].registry.deliveries[id].key == key
                        && (js[n].registry.deliveries[id].progress.Answered? || js[n].registry.deliveries[id].progress.Done?)
                        && js[n].registry.executed[key] >= 1 ::
      RepliesToStep(js[n], id, g0, d, gameId, texts)
  {
    hide RegistryInv, GameSerial, LockInv, PlaceInv, Places, ReplyAt, Exec, RepliesToStep, CanStep, Stepped;
    var j := js[n];
    RunsKeepJointInv(js, steps, g0, d, gameId, texts, n);
    AtMostOnePlace(j, g0, d, gameId, texts, key);
    forall id | id in j.registry.deliveries && j.registry.deliveries[id].key == key
                && (j.registry.deliveries[id].progress.Answered? || j.registry.deliveries[id].progress.Done?)
                && j.registry.executed[key] >= 1
      ensures RepliesToStep(j, id, g0, d, gameId, texts)
    {
      assert ReplyInv(j, gameId, texts, id);
      var k: nat :| ReplyAt(j.cluster, j.registry.deliveries[id], gameId, texts, k);
      AnswerIsResult(j, id, g0, d, gameId, texts, k);
    }
  }

  ghost predicate RepliesToStep(j: Joint, id: DeliveryId, g0: Game, d: Durations, gameId: GameId, texts: Texts)
    requires id in j.registry.deliveries
    requires j.registry.deliveries[id].progress.Answered? || j.registry.deliveries[id].progress.Done?
  {
    var v, order := j.registry.deliveries[id], j.cluster.order;
    exists k | 0 <= k < |order| ::
      IsFor(order[k], gameId, v.key)
      && v.progress.reply == texts.ReplyOf(v.commandType, Exec(Run(g0, order[..k], d), order[k], d).result)
  }

  lemma AnswerIsResult(j: Joint, id: DeliveryId, g0: Game, d: Durations, gameId: GameId, texts: Texts, k: nat)
    requires id in j.registry.deliveries
    requires j.registry.deliveries[id].progress.Answered? || j.registry.deliveries[id].progress.Done?
    requires GameSerial(j.cluster, g0, d) && ReplyAt(j.cluster, j.registry.deliveries[id], gameId, texts, k)
    ensures RepliesToStep(j, id, g0, d, gameId, texts)
  {
    hide Exec, Run, Complete;
    assert j.cluster.answers[k] == Exec(Run(g0, j.cluster.order[..k], d), j.cluster.order[k], d).result;
  }

  lemma AtMostOnePlace(j: Joint, g0: Game, d: Durations, gameId: GameId, texts: Texts, key: RequestKey)
    requires JointInv(j, g0, d, gameId, texts)
    ensures Places(j.cluster.order, gameId, key) <= 1
  {
    hide RegistryInv, LockInv, GameSerial, ReplyInv, Places;
    assert PlaceInv(j, gameId, key);
    ExecutedOnce(j.registry, texts.known, key);
    if id :| Working(j, id) && j.registry.deliveries[id].key == key {
      assert WorkInv(j, gameId, id);
      RegistryFacts(j.registry, texts.known, id);
    }
  }

  lemma ExecutedOnce(w: Registry, known: set<Text>, key: RequestKey)
    requires RegistryInv(w, known)
    ensures w.executed[key] <= 1
  {
    RegistryParts(w, known, key);
  }
}
