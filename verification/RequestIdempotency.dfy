// The request registry: a request is executed and answered once, its repeats get the answer.
module RequestIdempotency {
  import opened Common
  import opened Domain

  datatype RequestKey = RequestKey(gameId: GameId, userId: UserId, requestId: RequestId)

  // The command:accepted or command:rejected event sent for a request.
  datatype Reply =
    | AcceptedReply(receivedType: Text)
    | RejectedReply(reason: Text, message: Text)

  datatype ResultType = CommandAccepted | CommandRejected

  datatype Record = Record(
    commandType: Text, completed: bool, resultType: Option<ResultType>,
    reason: Option<Text>, message: Option<Text>, receivedType: Option<Text>)

  const UNKNOWN_REASON: Text := "ROOM_COMMAND_FAILED"

  function ProcessingRecord(commandType: Text): Record {
    Record(commandType, false, None, None, None, None)
  }

  // completeAccepted and completeRejected
  function CompletedRecord(commandType: Text, reply: Reply): Record {
    match reply
    case AcceptedReply(received) => Record(commandType, true, Some(CommandAccepted), None, None, Some(received))
    case RejectedReply(reason, message) => Record(commandType, true, Some(CommandRejected), Some(reason), Some(message), None)
  }

  // emitCompletedRequest: what a repeat is sent. Unknown reasons are normalised.
  function Replayed(r: Record, repeatType: Text, known: set<Text>): Reply {
    if r.resultType == Some(CommandAccepted) then AcceptedReply(r.receivedType.GetOr(repeatType))
    else RejectedReply(
      if r.reason.Some? && r.reason.value in known then r.reason.value else UNKNOWN_REASON,
      r.message.GetOr("Command failed."))
  }

  // Storing and replaying gives back the original reply, whatever type the repeat claims,
  // exactly when the reason survives normalisation.
  lemma ReplayIsOriginalIff(commandType: Text, reply: Reply, repeatType: Text, known: set<Text>)
    ensures Replayed(CompletedRecord(commandType, reply), repeatType, known) == reply
      <==> (reply.RejectedReply? ==> reply.reason in known || reply.reason == "ROOM_COMMAND_FAILED")
  {
  }

  datatype Begun = Acquired | DuplicateProcessing | DuplicateCompleted(record: Record)

  function DuplicateOf(r: Record): Begun {
    if r.completed then DuplicateCompleted(r) else DuplicateProcessing
  }

  // One delivery, alone with the records.
  function Arrived(records: map<RequestKey, Record>, key: RequestKey, commandType: Text): Registry {
    Registry(records, map[0 := Delivery(key, commandType, Fresh)], map[], multiset{}, multiset{})
  }

  class RequestIdempotencyService {
    var records: map<RequestKey, Record>

    constructor ()
      ensures records == map[]
    {
      records := map[];
    }

    method SetNew(key: RequestKey, r: Record) returns (ok: bool)
      modifies this
      ensures ok <==> key !in old(records)
      ensures records == if ok then old(records)[key := r] else old(records)
    {
      ok := key !in records;
      if ok { records := records[key := r]; }
    }

    method Find(key: RequestKey) returns (r: Option<Record>)
      ensures r == if key in records then Some(records[key]) else None
    {
      r := if key in records then Some(records[key]) else None;
    }

    // SET NX, then GET when the key was there; a repeat is told what became of the original.
    method Begin(key: RequestKey, commandType: Text) returns (begun: Begun)
      modifies this
      ensures var w := Moved(Arrived(old(records), key, commandType), SetNx(0), {});
        && records == w.records
        && (begun.Acquired? <==> w.deliveries[0].progress.Running?)
        && (!begun.Acquired? ==>
              w.deliveries[0].progress.LostRace? && begun == DuplicateOf(w.records[key]))
    {
      var ok := SetNew(key, ProcessingRecord(commandType));
      if ok { return Acquired; }
      var current := Find(key);
      if current.Some? && current.value.completed { return DuplicateCompleted(current.value); }
      begun := DuplicateProcessing;
    }

    method Complete(key: RequestKey, commandType: Text, reply: Reply)
      modifies this
      ensures records == old(records)[key := CompletedRecord(commandType, reply)]
    {
      records := records[key := CompletedRecord(commandType, reply)];
    }
  }

  // ---- Any number of deliveries of any number of requests, step by step ----

  type DeliveryId = nat

  datatype Progress =
    | Fresh
    | LostRace  // SET NX found the key
    | Running  // SET NX set it
    | Answered(reply: Reply)  // executed or found the lock busy, and replied
    | Done(reply: Reply)  // and stored the reply
    | RepeatInProgress  // told the request is still processing
    | RepeatAnswered(reply: Reply)

  datatype Delivery = Delivery(key: RequestKey, commandType: Text, progress: Progress)

  datatype Registry = Registry(
    records: map<RequestKey, Record>,
    deliveries: map<DeliveryId, Delivery>,
    owner: map<RequestKey, DeliveryId>,  // whose SET NX won
    executed: multiset<RequestKey>,
    completed: multiset<RequestKey>)

  datatype Move =
    | Arrive(id: DeliveryId, key: RequestKey, commandType: Text)
    | SetNx(id: DeliveryId)
    | FindRecord(id: DeliveryId)
    | Execute(id: DeliveryId, reply: Reply)  // under the game lock
    | LockBusy(id: DeliveryId, reply: Reply)  // rejected without executing
    | Store(id: DeliveryId)

  predicate CanMove(w: Registry, m: Move, known: set<Text>) {
    match m
    case Arrive(id, _, _) => id !in w.deliveries
    case SetNx(id) => id in w.deliveries && w.deliveries[id].progress.Fresh?
    case FindRecord(id) => id in w.deliveries && w.deliveries[id].progress.LostRace?
    case Execute(id, reply) => id in w.deliveries && w.deliveries[id].progress.Running? && Standard(reply, known)
    case LockBusy(id, reply) =>
      id in w.deliveries && w.deliveries[id].progress.Running? && reply.RejectedReply? && Standard(reply, known)
    case Store(id) => id in w.deliveries && w.deliveries[id].progress.Answered?
  }

  // The server only rejects with reasons of the published list.
  predicate Standard(reply: Reply, known: set<Text>) {
    reply.RejectedReply? ==> reply.reason in known
  }

  function At(w: Registry, id: DeliveryId, p: Progress): map<DeliveryId, Delivery>
    requires id in w.deliveries
  {
    w.deliveries[id := w.deliveries[id].(progress := p)]
  }

  function Moved(w: Registry, m: Move, known: set<Text>): Registry
    requires CanMove(w, m, known)
  {
    match m
    case Arrive(id, key, commandType) => w.(deliveries := w.deliveries[id := Delivery(key, commandType, Fresh)])
    case SetNx(id) =>
      var v := w.deliveries[id];
      if v.key in w.records then w.(deliveries := At(w, id, LostRace))
      else w.(records := w.records[v.key := ProcessingRecord(v.commandType)],
              deliveries := At(w, id, Running),
              owner := w.owner[v.key := id])
    case FindRecord(id) =>
      var v := w.deliveries[id];
      if v.key in w.records && w.records[v.key].completed
      then w.(deliveries := At(w, id, RepeatAnswered(Replayed(w.records[v.key], v.commandType, known))))
      else w.(deliveries := At(w, id, RepeatInProgress))
    case Execute(id, reply) =>
      w.(deliveries := At(w, id, Answered(reply)), executed := w.executed + multiset{w.deliveries[id].key})
    case LockBusy(id, reply) => w.(deliveries := At(w, id, Answered(reply)))
    case Store(id) =>
      var v := w.deliveries[id];
      w.(records := w.records[v.key := CompletedRecord(v.commandType, v.progress.reply)],
         deliveries := At(w, id, Done(v.progress.reply)),
         completed := w.completed + multiset{v.key})
  }

  predicate Owns(p: Progress) {
    p.Running? || p.Answered? || p.Done?
  }

  // What one key's record, owner and counters say about each other.
  ghost predicate KeyInv(w: Registry, key: RequestKey, known: set<Text>) {
    && (key in w.records <==> key in w.owner)
    && (key !in w.owner ==> w.executed[key] == 0 && w.completed[key] == 0)
    && (key in w.owner ==>
          && w.owner[key] in w.deliveries
          && var v := w.deliveries[w.owner[key]];
          && v.key == key
          && Owns(v.progress)
          && w.completed[key] == (if v.progress.Done? then 1 else 0)
          && w.executed[key] <= (if v.progress.Running? then 0 else 1)
          && (v.progress.Answered? || v.progress.Done? ==> Standard(v.progress.reply, known))
          && w.records[key] == if v.progress.Done? then CompletedRecord(v.commandType, v.progress.reply)
                               else ProcessingRecord(v.commandType))
  }

  ghost predicate DeliveryInv(w: Registry, id: DeliveryId)
    requires id in w.deliveries
  {
    var v := w.deliveries[id];
    && (Owns(v.progress) ==> v.key in w.owner && w.owner[v.key] == id)
    && (!v.progress.Fresh? ==> v.key in w.owner)
    && (v.progress.RepeatAnswered? ==>
          && v.key in w.owner && w.owner[v.key] in w.deliveries
          && w.deliveries[w.owner[v.key]].progress == Done(v.progress.reply))
  }

  ghost predicate RegistryInv(w: Registry, known: set<Text>) {
    && (forall key :: KeyInv(w, key, known))
    && (forall id <- w.deliveries :: DeliveryInv(w, id))
  }

  lemma MoveKeepsKeys(w: Registry, m: Move, known: set<Text>, key: RequestKey)
    requires RegistryInv(w, known) && CanMove(w, m, known)
    ensures KeyInv(Moved(w, m, known), key, known)
  {
    hide RegistryInv, CompletedRecord, Standard;
    RegistryParts(w, known, key);
    if !m.Arrive? { RegistryParts(w, known, w.deliveries[m.id].key); }
  }

  lemma RegistryParts(w: Registry, known: set<Text>, key: RequestKey)
    requires RegistryInv(w, known)
    ensures KeyInv(w, key, known)
    ensures forall id <- w.deliveries :: DeliveryInv(w, id)
  {
  }

  lemma MoveKeepsDeliveries(w: Registry, m: Move, known: set<Text>, id: DeliveryId)
    requires RegistryInv(w, known) && CanMove(w, m, known) && id in Moved(w, m, known).deliveries
    ensures DeliveryInv(Moved(w, m, known), id)
  {
    hide RegistryInv, Standard, Replayed;
    if !m.Arrive? { RegistryParts(w, known, w.deliveries[m.id].key); }
    if id in w.deliveries { RegistryParts(w, known, w.deliveries[id].key); }
    if m.FindRecord? && id == m.id && w.records[w.deliveries[id].key].completed {
      var v := w.deliveries[w.owner[w.deliveries[id].key]];
      StandardReplay(v.commandType, v.progress.reply, w.deliveries[id].commandType, known);
    }
  }

  lemma StandardReplay(commandType: Text, reply: Reply, repeatType: Text, known: set<Text>)
    requires Standard(reply, known)
    ensures CompletedRecord(commandType, reply).completed
    ensures Replayed(CompletedRecord(commandType, reply), repeatType, known) == reply
  {
  }

  lemma MoveKeepsInv(w: Registry, m: Move, known: set<Text>)
    requires RegistryInv(w, known) && CanMove(w, m, known)
    ensures RegistryInv(Moved(w, m, known), known)
  {
    hide KeyInv, DeliveryInv, Moved;
    var w' := Moved(w, m, known);
    forall key ensures KeyInv(w', key, known) { MoveKeepsKeys(w, m, known, key); }
    forall id | id in w'.deliveries ensures DeliveryInv(w', id) { MoveKeepsDeliveries(w, m, known, id); }
  }

  ghost predicate RegistryRun(ws: seq<Registry>, ms: seq<Move>, known: set<Text>) {
    && |ws| == |ms| + 1
    && ws[0] == Registry(map[], map[], map[], multiset{}, multiset{})
    && forall i | 0 <= i < |ms| :: CanMove(ws[i], ms[i], known) && ws[i + 1] == Moved(ws[i], ms[i], known)
  }

  lemma {:induction false} RunsKeepRegistryInv(ws: seq<Registry>, ms: seq<Move>, known: set<Text>, n: nat)
    requires RegistryRun(ws, ms, known) && n <= |ms|
    ensures RegistryInv(ws[n], known)
  {
    if n > 0 {
      RunsKeepRegistryInv(ws, ms, known, n - 1);
      MoveKeepsInv(ws[n - 1], ms[n - 1], known);
    }
  }

  // A repeat gets the original's reply when the original has stored it, and otherwise is told
  // that the request is still processing.
  lemma RepeatIsTold(ws: seq<Registry>, ms: seq<Move>, known: set<Text>, n: nat, id: DeliveryId)
    requires RegistryRun(ws, ms, known) && n <= |ms| && CanMove(ws[n], FindRecord(id), known)
    ensures var w, key := ws[n], ws[n].deliveries[id].key;
      && key in w.owner && w.owner[key] in w.deliveries
      && Moved(w, FindRecord(id), known).deliveries[id].progress
           == (match w.deliveries[w.owner[key]].progress
               case Done(reply) => RepeatAnswered(reply)
               case _ => RepeatInProgress)
  {
    hide RegistryInv, Replayed, CompletedRecord;
    RunsKeepRegistryInv(ws, ms, known, n);
    var w := ws[n];
    RegistryParts(w, known, w.deliveries[id].key);
    var original := w.deliveries[w.owner[w.deliveries[id].key]];
    if original.progress.Done? {
      StandardReplay(original.commandType, original.progress.reply, w.deliveries[id].commandType, known);
    }
  }

  // In every interleaving a request is executed at most once and completed at most once, and
  // a repeat that is answered got exactly the reply of the one delivery that ran it,
  // busy-lock rejections included.
  lemma ExactlyOnce(ws: seq<Registry>, ms: seq<Move>, known: set<Text>, n: nat, key: RequestKey)
    requires RegistryRun(ws, ms, known) && n <= |ms|
    ensures ws[n].executed[key] <= 1 && ws[n].completed[key] <= 1
    ensures forall a, b | a in ws[n].deliveries && b in ws[n].deliveries
              && ws[n].deliveries[a].key == key == ws[n].deliveries[b].key
              && Owns(ws[n].deliveries[a].progress) && Owns(ws[n].deliveries[b].progress) :: a == b
    ensures forall id | id in ws[n].deliveries && ws[n].deliveries[id].key == key
              && ws[n].deliveries[id].progress.RepeatAnswered? ::
              key in ws[n].owner && ws[n].owner[key] in ws[n].deliveries
              && ws[n].deliveries[ws[n].owner[key]].progress == Done(ws[n].deliveries[id].progress.reply)
  {
    RunsKeepRegistryInv(ws, ms, known, n);
    assert KeyInv(ws[n], key, known);
    forall id | id in ws[n].deliveries ensures DeliveryInv(ws[n], id) {}
  }
}
