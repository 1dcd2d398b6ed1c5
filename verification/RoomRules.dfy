// Room membership, readiness and the start condition.
module RoomRules {
  import opened Common
  import opened Domain

  function ParticipantIds(ps: seq<Participant>): (ids: seq<UserId>)
    ensures |ids| == |ps| && forall i | 0 <= i < |ps| :: ids[i] == ps[i].userId
  {
    seq(|ps|, i requires 0 <= i < |ps| => ps[i].userId)
  }

  function ParticipantIndex(ps: seq<Participant>, id: UserId): (i: int)
    ensures -1 <= i < |ps|
    ensures i >= 0 ==> ps[i].userId == id
    ensures i < 0 ==> forall j | 0 <= j < |ps| :: ps[j].userId != id
  {
    if ps == [] then -1
    else if ps[0].userId == id then 0
    else var i := ParticipantIndex(ps[1..], id); if i < 0 then -1 else i + 1
  }

  // Joining again is allowed, even in a full room; it only refreshes the nickname.
  function Join(room: Room, id: UserId): Result<Room, Error> {
    if !room.status.WaitingRoom? then Err(RoomNotJoinable)
    else if ParticipantIndex(room.participants, id) >= 0 then Ok(room)
    else if |room.participants| >= room.maxPlayers then Err(RoomIsFull)
    else Ok(room.(participants := room.participants + [Participant(id, false)]))
  }

  // Leaving is allowed in every room status.
  function Leave(room: Room, id: UserId): Result<Room, Error> {
    var i := ParticipantIndex(room.participants, id);
    if i < 0 then Err(ParticipantNotFound)
    else Ok(room.(participants := room.participants[..i] + room.participants[i + 1..]))
  }

  function ChangeReady(room: Room, id: UserId, isReady: bool): Result<Room, Error> {
    var i := ParticipantIndex(room.participants, id);
    if !room.status.WaitingRoom? then Err(RoomNotJoinable)
    else if i < 0 then Err(ParticipantNotFound)
    else Ok(room.(participants := room.participants[i := room.participants[i].(isReady := isReady)]))
  }

  function Start(room: Room, id: UserId): Result<Room, Error> {
    if !room.status.WaitingRoom? then Err(RoomNotStartable)
    else if room.hostUserId != id then Err(NotHost)
    else if |room.participants| < 4 then Err(RoomNeedsPlayers)
    else if exists p <- room.participants :: !p.isReady then Err(NotAllReady)
    else Ok(room.(status := InProgress))
  }

  function CanAdvancePhase(room: Room, id: UserId): Result<Room, Error> {
    if room.hostUserId != id then Err(NotHost)
    else if !room.status.InProgress? then Err(RoomNotInProgress)
    else Ok(room)
  }

  function NewRoom(host: UserId, maxPlayers: nat): Room
    requires maxPlayers >= 2
  {
    Room(host, WaitingRoom, maxPlayers, [Participant(host, false)])
  }

  predicate RoomInv(room: Room) {
    && Distinct(ParticipantIds(room.participants))
    && |room.participants| <= room.maxPlayers
  }

  // Nobody sits in a room twice and the capacity is never exceeded, whatever the operation.
  lemma RoomOperationsKeepInv(room: Room, id: UserId, isReady: bool)
    requires RoomInv(room)
    ensures Join(room, id).Ok? ==> RoomInv(Join(room, id).value)
    ensures Leave(room, id).Ok? ==> RoomInv(Leave(room, id).value)
    ensures ChangeReady(room, id, isReady).Ok? ==> RoomInv(ChangeReady(room, id, isReady).value)
    ensures Start(room, id).Ok? ==> RoomInv(Start(room, id).value)
    ensures Start(room, id).Ok? ==>
      |room.participants| >= 4 && id == room.hostUserId && forall p <- room.participants :: p.isReady
  {
    var i := ParticipantIndex(room.participants, id);
    if Leave(room, id).Ok? {
      var left := Leave(room, id).value.participants;
      forall j, k | 0 <= j < k < |left| ensures ParticipantIds(left)[j] != ParticipantIds(left)[k] {
        assert left[j] == room.participants[if j < i then j else j + 1];
        assert left[k] == room.participants[if k < i then k else k + 1];
        assert ParticipantIds(room.participants)[if j < i then j else j + 1]
            != ParticipantIds(room.participants)[if k < i then k else k + 1];
      }
    }
    if ChangeReady(room, id, isReady).Ok? {
      assert ParticipantIds(ChangeReady(room, id, isReady).value.participants) == ParticipantIds(room.participants);
    }
    if Join(room, id).Ok? && i < 0 {
      assert ParticipantIds(Join(room, id).value.participants) == ParticipantIds(room.participants) + [id];
    }
  }

  predicate Seated(room: Room, id: UserId) {
    ParticipantIndex(room.participants, id) >= 0
  }

  lemma SeatedIsListed(room: Room, id: UserId)
    ensures Seated(room, id) <==> id in ParticipantIds(room.participants)
  {
    if Seated(room, id) { assert ParticipantIds(room.participants)[ParticipantIndex(room.participants, id)] == id; }
  }

  lemma WithoutOne<T>(s: seq<T>, i: nat, x: T)
    requires i < |s| && Distinct(s)
    ensures x in s[..i] + s[i + 1..] <==> x in s && x != s[i]
  {
    assert s == s[..i] + [s[i]] + s[i + 1..];
    if x in s[..i] { var k :| 0 <= k < i && s[k] == x; }
    if x in s[i + 1..] { var k :| i < k < |s| && s[k] == x; }
  }

  // Joining seats exactly that user; leaving unseats exactly that user, whatever the room's status.
  lemma JoinAndLeaveMoveOneUser(room: Room, id: UserId, other: UserId)
    requires RoomInv(room)
    ensures Join(room, id).Ok? ==> (Seated(Join(room, id).value, other) <==> Seated(room, other) || other == id)
    ensures Leave(room, id).Ok? <==> Seated(room, id)
    ensures Leave(room, id).Ok? ==> (Seated(Leave(room, id).value, other) <==> Seated(room, other) && other != id)
  {
    hide ParticipantIndex, Distinct;
    var ids, i := ParticipantIds(room.participants), ParticipantIndex(room.participants, id);
    SeatedIsListed(room, other);
    if Join(room, id).Ok? {
      SeatedIsListed(Join(room, id).value, other);
      if i < 0 { assert ParticipantIds(Join(room, id).value.participants) == ids + [id]; }
      else { SeatedIsListed(room, id); }
    }
    if Leave(room, id).Ok? {
      SeatedIsListed(Leave(room, id).value, other);
      assert ParticipantIds(Leave(room, id).value.participants) == ids[..i] + ids[i + 1..];
      WithoutOne(ids, i, other);
    }
  }

  // A ready change sets that user's flag and touches nobody else.
  lemma ReadyChangesOneUser(room: Room, id: UserId, isReady: bool, k: nat)
    requires RoomInv(room) && ChangeReady(room, id, isReady).Ok? && k < |room.participants|
    ensures var ps, qs := room.participants, ChangeReady(room, id, isReady).value.participants;
      && |qs| == |ps|
      && qs[k] == if ps[k].userId == id then Participant(id, isReady) else ps[k]
  {
    var ids, i := ParticipantIds(room.participants), ParticipantIndex(room.participants, id);
    assert k != i ==> ids[k] != ids[i];
  }

  // ---- The role deal ----

  function CitizenRoles(n: nat): seq<Role> {
    seq(n, _ => Citizen)
  }

  // The three special roles come first even when there are fewer participants.
  function RolePool(n: nat): (pool: seq<Role>)
    ensures |pool| == if n < 3 then 3 else n
  {
    [Mafia, Doctor, Police] + CitizenRoles(if n < 3 then 0 else n - 3)
  }

  function DealtIds(deal: seq<Assignment>): (ids: seq<UserId>)
    ensures |ids| == |deal|
  {
    seq(|deal|, i requires 0 <= i < |deal| => deal[i].userId)
  }

  function DealtRoles(deal: seq<Assignment>): (roles: seq<Role>)
    ensures |roles| == |deal|
  {
    seq(|deal|, i requires 0 <= i < |deal| => deal[i].role)
  }

  // Each participant once, and the whole pool of roles handed out.
  predicate IsDeal(ids: seq<UserId>, deal: seq<Assignment>) {
    && |ids| >= 3
    && multiset(DealtIds(deal)) == multiset(ids)
    && multiset(DealtRoles(deal)) == multiset(RolePool(|ids|))
  }
}
