// What every command keeps true of a stored session.
module Invariants {
  import opened Common
  import opened Domain
  import opened Players
  import opened GameRules
  import opened RoomRules
  import opened GameSpec

  predicate RosterInv(ps: seq<Player>) {
    && |ps| >= 4
    && Distinct(Ids(ps))
    && Count(ps, IsMafia) == 1 && Count(ps, IsDoctor) == 1 && Count(ps, IsPolice) == 1
    && Count(ps, IsAlive) >= 2
  }

  predicate SessionInv(s: Session) {
    && RosterInv(s.players)
    && !s.phase.Waiting?
    && (s.nightActions != map[] ==> s.phase.Night?)
    && (s.votes != map[] ==> s.phase.Voting?)
    && (forall v <- s.votes :: Living(s.players, v) && Living(s.players, s.votes[v]))
    && (forall slot <- s.nightActions :: Living(s.players, s.nightActions[slot]))
    && (MafiaTarget in s.nightActions ==> !Get(s.players, s.nightActions[MafiaTarget]).role.Mafia?)
    && (s.phase.Finished? <==> EvaluateWinner(s.players).Some?)
    && (s.phase.Finished? <==> s.phaseEndsAt.None?)
  }

  // ---- The composite phase step, said in one go ----

  ghost function Victim(s: Session): Option<UserId> {
    if s.phase.Night? then NightVictim(s)
    else if s.phase.Voting? then PluralityWinner(s.votes)
    else None
  }

  ghost function Survivors(s: Session): seq<Player> {
    if Victim(s).Some? then MarkDead(s.players, Victim(s).value) else s.players
  }

  ghost function Settled(s: Session, now: Millis, d: Durations): Session
    requires !s.phase.Finished?
  {
    var next := NextPhase(s.phase).value;
    var over := EvaluateWinner(Survivors(s)).Some?;
    Session(
      s.hostUserId,
      if over then Finished else next,
      if s.phase.Night? then s.turn + 1 else s.turn,
      s.version + 1 + (if s.phase.Night? || s.phase.Voting? then 1 else 0) + (if over then 1 else 0),
      Survivors(s),
      map[],
      map[],
      if over then None else Deadline(d, next, now),
      s.processedRequests)
  }

  ghost function SettledReport(s: Session, now: Millis, d: Durations): PhaseReport
    requires !s.phase.Finished?
  {
    var next := NextPhase(s.phase).value;
    PhaseReport(
      s.phase, next,
      if s.phase.Night? then s.turn + 1 else s.turn,
      Deadline(d, next, now),
      if s.phase.Night? then SlotTarget(s, MafiaTarget) else None,
      if s.phase.Night? then SlotTarget(s, DoctorTarget) else None,
      Victim(s),
      EvaluateWinner(Survivors(s)))
  }

  lemma LeaderHasVoter(votes: map<UserId, UserId>, t: UserId)
    requires VotesFor(votes, t) >= 1
    ensures exists v :: v in votes && votes[v] == t
  {
    var voters := set v | v in votes.Keys && v in votes && votes[v] == t;
    assert |voters| >= 1;
    var v :| v in voters;
  }

  // Whoever a phase step is about to kill is a living player; at night, not the mafia.
  lemma VictimIsLiving(s: Session)
    requires SessionInv(s) && Victim(s).Some?
    ensures Living(s.players, Victim(s).value)
    ensures s.phase.Night? ==> !Get(s.players, Victim(s).value).role.Mafia?
  {
    if s.phase.Voting? { LeaderHasVoter(s.votes, Victim(s).value); }
  }

  // The part of the invariant the composite step itself needs.
  ghost predicate ReadyToStep(s: Session) {
    && !s.phase.Finished? && !s.phase.Waiting?
    && (!s.phase.Night? ==> s.nightActions == map[])
    && (!s.phase.Voting? ==> s.votes == map[])
    && (Victim(s).Some? ==> Living(s.players, Victim(s).value))
    && EvaluateWinner(s.players).None?
  }

  lemma InvIsReady(s: Session)
    requires SessionInv(s) && !s.phase.Finished?
    ensures ReadyToStep(s)
  {
    if Victim(s).Some? { VictimIsLiving(s); }
  }

  lemma ReadyStepSettles(s: Session, now: Millis, d: Durations)
    requires ReadyToStep(s)
    ensures PhaseStep(s, now, d) == PhaseStepResult(Settled(s, now, d), Ok(SettledReport(s, now, d)))
  {
    hide Count, IndexOf, PluralityWinner, MarkDead;
    var advanced := Advance(s).value;
    var s1 := advanced.(phaseEndsAt := Deadline(d, advanced.phase, now));
    if s.phase.Night? {
      assert NightVictim(s1) == Victim(s);
      var r := ResolveNight(s1);
      assert r == Ok(Resolution(
        s1.(players := Survivors(s), nightActions := map[], version := s1.version + 1),
        Victim(s), EvaluateWinner(Survivors(s))));
    } else if s.phase.Voting? {
      var r := ResolveVoting(s1);
      assert r == Ok(Resolution(
        s1.(players := Survivors(s), votes := map[], version := s1.version + 1),
        Victim(s), EvaluateWinner(Survivors(s))));
    }
  }

  // Resolution never fails: advance, resolve and finish together are one total step, and
  // the stored session is the one-shot description above.
  lemma PhaseStepSettles(s: Session, now: Millis, d: Durations)
    requires SessionInv(s)
    ensures s.phase.Finished? ==> PhaseStep(s, now, d) == PhaseStepResult(s, Err(GameIsFinished))
    ensures !s.phase.Finished? ==>
      PhaseStep(s, now, d) == PhaseStepResult(Settled(s, now, d), Ok(SettledReport(s, now, d)))
  {
    if !s.phase.Finished? {
      InvIsReady(s);
      ReadyStepSettles(s, now, d);
    }
  }

  lemma SurvivorCounts(s: Session)
    requires SessionInv(s) && !s.phase.Finished?
    ensures SameRoles(s.players, Survivors(s))
    ensures Count(Survivors(s), IsAlive) == Count(s.players, IsAlive) - (if Victim(s).Some? then 1 else 0)
    ensures Count(s.players, IsAliveMafia) == 1 && Count(s.players, IsAlive) >= 3
    ensures s.phase.Night? ==> Count(Survivors(s), IsAliveMafia) == 1
  {
    CountSplit(s.players);
    if Victim(s).Some? {
      VictimIsLiving(s);
      DeathOfOne(s.players, Victim(s).value);
    }
  }

  lemma SettledKeepsInv(s: Session, now: Millis, d: Durations)
    requires SessionInv(s) && !s.phase.Finished?
    ensures SessionInv(Settled(s, now, d))
  {
    SurvivorCounts(s);
    SameRolesCounts(s.players, Survivors(s));
  }

  // A win declared by a night resolution is always the mafia's.
  lemma NightWinIsMafia(s: Session)
    requires SessionInv(s) && s.phase.Night? && EvaluateWinner(Survivors(s)).Some?
    ensures EvaluateWinner(Survivors(s)) == Some(MafiaTeam)
  {
    SurvivorCounts(s);
  }

  // ---- The other session changes ----

  lemma {:induction false} OneOfARole(ps: seq<Player>, i: nat, j: nat, test: Player -> bool)
    requires i < |ps| && j < |ps| && test(ps[i]) && test(ps[j])
    requires Count(ps, test) <= 1
    ensures i == j
  {
    if i == 0 && j > 0 { CountWitness(ps[1..], j - 1, test); }
    else if j == 0 && i > 0 { CountWitness(ps[1..], i - 1, test); }
    else if i > 0 && j > 0 { OneOfARole(ps[1..], i - 1, j - 1, test); }
  }

  lemma VoteKeepsInv(s: Session, actor: UserId, target: UserId, requestId: RequestId)
    requires SessionInv(s) && CastVote(s, actor, target, requestId).Ok?
    ensures SessionInv(CastVote(s, actor, target, requestId).value.session)
  {
    hide RosterInv, EvaluateWinner, IndexOf, Get;
  }

  lemma NightActionKeepsInv(s: Session, actor: UserId, target: UserId, slot: Slot)
    requires SessionInv(s) && SelectNightAction(s, actor, target, slot).Ok?
    ensures SessionInv(SelectNightAction(s, actor, target, slot).value)
  {
    hide EvaluateWinner, IndexOf, Count, Distinct;
    if slot.MafiaTarget? && Get(s.players, target).role.Mafia? {
      OneOfARole(s.players, IndexOf(s.players, actor), IndexOf(s.players, target), IsMafia);
    }
  }

  lemma SameLiving(ps: seq<Player>, qs: seq<Player>, id: UserId)
    requires SameRoles(ps, qs) && forall i | 0 <= i < |ps| :: ps[i].status == qs[i].status
    ensures Living(qs, id) <==> Living(ps, id)
    ensures Has(ps, id) ==> Has(qs, id) && Get(qs, id).role == Get(ps, id).role
  {
    LookupSame(ps, qs, id);
  }

  lemma ConnectionKeepsInv(s: Session, id: UserId, c: Connection)
    requires SessionInv(s) && SetConnection(s, id, c).Ok?
    ensures SessionInv(SetConnection(s, id, c).value)
  {
    var t := SetConnection(s, id, c).value;
    SameRolesCounts(s.players, t.players);
    SameStatusCounts(s.players, t.players);
    assert RosterInv(t.players);
    forall v | v in t.votes ensures Living(t.players, v) && Living(t.players, t.votes[v]) {
      SameLiving(s.players, t.players, v);
      SameLiving(s.players, t.players, t.votes[v]);
    }
    forall slot | slot in t.nightActions ensures Living(t.players, t.nightActions[slot]) {
      SameLiving(s.players, t.players, t.nightActions[slot]);
    }
    if MafiaTarget in t.nightActions {
      SameLiving(s.players, t.players, t.nightActions[MafiaTarget]);
    }
  }

  // ---- The dealt roster ----

  lemma {:induction false} CountOfMultiset<T>(s: seq<T>, x: T)
    ensures CountOf(s, x) == multiset(s)[x]
  {
    if s != [] {
      assert s == [s[0]] + s[1..];
      CountOfMultiset(s[1..], x);
    }
  }

  lemma {:induction false} CountIsCountOf(deal: seq<Assignment>, role: Role, test: Player -> bool)
    requires forall p :: test(p) <==> p.role == role
    ensures Count(DealtPlayers(deal), test) == CountOf(DealtRoles(deal), role)
  {
    if deal != [] {
      assert DealtPlayers(deal)[1..] == DealtPlayers(deal[1..]);
      assert DealtRoles(deal)[1..] == DealtRoles(deal[1..]);
      CountIsCountOf(deal[1..], role, test);
    }
  }

  lemma PoolCounts(n: nat, role: Role)
    requires n >= 3
    ensures multiset(RolePool(n))[role] == if role.Citizen? then n - 3 else 1
  {
    CitizenCount(n - 3, role);
    var three := [Mafia, Doctor, Police];
    assert RolePool(n) == three + CitizenRoles(n - 3);
    assert multiset(RolePool(n)) == multiset(three) + multiset(CitizenRoles(n - 3));
  }

  lemma {:induction false} CitizenCount(n: nat, role: Role)
    ensures multiset(CitizenRoles(n))[role] == if role.Citizen? then n else 0
  {
    if n > 0 {
      assert CitizenRoles(n) == [Citizen] + CitizenRoles(n - 1);
      CitizenCount(n - 1, role);
    }
  }

  lemma {:induction false} DistinctByCount<T>(s: seq<T>)
    ensures Distinct(s) <==> forall x <- s :: multiset(s)[x] == 1
  {
    if s != [] {
      var t := s[1..];
      assert s == [s[0]] + t;
      DistinctByCount(t);
      if Distinct(s) {
        forall i, j | 0 <= i < j < |t| ensures t[i] != t[j] { assert t[i] == s[i + 1] && t[j] == s[j + 1]; }
        forall k | 0 <= k < |t| ensures t[k] != s[0] { assert s[0] != s[k + 1]; }
      } else {
        var i, j :| 0 <= i < j < |s| && s[i] == s[j];
        if i == 0 {
          assert t[j - 1] == s[0] && s[0] in s;
          assert multiset(s)[s[0]] == 1 + multiset(t)[s[0]] >= 2;
        }
        else {
          assert t[i - 1] == t[j - 1] && !Distinct(t);
          var x :| x in t && multiset(t)[x] != 1;
          assert x in s && multiset(s)[x] >= multiset(t)[x] >= 2;
        }
      }
    }
  }

  // Every started session seats each participant exactly once, with exactly one mafia, one
  // doctor, one police and citizens for the rest.
  lemma DealtRoster(ids: seq<UserId>, deal: seq<Assignment>)
    requires IsDeal(ids, deal) && Distinct(ids)
    ensures var ps := DealtPlayers(deal);
      && |ps| == |ids|
      && Distinct(Ids(ps))
      && (forall id :: Has(ps, id) <==> id in ids)
      && Count(ps, IsMafia) == 1 && Count(ps, IsDoctor) == 1 && Count(ps, IsPolice) == 1
      && Count(ps, IsCitizen) == |ids| - 3
  {
    var ps := DealtPlayers(deal);
    assert |multiset(DealtIds(deal))| == |multiset(ids)|;
    assert Ids(ps) == DealtIds(deal);
    DistinctByCount(ids);
    DistinctByCount(Ids(ps));
    forall x | x in Ids(ps) ensures multiset(Ids(ps))[x] == 1 {
      assert x in multiset(ids);
    }
    forall id ensures Has(ps, id) <==> id in ids {
      assert id in multiset(Ids(ps)) <==> id in multiset(ids);
      if id in Ids(ps) { var i :| 0 <= i < |ps| && Ids(ps)[i] == id; }
      if Has(ps, id) { assert Ids(ps)[IndexOf(ps, id)] == id; }
    }
    RoleCount(ids, deal, Mafia, IsMafia);
    RoleCount(ids, deal, Doctor, IsDoctor);
    RoleCount(ids, deal, Police, IsPolice);
    RoleCount(ids, deal, Citizen, IsCitizen);
  }

  lemma RoleCount(ids: seq<UserId>, deal: seq<Assignment>, role: Role, test: Player -> bool)
    requires IsDeal(ids, deal) && forall p :: test(p) <==> p.role == role
    ensures Count(DealtPlayers(deal), test) == if role.Citizen? then |ids| - 3 else 1
  {
    CountIsCountOf(deal, role, test);
    CountOfMultiset(DealtRoles(deal), role);
    PoolCounts(|ids|, role);
  }

  lemma {:induction false} AllAlive(ps: seq<Player>)
    requires forall p <- ps :: p.status.Alive?
    ensures Count(ps, IsAlive) == |ps|
    ensures Count(ps, IsAliveMafia) == Count(ps, IsMafia)
  {
    if ps != [] { AllAlive(ps[1..]); }
  }

  lemma NewSessionInv(ids: seq<UserId>, host: UserId, deal: seq<Assignment>, now: Millis, d: Durations)
    requires IsDeal(ids, deal) && Distinct(ids) && |ids| >= 4
    ensures SessionInv(NewSession(host, DealtPlayers(deal), now, d))
  {
    var ps := DealtPlayers(deal);
    DealtRoster(ids, deal);
    AllAlive(ps);
    CountSplit(ps);
  }
}
