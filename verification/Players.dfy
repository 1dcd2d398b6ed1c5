// Rosters: lookup, counting, and what one death does to the counts.
module Players {
  import opened Common
  import opened Domain

  function Ids(ps: seq<Player>): (ids: seq<UserId>)
    ensures |ids| == |ps| && forall i | 0 <= i < |ps| :: ids[i] == ps[i].userId
  {
    seq(|ps|, i requires 0 <= i < |ps| => ps[i].userId)
  }

  // Where the first player with the user id sits, or -1.
  function IndexOf(ps: seq<Player>, id: UserId): (i: int)
    ensures -1 <= i < |ps|
    ensures i >= 0 ==> ps[i].userId == id && forall j | 0 <= j < i :: ps[j].userId != id
    ensures i < 0 ==> forall j | 0 <= j < |ps| :: ps[j].userId != id
  {
    if ps == [] then -1
    else if ps[0].userId == id then 0
    else var i := IndexOf(ps[1..], id); if i < 0 then -1 else i + 1
  }

  predicate Has(ps: seq<Player>, id: UserId) {
    IndexOf(ps, id) >= 0
  }

  function Get(ps: seq<Player>, id: UserId): Player
    requires Has(ps, id)
  {
    ps[IndexOf(ps, id)]
  }

  predicate Living(ps: seq<Player>, id: UserId) {
    Has(ps, id) && Get(ps, id).status.Alive?
  }

  function MarkDead(ps: seq<Player>, id: UserId): (r: seq<Player>)
    ensures |r| == |ps|
  {
    seq(|ps|, i requires 0 <= i < |ps| => if ps[i].userId == id then ps[i].(status := Dead) else ps[i])
  }

  function Count(ps: seq<Player>, test: Player -> bool): nat {
    if ps == [] then 0 else (if test(ps[0]) then 1 else 0) + Count(ps[1..], test)
  }

  const IsAlive := (p: Player) => p.status.Alive?
  const IsMafia := (p: Player) => p.role.Mafia?
  const IsDoctor := (p: Player) => p.role.Doctor?
  const IsPolice := (p: Player) => p.role.Police?
  const IsCitizen := (p: Player) => p.role.Citizen?
  const IsAliveMafia := (p: Player) => p.status.Alive? && p.role.Mafia?
  const IsAliveOther := (p: Player) => p.status.Alive? && !p.role.Mafia?

  function EvaluateWinner(ps: seq<Player>): Option<Team> {
    var mafia := Count(ps, IsAliveMafia);
    if mafia == 0 then Some(CitizenTeam)
    else if mafia >= Count(ps, IsAliveOther) then Some(MafiaTeam)
    else None
  }

  lemma {:induction false} CountUpdate(ps: seq<Player>, i: nat, p: Player, test: Player -> bool)
    requires i < |ps|
    ensures Count(ps[i := p], test) + (if test(ps[i]) then 1 else 0)
         == Count(ps, test) + (if test(p) then 1 else 0)
  {
    if i == 0 {
      assert ps[i := p][1..] == ps[1..];
    } else {
      assert ps[i := p][1..] == ps[1..][i - 1 := p];
      CountUpdate(ps[1..], i - 1, p, test);
    }
  }

  lemma {:induction false} CountSplit(ps: seq<Player>)
    ensures Count(ps, IsAlive) == Count(ps, IsAliveMafia) + Count(ps, IsAliveOther)
    ensures Count(ps, IsAliveMafia) <= Count(ps, IsMafia)
    ensures Count(ps, IsAlive) <= |ps|
  {
    if ps != [] { CountSplit(ps[1..]); }
  }

  lemma {:induction false} CountWitness(ps: seq<Player>, i: nat, test: Player -> bool)
    requires i < |ps| && test(ps[i])
    ensures Count(ps, test) >= 1
  {
    if i > 0 { CountWitness(ps[1..], i - 1, test); }
  }

  predicate SameRoles(ps: seq<Player>, qs: seq<Player>) {
    |ps| == |qs| && forall i | 0 <= i < |ps| :: ps[i].userId == qs[i].userId && ps[i].role == qs[i].role
  }

  lemma {:induction false} SameRolesCounts(ps: seq<Player>, qs: seq<Player>)
    requires SameRoles(ps, qs)
    ensures Ids(ps) == Ids(qs)
    ensures Count(ps, IsMafia) == Count(qs, IsMafia)
    ensures Count(ps, IsDoctor) == Count(qs, IsDoctor)
    ensures Count(ps, IsPolice) == Count(qs, IsPolice)
  {
    if ps != [] { SameRolesCounts(ps[1..], qs[1..]); }
  }

  lemma {:induction false} SameStatusCounts(ps: seq<Player>, qs: seq<Player>)
    requires SameRoles(ps, qs) && forall i | 0 <= i < |ps| :: ps[i].status == qs[i].status
    ensures Count(ps, IsAlive) == Count(qs, IsAlive)
    ensures Count(ps, IsAliveMafia) == Count(qs, IsAliveMafia)
    ensures Count(ps, IsAliveOther) == Count(qs, IsAliveOther)
    ensures EvaluateWinner(ps) == EvaluateWinner(qs)
  {
    if ps != [] { SameStatusCounts(ps[1..], qs[1..]); }
  }

  lemma LookupSame(ps: seq<Player>, qs: seq<Player>, id: UserId)
    requires SameRoles(ps, qs)
    ensures IndexOf(ps, id) == IndexOf(qs, id)
  {
  }

  // In a roster without duplicates, the mapped death is a single-cell update: the living
  // count drops by exactly one, on the victim's side, and everybody else is untouched.
  lemma DeathOfOne(ps: seq<Player>, id: UserId)
    requires Distinct(Ids(ps)) && Living(ps, id)
    ensures var qs := MarkDead(ps, id);
      && SameRoles(ps, qs)
      && qs == ps[IndexOf(ps, id) := Get(ps, id).(status := Dead)]
      && Count(qs, IsAlive) == Count(ps, IsAlive) - 1
      && Count(qs, IsAliveMafia) == Count(ps, IsAliveMafia) - (if Get(ps, id).role.Mafia? then 1 else 0)
      && Count(qs, IsAliveOther) == Count(ps, IsAliveOther) - (if Get(ps, id).role.Mafia? then 0 else 1)
      && (forall other :: Living(qs, other) <==> Living(ps, other) && other != id)
  {
    var i, qs := IndexOf(ps, id), MarkDead(ps, id);
    var dead := ps[i].(status := Dead);
    forall j | 0 <= j < |ps| && j != i ensures ps[j].userId != id {
      assert Ids(ps)[i] == ps[i].userId && Ids(ps)[j] == ps[j].userId;
    }
    assert qs == ps[i := dead];
    CountUpdate(ps, i, dead, IsAlive);
    CountUpdate(ps, i, dead, IsAliveMafia);
    CountUpdate(ps, i, dead, IsAliveOther);
    forall other ensures Living(qs, other) <==> Living(ps, other) && other != id {
      LookupSame(ps, qs, other);
    }
  }

  lemma {:induction false} CountIsZeroIff(ps: seq<Player>, test: Player -> bool)
    ensures Count(ps, test) == 0 <==> forall p <- ps :: !test(p)
  {
    if ps != [] {
      CountIsZeroIff(ps[1..], test);
      assert ps == [ps[0]] + ps[1..];
    }
  }

  // With a single mafia in the roster: the citizens win exactly when no living player is
  // mafia, and the mafia exactly when it is one of the last two alive, or the last.
  lemma WinnerMeans(ps: seq<Player>)
    requires Count(ps, IsMafia) == 1
    ensures EvaluateWinner(ps) == Some(CitizenTeam) <==> forall p <- ps :: p.status.Alive? ==> !p.role.Mafia?
    ensures EvaluateWinner(ps) == Some(MafiaTeam) <==>
      (exists p <- ps :: p.status.Alive? && p.role.Mafia?) && Count(ps, IsAlive) <= 2
  {
    CountSplit(ps);
    CountIsZeroIff(ps, IsAliveMafia);
  }
}
