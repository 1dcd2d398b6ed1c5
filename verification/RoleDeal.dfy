// The in-place shuffle and the deal of roles, for every sequence of random indices.
module RoleDeal {
  import opened Common
  import opened Domain
  import opened RoomRules

  // One index is drawn for each place from the last down to the second, at or below it.
  predicate Draws(n: nat, draws: seq<nat>) {
    && |draws| == (if n == 0 then 0 else n - 1)
    && forall k | 0 <= k < |draws| :: draws[k] <= n - 1 - k
  }

  function Swapped<T>(s: seq<T>, i: nat, j: nat): (t: seq<T>)
    requires i < |s| && j < |s|
    ensures |t| == |s|
  {
    s[i := s[j]][j := s[i]]
  }

  // What the shuffle makes of these draws: the drawn element goes last, the rest likewise.
  function Shuffled<T>(s: seq<T>, draws: seq<nat>): (t: seq<T>)
    requires Draws(|s|, draws)
    ensures |t| == |s|
    decreases |s|
  {
    if |s| <= 1 then s
    else
      var i := |s| - 1;
      var t := Swapped(s, i, draws[0]);
      Shuffled(t[..i], draws[1..]) + [t[i]]
  }

  lemma SwapKeepsElements<T>(s: seq<T>, i: nat, j: nat)
    requires i < |s| && j < |s|
    ensures multiset(Swapped(s, i, j)) == multiset(s)
  {
  }

  lemma FrontElements<T>(s: seq<T>)
    requires s != []
    ensures multiset(s) == multiset(ButLast(s)) + multiset{Last(s)}
  {
    assert s == ButLast(s) + [Last(s)];
  }

  // No element is lost or repeated.
  lemma {:induction false} ShuffledPermutes<T>(s: seq<T>, draws: seq<nat>)
    requires Draws(|s|, draws)
    ensures multiset(Shuffled(s, draws)) == multiset(s)
    decreases |s|
  {
    hide Swapped;
    if |s| > 1 {
      var i := |s| - 1;
      var t := Swapped(s, i, draws[0]);
      SwapKeepsElements(s, i, draws[0]);
      ShuffledPermutes(t[..i], draws[1..]);
      FrontElements(t);
      FrontElements(Shuffled(s, draws));
      assert ButLast(Shuffled(s, draws)) == Shuffled(t[..i], draws[1..]);
    }
  }

  predicate Reorders<T(==)>(order: seq<T>, s: seq<T>) {
    |order| == |s| && multiset(order) == multiset(s)
  }

  lemma ReordersAll<T>(order: seq<T>, s: seq<T>)
    requires multiset(order) == multiset(s)
    ensures Reorders(order, s)
    ensures |s| <= 1 ==> order == s
  {
    assert |multiset(order)| == |order| && |multiset(s)| == |s|;
    if |s| == 1 { assert order[0] in multiset(s); }
  }

  // Which draw puts the order's last element last.
  lemma LastOf<T>(s: seq<T>, order: seq<T>) returns (j: nat)
    requires s != [] && Reorders(order, s)
    ensures j < |s| && Last(Swapped(s, |s| - 1, j)) == Last(order)
    ensures multiset(ButLast(order)) == multiset(ButLast(Swapped(s, |s| - 1, j)))
  {
    var i := |s| - 1;
    assert order[i] in multiset(s);
    j :| 0 <= j < |s| && s[j] == order[i];
    hide Swapped;
    LastSwapped(s, j);
    SwapKeepsElements(s, i, j);
    FrontElements(Swapped(s, i, j));
    FrontElements(order);
    SameBut(multiset(ButLast(order)), multiset(ButLast(Swapped(s, i, j))), order[i]);
  }

  lemma SameBut<T>(a: multiset<T>, b: multiset<T>, x: T)
    requires a + multiset{x} == b + multiset{x}
    ensures a == b
  {
    assert a == (a + multiset{x}) - multiset{x};
    assert b == (b + multiset{x}) - multiset{x};
  }

  lemma LastSwapped<T>(s: seq<T>, j: nat)
    requires j < |s|
    ensures Swapped(s, |s| - 1, j)[|s| - 1] == s[j]
  {
  }

  // Every order of the elements comes from some draws.
  lemma {:induction false} EveryOrder<T>(s: seq<T>, order: seq<T>) returns (draws: seq<nat>)
    requires multiset(order) == multiset(s)
    ensures Draws(|s|, draws) && Shuffled(s, draws) == order
    decreases |s|
  {
    hide Swapped, Reorders;
    ReordersAll(order, s);
    draws := [];
    if |s| > 1 {
      var j := LastOf(s, order);
      var t := Swapped(s, |s| - 1, j);
      var rest := EveryOrder(ButLast(t), ButLast(order));
      draws := [j] + rest;
      assert draws[1..] == rest;
      assert |order| == |s| && order == ButLast(order) + [Last(order)];
    }
  }

  lemma SwapKeepsDistinct<T>(s: seq<T>, i: nat, j: nat)
    requires i < |s| && j < |s| && Distinct(s)
    ensures Distinct(Swapped(s, i, j))
  {
  }

  // And from only one sequence of draws, when no element repeats: with the indices drawn
  // uniformly, every order is equally likely.
  lemma {:induction false} OneDrawPerOrder<T>(s: seq<T>, a: seq<nat>, b: seq<nat>)
    requires Distinct(s) && Draws(|s|, a) && Draws(|s|, b)
    requires Shuffled(s, a) == Shuffled(s, b)
    ensures a == b
    decreases |s|
  {
    if |s| > 1 {
      var i := |s| - 1;
      assert s[a[0]] == Last(Shuffled(s, a)) == Last(Shuffled(s, b)) == s[b[0]];
      assert a[0] == b[0];
      var t := Swapped(s, i, a[0]);
      SwapKeepsDistinct(s, i, a[0]);
      assert ButLast(Shuffled(s, a)) == Shuffled(t[..i], a[1..]);
      assert ButLast(Shuffled(s, b)) == Shuffled(t[..i], b[1..]);
      OneDrawPerOrder(t[..i], a[1..], b[1..]);
      assert a == [a[0]] + a[1..] && b == [b[0]] + b[1..];
    }
  }

  // The places above index are settled; the draws left settle the others.
  function ShuffledFrom<T>(s: seq<T>, index: nat, draws: seq<nat>): (t: seq<T>)
    requires index < |s| && Draws(|s|, draws)
  {
    Shuffled(s[..index + 1], draws[|s| - 1 - index..]) + s[index + 1..]
  }

  lemma ShuffledEnds<T>(s: seq<T>, draws: seq<nat>)
    requires s != [] && Draws(|s|, draws)
    ensures ShuffledFrom(s, |s| - 1, draws) == Shuffled(s, draws)
    ensures ShuffledFrom(s, 0, draws) == s
  {
    assert s[..|s|] == s && s[..1] + s[1..] == s && draws[0..] == draws;
  }

  lemma SwappedIs<T>(was: seq<T>, now: seq<T>, i: nat, j: nat)
    requires i < |was| && j < |was| == |now|
    requires now[i] == was[j] && now[j] == was[i] && forall k | 0 <= k < |was| && k != i && k != j :: now[k] == was[k]
    ensures now == Swapped(was, i, j)
  {
  }

  lemma SwapStep<T>(was: seq<T>, index: nat, draws: seq<nat>)
    requires 0 < index < |was| && Draws(|was|, draws)
    ensures draws[|was| - 1 - index] <= index
    ensures ShuffledFrom(Swapped(was, index, draws[|was| - 1 - index]), index - 1, draws) == ShuffledFrom(was, index, draws)
  {
    var left := draws[|was| - 1 - index..];
    var now := Swapped(was, index, left[0]);
    assert left[1..] == draws[|was| - index..];
    assert Swapped(was[..index + 1], index, left[0]) == now[..index + 1];
    assert now[..index + 1][..index] == now[..index];
    assert now[index..] == [now[index]] + was[index + 1..];
  }

  // From the last place down, each is swapped with a drawn one at or below it.
  method Shuffle<T>(items: seq<T>, draws: seq<nat>) returns (values: seq<T>)
    requires Draws(|items|, draws)
    ensures values == Shuffled(items, draws)
  {
    if |items| == 0 { return []; }
    hide Shuffled, ShuffledFrom, Swapped;
    var cells := new T[|items|](i requires 0 <= i < |items| => items[i]);
    assert cells[..] == items;
    var index := cells.Length - 1;
    ShuffledEnds(items, draws);
    while index > 0
      invariant 0 <= index < cells.Length
      invariant ShuffledFrom(cells[..], index, draws) == Shuffled(items, draws)
    {
      ghost var was := cells[..];
      SwapStep(was, index, draws);
      var swapIndex := draws[cells.Length - 1 - index];
      cells[index], cells[swapIndex] := cells[swapIndex], cells[index];
      SwappedIs(was, cells[..], index, swapIndex);
      index := index - 1;
    }
    values := cells[..];
    ShuffledEnds(values, draws);
  }

  // ---- The deal ----

  // Participants and the role pool are shuffled separately and paired by position.
  function DealFrom(ids: seq<UserId>, seatDraws: seq<nat>, roleDraws: seq<nat>): (deal: seq<Assignment>)
    requires Draws(|ids|, seatDraws) && Draws(|RolePool(|ids|)|, roleDraws)
    ensures |deal| == |ids|
  {
    seq(|ids|, i requires 0 <= i < |ids| =>
      Assignment(Shuffled(ids, seatDraws)[i], Shuffled(RolePool(|ids|), roleDraws)[i]))
  }

  lemma TakenFromPool(roles: seq<Role>, pool: seq<Role>, n: nat)
    requires multiset(roles) == multiset(pool) && n <= |roles|
    ensures multiset(roles[..n]) <= multiset(pool)
    ensures n == |pool| ==> multiset(roles[..n]) == multiset(pool)
  {
    assert |multiset(roles)| == |multiset(pool)|;
    assert roles == roles[..n] + roles[n..];
    assert n == |pool| ==> roles[..n] == roles;
  }

  lemma DealtFromPool(ids: seq<UserId>, seatDraws: seq<nat>, roleDraws: seq<nat>)
    requires Draws(|ids|, seatDraws) && Draws(|RolePool(|ids|)|, roleDraws)
    ensures var deal := DealFrom(ids, seatDraws, roleDraws);
      && multiset(DealtIds(deal)) == multiset(ids)
      && multiset(DealtRoles(deal)) <= multiset(RolePool(|ids|))
      && (|ids| >= 3 ==> IsDeal(ids, deal))
  {
    hide Shuffled, RolePool, Draws;
    var deal, roles := DealFrom(ids, seatDraws, roleDraws), Shuffled(RolePool(|ids|), roleDraws);
    ShuffledPermutes(ids, seatDraws);
    ShuffledPermutes(RolePool(|ids|), roleDraws);
    assert DealtIds(deal) == Shuffled(ids, seatDraws) && DealtRoles(deal) == roles[..|ids|];
    TakenFromPool(roles, RolePool(|ids|), |ids|);
  }

  lemma EveryDeal(ids: seq<UserId>, deal: seq<Assignment>) returns (seatDraws: seq<nat>, roleDraws: seq<nat>)
    requires IsDeal(ids, deal)
    ensures Draws(|ids|, seatDraws) && Draws(|RolePool(|ids|)|, roleDraws)
    ensures DealFrom(ids, seatDraws, roleDraws) == deal
  {
    seatDraws := EveryOrder(ids, DealtIds(deal));
    roleDraws := EveryOrder(RolePool(|ids|), DealtRoles(deal));
    assert |multiset(DealtIds(deal))| == |deal| && |multiset(ids)| == |ids|;
    assert DealFrom(ids, seatDraws, roleDraws) == deal;
  }

  // The deals of three or more participants are exactly those that give each of them one of
  // the pool's roles and hand out the whole pool.
  lemma DealtIff(ids: seq<UserId>, deal: seq<Assignment>)
    requires |ids| >= 3
    ensures IsDeal(ids, deal) <==>
      exists a, b | Draws(|ids|, a) && Draws(|RolePool(|ids|)|, b) :: DealFrom(ids, a, b) == deal
  {
    hide IsDeal, Shuffled, RolePool;
    if IsDeal(ids, deal) {
      var a, b := EveryDeal(ids, deal);
      assert DealFrom(ids, a, b) == deal;
    }
    if a, b :| Draws(|ids|, a) && Draws(|RolePool(|ids|)|, b) && DealFrom(ids, a, b) == deal {
      DealtFromPool(ids, a, b);
    }
  }

  method DrawIndices(n: nat) returns (draws: seq<nat>)
    ensures Draws(n, draws)
  {
    draws := [];
    var index: int := n - 1;
    while index > 0
      invariant -1 <= index < n || index + 1 == n == 0
      invariant n > 0 ==> index >= 0
      invariant |draws| == (if n == 0 then 0 else n - 1 - index)
      invariant forall k | 0 <= k < |draws| :: draws[k] <= n - 1 - k
    {
      var swapIndex: nat :| swapIndex <= index;
      draws := draws + [swapIndex];
      index := index - 1;
    }
  }

  // Everybody gets a role from the pool; three or more participants share out the whole pool.
  method BuildRoleAssignments(room: Room, seatDraws: seq<nat>, roleDraws: seq<nat>) returns (deal: seq<Assignment>)
    requires Draws(|room.participants|, seatDraws) && Draws(|RolePool(|room.participants|)|, roleDraws)
    ensures deal == DealFrom(ParticipantIds(room.participants), seatDraws, roleDraws)
    ensures multiset(DealtIds(deal)) == multiset(ParticipantIds(room.participants))
    ensures multiset(DealtRoles(deal)) <= multiset(RolePool(|room.participants|))
    ensures |room.participants| >= 3 ==> IsDeal(ParticipantIds(room.participants), deal)
  {
    var seated := Shuffle(ParticipantIds(room.participants), seatDraws);
    var roles := Shuffle(RolePool(|room.participants|), roleDraws);
    deal := seq(|seated|, i requires 0 <= i < |seated| => Assignment(seated[i], roles[i]));
    DealtFromPool(ParticipantIds(room.participants), seatDraws, roleDraws);
  }
}
