// The vote tally and the choice of the executed player.
module VoteTally {
  import opened Common
  import opened Domain
  import opened GameRules

  datatype TallyEntry = TallyEntry(target: UserId, count: nat)

  function Total(tally: seq<TallyEntry>): nat {
    if tally == [] then 0 else tally[0].count + Total(tally[1..])
  }

  predicate DistinctTargets(tally: seq<TallyEntry>) {
    forall i, j | 0 <= i < j < |tally| :: tally[i].target != tally[j].target
  }

  predicate Descending(tally: seq<TallyEntry>) {
    forall i, j | 0 <= i < j < |tally| :: tally[i].count >= tally[j].count
  }

  // The index of the target's entry, or -1.
  function EntryOf(counts: seq<TallyEntry>, target: UserId): (i: int)
    ensures -1 <= i < |counts|
    ensures i >= 0 ==> counts[i].target == target
    ensures i < 0 ==> forall j | 0 <= j < |counts| :: counts[j].target != target
  {
    if counts == [] then -1
    else if counts[0].target == target then 0
    else var i := EntryOf(counts[1..], target); if i < 0 then -1 else i + 1
  }

  // One entry per target with a vote among those read, holding exactly its votes.
  ghost predicate CountsVotes(votes: map<UserId, UserId>, read: set<UserId>, counts: seq<TallyEntry>) {
    && DistinctTargets(counts)
    && (forall i | 0 <= i < |counts| :: counts[i].count == VotesAmong(votes, read, counts[i].target) >= 1)
    && (forall t :: VotesAmong(votes, read, t) >= 1 ==> EntryOf(counts, t) >= 0)
    && Total(counts) == |read|
  }

  // What a tally is, whatever order the votes were read in and however ties are broken.
  ghost predicate IsTally(votes: map<UserId, UserId>, tally: seq<TallyEntry>) {
    CountsVotes(votes, votes.Keys, tally) && Descending(tally)
  }

  function SelectVoteWinner(tally: seq<TallyEntry>): Option<UserId> {
    if tally == [] then None
    else if |tally| > 1 && tally[1].count == tally[0].count then None
    else Some(tally[0].target)
  }

  lemma LeaderIsFirst(votes: map<UserId, UserId>, tally: seq<TallyEntry>, t: UserId)
    requires IsTally(votes, tally) && Leads(votes, t)
    ensures SelectVoteWinner(tally) == Some(t)
  {
    var i := EntryOf(tally, t);
    assert forall j | 0 <= j < |tally| && j != i :: VotesFor(votes, tally[j].target) < VotesFor(votes, t);
    assert i == 0;
  }

  lemma SelectedLeads(votes: map<UserId, UserId>, tally: seq<TallyEntry>)
    requires IsTally(votes, tally) && SelectVoteWinner(tally).Some?
    ensures Leads(votes, SelectVoteWinner(tally).value)
  {
    var t := SelectVoteWinner(tally).value;
    forall other | other != t ensures VotesFor(votes, other) < VotesFor(votes, t) {
      var i := EntryOf(tally, other);
      assert i > 0 ==> tally[i].count <= tally[1].count;
    }
  }

  // Every tally of the same votes selects the same player: the strict leader, if there is one.
  lemma SelectionIsPlurality(votes: map<UserId, UserId>, tally: seq<TallyEntry>)
    requires IsTally(votes, tally)
    ensures SelectVoteWinner(tally) == PluralityWinner(votes)
    ensures forall t :: SelectVoteWinner(tally) == Some(t) <==> Leads(votes, t)
  {
    if SelectVoteWinner(tally).Some? { SelectedLeads(votes, tally); }
    forall t | Leads(votes, t) ensures SelectVoteWinner(tally) == Some(t) {
      LeaderIsFirst(votes, tally, t);
    }
  }

  lemma {:induction false} TotalUpdate(tally: seq<TallyEntry>, i: nat, e: TallyEntry)
    requires i < |tally|
    ensures Total(tally[i := e]) + tally[i].count == Total(tally) + e.count
  {
    if i == 0 {
      assert tally[i := e][1..] == tally[1..];
    } else {
      assert tally[i := e][1..] == tally[1..][i - 1 := e];
      TotalUpdate(tally[1..], i - 1, e);
    }
  }

  lemma {:induction false} TotalInsert(tally: seq<TallyEntry>, i: nat, e: TallyEntry)
    requires i <= |tally|
    ensures Total(tally[..i] + [e] + tally[i..]) == Total(tally) + e.count
  {
    if i == 0 {
      assert tally[..0] + [e] + tally[0..] == [e] + tally;
    } else {
      assert (tally[..i] + [e] + tally[i..])[1..] == tally[1..][..i - 1] + [e] + tally[1..][i - 1..];
      TotalInsert(tally[1..], i - 1, e);
    }
  }

  lemma ReadOne(votes: map<UserId, UserId>, read: set<UserId>, voter: UserId, t: UserId)
    requires voter in votes && voter !in read
    ensures VotesAmong(votes, read + {voter}, t)
         == VotesAmong(votes, read, t) + (if votes[voter] == t then 1 else 0)
  {
    var before := set v | v in read && v in votes && votes[v] == t;
    var after := set v | v in read + {voter} && v in votes && votes[v] == t;
    assert after == if votes[voter] == t then before + {voter} else before;
  }

  // One more vote for the target; a target not seen before goes last.
  function Increment(counts: seq<TallyEntry>, target: UserId): seq<TallyEntry> {
    var i := EntryOf(counts, target);
    if i < 0 then counts + [TallyEntry(target, 1)]
    else counts[i := TallyEntry(target, counts[i].count + 1)]
  }

  lemma IncrementCounts(votes: map<UserId, UserId>, read: set<UserId>, counts: seq<TallyEntry>, voter: UserId)
    requires CountsVotes(votes, read, counts) && voter in votes && voter !in read
    ensures CountsVotes(votes, read + {voter}, Increment(counts, votes[voter]))
  {
    hide VotesAmong, Total;
    var target := votes[voter];
    var i, after := EntryOf(counts, target), Increment(counts, target);
    forall t ensures VotesAmong(votes, read + {voter}, t)
                  == VotesAmong(votes, read, t) + (if target == t then 1 else 0) {
      ReadOne(votes, read, voter, t);
    }
    if i < 0 {
      assert after == counts[..|counts|] + [TallyEntry(target, 1)] + counts[|counts|..];
      TotalInsert(counts, |counts|, TallyEntry(target, 1));
    } else {
      TotalUpdate(counts, i, after[i]);
    }
    forall t | VotesAmong(votes, read + {voter}, t) >= 1 ensures EntryOf(after, t) >= 0 {
      var at := if t != target then EntryOf(counts, t) else if i < 0 then |counts| else i;
      assert after[at].target == t;
    }
  }

  // The insertion-ordered map of counts, one increment per vote, in whatever order the votes come.
  method CountVotes(votes: map<UserId, UserId>) returns (counts: seq<TallyEntry>)
    ensures CountsVotes(votes, votes.Keys, counts)
  {
    counts := [];
    var rest := votes.Keys;
    ghost var read: set<UserId> := {};
    while rest != {}
      invariant read !! rest && read + rest == votes.Keys
      invariant CountsVotes(votes, read, counts)
      decreases rest
    {
      var voter :| voter in rest;
      IncrementCounts(votes, read, counts, voter);
      counts := Increment(counts, votes[voter]);
      rest, read := rest - {voter}, read + {voter};
    }
    assert read == votes.Keys;
  }

  // The comparator: larger counts first, equal counts in any order of the ids.
  function ComesBefore(a: TallyEntry, b: TallyEntry, precedes: (UserId, UserId) -> bool): bool {
    if b.count != a.count then b.count < a.count else precedes(a.target, b.target)
  }

  ghost predicate Rearranged(a: seq<TallyEntry>, b: seq<TallyEntry>) {
    && DistinctTargets(a) && DistinctTargets(b)
    && (forall e :: e in a <==> e in b)
    && Total(a) == Total(b)
  }

  function InsertAt(s: seq<TallyEntry>, i: nat, e: TallyEntry): (r: seq<TallyEntry>)
    requires i <= |s|
    ensures |r| == |s| + 1
    ensures forall j | 0 <= j < |r| :: r[j] == if j < i then s[j] else if j == i then e else s[j - 1]
  {
    s[..i] + [e] + s[i..]
  }

  lemma InsertIsSorted(s: seq<TallyEntry>, i: nat, e: TallyEntry)
    requires i <= |s| && Descending(s)
    requires forall j | 0 <= j < i :: s[j].count >= e.count
    requires i < |s| ==> e.count >= s[i].count
    ensures Descending(InsertAt(s, i, e))
  {
  }

  lemma InsertIsRearranged(s: seq<TallyEntry>, done: seq<TallyEntry>, i: nat, e: TallyEntry)
    requires i <= |s| && Rearranged(s, done) && DistinctTargets(done + [e])
    ensures Rearranged(InsertAt(s, i, e), done + [e])
  {
    hide Total;
    forall j | 0 <= j < |s| ensures s[j].target != e.target {
      assert s[j] in done;
      var k :| 0 <= k < |done| && done[k] == s[j];
      assert (done + [e])[k].target != (done + [e])[|done|].target;
    }
    forall x ensures x in InsertAt(s, i, e) <==> x in done + [e] {
      assert x in s <==> x in done;
      if x in s {
        var k :| 0 <= k < |s| && s[k] == x;
        assert InsertAt(s, i, e)[if k < i then k else k + 1] == x;
      }
      assert InsertAt(s, i, e)[i] == e;
    }
    TotalInsert(s, i, e);
    assert done + [e] == done[..|done|] + [e] + done[|done|..];
    TotalInsert(done, |done|, e);
  }

  // The library sort, as an insertion sort under the comparator.
  method SortByCount(counts: seq<TallyEntry>, precedes: (UserId, UserId) -> bool) returns (sorted: seq<TallyEntry>)
    requires DistinctTargets(counts)
    ensures Rearranged(sorted, counts) && Descending(sorted)
  {
    sorted := [];
    for n := 0 to |counts|
      invariant Rearranged(sorted, counts[..n]) && Descending(sorted)
    {
      var e := counts[n];
      var i := 0;
      while i < |sorted| && ComesBefore(sorted[i], e, precedes)
        invariant 0 <= i <= |sorted|
        invariant forall j | 0 <= j < i :: sorted[j].count >= e.count
      {
        i := i + 1;
      }
      assert counts[..n + 1] == counts[..n] + [e];
      InsertIsSorted(sorted, i, e);
      InsertIsRearranged(sorted, counts[..n], i, e);
      sorted := InsertAt(sorted, i, e);
    }
    assert counts[..|counts|] == counts;
  }

  lemma RearrangedCounts(votes: map<UserId, UserId>, read: set<UserId>, a: seq<TallyEntry>, b: seq<TallyEntry>)
    requires CountsVotes(votes, read, b) && Rearranged(a, b)
    ensures CountsVotes(votes, read, a)
  {
    forall i | 0 <= i < |a| ensures a[i].count == VotesAmong(votes, read, a[i].target) >= 1 {
      assert a[i] in b;
    }
    forall t | VotesAmong(votes, read, t) >= 1 ensures EntryOf(a, t) >= 0 {
      assert b[EntryOf(b, t)] in a;
    }
  }

  method CalculateVoteTally(votes: map<UserId, UserId>, precedes: (UserId, UserId) -> bool)
    returns (tally: seq<TallyEntry>)
    ensures IsTally(votes, tally)
  {
    var counts := CountVotes(votes);
    tally := SortByCount(counts, precedes);
    RearrangedCounts(votes, votes.Keys, tally, counts);
  }
}
