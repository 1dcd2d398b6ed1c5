// The sorted set of phase deadlines, and the gateway's loop over a command's effects.
module PhaseTimers {
  import opened Common
  import opened Domain

  // A member of the sorted set; its score is its deadline.
  datatype TimerEntry = TimerEntry(gameId: GameId, at: Millis)

  function OfGame(members: set<TimerEntry>, gameId: GameId): set<TimerEntry> {
    set e | e in members && e.gameId == gameId
  }

  function Cleared(members: set<TimerEntry>, gameId: GameId): set<TimerEntry> {
    members - OfGame(members, gameId)
  }

  function Scheduled(members: set<TimerEntry>, e: TimerEntry): set<TimerEntry> {
    Cleared(members, e.gameId) + {e}
  }

  function DueAt(members: set<TimerEntry>, now: Millis): set<TimerEntry> {
    set e | e in members && e.at <= now
  }

  class PhaseTimerService {
    var members: set<TimerEntry>

    constructor ()
      ensures members == {}
    {
      members := {};
    }

    // ZRANGE everything, then remove the game's own members.
    method ClearGame(gameId: GameId)
      modifies this
      ensures members == Cleared(old(members), gameId)
    {
      var stale := {};
      var rest := members;
      while rest != {}
        invariant rest <= members == old(members)
        invariant stale == OfGame(members - rest, gameId)
        decreases rest
      {
        var e :| e in rest;
        if e.gameId == gameId { stale := stale + {e}; }
        rest := rest - {e};
      }
      assert members - {} == members;
      members := members - stale;
    }

    method Schedule(e: TimerEntry)
      modifies this
      ensures members == Scheduled(old(members), e)
    {
      ClearGame(e.gameId);
      members := members + {e};
    }

    method Complete(e: TimerEntry)
      modifies this
      ensures members == old(members) - {e}
    {
      members := members - {e};
    }

    // ZRANGEBYSCORE -inf now LIMIT 0 limit: the earliest due entries, earliest first.
    method ListDue(now: Millis, limit: nat) returns (entries: seq<TimerEntry>)
      ensures Distinct(entries) && forall e <- entries :: e in members && e.at <= now
      ensures forall i, j | 0 <= i < j < |entries| :: entries[i].at <= entries[j].at
      ensures |entries| < limit ==> forall e <- members :: e.at <= now ==> e in entries
      ensures forall e <- members, x <- entries :: e !in entries ==> x.at <= e.at
      ensures |entries| <= limit
    {
      entries := [];
      var rest := DueAt(members, now);
      while rest != {} && |entries| < limit
        invariant |entries| <= limit && Distinct(entries)
        invariant forall e :: e in rest <==> e in DueAt(members, now) && e !in entries
        invariant forall e <- entries :: e in DueAt(members, now)
        invariant forall i, j | 0 <= i < j < |entries| :: entries[i].at <= entries[j].at
        invariant forall e <- rest, x <- entries :: x.at <= e.at
        decreases rest
      {
        var first := Earliest(rest);
        entries := entries + [first];
        rest := rest - {first};
      }
    }

    static method Earliest(es: set<TimerEntry>) returns (first: TimerEntry)
      requires es != {}
      ensures first in es && forall e <- es :: first.at <= e.at
    {
      first :| first in es;
      var rest := es - {first};
      while rest != {}
        invariant rest <= es && first in es
        invariant forall e <- es - rest :: first.at <= e.at
        decreases rest
      {
        var e :| e in rest;
        if e.at < first.at { first := e; }
        rest := rest - {e};
      }
    }
  }

  // ---- Effects ----

  // game:started and phase:changed carry the new deadline, if any.
  function TimerAfter(members: set<TimerEntry>, gameId: GameId, e: Effect): set<TimerEntry> {
    if !e.Broadcast? || !(e.message.GameStartedMessage? || e.message.PhaseChangedMessage?) then members
    else if e.message.phaseEndsAt.None? then Cleared(members, gameId)
    else Scheduled(members, TimerEntry(gameId, e.message.phaseEndsAt.value))
  }

  function TimersAfter(members: set<TimerEntry>, gameId: GameId, es: seq<Effect>): set<TimerEntry>
    decreases |es|
  {
    if es == [] then members else TimersAfter(TimerAfter(members, gameId, es[0]), gameId, es[1..])
  }
}
