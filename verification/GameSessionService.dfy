// The session service: every operation loads the stored session and saves its successor.
module SessionService {
  import opened Common
  import opened Domain
  import opened Players
  import opened GameRules
  import opened RoomRules
  import opened GameSpec
  import opened Invariants
  import opened VoteTally

  // What one operation does to the stored sessions.
  ghost predicate Stores(before: map<GameId, Session>, after: map<GameId, Session>, gameId: GameId,
                         result: Result<Session, Error>) {
    if result.Ok? then after == before[gameId := result.value] else after == before
  }

  ghost function Stepped(s: Session, now: Millis, d: Durations): Result<Session, Error> {
    match Advance(s)
    case Err(e) => Err(e)
    case Ok(t) => Ok(t.(phaseEndsAt := Deadline(d, t.phase, now)))
  }

  ghost function Saved(r: Result<Resolution, Error>): Result<Session, Error> {
    match r
    case Err(e) => Err(e)
    case Ok(resolution) => Ok(resolution.session)
  }

  // What advancing and finishing report: the saved session, and both ends of the change.
  datatype Transition = Transition(session: Session, fromPhase: Phase, toPhase: Phase, fromTurn: nat, toTurn: nat)

  function Between(before: Session, after: Result<Session, Error>): Result<Transition, Error> {
    match after
    case Err(e) => Err(e)
    case Ok(t) => Ok(Transition(t, before.phase, t.phase, before.turn, t.turn))
  }

  class GameSessionService {
    var sessions: map<GameId, Session>
    const durations: Durations
    const localeOrder: (UserId, UserId) -> bool  // how equal vote counts are ordered

    constructor (d: Durations, order: (UserId, UserId) -> bool)
      ensures sessions == map[] && durations == d
    {
      sessions, durations, localeOrder := map[], d, order;
    }

    method StartGameSession(gameId: GameId, host: UserId, players: seq<Player>, now: Millis) returns (s: Session)
      modifies this
      ensures s == NewSession(host, players, now, durations)
      ensures sessions == old(sessions)[gameId := s]
    {
      s := Session(host, Night, 0, 1, players, map[], map[], Deadline(durations, Night, now), map[]);
      sessions := sessions[gameId := s];
    }

    method AdvancePhase(gameId: GameId, now: Millis) returns (r: Result<Transition, Error>)
      modifies this
      ensures r == if gameId in old(sessions)
                   then Between(old(sessions)[gameId], Stepped(old(sessions)[gameId], now, durations))
                   else Err(SessionNotFound)
      ensures r.Ok? ==> var s, v := old(sessions)[gameId], r.value;
        v == Transition(v.session, s.phase, NextPhase(s.phase).value, s.turn, if s.phase.Night? then s.turn + 1 else s.turn)
      ensures sessions == if r.Ok? then old(sessions)[gameId := r.value.session] else old(sessions)
    {
      if gameId !in sessions { return Err(SessionNotFound); }
      var s := sessions[gameId];
      var moved := Advance(s);
      if moved.Err? { return Err(moved.error); }
      var advanced := moved.value.(phaseEndsAt := Deadline(durations, moved.value.phase, now));
      sessions := sessions[gameId := advanced];
      r := Ok(Transition(advanced, s.phase, advanced.phase, s.turn, advanced.turn));
    }

    method FinishGame(gameId: GameId) returns (r: Result<Transition, Error>)
      modifies this
      ensures r == if gameId in old(sessions)
                   then Between(old(sessions)[gameId], Finish(old(sessions)[gameId]))
                   else Err(SessionNotFound)
      ensures r.Ok? ==> var s := old(sessions)[gameId];
        r.value == Transition(r.value.session, s.phase, Finished, s.turn, s.turn) && r.value.session.phase.Finished?
      ensures sessions == if r.Ok? then old(sessions)[gameId := r.value.session] else old(sessions)
    {
      if gameId !in sessions { return Err(SessionNotFound); }
      var s := sessions[gameId];
      var finished := Finish(s);
      if finished.Err? { return Err(finished.error); }
      sessions := sessions[gameId := finished.value];
      r := Ok(Transition(finished.value, s.phase, Finished, s.turn, s.turn));
    }

    method ResolveNightOutcome(gameId: GameId) returns (r: Result<Resolution, Error>)
      modifies this
      ensures r == if gameId in old(sessions) then ResolveNight(old(sessions)[gameId]) else Err(SessionNotFound)
      ensures Stores(old(sessions), sessions, gameId, Saved(r))
    {
      if gameId !in sessions { return Err(SessionNotFound); }
      r := ResolveNight(sessions[gameId]);
      if r.Ok? { sessions := sessions[gameId := r.value.session]; }
    }

    // Through the tally; the result does not depend on how ties are ordered.
    method ResolveVotingOutcome(gameId: GameId) returns (r: Result<Resolution, Error>, tally: seq<TallyEntry>)
      modifies this
      ensures r == if gameId in old(sessions) then ResolveVoting(old(sessions)[gameId]) else Err(SessionNotFound)
      ensures r.Ok? ==> IsTally(old(sessions)[gameId].votes, tally)
      ensures Stores(old(sessions), sessions, gameId, Saved(r))
    {
      tally := [];
      if gameId !in sessions { r := Err(SessionNotFound); return; }
      var s := sessions[gameId];
      tally := CalculateVoteTally(s.votes, localeOrder);
      SelectionIsPlurality(s.votes, tally);
      var executed := SelectVoteWinner(tally);
      if executed.None? {
        var cleared := s.(votes := map[], version := s.version + 1);
        sessions := sessions[gameId := cleared];
        r := Ok(Resolution(cleared, None, EvaluateWinner(cleared.players)));
      } else if !Has(s.players, executed.value) {
        r := Err(TargetNotFound);
      } else {
        var updated := s.(players := MarkDead(s.players, executed.value), votes := map[], version := s.version + 1);
        sessions := sessions[gameId := updated];
        r := Ok(Resolution(updated, executed, EvaluateWinner(updated.players)));
      }
    }

    method Cast(gameId: GameId, actor: UserId, target: UserId, requestId: RequestId) returns (r: Result<VoteCast, Error>)
      modifies this
      ensures r == if gameId in old(sessions) then CastVote(old(sessions)[gameId], actor, target, requestId)
                   else Err(SessionNotFound)
      ensures sessions == if r.Ok? && !r.value.duplicate then old(sessions)[gameId := r.value.session] else old(sessions)
    {
      if gameId !in sessions { return Err(SessionNotFound); }
      r := CastVote(sessions[gameId], actor, target, requestId);
      if r.Ok? && !r.value.duplicate { sessions := sessions[gameId := r.value.session]; }
    }

    method SelectTarget(gameId: GameId, actor: UserId, target: UserId, slot: Slot) returns (r: Result<Session, Error>)
      modifies this
      ensures r == if gameId in old(sessions) then SelectNightAction(old(sessions)[gameId], actor, target, slot)
                   else Err(SessionNotFound)
      ensures Stores(old(sessions), sessions, gameId, r)
    {
      if gameId !in sessions { return Err(SessionNotFound); }
      r := SelectNightAction(sessions[gameId], actor, target, slot);
      if r.Ok? { sessions := sessions[gameId := r.value]; }
    }

    // markPlayerConnected and markPlayerDisconnected
    method MarkPlayer(gameId: GameId, id: UserId, c: Connection) returns (r: Result<Session, Error>)
      modifies this
      ensures r == if gameId in old(sessions) then SetConnection(old(sessions)[gameId], id, c) else Err(SessionNotFound)
      ensures Stores(old(sessions), sessions, gameId, r)
    {
      if gameId !in sessions { return Err(SessionNotFound); }
      r := SetConnection(sessions[gameId], id, c);
      if r.Ok? { sessions := sessions[gameId := r.value]; }
    }
  }
}
