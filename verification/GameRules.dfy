// The phase state machine and the session rules: each function rebuilds a session record.
module GameRules {
  import opened Common
  import opened Domain
  import opened Players

  // ---- GameStateMachine ----

  function NextPhase(phase: Phase): Option<Phase> {
    match phase
    case Waiting => Some(Night)
    case Night => Some(DayDiscussion)
    case DayDiscussion => Some(Voting)
    case Voting => Some(Phase.Result)
    case Result => Some(Night)
    case Finished => None
  }

  function Advance(s: Session): Result<Session, Error> {
    match NextPhase(s.phase)
    case None => Err(GameIsFinished)
    case Some(next) =>
      Ok(s.(phase := next,
            turn := if s.phase.Night? then s.turn + 1 else s.turn,
            version := s.version + 1,
            phaseEndsAt := None))
  }

  function Finish(s: Session): Result<Session, Error> {
    if s.phase.Finished? then Err(GameIsFinished)
    else Ok(s.(phase := Finished, version := s.version + 1, phaseEndsAt := None))
  }

  // ---- Votes and night actions ----

  datatype VoteCast = VoteCast(session: Session, duplicate: bool)

  function CastVote(s: Session, actor: UserId, target: UserId, requestId: RequestId): Result<VoteCast, Error> {
    if !s.phase.Voting? then Err(NotVotingPhase)
    else if requestId in s.processedRequests then
      if !Has(s.players, actor) then Err(ActorNotFound)
      else if !Has(s.players, target) then Err(TargetNotFound)
      else Ok(VoteCast(s, true))
    else if !Has(s.players, actor) then Err(ActorNotFound)
    else if !Get(s.players, actor).status.Alive? then Err(ActorNotAlive)
    else if !Has(s.players, target) then Err(TargetNotFound)
    else if !Get(s.players, target).status.Alive? then Err(TargetNotAlive)
    else if actor in s.votes then Err(VoteAlreadyCast)
    else Ok(VoteCast(
      s.(votes := s.votes[actor := target],
         processedRequests := s.processedRequests[requestId := target],
         version := s.version + 1),
      false))
  }

  function RoleOf(slot: Slot): Role {
    match slot
    case MafiaTarget => Mafia
    case DoctorTarget => Doctor
    case PoliceTarget => Police
  }

  function SelectNightAction(s: Session, actor: UserId, target: UserId, slot: Slot): Result<Session, Error> {
    if !s.phase.Night? then Err(NotNightPhase)
    else if !Has(s.players, actor) then Err(ActorNotFound)
    else if !Get(s.players, actor).status.Alive? then Err(ActorNotAlive)
    else if Get(s.players, actor).role != RoleOf(slot) then Err(RoleNotAllowed)
    else if !Has(s.players, target) then Err(TargetNotFound)
    else if !Get(s.players, target).status.Alive? then Err(TargetNotAlive)
    else if slot in s.nightActions then Err(NightActionAlreadySelected)
    else if target == actor && !slot.DoctorTarget? then Err(TargetIsSelf)
    else Ok(s.(nightActions := s.nightActions[slot := target], version := s.version + 1))
  }

  // ---- Resolution ----

  function SlotTarget(s: Session, slot: Slot): Option<UserId> {
    if slot in s.nightActions then Some(s.nightActions[slot]) else None
  }

  // The attacked player, unless the doctor protects that very player.
  function NightVictim(s: Session): (victim: Option<UserId>)
    ensures forall id :: victim == Some(id) <==>
      && MafiaTarget in s.nightActions && s.nightActions[MafiaTarget] == id
      && !(DoctorTarget in s.nightActions && s.nightActions[DoctorTarget] == id)
  {
    var attacked := SlotTarget(s, MafiaTarget);
    if attacked.Some? && attacked != SlotTarget(s, DoctorTarget) then attacked else None
  }

  datatype Resolution = Resolution(session: Session, died: Option<UserId>, winner: Option<Team>)

  function ResolveNight(s: Session): Result<Resolution, Error> {
    match NightVictim(s)
    case None =>
      Ok(Resolution(s.(nightActions := map[], version := s.version + 1), None, EvaluateWinner(s.players)))
    case Some(id) =>
      if !Has(s.players, id) then Err(TargetNotFound)
      else if !Get(s.players, id).status.Alive? then Err(TargetNotAlive)
      else
        var players := MarkDead(s.players, id);
        Ok(Resolution(s.(players := players, nightActions := map[], version := s.version + 1),
                      Some(id), EvaluateWinner(players)))
  }

  // How many of the given voters name the target.
  function VotesAmong(votes: map<UserId, UserId>, voters: set<UserId>, target: UserId): nat {
    |set v | v in voters && v in votes && votes[v] == target|
  }

  function VotesFor(votes: map<UserId, UserId>, target: UserId): nat {
    VotesAmong(votes, votes.Keys, target)
  }

  // The target somebody votes for and that strictly beats every other one.
  ghost predicate Leads(votes: map<UserId, UserId>, target: UserId) {
    && VotesFor(votes, target) >= 1
    && forall other | other != target :: VotesFor(votes, other) < VotesFor(votes, target)
  }

  ghost function PluralityWinner(votes: map<UserId, UserId>): (r: Option<UserId>)
    ensures r.Some? ==> Leads(votes, r.value)
    ensures r.None? ==> forall t :: !Leads(votes, t)
  {
    if exists t :: Leads(votes, t) then var t :| Leads(votes, t); Some(t) else None
  }

  // Unlike the night, voting resolution never looks at the chosen player's status.
  ghost function ResolveVoting(s: Session): Result<Resolution, Error> {
    match PluralityWinner(s.votes)
    case None =>
      Ok(Resolution(s.(votes := map[], version := s.version + 1), None, EvaluateWinner(s.players)))
    case Some(id) =>
      if !Has(s.players, id) then Err(TargetNotFound)
      else
        var players := MarkDead(s.players, id);
        Ok(Resolution(s.(players := players, votes := map[], version := s.version + 1),
                      Some(id), EvaluateWinner(players)))
  }

  // ---- The composite phase step: advance, then resolve, then maybe finish ----

  datatype PhaseReport = PhaseReport(
    fromPhase: Phase, toPhase: Phase, turn: nat, phaseEndsAt: Option<Millis>,
    attacked: Option<UserId>, protected: Option<UserId>, died: Option<UserId>, winner: Option<Team>)

  // The stored session survives an error between the steps, so the pair keeps both.
  datatype PhaseStepResult = PhaseStepResult(session: Session, report: Result<PhaseReport, Error>)

  function Deadline(d: Durations, phase: Phase, now: Millis): Option<Millis> {
    match d.Of(phase)
    case None => None
    case Some(ms) => Some(now + ms)
  }

  ghost function PhaseStep(s: Session, now: Millis, d: Durations): PhaseStepResult {
    match Advance(s)
    case Err(e) => PhaseStepResult(s, Err(e))
    case Ok(advanced) =>
      var s1 := advanced.(phaseEndsAt := Deadline(d, advanced.phase, now));
      var report := PhaseReport(s.phase, s1.phase, s1.turn, s1.phaseEndsAt, None, None, None, None);
      if s.phase.Night? then
        Settle(s1, ResolveNight(s1),
               report.(attacked := SlotTarget(s1, MafiaTarget), protected := SlotTarget(s1, DoctorTarget)))
      else if s.phase.Voting? then Settle(s1, ResolveVoting(s1), report)
      else PhaseStepResult(s1, Ok(report))
  }

  // Resolution touches neither phase, turn nor deadline, so a win can always be declared.
  lemma ResolutionKeepsPhase(s: Session)
    ensures ResolveNight(s).Ok? ==> ResolveNight(s).value.session.phase == s.phase
    ensures ResolveVoting(s).Ok? ==> ResolveVoting(s).value.session.phase == s.phase
  {
    hide PluralityWinner, NightVictim, EvaluateWinner, MarkDead;
  }

  ghost function Settle(s: Session, resolution: Result<Resolution, Error>, report: PhaseReport): PhaseStepResult {
    match resolution
    case Err(e) => PhaseStepResult(s, Err(e))
    case Ok(r) =>
      var report := report.(died := r.died, winner := r.winner);
      if r.winner.None? then PhaseStepResult(r.session, Ok(report))
      else match Finish(r.session)
        case Err(e) => PhaseStepResult(r.session, Err(e))
        case Ok(finished) => PhaseStepResult(finished, Ok(report))
  }

  // ---- Connections ----

  function SetConnection(s: Session, id: UserId, c: Connection): Result<Session, Error> {
    var i := IndexOf(s.players, id);
    if i < 0 then Err(ActorNotFound)
    else Ok(s.(players := s.players[i := s.players[i].(connection := c)], version := s.version + 1))
  }
}
