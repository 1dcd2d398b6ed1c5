// What the lock buys: many instances handling a room's inputs at once play a game of
// GameSpec, so everything proved of played games holds of what they leave in the stores.
module AtomicCommands {
  import opened Common
  import opened Domain
  import opened Players
  import opened GameRules
  import opened GameSpec
  import opened Invariants
  import opened EventSourcing
  import opened GameRuns
  import opened LockedSections

  // From a new room on, and whenever no section is in progress: the stored room, session and
  // log are those of the run in acquire order; the log rebuilds the session; and the game is
  // finished exactly when somebody has won.
  lemma InterleavingIsPlayed(cs: seq<Cluster>, acts: seq<Action>, n: nat, host: UserId, maxPlayers: nat, d: Durations)
    requires maxPlayers >= 2 && TimelyRun(cs, acts, NewGame(host, maxPlayers), d) && n <= |acts|
    requires Quiescent(cs[n]) && CanPlay(host, maxPlayers, cs[n].order, d)
    ensures cs[n].game == Played(host, maxPlayers, cs[n].order, d)
    ensures GameInv(cs[n].game, d)
    ensures Replay(cs[n].game.log, d)
         == if cs[n].game.session.None? then None else Some(Forget(cs[n].game.session.value))
    ensures cs[n].game.session.Some? ==>
      var s := cs[n].game.session.value;
      && s.version == cs[n].saves
      && (s.phase.Finished? <==> EvaluateWinner(s.players).Some?)
  {
    hide Exec, Run;
    NoLostUpdates(cs, acts, NewGame(host, maxPlayers), d, n);
    PlayedInv(host, maxPlayers, cs[n].order, d);
    LogRebuildsSession(host, maxPlayers, cs[n].order, d);
    if cs[n].game.session.Some? { WinnerOf(cs[n].game.session.value); }
  }

  // While a section is in progress, finishing it alone gives that same played game, and the
  // answer of its input's step.
  lemma SectionCompletesRun(cs: seq<Cluster>, acts: seq<Action>, n: nat, i: Instance, host: UserId, maxPlayers: nat, d: Durations)
    requires maxPlayers >= 2 && TimelyRun(cs, acts, NewGame(host, maxPlayers), d) && n <= |acts|
    requires InsideAt(cs[n], i)
    ensures var p := cs[n].instances[i];
      && cs[n].order != []
      && Complete(p.todo, p.memory, cs[n].game)
           == Exec(Played(host, maxPlayers, ButLast(cs[n].order), d), Last(cs[n].order), d)
  {
    hide Exec;
    RunsAreSerial(cs, acts, NewGame(host, maxPlayers), d, n);
    assert cs[n].instances[i].Inside?;
  }
}
