// The match controller: one `Gorillas` object per game instance.
module Match {
  import opened Wrappers
  import opened Roster
  import Level
  import Turns
  import Oracle

  /** A value of the game's configuration. */
  datatype ConfigValue = Count(n: nat) | Verb(name: string)

  /** The configuration the lobby reads: a two-player game launched through the `play` route. */
  const Config: map<string, ConfigValue> :=
    map["minPlayers" := Count(2), "maxPlayers" := Count(2), "launchVerb" := Verb("play")]

  /** `Gorillas.getConfig(name)`: the configured value, or nothing (`undefined`) for a name the
    * configuration object does not define. */
  function GetConfig(name: string): (r: Option<ConfigValue>)
    ensures name == "minPlayers" || name == "maxPlayers" ==> r == Some(Count(2))
    ensures name == "launchVerb" ==> r == Some(Verb("play"))
    ensures r.None? <==> name != "minPlayers" && name != "maxPlayers" && name != "launchVerb"
  {
    if name in Config then Some(Config[name]) else None
  }

  /** The configuration admits exactly two players. */
  lemma ConfigIsTwoPlayer()
    ensures GetConfig("minPlayers") == GetConfig("maxPlayers") == Some(Count(2))
    ensures GetConfig("launchVerb") == Some(Verb("play"))
  {
  }

  class Gorillas {
    /** Joined players, in join order. */
    var players: seq<Player>
    /** Which player throws first this round. */
    var startingPlayer: nat
    /** Turns taken this round; `None` until the first turn of a round. */
    var turnNumber: Option<nat>
    /** Round wins per player. */
    const wins: array<nat>
    const maxRounds: nat := 3
    /** The current round's skyline; empty before the first round. */
    var buildings: seq<Level.Building>
    /** The building index of each player's gorilla; empty before the first round. */
    var gorillaBuildings: seq<int>
    const mapWidth: int := 80
    /** Every `socket.emit` so far, in order. */
    var log: seq<Emit>

    ghost predicate Valid()
      reads this
    {
      wins.Length == 2 && startingPlayer <= 1 && RosterValid(players) &&
      ((buildings == [] && gorillaBuildings == []) || Level.Layout(buildings, gorillaBuildings, mapWidth))
    }

    /** The fields a new round replaces. */
    ghost function RoundState(): (Option<nat>, nat, seq<Level.Building>, seq<int>)
      reads this
    {
      (turnNumber, startingPlayer, buildings, gorillaBuildings)
    }

    /** A round has just begun after the log `before`: a fresh layout, the first turn taken,
      * and `roundStarted` broadcast to every player. */
    ghost predicate NewRound(before: seq<Emit>)
      reads this
    {
      turnNumber == Some(2) && Level.Layout(buildings, gorillaBuildings, mapWidth) &&
      log == before + Broadcast(players, RoundStarted(startingPlayer, buildings, gorillaBuildings))
    }

    constructor ()
      ensures Valid() && fresh(wins)
      ensures players == [] && startingPlayer == 0 && turnNumber == None
      ensures wins[..] == [0, 0] && buildings == [] && gorillaBuildings == [] && log == []
    {
      players := [];
      startingPlayer := 0;
      turnNumber := None;
      wins := new nat[2](_ => 0);
      buildings := [];
      gorillaBuildings := [];
      log := [];
    }

    /** `getPlayerByUsername`: a scan for the first player with that username. */
    method GetPlayerByUsername(username: string) returns (r: Option<nat>)
      ensures r == Lookup(players, username)
    {
      var i := 0;
      while i < |players|
        invariant 0 <= i <= |players|
        invariant forall j :: 0 <= j < i ==> players[j].username != username
      {
        if players[i].username == username {
          return Some(i);
        }
        i := i + 1;
      }
      return None;
    }

    /** The roster step of `connection`: an unseen username joins with the next index;
      * a known one changes nothing. */
    method Connection(socket: SocketId, username: string)
      requires Valid()
      modifies this
      ensures Valid()
      ensures old(Lookup(players, username)).None? ==>
                players == old(players) + [Player(username, socket, |old(players)|, false)]
      ensures old(Lookup(players, username)).Some? ==> players == old(players)
      ensures Lookup(players, username).Some?
      ensures log == old(log) && RoundState() == old(RoundState())
    {
      var found := GetPlayerByUsername(username);
      if found == None {
        players := players + [Player(username, socket, |players|, false)];
        LookupFindsPlayer(players, |players| - 1);
      }
    }

    /** `emitAll`: send the event to every player's socket, in roster order. */
    method EmitAll(e: Event)
      modifies this`log
      ensures log == old(log) + Broadcast(players, e)
    {
      var i := 0;
      while i < |players|
        invariant 0 <= i <= |players|
        invariant log == old(log) + Broadcast(players, e)[..i]
      {
        assert Broadcast(players, e)[..i + 1] == Broadcast(players, e)[..i] + [Emit(players[i].socket, e)];
        log := log + [Emit(players[i].socket, e)];
        i := i + 1;
      }
    }

    /** `ready`: mark the caller ready; once exactly two players are ready, start the match. */
    method Ready(socket: SocketId, username: string)
      requires Valid()
      requires Lookup(players, username).Some?
      modifies this
      ensures Valid() && wins[..] == old(wins[..])
      ensures var k := Lookup(old(players), username).value;
              players == old(players)[k := old(players)[k].(ready := true)] &&
              ReadyCount(players) == ReadyCount(old(players)) + (if old(players)[k].ready then 0 else 1)
      ensures ReadyCount(players) == 2 ==> |players| >= 2 && NewRound(old(log) + StartMessages(players))
      ensures ReadyCount(players) != 2 ==> log == old(log) && RoundState() == old(RoundState())
      ensures |players| == 2 ==> (ReadyCount(players) == 2 <==> players[0].ready && players[1].ready)
    {
      var found := GetPlayerByUsername(username);
      var k := found.value;
      ReadyCountSet(players, k);
      SetReadyKeepsRoster(players, k);
      players := players[k := players[k].(ready := true)];
      assert Valid();

      var playersReady := CountReady();
      AllReady(players);
      if playersReady == 2 {
        Start();
      }
    }

    /** The counting loop of `ready`: how many players have their flag set. */
    method CountReady() returns (playersReady: nat)
      ensures playersReady == ReadyCount(players)
    {
      playersReady := 0;
      var i := 0;
      while i < |players|
        invariant 0 <= i <= |players|
        invariant playersReady == ReadyCount(players[..i])
      {
        assert players[..i + 1][..i] == players[..i];
        if players[i].ready {
          playersReady := playersReady + 1;
        }
        i := i + 1;
      }
      assert players[..|players|] == players;
    }

    /** `start`: tell each player its own index and both usernames, then begin a round. */
    method Start()
      requires Valid() && |players| >= 2
      modifies this
      ensures Valid() && players == old(players) && wins[..] == old(wins[..])
      ensures NewRound(old(log) + StartMessages(players))
      ensures CurrentPlayer() == startingPlayer
    {
      var i := 0;
      while i < |players|
        modifies this`log
        invariant 0 <= i <= |players|
        invariant log == old(log) + StartMessages(players)[..i]
      {
        var player := players[i];
        assert StartMessages(players)[..i + 1] == StartMessages(players)[..i] + [StartMessages(players)[i]];
        log := log + [Emit(player.socket, MatchStarted(player.playerIdx, [players[0].username, players[1].username], ReturnURL))];
        i := i + 1;
      }
      assert StartMessages(players)[..|players|] == StartMessages(players);
      NextRound();
    }

    /** `currentPlayer()`: whose turn it is to throw. */
    function CurrentPlayer(): (p: nat)
      reads this
      ensures p <= 1
    {
      Turns.Current(turnNumber, startingPlayer)
    }

    /** `otherPlayer()`: the opponent of the current player. */
    function OtherPlayer(): (p: nat)
      reads this
      ensures p <= 1 && p != CurrentPlayer()
    {
      Turns.Other(turnNumber, startingPlayer)
    }

    /** `enoughWins(playerIdx)`: more than half of `maxRounds`, compared as JavaScript numbers. */
    function EnoughWins(playerIdx: nat): (r: bool)
      requires playerIdx < wins.Length
      reads this, wins
      ensures r <==> 2 * wins[playerIdx] > maxRounds
    {
      wins[playerIdx] as real > maxRounds as real / 2.0
    }

    /** With three rounds configured, two wins end the match. */
    lemma BestOfThree(playerIdx: nat)
      requires playerIdx < wins.Length
      ensures EnoughWins(playerIdx) <==> wins[playerIdx] >= 2
    {
    }

    /** `nextTurn()`. */
    method NextTurn()
      modifies this`turnNumber
      ensures turnNumber == Turns.Advance(old(turnNumber))
    {
      if turnNumber == None {
        turnNumber := Some(1);
      }
      turnNumber := Some(turnNumber.value + 1);
    }

    /** `nextRound()`: a random starting player, a fresh layout broadcast to all, and the first
      * turn, which leaves the starting player to throw. */
    method NextRound()
      requires Valid()
      modifies this
      ensures Valid() && players == old(players) && wins[..] == old(wins[..])
      ensures NewRound(old(log))
      ensures CurrentPlayer() == startingPlayer
    {
      var first := Oracle.RandomIntBetween(0, 1);
      startingPlayer := first;
      turnNumber := None;
      buildings := Level.GenerateBuildings(mapWidth);
      gorillaBuildings := Level.GenerateGorillaBuildings(|buildings|);
      EmitAll(RoundStarted(startingPlayer, buildings, gorillaBuildings));
      NextTurn();
      Turns.FirstTurnKeepsStarter(startingPlayer);
    }

    /** In any round, both gorillas stand on real, different buildings. */
    lemma GorillasOnDistinctBuildings()
      requires Valid() && buildings != []
      ensures 0 <= gorillaBuildings[0] < |buildings| && 0 <= gorillaBuildings[1] < |buildings|
      ensures gorillaBuildings[0] != gorillaBuildings[1]
    {
      Level.PlacementValid(buildings, gorillaBuildings);
    }

    /** `throwBanana`: the current player's throw goes to the opponent only and passes the turn;
      * anyone else just gets an error. */
    method ThrowBanana(socket: SocketId, username: string, payload: Payload)
      requires Valid()
      requires Lookup(players, username).Some?
      // The source indexes `players[otherPlayer()]`, which must exist.
      requires OtherPlayer() < |players|
      modifies this
      ensures Valid() && players == old(players) && wins[..] == old(wins[..])
      ensures startingPlayer == old(startingPlayer)
      ensures buildings == old(buildings) && gorillaBuildings == old(gorillaBuildings)
      ensures var actor := players[Lookup(players, username).value];
              if actor.playerIdx != old(CurrentPlayer()) then
                log == old(log) + [Emit(socket, Error(NotYourTurn))] && turnNumber == old(turnNumber)
              else
                log == old(log) + [Emit(players[old(OtherPlayer())].socket, BananaThrown(payload))] &&
                turnNumber == Turns.Advance(old(turnNumber)) &&
                (old(turnNumber).Some? ==> CurrentPlayer() == old(OtherPlayer()))
    {
      var found := GetPlayerByUsername(username);
      var player := players[found.value];
      if player.playerIdx != CurrentPlayer() {
        log := log + [Emit(socket, Error(NotYourTurn))];
        return;
      }
      log := log + [Emit(players[OtherPlayer()].socket, BananaThrown(payload))];
      ghost var before := turnNumber;
      NextTurn();
      if before.Some? {
        Turns.AdvanceFlips(before, startingPlayer);
      }
    }

    /** `endRound`: only the player who just threw may end the round; that player scores a win,
      * and either the match ends or the next round begins. */
    method EndRound(socket: SocketId, username: string)
      requires Valid()
      requires Lookup(players, username).Some?
      modifies this, wins
      ensures Valid() && players == old(players)
      ensures forall i :: 0 <= i < wins.Length ==> old(wins[i]) <= wins[i]
      ensures var actor := players[Lookup(players, username).value];
              var o := old(OtherPlayer());
              if actor.playerIdx != o then
                log == old(log) + [Emit(socket, Error(NotYourTurn))] &&
                wins[..] == old(wins[..]) && RoundState() == old(RoundState())
              else
                wins[o] == old(wins[o]) + 1 && wins[1 - o] == old(wins[1 - o]) &&
                if EnoughWins(o) then
                  log == old(log) + Broadcast(players, MatchEnded(o)) && RoundState() == old(RoundState())
                else
                  NewRound(old(log))
    {
      var found := GetPlayerByUsername(username);
      var player := players[found.value];
      if player.playerIdx != OtherPlayer() {
        log := log + [Emit(socket, Error(NotYourTurn))];
        return;
      }
      wins[OtherPlayer()] := wins[OtherPlayer()] + 1;
      if EnoughWins(OtherPlayer()) {
        EmitAll(MatchEnded(OtherPlayer()));
      } else {
        NextRound();
      }
    }
  }

  /** Two players join and signal ready: each gets its own `matchStarted`, then both get the
    * same `roundStarted` carrying an 80-wide skyline. */
  method StartScenario() returns (g: Gorillas)
    ensures fresh(g) && fresh(g.wins) && g.Valid()
    ensures |g.players| == 2 && g.players[0].socket == 1 && g.players[1].socket == 2
    ensures g.turnNumber == Some(2)
    ensures |g.log| == 4
    ensures g.log[0] == Emit(1, MatchStarted(0, ["alice", "bob"], ReturnURL))
    ensures g.log[1] == Emit(2, MatchStarted(1, ["alice", "bob"], ReturnURL))
    ensures g.log[2] == Emit(1, RoundStarted(g.startingPlayer, g.buildings, g.gorillaBuildings))
    ensures g.log[3] == Emit(2, RoundStarted(g.startingPlayer, g.buildings, g.gorillaBuildings))
    ensures Level.Tiled(g.buildings, 80)
  {
    g := new Gorillas();
    var alice, bob := Player("alice", 1, 0, false), Player("bob", 2, 1, false);
    g.Connection(1, "alice");
    assert g.players == [alice];
    assert Lookup([alice], "bob") == None by { assert "alice" != "bob"; }
    g.Connection(2, "bob");
    assert g.players == [alice, bob];
    assert Lookup(g.players, "alice") == Some(0);
    g.Ready(1, "alice");
    assert g.players == [alice.(ready := true), bob];
    assert ReadyCount(g.players) == 1 by {
      assert g.players[..1] == [alice.(ready := true)];
    }
    assert Lookup(g.players, "bob") == Some(1) by { assert "alice" != "bob"; }
    g.Ready(2, "bob");
    assert g.players == [alice.(ready := true), bob.(ready := true)];
    assert ReadyCount(g.players) == 2 by {
      assert g.players[..1] == [alice.(ready := true)];
    }
  }

  /** In a fresh round the starting player's throw reaches only the opponent and passes the turn. */
  method ThrowScenario() returns (starter: nat, log: seq<Emit>)
    ensures starter <= 1 && |log| == 5
    ensures log[4] == Emit(2 - starter, BananaThrown("{angle:45,velocity:10}"))
  {
    var g := StartScenario();
    starter := g.startingPlayer;
    var player := g.players[starter];
    LookupFindsPlayer(g.players, starter);
    assert g.players[starter].playerIdx == starter == g.CurrentPlayer();
    g.ThrowBanana(player.socket, player.username, "{angle:45,velocity:10}");
    log := g.log;
  }

  /** In a fresh round a throw by the player who does not start is refused with an error sent
    * back to that player only. */
  method WrongTurnScenario() returns (starter: nat, log: seq<Emit>)
    ensures starter <= 1 && |log| == 5
    ensures log[4] == Emit(2 - starter, Error(NotYourTurn))
  {
    var g := StartScenario();
    starter := g.startingPlayer;
    var player := g.players[1 - starter];
    LookupFindsPlayer(g.players, 1 - starter);
    assert g.players[1 - starter].playerIdx == 1 - starter != g.CurrentPlayer();
    g.ThrowBanana(player.socket, player.username, "{angle:45,velocity:10}");
    log := g.log;
  }
}
