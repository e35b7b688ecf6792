// The roster of players and the messages sent to their sockets.
module Roster {
  import opened Wrappers
  import Level

  /** A connected client's socket, identified opaquely. */
  type SocketId = nat

  /** Data a client sends with `throwBanana`, forwarded verbatim. */
  type Payload = string

  /** A player record: `{username, socket, playerIdx, ready}`. */
  datatype Player = Player(username: string, socket: SocketId, playerIdx: nat, ready: bool)

  /** The events the game sends to clients. */
  datatype Event =
    | MatchStarted(playerIdx: nat, usernames: seq<string>, returnURL: string)
    | RoundStarted(startingPlayer: nat, buildings: seq<Level.Building>, gorillaBuildings: seq<int>)
    | BananaThrown(payload: Payload)
    | MatchEnded(winner: nat)
    | Error(msg: string)

  /** One `socket.emit(event, data)` call, addressed to a socket. */
  datatype Emit = Emit(to: SocketId, event: Event)

  const NotYourTurn := "It is not your turn."
  const ReturnURL := "/"

  /** Each player's index is its position in the roster, and usernames are unique. */
  predicate RosterValid(ps: seq<Player>)
  {
    (forall i :: 0 <= i < |ps| ==> ps[i].playerIdx == i) &&
    (forall i, j :: 0 <= i < j < |ps| ==> ps[i].username != ps[j].username)
  }

  /** The position of the first player called `username`, if any. */
  function Lookup(ps: seq<Player>, username: string): (r: Option<nat>)
    ensures r.Some? ==> r.value < |ps| && ps[r.value].username == username
    ensures r.Some? ==> forall j :: 0 <= j < r.value ==> ps[j].username != username
    ensures r.None? ==> forall j :: 0 <= j < |ps| ==> ps[j].username != username
  {
    if ps == [] then None
    else if ps[0].username == username then Some(0)
    else match Lookup(ps[1..], username)
      case None => None
      case Some(i) => Some(i + 1)
  }

  /** In a valid roster, looking up a player's username finds exactly that player. */
  lemma LookupFindsPlayer(ps: seq<Player>, i: nat)
    requires RosterValid(ps) && i < |ps|
    ensures Lookup(ps, ps[i].username) == Some(i)
    ensures ps[Lookup(ps, ps[i].username).value].playerIdx == i
  {
  }

  /** Marking a player ready keeps every index and username. */
  lemma SetReadyKeepsRoster(ps: seq<Player>, k: nat)
    requires RosterValid(ps) && k < |ps|
    ensures RosterValid(ps[k := ps[k].(ready := true)])
  {
  }

  /** Number of players whose `ready` flag is set. */
  function ReadyCount(ps: seq<Player>): (n: nat)
    ensures n <= |ps|
  {
    if ps == [] then 0 else ReadyCount(ps[..|ps| - 1]) + (if ps[|ps| - 1].ready then 1 else 0)
  }

  /** Setting one player's flag raises the count by one if that player was not ready yet. */
  lemma {:induction false} ReadyCountSet(ps: seq<Player>, k: nat)
    requires k < |ps|
    ensures ReadyCount(ps[k := ps[k].(ready := true)]) == ReadyCount(ps) + (if ps[k].ready then 0 else 1)
  {
    var qs := ps[k := ps[k].(ready := true)];
    var n := |ps| - 1;
    if k < n {
      assert qs[..n] == ps[..n][k := ps[k].(ready := true)];
      ReadyCountSet(ps[..n], k);
    } else {
      assert qs[..n] == ps[..n];
    }
  }

  /** Every player is ready exactly when the count equals the roster size. */
  lemma {:induction false} AllReady(ps: seq<Player>)
    ensures ReadyCount(ps) == |ps| <==> forall i :: 0 <= i < |ps| ==> ps[i].ready
  {
    if ps != [] {
      var n := |ps| - 1;
      AllReady(ps[..n]);
      assert forall i :: 0 <= i < n ==> ps[..n][i] == ps[i];
    }
  }

  /** `emitAll(event, data)`: one emit per player, in roster order. */
  function Broadcast(ps: seq<Player>, e: Event): (r: seq<Emit>)
  {
    seq(|ps|, i requires 0 <= i < |ps| => Emit(ps[i].socket, e))
  }

  /** The `matchStarted` messages of `start()`: each player learns its own index and the first
    * two usernames. */
  function StartMessages(ps: seq<Player>): seq<Emit>
    requires |ps| >= 2
  {
    seq(|ps|, i requires 0 <= i < |ps| =>
      Emit(ps[i].socket, MatchStarted(ps[i].playerIdx, [ps[0].username, ps[1].username], ReturnURL)))
  }
}
