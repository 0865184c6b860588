/** The remote game record as one snapshot delivers it: the players of the
    room, each with an optional role, and the phase tag `status`. */
module Session {
  import opened Common

  /** A role card's data: its name, its team tag, its cost and its text. */
  datatype Role = Role(name: string, team: string, cost: int, description: string)

  /** One entry of the room's `players` object, keyed by `id`. */
  datatype Player = Player(
    id: string,
    name: string,
    icon: string,
    isHost: bool,
    ready: bool,
    points: int,
    role: Option<Role>)

  /** One delivery of `games/<id>`: `players` lists the entries of the
      players object in their enumeration order. */
  datatype Snapshot = Snapshot(gameId: string, status: string, players: seq<Player>)

  /** `players[uid]`: the entry whose key is `uid`, if any. */
  function FindPlayer(players: seq<Player>, uid: string): (r: Option<Player>)
    ensures r.Some? ==> r.value in players && r.value.id == uid
    ensures r.None? <==> forall i :: 0 <= i < |players| ==> players[i].id != uid
  {
    if players == [] then None
    else if players[0].id == uid then Some(players[0])
    else FindPlayer(players[1..], uid)
  }

  /** The current user is a member of the room. */
  predicate IsMember(s: Snapshot, uid: string) {
    exists i :: 0 <= i < |s.players| && s.players[i].id == uid
  }
}
