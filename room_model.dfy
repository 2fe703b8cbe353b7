/**
 * The stored shape of a quiz room and of its players, with the defaults the
 * schema gives a freshly created record.
 */
module RoomModel {

  /** The phase a room is in; the schema admits exactly these four values. */
  datatype Status = Lobby | Question | Reveal | Over

  /** One joined player, identified within its room by its connection handle. */
  datatype Player = Player(socketId: string, name: string, score: nat, answered: bool)

  /**
   * A room record. The code is the key it is stored under, the host is the
   * connection that created it, and the players are kept in join order.
   */
  datatype Room = Room(
    code: string,
    hostId: string,
    status: Status,
    questionIndex: int,
    acceptingAnswers: bool,
    players: seq<Player>)

  /** A player record with the schema defaults: no points, not answered. */
  function NewPlayer(socketId: string, name: string): (p: Player) {
    Player(socketId, name, 0, false)
  }

  /** A room record with the schema defaults: in the lobby, before the first question, closed, empty. */
  function NewRoom(code: string, hostId: string): (r: Room) {
    Room(code, hostId, Lobby, -1, false, [])
  }

  /** At most one entry per connection handle. */
  predicate UniqueSockets(ps: seq<Player>) {
    forall i, j | 0 <= i < j < |ps| :: ps[i].socketId != ps[j].socketId
  }
}
