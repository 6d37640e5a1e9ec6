/** What the server sends over socket.io, as values appended to an output log.
    `socket.emit(e, p)` goes to the sender only, `socket.broadcast.to(room).emit(e, p)` to the
    other sockets in `room`, and `socket.join(room)` adds the socket to that room. */
module Wire {
  import opened Js
  import opened Players
  import opened Submit

  datatype Target = ToSelf | ToRoom(room: string)

  /** A 'spawn' descriptor: `{id, name, type, idLobby, serverID, position, isSit}`. */
  datatype Descriptor = Descriptor(
    id: string,
    name: JsVal,
    kind: JsVal,
    idLobby: string,
    serverID: JsVal,
    position: Option<Vec2>,
    isSit: JsVal)

  /** One entry of the breakout result: `{idServer, idPlayer}`. */
  datatype Assignment = Assignment(idServer: string, idPlayer: string)

  /** One entry of the 'moveRuangan' roster: `{idServer, idPlayer, position, isSit}`. */
  datatype Seat = Seat(idServer: JsVal, idPlayer: string, position: Option<Vec2>, isSit: JsVal)

  /** One entry of the 'playerList' reply: `{username, id}`. */
  datatype Listed = Listed(username: JsVal, id: string)

  /** The 'checkState' report. */
  datatype BoardState = BoardState(whiteboard: int, whiteboardID: JsVal, whiteboardData: JsVal, shapeData: JsVal, textData: JsVal)

  datatype Payload =
    | NoData
    | Message(text: string)
    | PlayerId(id: string)
    | Spawn(descriptor: Descriptor)
    | Groups(hasil: seq<Assignment>, pembagianDiskusi: int)
    | Move(idServer: JsVal, idPlayer: string)
    | Seats(seats: seq<Seat>)
    | Kelas(idKelas: string)
    | Raw(value: JsVal)
    | Wrapped(data: JsVal)
    | Board(state: BoardState)
    | PlayerState(player: Player)
    | PlayerList(players: seq<Listed>)
    | Kursi(isSit: JsVal, idChair: JsVal)
    | Soal(form: SoalForm)

  datatype Emission =
    | Join(socket: string, room: string)
    | Emit(socket: string, target: Target, event: string, payload: Payload)

  /** `socket.emit('errorPesan')`, which rejected requests get instead of a state change. */
  function ErrorPesan(socket: string): Emission {
    Emit(socket, ToSelf, "errorPesan", NoData)
  }
}
