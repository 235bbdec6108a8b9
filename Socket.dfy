/** `utils/socket.js`: the process-wide socket, created on the first call to
    `getSocket` and handed out unchanged afterwards. */
module Socket {

  /** The client `io(BASE_URL, options)` returns. Its reconnection policy and
      wire protocol belong to the socket library; the model keeps the options
      it is created with. */
  class Connection {
    const autoConnect: bool
    const withCredentials: bool
    const transports: seq<string>

    constructor ()
      ensures autoConnect && withCredentials && transports == ["websocket"]
    {
      autoConnect, withCredentials, transports := true, true, ["websocket"];
    }
  }

  /** The module scope of `socket.js`: the variable `socket` (null while
      unset) and, as a ghost counter, how many connections it has created. */
  class SocketModule {
    var socket: Connection?
    ghost var created: nat

    /** A connection has been created exactly when `socket` is set, and at
        most once. */
    ghost predicate Valid()
      reads this
    {
      created == (if socket == null then 0 else 1)
    }

    /** Module load: `let socket;`. */
    constructor ()
      ensures Valid() && socket == null
    {
      socket := null;
      created := 0;
    }

    /** `getSocket()`: creates the connection only while `socket` is unset,
        never returns an unset value, and once set keeps returning the same
        object without reassigning the variable. */
    method GetSocket() returns (s: Connection)
      requires Valid()
      modifies this
      ensures Valid() && socket == s
      ensures old(socket) != null ==> s == old(socket) && created == old(created)
      ensures old(socket) == null ==> fresh(s) && created == old(created) + 1
      ensures created <= 1
    {
      if socket == null {
        socket := new Connection();
        created := created + 1;
      }
      s := socket;
    }
  }

  /** Whatever happened before, two calls in a row hand out the identical
      connection, and no call creates a second one. */
  method TwoCalls(m: SocketModule) returns (a: Connection, b: Connection)
    requires m.Valid()
    modifies m
    ensures a == b && m.socket == a && m.created == 1
    ensures old(m.socket) != null ==> a == old(m.socket)
  {
    a := m.GetSocket();
    b := m.GetSocket();
  }
}
