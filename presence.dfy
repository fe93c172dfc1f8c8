/** The presence registry: the server-wide `users` object, which maps the
    identity a client announced in `register` to the id of the socket it
    announced it on. */
module Presence {

  import opened Wrappers

  /** An identity chosen by the client; it is never checked here. */
  type UserId = string

  /** A Socket.IO socket id. Socket.IO never hands out an empty id, so an
      entry of the registry is always truthy in JavaScript and "the lookup is
      truthy" is the same as "the identity is registered". */
  type SocketId = s: string | s != "" witness "socket"

  type Registry = map<UserId, SocketId>

  /** `users[id]`: the socket of `id`, or nothing when `id` is not registered. */
  function Lookup(users: Registry, id: UserId): Option<SocketId>
  {
    if id in users then Some(users[id]) else None
  }

  /** The registry after the socket `socket` has closed: every identity bound
      to that socket is gone, and every other entry is kept as it was. */
  function Unbind(users: Registry, socket: SocketId): (r: Registry)
    ensures socket !in r.Values
    ensures forall id :: id in r ==> id in users && r[id] == users[id]
    ensures forall id :: id in users && users[id] != socket ==> id in r
  {
    map id | id in users && users[id] != socket :: users[id]
  }

  /** When `id` registered again on a newer socket before its older socket
      closed, the registry holds only the newer binding. Closing the older
      socket then keeps `id` reachable on the newer one; closing the newer
      socket unbinds `id` altogether, even though the older socket is still
      open, because the older binding was overwritten. */
  lemma ReconnectSurvivesStaleClose(users: Registry, id: UserId, stale: SocketId, current: SocketId)
    requires stale != current
    ensures Lookup(Unbind(users[id := stale][id := current], stale), id) == Some(current)
    ensures Lookup(Unbind(users[id := stale][id := current], current), id) == None
  {
  }

}
