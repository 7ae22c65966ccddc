/**
 * Abstract WebSocket connections: each one has the address it was opened for, a ready state
 * and the sequence of messages sent on it so far. Broadcasting is stated per socket.
 */
module Sockets {
  import opened Messages

  type SocketId = nat

  /** The four `readyState` values of a WebSocket. */
  datatype ReadyState = Connecting | Open | Closing | Closed

  /** A connection: the address it was created for, its ready state and everything sent on it. */
  datatype Socket = Socket(address: string, state: ReadyState, outbox: seq<Msg>)

  /**
   * One `socket.send` guarded by `socket.readyState === WebSocket.OPEN`: an open socket gets
   * exactly the message `m` appended at the end of what it already had; any other socket gets
   * nothing. Address and state do not change.
   */
  function Send(s: Socket, m: Msg): (r: Socket)
    ensures r.address == s.address && r.state == s.state
    ensures |r.outbox| == |s.outbox| + (if s.state == Open then 1 else 0)
    ensures r.outbox[..|s.outbox|] == s.outbox
    ensures s.state == Open ==> r.outbox[|s.outbox|] == m
  {
    if s.state == Open then s.(outbox := s.outbox + [m]) else s
  }

  /** The sockets after the guarded send of `m` to every socket in `targets`, once each. */
  function Deliver(socks: map<SocketId, Socket>, targets: set<SocketId>, m: Msg): (r: map<SocketId, Socket>)
    ensures r.Keys == socks.Keys
    ensures forall id :: id in r ==> r[id].address == socks[id].address && r[id].state == socks[id].state
  {
    map id | id in socks :: if id in targets then Send(socks[id], m) else socks[id]
  }

  /**
   * The effect of a broadcast on one socket: an open target gets `m` appended once; a
   * target that is not open and every socket outside `targets` is left exactly as it was.
   */
  lemma DeliverPerSocket(socks: map<SocketId, Socket>, targets: set<SocketId>, m: Msg, id: SocketId)
    requires id in socks
    ensures Deliver(socks, targets, m).Keys == socks.Keys
    ensures Deliver(socks, targets, m)[id] ==
      if id in targets && socks[id].state == Open
      then socks[id].(outbox := socks[id].outbox + [m])
      else socks[id]
  {
  }

  /** Sending to one more socket extends a partial broadcast by one guarded send. */
  lemma DeliverStep(socks: map<SocketId, Socket>, done: set<SocketId>, id: SocketId, m: Msg)
    requires id in socks && id !in done
    ensures Deliver(socks, done + {id}, m) == Deliver(socks, done, m)[id := Send(Deliver(socks, done, m)[id], m)]
  {
    var lhs := Deliver(socks, done + {id}, m);
    var rhs := Deliver(socks, done, m)[id := Send(Deliver(socks, done, m)[id], m)];
    assert lhs.Keys == rhs.Keys;
    forall k | k in lhs ensures lhs[k] == rhs[k] {
    }
  }

  /** The sockets that are not closed and belong to address `a`. */
  ghost function LiveIn(socks: map<SocketId, Socket>, a: string): set<SocketId>
  {
    set id | id in socks && socks[id].address == a && socks[id].state != Closed
  }

  /**
   * Live connections plus pending reconnect timers for address `a`. Every event handler keeps
   * it unchanged and only `createConnection` called directly raises it, so an address that is
   * connected once at startup never has two live sockets or two pending timers at once.
   */
  ghost function Population(socks: map<SocketId, Socket>, pending: multiset<string>, a: string): nat
  {
    |LiveIn(socks, a)| + pending[a]
  }

  /** Replacing one socket changes only that socket's membership of the live sets. */
  lemma LiveAfterUpdate(socks: map<SocketId, Socket>, id: SocketId, s: Socket, a: string)
    ensures LiveIn(socks[id := s], a) ==
      (LiveIn(socks, a) - {id}) + (if s.address == a && s.state != Closed then {id} else {})
  {
  }

  /** Replacing one socket moves the live count of an address by its old and new membership. */
  lemma LiveCountAfterUpdate(socks: map<SocketId, Socket>, id: SocketId, s: Socket, a: string)
    ensures |LiveIn(socks[id := s], a)| ==
      |LiveIn(socks, a)| - (if id in LiveIn(socks, a) then 1 else 0)
      + (if s.address == a && s.state != Closed then 1 else 0)
  {
    LiveAfterUpdate(socks, id, s, a);
    var rest := LiveIn(socks, a) - {id};
    assert |rest| == |LiveIn(socks, a)| - (if id in LiveIn(socks, a) then 1 else 0);
    assert id !in rest;
  }

  /** A new connection adds one to the population of its own address and to no other. */
  lemma PopulationAfterCreate(socks: map<SocketId, Socket>, pending: multiset<string>, id: SocketId, address: string, a: string)
    requires id !in socks
    ensures Population(socks[id := Socket(address, Connecting, [])], pending, a) ==
      Population(socks, pending, a) + (if a == address then 1 else 0)
  {
    LiveCountAfterUpdate(socks, id, Socket(address, Connecting, []), a);
  }

  /**
   * Changing a socket that is not closed into another one for the same address that is not
   * closed (opening, registering, sending, starting to close) leaves every population alone.
   */
  lemma PopulationAfterLiveChange(socks: map<SocketId, Socket>, pending: multiset<string>, id: SocketId, s: Socket, a: string)
    requires id in socks && socks[id].state != Closed
    requires s.address == socks[id].address && s.state != Closed
    ensures Population(socks[id := s], pending, a) == Population(socks, pending, a)
  {
    LiveCountAfterUpdate(socks, id, s, a);
  }

  /** A close takes one live socket away from its address and schedules one reconnect for it. */
  lemma PopulationAfterClose(socks: map<SocketId, Socket>, pending: multiset<string>, id: SocketId, a: string)
    requires id in socks && socks[id].state != Closed
    ensures Population(socks[id := socks[id].(state := Closed)], pending + multiset{socks[id].address}, a) ==
      Population(socks, pending, a)
  {
    LiveCountAfterUpdate(socks, id, socks[id].(state := Closed), a);
  }

  /** A firing reconnect consumes one timer for its address and adds one new connection for it. */
  lemma PopulationAfterReconnect(socks: map<SocketId, Socket>, pending: multiset<string>, id: SocketId, address: string, a: string)
    requires id !in socks && address in pending
    ensures Population(socks[id := Socket(address, Connecting, [])], pending - multiset{address}, a) ==
      Population(socks, pending, a)
  {
    LiveCountAfterUpdate(socks, id, Socket(address, Connecting, []), a);
  }

  /** A broadcast changes no socket's address or state, so no population changes. */
  lemma PopulationAfterDeliver(socks: map<SocketId, Socket>, pending: multiset<string>, targets: set<SocketId>, m: Msg, a: string)
    ensures Population(Deliver(socks, targets, m), pending, a) == Population(socks, pending, a)
  {
    assert LiveIn(Deliver(socks, targets, m), a) == LiveIn(socks, a);
  }

  /** A set with two different members has at least two elements. */
  lemma TwoMembers(s: set<SocketId>, x: SocketId, y: SocketId)
    requires x in s && y in s && x != y
    ensures |s| >= 2
  {
    assert s == {x, y} + (s - {x, y});
  }

  /** While the population of an address is one, it has at most one pending timer and at most one live socket. */
  lemma SinglePopulation(socks: map<SocketId, Socket>, pending: multiset<string>, a: string)
    requires Population(socks, pending, a) == 1
    ensures pending[a] <= 1
    ensures forall x, y :: x in LiveIn(socks, a) && y in LiveIn(socks, a) ==> x == y
  {
    var live := LiveIn(socks, a);
    forall x, y | x in live && y in live ensures x == y {
      if x != y {
        TwoMembers(live, x, y);
        assert false;
      }
    }
  }

  /**
   * The connection table is well formed: each entry names a known socket that was opened for
   * that very address and that is open or closing (the close event removes it).
   */
  ghost predicate TableWellFormed(table: map<string, SocketId>, socks: map<SocketId, Socket>)
  {
    forall a :: a in table ==>
      table[a] in socks && socks[table[a]].address == a
      && (socks[table[a]].state == Open || socks[table[a]].state == Closing)
  }

  /**
   * No socket is listed under two addresses, so a broadcast over the table's values, as the
   * hub's handlers do it, sends once per table entry. No other proof uses this; it justifies
   * reading `table.Values` as `sockets.values()`.
   */
  lemma TableInjective(table: map<string, SocketId>, socks: map<SocketId, Socket>, a: string, b: string)
    requires TableWellFormed(table, socks)
    requires a in table && b in table && table[a] == table[b]
    ensures a == b
  {
  }
}
