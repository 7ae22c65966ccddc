/**
 * The broadcast hub: the module-level state of the plugin (current lyrics, current time, the
 * connection table) together with the connections it has created and its pending reconnect
 * timers, and the handlers that act on them.
 */
module Broadcast {
  import opened Wrappers
  import opened Messages
  import opened LyricsService
  import opened Tracks
  import opened Sockets

  class Hub {
    /** `currentLyrics`: the lyrics of the current track, or `null`. */
    var currentLyrics: Option<seq<LyricLine>>
    /** `currentTime`: the last playback position seen, or `null`. */
    var currentTime: Option<int>
    /** `sockets`: the connection table from address to the socket registered for it. */
    var table: map<string, SocketId>
    /** Every connection created so far, by id. */
    var socks: map<SocketId, Socket>
    /** Addresses with a reconnect timer that has not fired yet, with multiplicity. */
    var pending: multiset<string>
    /** The id the next connection gets. */
    var nextId: SocketId

    ghost predicate Valid()
      reads this
    {
      && (forall id :: id in socks ==> id < nextId)
      && TableWellFormed(table, socks)
    }

    /** The message carrying the current lyrics, normalised. */
    function LyricsMessage(): (m: Msg)
      reads this
      ensures m.LyricsMsg? && m.lyrics != Some([])
      ensures m.lyrics.None? <==> (currentLyrics.None? || currentLyrics.value == [])
      ensures m.lyrics.Some? ==> m.lyrics == currentLyrics
    {
      LyricsMsg(LyricsPayload(currentLyrics))
    }

    /** The message carrying the current time. */
    function TimeMessage(): (m: Msg)
      reads this
      ensures m.TimeMsg? && m.time == currentTime
    {
      TimeMsg(currentTime)
    }

    /** The module's initial state: no lyrics, no time, no connections. */
    constructor ()
      ensures Valid()
      ensures currentLyrics == None && currentTime == None
      ensures table == map[] && socks == map[] && pending == multiset{}
    {
      currentLyrics := None;
      currentTime := None;
      table := map[];
      socks := map[];
      pending := multiset{};
      nextId := 0;
    }

    /**
     * `createConnection(address)`: always starts a new connection, in the connecting state with
     * nothing sent, even when one for the same address exists; the table is not touched.
     */
    method CreateConnection(address: string) returns (id: SocketId)
      requires Valid()
      modifies this`socks, this`nextId
      ensures Valid()
      ensures id !in old(socks)
      ensures socks == old(socks)[id := Socket(address, Connecting, [])]
      ensures forall a {:trigger Population(socks, pending, a)} :: Population(socks, pending, a) == Population(old(socks), pending, a) + (if a == address then 1 else 0)
    {
      id := nextId;
      nextId := nextId + 1;
      socks := socks[id := Socket(address, Connecting, [])];
      forall a ensures Population(socks, pending, a) ==
        Population(old(socks), pending, a) + (if a == address then 1 else 0)
      {
        PopulationAfterCreate(old(socks), pending, id, address, a);
      }
    }

    /** `sendCurrentLyrics(socket)`: the guarded send of the current lyrics message. */
    method SendCurrentLyrics(id: SocketId)
      requires Valid() && id in socks
      modifies this`socks
      ensures Valid()
      ensures socks == old(socks)[id := Send(old(socks)[id], LyricsMessage())]
      ensures forall a {:trigger Population(socks, pending, a)} :: Population(socks, pending, a) == Population(old(socks), old(pending), a)
    {
      socks := socks[id := Send(socks[id], LyricsMessage())];
      forall a ensures Population(socks, pending, a) == Population(old(socks), old(pending), a) {
        if old(socks)[id].state == Closed {
          assert socks == old(socks);
        } else {
          PopulationAfterLiveChange(old(socks), pending, id, socks[id], a);
        }
      }
    }

    /** `sendCurrentTime(socket)`: the guarded send of the current time message. */
    method SendCurrentTime(id: SocketId)
      requires Valid() && id in socks
      modifies this`socks
      ensures Valid()
      ensures socks == old(socks)[id := Send(old(socks)[id], TimeMessage())]
      ensures forall a {:trigger Population(socks, pending, a)} :: Population(socks, pending, a) == Population(old(socks), old(pending), a)
    {
      socks := socks[id := Send(socks[id], TimeMessage())];
      forall a ensures Population(socks, pending, a) == Population(old(socks), old(pending), a) {
        if old(socks)[id].state == Closed {
          assert socks == old(socks);
        } else {
          PopulationAfterLiveChange(old(socks), pending, id, socks[id], a);
        }
      }
    }

    /**
     * `registerSocket(socket, address)`, run by the open listener of an open socket: the table
     * entry for the socket's address becomes this socket, every other entry stays, and the
     * socket gets the lyrics message and then the time message of the current state.
     */
    method RegisterSocket(id: SocketId)
      requires Valid() && id in socks && socks[id].state == Open
      modifies this`socks, this`table
      ensures Valid()
      ensures table == old(table)[old(socks)[id].address := id]
      ensures socks == old(socks)[id := old(socks)[id].(outbox := old(socks)[id].outbox + [LyricsMessage(), TimeMessage()])]
      ensures forall a {:trigger Population(socks, pending, a)} :: Population(socks, pending, a) == Population(old(socks), old(pending), a)
    {
      table := table[socks[id].address := id];
      SendCurrentLyrics(id);
      SendCurrentTime(id);
      var s0 := old(socks)[id];
      assert s0.outbox + [LyricsMessage()] + [TimeMessage()] == s0.outbox + [LyricsMessage(), TimeMessage()];
      assert socks == old(socks)[id := socks[id]];
      forall a ensures Population(socks, pending, a) == Population(old(socks), old(pending), a) {
        PopulationAfterLiveChange(old(socks), pending, id, socks[id], a);
      }
    }

    /** The transport reports a connecting socket open; its open listener registers it. */
    method HandleOpen(id: SocketId)
      requires Valid() && id in socks && socks[id].state == Connecting
      modifies this`socks, this`table
      ensures Valid()
      ensures table == old(table)[old(socks)[id].address := id]
      ensures socks == old(socks)[id := Socket(old(socks)[id].address, Open,
                                              old(socks)[id].outbox + [LyricsMessage(), TimeMessage()])]
      ensures forall a {:trigger Population(socks, pending, a)} :: Population(socks, pending, a) == Population(old(socks), old(pending), a)
    {
      socks := socks[id := socks[id].(state := Open)];
      RegisterSocket(id);
      assert socks == old(socks)[id := socks[id]];
      forall a ensures Population(socks, pending, a) == Population(old(socks), old(pending), a) {
        PopulationAfterLiveChange(old(socks), pending, id, socks[id], a);
      }
    }

    /** The transport starts the closing handshake of an open socket; no handler runs. */
    method StartClosing(id: SocketId)
      requires Valid() && id in socks && socks[id].state == Open
      modifies this`socks
      ensures Valid()
      ensures socks == old(socks)[id := old(socks)[id].(state := Closing)]
      ensures forall a {:trigger Population(socks, pending, a)} :: Population(socks, pending, a) == Population(old(socks), old(pending), a)
    {
      socks := socks[id := socks[id].(state := Closing)];
      forall a ensures Population(socks, pending, a) == Population(old(socks), old(pending), a) {
        PopulationAfterLiveChange(old(socks), pending, id, socks[id], a);
      }
    }

    /**
     * The transport closes a socket (a dropped connection or a failed attempt) and its `onclose`
     * handler runs: the table entry for the socket's address is deleted, whichever socket it
     * names, the other entries stay, and exactly one reconnect for that address is scheduled.
     */
    method HandleClose(id: SocketId)
      requires Valid() && id in socks && socks[id].state != Closed
      modifies this`socks, this`table, this`pending
      ensures Valid()
      ensures socks == old(socks)[id := old(socks)[id].(state := Closed)]
      ensures table == old(table) - {old(socks)[id].address}
      ensures pending == old(pending) + multiset{old(socks)[id].address}
      ensures forall a {:trigger Population(socks, pending, a)} :: Population(socks, pending, a) == Population(old(socks), old(pending), a)
    {
      var address := socks[id].address;
      socks := socks[id := socks[id].(state := Closed)];
      table := table - {address};
      pending := pending + multiset{address};
      forall a ensures Population(socks, pending, a) == Population(old(socks), old(pending), a) {
        PopulationAfterClose(old(socks), old(pending), id, a);
      }
    }

    /** A pending reconnect timer for `address` fires: it is consumed and one new connection is created. */
    method FireReconnect(address: string) returns (id: SocketId)
      requires Valid() && address in pending
      modifies this`socks, this`nextId, this`pending
      ensures Valid()
      ensures pending == old(pending) - multiset{address}
      ensures id !in old(socks)
      ensures socks == old(socks)[id := Socket(address, Connecting, [])]
      ensures forall a {:trigger Population(socks, pending, a)} :: Population(socks, pending, a) == Population(old(socks), old(pending), a)
    {
      pending := pending - multiset{address};
      id := CreateConnection(address);
      forall a ensures Population(socks, pending, a) == Population(old(socks), old(pending), a) {
        PopulationAfterReconnect(old(socks), old(pending), id, address, a);
      }
    }

    /**
     * `sendLyricsToAll(targets)`: the guarded send of the current lyrics message to each
     * target once; no other socket and no other part of the state changes.
     */
    method SendLyricsToAll(targets: set<SocketId>)
      requires Valid() && targets <= socks.Keys
      modifies this`socks
      ensures Valid()
      ensures socks == Deliver(old(socks), targets, LyricsMessage())
      ensures forall a {:trigger Population(socks, pending, a)} :: Population(socks, pending, a) == Population(old(socks), old(pending), a)
    {
      var todo := targets;
      while todo != {}
        invariant Valid()
        invariant todo <= targets
        invariant socks == Deliver(old(socks), targets - todo, LyricsMessage())
        decreases todo
      {
        var id :| id in todo;
        DeliverStep(old(socks), targets - todo, id, LyricsMessage());
        SendCurrentLyrics(id);
        assert targets - (todo - {id}) == (targets - todo) + {id};
        todo := todo - {id};
      }
      assert targets - todo == targets;
      forall a ensures Population(socks, pending, a) == Population(old(socks), old(pending), a) {
        PopulationAfterDeliver(old(socks), pending, targets, LyricsMessage(), a);
      }
    }

    /**
     * `sendTimeToAll(targets)`: the guarded send of the current time message to each target
     * once; no other socket and no other part of the state changes.
     */
    method SendTimeToAll(targets: set<SocketId>)
      requires Valid() && targets <= socks.Keys
      modifies this`socks
      ensures Valid()
      ensures socks == Deliver(old(socks), targets, TimeMessage())
      ensures forall a {:trigger Population(socks, pending, a)} :: Population(socks, pending, a) == Population(old(socks), old(pending), a)
    {
      var todo := targets;
      while todo != {}
        invariant Valid()
        invariant todo <= targets
        invariant socks == Deliver(old(socks), targets - todo, TimeMessage())
        decreases todo
      {
        var id :| id in todo;
        DeliverStep(old(socks), targets - todo, id, TimeMessage());
        SendCurrentTime(id);
        assert targets - (todo - {id}) == (targets - todo) + {id};
        todo := todo - {id};
      }
      assert targets - todo == targets;
      forall a ensures Population(socks, pending, a) == Population(old(socks), old(pending), a) {
        PopulationAfterDeliver(old(socks), pending, targets, TimeMessage(), a);
      }
    }

    /**
     * The `onprogress` listener. An undefined event, or one whose value equals the current
     * time, changes nothing and sends nothing. Any other value becomes the current time and
     * exactly one time message with it goes to every open socket in the table.
     */
    method HandleProgress(event: Option<int>)
      requires Valid()
      modifies this`currentTime, this`socks
      ensures Valid()
      ensures if event.Some? && Some(event.value) != old(currentTime)
              then currentTime == Some(event.value)
                   && socks == Deliver(old(socks), table.Values, TimeMsg(Some(event.value)))
              else currentTime == old(currentTime) && socks == old(socks)
      ensures forall a {:trigger Population(socks, pending, a)} :: Population(socks, pending, a) == Population(old(socks), old(pending), a)
    {
      if event.None? {
        return;
      }
      if Some(event.value) != currentTime {
        currentTime := Some(event.value);
        SendTimeToAll(table.Values);
      }
    }

    /**
     * The `songchange` listener as written. When the track lookup throws (the player has no
     * item), the `await` rethrows: the lyrics keep their value and nothing is sent. Otherwise
     * the current lyrics become the lookup's result, whatever track id was requested
     * (`undefined` included), and the lyrics message, never a time message, goes to every
     * open socket in the table. The current time is not touched.
     */
    method HandleSongChange(player: PlayerData, fetch: string -> FetchOutcome)
      requires Valid()
      modifies this`currentLyrics, this`socks
      ensures Valid()
      ensures CurrentTrackLyricsAsWritten(player, fetch).Threw? ==>
        currentLyrics == old(currentLyrics) && socks == old(socks)
      ensures CurrentTrackLyricsAsWritten(player, fetch).Returned? ==>
        currentLyrics == CurrentTrackLyricsAsWritten(player, fetch).value
        && socks == Deliver(old(socks), table.Values, LyricsMsg(LyricsPayload(currentLyrics)))
      ensures forall a {:trigger Population(socks, pending, a)} :: Population(socks, pending, a) == Population(old(socks), old(pending), a)
    {
      match CurrentTrackLyricsAsWritten(player, fetch)
      case Threw =>
      case Returned(lyrics) =>
        currentLyrics := lyrics;
        SendLyricsToAll(table.Values);
    }

    /**
     * The `songchange` listener with the no-track guard working as intended: with no track
     * playing the lyrics become `null` without a lookup, and are sent like any other result.
     */
    method HandleSongChangeIntended(player: PlayerData, fetch: string -> FetchOutcome)
      requires Valid()
      modifies this`currentLyrics, this`socks
      ensures Valid()
      ensures currentLyrics == CurrentTrackLyrics(player, fetch)
      ensures TrackId(player).None? ==> currentLyrics == None
      ensures socks == Deliver(old(socks), table.Values, LyricsMsg(LyricsPayload(currentLyrics)))
      ensures forall a {:trigger Population(socks, pending, a)} :: Population(socks, pending, a) == Population(old(socks), old(pending), a)
    {
      currentLyrics := CurrentTrackLyrics(player, fetch);
      SendLyricsToAll(table.Values);
    }
  }
}
