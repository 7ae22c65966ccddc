/**
 * Whole-hub runs built only from the handlers' contracts: what a subscriber finds in its
 * outbox after a given sequence of host and transport events.
 */
module Scenarios {
  import opened Wrappers
  import opened Messages
  import opened LyricsService
  import opened Tracks
  import opened Sockets
  import opened Broadcast

  const Address := "127.0.0.1:5001/ws"

  /** A lyrics service that answers every request with the synced lines `lines`. */
  function SyncedService(lines: seq<LyricLine>): string -> FetchOutcome
  {
    _ => Resolved(Some(Response(Some(LyricsBody(Some("LINE_SYNCED"), Some(lines))))))
  }

  /** A lyrics service that answers every request with unsynced lyrics. */
  function UnsyncedService(): string -> FetchOutcome
  {
    _ => Resolved(Some(Response(Some(LyricsBody(Some("UNSYNCED"), Some([]))))))
  }

  /** The track `spotify:track:<id>` is looked up as `id`; this service answers it with `lines`. */
  lemma SyncedLookup(id: string, lines: seq<LyricLine>)
    requires ':' !in id
    ensures CurrentTrackLyricsAsWritten(Item("spotify:track:" + id), SyncedService(lines)) == Returned(Some(lines))
  {
    var fields := ["spotify", "track", id];
    assert fields[1..] == ["track", id] && ["track", id][1..] == [id];
    assert Join(["track", id], ':') == "track" + [':'] + id;
    assert Join(fields, ':') == "spotify:track:" + id;
    TrackIdIsThirdField(fields);
    CorrectedAgreesWhilePlaying(Item("spotify:track:" + id), SyncedService(lines));
  }

  /** This service's answer for any playing track is classified as no lyrics. */
  lemma UnsyncedLookup(id: string)
    requires ':' !in id
    ensures CurrentTrackLyricsAsWritten(Item("spotify:track:" + id), UnsyncedService()) == Returned(None)
  {
    var fields := ["spotify", "track", id];
    assert fields[1..] == ["track", id] && ["track", id][1..] == [id];
    assert Join(["track", id], ':') == "track" + [':'] + id;
    assert Join(fields, ':') == "spotify:track:" + id;
    TrackIdIsThirdField(fields);
    CorrectedAgreesWhilePlaying(Item("spotify:track:" + id), UnsyncedService());
  }

  /** A subscriber that connects after no refresh gets `null` lyrics and `null` time, then each new time once. */
  method DuplicateProgress() returns (outbox: seq<Msg>)
    ensures outbox == [LyricsMsg(None), TimeMsg(None), TimeMsg(Some(5000))]
  {
    var hub, id := OneSubscriber();
    ghost var before := hub.socks;
    hub.HandleProgress(Some(5000));
    DeliverPerSocket(before, hub.table.Values, TimeMsg(Some(5000)), id);
    assert hub.socks[id].outbox == [LyricsMsg(None), TimeMsg(None), TimeMsg(Some(5000))];
    hub.HandleProgress(Some(5000));
    hub.HandleProgress(None);
    outbox := hub.socks[id].outbox;
  }

  /** A subscriber that joins late gets the latest lyrics and time, lyrics first, and nothing older. */
  method LateJoin(lines: seq<LyricLine>) returns (outbox: seq<Msg>)
    requires lines != []
    ensures outbox == [LyricsMsg(Some(lines)), TimeMsg(Some(1200))]
  {
    var hub := new Hub();
    SyncedLookup("first", lines);
    PlayTrack(hub, Item("spotify:track:" + "first"), SyncedService(lines), Some(lines));
    hub.HandleProgress(Some(700));
    hub.HandleProgress(Some(1200));
    assert hub.LyricsMessage() == LyricsMsg(Some(lines)) && hub.TimeMessage() == TimeMsg(Some(1200));
    var id := Subscribe(hub, Address);
    outbox := hub.socks[id].outbox;
  }

  /** A change to a track without synced lyrics sends `null` lyrics, whatever the previous track had. */
  method TrackChangeToNoLyrics(lines: seq<LyricLine>) returns (outbox: seq<Msg>)
    requires |lines| == 3
    ensures outbox == [LyricsMsg(None), TimeMsg(None), LyricsMsg(Some(lines)), LyricsMsg(None)]
  {
    var hub, id := OneSubscriber();
    ghost var s1 := hub.socks;
    SyncedLookup("first", lines);
    PlayTrack(hub, Item("spotify:track:" + "first"), SyncedService(lines), Some(lines));
    DeliverPerSocket(s1, hub.table.Values, LyricsMsg(Some(lines)), id);
    assert hub.socks[id].outbox == [LyricsMsg(None), TimeMsg(None), LyricsMsg(Some(lines))];
    ghost var s2 := hub.socks;
    UnsyncedLookup("second");
    PlayTrack(hub, Item("spotify:track:" + "second"), UnsyncedService(), None);
    DeliverPerSocket(s2, hub.table.Values, LyricsMsg(None), id);
    outbox := hub.socks[id].outbox;
  }

  /** A fresh hub with one subscriber for `Address` that has opened. */
  method OneSubscriber() returns (hub: Hub, id: SocketId)
    ensures fresh(hub) && hub.Valid()
    ensures hub.currentLyrics == None && hub.currentTime == None && hub.pending == multiset{}
    ensures hub.socks == map[id := Socket(Address, Open, [LyricsMsg(None), TimeMsg(None)])]
    ensures hub.table == map[Address := id] && id in hub.table.Values
  {
    hub := new Hub();
    id := Subscribe(hub, Address);
    assert hub.table[Address] == id;
  }

  /** The host reports a track change whose lookup, as the plugin does it, yields `lyrics`. */
  method PlayTrack(hub: Hub, player: PlayerData, fetch: string -> FetchOutcome, lyrics: Option<seq<LyricLine>>)
    requires hub.Valid() && CurrentTrackLyricsAsWritten(player, fetch) == Returned(lyrics)
    modifies hub
    ensures hub.Valid()
    ensures hub.currentLyrics == lyrics && hub.currentTime == old(hub.currentTime)
    ensures hub.table == old(hub.table) && hub.pending == old(hub.pending)
    ensures hub.socks == Deliver(old(hub.socks), hub.table.Values, LyricsMsg(LyricsPayload(lyrics)))
  {
    hub.HandleSongChange(player, fetch);
  }

  /** A connection for `address` is created and opens before anything else happens on the hub. */
  method Subscribe(hub: Hub, address: string) returns (id: SocketId)
    requires hub.Valid()
    modifies hub
    ensures hub.Valid()
    ensures id !in old(hub.socks)
    ensures hub.socks == old(hub.socks)[id := Socket(address, Open, [hub.LyricsMessage(), hub.TimeMessage()])]
    ensures hub.table == old(hub.table)[address := id]
    ensures hub.currentLyrics == old(hub.currentLyrics) && hub.currentTime == old(hub.currentTime)
    ensures hub.pending == old(hub.pending)
  {
    id := hub.CreateConnection(address);
    hub.HandleOpen(id);
    assert [] + [hub.LyricsMessage(), hub.TimeMessage()] == [hub.LyricsMessage(), hub.TimeMessage()];
  }

  /** The pending reconnect for `address` fires and the new connection opens. */
  method Rejoin(hub: Hub, address: string) returns (id: SocketId)
    requires hub.Valid() && address in hub.pending
    modifies hub
    ensures hub.Valid()
    ensures id !in old(hub.socks)
    ensures hub.socks == old(hub.socks)[id := Socket(address, Open, [hub.LyricsMessage(), hub.TimeMessage()])]
    ensures hub.currentLyrics == old(hub.currentLyrics) && hub.currentTime == old(hub.currentTime)
    ensures hub.pending == old(hub.pending) - multiset{address}
  {
    id := hub.FireReconnect(address);
    hub.HandleOpen(id);
    assert [] + [hub.LyricsMessage(), hub.TimeMessage()] == [hub.LyricsMessage(), hub.TimeMessage()];
  }

  /** Three subscribers that have opened and a fourth that is still connecting, on a fresh hub. */
  method FourSubscribers() returns (hub: Hub, ia: SocketId, ib: SocketId, ic: SocketId, id: SocketId)
    ensures fresh(hub) && hub.Valid()
    ensures hub.currentLyrics == None && hub.currentTime == None
    ensures hub.socks == map[ia := Socket("a", Open, [LyricsMsg(None), TimeMsg(None)]),
                             ib := Socket("b", Open, [LyricsMsg(None), TimeMsg(None)]),
                             ic := Socket("c", Open, [LyricsMsg(None), TimeMsg(None)]),
                             id := Socket("d", Connecting, [])]
    ensures ia != ib && ia != ic && ia != id && ib != ic && ib != id && ic != id
    ensures ia in hub.table.Values && ib in hub.table.Values && ic in hub.table.Values
    ensures id !in hub.table.Values
  {
    hub := new Hub();
    var caughtUp := [LyricsMsg(None), TimeMsg(None)];
    ia := Subscribe(hub, "a");
    ib := Subscribe(hub, "b");
    ic := Subscribe(hub, "c");
    id := hub.CreateConnection("d");
    assert hub.socks == map[ia := Socket("a", Open, caughtUp), ib := Socket("b", Open, caughtUp),
                            ic := Socket("c", Open, caughtUp), id := Socket("d", Connecting, [])];
    assert hub.table == map["a" := ia, "b" := ib, "c" := ic];
    assert hub.table["a"] == ia && hub.table["b"] == ib && hub.table["c"] == ic;
  }

  /**
   * Three open subscribers each get the same new time once; a fourth that is still connecting
   * gets nothing.
   */
  method FanOut() returns (a: seq<Msg>, b: seq<Msg>, c: seq<Msg>, d: seq<Msg>)
    ensures a == b == c == [LyricsMsg(None), TimeMsg(None), TimeMsg(Some(42))]
    ensures d == []
  {
    var hub, ia, ib, ic, id := FourSubscribers();
    ghost var targets := hub.table.Values;
    ghost var s0 := hub.socks;
    hub.HandleProgress(Some(42));
    var updated := [LyricsMsg(None), TimeMsg(None)] + [TimeMsg(Some(42))];
    assert hub.socks == Deliver(s0, targets, TimeMsg(Some(42)));
    assert hub.socks[ia].outbox == updated by {
      DeliverPerSocket(s0, targets, TimeMsg(Some(42)), ia);
    }
    assert hub.socks[ib].outbox == updated by {
      DeliverPerSocket(s0, targets, TimeMsg(Some(42)), ib);
    }
    assert hub.socks[ic].outbox == updated by {
      DeliverPerSocket(s0, targets, TimeMsg(Some(42)), ic);
    }
    assert hub.socks[id].outbox == [] by {
      DeliverPerSocket(s0, targets, TimeMsg(Some(42)), id);
    }
    a, b, c, d := hub.socks[ia].outbox, hub.socks[ib].outbox, hub.socks[ic].outbox, hub.socks[id].outbox;
  }

  /**
   * A dropped connection leaves the table and schedules one reconnect; when the timer fires the
   * new connection, once open, catches up on what changed while the address was away.
   */
  method Reconnect(lines: seq<LyricLine>) returns (before: seq<Msg>, after: seq<Msg>)
    requires lines != []
    ensures before == [LyricsMsg(None), TimeMsg(None)]
    ensures after == [LyricsMsg(Some(lines)), TimeMsg(None)]
  {
    var hub, first := OneSubscriber();
    hub.HandleClose(first);
    assert hub.table == map[] && hub.pending == multiset{Address};
    ghost var closed := hub.socks;
    assert closed[first].state == Closed;
    assert hub.table.Values == {};
    SyncedLookup("first", lines);
    PlayTrack(hub, Item("spotify:track:" + "first"), SyncedService(lines), Some(lines));
    assert hub.socks == closed by {
      assert hub.socks == Deliver(closed, {}, LyricsMsg(Some(lines)));
    }
    var second := Rejoin(hub, Address);
    assert hub.LyricsMessage() == LyricsMsg(Some(lines)) && hub.TimeMessage() == TimeMsg(None);
    assert hub.socks[first] == closed[first];
    before, after := hub.socks[first].outbox, hub.socks[second].outbox;
  }
}
