# Lyric server broadcast hub, modelled in Dafny

The plugin in `src/app.tsx` mirrors the music player's current lyrics and playback time to
WebSocket subscribers. This project models its broadcast hub: the module-level state
`currentLyrics`, `currentTime` and the connection table `sockets`, and the handlers that change it.
These are the socket open and close handlers, the reconnect timer, the single-socket sends, the
broadcast loops, and the `songchange` and `onprogress` listeners. It also models the pure helpers
around the hub: the `lyrics` payload normalisation, the classification of the lyrics service's
answer, and the track id taken from the item URI.

Layout, one module per concern:

- `wrappers.dfy` (`Wrappers`): `Option` for values that may be `null`; `Outcome` for an expression that may throw.
- `messages.dfy` (`Messages`): lyric lines, the two wire messages, and the payload normalisation.
- `lyrics_service.dfy` (`LyricsService`): the request URL, and the `.then`/`.catch` classification inside `fetchLyrics`.
- `tracks.dfy` (`Tracks`): JavaScript `split`, the track id, and `getCurrentTrackLyrics`, both as written and corrected.
- `sockets.dfy` (`Sockets`): abstract sockets, the guarded send, broadcasts per socket, and the population of live connections plus pending reconnects.
- `hub.dfy` (`Broadcast`): the class `Hub`, with one method per handler.
- `scenarios.dfy` (`Scenarios`): whole runs of the hub built only from the handlers' contracts.

Sockets are abstract. Each socket is a record holding the address it was created for, its
`readyState` (`Connecting`, `Open`, `Closing`, `Closed`) and its outbox, the messages sent on it so
far. The hub keeps every socket it ever created in `socks`, keyed by id. The source's `sockets` Map
is `table`, from address to socket id. Each pending `setTimeout` reconnect is one entry of the
multiset `pending`; `FireReconnect` consumes the entry.

The transport's events are methods: `HandleOpen`, `StartClosing` and `HandleClose`. The
object invariant `Valid()` says every table entry names a known socket that was created for that
same address and is `Open` or `Closing`. So no socket is listed under two addresses, and one pass
over the table's values sends once per entry. A table entry can be non-open: during the closing
handshake, before the close event removes it.

"Population" means the live (non-closed) sockets of an address plus its pending reconnects. The
lemmas `Sockets.PopulationAfter*` state how each kind of state change affects it. Every hub method
other than `CreateConnection` states in its own contract that each address's population is
unchanged; `CreateConnection` states that it raises its own address's population by one and no
other. So, as the code is written, once each address has been connected once at startup, any
later sequence of the other handlers keeps its population at one, and `Sockets.SinglePopulation` gives that it then
never has two live sockets or two pending timers.

Three things are parameters, not calls:

- the host's now-playing data (`PlayerData`);
- the progress event (`Option<int>`, with `None` for `undefined`);
- the lyrics service, passed as a function from request URL to the settled outcome of the request.

The model follows the code as written, which differs from a hardened hub in four ways:

- `createConnection` is not idempotent.
- A song change sends only the lyrics message, and a progress event sends only the time message; neither sends both.
- Nothing stops a slow lyrics lookup from overwriting fresher lyrics.
- The table can hold a socket that is closing.

## Model

| member | source | states |
|---|---|---|
| `Messages.LyricsPayload` | src/app.tsx:47-49 | the `lyrics` value is `null` exactly when the current lyrics are `null` or an empty list; otherwise it is the current lyrics unchanged; an empty list is never sent |
| `LyricsService.LyricsUrl` | src/app.tsx:72-75 | the request URL is the base URL, then the track id unchanged, then `?format=json`, and nothing else |
| `LyricsService.LyricsUrlInjective` | src/app.tsx:72-75 | the request URL determines the track id: different ids never make the same request (a documentation lemma; no other proof uses it) |
| `LyricsService.OnResolved` | src/app.tsx:76-84 | the `.then` callback throws exactly when the response or its `lyrics` object is missing; an `UNSYNCED` answer gives `null`; any lines it returns are the response's own and come from an answer that is not `UNSYNCED`; an answer that is not `UNSYNCED` returns its `lines` when present (an empty list included, being truthy) and `null` when they are missing |
| `LyricsService.FetchLyrics` | src/app.tsx:75-88 | the lookup yields the response's own lines exactly when the request resolved with a `lyrics` object, the answer is not `UNSYNCED` and `lines` is present; a rejected request, a missing `lyrics` object (the callback throws, caught by `.catch`), `UNSYNCED` or missing lines all give `null` |
| `Tracks.Split` | src/app.tsx:67 | `split(":")` gives at least one field, no field contains the separator, and joining the fields with it gives back the input |
| `Tracks.SplitJoin` | src/app.tsx:67 | splitting the join of separator-free fields returns exactly those fields, so the split is the join's inverse |
| `Tracks.TrackIdAsWritten` | src/app.tsx:66-68 | as written, the track id lookup throws exactly when the player data has no item, and it never yields `null`: no data or a URI with fewer than three fields yield `undefined`, and a longer URI yields its third field |
| `Tracks.NoTrackGuardNeverFires` | src/app.tsx:91-98 | as written, with no track playing, the lookup either throws or asks the service for the track `undefined`; the `=== null` branch is never taken |
| `Tracks.CurrentTrackLyricsAsWritten` | src/app.tsx:91-99 | as written, the lookup throws exactly when the player data has no item; with no data or a short URI it returns the classified answer for the request of the track `undefined` (string concatenation turns `undefined` into that text, `Tracks.JsToString`); otherwise it returns the classified answer for the request of the URI's third field |
| `Tracks.TrackId` | src/app.tsx:67 | the corrected track id is present only for an item whose URI has at least three `:`-separated fields, and it never contains `:` |
| `Tracks.TrackIdIsThirdField` | src/app.tsx:67 | the track id of the URI `a:b:id[:...]` is `id`, the third field |
| `Tracks.CurrentTrackLyrics` | src/app.tsx:91-99 | with no track, the lyrics are `null`; otherwise they are the classified answer for that track's URL |
| `Tracks.NoTrackNoFetch` | src/app.tsx:93-96 | with no track, the result is `null` and does not depend on the lyrics service at all (no request) |
| `Tracks.CorrectedAgreesWhilePlaying` | src/app.tsx:91-98 | whenever a track id is present, the corrected lookup returns what the code as written returns |
| `Sockets.Send` | src/app.tsx:45-63 | a send appends exactly one message, at the end, to an open socket, and appends nothing to a socket in any other state; address and state never change |
| `Sockets.Deliver` | src/app.tsx:101-111 | a broadcast keeps the same sockets, and every socket keeps its address and state |
| `Sockets.DeliverPerSocket` | src/app.tsx:101-111 | after a broadcast, each open target has the message appended once; non-open targets and all sockets outside the targets are unchanged |
| `Sockets.DeliverStep` | src/app.tsx:102-104 | one more loop iteration extends a partial broadcast by one guarded send to the next socket |
| `Sockets.PopulationAfterCreate` | src/app.tsx:18-19 | a new connection raises its own address's population by one and leaves every other address's population unchanged |
| `Sockets.PopulationAfterLiveChange` | src/app.tsx:22-24 | opening, registering, sending to or starting to close a live socket changes no population |
| `Sockets.PopulationAfterClose` | src/app.tsx:27-34 | a close, with the one reconnect it schedules, leaves every population unchanged |
| `Sockets.PopulationAfterReconnect` | src/app.tsx:30-33 | a firing reconnect, together with the connection it creates, leaves every population unchanged |
| `Sockets.PopulationAfterDeliver` | src/app.tsx:101-111 | a broadcast changes no population |
| `Sockets.SinglePopulation` | src/app.tsx:27-34 | while an address's population is one, it has at most one pending reconnect and at most one live socket |
| `Sockets.TableInjective` | src/app.tsx:38-39 | in a well-formed table no socket is listed under two addresses (a documentation lemma; no other proof uses it) |
| `Broadcast.Hub.LyricsMessage` | src/app.tsx:47-49 | the lyrics message carries `null` exactly when the current lyrics are `null` or empty, and otherwise the current lyrics; it never carries an empty list |
| `Broadcast.Hub.TimeMessage` | src/app.tsx:57-59 | the time message carries the current time as it is, `null` included |
| `Broadcast.Hub.constructor` | src/app.tsx:12-14 | the initial state has `null` lyrics, `null` time, an empty table, no sockets and no pending reconnects |
| `Broadcast.Hub.CreateConnection` | src/app.tsx:18-19 | adds exactly one new connecting socket with nothing sent, even when the address already has one; the table is untouched |
| `Broadcast.Hub.SendCurrentLyrics` | src/app.tsx:45-53 | only the given socket changes, by the guarded send of the normalised lyrics message |
| `Broadcast.Hub.SendCurrentTime` | src/app.tsx:55-63 | only the given socket changes, by the guarded send of the time message |
| `Broadcast.Hub.RegisterSocket` | src/app.tsx:38-42 | the table entry for the socket's address becomes this socket and every other entry stays; the socket gets the lyrics message and then the time message of the current state |
| `Broadcast.Hub.HandleOpen` | src/app.tsx:22-24 | an opening socket becomes open and is registered, so its outbox grows by the catch-up pair, lyrics first |
| `Broadcast.Hub.StartClosing` | src/app.tsx:46 | the transport moves an open socket to closing; the table keeps it, and guarded sends now skip it |
| `Broadcast.Hub.HandleClose` | src/app.tsx:27-34 | the socket becomes closed; the table entry for its address is deleted, whichever socket it names, and every other entry stays; exactly one reconnect for that address is added |
| `Broadcast.Hub.FireReconnect` | src/app.tsx:30-33 | one pending reconnect for the address is consumed, and exactly one new connecting socket for it is created |
| `Broadcast.Hub.SendLyricsToAll` | src/app.tsx:101-105 | the sockets become the per-socket broadcast of the lyrics message to the targets; nothing else changes |
| `Broadcast.Hub.SendTimeToAll` | src/app.tsx:107-111 | the sockets become the per-socket broadcast of the time message to the targets; nothing else changes |
| `Broadcast.Hub.HandleProgress` | src/app.tsx:138-145 | an undefined event, or a value equal to the current time, changes nothing and sends nothing; any other value becomes the current time, and exactly one time message with it goes to every open socket in the table |
| `Broadcast.Hub.HandleSongChange` | src/app.tsx:132-135 | as written: when the lookup throws, the lyrics and the sockets stay as they were; otherwise the current lyrics become the lookup's result, including the answer for the track `undefined`, and only a lyrics message goes to the open sockets of the table; the current time, the table and the pending reconnects are not touched |
| `Broadcast.Hub.HandleSongChangeIntended` | src/app.tsx:132-135 | with the corrected lookup: the current lyrics become its result, which is `null` when no track is playing, and only a lyrics message goes to the open sockets of the table |
| `Scenarios.DuplicateProgress` | src/app.tsx:139-144 | two progress events with the same value send one time message; an undefined event sends nothing |
| `Scenarios.LateJoin` | src/app.tsx:38-42 | a subscriber that connects after a song change and two progress events receives the latest lyrics and then the latest time, and nothing older |
| `Scenarios.TrackChangeToNoLyrics` | src/app.tsx:132-135 | a change from a track with three lines to an unsynced track sends `null` lyrics |
| `Scenarios.FanOut` | src/app.tsx:107-111 | three open subscribers each receive the same time message once; a fourth, still connecting, receives nothing |
| `Scenarios.Reconnect` | src/app.tsx:27-42 | after a drop and the reconnect it schedules, the new connection receives a catch-up of the state as changed in between, and the old socket receives nothing more |

## Left out

- Real WebSocket transport and `new WebSocket("ws://" + address)` (line 19): sockets are the abstract records above, and open, closing and close are transport events the caller triggers.
- The one-second `setTimeout` delay before a reconnect: a pending reconnect fires whenever `FireReconnect` is called for it.
- Asynchrony: each handler runs as one step. Interleavings inside `await getCurrentTrackLyrics()` at line 133 are not modelled, including a stale lookup overwriting newer lyrics.
- Spicetify host APIs (`Player.data`, `addEventListener`, `CosmosAsync.get`): their results are parameters.
- `main`'s readiness polling (lines 116-122) and startup wiring (lines 124-129, with the address list at line 15): the hub starts from the declared initial state, and `CreateConnection` stands in for the initial connection of each address. The model's first catch-up can therefore carry a `null` time, which the source's startup order prevents: `main` sets `currentTime` from the player's timestamp before the first `createConnection`.
- `JSON.stringify` and `console` logging: messages are a datatype, and log lines have no effect.
- The iteration order of `sockets.values()`: broadcasts are stated per socket.
- JavaScript numbers: times are unbounded integers, and a response's `lines` is assumed to be an array when present.
- Features this code does not have, so the model has none either: idempotent connect, deduplication of reconnect timers, and last-request-wins lyrics lookups.
- Broadcast.Hub.RegisterSocket: requires the socket to be open, because its only caller, the open listener, runs for an open socket; its "not open" send branch is therefore not exercised there.

## Findings

| source | as written | input that shows it | evidently intended | confidence | as-written member | corrected member |
|---|---|---|---|---|---|---|
| src/app.tsx:67, src/app.tsx:93 | `getCurrentTrackId` never returns `null`. It yields `undefined` when `Player.data` is missing or the URI has fewer than three fields, and it throws when `item` is `null`. The `trackId === null` guard is therefore dead: the code requests the lyrics of the track `undefined`, or, after a throw, the song-change handler stops before updating or sending anything. | `Player.data` undefined, or `item` null, or the URI `spotify:local` | with no track playing, the lyrics are `null` and no request is made (the guard logs "No track is currently playing.") | medium; not executed | `Tracks.NoTrackGuardNeverFires` | `Tracks.NoTrackNoFetch` |

The hub's `Broadcast.Hub.HandleSongChange` follows the code as written, through
`Tracks.CurrentTrackLyricsAsWritten`. `Broadcast.Hub.HandleSongChangeIntended` is the handler with
the corrected `Tracks.CurrentTrackLyrics`.
