# Room media registry of a WebRTC signaling server

The server is a socket.io signaling front end for a mediasoup SFU. A teacher
starts a room and publishes up to four tracks: webcam video, webcam audio,
screen-share video and screen-share audio. Students consume those tracks. The
server keeps four module-level tables, each of shape
`roomId -> producerKind -> handle`:

Clients name the tracks `webcamVideo`, `webcamAudio`, `screenShareVideo` and
`screenShareAudio` (server.js:32-37). The server never checks `producerKind`,
so the model keys the tables by any string.

The four tables are:

- producers;
- consumers;
- producer transports;
- consumer transports.

Its socket handlers read and update these tables in place. This project models
those tables and handlers, treating each handler as one atomic step. Every
mediasoup call becomes a parameter that says how the call settled
(`EngineResult`: `Done(value)` or `Rejected(message)`). The `canConsume`
answer is a boolean parameter.

Layout:

- `wrappers.dfy`, `media.dfy`: the values involved. These are opaque engine
  handles, the replies sent to clients and the `Fault` a handler stops with.
  A `Result` is `Ok` when the handler reaches its reply callback. It is `Err`
  when the handler throws first, and the client then gets no reply.
- `registry.dfy`: module `RoomTables`, the four tables as a `Registry` value. This file also gives
  the JavaScript meaning of calling a method on `t[room][kind]` (`Select`),
  writing `t[room][kind]` (`Store`) and resetting `t[room]` (`Reset`). `Valid()` says that all four
  tables have entries for the same rooms.
- `handlers.dfy`: one function per socket handler. Each maps the tables before
  the event to the tables after it and the reply.
- `server.dfy`: class `MediaServer`. Its four map fields are updated in place,
  with one method per handler. Each method's contract ties its new state and
  reply to the handler function.
- `signaling.dfy`: runs of socket events. It proves what every run preserves,
  which rooms a run can touch, and the publish and subscribe round trips.
- `http_errors.dfy`: the status rule of the Express error middleware.

What the server keeps and does not keep:

- There is no session registry and no participant count.
- `joinRoom`, `leaveRoom` and `disconnect` touch no table, and there is no
  cleanup on disconnect.
- There is one consumer and one consumer transport per (room, kind), shared
  by every subscriber.
- `getProducers` for a room never started answers `undefined` (`None`).
- Publishing or subscribing before `startRoom` throws. The transport-creation
  handlers catch this and reply `{error}`. In every other handler the client
  gets no reply.

## Model

| member | source | states |
|---|---|---|
| `RoomTables.Store` | server.js:199 | Writing `t[room][kind]` on a started room changes that one slot and nothing else: same rooms, the room's other kinds untouched, every other room untouched |
| `RoomTables.Select` | server.js:225 | Calling a method on `t[room][kind]` (also at server.js:233, 245 and 271) reaches the stored handle exactly when the slot holds one. It throws `RoomNotStarted` when the room has no entry, and `SlotEmpty` when the room has an entry but the slot is empty |
| `RoomTables.Reset` | server.js:143-146 | `t[room] = {}` gives the room an empty entry, adds it to the table's rooms and leaves every other room's entry unchanged |
| `RoomTables.ResetIdempotent` | server.js:143-146 | Resetting a room twice is the same as resetting it once |
| `Media.Params` | server.js:334-341 | The params sent to a client are exactly the transport's `id`, `iceParameters`, `iceCandidates` and `dtlsParameters` |
| `Handlers.StartRoom` | server.js:138-149 | `startRoom(r)` leaves all four tables with an empty entry for `r`, discarding whatever `r` held; every other room's entries are unchanged; `r` joins the started rooms; the four tables stay in step |
| `Handlers.GetProducers` | server.js:167-169 | The answer is exactly the room's producer entry. It is undefined (`None`) exactly when the room was never started |
| `Handlers.CreateTransport` | server.js:195-219 | On a started room, the new transport is stored at `[room][kind]` of the producer-side or consumer-side table, and only that slot changes. The reply is exactly `{id, iceParameters, iceCandidates, dtlsParameters}` of that transport. An engine rejection replies `{error}` with its message and changes nothing; it takes precedence because the engine is called first. On a room never started the reply is `{error}` and no table changes. Other rooms are untouched and the tables stay in step |
| `Handlers.ConnectTransport` | server.js:223-235 | The stored transport at `[room][kind]` is selected and acknowledged once the engine connects it. A room never started or an empty slot throws before any reply, and so does an engine rejection |
| `Handlers.Produce` | server.js:242-255 | The reply is `{id}` of the new producer, followed by `newProducer {roomId, producerKind}`. That producer replaces whatever `roomProducers[room][kind]` held (last publish wins), and nothing else changes. A missing room, a missing producer transport or an engine rejection throws with no reply and no table change |
| `Handlers.Resume` | server.js:267-273 | The stored consumer at `[room][kind]` is selected and acknowledged once the engine resumes it. A room never started or an empty slot throws before any reply |
| `Handlers.CreateConsumer` | server.js:355-403 | For a room never started it throws before any check and changes nothing. The engine is asked to consume exactly when a producer exists, `canConsume` holds and a consumer transport exists. The request names the producer's id and that transport, and is paused exactly when the producer's kind is `video`. The consumer is stored exactly when the engine creates it, overwriting the slot. A simulcast consumer is pinned to layers (2,2). The descriptor is returned exactly when the consumer was stored and, for simulcast, the layer call succeeded. It carries the producer's id and the consumer's id, kind, rtpParameters, type and producerPaused. Otherwise the reply is empty; the consumer stays stored only when the engine created it and the layer call then failed |
| `Handlers.LayersAfter` | server.js:387-389 | A new consumer has preferred layers exactly when it is simulcast and `setPreferredLayers` succeeded, and those layers are spatial 2, temporal 2 |
| `Server.MediaServer.constructor` | server.js:39-42 | The four tables start empty |
| `Server.MediaServer.StartRoom` | server.js:138-149 | Updates the four fields in place to `Handlers.StartRoom` of the old tables; the room's entries are all empty afterwards; the tables stay in step |
| `Server.MediaServer.GetProducers` | server.js:167-169 | Returns the room's producer entry, or `None` for a room never started, and changes nothing |
| `Server.MediaServer.CreateProducerTransport` | server.js:195-205 | New tables and reply are those of `Handlers.CreateTransport` on the producer side |
| `Server.MediaServer.CreateConsumerTransport` | server.js:209-219 | New tables and reply are those of `Handlers.CreateTransport` on the consumer side |
| `Server.MediaServer.ConnectProducerTransport` | server.js:223-227 | Selects the stored producer transport as `Handlers.ConnectTransport` does and changes nothing |
| `Server.MediaServer.ConnectConsumerTransport` | server.js:231-235 | Selects the stored consumer transport as `Handlers.ConnectTransport` does and changes nothing |
| `Server.MediaServer.Produce` | server.js:242-255 | New tables and outcome are those of `Handlers.Produce`; the tables stay in step |
| `Server.MediaServer.Consume` | server.js:260-264 | New tables, engine request and reply are those of `Handlers.CreateConsumer` |
| `Server.MediaServer.Resume` | server.js:267-273 | Selects the stored consumer as `Handlers.Resume` does and changes nothing |
| `Signaling.Next` | server.js:133-281 | One socket event: it keeps the tables in step, adds a room only for `startRoom`, and leaves every room it does not name unchanged. `joinRoom`, `leaveRoom`, `disconnect`, `getProducers`, the connects and `resume` change no table |
| `Signaling.RunPreservesValid` | server.js:143-146 | After any run of events, the four tables still have entries for the same rooms |
| `Signaling.RunRooms` | server.js:143-146 | After any run, the started rooms are the earlier ones plus those named by its `startRoom` events; no handler removes a room |
| `Signaling.RunIsolation` | server.js:133-281 | A run of events none of which names room `r` leaves all four of `r`'s entries exactly as they were |
| `Signaling.NeverStartedRoom` | server.js:195-273 | For a room no event ever started, every handler fails and changes nothing, however the engine calls settle. `getProducers` answers `None`. The transport creations reply `{error}`, which names the unstarted room whenever the engine call itself succeeded. Connect, produce, consume and resume throw before replying |
| `Signaling.StartRoomDiscards` | server.js:143-146 | After `startRoom(r)`, `getProducers(r)` is the empty map whatever `r` held before, and starting a room twice equals starting it once |
| `Signaling.PublishRoundTrip` | server.js:195-255 | On a started room, this runs: create a producer transport, connect it, produce. The answers are the transport's params, an acknowledgement, and the producer's id with its `newProducer` notice. `getProducers` then lists the new producer under its kind |
| `Signaling.SubscribeRoundTrip` | server.js:355-403 | With a video producer stored, this runs: create a consumer transport, consume. This holds for simulcast and non-simulcast consumers alike, with the layer call succeeding. The engine is asked for a paused consumer of that producer on that transport. The descriptor names the producer. `resume` then selects the stored, paused consumer, pinned to layers (2,2) exactly when it is simulcast |
| `Signaling.ConsumeStores` | server.js:380-389 | A consume the engine accepts stores its consumer, whatever the layer call answers, and changes nothing else. The consumer is paused exactly when the producer is video. It is pinned to layers (2,2) exactly when it is simulcast and the layer call succeeded |
| `Signaling.LastSubscriberWins` | server.js:380-389 | Of two successful consumes at the same (room, kind), simulcast or not and whatever their layer calls answer, the second replaces the first subscriber's consumer. `resume` then selects the second one |
| `HttpErrors.ResponseStatus` | server.js:72 | An error's own truthy status (a non-zero number, a non-empty string, `true`) is kept. Otherwise the status is 400 exactly for a `TypeError`, and 500 for anything else. The result is always truthy |
| `HttpErrors.Annotate` | server.js:72 | The middleware writes that status onto the error and keeps its name and message |
| `HttpErrors.AnnotateIdempotent` | server.js:72 | Writing the status back is stable: a second pass gives the same error and status |

## Left out

- Express, HTTPS and TLS setup: the SSL-file check, `process.exit` and the listening socket (server.js:63-115). This is I/O and process control. Writing the HTTP response (`statusMessage`, `send(String(error))`) is left out for the same reason.
- socket.io room membership and fan-out. `socket.join` and `socket.leave` are left out, and so is delivery of `newProducer` to the other members, which is only recorded as the `Notice` value. The client-sent `newProducer` relay (server.js:275-279) and `connect_error` logging are left out too. These are transport mechanics.
- Creating the mediasoup worker and router, the exit timer on worker death and `getRouterRtpCapabilities` (server.js:187-189, 291-306). These are calls into a foreign library.
- The engine side of `createWebRtcTransport` (server.js:321-333), including the swallowed `setMaxIncomingBitrate` error. A transport is an opaque record that arrives as the settled result of that call. `sctpParameters` stands for the properties the params projection drops.
- The engine's `produce` is assumed to give the producer the media kind it was asked for. Its answer is the new producer's id.
- Handlers.ConnectTransport: DTLS negotiation is not modelled. Only the table lookup and how the engine call settled are.
- Handlers.Resume: only the lookup that selects the consumer is modelled. The engine's effect of un-pausing it is not, so the stored consumer keeps its `paused` flag.
- The global `producer` and `consumer` variables (server.js:26-27) are left out. `producer` is read only at server.js:248-249, in the same synchronous step that sets it at 245, so it acts as a local. `consumer` is never assigned, because the names at 262 and 380 are locals that shadow it.
- Interleaving of handlers from different connections at their `await` points is left out. Each handler is one atomic step, because concurrency is out of scope.
- config.js is left out: environment loading and static constants, with no logic.
- JavaScript property-key details are left out. Keys are plain strings. There is no coercion of non-string `roomId`s, and no inherited `Object.prototype` properties answer lookups. A `data` payload that is not an object is not modelled. The exact wording of runtime `TypeError` messages is not modelled either: `Fault` records which lookup failed.
- A handler that throws outside a `try` is modelled as "no reply, the server carries on with its tables unchanged". This covers the lookups at server.js:225, 233, 245 and 271, and the one at 361 reached through 262. That reading holds only on Node.js before version 15, or with a global `unhandledRejection` handler. Neither file installs one, so on current Node.js the rejection ends the process and all four tables are lost. Process termination is not modelled, and the run lemmas in `signaling.dfy` describe runs that continue past such a throw.
- A request sent without an acknowledgement callback is not modelled. In that case `callback(...)` itself throws: at server.js:168, and in the transport handlers at 200 and again at 203.
- HttpErrors.HttpError: `status` ranges over undefined, integers, `NaN`, strings and booleans. Fractional and infinite numbers, objects and other values are not modelled.
- Session registry, participant counting and disconnect cleanup are not modelled, because the code has none of them (server.js:156-179).
