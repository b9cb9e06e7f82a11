# emit-hub broadcast core in Dafny

This project models the broadcast hub of emit-hub. emit-hub is a Rust server that keeps named channels. Clients attach to a channel over WebSocket, and the server fans messages out to every session attached to that channel. The model has these parts:

- **State** (`state.dfy`): the `Hub` class.
  - It holds the live channel registry (`live`), the durable channels table (`store`) and the messages table (`messages`).
  - It also holds the per-channel session lists (`conns`) and a clock.
  - Its methods are the operations of `AppState`: reload, write-through saves, lookup, status update, attach, detach and fan-out.
  - Fan-out prunes every session whose write fails.
- **SessionLists** (`session_lists.dfy`): the list functions behind the state methods. `Survivors` is the fan-out filter and `Without` is detach. Lemmas prove ordering, multiplicity and membership for both.
- **ChannelService** (`channel_service.dfy`): the channel lifecycle, which is create, start, pause, stop and list. There are no transition guards.
- **MessageService** (`message_service.dfy`): publishing a server message. It checks the channel, builds the message, optionally persists it, builds the envelope and fans it out.
- **WebSocket** (`websocket.dfy`): the decisions of the WebSocket route.
  - The attach gate (404 / 403 / handshake / append).
  - The reader loop, which relays client text, ignores pings and stops at Close. It then detaches the session by id. This is the corrected removal; the source's own cleanup leaves the session listed (see "## Findings").
- **Models** (`models.dfy`): channels, settings and their defaults, messages, senders, requests and the response envelope.
- **AppConfig** (`config.dfy`): configuration.
  - The `Default` values.
  - The numeric checks of `validate`.
  - `from_env`, modelled over an environment map. This includes Rust's unsigned and `bool` `FromStr` and the CORS origins split and trim.
- **Scenario** (`scenario.dfy`): whole runs proved from the operations' contracts alone.
  - The lifecycle demo: create, start, attach, publish (1 delivery), stop, then publish again, which is refused.
  - Pruning of a failed session.
  - A restart that reloads only the Active and Paused channels.
  - Repeated start and pause.

External effects become parameters:

- The outcome of a redb write transaction is `committed: bool`.
- `Utc::now()` is `now`, which is never behind `hub.clock`.
- `Uuid::new_v4()` is a fresh id given as a precondition.
- The success of a session write is the oracle `write(session, envelope)`.
- The store holds values rather than JSON text.

Where the code and the documented intent of the system disagree, the model follows the code:

- `create_channel` does not validate the name. An empty name is accepted.
- Create-request settings are all-or-nothing (`unwrap_or_default`). There is no per-field merge with the defaults.
- `start_channel` and `update_channel_status` write the new status into the live registry *before* saving it. A failed save therefore returns an error but leaves the live registry ahead of the store. The documented intent is that a failed save leaves the in-memory state unchanged.
- `stop_channel` removes any session list under the id even when the channel is unknown, and only then reports "Channel not found".
- Client text is relayed on any live channel that allows client messages, whether or not it is Active. A failed write of the client message is ignored.

## Model

| member | source | states |
|---|---|---|
| Models.DefaultSettingsValues | src/models/channel.rs:32-41 | default settings are 1000 connections, client messages allowed, no persistence, rate limit Some(60) |
| Models.SettingsAllOrNothing | src/services/channel_service.rs:22 | settings given in a create request are used whole; only an omitted block falls back to the defaults |
| SessionLists.SurvivorsSpec | src/state.rs:118-128 | the kept list is an order-preserving subsequence of the old one, no longer than it, and each session keeps all its listings if its write succeeded and none otherwise |
| SessionLists.SurvivorsMembership | src/state.rs:121-128 | a session remains after fan-out iff it was listed and its write succeeded |
| SessionLists.SurvivorsAllReached | src/state.rs:121-128 | when every write succeeds the list is unchanged |
| SessionLists.WithoutSpec | src/state.rs:109-111 | detaching removes every listing of the session and keeps every other listing, in order |
| SessionLists.WithoutAbsent | src/state.rs:109-111 | detaching a session that is not listed leaves the list unchanged |
| State.ReloadKeepsResumable | src/state.rs:50-58 | after reload, a channel is live iff it is stored with status Active or Paused, and it is live exactly as stored |
| State.SaveThenReload | src/state.rs:44-73 | a saved channel comes back unchanged on restart exactly when its saved status is Active or Paused |
| State.Restamped | src/state.rs:93-95 | a status update changes exactly the status and the update time; id, name, description, creation time and settings stay |
| State.RestampTwice | src/services/channel_service.rs:36-37 | setting the same status twice gives that status, stamped by the second call |
| State.Hub.Open | src/state.rs:20-42 | a hub opened over a channels table has exactly the Active and Paused channels live and no sessions |
| State.Hub.LoadActiveChannels | src/state.rs:44-62 | the loop adds to the live registry exactly the stored Active or Paused channels, each under its own id |
| State.Hub.SaveChannel | src/state.rs:64-73 | a committed save stores the channel under its id and changes no other key; an uncommitted one changes nothing and fails |
| State.Hub.SaveMessage | src/state.rs:75-84 | a committed save stores the message under its id and changes no other key; an uncommitted one changes nothing and fails |
| State.Hub.GetChannel | src/state.rs:86-88 | the result is present iff the id is live, and then it is the live channel |
| State.Hub.UpdateChannelStatus | src/state.rs:90-100 | a live id is restamped in the registry and, if committed, in the store; an absent id changes nothing and succeeds |
| State.Hub.AddConnection | src/state.rs:102-105 | the session is appended to the end of the channel's list (created empty if missing); other lists are untouched, no cap |
| State.Hub.RemoveConnection | src/state.rs:107-112 | the session is filtered out of the channel's list, keeping an ordered subsequence; an absent channel is a no-op |
| State.Hub.BroadcastToChannel | src/state.rs:114-132 | the channel's list becomes exactly the sessions whose write succeeded, in order; the count is its new length, at most the old one; no list means 0 and no change |
| State.RetainOtherObjectsKeepsAll | src/state.rs:107-112 | the as-written address comparison against a handle that is not in the list removes nothing |
| State.CleanupAsWrittenLeavesSession | src/routes/websocket.rs:129-130 | after the as-written cleanup the session stays listed, while identity-based removal drops it |
| ChannelService.CreateChannel | src/services/channel_service.rs:11-30 | a committed create makes a Created channel under the fresh id, with the request's name and description and the effective settings, in both store and registry; a failed save inserts nothing |
| ChannelService.StartChannel | src/services/channel_service.rs:32-45 | a live channel becomes Active from any status, is restamped and written through; an unknown id fails with ChannelNotFound and changes nothing |
| ChannelService.PauseChannel | src/services/channel_service.rs:47-56 | a live channel becomes Paused from any status; an unknown id fails with ChannelNotFound and changes nothing |
| ChannelService.StopChannel | src/services/channel_service.rs:58-77 | a live channel becomes Stopped and its whole session list is dropped, other lists untouched; an unknown id still drops its list, then fails with ChannelNotFound |
| ChannelService.ListChannels | src/services/channel_service.rs:79-81 | the result holds every live channel exactly once and nothing else |
| MessageService.EnvelopeCarriesMessage | src/services/message_service.rs:40-46 | the envelope has status "broadcast", the content as its message, the message's channel and timestamp, and no data |
| MessageService.Publish | src/services/message_service.rs:11-61 | unknown or non-Active channels fail before any effect; the message is built with the defaults, persisted only when the channel says so (a failed write aborts before fan-out), and the returned count is the fan-out's count |
| WebSocket.Attach | src/routes/websocket.rs:22-52 | an unknown channel gets the 404 "Channel not found" envelope, a non-Active one the 403 "is not active" envelope, and only a successful handshake on an Active channel appends the session |
| WebSocket.RelayClientText | src/routes/websocket.rs:80-116 | text is relayed iff the channel is live and allows client messages; the message is a ClientMessage from Client("anonymous"); it is persisted only when enabled and committed, and fanned out to every session of the channel |
| WebSocket.FramesRead | src/routes/websocket.rs:78-127 | the loop consumes frames up to and including the first Close, or all of them |
| WebSocket.AfterFramesStep | src/routes/websocket.rs:78-127 | reading one more frame applies exactly that frame's relay effect to the tables |
| WebSocket.AfterFramesAddsOnlyTheirIds | src/routes/websocket.rs:80-99 | every message the loop stores was carried by one of the text frames it read |
| WebSocket.AfterFramesStoresPersisted | src/routes/websocket.rs:96-99 | a read text frame relayed on a persisting channel, whose write commits, leaves its ClientMessage stored under its id |
| WebSocket.AfterFramesSilent | src/routes/websocket.rs:84-85 | on a channel that is missing or refuses client messages, no frame changes the messages table or any session list |
| WebSocket.ReadFrame | src/routes/websocket.rs:79-126 | a text frame has exactly the relay effect, and a ping or any other non-Close frame changes nothing |
| WebSocket.ReadFrames | src/routes/websocket.rs:78-127 | the loop reads exactly the frames up to and including the first Close, and its effect on the messages table and the session lists is exactly their relay effects in order; registry and channels table unchanged |
| WebSocket.AfterFramesOtherChannels | src/routes/websocket.rs:114 | relaying on one channel leaves every other channel's session list as it was |
| WebSocket.ReadFramesOnly | src/routes/websocket.rs:121-124 | frames after the first Close store nothing, and every read, relayed, committed text frame of a persisting channel is stored |
| WebSocket.ServeSession | src/routes/websocket.rs:77-131 | the reader's effect is exactly the relay of each frame up to and including the first Close (messages table and every session list), then removal of the session from the channel's list; frames after Close store nothing; the registry and channels table are untouched. The removal is by id, the corrected cleanup of the Findings row; the source's cleanup leaves the session listed |
| AppConfig.Validate | src/config.rs:234-254 | validation passes iff port, connections per channel, message size limit, connection timeout and retention days are all nonzero; port 0 reports "Port cannot be 0" |
| AppConfig.DefaultConfigChecks | src/config.rs:275-297 | the defaults are 127.0.0.1:8080 with 1000 connections and a 1 MiB message limit; they validate, and zeroing the port or the connection cap does not |
| AppConfig.ParseUnsigned | src/config.rs:161-165 | a parsed number is below the type's limit |
| AppConfig.ParseDecimal | src/config.rs:161-165 | the decimal text of n, with or without a leading '+', parses back to n exactly when n fits the type |
| AppConfig.ParseRejects | src/config.rs:161-165 | the empty text, a lone '+' and any negative text are rejected |
| AppConfig.ParseBool | src/config.rs:209-213 | exactly "true" and "false" parse, to true and false |
| AppConfig.SplitJoin | src/config.rs:188-192 | splitting on ',' and joining back gives the original text |
| AppConfig.SplitPieces | src/config.rs:188-192 | no piece contains the separator, and there is one more piece than separators |
| AppConfig.TrimStartSpec | src/config.rs:191 | trimming the front drops exactly the leading whitespace |
| AppConfig.TrimEndSpec | src/config.rs:191 | trimming the back drops exactly the trailing whitespace |
| AppConfig.TrimSpec | src/config.rs:191 | trim yields a contiguous slice bounded by whitespace that neither starts nor ends with whitespace |
| AppConfig.OriginsSpec | src/config.rs:188-193 | the origins list has one entry per comma-separated piece, each the trimmed piece |
| AppConfig.ReadNumber | src/config.rs:161-165 | an unset variable keeps the current value, a set one must parse within range and replaces it, otherwise the variable and its text are reported |
| AppConfig.ReadBool | src/config.rs:209-213 | an unset variable keeps the current value, a set one must be "true" or "false", otherwise the variable and its text are reported |
| AppConfig.ApplyServerVars | src/config.rs:156-185 | host, port, database path, connection cap, message size and log level are overridden by their variables, and a bad number fails |
| AppConfig.ApplyCorsVars | src/config.rs:187-193 | a set origins variable replaces the origin list wholesale with its split and trimmed pieces; the rest of CORS keeps its value |
| AppConfig.ApplyWebSocketVars | src/config.rs:195-206 | connection timeout and ping interval are overridden by their variables, and a bad number fails |
| AppConfig.ApplyPersistenceVars | src/config.rs:208-225 | the persist flag, retention days and auto-backup flag are overridden by their variables, and a bad value fails |
| AppConfig.FromEnv | src/config.rs:152-231 | an unparsable variable fails; otherwise the result reflects every set variable over the defaults, and it is Ok iff that configuration validates |
| Scenario.DemoScenario | src/services/message_service.rs:17-22 | create, start, attach, publish delivers to the one session; after stop, publishing is refused as not active |
| Scenario.PruneScenario | src/state.rs:114-132 | with a failing second write, two of three sessions are reached and kept, and the next publish reaches both |
| Scenario.RestartScenario | src/state.rs:44-62 | a restart reloads the Active channel as saved, but neither the Created nor the Stopped one |
| Scenario.StartTwice | src/services/channel_service.rs:32-45 | starting twice leaves the channel Active, stamped by the second call, in registry and store |
| Scenario.PauseTwice | src/services/channel_service.rs:47-56 | pausing twice leaves the channel Paused, stamped by the second call, in registry and store |

## Left out

- The HTTP wiring (`main.rs`, the channel and health routes and handlers) only maps service results to status codes. The database dump tool is I/O only. Neither is part of this model.
- Locks, `async` and the spawned reader task are not modelled. Each operation is one atomic step, and interleavings between a reader task and the services are not modelled.
- The JSON encoding of records and envelopes is not modelled, and nor are redb tables and transactions. The store holds values, so a record that fails to decode, which aborts the whole load in the source, cannot arise.
- The WebSocket handshake, the welcome message, `pong` replies and `close` calls on stopped sessions are transport I/O. The welcome payload is only a datatype, and a session is an opaque id.
- `max_connections` and `rate_limit_per_minute` are carried but never enforced. This matches the source.
- State.Hub.UpdateChannelStatus: wall-clock time going backwards is excluded by `clock <= now`.
- ChannelService.ListChannels: the result's order is not specified, because the source's hash-map order is arbitrary.
- AppConfig.FromEnv: a variable whose value is not valid Unicode counts as unset in the source. The model's environment holds only strings. The directory creation in `validate` touches the filesystem and is not modelled.
- AppConfig.FromEnv: the error text of a bad variable is reduced to the variable's name and value.
- The environment-override unit test (three variables set, then checked) is covered by the general `FromEnv` contract. It is not restated as a concrete instance.

## Findings

| source | as written | input that shows it | evidently intended | confidence | as-written member | corrected member |
|---|---|---|---|---|---|---|
| src/state.rs:110 | `remove_connection` drops a stored session only if it is the very object passed in (`std::ptr::eq`). The reader task passes its own clone (src/routes/websocket.rs:75, 130), never the object stored by `add_connection`. | Session 7 is attached. The list holds clone 1 and the task holds clone 2. When the stream closes, the list still holds session 7. | Remove the closing session from its channel's list. | high; not executed | State.CleanupAsWrittenLeavesSession | State.Hub.RemoveConnection |
