# OneBot message router, modelled in Dafny

This project models the routing core of a QQ bot bridge (`MessageListener` in
`message_listener.py`). The bridge accepts a OneBot gateway connection on one
WebSocket path. It classifies each inbound frame and then does one of three
things with it:

- a heartbeat goes to the heartbeat handler;
- a private or group message is dispatched;
- anything else is dropped.

A dispatch runs in a fixed order. First comes the group policy gate (group
messages only). Next the plugin manager is asked. If no plugin handled the
message, the AI backend (Dify) is asked. Any reply goes back as a
`send_private_msg` or `send_group_msg` action whose `echo` repeats the action
name.

Files:

- `wrappers.dfy`: `Option` and `Result`.
- `onebot.dfy`: decoded frames, frame classification, outbound actions and the reply constructor.
- `router.dfy`: the collaborators, given as oracles; `process_private_message` and `process_group_message` as pure functions; the per-frame routing `RouteFrame`; and the lemmas that state each routing case.
- `listener.dfy`: `Replay` specifies a whole connection on values, with lemmas about ordering, faults, heartbeats and echo tags. The `WebSocket` and `MessageListener` classes hold the imperative receive loop `Handler`, which is proved to equal `Replay`.

The collaborators are given as their answers, in the datatype `Oracles`:

- the `enabled` entry of a group's chat setting;
- `PluginManager.handle_message`;
- the AI request followed by extracting its answer.

A connection's frames are routed with `env(i)` for the i-th frame, so the
collaborators may answer differently from one frame to the next. Group
settings are read live and plugins and the AI keep state, so this matters.
Every consultation goes into a trace of `Call`s. In the class this trace is
the ghost field `consulted`. The trace is how the model shows that the AI (or
the plugin chain) was never called.

Three behaviours of the code are worth stating up front:

- **Malformed frames are not skipped.** The code is not fail-soft. The
  following errors propagate out of the handler and end the connection's
  receive loop: `json.loads` failing, a decoded value that is not an object,
  and a missing `group_id` or `sender.user_id`. Only `ConnectionClosed` is
  caught. `FrameError` models these errors: `Handler` returns the error and
  routes no later frame (`ReplayStopsAtFault`, `ReplayEndsAtFirstFault`).
- **An empty plugin reply is still sent.** The code tests the plugin reply
  with `is not None`. The AI answer, by contrast, is tested for truthiness, so
  an empty answer sends nothing.
- **One heartbeat handler serves the whole listener.** It is created in
  `start`, not once per connection. The model keeps the heartbeat record on
  `MessageListener`.

## Model

| member | source | states |
|---|---|---|
| `OneBot.Classify` | message_listener.py:30-37 | A frame is a heartbeat exactly when `post_type` is `meta_event` and `meta_event_type` is `heartbeat`. It is private or group exactly when `post_type` is `message` and `message_type` is `private` or `group`. Every other frame falls through. |
| `OneBot.Reply` | message_listener.py:55-62 | The reply action is well formed: echo equals action, and the action name matches the params kind. Its recipient is the message's own chat and its text is the given message. |
| `Router.PluginThenAi` | message_listener.py:50-85 | The plugin is always asked first. The AI is asked (second and last) exactly when the plugin did not handle the message, with the text, the chat's identity and the group flag. Any reply is well formed and goes to that chat. |
| `Router.ProcessPrivate` | message_listener.py:44-85 | Fails exactly when `sender.user_id` is missing. Otherwise the plugin is the first call, and any reply is a well-formed `send_private_msg` to the sender. |
| `Router.ProcessGroup` | message_listener.py:87-135 | A missing `group_id` fails first, then a missing `sender.user_id`. Otherwise the setting lookup is the first call. It is the only call exactly when the group is disabled. Any reply is a well-formed `send_group_msg` to the group. |
| `Router.RouteFrame` | message_listener.py:28-37 | Text that is not an object raises. Only heartbeat frames reach the heartbeat handler. Errors arise only from message frames. Any reply is well formed. |
| `Router.HeartbeatOnlyRecorded` | message_listener.py:30-31 | A heartbeat frame is handed only to the heartbeat handler. It produces no action and no collaborator call. |
| `Router.OtherFrameDropped` | message_listener.py:30-37 | A frame that is neither a heartbeat meta event nor a private or group message is dropped with no action and no call. |
| `Router.MalformedFrameRaises` | message_listener.py:28-46 | Raises (is not skipped) for non-object text, and for a message frame that lacks the `group_id` or `sender.user_id` its handler indexes. |
| `Router.WellFormedMessageDispatched` | message_listener.py:32-37 | A private or group frame that carries the fields its handler reads is always dispatched. |
| `Router.DisabledGroupShortCircuits` | message_listener.py:95-98 | A group whose setting has `enabled` false gets no plugin call, no AI call and no action. The setting lookup is the only call. |
| `Router.MissingSettingEnables` | message_listener.py:95-101 | A group setting with no `enabled` key counts as enabled, so the plugin manager is consulted next. |
| `Router.PluginReplySent` | message_listener.py:53-64 | When a plugin handles the message with reply m, exactly one action is sent, to the message's own chat, with message m (empty included). The AI is not called. |
| `Router.PluginSuppresses` | message_listener.py:65-67 | When a plugin handles the message with reply `None`, no action is sent and the AI is not called. |
| `Router.AiFallback` | message_listener.py:69-85 | An unhandled message calls the AI exactly once with (`raw_message` or `''`, identity, group flag). A truthy answer gives one action to that chat. A falsy answer gives none. |
| `Router.PrivateAiScenario` | message_listener.py:44-85 | Worked case: user 42 sends "hi", no plugin handles it and the AI answers "hello". One `send_private_msg` to 42 with "hello" and echo `send_private_msg` is sent. |
| `Router.DisabledGroupScenario` | message_listener.py:87-98 | Worked case: group 100 is disabled. Nothing is sent and the setting lookup is the only call. |
| `Router.GroupPluginScenario` | message_listener.py:100-117 | Worked case: a plugin answers "pong" in enabled group 200. One `send_group_msg` to 200 is sent and the AI is never called. |
| `Listener.Replay` | message_listener.py:27-38 | The loop routes either all frames or, when a frame raises, stops there with fewer routed. It sends one action per recorded origin. |
| `Listener.AdvanceStep` | message_listener.py:28-37 | One loop iteration on a session that has not faulted appends the frame's reply, heartbeat and calls. The frame's error, if any, becomes the fault. |
| `Listener.AdvanceAppendsReply` | message_listener.py:28-37 | The same iteration counts the frame as routed unless it raises. It appends the frame's reply, if any, with that frame's position as its origin. A frame without a reply adds nothing. |
| `Listener.ReplayStopsAtFault` | message_listener.py:27-38 | After a frame raises, no later frame changes anything: no action, no heartbeat, no call. |
| `Listener.ReplayEndsAtFirstFault` | message_listener.py:27-38 | Every frame before the stopping point routes without error. The fault reported is the error of the frame at the stopping point. |
| `Listener.ReplayRepliesMatchFrames` | message_listener.py:28-37 | The j-th action sent is the reply that routing gives its triggering frame, and that frame was routed. |
| `Listener.ReplayRepliesInFrameOrder` | message_listener.py:28-37 | The triggering frames of the sent actions strictly increase. Replies are never reordered and no frame sends two. |
| `Listener.ReplayRepliesAllSent` | message_listener.py:28-37 | Every routed frame whose routing yields a reply has that reply sent. |
| `Listener.AtMostOneReplyPerFrame` | message_listener.py:44-135 | A connection never sends more actions than it has routed frames. |
| `Listener.SentActionsWellFormed` | message_listener.py:55-131 | Every action sent on a connection is well formed: `echo` equals `action`, and the action name matches its params. |
| `Listener.ReplayRecordsHeartbeats` | message_listener.py:30-31 | The heartbeat handler receives exactly the heartbeat frames among the routed ones, in order. |
| `Listener.ReplayRecordsCalls` | message_listener.py:28-37 | The collaborator trace is exactly the calls routing makes for each routed frame, concatenated in frame order, so no call is made for a frame that was not routed. |
| `Listener.WebSocket.Send` | message_listener.py:63 | Appends the action to what the socket has sent and changes nothing else. |
| `Listener.WebSocket.Close` | message_listener.py:42 | Closes the socket without sending anything. |
| `Listener.MessageListener.constructor` | message_listener.py:13-20 | A new listener has its configured path, no heartbeats and no consultations. |
| `Listener.MessageListener.Deliver` | message_listener.py:63-64 | Sends the dispatch's reply, if any, and adds its calls to the trace. Nothing else changes. |
| `Listener.MessageListener.Receive` | message_listener.py:29-37 | One received frame. Its raised error, the socket's new sends, the heartbeat record and the call trace are exactly those that `RouteFrame` gives the frame. The socket stays open. |
| `Listener.MessageListener.ReceiveNext` | message_listener.py:29-37 | If the socket and listener reflected a session before the frame, afterwards they reflect that session advanced by the frame. |
| `Listener.MessageListener.ReceiveAll` | message_listener.py:27-38 | The receive loop leaves on the socket, the heartbeat record and the trace exactly what `Replay` over the frames gives. It returns the error, if any, that ended it. |
| `Listener.MessageListener.Handler` | message_listener.py:22-42 | On another path: the socket is closed, with no plugin load, no frame routed and no state changed. On the configured path: plugins load once. The socket, heartbeat record, trace and raised error then equal those of `Replay` over the connection's frames. |

## Left out

- The WebSocket server, `asyncio`, `start`, `ws_handler` and `server.wait_closed` are network and event-loop plumbing. A connection is modelled as the finite sequence of frames received before it closed.
- A `ConnectionClosed` raised by `websocket.send` in the middle of a dispatch is not modelled. Sends always succeed, and closure shows only as the end of the frame sequence.
- JSON decoding and encoding are not modelled. Frames arrive as decoded field records and actions leave as values. A `post_type`, `meta_event_type` or `message_type` whose value is not a string is written as absent, because it compares unequal to every literal the router tests, exactly as an absent key does.
- Values of other JSON types in `raw_message`, `group_id` or `sender.user_id` (a `null` included) are outside the model. `rawMessage` holds a string or is absent, and the ids hold an integer or are absent. In the code, a present `null` `raw_message` reaches the AI as `None`, not `''`. A present `null` id is read without raising, whereas the model raises `MissingGroupId` or `MissingSenderUserId` only for an absent key.
- Connections are modelled one at a time. The websockets server runs one `handler` task per connection, and these tasks interleave at each `await`. `MessageListener.Handler` runs a connection as one uninterrupted step. Under concurrent connections, the shared heartbeat record and the call trace may interleave frames from several connections, and `Handler`'s postcondition describes only a connection that runs alone.
- `HeartbeatHandler` internals (its timer and `interval=300`) are not modelled. Only "the frame is appended to the record" is.
- `PluginManager` internals (loading, priority order, first match, plugin errors) are not part of this model. `handle_message` is an oracle and `load_plugins` is a `LoadPlugins` entry in the trace.
- `DifyClient.send_request` and `process_response` are remote HTTP calls. They are one oracle that returns an optional answer.
- `ConfigManager` storage is a lookup that returns the optional `enabled` flag, taken by its truth value.
- A handler that runs before `start` has set `heartbeat_handler` would fail on the first heartbeat. This is not modelled: the listener is assumed started.
- Logging is not modelled. It has no effect on routing.
