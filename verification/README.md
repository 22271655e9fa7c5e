# Dafny model of the INDI engine

This project models the parts of the engine where one claim depends on many steps, and proves those
claims for every input, every run and every graph.

**The INDI stream.** INDI has no length framing. `Scanners` and `Splitter` are the loops of
`transport.py`, over byte sequences, with the same branches and the same resume hint. They are proved
against `XmlStream`, an automaton that reads one byte at a time and never looks back. From that
automaton follow: independence of how the stream was cut into chunks, neutrality of the resume hint,
round trips for element trees (`Framing`), the moment at which a message is queued, isolation of
connections in the reader loop (`Transport`), and soundness of the text commands the client sends
(`Escaping`: framing and entities;
`CommandText`: what they say).

**The network of engines.** `SocketServer` is the server with its subscriptions, updated in place;
`ServerRuns` tells who gets a broadcast from everything that happened to a server before it.
`Network` is the step system of many such servers joined by subscriptions, and `Provenance` proves what
the only loop breaker, the engine's own id in the provenance, achieves: honest provenance, termination,
and exactly one broadcast per simple path, so that a message reaches exactly the reachable engines.
`Faults` keeps honesty and termination when copies are lost and connections break.

**The device model.** `IndiClient` is the client with its handlers, which update `IDevice` objects, the
known names (`KnownState`) and the state manager in place, and fire callbacks. `DeviceModel` holds the
functions the handlers are proved against. `ClientRuns` proves what holds after every sequence of
messages, commands and reconnections: the cache holds exactly what the last accepted messages brought,
and a listener to the callbacks can rebuild all three views. `ClientLaws` tells cache, state manager,
targets, roles and callbacks from the texts of the messages alone. On top are the update bus and `wait_for_state` (`UpdateBus`,
`Wakeups`), the script runner (`ScriptRunner`, `RunLifecycle`), the roles of a device (`Classifier`) and
the capture script with pause and resume (`CaptureFrame`).

`Bytes`, `Options` and `Properties` hold the shared data types.

## Where the code and its comments differ, or a promise fails

* `scan_from` is documented to spare examined bytes. The first loop of `_find_element_end` starts again
  at the element's '<' (`indi_engine/indi/protocol/transport.py:112-143`); neutrality is proved, not a
  saving.
* After a socket error the reader keeps its buffer (`indi_engine/indi/protocol/transport.py:391-395`).
  Isolation of connections then holds, whatever the next connection sends, exactly when the error does
  not interrupt a message (`Transport.ErrorHarmlessIffBetweenMessages`, `Transport.ErrorKeepsIsolationIff`);
  `Transport.ErrorMixesConnections` is a run that mixes two connections.
* Replies to a subscriber (acknowledgements, the snapshot) carry no provenance
  (`indi_engine/server/socket_server.py:128-154`), so the provenance of what a peer then passes on begins
  with the peer. Honesty is stated accordingly.
* The cached devices and the known names part on a reconnection, on BLOB data for an unknown device, and,
  for property names, on `delProperty`. The steps at which they part are characterised exactly
  (`ClientRuns.DevicesPartExactlyThen`, `ClientRuns.PropertiesPartExactlyThen`), and there is a run for each
  (`ClientRuns.ReconnectionParts`, `ClientRuns.ImageParts`, `ClientRuns.DeletionParts`).
* First definitions and BLOB data never notify the update bus. The absence of lost wakeups is proved for
  everything else, and exactly such a write, made while a waiter waits for it, is shown to strand the
  waiter (`Wakeups.StrandedExactlyBySilentWrite`, with a run in `Wakeups.StrandingRun`).
* A resume command of the capture script does not carry the tolerance and the timeout of the cooler wait
  (`scripts/builtin/capture_frame.py:78-80` against `152-165`), which the script reads only when a
  temperature is set. A resumed run goes on with the settings of the original exactly when no temperature
  is set or the two had their defaults (`CaptureFrame.ResumeIsFaithfulIff`); `CaptureFrame.ResumedRunAborts`
  is a chain whose second run aborts for that reason.

## Model

| member | source | states |
|---|---|---|
| Scanners.FindGt | indi_engine/indi/protocol/transport.py:40-60 | The result is the first '>' outside quoted strings, judged by an independent left-to-right quoting function; -1 exactly when there is none. |
| Scanners.FindTagGt | indi_engine/indi/protocol/transport.py:63-88 | The same for an opening tag; and the tag closes itself exactly when the byte before that '>' is a '/' inside the tag. |
| Scanners.OpenTag | indi_engine/indi/protocol/transport.py:177-187 | What one jump over an opening tag does is what the byte automaton does: unfinished, end of the element, same depth, or one deeper. |
| Scanners.CloseTag | indi_engine/indi/protocol/transport.py:166-175 | The same for a closing tag: the element ends exactly when the depth falls to 0. |
| Scanners.CommentSkip | indi_engine/indi/protocol/transport.py:150-156 | Jumping to the first "-->" from four bytes on is what the automaton does inside a comment. |
| Scanners.PiSkip | indi_engine/indi/protocol/transport.py:158-164 | The same for a processing instruction and "?>". |
| Scanners.Rescan | indi_engine/indi/protocol/transport.py:110-143 | The first loop either finds the true end of the element or stops at a position and depth that the automaton also has, for any `scan_from`. |
| Scanners.FindElementEnd | indi_engine/indi/protocol/transport.py:91-189 | For any `scan_from`: complete exactly when the automaton finishes the element within the buffer, and then the end is where it does. |
| Splitter.ResumeHintIsNeutral | indi_engine/indi/protocol/transport.py:106-143 | Two scans of one element with any two hints agree on completeness and, when complete, on the end. |
| Splitter.SplitXmlMessages | indi_engine/indi/protocol/transport.py:192-226 | For any buffer, malformed ones included, and any hint: the messages and the remainder are those of the byte automaton; the new hint lies within the remainder. |
| XmlStream.FeedAppend | indi_engine/indi/protocol/transport.py:377-382 | Reading a stream in two parts gives the same state and the same messages as reading it at once. |
| XmlStream.RemainderSuffices | indi_engine/indi/protocol/transport.py:377-382 | Keeping only the remainder loses nothing: the messages and remainder of the whole stream follow from it and the next bytes. |
| XmlStream.MessagesAreSlices | indi_engine/indi/protocol/transport.py:216-224 | Every message is a contiguous piece of the stream, and the remainder is its end. |
| Splitter.ChunkingInvariance | indi_engine/indi/protocol/transport.py:353-385 | For every stream and every way of cutting it into chunks, threading the buffer through the splitter queues the messages, and keeps the remainder, of one call on the whole stream. |
| Transport.IndiTransport.HandleDisconnection | indi_engine/indi/protocol/transport.py:402-440 | The delay doubles up to the maximum on failure and returns to the minimum on success. |
| Transport.IndiTransport.ReaderLoop | indi_engine/indi/protocol/transport.py:347-400 | For every sequence of turns (lost connection, data, end of file, timeout, error, each with a successful or failed reconnection): connection, buffer and queue are those of the turn function about which isolation is proved. |
| Transport.ConnectedAsTurnsSay | indi_engine/indi/protocol/transport.py:356-395 | After any turns the reader is connected exactly if the last reconnection that was called for (no connection, lost, end of file, error) succeeded. |
| Transport.PerConnectionIsolation | indi_engine/indi/protocol/transport.py:356-374 | On every run in which no error carries an unfinished message over: the queue is the concatenation of the messages of each connection's own bytes, and the buffer is the remainder of the present one's, where connections and their bytes are told from the turns alone. |
| Transport.NewConnectionIsHeard | indi_engine/indi/protocol/transport.py:358-385 | However a connection ended, what the next one sends first is queued, on its own, unless an error carried a message over. |
| Transport.QueuedFromOneConnection | indi_engine/indi/protocol/transport.py:377-385 | On those runs every queued message is a contiguous piece of the bytes of one connection. |
| Transport.ErrorHarmlessIffBetweenMessages | indi_engine/indi/protocol/transport.py:391-395 | The kept buffer leaves the messages of every possible next stream alone if and only if it is empty. |
| Transport.ErrorKeepsIsolationIff | indi_engine/indi/protocol/transport.py:391-395 | On an isolated run, an error with an immediate reconnection keeps isolation for every first data of the next connection if and only if it does not interrupt a message. |
| Transport.ErrorMixesConnections | indi_engine/indi/protocol/transport.py:391-395 | A run on which isolation fails: a '<' from the first connection is queued in front of the second one's message. |
| Framing.NodeLeads | indi_engine/indi/protocol/transport.py:145-187 | Inside an element, any printed node (text, comment, instruction, empty or nested element, attribute values with '>', '/>' or '<') brings the automaton back to character data at the same depth. |
| Framing.ElementIsMessage | indi_engine/indi/protocol/transport.py:91-189 | A printed element is exactly one message, itself. |
| Framing.FramingRoundTrip | indi_engine/indi/protocol/transport.py:192-226 | Splitting any list of printed elements with '<'-free separators gives back exactly the printed elements and an empty remainder. |
| Framing.ProperPrefixIsSilent | indi_engine/indi/protocol/transport.py:145-189 | No proper prefix of a printed element completes a message. |
| Framing.EmissionIsExact | indi_engine/indi/protocol/transport.py:216-224 | After any number of bytes of a printed list, the messages are the elements whose last byte has arrived. |
| Framing.ChunkedEmissionIsExact | indi_engine/indi/protocol/transport.py:377-385 | In any chunked feed each message is queued with the chunk that delivers its last byte, never earlier or later. |
| Escaping.EscapeIsOnePass | indi_engine/indi/protocol/client.py:555-563 | The five successive global replacements are one pass of a byte-wise map. |
| Escaping.DecodeEscape | indi_engine/indi/protocol/client.py:555-563 | Decoding the predefined entities undoes the escaping, for every text. |
| Escaping.EscapedIsPlain | indi_engine/indi/protocol/client.py:555-563 | Escaped text holds no '<', '>' or quote. |
| CommandText.EntityTexts | indi_engine/indi/protocol/client.py:558-562 | The five entities, spelled out. |
| Escaping.NewTextIsOneMessage | indi_engine/indi/protocol/client.py:257-261 | For arbitrary text values, and names without a double quote, the command for a whole property is framed as exactly one message, itself. |
| Escaping.NewTextForOneIsOneMessage | indi_engine/indi/protocol/client.py:241-246 | The same for the command for one element. |
| CommandText.NewTextSays | indi_engine/indi/protocol/client.py:257-261 | Read by its quotes, the command for a whole property says device, property and element names in that order; and outside quotes, the markup with each element's escaped value in its place. |
| CommandText.NewTextForOneSays | indi_engine/indi/protocol/client.py:241-246 | The same for the command for one element. |
| SocketServer.Server.Accept | indi_engine/server/socket_server.py:119-120 | A new connection has no subscriptions; the others are unchanged. |
| SocketServer.Server.Close | indi_engine/server/socket_server.py:185-187 | The connection and its subscriptions are gone; the others are unchanged. |
| SocketServer.Server.Subscribe | indi_engine/server/socket_server.py:323-338 | The subscription is added, for a known connection only; the acknowledgement and the snapshot go to that connection alone, in order, up to where it fails. |
| SocketServer.Server.Unsubscribe | indi_engine/server/socket_server.py:339-343 | The subscription is removed, whether it was there or not, and acknowledged. |
| SocketServer.Server.PassesFilter | indi_engine/server/socket_server.py:412-421 | The chain of tests lets through exactly a connection that is not excluded and wants all messages, or the message's device. |
| SocketServer.Server.Broadcast | indi_engine/server/socket_server.py:386-430 | Each working target gets the message once, with the engine's id appended; the targets that fail are removed; nothing else is sent or removed. |
| SocketServer.Server.ReceivePeerMessage | indi_engine/server/socket_server.py:432-442 | Nothing happens when the engine's own id is in the provenance; otherwise the message is broadcast as above. |
| ServerRuns.Perform | indi_engine/server/socket_server.py:113-192 | After every operation the table holds exactly the connections and subscriptions that the history tells. |
| ServerRuns.PublishAfter | indi_engine/server/socket_server.py:386-430 | After any history, a broadcast goes once to each working, not excluded connection that is subscribed to all messages or to the message's device, and to no other (so one without a device only to the former); device and body arrive unchanged, the provenance with the engine's id added. |
| ServerRuns.SubscribingIff | indi_engine/server/socket_server.py:333-343 | A connection is subscribed to a key exactly if it subscribed to it while open and has since neither unsubscribed from it, nor closed, nor been accepted anew, nor been found broken. |
| ServerRuns.AllMeansAll | indi_engine/server/socket_server.py:389-393 | A connection subscribed to all messages is due every message, of any device and of none, until one of those happens. |
| Provenance.BroadcastingIsServerBroadcast | indi_engine/server/socket_server.py:398-426 | A broadcasting step of the network sends one copy to each connection that the server's broadcast targets, with the provenance it stamps. |
| Provenance.ReplyIsServerReply | indi_engine/server/socket_server.py:337-338 | A replying step of the network puts in flight what the server's subscription sends: no provenance, to the subscriber. |
| Network.FanoutIsEdges | indi_engine/server/socket_server.py:409-423 | The copies a broadcast puts in flight are one per edge that admits the message's device. |
| Network.DeliverKeepsHonest | indi_engine/server/socket_server.py:432-442 | Delivering any copy keeps the invariant: every broadcast provenance is a route and extends one broadcast before, and every broadcast has been passed on along each edge, is on its way there, or need not be. |
| Network.RunIsHonest | indi_engine/network/peer.py:117-130 | That invariant holds after every run, on every graph, with any number of messages at once. |
| Provenance.ProvenanceIsHonest | indi_engine/server/socket_server.py:398-402 | In every reachable state each provenance names its origin first and then pairwise distinct engines joined by real subscriptions that admit the message; replies are covered. |
| Provenance.HonestIsProduced | indi_engine/server/socket_server.py:438-442 | Conversely, for every provenance that reads as honest there is a run on which it is broadcast. |
| Provenance.TruthIsRoute | indi_engine/server/socket_server.py:438-442 | Reading a provenance off (origin first, distinct engines, real edges) and building it hop by hop describe the same lists. |
| Provenance.DeliveryDecreases | indi_engine/server/socket_server.py:438-442 | On every graph, cycles and diamonds included, and whatever part of its links is left, each delivery strictly decreases the weight of the copies in flight. |
| Provenance.Quiesces | indi_engine/server/socket_server.py:438-442 | From any reachable state, with nothing new published, at most that weight of deliveries can follow. |
| Provenance.PublishingIsBounded | indi_engine/server/socket_server.py:398-402 | After one broadcast into a quiet network, the number of deliveries that can follow, in any order, is bounded by the size of the graph alone. |
| Provenance.OneBroadcastPerSimplePath | indi_engine/server/socket_server.py:398-442 | With at most one connection between two engines, once nothing is in flight each simple path from the origin along admitting edges has been broadcast exactly once, and nothing else has. |
| Provenance.WalkToRoute | indi_engine/server/socket_server.py:438-442 | Every walk along admitting edges can be shortened to a route with the same end. |
| Provenance.BroadcastByExactlyTheReachable | indi_engine/server/socket_server.py:398-442 | Once nothing is in flight, the engines that have broadcast a message are exactly those reachable from its origin. |
| Faults.FaultyRunIsSound | indi_engine/server/socket_server.py:424-430 | Losing copies and removing dead connections keeps every broadcast provenance a route, and every copy on its way along an edge, of the graph as it was. |
| Faults.HonestDespiteFaults | indi_engine/server/socket_server.py:424-430 | Provenance stays honest on every run with any losses and any broken connections. |
| Faults.QuiescesDespiteFaults | indi_engine/server/socket_server.py:424-430 | With nothing new published, only a bounded number of deliveries, losses and broken connections can follow. |
| Properties.CreateElements | indi_engine/indi/protocol/parser.py:286-305 | The loop raises exactly when a number element has a malformed minimum, maximum or step, and otherwise makes every element of the message. |
| Properties.CreateProperty | indi_engine/indi/protocol/parser.py:253-307 | Nothing without both names, an exception exactly when a number element has a limit that is not a number, and otherwise the property whose elements have the message's values, labels and formats; empty properties count as false for the callers. |
| Properties.TextsAreRead | indi_engine/indi/protocol/parser.py:23-28 | Each text of the protocol for a state, a permission or a rule is read as what it stands for. |
| Properties.OtherTextsAreDefaults | indi_engine/indi/protocol/parser.py:266-270 | Any other text, or none, is read as the default. |
| Properties.AnnouncementRoundTrip | indi_engine/indi/protocol/parser.py:253-307 | For every property a driver may have, the property made from the message that announces it, by a def or a set, is that property. |
| Classifier.MatchesSome | indi_engine/indi/device_classifier.py:72-75 | The inner loop finds out whether some signature is included in the names. |
| Classifier.ClassifyDevice | indi_engine/indi/device_classifier.py:58-76 | The loops compute the list that the next two rows are about. |
| Classifier.ClassifyIsExact | indi_engine/indi/device_classifier.py:58-76 | The result holds exactly the roles that some signature identifies, each once, in canonical order, at most 8. |
| Classifier.ClassifyMonotone | indi_engine/indi/device_classifier.py:70-76 | More property names never lose a role; if the list changes it gets strictly longer. |
| Classifier.RolesByName | indi_engine/indi/device_classifier.py:18-49 | Each role, spelled out by the property names that give it. |
| KnownState.KnownNames.GetDeviceChange | indi_engine/indi/protocol/state.py:41-57 | New exactly for a named device that is not known. |
| KnownState.KnownNames.GetPropertyChange | indi_engine/indi/protocol/state.py:59-99 | The change that the handlers' specification assumes, for every message. |
| KnownState.KnownNames.AddDevice | indi_engine/indi/protocol/state.py:101-105 | The device becomes known; its properties, if any, stay; devices and dictionary keys keep agreeing. |
| KnownState.KnownNames.AddProperty | indi_engine/indi/protocol/state.py:107-111 | The property becomes known, and its device with it; the same agreement is kept. |
| KnownState.KnownNames.RemoveProperty | indi_engine/indi/protocol/state.py:113-116 | Exactly that property is forgotten. |
| KnownState.KnownNames.RemoveDevice | indi_engine/indi/protocol/state.py:118-122 | The device and all its properties are forgotten, and nothing else. |
| IndiClient.Device.AddMessage | indi_engine/indi/protocol/properties.py:335-337 | The message is added at the end of this device object's messages; nothing else of it changes. |
| IndiClient.StateManager.Update | indi_engine/state/manager.py:12-14 | Exactly the values of that property of that device are replaced. |
| IndiClient.Client.ConnectServer | indi_engine/indi/protocol/client.py:78-80 | The cache is emptied; the known names and the state manager stay. |
| IndiClient.Client.HandleMessage | indi_engine/indi/protocol/client.py:388-411 | For every message, the new cache, known names, stored values and callbacks are those of the specification that the run theorems are about; no other cached device object changes. |
| IndiClient.Client.HandleMessageEvent | indi_engine/indi/protocol/client.py:413-427 | A message without a device is announced as universal, one for a cached device is added to it and announced, any other is dropped. |
| IndiClient.Client.HandleDefProperty | indi_engine/indi/protocol/client.py:429-462 | Introduces the device before the property is made, so an unusable property still introduces it; then caches the property and announces it as new or updated by the names known before. |
| IndiClient.Client.HandleSetProperty | indi_engine/indi/protocol/client.py:464-482 | Only a known property is updated, in cache and state manager; the object is replaced. |
| IndiClient.Client.HandleSetBlobVector | indi_engine/indi/protocol/client.py:484-499 | BLOB data makes its property known, replaces the cached one, leaves the state manager alone. |
| IndiClient.Client.HandleDelPropertyMessage | indi_engine/indi/protocol/client.py:501-510 | A known property is forgotten and announced; the cached device keeps it. |
| IndiClient.Client.HandleDelDeviceMessage | indi_engine/indi/protocol/client.py:512-519 | A cached device is dropped from cache and known names and announced; an uncached one is left known. |
| IndiClient.Client.UpdateStateManager | indi_engine/indi/protocol/client.py:521-529 | The values are stored, if there is a state manager. |
| IndiClient.Client.FireNewProperty | indi_engine/main.py:129-147 | After the property, the roles of its cached device are announced exactly when they have changed. |
| IndiClient.Client.SetTargets | indi_engine/indi/protocol/client.py:249-256 | A command changes the targets of the cached elements it names and nothing else. |
| IndiClient.TargetsSet | indi_engine/indi/protocol/client.py:250-256 | The loop sets the target of exactly the elements that are both commanded and cached. |
| ClientRuns.ViewsStayNested | indi_engine/indi/protocol/client.py:429-519 | In every reachable state: known devices are the keys of the known properties, cached devices are known, each cached device holds every known property of it, and none that is empty or misfiled. |
| ClientRuns.CallbacksFollowTheProtocol | indi_engine/indi/protocol/client.py:429-519 | On every run, across reconnections: newDevice and removeDevice alternate; newProperty comes only for unknown, updateProperty and removeProperty only for known properties, as the earlier callbacks tell it; and the callbacks tell exactly what is known. |
| ClientRuns.CacheHoldsLastAccepted | indi_engine/indi/protocol/client.py:429-499 | The cache refines the message history: on every run a cached device has a property exactly if a def, set or setBLOB message with it was accepted since the device appeared, and it is then, but for commanded targets, the one made from the last of them. |
| ClientRuns.CacheMirrorsCallbacks | indi_engine/indi/protocol/client.py:450-499 | On every run the cache is also, but for commanded targets, what a listener rebuilds from the property objects that the callbacks hand out. |
| ClientRuns.StateManagerHoldsCachedValues | indi_engine/indi/protocol/client.py:521-545 | On every run the state manager holds the element values of each cached property whose last data was not a BLOB. |
| ClientRuns.AcceptedExactlyWhenKnown | indi_engine/indi/protocol/client.py:388-519 | For every message, usable or not, in every reachable state: the property callbacks it fires are exactly the one it calls for, with the property made from it, or none; and whether its property counts as known is what the callbacks so far tell. |
| ClientLaws.CacheReadsLikeLastMessage | indi_engine/indi/protocol/client.py:443-496 | On every run a cached property has the names, kind, labels and element values written in the last message accepted for it, and is cached exactly if there is one. |
| ClientLaws.StoreHoldsLastTexts | indi_engine/indi/protocol/client.py:521-545 | On every run the state manager holds, for each property and element, the value text of the last message accepted that was not a setBLOB, and nothing else; reconnections and deletions do not change it. |
| ClientLaws.TargetsAreLastCommanded | indi_engine/indi/protocol/client.py:249-256 | On every run the target of a cached element is the value last commanded for it since its property was last received, or none. |
| ClientLaws.MessagesAreLastTexts | indi_engine/indi/protocol/client.py:423-427 | On every run the messages of a cached device are the texts received for it since it appeared, in order. |
| ClientLaws.RolesAreCurrent | indi_engine/main.py:135-147 | On every run the roles of a cached device, and those last announced for it, are the roles of its property names at the last new definition: none is missing or late. |
| ClientLaws.FiresExactly | indi_engine/indi/protocol/client.py:388-519 | For every message in every reachable state: exactly which callbacks and role announcements it causes, in which order, and no others. |
| ClientRuns.RolesGrow | indi_engine/main.py:135-147 | Each announcement of a device's roles keeps the roles announced before and adds some. |
| ClientRuns.AtMostEightRoleAnnouncements | indi_engine/main.py:135-147 | On every run the roles of one device object are announced at most eight times. |
| ClientRuns.DevicesPartExactlyThen | indi_engine/indi/protocol/client.py:78-80 | Cached and known devices go on agreeing in every step but a reconnection with a non-empty cache and BLOB data for an unknown device. |
| ClientRuns.CachedAreTheKnownDevices | indi_engine/indi/protocol/client.py:429-519 | The cached devices have been the known ones all along a run if and only if it has no such step. |
| ClientRuns.ReconnectionParts | indi_engine/indi/protocol/client.py:78-80 | A run on which a device is known but no longer cached, after a reconnection. |
| ClientRuns.ImageParts | indi_engine/indi/protocol/client.py:493-498 | A run on which BLOB data makes a device known that is not cached. |
| ClientRuns.PropertiesPartExactlyThen | indi_engine/indi/protocol/client.py:501-510 | Cached and known properties go on agreeing in every step but those and the deletion of a known property. |
| ClientRuns.CachedAreTheKnownProperties | indi_engine/indi/protocol/client.py:429-519 | The cached property names have been the known ones all along a run if and only if it has no such step. |
| ClientRuns.DeletionParts | indi_engine/indi/protocol/client.py:506-510 | A run on which a property is cached but no longer known, after its deletion. |
| UpdateBus.Bus.Subscribe | indi_engine/scripting/api.py:61-64 | The callback is added at the end. |
| UpdateBus.Bus.Unsubscribe | indi_engine/scripting/api.py:66-71 | The first occurrence is removed; a second removal, or a stranger's, changes nothing. |
| UpdateBus.Bus.Notify | indi_engine/scripting/api.py:51-59 | Exactly the events of the callbacks whose property and target state match become set; set ones stay set. |
| Wakeups.NoLostWakeup | indi_engine/scripting/api.py:278-307 | Over every interleaving of the reader and any number of waiters: a waiter past its check whose target state is cached has been woken, or a notification that reaches it is pending, unless the cache was last written without one. |
| Wakeups.PendingArrives | indi_engine/scripting/api.py:51-59 | Under any steps of other waiters, further updates and cache clears: until its waiter leaves, a pending notification stays pending or has woken it, and once the reader has been at rest, it has woken it. |
| Wakeups.FanOutWakes | indi_engine/scripting/api.py:53-59 | The reader's own steps suffice to finish a notification and wake its waiter. |
| Wakeups.SuccessIsReal | indi_engine/scripting/api.py:280-307 | On every run, a wait that returns True has a step at which it checked the cache and the target was there, or at which the reader took the subscribers for an update to the target and it was among them. |
| Wakeups.FailureIsGivingUp | indi_engine/scripting/api.py:294-305 | On every run, a wait that returns False has a step at which it gave up while waiting. |
| Wakeups.PatienceIsRewarded | indi_engine/scripting/api.py:285-307 | Under any steps of others: a waiter with a pending notification that does not give up never fails; once the reader has been at rest it is woken, and its next two steps return True. |
| Wakeups.CacheHoldsLastWrite | indi_engine/indi/protocol/client.py:476-482 | On every run the cached state is that of the last write, and it counts as silent exactly if that write was. |
| Wakeups.StrandedExactlyBySilentWrite | indi_engine/main.py:204-208 | A step leaves a waiter past its check with its target cached, not woken and with nothing on the way, if and only if it is a first definition or BLOB data in its target state while it waits and the reader rests. |
| Wakeups.StrandedStays | indi_engine/scripting/api.py:293-303 | It stays so through every step but its own giving up and steps that write or forget its property. |
| Wakeups.StrandingRun | indi_engine/main.py:204-208 | A run that strands a waiter: it enters, subscribes, checks, and then its property is first defined in the target state. |
| CaptureFrame.ScriptApi.Checkpoint | indi_engine/scripting/api.py:227-246 | Cancellation wins and stores nothing; otherwise the parameters are stored, and either kind of pause ends the run with them. |
| CaptureFrame.ScriptApi.Command | indi_engine/scripting/api.py:382-384 | Refused after cancellation, failing without a connection, blind to pauses. |
| CaptureFrame.ScriptApi.Wait | indi_engine/scripting/api.py:292-307 | Requests are seen only while polling; an immediate pause ends the run with the last checkpoint; a deferred one is not seen. |
| CaptureFrame.CaptureOne | scripts/builtin/capture_frame.py:149-220 | A frame is captured only if the exposure was sent and its Ok was reached; without requests it is captured exactly then, and otherwise the turn ends as timed out or failed; a cancellation or pause at a checkpoint takes effect there, and a pause resumes with exactly the frames not yet captured. |
| CaptureFrame.Capture | scripts/builtin/capture_frame.py:148-222 | For all outcomes of all calls: every frame counted was exposed and reached Ok; finished means every frame; paused in the loop means frames captured plus frames in the resume command make the count, and at least one is left; timed out, cancelled or failed means fewer; without requests the run ends at the first frame that does not succeed. |
| CaptureFrame.ChainConservesFrames | scripts/builtin/capture_frame.py:150-216 | Over any chain of runs, each started from the one before's resume command: frames captured and frames left make the original count; a chain that finishes captures exactly that. |
| CaptureFrame.CoolerWait | scripts/builtin/capture_frame.py:86-106 | The wait succeeds if and only if some reading taken before the timeout is within the tolerance, and stops at the first such reading. |
| CaptureFrame.DefaultCoolerWait | scripts/builtin/capture_frame.py:78-91 | With nothing but a temperature given, a run gets past the wait if and only if one of the first sixty readings is within half a degree. |
| CaptureFrame.ResumedRunsKeepTheRest | scripts/builtin/capture_frame.py:152-165 | However often it is resumed, a run finds every parameter of the original but those of the cooler wait, which are back at their defaults, and has between 1 and the original number of frames to do. |
| CaptureFrame.ResumeIsFaithfulIff | scripts/builtin/capture_frame.py:78-80 | A resumed run looks at the same parameters and finds the same values as the original, in all but the count, if and only if no temperature is set or tolerance and timeout had their defaults. |
| CaptureFrame.ResumedRunAborts | scripts/builtin/capture_frame.py:101-106 | A chain of two runs under the same readings: the original gets past the cooler wait and the resumed run does not. |
| ScriptRunner.Runner.Run | indi_engine/scripting/runner.py:104-109 | The run is entered in the table with no request set, and announced as running. |
| ScriptRunner.Runner.Cancel | indi_engine/scripting/runner.py:123-135 | Succeeds exactly for a run in the table, and sets only its cancel request. |
| ScriptRunner.Runner.Pause | indi_engine/scripting/runner.py:137-158 | Succeeds exactly for a run in the table, and sets only the one kind of pause asked for. |
| ScriptRunner.Runner.RegisterBlobDevice | indi_engine/scripting/runner.py:160-168 | The device belongs to that run from now on, whoever had it before. |
| ScriptRunner.Runner.ReleaseDevices | indi_engine/scripting/runner.py:232-235 | Collecting and deleting removes exactly the entries that the run still owns; a device another run has taken over stays. |
| ScriptRunner.Runner.OnDone | indi_engine/scripting/runner.py:229-262 | Table, registry and the one final status that its outcome calls for, with the resume command of a pause. |
| RunLifecycle.StatusTraceOfEveryRun | indi_engine/scripting/runner.py:92-121 | Over every interleaving of concurrent runs and requests: the statuses of a run are one or more running, then exactly the one final status of its outcome, and nothing after. |
| RunLifecycle.DevicesBelongToLiveRuns | indi_engine/scripting/runner.py:160-168 | Over every interleaving, each registry entry belongs to a run that is executing or not yet cleaned up. |
| RunLifecycle.RequestsFindLiveRuns | indi_engine/scripting/runner.py:130-153 | Over every interleaving, a request finds exactly the runs that have been entered and not yet taken out. |
| RunLifecycle.ReportedIsFinal | indi_engine/scripting/runner.py:229-262 | Whatever happens after a run's final status, its statuses stay, it is not in the table, and it owns no device. |
| RunLifecycle.LastStatusTellsOutcome | indi_engine/scripting/runner.py:236-262 | The last status of a run tells how its script ended in the run's own steps; the resume command of a paused one carries the name it was run under and the parameters it paused with. |
| RunLifecycle.OneStatusEach | indi_engine/scripting/runner.py:107-114 | Over every interleaving, each announcement, log message and report of a run is broadcast as exactly one status of it. |
| RunLifecycle.FlagsAreRequests | indi_engine/scripting/runner.py:123-158 | Over every interleaving, the three flags of a run in the table are exactly the requests of each kind made for it. |
| RunLifecycle.RegistryHoldsLastClaims | indi_engine/scripting/runner.py:160-168 | Over every interleaving, a device belongs to the run that last claimed it and has not been cleaned up since, with what it claimed it for. |

## Left out

- Sockets, threads, `select`, mDNS, subprocesses and YAML: they appear as nondeterministic outcomes of
  steps (data, end of file, error, a connection that works or fails), or not at all.
- ElementTree, base64, JSON, RestrictedPython, the script registry and file handling: library code. The
  device model starts from parsed messages, the network from whole messages on links.
- CDATA and DOCTYPE, which the splitter treats as opening tags, and comments or instructions at top level,
  which it joins to the following element, are covered by the stream theorems and not by the round trip.
- Scanners.Rescan: the first loop is a method of its own, called by `FindElementEnd`; no bound on the work
  that the resume hint saves is claimed, since the loop starts again each time.
- Transport.IndiTransport.ReaderLoop: the stop event is seen only between turns, and a connection lost
  while `recv` is under way is seen at the next turn, as in the code's own check. The branch for other
  exceptions (`indi_engine/indi/protocol/transport.py:397-400`) behaves as the error branch.
- Escaping.NewTextIsOneMessage: text is taken as its UTF-8 bytes, in which no other character contains an
  ASCII byte. The number, switch and BLOB commands are not printed.
- Escaping.NewTextForOneIsOneMessage: the same.
- SocketServer.Server.Broadcast: connections are served in any order, which covers dictionary order, and a
  call is one step; a connection that subscribes or leaves meanwhile is not seen.
- SocketServer.Server.Subscribe: one step as well; how fresh the snapshot is against concurrent broadcasts
  is not modelled.
- Network.RunIsHonest: copies may be delivered in any order, which includes what first-in first-out links
  and senders that pause between connections can do. Subscriptions are not added during a run, and the
  reconnection loop of peers is not modelled.
- Provenance.OneBroadcastPerSimplePath: what reaches whom is stated for links that lose nothing; with
  losses only what `Faults` states is left.
- IndiClient.Client.HandleMessage: properties and elements are values, so that a property object handed to
  a callback and later changed through the cache is not captured; device objects are updated in place.
  Handlers are single steps and callbacks return.
- IndiClient.Client.ConnectServer: only the emptying of the cache; a second message loop after a second
  connection is not modelled.
- Wakeups.NoLostWakeup: stated for `wait_for_state`; `wait_for_value` has the same shape. Deadlines,
  cancellation and pauses are one step that can happen whenever a waiter waits.
- CaptureFrame.Capture: the part before the loop is one outcome; what the metadata of frames says is not
  modelled.
- CaptureFrame.CoolerWait: modelled apart from `Capture`, with exact numbers, and without requests, which
  end it as they end any wait.
- ScriptRunner.Runner.Run: loading and compiling the script, and the executor with its shutdown, are not
  modelled; run ids are not reused.
- ScriptRunner.Runner.OnDone: stated without interruption; `RunLifecycle` interleaves its three parts.
- `FrameStore`, server managers, `cli.py`, serializers and the typed property wrappers: thin or input and
  output.
