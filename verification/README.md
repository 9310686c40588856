# GoHab: the server's indexes, the client library, and what connects them

GoHab's server routes messages between devices. It keeps four structures that index each other: a
registry of connected clients, a broker that maps topics to subscriber sets, a routing table that maps
topics to the device that owns them, and each client's own metadata (`Features`, `Subs`). Many
connections update them at once, each structure behind its own lock. At the other end of a connection
the client library matches responses to queries with one-shot channels and resubscribes after every
reconnect. This project models both ends, the links between them, the LoRa radio's packet format and
queue, and the web client's event-stream refcount, and proves what holds over every input and every run.

## How it is organised

| files | what they hold |
|---|---|
| `Json.dfy` | JSON text: a parser, decoding of subscription payloads, their encoding, and text put together without escaping |
| `Proto.dfy` | messages, features, and feature validation against a quantified specification |
| `ServerState.dfy` | what each handler does to the four structures, as functions; their agreement |
| `ServerInFull.dfy` | the same handlers said entry by entry and field by field, without those functions |
| `ServerObjects.dfy`, `TcpTransport.dfy`, `FeatureService.dfy` | the classes of the server; every method is proved against those functions and against the exact set of clients it sends to |
| `Relational.dfy` | the abstract machine (live clients, Sub relation, partial Owner function) that the handlers refine, dangling routes included |
| `Interleaving.dfy`, `InterleavingProofs.dfy`, `InterleavingTheorems.dfy` | any number of TCP or WebSocket connections, one program counter each, interleaved at the critical sections |
| `Uninterrupted.dfy`, `Sends.dfy` | those critical sections, run without interruption, are the handlers of `ServerState.dfy` and write to exactly whom they should |
| `ExactRoutes.dfy`, `Delivery.dfy` | when the routing table is the inverse of the declarations, and the delivery trace, on the same interleaved runs |
| `Reconnect.dfy` | a concrete run: a device that reconnects too early loses its route |
| `LockOrder.dfy` | what every handler and read service does to locks and structures; no deadlock, progress, and which accesses a lock guards |
| `Matcher.dfy`, `ClientLibrary.dfy` | concurrent `SendQuery` calls against the read loop; the library's mutable fields, tied to the matcher step by step |
| `Correlation.dfy`, `CorrelationTheorems.dfy` | queries from end to end: clients, FIFO links, server |
| `ServerRuns.dfy`, `Convergence.dfy` | one client's subscriptions across reconnects while all others move freely |
| `Radio.dfy` | LoRa framing and the bounded receive queue |
| `Sse.dfy`, `WebClient.dfy` | the web client's event streams |
| `Counterexamples.dfy` | concrete states and inputs at which a property fails once a hypothesis is dropped |

A run predicate never assumes its invariant: a step of a run is the defined next state wherever that is
defined, and that it is defined in every reachable state is part of what the run lemmas prove.

## Hypotheses

- Client ids are fresh (`RegisterSparesOthersExactly`, `SharedIdHidesClient`), and a client object registers once, as a new TCP or
  WebSocket connection does.
- A connection's messages and its disconnect run one after the other, as in `handleConnection`.
- Sends to one client are serialised. `TCPClient.Send` writes each message in one call; `WSClient.Send`
  has no lock of its own, and two fan-outs may write to the same WebSocket at once
  (server/wsClient.go:21-38), which its library does not allow.
- No dangling route: an identify that takes effect declares every topic its connection owns. This is exact
  (`IdentifyConsistentExactly`, `DisciplineIsExact`, `InvThroughoutExactly`), registry and broker do not need
  it (`StoredAreAlive`, `GoneIsUnlisted`, `QuiescentIsAgreed`), and runs in which declarations only grow meet it
  (`SupersetsAreDisciplined`). The code never retracts a route on a second identify
  (`ShrinkingIdentifyDangles`).
- The inverse index: no claim and no release is disputed. This is exact (`NextOwnsExactly`,
  `OwnedThroughoutExactly`). Disjoint declarations are enough (`DisjointRunsAreUndisputed`); a topic shared
  by two devices, or a device that reconnects before its old connection is gone, is a dispute
  (`SharedNameLosesRoute`, `ReconnectLosesRoute`). Nothing else needs this.
- The matcher: a call starts with an id that no unfinished call has. This is exact (`NextExactly`,
  `EntriesStayThroughoutExactly`, `CollidingIdsOrphanACall`). That no response finds its channel closed or full needs no
  hypothesis at all.
- Correlation from end to end: clients follow this library and correlation ids are never used again
  (`ReusedIdTakesLateAnswer`). Routing table and registry may change in any way at any time.
- Convergence: none on the schedule. Where races go wrong is exact (`AgreesThroughoutExactly`):
  a resubscription with a topic whose handler went away after the topics were collected
  (`RacingUnsubscribeComesBack`), overlapping calls on one topic that write in the other order
  (`OverlappingCallsDisagree`), and an Unsubscribe that finds the Connected flag not yet set and sends nothing
  after a late Subscribe went out on the new link (`UnsentUnsubscribeStays`). Calls on one topic that do not
  overlap win the second race (`ApartCallsWin`).
- Event streams: opening and closing are atomic steps, and the web client is registered. Topics are Go
  strings of any bytes; streams on topics that are not valid UTF-8 or need JSON escaping break the refcount,
  and no others do (`CountedThroughoutExactly`, `BrokenTopicUnsubscribed`, `TwoInOneSubscribesBoth`,
  `NotUtf8SubscribesElsewhere`).
- Radio: the queue theorem is about a running radio; the length byte makes 255 the exact bound on
  addresses (`RoundTripExactly`, `LongAddressMisparses`).

## Where code and documentation disagree

The error text of `Feature.Validate` speaks of 64 characters (proto/capability.go:57); the code counts
bytes of UTF-8 (line 56), and so does the model.

The comment on a feature's methods says that topics are generated as name/method (proto/capability.go:12);
the code routes by the feature's name alone (server/server.go:193, 286), and so does the model.

## Model

| member | source | states |
|---|---|---|
| Proto.TrimSpaceEmpty | proto/capability.go:38 | The blank-name test rejects exactly the names made of white space only |
| Proto.ValidateName | proto/capability.go:38-58 | Accepts exactly the good names (non-blank, no `/`, none of the five forbidden characters, at most 64 bytes); the reported error is that of the first failing check, and the first forbidden character in the list is the one named |
| Proto.ValidateDataType | proto/capability.go:110-121 | Accepts exactly the five types, a non-empty enum, and a range of no or two values; an unknown type, an enum without values and a bad range each give their own error |
| Proto.ValidateSchema | proto/capability.go:89-93 | The verdict of the search loop is the quantified one in any map order; a reported error belongs to a field of the map |
| Proto.ValidateMethod | proto/capability.go:88-100 | Accepts exactly when both schemas are good; input errors are reported before output errors |
| Proto.Validate | proto/capability.go:37-83 | The verdict equals the quantified specification ValidFeature; the first check that fails decides the error: the name (which check, which character), then a missing method, then the first bad method in the order data, status, command, query, its input before its output |
| Proto.GoodNameExactly | proto/capability.go:38-58 | A good name has something visible in it, at most 64 bytes, and none of slash, space, question mark, hash, ampersand and percent sign |
| Proto.SpacesExactly | proto/capability.go:38 | White space is exactly the 25 code points that strings.TrimSpace cuts |
| Proto.BytesAddUp | proto/capability.go:56 | The length that is checked adds up over concatenation, one to four bytes a character by its code point |
| Proto.ValidFeatureExactly | proto/capability.go:37-121 | A valid feature has a good name, a field in at least one of its eight schemas, and in all eight only strings, bools, objects, enums with values, and numbers with no range or two ends |
| Proto.AckDecodes | server/server.go:290-294 | An acknowledgement decodes to what it was made of, and its text parses to an object with exactly the members assigned_id and status, holding those strings |
| Json.ConcatenationIsExact | web/client.go:86-92 | The payload that is put together without escaping decodes to the one topic if and only if the topic, as a Go string, is valid UTF-8 without quote, backslash and control character |
| Json.OnlyUnescapedIsSaid | web/client.go:110-116 | For any other topic the server never reads that topic, whatever else the text says, repeated members and null items included |
| Json.ScanShrinks | server/server.go:331-336 | A string literal is longer than what it stands for, except that a plain one only adds its closing quote |
| Json.EncodeDecode | client/client.go:444-459 | Decoding a marshalled subscription payload gives back its topics, for every list of topics |
| Json.TextsLiterally | client/client.go:444-459 | The texts of payloads with no, one and two topics, and the concatenated text, character by character around the quoted topics |
| Json.EscapedExactly | client/client.go:444-459 | Marshalling escapes exactly quotes, backslashes, control characters, the three characters special in HTML, and the two line separators |
| Json.EscapesLiterally | client/client.go:444-459 | How each of them is written |
| Json.LaterMemberReusesCells | server/server.go:331-336 | A repeated topics member, in whatever case, decodes into the strings of the earlier one, and a null leaves the string that was there |
| Proto.SubscriptionDecodes | client/client.go:444-459 | The payload that the client library sends decodes to the topics that its message carries |
| ServerState.FeatureMapKeys | server/server.go:263-271 | The names an identify keeps are exactly those of the valid features in its list |
| ServerState.FeatureMapWellKeyed | server/server.go:263-271 | Every kept feature is valid and stored under its own name |
| ServerState.WellKeyedNames | server/server.go:176-194 | For such maps the names that registering claims and that removing releases are the keys |
| ServerState.BrokerAddMembers | server/broker.go:37-46 | One subscription adds one client to one topic and stores no empty set |
| ServerState.BrokerDelMembers | server/broker.go:71-86 | One unsubscription takes one client from one topic and leaves no empty set |
| ServerState.StepWellFormed | server/server.go:225-245 | No message makes a structure mention a client without metadata, and none adds or drops metadata |
| ServerState.RegisterConsistent | server/server.go:166-201 | Registering a new client keeps registry, broker and Subs in agreement and leaves no dangling route; the client is live |
| ServerState.RegisterSparesOthersExactly | server/server.go:166-167 | Registering leaves every other live client live if and only if the id is free or already the client's own |
| ServerState.RemoveConsistent | server/server.go:203-222 | Removing a client leaves it in no broker set and no route to its id; the others agree as before |
| ServerState.SubscribeConsistent | server/server.go:325-342 | A subscription keeps all agreements |
| ServerState.UnsubscribeConsistent | server/server.go:344-361 | An unsubscription keeps all agreements |
| ServerState.IdentifyConsistentExactly | server/server.go:273-288 | An identify keeps the structures consistent if and only if it still declares every topic routed to its sender |
| ServerState.StepAgreed | server/server.go:225-245 | No message of any client breaks the agreement of registry, broker and Subs |
| ServerState.StepConsistent | server/server.go:225-245 | No message breaks any agreement while identifies keep what their senders own |
| ServerState.SupersetKeepsOwned | server/server.go:277-288 | Declaring at least the earlier names is enough for that |
| ServerState.UniqueRecipient | server/server.go:365-415 | In any coherent state commands, queries and responses reach at most one client: the live one with the owner's or the recipient's id; commands and queries reach nobody exactly when the topic has no route or a dangling one |
| ServerState.OwnerIsServed | server/server.go:365-398 | Without dangling routes commands and queries reach somebody exactly when the topic is routed, and that client declares it |
| ServerInFull.FeatureMapKeepsLast | server/server.go:263-271 | A name is kept exactly if a valid feature of the list has it, and what is kept is, unchanged, the valid feature of that name that no later one follows |
| ServerInFull.RegisterInFull | server/server.go:166-201 | Entry by entry: the registry gains the client under its id, and each valid feature under its own name is routed to that id unless the name has a route; nothing else changes |
| ServerInFull.RemoveInFull | server/server.go:203-222 | Entry by entry: the id leaves the registry, the client leaves exactly the broker sets of its Subs, and every name among its features loses its route |
| ServerInFull.SubscribeInFull | server/server.go:325-342 | Entry by entry: the sender joins exactly the listed topics' sets and lists them in Subs; unknown senders and bad payloads change nothing |
| ServerInFull.UnsubscribeInFull | server/server.go:344-361 | Entry by entry: the sender leaves exactly the listed topics' sets, and Subs drops exactly them |
| ServerInFull.IdentifyInFull | server/server.go:249-288 | Field by field: id, proposed name, firmware, the last valid feature under each name, Subs kept; exactly the names without a route are routed to the sender |
| ServerInFull.RecipientsInFull | server/server.go:313-415 | Who is served by each kind of message, read off broker, routes and registry |
| ServerInFull.ForwardedInFull | server/server.go:290-308 | What is passed on: the message itself, and for an identify an acknowledgement from the server whose text and meaning are the sender's id and ok |
| ServerInFull.OthersInFull | server/server.go:225-245 | Every other kind of message changes nothing |
| ServerObjects.Client.Send | server/tcpClient.go:22-31 | A send succeeds exactly on a working link and then appends the message to it |
| ServerObjects.DeviceRegistry.Store | server/registery.go:16-20 | Whole new store: the client under its own id |
| ServerObjects.DeviceRegistry.Get | server/registery.go:22-27 | The stored client, or none |
| ServerObjects.DeviceRegistry.Delete | server/registery.go:29-33 | Whole new store: without the id |
| ServerObjects.DeviceRegistry.List | server/registery.go:35-45 | Every stored client exactly once for each id it is stored under, in some order |
| ServerObjects.Broker.Subs | server/broker.go:21-35 | A copy of exactly the topic's set, empty if there is none |
| ServerObjects.Broker.Subscribe | server/broker.go:37-46 | Whole new nested map, first subscriber included |
| ServerObjects.Broker.Unsubscribe | server/broker.go:71-86 | Whole new nested map; the last one to leave takes the topic with it; strangers change nothing |
| ServerObjects.Broker.Publish | server/broker.go:48-69 | In any visiting order each subscriber with a working link gets the message exactly once, nobody else gets anything, and the count is the number of successful sends |
| ServerObjects.Server.GetTopicSources | server/server.go:65-74 | A copy equal to the routing table |
| ServerObjects.Server.RegisterDevice | server/server.go:166-201 | All four structures move as Register says, in any map order |
| ServerObjects.Server.ClaimAccepted | server/server.go:174-197 | Routes exactly the validly keyed, valid, not yet routed features, in any map order |
| ServerObjects.Server.UnsubscribeFrom | server/server.go:206-211 | The loop over Subs takes the client out of the broker set of every one of them |
| ServerObjects.Server.ReleaseNames | server/server.go:213-221 | Releases exactly the names of the features, whoever owns them |
| ServerObjects.Server.RemoveDevice | server/server.go:203-222 | All four structures move as Remove says, in any map order |
| ServerObjects.Server.CollectFeatures | server/server.go:263-271 | For each name of a valid feature, and for no other, the last valid feature of that name in the list, unchanged |
| ServerObjects.Server.ClaimDeclared | server/server.go:280-288 | Routes exactly the declared names not yet routed |
| ServerObjects.Server.Acknowledge | server/server.go:290-308 | One acknowledgement with the assigned id, to this client |
| ServerObjects.Server.HandleIdentify | server/server.go:249-309 | Unknown sender and bad payload change nothing; otherwise the client's id, name, firmware and features become what the payload says, the last valid feature under each name, its Subs stay, routes move as Identify says, and exactly the sender is acknowledged |
| ServerObjects.Server.HandleSubscription | server/server.go:323-363 | Both message kinds, list payloads, unknown senders and bad payloads: broker and Subs move as Step says |
| ServerObjects.Server.HandleData | server/server.go:313-319 | State unchanged; exactly the topic's subscribers with working links get the message |
| ServerObjects.Server.HandleRouted | server/server.go:365-398 | Commands and queries: state unchanged, exactly the registered owner of the topic gets the message |
| ServerObjects.Server.HandleResponse | server/server.go:399-414 | State unchanged, exactly the named recipient gets the message, nobody if it is missing or unknown |
| ServerObjects.Server.Handle | server/server.go:225-245 | Every message kind: the new state is Step of the old one, and each client with a working link that broker, routes or registry name gets exactly one message more, what the message passes on; nobody else gets anything |
| TcpTransport.TCPTransport.Accept | server/tcpTransport.go:76-98 | A connection makes a new client, registers it under its id and enters it in the transport's map |
| TcpTransport.TCPTransport.HandleLines | server/tcpTransport.go:100-111 | Lines are handled in order under the connection's own id; a line that is not JSON changes nothing; every client with a working link gets, in the order of the lines, what each line passes on that broker, routes or registry make its own in the state before that line, and nothing else |
| TcpTransport.TCPTransport.HandleLine | server/tcpTransport.go:100-110 | One line: skipped if it is not JSON, otherwise handled with the connection's id as its sender, and each client served or not accordingly |
| TcpTransport.EachLineOnce | server/server.go:313-415 | Of these deliveries: a data or status line goes once to each member of its topic's broker set, a command or query line once to the registered client its route leads to, a response line once to the registered recipient it names, and to nobody else |
| TcpTransport.TCPTransport.HandleConnection | server/tcpTransport.go:72-116 | A whole connection: register, the session, remove; the transport's map loses the id; every client, the new one included, gets exactly what the lines pass on to it, as for HandleLines |
| TcpTransport.SessionAgrees | server/tcpTransport.go:91-111 | Throughout a session the structures agree and differ from before only by what belongs to the connection |
| TcpTransport.ConnectionUndoesItself | server/tcpTransport.go:72-111 | After a whole connection registry, broker and the others' metadata are as before, and the only routes missing are those whose name it declared when it closed |
| Relational.RegisterRefines | server/server.go:166-201 | Registering a client whose id is new is one Join of the abstract (live, Sub, Owner) machine, dangling routes or not |
| Relational.RemoveRefines | server/server.go:203-222 | Removing is one Leave of the abstract machine: its names are free again, other topics it owned dangle |
| Relational.HandleRefines | server/server.go:225-363 | In any coherent state every message is one abstract step of the registered sender, and none for an unknown sender or a bad payload |
| Relational.RecipientsAbstractly | server/server.go:313-319 | Who is served can be read off the abstract state, dangling or not: subscribers in Sub, the Owner if it is there, live clients only |
| Relational.RelationDeterminesBroker | server/broker.go:10-13 | Without empty sets the nested map and the relation determine each other |
| FeatureService.FeatureServiceImpl.GetFeatureSubscribers | services/feature_service.go:87-96 | Field by field: as many entries as the topic has subscribers; each shows one of them and each of them is shown: its id, name, firmware, features, Subs, connected, and its transport's name and id, or Unknown and nothing without one |
| FeatureService.FeatureServiceImpl.GetFeature | services/feature_service.go:40-84 | Succeeds exactly when the topic is routed, its owner registered and the feature in its map; then topic, owner's id and name, and feature are those found, and the subscribers are shown as above; each of the three errors exactly when its lookup is the first to fail |
| FeatureService.FeatureServiceImpl.ListFeatures | services/feature_service.go:24-37 | Exactly the readable topics, each with the entry that GetFeature gives |
| FeatureService.ReadsAreTotal | services/feature_service.go:24-84 | In a consistent state reading succeeds exactly on routed topics, and the owner found is live and declares the topic |
| FeatureService.DanglingIsUnreadable | services/feature_service.go:40-66 | Route by route, reading fails exactly on dangling routes |
| InterleavingProofs.NextKeepsCore | server/server.go:166-415 | Every critical section of every handler keeps ids, registry, broker and Subs in agreement at its program counter, with no hypothesis on clients |
| InterleavingProofs.NextKeeps | server/server.go:166-415 | With the identify hypothesis every critical section also keeps each route at a live or leaving connection that declares it |
| InterleavingTheorems.RunCore | server/tcpTransport.go:72-111 | The former invariant in every state of every interleaved run |
| InterleavingTheorems.RunInv | server/tcpTransport.go:72-111 | The latter invariant in every state of every run of disciplined clients |
| InterleavingTheorems.SupersetsAreDisciplined | server/server.go:277-288 | A run in which every identify declares at least what its connection declared before meets the identify hypothesis throughout |
| InterleavingTheorems.DisciplineIsExact | server/server.go:273-288 | The metadata write of an identify keeps the invariant if and only if it declares every topic its connection owns |
| InterleavingTheorems.InvThroughoutExactly | server/server.go:166-288 | Up to any point of any run every route leads throughout to a live or leaving connection that declares its topic if and only if every identify so far kept declaring what its connection owned |
| InterleavingTheorems.StoredAreAlive | server/server.go:166-204 | In every state of every run, whoever the registry stores has begun to register and not begun to leave; no hypothesis on clients |
| InterleavingTheorems.OwnersAreAlive | server/server.go:166-222 | While identifies so far kept what their connections owned, whoever a route leads to is registered, or between the first and last step of its own RemoveDevice |
| InterleavingTheorems.SubscribersAreAlive | server/server.go:203-211 | In every state of every run, whoever a broker set mentions is registered or still leaving the broker |
| InterleavingTheorems.GoneIsUnlisted | server/server.go:203-211 | After the last step of RemoveDevice neither registry nor broker mentions the client, whatever clients did |
| InterleavingTheorems.GoneIsForgotten | server/server.go:203-222 | While identifies so far kept what their connections owned, no structure mentions it |
| InterleavingTheorems.QuiescentIsAgreed | server/server.go:166-363 | In every handler-quiescent state of every run registry, broker and Subs agree and exactly the idle connections are live, whatever clients did |
| InterleavingTheorems.QuiescentIsConsistent | server/server.go:166-363 | While identifies so far kept what their connections owned, no route dangles either |
| InterleavingTheorems.QuiescentReadsAreTotal | services/feature_service.go:24-84 | In every such state GetFeature succeeds exactly on the routed topics and finds their live owners |
| InterleavingTheorems.RouteKeysAreValid | server/server.go:184-193 | Every routed topic in every reachable state is a good name, whatever clients declare or drop |
| InterleavingTheorems.ForwardReachesOwner | server/server.go:365-398 | At the moment of the send a command or query goes to the one client whose id owns the topic |
| InterleavingTheorems.StepNeverRebinds | server/server.go:189-193 | One step keeps a route, or a leaving client that declares the topic frees it |
| InterleavingTheorems.FirstClaimWins | server/server.go:189-221 | If a topic has different owners at two points of a run, a client that declares it finished leaving in between |
| InterleavingTheorems.ReleaseSparesOthersExactly | server/server.go:213-221 | Releasing spares the routes of others if and only if none of them holds a name that the leaving client declares |
| ExactRoutes.NextOwnsExactly | server/server.go:174-288 | If every connection that has claimed has its names routed to it, one critical section keeps that exactly if it is undisputed: a claim finds its names free or its own, a release finds no other claimant of its names |
| ExactRoutes.OwnedThroughoutExactly | server/server.go:174-288 | Up to any point of any run that held throughout if and only if no claim and no release was disputed; no hypothesis on the clients |
| ExactRoutes.QuiescentInverseExactly | server/server.go:174-288 | With no handler in flight in a disciplined run, the routing table is the inverse of the live connections' declarations if and only if every one of them owns its names |
| ExactRoutes.RoutesAreTheInverse | server/server.go:174-288 | So in every handler-quiescent state of an undisputed run it is the inverse |
| ExactRoutes.DisjointRunsAreUndisputed | server/server.go:174-288 | Runs in which connections that are not gone declare disjoint names, with valid features under matching keys, are undisputed |
| Reconnect.ReconnectLosesRoute | server/server.go:203-288 | A run of well-behaved clients in which a device reconnects before its old connection has finished leaving ends with the device live, declaring its topic, and the topic neither routed nor readable |
| Delivery.RunBalances | server/broker.go:48-69 | Over every run: what p sent to c, plus what a fan-out in progress still owes c, is p's publications filtered by c's membership when each was locked |
| Delivery.DeliveryTrace | server/broker.go:48-69 | When p is not publishing, what it sent to c is exactly that filtered history, in order; if no send to c failed so is c's inbox, whatever happened to others |
| Delivery.SendsPairOff | server/broker.go:48-69 | The same position by position: p's sends in c's log and the publications in p's history that had c among their recipients pair off in order, first with first to last with last, with the same messages |
| Delivery.RecipientsAreSubscribers | server/server.go:313-342 | Handling a data or status message appends exactly it and the broker set to the history; a registered client is in that set exactly if it has the topic in Subs, no change of its own being half done |
| Uninterrupted.StepFinishesTheSame | server/server.go:166-415 | Each critical section leaves unchanged where its connection would end up if it went on alone |
| Uninterrupted.HandledAloneIsStep | server/server.go:225-363 | A message handled without interruption moves the structures exactly as ServerState.Step, in any loop order |
| Uninterrupted.JoinedAloneIsRegister | server/server.go:166-201 | A registration without interruption is Register |
| Uninterrupted.LeftAloneIsRemove | server/server.go:203-222 | A removal without interruption is Remove |
| Sends.StepServes | server/server.go:225-415 | Each critical section of a handler either writes what the message passes on to one of the clients still to be served, and to it alone, or leaves them as they are |
| Sends.ReceiveOwes | server/server.go:225-415 | Reading a message leaves to be served exactly the clients it is for |
| Sends.SentAloneInFull | server/server.go:225-415 | The critical sections of a message handled without interruption, in any loop order, write what it passes on once to each client that broker, routes or registry name, and to nobody else |
| LockOrder.CallsAreSound | server/server.go:166-415 | Every handler and read service, whatever branches it takes, acquires locks in increasing rank, ends holding none, and uses every structure under that structure's own lock, in a mode that allows the use, except for exactly its bare reads: of one client's metadata or one transport's client map |
| LockOrder.UsesExactly | server/server.go:166-415 | Which structures each handler and read service reads and which it writes |
| LockOrder.LeaveBrokerSound | server/server.go:206-211 | RemoveDevice uses the broker's lock under the client's metadata lock and reads Subs only there |
| LockOrder.WriteSubsSound | server/server.go:337-361 | The subscription loops use the broker's lock under the metadata lock and write Subs only there |
| LockOrder.ConvertSound | services/utils.go:18-41 | A client's metadata lock is taken before its transport's, and covers all that is read of it |
| LockOrder.AccessIsGuarded | server/server.go:166-415 | In every reachable state a thread about to use a structure holds its lock, for writing if it writes, except for reads of a client's metadata or a transport's client map |
| LockOrder.WritersAreAlone | server/server.go:166-415 | In every reachable state a lock held for writing is held by nobody else |
| LockOrder.RacesAreBareReads | server/server.go:166-415 | In no reachable state are two threads about to use one structure, one of them writing, unless it is a client's metadata or a transport's client map and the other reads it without its lock |
| LockOrder.FreeExactly | server/server.go:166-415 | A reader, and a writer that has not announced itself, can go on exactly when nobody writes and no other writer is announced; an announced writer exactly when nobody holds the lock |
| LockOrder.AnnouncedWriterGoesFirst | server/server.go:166-415 | While a writer is announced no new reader and no second writer gets in |
| LockOrder.GetFeatureSound | services/feature_service.go:40-84 | GetFeature keeps order and guards on every branch |
| LockOrder.RunInv | server/server.go:166-415 | In every reachable state every thread's remaining operations respect the ranks above what it holds and leave bare only such reads, and a lock that two threads hold is held for reading |
| LockOrder.NoDeadlock | server/server.go:166-415 | In no reachable state does a set of threads wait in a circle, waiting writers blocking new readers included |
| LockOrder.Progress | server/server.go:166-415 | While any call is unfinished, some thread can go on |
| Matcher.NextSafe | client/client.go:234-295 | Every step of every call and of the read loop keeps all registered channels open and empty |
| Matcher.ChannelsAlwaysSafe | client/client.go:234-242 | Under every interleaving, with any ids, the read loop never sends on a closed or full channel |
| Matcher.NextExactly | client/client.go:234-295 | A step keeps keys, channels, results and given responses in agreement if and only if a call it starts has an id that no unfinished call has |
| Matcher.RunExactly | client/client.go:250-296 | They agree throughout a run if and only if every call starts with such an id |
| Matcher.EntriesStayExactly | client/client.go:270-282 | After a call starts, the entries stay those of the outstanding calls however calls finish, if and only if its id is not that of an unfinished call; otherwise the older call's way out takes the newer one's entry |
| Matcher.EntriesStayThroughoutExactly | client/client.go:250-296 | So for every state of a run, if and only if every call starts with such an id |
| Matcher.KeysAreOutstanding | client/client.go:270-282 | In every state of such a run, finished ids being used again or not, the keys of the map are exactly the ids of the calls that are registered and unresolved |
| Matcher.ResponseIsNotLost | client/client.go:284-295 | A response handled while its call is outstanding stays ready to be taken until the call settles, and an answered call has exactly that response |
| Matcher.ResultsExactly | client/client.go:250-296 | A call's result is fixed by a failed send, the timer, or the oldest message in its channel, each as itself, and by nothing else; the deferred delete leaves it as it is |
| Matcher.ResultStays | client/client.go:250-296 | Over any run, once a call has its result it is the one that is returned |
| ClientLibrary.Client.Subscribe | client/client.go:429-442 | The handlers gain exactly this topic in any case; exactly while connected on a working link one message is written, a subscribe that decodes to just this topic; errors exactly on a broken link |
| ClientLibrary.Client.Unsubscribe | client/client.go:461-474 | The handlers lose exactly this topic in any case; exactly while connected on a working link one message is written, an unsubscribe that decodes to just this topic |
| ClientLibrary.Client.Collect | client/client.go:105-106 | Every handler's topic exactly once, in any order |
| ClientLibrary.Client.SendAgain | client/client.go:107-114 | One subscribe message that decodes to the topics as collected, whatever the handlers are by now |
| ClientLibrary.Client.OpenQuery | client/client.go:270-275 | A fresh open empty channel under the id, whatever was there: the matcher's Open |
| ClientLibrary.Client.WriteQuery | client/client.go:284-287 | The query is written and the call waits, or nothing is and the call ends as failed: the matcher's Sent or SendFails |
| ClientLibrary.Client.Await | client/client.go:290-295 | The call ends with the oldest message in its channel, which is taken out, or with the timer: the matcher's Take or Expire |
| ClientLibrary.Client.CloseQuery | client/client.go:278-282 | Removes whatever is under the id and returns the result that the call had: the matcher's Cleanup |
| ClientLibrary.Client.HandleResponse | client/client.go:234-242 | The response alone is in its channel, the channel is closed and forgotten; unknown ids change nothing: the matcher's Response |
| Correlation.Alone | client/client.go:198-242 | A message under way is the only bearer of its correlation id |
| Correlation.MoveKeeps | server/server.go:383-415 | Passing a query or a response on keeps everything: one message in, one out, on the right connection |
| Correlation.HandlerRunKeeps | client/client.go:198-220 | Running a handler and replying keeps everything, also if the reply cannot be sent; the reply is a response with the handler's result, to the sender of the query, on its topic and under its correlation id |
| Correlation.ResponseKeeps | client/client.go:234-242 | Handling a response keeps everything: what a call is given was produced for its own query |
| Correlation.NextKeeps | client/client.go:198-296 | Every step of clients, links and server keeps the invariant, with routing and registry free to change at any time |
| CorrelationTheorems.AtMostOneToken | client/client.go:198-295 | Queries under way, responses under way and responses handled never exceed one per correlation id: replies are at most once |
| CorrelationTheorems.AnswersAreGenuine | client/client.go:250-296 | Every message returned by SendQuery was produced by a handler run on that call's own query, at the registered client that owned its topic when the server routed it; sent, routed and run in that order |
| CorrelationTheorems.AnswersInFull | client/client.go:198-296 | Field by field, for every message that SendQuery returns: the call wrote a query on its topic; then the server read it while the answer's sender was registered and owned the topic; then that client read it, from the asking connection, and its handler's result is the answer's payload; the answer is a response on that topic, under the call's id, to the asking connection |
| CorrelationTheorems.UndisturbedQueryIsAnswered | client/client.go:198-296 | Queries do get answered: from any state that keeps the invariant and has drained links, a query on a topic whose owner is registered is answered with what the owner's handler returns, by seven enabled steps |
| CorrelationTheorems.IdsTravelOnce | client/client.go:198-295 | In every state of a run no two packets under way, no two handled responses, and no packet and handled response share a correlation id |
| CorrelationTheorems.AnswersAreDistinct | client/client.go:284-295 | Two answered calls with one correlation id are the same call with the same answer |
| CorrelationTheorems.TraceStays | client/client.go:198-296 | What is recorded about a query never changes: it is routed at most once and run at most once |
| CorrelationTheorems.ForwardServesRecipients | server/server.go:383-415 | On any coherent server state the forwarding in the network serves exactly the recipients of Handle |
| CorrelationTheorems.ReadingNeverBlocks | client/client.go:234-242 | In every state of a run a client can read the oldest message of its connection, whatever it is |
| Convergence.FoldHead | server/server.go:323-362 | Reading the oldest pending message moves its effect from the link to the server |
| Convergence.StepHasEffect | server/server.go:323-362 | Handling a message of a registered client has exactly its effect on the client's Subs |
| Convergence.NextKeeps | client/client.go:87-120 | Every access of Subscribe, Unsubscribe and the resubscription to handlers, Connected flag and link, and every step of link, server and other clients keeps the correspondence |
| Convergence.UninterruptedCall | client/client.go:429-474 | A call that nobody interrupts is the library's Subscribe or Unsubscribe |
| Convergence.PendingLeadsToHandlers | client/client.go:87-120 | Through any number of drops and any schedule, off topics that a call is working on: folding the pending messages over the server's Subs gives only handler keys before the resubscription and exactly those keys after it, but for the recorded extra and missing topics |
| Convergence.DrainedMeansAgreed | client/client.go:105-120 | On a drained link in the read loop the broker lists the connection for exactly those topics |
| Convergence.NextAgreesExactly | client/client.go:105-114 | From agreement a step leads to agreement if and only if it wins its race: a resubscription brings back no topic that lost its handler unless a call on it is still to come, the last call to write on a topic says what the handlers say, and the last call on a topic does not return unsent while an earlier subscription is on a new link |
| Convergence.AgreesThroughoutExactly | client/client.go:87-120 | Over any run, drops and any schedule included, both sides agree in every state with a working link if and only if every step wins its race |
| Convergence.DrainedAndWon | client/client.go:105-120 | In such runs the broker lists the connection, on a drained link with no call under way, for exactly the handled topics |
| Convergence.ApartCallsWin | client/client.go:429-474 | When calls on one topic do not overlap, only resubscriptions and calls that return unsent have races to win |
| ServerRuns.ApplyAgreed | server/server.go:166-363 | Joining, leaving and any message keep registry, broker and Subs in agreement; who joined is live with its data, who left is not and is in no broker set |
| ServerRuns.OthersSpareMe | server/server.go:166-363 | What other clients do leaves my registration, my metadata and my subscriptions alone |
| ServerRuns.SubscribedExactly | server/server.go:337-361 | A live client is in the broker's set for exactly the topics in its Subs |
| Radio.ParseFrame | server/sx1276Radio.go:142-188 | For every address and data a frame parses to the two parts cut at the address length modulo 256 |
| Radio.BytesExactly | server/sx1276Radio.go:142-188 | A packet is the frame exactly if its first byte is the address length modulo 256 and the address and the data follow; exactly the packets of at least two bytes, and at least as many after the first as that announces, parse, into the parts that the first byte tells; each rejection has its own error |
| Radio.RoundTripExactly | server/sx1276Radio.go:142-188 | parse(frame(a, d)) = (a, d) if and only if the address has at most 255 bytes and address and data are not both empty |
| Radio.AcceptedPacketsReframe | server/sx1276Radio.go:174-188 | Every accepted packet frames back to itself |
| Radio.RejectedExactly | server/sx1276Radio.go:174-185 | A packet is rejected exactly when it is no frame of an address of at most 255 bytes and data, not both empty |
| Radio.NothingElseIsLost | server/sx1276Radio.go:163-207 | Over every run at most 100 messages wait, and those received followed by those waiting are the arrivals minus exactly the rejected ones and those that met a full queue, in order |
| Radio.RunInFull | server/sx1276Radio.go:163-207 | One more event in a run, byte by byte: an acceptable arrival joins the queue exactly if fewer than 100 wait, a receive takes the oldest, nothing else changes |
| Radio.SX1276Radio.Start | server/sx1276Radio.go:69-108 | Each failure (already running, initialising, frequency, power) is reported as itself, the hardware is closed again after the last two, and only success starts the radio |
| Radio.SX1276Radio.Stop | server/sx1276Radio.go:111-129 | Stops, closes the queue and the hardware only if running |
| Radio.SX1276Radio.Send | server/sx1276Radio.go:132-159 | What is transmitted has as its first byte the address length modulo 256, then the address, then the data; nothing if not running |
| Radio.SX1276Radio.OnHardwareReceive | server/sx1276Radio.go:172-208 | On an open queue with fewer than 100 waiting, exactly the packets with at least two bytes and at least one more than the first byte says are queued, as the address of that length and the rest; the others are rejected each with its error, dropped exactly when the queue is full, and a closed queue is reported as the panic it is |
| Radio.SX1276Radio.Receive | server/sx1276Radio.go:163-169 | Takes the oldest message; an empty queue waits, or ends if closed |
| Sse.WithoutDropsOne | web/client.go:216-223 | Removal drops exactly one connection and keeps the order of the rest |
| Sse.WithoutStranger | web/client.go:216-223 | Removing a connection that is not there changes nothing |
| Sse.OwnSubscriptions | server/server.go:323-363 | Whatever a subscription message of the web client says, the client stays registered and is subscribed to exactly what it says |
| Sse.NextCountedExactly | web/handlers.go:243-258 | An open, close or move of others keeps the web client subscribed exactly where it has a connection if and only if the topic it tells the server about, if any, is valid UTF-8 and needs no escaping |
| Sse.CountedThroughoutExactly | web/handlers.go:243-258 | Over every run that holds throughout if and only if no stream is opened on a topic that is not valid UTF-8 or needs escaping |
| Sse.SubscribedIffConnected | web/client.go:204-230 | In such runs the web client is in the broker's set for a topic if and only if it has at least one connection on it |
| WebClient.WebClientImpl.Tell | web/client.go:86-127 | The concatenated payload goes to the server's own handler, which moves as Step says for what that text decodes to |
| WebClient.WebClientImpl.AddSSEConnection | web/client.go:204-209 | Appends the connection to its topic |
| WebClient.WebClientImpl.OpenStream | web/handlers.go:243-252 | The connection joins its topic's list and no other; exactly if it is the first there the server handles one subscribe message, whose text is the topic between fixed parts, and otherwise the server is left alone |
| WebClient.WebClientImpl.Splice | web/client.go:216-223 | The loop removes the first occurrence and nothing else |
| WebClient.WebClientImpl.RemoveSSEConnection | web/client.go:212-230 | The first occurrence leaves its topic's list and no other list changes; exactly if none is left the server handles one unsubscribe message, whose text is the topic between fixed parts |
| Counterexamples.ShrinkingIdentifyDangles | server/server.go:277-288 | An identify that drops an owned topic leaves its route dangling, also after the client is gone |
| Counterexamples.SharedNameLosesRoute | server/server.go:213-220 | When a client that shares a topic leaves, the live owner loses its route |
| Counterexamples.CollidingIdsOrphanACall | client/client.go:273-282 | With the id of an unfinished call used again one call's cleanup takes the other's entry, which can never be answered |
| Counterexamples.ReusedIdTakesLateAnswer | client/client.go:234-295 | With the id of a finished call used again the late response to the first call answers the second |
| Counterexamples.LongAddressMisparses | server/sx1276Radio.go:142-145 | A 256-byte address is parsed as data |
| Counterexamples.SharedIdHidesClient | server/server.go:166-204 | With a client id used twice the second registration hides the first client and its removal unregisters both |
| Counterexamples.RacingUnsubscribeComesBack | client/client.go:105-111 | An Unsubscribe between collecting the topics and sending the resubscription leaves the server with a topic that has no handler |
| Counterexamples.OverlappingCallsDisagree | client/client.go:429-474 | Overlapping calls on one topic that write in the other order leave the server with a topic that has no handler |
| Counterexamples.UnsentUnsubscribeStays | client/client.go:91-97 | A late Subscribe on a new link and an Unsubscribe before the Connected flag is set leave the server with a topic that has no handler |
| Counterexamples.BrokenTopicUnsubscribed | web/client.go:86-92 | Opening a stream on a topic with a quote in it leaves a connection and no subscription |
| Counterexamples.TwoInOneSubscribesBoth | web/client.go:86-92 | Opening a topic that says two subscribes to both without a connection on either |
| Counterexamples.TwoInOneUnsubscribesBoth | web/client.go:110-116 | Closing it unsubscribes both whatever connections they have |
| Counterexamples.NotUtf8SubscribesElsewhere | web/client.go:86-92 | A topic that is not valid UTF-8 subscribes to the replacement character and not to itself |

## Left out

- Sockets, WebSocket upgrade, HTTP, templates, logging, signals, command-line programs, MCP wiring: plumbing. A link is a log of sent messages that may be cut; a write fails exactly on a broken link.
- JSON beyond subscription payloads: an identify or acknowledgement payload is its raw text together with what it decodes to, or a decoding error. Subscription payloads are decoded and encoded as text. Strings that come out of decoding are valid UTF-8; of the others only the topics of event streams are modelled byte by byte. The compaction of raw payloads on the wire is not modelled.
- Timestamps, units, descriptions of methods, RSSI and SNR, device renaming: no property depends on them.
- UUIDs and random ids: freshness is a hypothesis.
- WebSocket transport: its connection loop has the form of the TCP one, and only the TCP one is written out as methods; the interleaved runs are of both, with sends to one WebSocket client serialised.
- LoRa sessions: `LoRaTransport.handleMessage` looks clients up by hexadecimal address but stores them by client id (server/loraTransport.go:110, 124), so one client per address does not hold.
- LoRa and web clients in the deadlock theorem: their `Send` takes a further lock under the broker's lock that is elsewhere held while taking the broker's lock (server/loraClient.go:56-58, web/client.go:153, 213-228).
- The bound on clients per transport: the count is read before the connection enters the map (server/tcpTransport.go:58-68, 96-98), so the bound does not hold under concurrency.
- Data races: which fields the source reads outside their lock is proved (`RacesAreBareReads`: `Meta().Id`, `Meta().Features` and `Meta().Name` in server/server.go:204, 214, 281-291, server/registery.go:19 and services/feature_service.go:125, and client maps in services/utils.go:53 and services/transport_service.go:57). The other models read these at one point of their critical section, so what a racing read may see is not modelled. The library's unlocked accesses to `subHandlers` and `Connected` (client/client.go:106, 430, 462) happen one at a time.
- Read services at lock granularity: `GetFeature` and `ListFeatures` are proved on a state that holds still; interleaved, only their lock order is modelled. `GetFeaturesForDevice` and the device and transport services are modelled as lock sequences only.
- The client's branch for data and status messages: a missing handler is still called (client/client.go:224-229), so it is not total.
- The return path of `Start`: `ackCh` is closed by `identify` and again by the deferred close (client/client.go:99, 165). Convergence treats returning as stopping.
- Retries and reading of `identify`: messages that arrive before the acknowledgement are lost to the client, which the network of the correlation theorem allows at any point.
- Commands, data and status in the network of the correlation theorem: they carry no correlation id and touch neither matcher nor traces.
- Correlation.MoveKeeps: moves one message at a time; that links are cut is modelled as losing messages at any point.
- LockOrder.UsesExactly: says what a call uses, not in what order; an id that is read only for a log line is left out.
- LockOrder.ConvertSound: a client without a transport takes fewer locks than modelled.
- Event streams at lock granularity: the first-connection check and the insertion take the lock separately (web/handlers.go:244-252), and two streams opening at once may both see a first connection.
- WebClient.WebClientImpl.Splice: the list is a value; that `append` writes into the shared backing array of the old slice is not modelled.
- The fan-out of a topic's messages to the browser and the sending side of the web client.
- The MCP client's query wait: it registers its correlation id only after sending (mcp/client.go:367-372), so no-lost-response is a property of client/client.go only.
- Radio.SX1276Radio.Receive: waiting on an empty queue is reported, not scheduled.
- Restarting a stopped radio, and hardware callbacks after it stopped: the queue is closed and never made anew (server/sx1276Radio.go:119-120); `OnHardwareReceive` reports the panic.
- Termination of a fan-out or of a subscription loop under interference: only progress of lock acquisition is proved.
