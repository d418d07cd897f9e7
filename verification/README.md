# aerozen: a verified model

aerozen is a publish/subscribe and service-call library. Processes find each other with a discovery protocol over UDP
multicast (with relays between groups), and each process keeps shared bookkeeping of its subscribers, its pending
service requests and the queue of messages waiting for local delivery. This project models that logic and proves what
it keeps over every call, every run and every interleaving of its threads.

| file | models |
|---|---|
| `Publishers.dfy` | publishers of topics and services, and their discovery messages (`publisher.cpp`) |
| `Sequences.dfy` | sequences that list a set's elements once each |
| `TopicStorage.dfy`, `HandlerStorage.dfy` | the nested maps, as classes refining a flat set and a flat map |
| `Protocol.dfy`, `Discovery.dfy` | one discovery process: its events as functions of its state, and the class whose methods take exactly those steps |
| `Exchanges.dfy`, `Registrations.dfy` | what one process tells another, followed from the event at the sender to the effect at the receiver |
| `Network.dfy`, `HostScope.dfy`, `Freshness.dfy`, `Retention.dfy`, `Quiescence.dfy` | any number of such processes over a network that loses, repeats and reorders: ownership, soundness, scope, freshness, what makes an entry go, and falling silent |
| `Requests.dfy`, `FailedSends.dfy`, `Destinations.dfy`, `ServiceCalls.dfy` | pending service requests across threads, those that are never sent, where the others go, and the methods that take those steps |
| `Subscriptions.dfy`, `Resubscription.dfy` | subscriber registration across threads, and exactly when a message of a leaving node undoes it |
| `Settling.dfy` | that the threads of both come to rest, with nothing lost |
| `Subscribers.dfy`, `PubQueue.dfy`, `Nodes.dfy` | the handler lists of a process, the purge of its delivery queue, and a node with its teardown |
| `Text.dfy`, `Names.dfy`, `Sanitizing.dfy`, `Tokens.dfy` | splitting, mangled types, fully qualified names, sanitised topics, liveliness tokens |
| `Statistics.dfy`, `Throttle.dfy` | rolling statistics over exact reals; subscriber and publisher throttling |

Three choices hold throughout. A method of a class is specified by a function of its old state; the lemmas are about
those functions. A protocol between threads or processes is a relation between states, `Next`, with one constructor of
`Step` for each event, and a run is a sequence of states linked by steps; the callbacks that the code runs after
releasing a mutex are steps of their own. Where the code walks a map in key order, the contract leaves the order open.
The lemmas named `...Means` and those of `Exchanges` and `Registrations` say what these functions and steps come to in
terms of the fields alone.

## What the code does, where its own comments say otherwise

- `AddHandler` is commented as adding or replacing (`aerozen/handler_storage.hpp:175`); it inserts, so an existing
  handler stays. `HandlerStorage.AddHandler` states this.
- Discovery counts as initialised at the third heartbeat, where the comment says two (`aerozen/discovery.hpp:895-905`).
- HOST scope is judged by the address of the last hop. It holds in every run without relays
  (`HostScope.HostScopeWithoutRelays`); with relays a publisher leaks to a process exactly when its owner's address is
  foreign to that process and some host that is not multicasts into its group (`HostScope.HostScopeLeaksIff`). PROCESS
  scope holds always, although heartbeats send PROCESS-scoped publishers too.
- `Unsubscribe` qualifies the topic as given, while `Subscribe` qualifies its remapping: the first undoes the second
  exactly when both have the same absolute name (`Nodes.Node.SubscribeThenUnsubscribe`). It purges the queue by the
  remapped topic as written. That silences the queued messages of the topic exactly when the remapped topic is the
  absolute name of the topic as given (`Subscribers.PurgeReaches`); a remapped topic that is rooted but another does
  not do, and takes handlers from the other topic's messages (`Subscribers.PurgeMissesRemapped`).
- A request is marked as requested before it is serialised, so a failed send is final
  (`FailedSends.FailedSendIsFinal`); a request is failed exactly when it is stored and some send found it due and could
  not serialise it or had it refused by the socket (`FailedSends.FailedIff`).
- END_CONNECTION is sent after the mutex is released, so it can overtake the registration of a handler that another
  thread of the same node subscribes meanwhile. This can happen to a new handler if and only if its node is still
  leaving the topic (`Resubscription.GuardIsExact`).
- A token carries its inputs back exactly when the partition is not empty, neither name holds `%`, and the UUIDs,
  entity and types are non-empty (a message type may be empty) and free of slashes (`Tokens.TokenRoundTrip`,
  `Tokens.ServiceTokenRoundTrip`). The suffix is appended even when the name does not decompose.
- `AsValidTopic` drops both slashes of a pair and does not look again. `Sanitizing.SanitizedIsLostIff` says for every
  string when the whole name is lost, in particular when two slashes, or the halves of `:=`, are kept with only deleted
  symbols between them.
- The reported maximum starts at the smallest positive normal double, so samples that are all below it never show
  (`Statistics.ExtremesAreSamples`).

## Model

| member | source | states |
|---|---|---|
| `Publishers.WireRoundTrip` | aerozen/publisher.cpp:75-118 | a publisher read from the message written for it is the same publisher exactly when its two copies of the options agree, as every constructor makes them |
| `TopicStorage.TopicStorage.AddPublisher` | aerozen/topic_storage.hpp:56-82 | succeeds exactly on a new (topic, process, address, node), adding that one entry |
| `TopicStorage.TopicStorage.HasTopic` | aerozen/topic_storage.hpp:89-92 | true exactly when an entry has the topic, since no inner map is ever empty |
| `TopicStorage.TopicStorage.HasTopicOfType` | aerozen/topic_storage.hpp:101-125 | true exactly when an entry of the topic has the type or the generic one |
| `TopicStorage.TopicStorage.HasAnyPublishers` | aerozen/topic_storage.hpp:132-139 | true exactly when the process has an entry on the topic |
| `TopicStorage.TopicStorage.HasPublisher` | aerozen/topic_storage.hpp:146-158 | true exactly when some entry has the address |
| `TopicStorage.TopicStorage.FindPublisher` | aerozen/topic_storage.hpp:166-192 | finds an entry of the topic, process and node whenever there is one |
| `TopicStorage.TopicStorage.Publishers` | aerozen/topic_storage.hpp:200-208 | the submap handed out holds exactly the entries of the topic, well grouped; none is handed out when there are none |
| `TopicStorage.TopicStorage.DelPublisherByNode` | aerozen/topic_storage.hpp:216-247 | removes exactly the entries of the topic, process and node, and says whether there were any |
| `TopicStorage.TopicStorage.DelPublishersByProc` | aerozen/topic_storage.hpp:254-271 | erasing while iterating removes exactly the entries of the process, under every topic |
| `TopicStorage.TopicStorage.PublishersByProc` | aerozen/topic_storage.hpp:278-295 | regroups every entry of the process by node, each once and under its own node |
| `TopicStorage.TopicStorage.PublishersByNode` | aerozen/topic_storage.hpp:302-319 | lists the entries of the process and node, each once |
| `TopicStorage.TopicStorage.TopicList` | aerozen/topic_storage.hpp:325-328 | lists each topic that has an entry once |
| `TopicStorage.EntriesHaveDistinctKeys` | aerozen/topic_storage.hpp:64-76 | two stored entries never share topic, process, address and node |
| `HandlerStorage.FlatDetermines` | aerozen/handler_storage.hpp:165-178 | with no empty level, equal contents are equal nested maps |
| `HandlerStorage.HandlerStorage.AddHandler` | aerozen/handler_storage.hpp:165-178 | stores a new handler; leaves an existing one as it is |
| `HandlerStorage.HandlerStorage.HandlersOf` | aerozen/handler_storage.hpp:63-75 | exactly the handlers of the topic, with their values; none exactly when the topic has no handler |
| `HandlerStorage.HandlerStorage.FirstHandler` | aerozen/handler_storage.hpp:82-128 | succeeds exactly when a handler of the topic matches, and returns one that does |
| `HandlerStorage.HandlerStorage.Handler` | aerozen/handler_storage.hpp:135-158 | looks up the flat map by topic, node and handler |
| `HandlerStorage.HandlerStorage.HasHandlersForTopic` | aerozen/handler_storage.hpp:185-190 | true exactly when the flat map has a handler on the topic |
| `HandlerStorage.HandlerStorage.HasHandlersForNode` | aerozen/handler_storage.hpp:197-205 | true exactly when the flat map has a handler of the node on the topic |
| `HandlerStorage.HandlerStorage.RemoveHandler` | aerozen/handler_storage.hpp:213-227 | removes exactly that handler, pruning the levels it empties, and says whether it was there |
| `HandlerStorage.HandlerStorage.RemoveHandlersForNode` | aerozen/handler_storage.hpp:234-244 | removes exactly the handlers of the node on the topic, and says whether there were any |
| `HandlerStorage.AddThenRemove` | aerozen/handler_storage.hpp:165-227 | removing a handler just added restores the very nested structure there was |
| `Discovery.Discovery.Start` | aerozen/discovery.hpp:358-374 | enables discovery and sets both timers to the time of the call |
| `Discovery.Discovery.Advertise` | aerozen/discovery.hpp:400-426 | takes the Advertise step: refused when disabled or known; announced to the network unless PROCESS-scoped |
| `Discovery.Discovery.Unadvertise` | aerozen/discovery.hpp:545-570 | takes the Unadvertise step: only this process's entries of the node and topic go; the network is told unless the one found is PROCESS-scoped |
| `Discovery.Discovery.Discover` | aerozen/discovery.hpp:439-481 | sends SUBSCRIBE, then one callback for each publisher known for the topic, each once |
| `Discovery.Discovery.UpdateActivity` | aerozen/discovery.hpp:773-826 | takes the Sweep step: when due, drops every process silent for longer than the interval in whole milliseconds with all its entries, and reports each once |
| `Discovery.Discovery.UpdateHeartbeat` | aerozen/discovery.hpp:865-936 | takes the Heartbeat step: when due, sends HEARTBEAT and advertises every own publisher again, each once and whatever its scope; initialised at the third |
| `Discovery.Discovery.TopicListRequest` | aerozen/discovery.hpp:732-741 | forgets the remote subscribers and asks for them again |
| `Discovery.Discovery.TopicListAnswer` | aerozen/discovery.hpp:743-753 | once initialised, lists each topic that is published or has a remote subscriber, once |
| `Discovery.Discovery.SendMsg` | aerozen/discovery.hpp:1264-1310 | each send goes once to the group, and once to the relays with the RELAY flag |
| `Discovery.Discovery.DispatchDiscoveryMsg` | aerozen/discovery.hpp:1023-1255 | takes the Dispatch step: discards foreign versions and own messages, forwards by flag, records the activity, then processes |
| `Discovery.Discovery.HandleMsg` | aerozen/discovery.hpp:1094-1255 | takes the Handle step for each message type |
| `Discovery.Discovery.RecvAdvertise` | aerozen/discovery.hpp:1095-1120 | adds a publisher that passes the scope check, with one connection callback exactly when it was new |
| `Discovery.Discovery.RecvSubscribe` | aerozen/discovery.hpp:1121-1158 | answers with each own publisher of the topic that the asker's address may see, each once |
| `Discovery.Discovery.RecvBye` | aerozen/discovery.hpp:1201-1222 | drops the process's activity and all its entries, with one disconnection callback |
| `Discovery.Discovery.RecvUnadvertise` | aerozen/discovery.hpp:1223-1249 | drops exactly the node's entries on the topic when the scope check passes |
| `Exchanges.AdvertiseIsStored` | aerozen/discovery.hpp:1095-1120 | an ADVERTISE heard from another process of the same version adds exactly its publisher, with one connection callback, if its scope is ALL, or HOST from a local address, and no entry has its topic, process, address and node; else it changes no entry and calls nobody |
| `Exchanges.UnadvertiseIsDropped` | aerozen/discovery.hpp:1223-1249 | an UNADVERTISE in scope takes exactly the entries of that topic, process and node, and reports it |
| `Exchanges.ByeIsDropped` | aerozen/discovery.hpp:1201-1222 | a BYE takes exactly the entries of its process, stops watching it, and reports it without a topic |
| `Exchanges.ConnectionIsReported` | aerozen/discovery.hpp:1177-1196 | NEW_CONNECTION is passed on as a registration, END_CONNECTION as its end, with the publisher as sent |
| `Exchanges.SubscribersAreKept` | aerozen/discovery.hpp:1160-1200 | SUBSCRIBERS_REQ is passed to the client, SUBSCRIBERS_REP stored when new, HEARTBEAT only noted |
| `Exchanges.OthersAreIgnored` | aerozen/discovery.hpp:1033-1041 | messages of this process or of another version do nothing |
| `Exchanges.ForwardingGoesOneHop` | aerozen/discovery.hpp:1052-1071 | what a relay sends is put in the group marked NO_RELAY, its address remembered, and nothing else done; what the group sends goes to the relays exactly when it is not so marked |
| `Exchanges.AdvertisementGoes` | aerozen/discovery.hpp:400-426 | a new publisher is sent to the group and the relays unless PROCESS-scoped, and the client called back |
| `Exchanges.WithdrawalGoes` | aerozen/discovery.hpp:545-570 | withdrawing takes exactly the node's own entries on the topic, and is sent unless the one found is PROCESS-scoped |
| `Exchanges.HeartbeatGoes` | aerozen/discovery.hpp:865-891 | a heartbeat that is due says that the process is alive and repeats each own publisher |
| `Exchanges.HeartbeatPeriod` | aerozen/discovery.hpp:908-910 | the next heartbeat is due exactly one interval in milliseconds after the clock is read again |
| `Exchanges.ThirdBeatInitializes` | aerozen/discovery.hpp:895-906 | over successive heartbeats, discovery is initialised exactly from the third on |
| `Exchanges.QuestionGoes` | aerozen/discovery.hpp:439-481 | Discover sends the topic to the group and the relays, and calls back exactly once for each publisher known of it |
| `Exchanges.QuestionIsAnswered` | aerozen/discovery.hpp:1121-1158 | a SUBSCRIBE is answered with each own publisher of the topic that the asker's address may see |
| `Exchanges.OnlyAnswersAreSent` | aerozen/discovery.hpp:1121-1158 | and, the message passed on apart, with nothing else |
| `Exchanges.WhatGoesArrives` | aerozen/discovery.hpp:1023-1255 | what is announced is learned field by field, with one callback when new, by every peer that hears it and may see it; what is withdrawn is forgotten |
| `Exchanges.WhatGoesArrivesByRelay` | aerozen/discovery.hpp:1052-1071 | the same in the group of a relay that was sent the message |
| `Exchanges.AskingFinds` | aerozen/discovery.hpp:439-481 | the question of one process makes the owner of a visible publisher send what teaches that publisher to its peers, the asker among them |
| `Exchanges.SubscribersAreAsked` | aerozen/discovery.hpp:732-741 | the request for subscribers reaches the client of every peer that hears it |
| `Exchanges.LeavingIsHeeded` | aerozen/discovery.hpp:210-224 | after the BYE of a stopping process its peers hold and watch nothing of it |
| `Registrations.RegistrationArrives` | aerozen/node_shared.cpp:1118-1148 | what a connection callback registers makes the publisher's process, and no other, list that node of the subscriber's process for the topic |
| `Registrations.FarewellArrives` | aerozen/node_shared.cpp:2032-2053 | an END_CONNECTION takes exactly that node's entries on the topic, in the process addressed or in all |
| `Registrations.RemoteSubscribers.OnNewRegistration` | aerozen/node_shared.cpp:1252-1269 | stores the subscriber when it is addressed to this process and new |
| `Registrations.RemoteSubscribers.OnEndRegistration` | aerozen/node_shared.cpp:1271-1289 | drops the node's entries on the topic when addressed to this process or to all |
| `Network.OwnershipOverRuns` | aerozen/discovery.hpp:400-426 | in every run the entries a process keeps of itself are exactly those it advertised and has not unadvertised: no message and no timeout changes them |
| `Network.SoundnessAndScopeOverRuns` | aerozen/discovery.hpp:1095-1120 | in every run each entry about another process equals, field by field, one its owner advertised, and is not PROCESS-scoped |
| `Network.FreshnessOverRuns` | aerozen/discovery.hpp:1084-1092 | in every run each process with an entry is this one or is watched for silence |
| `HostScope.HostScopeWithoutRelays` | aerozen/discovery.hpp:1073-1076 | in every run in which no relay is added, on any topology, no HOST-scoped publisher leaks to a process that takes its owner's address for another host's |
| `HostScope.HostScopeLeaksIff` | aerozen/discovery.hpp:1052-1076 | for every topology, process, own addresses and owner: some run leaks a HOST-scoped publisher exactly when the owner is a host whose address is foreign to the process and some host with a local one multicasts into its group (the process itself may be that host) |
| `HostScope.TopologyLeaksIff` | aerozen/discovery.hpp:1052-1076 | over all choices of own addresses: exactly when the owner is not on a loopback address and a host with another address multicasts into the group |
| `HostScope.RelayLeaksHostScope` | aerozen/discovery.hpp:1052-1071 | the leaking run on every such topology: one unicast hop with the RELAY flag, one multicast hop with NO_RELAY |
| `Freshness.FreshAfterSweep` | aerozen/discovery.hpp:773-826 | under a clock that never goes back, after a completed sweep every other owner of an entry was last heard from not after the sweep and within the silence interval before it in whole milliseconds |
| `Retention.SweepDropsSilent` | aerozen/discovery.hpp:787-806 | in a sweep that runs, a process stays exactly when it was heard from less than the silence interval plus one millisecond ago; then all its entries stay and no disconnection names it; else all go and it is reported |
| `Retention.SweepReports` | aerozen/discovery.hpp:815-825 | each process dropped is reported once, without a topic; processes not watched keep their entries |
| `Retention.SweepPeriod` | aerozen/discovery.hpp:808-810 | the next sweep is due exactly one interval in milliseconds after the clock is read again |
| `Retention.EntryGoesOnly` | aerozen/discovery.hpp:773-826 | in any step of any network, an entry about another process goes only by a BYE of that process, its UNADVERTISE of that topic and node, or a sweep that finds it silent |
| `Retention.HeardEntryStays` | aerozen/discovery.hpp:773-826 | over any stretch of a run, under a clock that never goes back, an entry stays while its owner does not withdraw it and was heard from within the interval before every sweep |
| `Quiescence.DeliveryRanksBelow` | aerozen/discovery.hpp:1052-1071 | whatever a delivery sends, forwards and callbacks included, ranks strictly below the message delivered, by type and then by flag |
| `Quiescence.NetworkFallsSilent` | aerozen/discovery.hpp:939-1255 | with no API call, heartbeat or duplication, no run of deliveries and losses goes on for ever, over any processes and relays |
| `Quiescence.NetworkEmpties` | aerozen/discovery.hpp:939-1255 | a run that goes on whenever something is in flight reaches a network with nothing in flight |
| `Requests.NoStrandedRequest` | aerozen/node_shared.cpp:899-1084 | in every interleaving, an unrequested stored request whose publisher is known is still covered: that callback is to run, the service thread has its key queued or in hand, or the Request call that stored it is still in its critical section |
| `Requests.QuietMeansRequested` | aerozen/node_shared.cpp:1847-1886 | with nothing in progress, every stored request whose service is known has been requested |
| `FailedSends.FailedSendIsFinal` | aerozen/node_shared.cpp:970-979 | a request marked but not sent is never sent in any continuation, and stays stored |
| `FailedSends.FailedIff` | aerozen/node_shared.cpp:970-1051 | in every run a request is failed exactly when it is stored and some earlier send found it due and could not serialise it or had it refused by the socket |
| `FailedSends.SomeRequestFails` | aerozen/node_shared.cpp:970-1051 | every request whose service is known when it is stored has a run in which it fails, whenever it cannot be serialised or it awaits a response and the socket refuses it |
| `Requests.SendMeans` | aerozen/node_shared.cpp:937-1083 | read off the fields: the unrequested requests of the topic and types are marked, a message goes to the responder's socket id for each that could be serialised and was accepted, and one-way ones that could be serialised leave |
| `Destinations.EveryRequestHasAnAddress` | aerozen/node_shared.cpp:910-920 | in every run each message goes to the socket id of a publisher added before with its service and types, where a replier for them can serve it |
| `Destinations.SentIsStoredIff` | aerozen/node_shared.cpp:1075-1080 | in every run a request that was sent is stored, and marked, exactly when it awaits a response and has none yet |
| `Requests.RequestConservation` | aerozen/node_shared.cpp:798-897 | each added request is exactly one of stored, answered or gone one-way; it is sent, served and notified at most once however responses repeat, and served by its own topic and types |
| `Settling.RequestsCanStep` | aerozen/node_shared.cpp:899-1084 | no deadlock: in every reachable state that is not at rest, some thread at work on requests can take a step |
| `Settling.RequestsComeToRest` | aerozen/node_shared.cpp:1847-1886 | no livelock: from any state, no run of callbacks, service thread and a Request call goes on for ever without a new call, publisher or message |
| `Settling.EveryRequestIsRequested` | aerozen/node_shared.cpp:1192-1233 | from every reachable state, threads that go on until they are at rest reach a state at rest with the same publishers known, in which every stored request whose service is known has been requested |
| `ServiceCalls.ServiceCalls.OnNewSrvConnection` | aerozen/node_shared.cpp:1192-1233 | connects to the address exactly when it is new, and queues the publisher exactly when a stored request has its service and types |
| `ServiceCalls.ServiceCalls.RecvSrvResponse` | aerozen/node_shared.cpp:798-897 | notifies exactly when the request is stored, and removes it and nothing else |
| `ServiceCalls.ServiceCalls.FindResponder` | aerozen/node_shared.cpp:905-935 | finds a publisher with the right types whenever the discovery knows one |
| `ServiceCalls.ServiceCalls.SendPendingRemoteReqs` | aerozen/node_shared.cpp:899-1084 | marks every due request, sends each that can be written and that the socket takes exactly once to the responder found, and drops the one-way ones dispatched |
| `Subscriptions.NoLostSubscription` | aerozen/node_shared.cpp:1086-1153 | in every run, for each remote publisher known and each local handler taking it: NEW_CONNECTION for that node was sent since the publisher was added, or its callback or the handler's own Subscribe call is still to get to it |
| `Subscriptions.CallbackMeans` | aerozen/node_shared.cpp:1106-1144 | a node is registered with a publisher of another process exactly when it has a handler on the topic for the type or for the generic one |
| `Subscriptions.KeptMeans` | aerozen/node_shared.cpp:1148-1152 | what is meant by that: read off the trace, some NEW_CONNECTION for the node and publisher is followed by no new adding of the publisher and, in guarded runs, by no END_CONNECTION of the node |
| `Subscriptions.NoRegistrationTakenBack` | aerozen/node_shared.cpp:1963-2056 | and no END_CONNECTION of the node followed, in every run in which no node subscribes again to a topic it is still leaving |
| `Resubscription.GuardIsExact` | aerozen/node_shared.cpp:2024-2053 | after any such run, subscribing a new handler can end at rest with END_CONNECTION as the last word, for a publisher it takes, if and only if its node is still leaving the topic |
| `Resubscription.EndOvertakesNew` | aerozen/node_shared.cpp:2024-2053 | the overtaking run for every run in which the node is still leaving, every new handler and every publisher it takes |
| `Resubscription.LeavingIsReached` | aerozen/node_shared.cpp:2024-2053 | a node is leaving between its Unsubscribe and the message |
| `Subscriptions.QuietMeansRegistered` | aerozen/detail/node.hpp:154-166 | with both threads at rest every such pair is registered |
| `Settling.RegistrationsCanStep` | aerozen/node_shared.cpp:1086-1153 | no deadlock: whenever the reception thread or a Subscribe call is not at rest, one of them can take a step |
| `Settling.RegistrationsComeToRest` | aerozen/node_shared.cpp:1086-1153 | no livelock: from any state, no run of these two goes on for ever |
| `Settling.EveryPairIsRegistered` | aerozen/node_shared.cpp:1086-1153 | from every reachable state, threads that go on until they are at rest reach a state at rest with the same publishers and handlers, in which every remote publisher is registered with by the node of every handler that takes it |
| `Subscriptions.RegistrationsAreEarned` | aerozen/node_shared.cpp:1130-1152 | every NEW_CONNECTION names a remote publisher that was added and a node that stored a handler for its topic and type |
| `Subscribers.NodeShared.Subscribe` | aerozen/detail/node.hpp:154-166 | stores the normal handler and lists the topic, so that a topic stays listed for a node exactly when the node handles it |
| `Subscribers.NodeShared.SubscribeRaw` | aerozen/node.cpp:871-876 | the same for a raw handler |
| `Subscribers.SubscribedMeans` | aerozen/detail/node.hpp:154-166 | subscribing adds the one handler and listing, keeps one stored before under the same UUIDs, and touches nothing else |
| `Subscribers.LeftMeans` | aerozen/node_shared.cpp:1544-1558 | handler by handler: those named go from both lists, but a single normal one from that list only |
| `Subscribers.NodeShared.RemoveHandlersFromPubQueue` | aerozen/node_shared.cpp:2096-2162 | each queued message of the topic loses exactly the node's handlers (or one of them) in place, every other message stays as it was |
| `Subscribers.NodeShared.RemoveHandlersForNode` | aerozen/node_shared.cpp:1544-1551 | removes exactly the node's normal and raw handlers on the topic |
| `Subscribers.NodeShared.RemoveHandler` | aerozen/node_shared.cpp:1553-1558 | removes one handler, a raw one only when no normal one has its UUID |
| `Subscribers.NodeShared.Unsubscribe` | aerozen/node_shared.cpp:1963-2056 | the exact handlers, lists and queue left, for one handler or all of the node; refused exactly when the name given does not qualify; when no handler of the node is left, END_CONNECTION to each process known for the topic and then to all, naming this process and node; a queued message of the topic is silenced exactly when the remapped topic is its absolute name |
| `Subscribers.PurgeReaches` | aerozen/node_shared.cpp:1979-1983 | a queued message of the topic with a handler that goes, normal or raw, is silenced by the purge exactly when the remapped topic is the absolute name of the topic as given |
| `Subscribers.PurgeIsExact` | aerozen/node_shared.cpp:1979-1983 | exactly then the purge treats every message as a purge by the topic's own name would; for a topic that is not remapped this says that it is rooted |
| `Subscribers.PurgeMissesRemapped` | aerozen/node_shared.cpp:1979-1983 | a rooted remapping with which the topic's message keeps its handler and another topic's message loses one |
| `Subscribers.QueuedTopicIsDecomposed` | aerozen/message_info.cpp:89-92 | the topic of a queued message is the absolute name, the full name less its partition |
| `Subscribers.NodeShared.NodeUuids` | aerozen/node_shared.cpp:1514-1542 | the node of each normal, then of each raw handler that takes the topic and type, once for each handler |
| `Subscribers.NodeShared.OnNewConnection` | aerozen/node_shared.cpp:1086-1153 | for a remote publisher on a subscribed topic: dials a new address, records the connection, and registers the node of each handler that takes its messages, normal ones first, with the publisher's process in the control field; the nodes registered are those of the `Subscriptions` callback on the normal and raw handlers together |
| `Nodes.Node.Unsubscribe` | aerozen/node.cpp:734-737 | drops the listing and every handler of the node on the name as given, and nothing else |
| `Nodes.Node.SubscribeThenUnsubscribe` | aerozen/node_shared.cpp:1968-1977 | unsubscribing by the name used to subscribe leaves the topic listed exactly when remapping changes the absolute name |
| `Nodes.RemappedTopicStays` | aerozen/node_shared.cpp:1968-1977 | a remapping with which it does, for every node that has it; `Nodes.NewRemappedNode` makes one |
| `Nodes.Node.AdvertiseService` | aerozen/detail/node.hpp:234-297 | lists the service, stores its handler and has it announced; the first two even when the discovery service then refuses |
| `Nodes.Node.UnadvertiseSrv` | aerozen/node.cpp:755-784 | forgets the service, the node's handlers for it and its announcements, and nothing else |
| `Nodes.Node.SubscribedTopics` | aerozen/node.cpp:717-731 | the listed topics without their partition, as many as are listed |
| `Nodes.Node.UnsubscribeAll` | aerozen/node.cpp:667-674 | unsubscribing every name in SubscribedTopics() leaves no topic and no handler of the node, and all of every other node's |
| `Nodes.Node.UnadvertiseAll` | aerozen/node.cpp:676-687 | unadvertising every name in AdvertisedServices() leaves no service, replier or announcement of the node, and all of the others |
| `Nodes.DroppedMeans` | aerozen/node.cpp:734-737 | what Unsubscribe leaves, handler by handler and topic by topic |
| `Nodes.WithoutAllMeans` | aerozen/node.cpp:667-674 | what UnsubscribeAll leaves, handler by handler and topic by topic |
| `Nodes.ServedMeans` | aerozen/node.cpp:676-687 | what UnadvertiseSrv and UnadvertiseAll leave, replier by replier and announcement by announcement |
| `Nodes.Node.Destroy` | aerozen/node.cpp:667-687 | the destructor leaves nothing of the node in the handler lists, the repliers and the service announcements, and all of the other nodes, for every partition, namespace and topic |
| `Nodes.OtherStaysValid` | aerozen/node.cpp:667-687 | whatever a method of one node does, it keeps what the other nodes of the process have, and another node is as ready for its own teardown as before |
| `Nodes.DestroyBeside` | aerozen/node.cpp:667-687 | after one node's teardown another node of the process can be torn down as completely |
| `PubQueue.EraseBelonging` | aerozen/node_shared.cpp:2108-2124 | erasing while iterating computes the filter and terminates |
| `PubQueue.KeptPositions` | aerozen/node_shared.cpp:2108-2124 | the filter keeps, in order, precisely the positions whose handler is another node's, or another one when one is named |
| `PubQueue.PurgedMeans` | aerozen/node_shared.cpp:2096-2162 | handler by handler: a message of the topic loses the node's handlers, or the one named, from both lists; other messages stay as they were |
| `Text.JoinSplit` | aerozen/helpers.cpp:35-46 | joining the pieces of a split restores the string, and no piece contains the delimiter |
| `Text.SplitJoin` | aerozen/helpers.cpp:35-46 | splitting a joined list restores it exactly when no piece contains the delimiter |
| `Text.SplitScan` | aerozen/helpers.cpp:35-46 | the scan with two positions computes the split |
| `Text.MangleIffDemangle` | aerozen/topic_utils.cpp:443-491 | mangling and demangling are inverse bijections between the lists and the strings they accept |
| `Text.MangleTypeScan` | aerozen/topic_utils.cpp:443-462 | appending each type with its separator and dropping the last computes the mangled text; refused exactly for an empty list, an empty type or a type with the separator |
| `Text.DemangleTypeScan` | aerozen/topic_utils.cpp:464-491 | taking one type at a time agrees with splitting, and refuses exactly the strings with an empty piece |
| `Names.QualifiedRoundTrip` | aerozen/topic_utils.cpp:91-164 | every accepted (partition, namespace, topic) decomposes to its normalised partition and absolute topic, both valid, and these qualify to the same name under any valid namespace |
| `Names.SameNameIff` | aerozen/topic_utils.cpp:91-139 | two accepted triples share a full name exactly when normalised partitions and absolute topics agree |
| `Names.RequalifiesIffCanonical` | aerozen/topic_utils.cpp:91-164 | a name that decomposes qualifies back to itself exactly when it is within the length limit, its partition empty or rooted and its topic rooted |
| `Names.QualifiedImage` | aerozen/topic_utils.cpp:91-164 | the names that qualification produces are exactly the canonical ones |
| `Names.DecomposeIffSpelled` | aerozen/topic_utils.cpp:142-164 | decomposition accepts exactly `@partition@topic` with both parts valid |
| `Names.StrippedRequalifies` | aerozen/node.cpp:722-728 | a full name stripped of its partition qualifies back to itself in the same node |
| `Names.ValidMeans` | aerozen/topic_utils.cpp:46-88 | a topic is valid exactly when it is neither empty nor a lone slash, has at most 65535 symbols, none of them `~`, `@` or a space, and holds neither `//` nor `:=`; a partition or namespace may also be empty |
| `Names.QualifiedShows` | aerozen/topic_utils.cpp:105-139 | without trailing slashes, the name is `@`, the partition with a leading slash or nothing, `@`, and the topic if rooted, else the namespace with a leading slash, a slash and the topic |
| `Names.TrailingSlashIsDropped` | aerozen/topic_utils.cpp:105-133 | a trailing slash of partition, namespace or topic makes no difference |
| `Names.NamesKeepApart` | aerozen/topic_utils.cpp:91-139 | two partitions never give the same name, nor two namespaces to a relative topic, unless they are the same but for the leading slash |
| `Names.FullyQualifiedName` | aerozen/topic_utils.cpp:91-139 | the rewriting of local strings computes the qualified name, refused exactly for invalid parts or a name too long |
| `Sanitizing.SanitizedIsValid` | aerozen/topic_utils.cpp:356-392 | the result is empty or a valid topic; exactly the valid topics (and the empty string) come back unchanged; doing it twice is doing it once |
| `Sanitizing.ScrubbedIsKept` | aerozen/topic_utils.cpp:360-386 | the scan keeps exactly the positions that are not `@`, `~`, a half of `:=`, or a slash of a row other than the last of an odd row; a space shows as `_` |
| `Sanitizing.SanitizedIsLostIff` | aerozen/topic_utils.cpp:356-392 | for every string: the result is what is kept, or nothing; the whole is lost exactly when nothing, a lone slash or too much is kept, or when two slashes or the halves of `:=` are kept with only deleted positions between them |
| `Sanitizing.DeletionsFormPairs` | aerozen/topic_utils.cpp:364-386 | strings that are lost to a pair formed by deletion, one for each pair |
| `Sanitizing.AsValidTopic` | aerozen/topic_utils.cpp:356-392 | the scan with its skips computes the sanitised topic |
| `Tokens.TokenRoundTrip` | aerozen/topic_utils.cpp:394-416 | a message token is read back as its inputs exactly when they are portable and the type has no slash |
| `Tokens.ServiceTokenRoundTrip` | aerozen/topic_utils.cpp:418-429 | a service token is read back exactly when its inputs are portable and both types are non-empty, without separator and slash |
| `Tokens.TokenLayout` | aerozen/topic_utils.cpp:394-416 | what each of the thirteen fields of a token reads |
| `Tokens.ServiceTokenLayout` | aerozen/topic_utils.cpp:418-429 | a service token is a message token whose type is the two types with an ampersand between, or nothing when one is empty or holds an ampersand |
| `Tokens.TokenInjective` | aerozen/topic_utils.cpp:394-416 | portable inputs with the same message token are the same inputs |
| `Tokens.ServiceTokenInjective` | aerozen/topic_utils.cpp:418-429 | portable inputs with the same service token are the same inputs |
| `Tokens.NoTokenWithoutName` | aerozen/topic_utils.cpp:407-416 | with a name that does not decompose only the suffix is left, and no slash-free type makes a token of it |
| `Tokens.DecomposeHelperScan` | aerozen/topic_utils.cpp:166-279 | erasing field after field from a local copy computes the fields of the split, refused exactly for too few fields, a missing prefix, an empty field or invalid names |
| `Tokens.DecomposeTokenScan` | aerozen/topic_utils.cpp:274-308 | the same for the remaining three fields of a message token |
| `Tokens.DecomposeServiceTokenScan` | aerozen/topic_utils.cpp:311-354 | the same for a service token, whose type field must demangle to exactly two |
| `Statistics.Statistics.Update` | aerozen/topic_statistics.cpp:84-101 | after any samples the average is their mean, the sum the squared distances from that mean, and the extremes the least and greatest of the samples and the initial values |
| `Statistics.WelfordStep` | aerozen/topic_statistics.cpp:97-100 | the product added is exactly the growth of the scatter about the mean |
| `Statistics.OrderIndependent` | aerozen/topic_statistics.cpp:84-101 | neither the mean nor the scatter depends on the order of the samples |
| `Statistics.MeanBetween` | aerozen/topic_statistics.cpp:88-90 | the average lies between any bounds on the samples |
| `Statistics.Statistics.Variance` | aerozen/topic_statistics.cpp:107-110 | the square of the standard deviation is the scatter over the number of samples, and not negative |
| `Statistics.ExtremesAreSamples` | aerozen/topic_statistics.hpp:100-110 | the minimum is a sample exactly when some sample is within the initial bound, the maximum exactly when some sample reaches the smallest positive normal double |
| `Throttle.ThrottleBound` | aerozen/subscription_handler.cpp:126-143 | over any stretch of a run under a monotone clock and one caller, k passes within W nanoseconds mean (k - 1) * 1e9 <= W * rate; at rate zero none passes |
| `Throttle.PassesIff` | aerozen/subscription_handler.cpp:126-143 | at a rate above zero an attempt passes exactly when a full period has gone by since the last one that passed (or the clock's origin): refused attempts make no difference |
| `Throttle.RefusedMeans` | aerozen/subscription_handler.cpp:126-143 | every refusal comes within a period of an attempt that passed, or of the origin when none has, or at rate zero; without a limit there is none |
| `Throttle.SubscriptionHandler.UpdateThrottling` | aerozen/subscription_handler.cpp:126-143 | passes exactly when the run so far makes it ready, and remembers the time only then |
| `Throttle.PublisherHandler.UpdateThrottling` | aerozen/node.cpp:115-126 | the same with the clock read once to decide and again to remember |

## Left out

- Sockets, ZeroMQ and Zenoh calls, network interfaces, threads and condition variables: a send adds datagrams to the network or a message to a list, a mutex-protected block is one step, and UUIDs and clock readings are parameters.
- Zenoh liveliness callbacks (`aerozen/discovery.hpp:231-352`), which bypass `activity`; only the token text is modelled.
- Protobuf encoding: discovery messages are datatypes, and senders fill them as `FillDiscovery` does. Message factories and descriptors are not part of this model.
- Authentication (`aerozen/node_shared.cpp:1587-1768`).
- Floating-point rounding and the square root of `StdDev`: exact reals, and the variance.
- Publisher throttling from several threads.
- Convergence of two processes' views over a network that reorders: an ADVERTISE that arrives after its UNADVERTISE leaves a stale entry.
- Callbacks are assumed set once discovery has started, and `WaitForInit` blocks nobody.
- A handler is a stored value; a change made through its shared pointer is `HandlerStorage.Replace`. Aliasing of one handler under two keys is not modelled.
- The order in which map keys are visited.
- Subscriptions.NoLostSubscription: a node with several handlers is registered once in the state machine, where the code repeats the message for each; `Subscribers.NodeShared.OnNewConnection` does repeat it.
- Discovery.Discovery.UpdateHeartbeat: one step, where the code has three critical sections with the sends between them (`aerozen/discovery.hpp:869-935`), so that another call may come between.
- ServiceCalls.ServiceCalls.RecvSrvResponse: one step, where the code notifies with the mutex released; `Requests` has the three steps apart.
- Subscribers.NodeShared.Subscribe: the discovery request made under the same lock is a step of `Subscriptions` instead.
- Subscribers.NodeShared.SubscribeRaw: the same.
- Subscribers.NodeShared.Unsubscribe: the processes known to the discovery service once the lock is released are a parameter.
- The undefined behaviour of erasing from a vector without taking the iterator returned (`aerozen/node_shared.cpp:2111`): the position is taken to stay put, as it does in practice.
- Nodes.Node.SubscribedTopics: creating the empty list of a node that has none is not modelled, since no query tells it apart.
- Requests.NoStrandedRequest: the wait of a blocking Request and its timeout, after which the handler stays stored, are not steps of their own; a stored request may stay for ever.
- `OnNewDisconnection`, and the uses that publishing makes of the list of remote subscribers.
- `TopicStatistics`: the periods it feeds to `Statistics` and its count of missing messages, which compares each sequence number with the sender's last.
- The topic and service lists of a node, parameters, option classes, the C interface, examples and tools: simple wrappers over what is modelled.
