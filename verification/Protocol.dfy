/** The discovery protocol of aerozen/discovery.hpp, one process at a time: what each event does to its state. */
module Protocol {
  import opened Publishers
  import opened Sequences
  import opened TopicStorage

  datatype MsgType =
    | UNINITIALIZED | ADVERTISE | SUBSCRIBE | UNADVERTISE | HEARTBEAT | BYE
    | NEW_CONNECTION | END_CONNECTION | SUBSCRIBERS_REQ | SUBSCRIBERS_REP

  /** A discovery message; absent flags read as false. */
  datatype Message = Message(
    version: nat, kind: MsgType, process: string, pub: WirePub, sub: Option<string>, relay: bool, noRelay: bool)

  /** A message handed to the multicast group, or to every relay address. */
  datatype Out = Multicast(msg: Message) | Unicast(msg: Message)

  /** A client callback that the discovery runs after releasing its mutex. */
  datatype Call =
    | Connect(pub: Publisher) | Disconnect(pub: Publisher)
    | Register(pub: Publisher) | Unregister(pub: Publisher) | Subscribers

  /** Times are nanoseconds of a steady clock, intervals milliseconds. `info` and `remoteSubscribers` are the flat
      contents of the two TopicStorage fields. */
  datatype State = State(
    self: string, kind: Kind, version: nat, interfaces: set<string>,
    silenceInterval: nat, activityInterval: nat, heartbeatInterval: nat,
    enabled: bool, info: set<Publisher>, remoteSubscribers: set<Publisher>,
    activity: map<string, int>, relays: seq<string>,
    timeNextHeartbeat: int, timeNextActivity: int, initialized: bool, heartbeats: nat)

  datatype Effect = Effect(next: State, outs: seq<Out>, calls: seq<Call>)

  const NS_PER_MS := 1_000_000

  /** duration_cast to milliseconds truncates toward zero. */
  function Milliseconds(ns: int): int {
    if ns >= 0 then ns / NS_PER_MS else -((-ns) / NS_PER_MS)
  }

  function Later(now: int, interval: nat): int {
    now + interval * NS_PER_MS
  }

  /** AddPublisher on the flat set. */
  ghost function Added(entries: set<Publisher>, p: Publisher): set<Publisher> {
    if HasKey(entries, p) then entries else entries + {p}
  }

  /** The address of this host, as far as the process knows its interfaces. */
  predicate Local(interfaces: set<string>, address: string) {
    address in interfaces || "127." <= address
  }

  predicate IsLocal(s: State, from: string) {
    Local(s.interfaces, from)
  }

  /** The receiver's scope check, judged by the address of the last hop. */
  predicate Admits(s: State, from: string, p: Publisher) {
    p.Scope() != PROCESS && (p.Scope() == HOST ==> IsLocal(s, from))
  }

  /** The publisher without derived data that HEARTBEAT, BYE and SUBSCRIBERS_REQ carry. */
  function Anonymous(s: State): WirePub {
    WirePub("", "", s.self, "", ALL, NoBody)
  }

  /** A default-constructed Pub with topic and process set. */
  function BlankPublisher(kind: Kind, topic: string, pUuid: string): Publisher {
    Publisher(topic, "", pUuid, "", ALL,
      if kind == MsgKind then MsgDetails("", "", ALL, UNTHROTTLED) else SrvDetails("", "", "", ALL))
  }

  /** SendMsg to ALL: once to the group, once with the RELAY flag to the relays. */
  function Send(s: State, kind: MsgType, pub: WirePub): seq<Out> {
    var m := Message(s.version, kind, s.self, pub, if kind == SUBSCRIBE then Some(pub.topic) else None, false, false);
    [Multicast(m), Unicast(m.(relay := true))]
  }

  function SendEach(s: State, kind: MsgType, pubs: seq<Publisher>): seq<Out> {
    if pubs == [] then [] else Send(s, kind, FillDiscovery(pubs[0])) + SendEach(s, kind, pubs[1..])
  }

  function AddRelay(s: State, ip: string): State {
    if ip in s.relays then s else s.(relays := s.relays + [ip])
  }

  /** The own publishers that answer a SUBSCRIBE from this address. */
  ghost function Eligible(s: State, from: string, topic: string): set<Publisher> {
    set x | x in s.info && x.topic == topic && x.pUuid == s.self && Admits(s, from, x)
  }

  /** Processing of a message once the forwarding is done. `answers` is the order in which SUBSCRIBE is answered. */
  ghost function Handle(s: State, from: string, m: Message, answers: seq<Publisher>): Effect {
    var p := SetFromDiscovery(s.kind, m.sub, m.pub);
    match m.kind
    case ADVERTISE =>
      if !Admits(s, from, p) then Effect(s, [], [])
      else Effect(s.(info := Added(s.info, p)), [],
                  if HasKey(s.info, p) then [] else [Connect(p)])
    case SUBSCRIBE => if m.sub.None? then Effect(s, [], []) else Effect(s, SendEach(s, ADVERTISE, answers), [])
    case SUBSCRIBERS_REQ => Effect(s, [], [Subscribers])
    case SUBSCRIBERS_REP => Effect(s.(remoteSubscribers := Added(s.remoteSubscribers, p)), [], [])
    case NEW_CONNECTION => Effect(s, [], [Register(p)])
    case END_CONNECTION => Effect(s, [], [Unregister(p)])
    case BYE =>
      Effect(s.(activity := s.activity - {m.process}, info := s.info - OfProcess(s.info, m.process)), [],
             [Disconnect(BlankPublisher(s.kind, "", m.process))])
    case UNADVERTISE =>
      if !Admits(s, from, p) then Effect(s, [], [])
      else Effect(s.(info := s.info - OfNode(s.info, p.topic, p.pUuid, p.nUuid)), [], [Disconnect(p)])
    case _ => Effect(s, [], [])
  }

  ghost function Dispatch(s: State, from: string, m: Message, now: int, answers: seq<Publisher>): Effect {
    if m.version != s.version || m.process == s.self then Effect(s, [], [])
    else if m.relay then
      Effect(AddRelay(s, from), [Multicast(m.(relay := false, noRelay := true))], [])
    else
      var forward := if m.noRelay then [] else [Unicast(m.(relay := true))];
      var e := Handle(s.(activity := s.activity[m.process := now]), from, m, answers);
      Effect(e.next, forward + e.outs, e.calls)
  }

  /** SUBSCRIBE is answered with each eligible publisher exactly once. */
  ghost predicate AnswersFor(s: State, from: string, m: Message, answers: seq<Publisher>) {
    m.kind == SUBSCRIBE && m.sub.Some? ==> Lists(answers, Eligible(s, from, m.sub.value))
  }

  ghost predicate CanAdvertise(s: State, pub: Publisher) {
    s.enabled && !HasKey(s.info, pub)
  }

  ghost function Advertise(s: State, pub: Publisher): Effect {
    if !CanAdvertise(s, pub) then Effect(s, [], [])
    else Effect(s.(info := s.info + {pub}),
                if pub.Scope() != PROCESS then Send(s, ADVERTISE, FillDiscovery(pub)) else [], [Connect(pub)])
  }

  /** `first` is the publisher the storage finds for the node: its scope decides whether the network is told. */
  ghost function Unadvertise(s: State, topic: string, nUuid: string, first: Option<Publisher>): Effect {
    if !s.enabled || first.None? then Effect(s, [], [])
    else Effect(s.(info := s.info - OfNode(s.info, topic, s.self, nUuid)),
                if first.value.Scope() != PROCESS then Send(s, UNADVERTISE, FillDiscovery(first.value)) else [], [])
  }

  ghost predicate FirstOf(s: State, topic: string, nUuid: string, first: Option<Publisher>) {
    && (first.None? <==> OfNode(s.info, topic, s.self, nUuid) == {})
    && (first.Some? ==> first.value in OfNode(s.info, topic, s.self, nUuid))
  }

  function Connects(pubs: seq<Publisher>): seq<Call> {
    if pubs == [] then [] else [Connect(pubs[0])] + Connects(pubs[1..])
  }

  /** `known` are the publishers already stored for the topic; each gets one connection callback. */
  ghost function Discover(s: State, topic: string, known: seq<Publisher>): Effect {
    if !s.enabled then Effect(s, [], [])
    else Effect(s, Send(s, SUBSCRIBE, FillDiscovery(BlankPublisher(s.kind, topic, s.self))), Connects(known))
  }

  /** `own` is the order in which the own publishers are advertised again, whatever their scope. */
  ghost function Heartbeat(s: State, now: int, later: int, own: seq<Publisher>): Effect {
    if now < s.timeNextHeartbeat then Effect(s, [], [])
    else Effect(
      s.(timeNextHeartbeat := Later(later, s.heartbeatInterval),
         initialized := s.initialized || s.heartbeats == 2,
         heartbeats := if s.initialized then s.heartbeats else s.heartbeats + 1),
      Send(s, MsgType.HEARTBEAT, Anonymous(s)) + SendEach(s, ADVERTISE, own), [])
  }

  predicate Silent(s: State, now: int, q: string)
    requires q in s.activity
  {
    Milliseconds(now - s.activity[q]) > s.silenceInterval
  }

  ghost function Expired(s: State, now: int): set<string> {
    set q | q in s.activity && Silent(s, now, q)
  }

  function Disconnects(kind: Kind, gone: seq<string>): seq<Call> {
    if gone == [] then [] else [Disconnect(BlankPublisher(kind, "", gone[0]))] + Disconnects(kind, gone[1..])
  }

  /** UpdateActivity. `gone` is the order in which the expired processes are reported. */
  ghost function Sweep(s: State, now: int, later: int, gone: seq<string>): Effect {
    if now < s.timeNextActivity then Effect(s, [], [])
    else Effect(
      s.(info := (set x | x in s.info && x.pUuid !in Expired(s, now)),
         activity := s.activity - Expired(s, now),
         timeNextActivity := Later(later, s.activityInterval)),
      [], Disconnects(s.kind, gone))
  }

  ghost function TopicListRequest(s: State): Effect {
    Effect(s.(remoteSubscribers := {}), Send(s, SUBSCRIBERS_REQ, Anonymous(s)), [])
  }

  lemma SendEachAppend(s: State, kind: MsgType, pubs: seq<Publisher>, p: Publisher)
    ensures SendEach(s, kind, pubs + [p]) == SendEach(s, kind, pubs) + Send(s, kind, FillDiscovery(p))
  {
    if pubs != [] {
      SendEachAppend(s, kind, pubs[1..], p);
      assert (pubs + [p])[1..] == pubs[1..] + [p];
    } else {
      assert (pubs + [p])[1..] == [];
    }
  }

  lemma ConnectsAppend(pubs: seq<Publisher>, p: Publisher)
    ensures Connects(pubs + [p]) == Connects(pubs) + [Connect(p)]
  {
    if pubs != [] {
      ConnectsAppend(pubs[1..], p);
      assert (pubs + [p])[1..] == pubs[1..] + [p];
    }
  }

  lemma DisconnectsAppend(kind: Kind, gone: seq<string>, q: string)
    ensures Disconnects(kind, gone + [q]) == Disconnects(kind, gone) + [Disconnect(BlankPublisher(kind, "", q))]
  {
    if gone != [] {
      DisconnectsAppend(kind, gone[1..], q);
      assert (gone + [q])[1..] == gone[1..] + [q];
    }
  }

  /** Every message of a bulk send is one of the single sends. */
  lemma SendEachMembers(s: State, kind: MsgType, pubs: seq<Publisher>, o: Out)
    requires o in SendEach(s, kind, pubs)
    ensures exists p | p in pubs :: o in Send(s, kind, FillDiscovery(p))
  {
    if o !in Send(s, kind, FillDiscovery(pubs[0])) {
      SendEachMembers(s, kind, pubs[1..], o);
    }
  }
}
