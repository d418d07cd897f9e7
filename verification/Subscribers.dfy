/** The subscribers of a process: NodeShared's handler lists and delivery queue (aerozen/node_shared.cpp). */
module Subscribers {
  import opened Publishers
  import opened Sequences
  import H = HandlerStorage
  import T = TopicStorage
  import Names
  import PubQueue
  import S = Subscriptions

  datatype NodeOptions = NodeOptions(partition: string, ns: string, remaps: map<string, string>)

  function TopicRemap(opts: NodeOptions, topic: string): string {
    if topic in opts.remaps then opts.remaps[topic] else topic
  }

  function FullName(opts: NodeOptions, topic: string): Option<string> {
    Names.Qualified(opts.partition, opts.ns, topic)
  }

  /** The normal and raw handlers of this process, by (topic, node, handler); the value is the message type. */
  type Flat = map<H.Id, string>

  ghost predicate Handles(normal: Flat, raw: Flat, nUuid: string, topic: string) {
    H.AnyOfNode(normal, topic, nUuid) || H.AnyOfNode(raw, topic, nUuid)
  }

  ghost function Added<V>(flat: map<H.Id, V>, id: H.Id, value: V): map<H.Id, V> {
    if id in flat then flat else flat[id := value]
  }

  lemma AddedHandles<V>(flat: map<H.Id, V>, id: H.Id, value: V, nUuid: string, topic: string)
    ensures H.AnyOfNode(Added(flat, id, value), topic, nUuid)
       <==> H.AnyOfNode(flat, topic, nUuid) || (id.topic == topic && id.nUuid == nUuid)
  {
  }

  lemma WithoutNodeHandles<V>(flat: map<H.Id, V>, t: string, n: string, nUuid: string, topic: string)
    ensures H.AnyOfNode(H.WithoutNode(flat, t, n), topic, nUuid)
       <==> H.AnyOfNode(flat, topic, nUuid) && !(t == topic && n == nUuid)
  {
  }

  lemma WithoutOneHandles(flat: Flat, id: H.Id, nUuid: string, topic: string)
    requires !(id.topic == topic && id.nUuid == nUuid)
    ensures H.AnyOfNode(flat - {id}, topic, nUuid) <==> H.AnyOfNode(flat, topic, nUuid)
  {
  }

  /** What Unsubscribe leaves of the normal and raw handlers; an empty handler UUID means all of the
      node's, and a single handler is looked for among the raw ones only when it is not a normal one. */
  ghost function NormalLeft(normal: Flat, full: string, nUuid: string, hUuid: string): Flat {
    if hUuid == "" then H.WithoutNode(normal, full, nUuid) else normal - {H.Id(full, nUuid, hUuid)}
  }

  ghost function RawLeft(normal: Flat, raw: Flat, full: string, nUuid: string, hUuid: string): Flat {
    if hUuid == "" then H.WithoutNode(raw, full, nUuid)
    else if H.Id(full, nUuid, hUuid) in normal then raw
    else raw - {H.Id(full, nUuid, hUuid)}
  }

  /** Handler by handler: those named go from both lists, but a single one that is a normal handler from that only. */
  lemma LeftMeans(normal: Flat, raw: Flat, full: string, nUuid: string, hUuid: string, id: H.Id)
    ensures var n, r := NormalLeft(normal, full, nUuid, hUuid), RawLeft(normal, raw, full, nUuid, hUuid);
            var named := id.topic == full && id.nUuid == nUuid && (hUuid == "" || id.hUuid == hUuid);
            && (id in n <==> id in normal && !named) && (id in n ==> n[id] == normal[id])
            && (id in r <==> id in raw && !(named && (hUuid == "" || id !in normal))) && (id in r ==> r[id] == raw[id])
  {
  }

  lemma LeftElsewhere(normal: Flat, raw: Flat, full: string, nUuid: string, hUuid: string, n: string, t: string)
    requires !(n == nUuid && t == full)
    ensures Handles(NormalLeft(normal, full, nUuid, hUuid), RawLeft(normal, raw, full, nUuid, hUuid), n, t)
       <==> Handles(normal, raw, n, t)
  {
    WithoutNodeHandles(normal, full, nUuid, n, t);
    WithoutNodeHandles(raw, full, nUuid, n, t);
    WithoutOneHandles(normal, H.Id(full, nUuid, hUuid), n, t);
    WithoutOneHandles(raw, H.Id(full, nUuid, hUuid), n, t);
  }

  lemma LeftNone(normal: Flat, raw: Flat, full: string, nUuid: string)
    ensures !Handles(NormalLeft(normal, full, nUuid, ""), RawLeft(normal, raw, full, nUuid, ""), nUuid, full)
  {
  }

  lemma LeftSubset(normal: Flat, raw: Flat, full: string, nUuid: string, hUuid: string)
    requires Handles(NormalLeft(normal, full, nUuid, hUuid), RawLeft(normal, raw, full, nUuid, hUuid), nUuid, full)
    ensures Handles(normal, raw, nUuid, full)
  {
  }

  /** The topics listed for each node. */
  type Listed = map<string, set<string>>

  function TopicsOf(listed: Listed, nUuid: string): set<string> {
    if nUuid in listed then listed[nUuid] else {}
  }

  function Listing(listed: Listed, nUuid: string, full: string): Listed {
    listed[nUuid := TopicsOf(listed, nUuid) + {full}]
  }

  function Delisting(listed: Listed, nUuid: string, full: string): Listed {
    if nUuid in listed then listed[nUuid := listed[nUuid] - {full}] else listed
  }

  /** A topic is listed for a node exactly when the node has a normal or raw handler for it. */
  ghost predicate ListsHandled(listed: Listed, normal: Flat, raw: Flat) {
    forall n, t :: t in TopicsOf(listed, n) <==> Handles(normal, raw, n, t)
  }

  lemma SubscribeLists(listed: Listed, normal: Flat, raw: Flat, id: H.Id, msgType: string)
    requires ListsHandled(listed, normal, raw)
    ensures ListsHandled(Listing(listed, id.nUuid, id.topic), Added(normal, id, msgType), raw)
    ensures ListsHandled(Listing(listed, id.nUuid, id.topic), normal, Added(raw, id, msgType))
  {
    var after := Listing(listed, id.nUuid, id.topic);
    forall n, t
      ensures t in TopicsOf(after, n) <==> Handles(Added(normal, id, msgType), raw, n, t)
      ensures t in TopicsOf(after, n) <==> Handles(normal, Added(raw, id, msgType), n, t)
    {
      assert t in TopicsOf(listed, n) <==> Handles(normal, raw, n, t);
      AddedHandles(normal, id, msgType, n, t);
      AddedHandles(raw, id, msgType, n, t);
    }
  }

  lemma UnsubscribeLists(listed: Listed, normal: Flat, raw: Flat, full: string, nUuid: string, hUuid: string)
    requires ListsHandled(listed, normal, raw)
    ensures var normalLeft, rawLeft := NormalLeft(normal, full, nUuid, hUuid), RawLeft(normal, raw, full, nUuid, hUuid);
            ListsHandled(if Handles(normalLeft, rawLeft, nUuid, full) then listed else Delisting(listed, nUuid, full),
                         normalLeft, rawLeft)
  {
    var normalLeft, rawLeft := NormalLeft(normal, full, nUuid, hUuid), RawLeft(normal, raw, full, nUuid, hUuid);
    var stays := Handles(normalLeft, rawLeft, nUuid, full);
    var after := if stays then listed else Delisting(listed, nUuid, full);
    forall n, t ensures t in TopicsOf(after, n) <==> Handles(normalLeft, rawLeft, n, t) {
      assert t in TopicsOf(listed, n) <==> Handles(normal, raw, n, t);
      if n == nUuid && t == full {
        if stays { LeftSubset(normal, raw, full, nUuid, hUuid); }
      } else {
        LeftElsewhere(normal, raw, full, nUuid, hUuid, n, t);
      }
    }
  }

  /** What this process holds for its subscribers. */
  datatype Held = Held(listed: Listed, normal: Flat, raw: Flat)

  ghost function Subscribed(h: Held, id: H.Id, msgType: string): Held {
    Held(Listing(h.listed, id.nUuid, id.topic), Added(h.normal, id, msgType), h.raw)
  }

  ghost function SubscribedRaw(h: Held, id: H.Id, msgType: string): Held {
    Held(Listing(h.listed, id.nUuid, id.topic), h.normal, Added(h.raw, id, msgType))
  }

  /** Subscribing adds the one handler and the one listing, keeps a handler stored before under the same UUIDs, and
      touches nothing else. */
  lemma SubscribedMeans(h: Held, id: H.Id, msgType: string, other: H.Id, n: string, t: string)
    ensures var s := Subscribed(h, id, msgType);
            && id in s.normal && s.normal[id] == (if id in h.normal then h.normal[id] else msgType)
            && (other != id ==> (other in s.normal <==> other in h.normal)
                                && (other in h.normal ==> s.normal[other] == h.normal[other]))
            && s.raw == h.raw
            && (n in s.listed && t in s.listed[n] <==>
                  (n in h.listed && t in h.listed[n]) || (n == id.nUuid && t == id.topic))
    ensures SubscribedRaw(h, id, msgType)
         == Held(Subscribed(h, id, msgType).listed, h.normal,
                 Subscribed(Held(h.listed, h.raw, h.normal), id, msgType).normal)
  {
  }

  /** The handlers on the topic that take messages of this type. */
  ghost function Takers(flat: Flat, topic: string, msgType: string): set<H.Id> {
    set id | id in flat && id.topic == topic && TypeMatches(flat[id], msgType)
  }

  ghost function NodesOf(ids: seq<H.Id>): seq<string> {
    seq(|ids|, i requires 0 <= i < |ids| => ids[i].nUuid)
  }

  lemma NodesOfMembers(ids: seq<H.Id>, n: string)
    ensures n in NodesOf(ids) <==> exists id: H.Id :: id in Elements(ids) && id.nUuid == n
  {
    if id :| id in Elements(ids) && id.nUuid == n {
      var i :| 0 <= i < |ids| && ids[i] == id;
      assert NodesOf(ids)[i] == n;
    }
  }

  /** The same among the given nodes of a topic's submap. */
  ghost function TakersIn(m: H.Nodes<string>, nodes: set<string>, topic: string, msgType: string): set<H.Id> {
    set n, h | n in nodes && n in m && h in m[n] && TypeMatches(m[n][h], msgType) :: H.Id(topic, n, h)
  }

  ghost function TakersAt(hs: H.Handlers<string>, handlers: set<string>, topic: string, nUuid: string,
                          msgType: string): set<H.Id>
  {
    set h | h in handlers && h in hs && TypeMatches(hs[h], msgType) :: H.Id(topic, nUuid, h)
  }

  lemma TakersListed(flat: Flat, m: H.Nodes<string>, topic: string, msgType: string)
    requires forall id: H.Id | id.topic == topic ::
               (id in flat <==> id.nUuid in m && id.hUuid in m[id.nUuid]) &&
               (id in flat ==> m[id.nUuid][id.hUuid] == flat[id])
    ensures TakersIn(m, m.Keys, topic, msgType) == Takers(flat, topic, msgType)
  {
    forall id ensures id in TakersIn(m, m.Keys, topic, msgType) <==> id in Takers(flat, topic, msgType) {
      if id in Takers(flat, topic, msgType) { assert H.Id(topic, id.nUuid, id.hUuid) == id; }
    }
  }

  lemma TakersOfNode(m: H.Nodes<string>, nodes: set<string>, n: string, topic: string, msgType: string)
    requires n in m
    ensures TakersIn(m, nodes + {n}, topic, msgType)
         == TakersIn(m, nodes, topic, msgType) + TakersAt(m[n], m[n].Keys, topic, n, msgType)
  {
  }

  lemma TakersOfOne(hs: H.Handlers<string>, handlers: set<string>, h: string, topic: string, nUuid: string,
                    msgType: string)
    requires h in hs && h !in handlers
    ensures TakersAt(hs, handlers + {h}, topic, nUuid, msgType)
         == TakersAt(hs, handlers, topic, nUuid, msgType)
            + if TypeMatches(hs[h], msgType) then {H.Id(topic, nUuid, h)} else {}
    ensures H.Id(topic, nUuid, h) !in TakersAt(hs, handlers, topic, nUuid, msgType)
  {
  }

  /** The topic that MessageInfo answers for the messages of a topic of the node: the full name less its partition. */
  function QueuedTopic(opts: NodeOptions, topic: string): string {
    Names.Absolute(opts.ns, topic)
  }

  lemma QueuedTopicIsDecomposed(opts: NodeOptions, topic: string)
    requires FullName(opts, topic).Some?
    ensures Names.Decompose(FullName(opts, topic).value)
         == Some((Names.NormPartition(opts.partition), QueuedTopic(opts, topic)))
  {
    Names.QualifiedRoundTrip(opts.partition, opts.ns, topic, opts.ns);
  }

  /** Unsubscribe purges by the remapped topic as written. A queued message of the topic it unsubscribes from, with a
      handler that goes, is silenced exactly when the remapped topic is the topic's absolute name. */
  lemma PurgeReaches(opts: NodeOptions, topic: string, q: seq<PubQueue.Message>, i: nat, nUuid: string,
                     hUuid: Option<string>)
    requires FullName(opts, topic).Some?
    requires i < |q| && q[i].topic == QueuedTopic(opts, topic) && PubQueue.StillCalls(q[i], nUuid, hUuid)
    ensures !PubQueue.StillCalls(PubQueue.PurgedQueue(q, TopicRemap(opts, topic), nUuid, hUuid)[i], nUuid, hUuid)
       <==> TopicRemap(opts, topic) == Names.Absolute(opts.ns, topic)
  {
    PubQueue.PurgeSilences(q[i], TopicRemap(opts, topic), nUuid, hUuid);
  }

  function Named(hUuid: string): Option<string> {
    if hUuid == "" then None else Some(hUuid)
  }

  lemma QueueReached(opts: NodeOptions, topic: string, q: seq<PubQueue.Message>, nUuid: string, hUuid: Option<string>)
    requires FullName(opts, topic).Some?
    ensures forall i | 0 <= i < |q| && q[i].topic == QueuedTopic(opts, topic)
            && PubQueue.StillCalls(q[i], nUuid, hUuid) ::
              !PubQueue.StillCalls(PubQueue.PurgedQueue(q, TopicRemap(opts, topic), nUuid, hUuid)[i], nUuid, hUuid)
              <==> TopicRemap(opts, topic) == Names.Absolute(opts.ns, topic)
  {
    forall i | 0 <= i < |q| && q[i].topic == QueuedTopic(opts, topic) && PubQueue.StillCalls(q[i], nUuid, hUuid)
      ensures !PubQueue.StillCalls(PubQueue.PurgedQueue(q, TopicRemap(opts, topic), nUuid, hUuid)[i], nUuid, hUuid)
              <==> TopicRemap(opts, topic) == Names.Absolute(opts.ns, topic)
    {
      PurgeReaches(opts, topic, q, i, nUuid, hUuid);
    }
  }

  /** For every message the purge does what a purge by the topic's own queued name does, exactly under that condition;
      for a topic that is not remapped it says that the topic is rooted. */
  lemma PurgeIsExact(opts: NodeOptions, topic: string, nUuid: string, hUuid: Option<string>)
    requires FullName(opts, topic).Some?
    ensures (forall m :: PubQueue.Purged(m, TopicRemap(opts, topic), nUuid, hUuid)
                         == PubQueue.Purged(m, QueuedTopic(opts, topic), nUuid, hUuid))
       <==> TopicRemap(opts, topic) == Names.Absolute(opts.ns, topic)
    ensures topic !in opts.remaps ==>
              (TopicRemap(opts, topic) == Names.Absolute(opts.ns, topic) <==> Names.Rooted(topic))
  {
    Names.AbsoluteIsRooted(opts.ns, topic);
    var h := PubQueue.Handler(nUuid, if hUuid.Some? then hUuid.value else "");
    var m := PubQueue.Message(QueuedTopic(opts, topic), "", [h], []);
    assert h in m.localHandlers && PubQueue.Belongs(h, nUuid, hUuid);
    PubQueue.PurgeSilences(m, TopicRemap(opts, topic), nUuid, hUuid);
    PubQueue.PurgeSilences(m, QueuedTopic(opts, topic), nUuid, hUuid);
  }

  /** A rooted remapping is not enough: unsubscribing from "a", remapped to "/b", leaves the handlers of the messages on
      "/a" and takes those of the messages on "/b". */
  lemma PurgeMissesRemapped(payload: string, h: string) returns (opts: NodeOptions, q: seq<PubQueue.Message>)
    ensures FullName(opts, "a").Some? && Names.Rooted(TopicRemap(opts, "a"))
    ensures |q| == 2 && q[0].topic == QueuedTopic(opts, "a") && q[1].topic == QueuedTopic(opts, "/b")
    ensures var left := PubQueue.PurgedQueue(q, TopicRemap(opts, "a"), "n", None);
            PubQueue.StillCalls(q[0], "n", None) && left[0] == q[0] &&
            PubQueue.StillCalls(q[1], "n", None) && !PubQueue.StillCalls(left[1], "n", None)
  {
    opts := NodeOptions("", "", map["a" := "/b"]);
    var handler := PubQueue.Handler("n", h);
    q := [PubQueue.Message("/a", payload, [handler], []), PubQueue.Message("/b", payload, [handler], [])];
    assert Names.Clean("a") && Names.Accepted("", "", "a");
    assert handler in q[0].localHandlers && handler in q[1].localHandlers;
    PubQueue.PurgeSilences(q[1], "/b", "n", None);
  }

  /** The nodes that the registrations name. */
  ghost function NodesNamed(pubs: seq<Publisher>): set<string> {
    set x | x in pubs :: x.nUuid
  }

  /** One registration for each handler that takes the publisher's messages, naming the handler's node: the normal
      handlers in some order, then the raw ones. */
  ghost predicate AreRegistrations(h: Held, pUuid: string, pub: Publisher, toRegister: seq<Publisher>, ids: seq<H.Id>,
                                   rawIds: seq<H.Id>)
    requires pub.Kind() == MsgKind
  {
    && Lists(ids, Takers(h.normal, pub.topic, pub.details.msgType))
    && Lists(rawIds, Takers(h.raw, pub.topic, pub.details.msgType))
    && |toRegister| == |ids| + |rawIds|
    && forall i | 0 <= i < |toRegister| ::
         toRegister[i] == Registration(pub, pUuid, (NodesOf(ids) + NodesOf(rawIds))[i])
  }

  lemma NamedByRegistrations(pub: Publisher, pUuid: string, uuids: seq<string>, pubs: seq<Publisher>)
    requires pub.Kind() == MsgKind && |pubs| == |uuids|
    requires forall i | 0 <= i < |uuids| :: pubs[i] == Registration(pub, pUuid, uuids[i])
    ensures NodesNamed(pubs) == Elements(uuids)
  {
    forall n | n in uuids ensures n in NodesNamed(pubs) {
      var i :| 0 <= i < |uuids| && uuids[i] == n;
      assert pubs[i] in pubs && pubs[i].nUuid == n;
    }
  }

  /** Some handler of the node takes the type. */
  ghost predicate InterestedIn(normal: Flat, raw: Flat, nUuid: string, topic: string, msgType: string) {
    exists id: H.Id :: id.nUuid == nUuid && (id in Takers(normal, topic, msgType) || id in Takers(raw, topic, msgType))
  }

  /** The nodes with a handler that takes the publisher's messages are those that Subscriptions registers. */
  lemma InterestedNodes(normal: Flat, raw: Flat, pub: Publisher)
    requires pub.Kind() == MsgKind
    ensures forall n :: InterestedIn(normal, raw, n, pub.topic, pub.details.msgType)
                   <==> n in S.NodesFor(normal, pub) + S.NodesFor(raw, pub)
  {
  }

  /** The nodes are those that the connection callback registers in every state of Subscriptions with the handlers of
      both kinds together, no handler being of both. */
  ghost predicate FollowsCallback(nodes: set<string>, normal: Flat, raw: Flat, pUuid: string, pub: Publisher) {
    forall s: S.Sys {:trigger S.Callback(s, pub)}
      | s.self == pUuid && normal.Keys !! raw.Keys && s.handlers == normal + raw :: nodes == S.Callback(s, pub)
  }

  lemma CallbackNodes(normal: Flat, raw: Flat, pUuid: string, pub: Publisher)
    requires pub.Kind() == MsgKind
    ensures FollowsCallback(
              if pub.pUuid != pUuid && (H.AnyOnTopic(normal, pub.topic) || H.AnyOnTopic(raw, pub.topic))
              then S.NodesFor(normal, pub) + S.NodesFor(raw, pub) else {}, normal, raw, pUuid, pub)
  {
    if normal.Keys !! raw.Keys {
      assert S.NodesFor(normal + raw, pub) == S.NodesFor(normal, pub) + S.NodesFor(raw, pub);
      assert H.AnyOnTopic(normal + raw, pub.topic) <==> H.AnyOnTopic(normal, pub.topic) || H.AnyOnTopic(raw, pub.topic);
    }
  }

  class NodeShared {
    const pUuid: string
    const myAddress: string
    const myReplierAddress: string
    const replierId: string
    const normal: H.HandlerStorage<string>
    const raw: H.HandlerStorage<string>
    const repliers: H.HandlerStorage<(string, string)>
    const connections: T.TopicStorage
    var topicsSubscribed: Listed
    var pubQueue: seq<PubQueue.Message>

    ghost predicate Intact()
      reads this, normal, raw, repliers, connections
    {
      && normal != raw && repliers as object != normal as object && repliers as object != raw as object
      && normal.Valid() && raw.Valid() && repliers.Valid() && connections.Valid()
    }

    ghost predicate Valid()
      reads this, normal, raw, repliers, connections
    {
      Intact() && ListsHandled(topicsSubscribed, normal.Contents(), raw.Contents())
    }

    ghost function View(): Held
      reads this, normal, raw
    {
      Held(topicsSubscribed, normal.Contents(), raw.Contents())
    }

    constructor (pUuid: string, address: string, replierAddress: string, replierId: string)
      ensures this.pUuid == pUuid && myAddress == address
      ensures myReplierAddress == replierAddress && this.replierId == replierId
      ensures Valid() && repliers.Contents() == map[] && pubQueue == [] && topicsSubscribed == map[]
      ensures fresh(normal) && fresh(raw) && fresh(repliers) && fresh(connections)
    {
      this.pUuid, myAddress, myReplierAddress, this.replierId := pUuid, address, replierAddress, replierId;
      normal := new H.HandlerStorage<string>();
      raw := new H.HandlerStorage<string>();
      repliers := new H.HandlerStorage<(string, string)>();
      connections := new T.TopicStorage();
      topicsSubscribed, pubQueue := map[], [];
    }

    /** The half of a subscription done under the lock: the handler is stored, then the topic listed. */
    method Subscribe(id: H.Id, msgType: string)
      requires Valid()
      modifies this`topicsSubscribed, normal
      ensures Valid()
      ensures View() == Subscribed(old(View()), id, msgType) && repliers.Contents() == old(repliers.Contents())
    {
      SubscribeLists(topicsSubscribed, normal.Contents(), raw.Contents(), id, msgType);
      normal.AddHandler(id.topic, id.nUuid, id.hUuid, msgType);
      SubscribeHelper(id.topic, id.nUuid);
    }

    method SubscribeRaw(id: H.Id, msgType: string)
      requires Valid()
      modifies this`topicsSubscribed, raw
      ensures Valid()
      ensures View() == SubscribedRaw(old(View()), id, msgType) && repliers.Contents() == old(repliers.Contents())
    {
      SubscribeLists(topicsSubscribed, normal.Contents(), raw.Contents(), id, msgType);
      raw.AddHandler(id.topic, id.nUuid, id.hUuid, msgType);
      SubscribeHelper(id.topic, id.nUuid);
    }

    method SubscribeHelper(full: string, nUuid: string)
      modifies this`topicsSubscribed
      ensures topicsSubscribed == Listing(old(topicsSubscribed), nUuid, full)
    {
      if nUuid !in topicsSubscribed {
        topicsSubscribed := topicsSubscribed[nUuid := {}];
      }
      topicsSubscribed := topicsSubscribed[nUuid := topicsSubscribed[nUuid] + {full}];
    }

    /** The handlers of one node, or one of them, dropped from every queued message of the topic. */
    method RemoveHandlersFromPubQueue(topic: string, nUuid: string, hUuid: Option<string>)
      modifies this`pubQueue
      ensures pubQueue == PubQueue.PurgedQueue(old(pubQueue), topic, nUuid, hUuid)
    {
      for i := 0 to |pubQueue|
        invariant |pubQueue| == |old(pubQueue)|
        invariant forall k | 0 <= k < i :: pubQueue[k] == PubQueue.Purged(old(pubQueue)[k], topic, nUuid, hUuid)
        invariant forall k | i <= k < |pubQueue| :: pubQueue[k] == old(pubQueue)[k]
      {
        if pubQueue[i].topic != topic { continue; }
        var m := pubQueue[i];
        var local := PubQueue.EraseBelonging(m.localHandlers, nUuid, hUuid);
        var rawHandlers := PubQueue.EraseBelonging(m.rawHandlers, nUuid, hUuid);
        pubQueue := pubQueue[i := m.(localHandlers := local, rawHandlers := rawHandlers)];
      }
    }

    method RemoveSubscribedTopic(full: string, nUuid: string) returns (removed: bool)
      modifies this`topicsSubscribed
      ensures removed <==> full in TopicsOf(old(topicsSubscribed), nUuid)
      ensures topicsSubscribed == Delisting(old(topicsSubscribed), nUuid, full)
    {
      if nUuid !in topicsSubscribed { return false; }
      removed := full in topicsSubscribed[nUuid];
      topicsSubscribed := topicsSubscribed[nUuid := topicsSubscribed[nUuid] - {full}];
    }

    method RemoveHandlersForNode(full: string, nUuid: string) returns (removed: bool)
      requires Intact()
      modifies normal, raw
      ensures Intact()
      ensures normal.Contents() == NormalLeft(old(normal.Contents()), full, nUuid, "")
      ensures raw.Contents() == RawLeft(old(normal.Contents()), old(raw.Contents()), full, nUuid, "")
      ensures removed <==> Handles(old(normal.Contents()), old(raw.Contents()), nUuid, full)
    {
      removed := normal.RemoveHandlersForNode(full, nUuid);
      var removedRaw := raw.RemoveHandlersForNode(full, nUuid);
      removed := removed || removedRaw;
    }

    method RemoveHandler(id: H.Id) returns (removed: bool)
      requires Intact() && id.hUuid != ""
      modifies normal, raw
      ensures Intact()
      ensures normal.Contents() == NormalLeft(old(normal.Contents()), id.topic, id.nUuid, id.hUuid)
      ensures raw.Contents() == RawLeft(old(normal.Contents()), old(raw.Contents()), id.topic, id.nUuid, id.hUuid)
      ensures removed <==> id in old(normal.Contents()) || id in old(raw.Contents())
    {
      removed := normal.RemoveHandler(id);
      if !removed {
        removed := raw.RemoveHandler(id);
      }
    }

    method HasSubscriberForNode(full: string, nUuid: string) returns (found: bool)
      requires Intact()
      ensures found <==> Handles(normal.Contents(), raw.Contents(), nUuid, full)
    {
      found := normal.HasHandlersForNode(full, nUuid);
      if !found {
        found := raw.HasHandlersForNode(full, nUuid);
      }
    }

    /** The full name is that of `topic` as given, not of its remapping; the queue is purged by the remapped name as it
        is, unqualified. `known` are the processes that the discovery service knows for the topic once the lock is
        released, and `farewells` the END_CONNECTION messages then sent to them and to all. */
    method Unsubscribe(topic: string, nUuid: string, opts: NodeOptions, hUuid: string, known: seq<string>)
      returns (ok: bool, farewells: seq<Publisher>)
      requires Valid()
      modifies this`topicsSubscribed, this`pubQueue, normal, raw
      ensures Valid()
      ensures ok <==> FullName(opts, topic).Some?
      ensures !ok ==> farewells == [] && pubQueue == old(pubQueue) && topicsSubscribed == old(topicsSubscribed)
                      && normal.Contents() == old(normal.Contents()) && raw.Contents() == old(raw.Contents())
      ensures ok ==> var full := FullName(opts, topic).value;
                && normal.Contents() == NormalLeft(old(normal.Contents()), full, nUuid, hUuid)
                && raw.Contents() == RawLeft(old(normal.Contents()), old(raw.Contents()), full, nUuid, hUuid)
                && pubQueue == PubQueue.PurgedQueue(old(pubQueue), TopicRemap(opts, topic), nUuid, Named(hUuid))
                && (if Handles(normal.Contents(), raw.Contents(), nUuid, full)
                    then farewells == [] && topicsSubscribed == old(topicsSubscribed)
                    else IsFarewell(farewells, full, nUuid, known)
                         && topicsSubscribed == Delisting(old(topicsSubscribed), nUuid, full))
      ensures ok ==> forall i | 0 <= i < |pubQueue| && old(pubQueue)[i].topic == QueuedTopic(opts, topic)
                              && PubQueue.StillCalls(old(pubQueue)[i], nUuid, Named(hUuid)) ::
                !PubQueue.StillCalls(pubQueue[i], nUuid, Named(hUuid))
                <==> TopicRemap(opts, topic) == Names.Absolute(opts.ns, topic)
    {
      var remapped := TopicRemap(opts, topic);
      var name := FullName(opts, topic);
      if name == None { return false, []; }
      var full := name.value;
      UnsubscribeLists(topicsSubscribed, normal.Contents(), raw.Contents(), full, nUuid, hUuid);
      QueueReached(opts, topic, pubQueue, nUuid, Named(hUuid));
      RemoveHandlersFromPubQueue(remapped, nUuid, Named(hUuid));
      var removed: bool;
      if hUuid == "" {
        removed := RemoveHandlersForNode(full, nUuid);
      } else {
        removed := RemoveHandler(H.Id(full, nUuid, hUuid));
      }
      var left := HasSubscriberForNode(full, nUuid);
      ok, farewells := true, [];
      if left { return; }
      removed := RemoveSubscribedTopic(full, nUuid);
      farewells := Farewells(full, nUuid, known);
    }

    function ServicePublisher(full: string, nUuid: string, types: (string, string), scope: Scope): Publisher {
      Publisher(full, myReplierAddress, pUuid, nUuid, scope, SrvDetails(replierId, types.0, types.1, scope))
    }

    method AddReplier(id: H.Id, types: (string, string))
      requires Valid()
      modifies repliers
      ensures Valid() && repliers.Contents() == Added(old(repliers.Contents()), id, types)
    {
      repliers.AddHandler(id.topic, id.nUuid, id.hUuid, types);
    }

    /** END_CONNECTION to each process in turn, then to everyone. */
    predicate IsFarewell(farewells: seq<Publisher>, full: string, nUuid: string, known: seq<string>) {
      && |farewells| == |known| + 1
      && (forall i | 0 <= i < |known| :: farewells[i] == Farewell(full, nUuid, known[i]))
      && farewells[|known|] == Farewell(full, nUuid, "")
    }

    /** Names this process and node as the subscriber; the destination goes in `ctrl`. */
    function Farewell(full: string, nUuid: string, dst: string): Publisher {
      Leaver(full, myAddress, pUuid, nUuid, dst)
    }

    method Farewells(full: string, nUuid: string, known: seq<string>) returns (farewells: seq<Publisher>)
      ensures IsFarewell(farewells, full, nUuid, known)
    {
      farewells := [];
      for i := 0 to |known|
        invariant |farewells| == i && forall k | 0 <= k < i :: farewells[k] == Farewell(full, nUuid, known[k])
      {
        farewells := farewells + [Farewell(full, nUuid, known[i])];
      }
      farewells := farewells + [Farewell(full, nUuid, "")];
    }

    /** The node of every handler of one storage that takes the type, once for each such handler. */
    method AppendNodeUuids(storage: H.HandlerStorage<string>, topic: string, msgType: string)
      returns (uuids: seq<string>, ghost ids: seq<H.Id>)
      requires storage.Valid()
      ensures Lists(ids, Takers(storage.Contents(), topic, msgType)) && uuids == NodesOf(ids)
    {
      uuids, ids := [], [];
      var handlers := storage.HandlersOf(topic);
      if handlers == None { return; }
      TakersListed(storage.Contents(), handlers.value, topic, msgType);
      uuids, ids := AppendNodes(handlers.value, topic, msgType);
    }

    static method AppendNodes(m: H.Nodes<string>, topic: string, msgType: string)
      returns (uuids: seq<string>, ghost ids: seq<H.Id>)
      ensures Lists(ids, TakersIn(m, m.Keys, topic, msgType)) && uuids == NodesOf(ids)
    {
      uuids, ids := [], [];
      var todo := m.Keys;
      while todo != {}
        invariant todo <= m.Keys
        invariant Lists(ids, TakersIn(m, m.Keys - todo, topic, msgType)) && uuids == NodesOf(ids)
      {
        var n :| n in todo;
        TakersOfNode(m, m.Keys - todo, n, topic, msgType);
        assert m.Keys - (todo - {n}) == (m.Keys - todo) + {n};
        todo := todo - {n};
        uuids, ids := AppendHandlers(m[n], topic, n, msgType, uuids, ids,
                                     TakersIn(m, m.Keys - todo - {n}, topic, msgType));
      }
      assert m.Keys - {} == m.Keys;
    }

    static method AppendHandlers(hs: H.Handlers<string>, topic: string, nUuid: string, msgType: string,
                                 uuids0: seq<string>, ghost ids0: seq<H.Id>, ghost whole: set<H.Id>)
      returns (uuids: seq<string>, ghost ids: seq<H.Id>)
      requires Lists(ids0, whole) && uuids0 == NodesOf(ids0) && forall id | id in whole :: id.nUuid != nUuid
      ensures Lists(ids, whole + TakersAt(hs, hs.Keys, topic, nUuid, msgType)) && uuids == NodesOf(ids)
    {
      uuids, ids := uuids0, ids0;
      var todo := hs.Keys;
      while todo != {}
        invariant todo <= hs.Keys && uuids == NodesOf(ids)
        invariant Lists(ids, whole + TakersAt(hs, hs.Keys - todo, topic, nUuid, msgType))
      {
        var h :| h in todo;
        TakersOfOne(hs, hs.Keys - todo, h, topic, nUuid, msgType);
        assert hs.Keys - (todo - {h}) == (hs.Keys - todo) + {h};
        if TypeMatches(hs[h], msgType) {
          ListsAppend(ids, whole + TakersAt(hs, hs.Keys - todo, topic, nUuid, msgType), H.Id(topic, nUuid, h));
          uuids, ids := uuids + [nUuid], ids + [H.Id(topic, nUuid, h)];
        }
        todo := todo - {h};
      }
      assert hs.Keys - {} == hs.Keys;
    }

    /** The nodes of the normal, then of the raw handlers that take the type: a node with several is named for each. */
    method NodeUuids(topic: string, msgType: string) returns (uuids: seq<string>, ghost ids: seq<H.Id>,
                                                              ghost rawIds: seq<H.Id>)
      requires Intact()
      ensures Lists(ids, Takers(normal.Contents(), topic, msgType))
      ensures Lists(rawIds, Takers(raw.Contents(), topic, msgType))
      ensures uuids == NodesOf(ids) + NodesOf(rawIds)
      ensures forall n :: n in uuids <==> InterestedIn(normal.Contents(), raw.Contents(), n, topic, msgType)
    {
      var first, second;
      first, ids := AppendNodeUuids(normal, topic, msgType);
      second, rawIds := AppendNodeUuids(raw, topic, msgType);
      uuids := first + second;
      forall n ensures n in uuids <==> InterestedIn(normal.Contents(), raw.Contents(), n, topic, msgType) {
        NodesOfMembers(ids, n);
        NodesOfMembers(rawIds, n);
      }
    }

    method HasSubscriber(topic: string) returns (found: bool)
      requires Intact()
      ensures found <==> H.AnyOnTopic(normal.Contents(), topic) || H.AnyOnTopic(raw.Contents(), topic)
    {
      found := normal.HasHandlersForTopic(topic);
      if !found { found := raw.HasHandlersForTopic(topic); }
    }

    /** Tells whether the publisher's address is new. */
    method Connect(pub: Publisher) returns (dial: bool)
      requires connections.Valid()
      modifies connections
      ensures connections.Valid()
      ensures dial <==> !exists x | x in old(connections.Contents()) :: x.addr == pub.addr
      ensures connections.Contents() == old(connections.Contents()) +
                if T.HasKey(old(connections.Contents()), pub) then {} else {pub}
    {
      var connected := connections.HasPublisher(pub.addr);
      var added := connections.AddPublisher(pub);
      dial := !connected;
    }

    method Registrations(pub: Publisher, uuids: seq<string>) returns (pubs: seq<Publisher>)
      requires pub.Kind() == MsgKind
      ensures |pubs| == |uuids| && forall i | 0 <= i < |uuids| :: pubs[i] == Registration(pub, pUuid, uuids[i])
    {
      pubs := [];
      for i := 0 to |uuids|
        invariant |pubs| == i && forall k | 0 <= k < i :: pubs[k] == Registration(pub, pUuid, uuids[k])
      {
        pubs := pubs + [Registration(pub, pUuid, uuids[i])];
      }
    }

    /** Connects to a remote publisher, and returns the registrations to send once the lock is released: to the nodes
        that the callback of Subscriptions registers. */
    method OnNewConnection(pub: Publisher)
      returns (dial: bool, toRegister: seq<Publisher>, ghost ids: seq<H.Id>, ghost rawIds: seq<H.Id>)
      requires Valid() && pub.Kind() == MsgKind
      modifies connections
      ensures Valid()
      ensures connections.Contents() ==
                if Remote(pub) then old(connections.Contents()) +
                                    if T.HasKey(old(connections.Contents()), pub) then {} else {pub}
                else old(connections.Contents())
      ensures dial <==> Remote(pub) && !exists x | x in old(connections.Contents()) :: x.addr == pub.addr
      ensures if Remote(pub) then AreRegistrations(View(), pUuid, pub, toRegister, ids, rawIds) else toRegister == []
      ensures FollowsCallback(NodesNamed(toRegister), normal.Contents(), raw.Contents(), pUuid, pub)
    {
      dial, toRegister, ids, rawIds := false, [], [], [];
      var interested := HasSubscriber(pub.topic);
      CallbackNodes(normal.Contents(), raw.Contents(), pUuid, pub);
      if !interested || pub.pUuid == pUuid { return; }
      dial, toRegister, ids, rawIds := ConnectAndRegister(pub);
    }

    method ConnectAndRegister(pub: Publisher)
      returns (dial: bool, toRegister: seq<Publisher>, ghost ids: seq<H.Id>, ghost rawIds: seq<H.Id>)
      requires Valid() && pub.Kind() == MsgKind
      modifies connections
      ensures Valid() && View() == old(View())
      ensures dial <==> !exists x | x in old(connections.Contents()) :: x.addr == pub.addr
      ensures connections.Contents() == old(connections.Contents()) +
                if T.HasKey(old(connections.Contents()), pub) then {} else {pub}
      ensures AreRegistrations(View(), pUuid, pub, toRegister, ids, rawIds)
      ensures NodesNamed(toRegister) == S.NodesFor(View().normal, pub) + S.NodesFor(View().raw, pub)
    {
      ghost var held := View();
      dial := Connect(pub);
      assert View() == held && Valid();
      toRegister, ids, rawIds := RegisterTakers(pub);
    }

    method RegisterTakers(pub: Publisher)
      returns (toRegister: seq<Publisher>, ghost ids: seq<H.Id>, ghost rawIds: seq<H.Id>)
      requires Intact() && pub.Kind() == MsgKind
      ensures AreRegistrations(View(), pUuid, pub, toRegister, ids, rawIds)
      ensures NodesNamed(toRegister) == S.NodesFor(normal.Contents(), pub) + S.NodesFor(raw.Contents(), pub)
    {
      var uuids;
      uuids, ids, rawIds := NodeUuids(pub.topic, pub.details.msgType);
      toRegister := Registrations(pub, uuids);
      NamedByRegistrations(pub, pUuid, uuids, toRegister);
      InterestedNodes(normal.Contents(), raw.Contents(), pub);
    }

    /** From another process, on a topic that some node here subscribes to. */
    ghost predicate Remote(pub: Publisher)
      reads this, normal, raw
    {
      && pub.pUuid != pUuid
      && (H.AnyOnTopic(normal.Contents(), pub.topic) || H.AnyOnTopic(raw.Contents(), pub.topic))
    }
  }

  /** A node that no longer subscribes; the destination goes in `ctrl`. */
  function Leaver(full: string, address: string, pUuid: string, nUuid: string, dst: string): Publisher {
    Publisher(full, address, pUuid, nUuid, ALL, MsgDetails(dst, GENERIC_MESSAGE_TYPE, ALL, UNTHROTTLED))
  }

  /** The publisher with this process and node as the subscriber; its own process goes in `ctrl`. */
  function Registration(pub: Publisher, pUuid: string, nUuid: string): Publisher
    requires pub.Kind() == MsgKind
  {
    pub.(pUuid := pUuid, nUuid := nUuid, details := pub.details.(ctrl := pub.pUuid))
  }
}
