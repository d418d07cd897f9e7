/** A node: what it subscribes to and serves, and the destructor that leaves nothing of it (aerozen/node.cpp). */
module Nodes {
  import opened Publishers
  import opened Sequences
  import opened Subscribers
  import D = Discovery
  import H = HandlerStorage
  import T = TopicStorage
  import Names

  /** A full name that the node's own options produce. */
  ghost predicate Own(opts: NodeOptions, full: string) {
    exists topic :: FullName(opts, topic) == Some(full)
  }

  ghost predicate AllOwn(opts: NodeOptions, fulls: set<string>) {
    forall full | full in fulls :: Own(opts, full)
  }

  lemma EachOwn(opts: NodeOptions, fulls: seq<string>)
    requires AllOwn(opts, Elements(fulls))
    ensures forall i | 0 <= i < |fulls| :: Own(opts, fulls[i])
  {
    forall i | 0 <= i < |fulls| ensures Own(opts, fulls[i]) { assert fulls[i] in Elements(fulls); }
  }

  lemma OwnRequalifies(opts: NodeOptions, full: string)
    requires Own(opts, full)
    ensures FullName(opts, Names.Stripped(full)) == Some(full)
  {
    var topic :| FullName(opts, topic) == Some(full);
    Names.StrippedRequalifies(opts.partition, opts.ns, topic);
  }

  ghost function OthersOf<V>(flat: map<H.Id, V>, nUuid: string): map<H.Id, V> {
    map id | id in flat && id.nUuid != nUuid :: flat[id]
  }

  lemma OthersSpareAdded<V>(flat: map<H.Id, V>, id: H.Id, value: V)
    ensures OthersOf(Added(flat, id, value), id.nUuid) == OthersOf(flat, id.nUuid)
  {
  }

  lemma OthersSpareDropped<V>(flat: map<H.Id, V>, full: string, nUuid: string)
    ensures OthersOf(H.WithoutNode(flat, full, nUuid), nUuid) == OthersOf(flat, nUuid)
  {
  }

  /** What is left when the node has dropped its handlers on all topics but these. */
  ghost function Remaining<V>(flat: map<H.Id, V>, nUuid: string, topics: set<string>): map<H.Id, V> {
    map id | id in flat && (id.nUuid != nUuid || id.topic in topics) :: flat[id]
  }

  lemma RemainingStep<V>(flat: map<H.Id, V>, nUuid: string, topics: set<string>, full: string)
    requires full in topics
    ensures H.WithoutNode(Remaining(flat, nUuid, topics), full, nUuid) == Remaining(flat, nUuid, topics - {full})
  {
  }

  lemma RemainingEnds<V>(flat: map<H.Id, V>, nUuid: string, topics: set<string>)
    requires forall t | H.AnyOfNode(flat, t, nUuid) :: t in topics
    ensures Remaining(flat, nUuid, topics) == flat
    ensures Remaining(flat, nUuid, {}) == OthersOf(flat, nUuid)
  {
  }

  /** One topic of the node dropped: its listing and every handler of the node on it. */
  ghost function Dropped(h: Held, nUuid: string, full: string): Held {
    Held(Delisting(h.listed, nUuid, full), H.WithoutNode(h.normal, full, nUuid), H.WithoutNode(h.raw, full, nUuid))
  }

  ghost function Left(h: Held, nUuid: string, topics: set<string>): Held {
    Held(if nUuid in h.listed then h.listed[nUuid := topics] else h.listed,
         Remaining(h.normal, nUuid, topics), Remaining(h.raw, nUuid, topics))
  }

  /** Nothing of the node, and all that the other nodes have. */
  ghost function WithoutAll(h: Held, nUuid: string): Held {
    Held(if nUuid in h.listed then h.listed[nUuid := {}] else h.listed,
         OthersOf(h.normal, nUuid), OthersOf(h.raw, nUuid))
  }

  /** Read off topic by topic and handler by handler. */
  lemma DroppedMeans(h: Held, nUuid: string, full: string, id: H.Id, n: string, t: string)
    ensures var d := Dropped(h, nUuid, full);
            && (id in d.normal <==> id in h.normal && !(id.topic == full && id.nUuid == nUuid))
            && (id in d.raw <==> id in h.raw && !(id.topic == full && id.nUuid == nUuid))
            && (id in d.normal ==> d.normal[id] == h.normal[id]) && (id in d.raw ==> d.raw[id] == h.raw[id])
            && (n in d.listed && t in d.listed[n] <==> n in h.listed && t in h.listed[n] && !(n == nUuid && t == full))
  {
  }

  lemma WithoutAllMeans(h: Held, nUuid: string, id: H.Id, n: string, t: string)
    ensures var d := WithoutAll(h, nUuid);
            && (id in d.normal <==> id in h.normal && id.nUuid != nUuid)
            && (id in d.raw <==> id in h.raw && id.nUuid != nUuid)
            && (id in d.normal ==> d.normal[id] == h.normal[id]) && (id in d.raw ==> d.raw[id] == h.raw[id])
            && (n in d.listed && t in d.listed[n] <==> n in h.listed && t in h.listed[n] && n != nUuid)
  {
  }

  lemma LeftStep(h: Held, nUuid: string, topics: set<string>, full: string)
    requires full in topics && topics <= TopicsOf(h.listed, nUuid)
    ensures Dropped(Left(h, nUuid, topics), nUuid, full) == Left(h, nUuid, topics - {full})
  {
    RemainingStep(h.normal, nUuid, topics, full);
    RemainingStep(h.raw, nUuid, topics, full);
  }

  lemma LeftEnds(h: Held, nUuid: string)
    requires ListsHandled(h.listed, h.normal, h.raw)
    ensures Left(h, nUuid, TopicsOf(h.listed, nUuid)) == h
    ensures Left(h, nUuid, {}) == WithoutAll(h, nUuid)
  {
    forall t | Handles(h.normal, h.raw, nUuid, t) ensures t in TopicsOf(h.listed, nUuid) {}
    RemainingEnds(h.normal, nUuid, TopicsOf(h.listed, nUuid));
    RemainingEnds(h.raw, nUuid, TopicsOf(h.listed, nUuid));
  }

  ghost function StrippedNames(names: set<string>): set<string> {
    set full | full in names :: Names.Stripped(full)
  }

  lemma StrippedElements(v: seq<string>, fulls: seq<string>)
    requires |v| == |fulls| && forall i | 0 <= i < |v| :: v[i] == Names.Stripped(fulls[i])
    ensures Elements(v) == StrippedNames(Elements(fulls))
  {
    forall x | x in StrippedNames(Elements(fulls)) ensures x in v {
      var i :| 0 <= i < |fulls| && x == Names.Stripped(fulls[i]);
      assert v[i] == x;
    }
  }

  lemma ElementsStep(s: seq<string>, i: nat)
    requires i < |s| && forall j, k | 0 <= j < k < |s| :: s[j] != s[k]
    ensures s[i] in Elements(s[i..]) && Elements(s[i + 1..]) == Elements(s[i..]) - {s[i]}
  {
  }

  ghost function LeftFrom(h: Held, nUuid: string, fulls: seq<string>, i: nat): Held
    requires i <= |fulls|
  {
    Left(h, nUuid, Elements(fulls[i..]))
  }

  lemma LeftFromStep(h: Held, nUuid: string, fulls: seq<string>, i: nat)
    requires i < |fulls| && forall j, k | 0 <= j < k < |fulls| :: fulls[j] != fulls[k]
    requires Elements(fulls) == TopicsOf(h.listed, nUuid)
    ensures Dropped(LeftFrom(h, nUuid, fulls, i), nUuid, fulls[i]) == LeftFrom(h, nUuid, fulls, i + 1)
  {
    ElementsStep(fulls, i);
    assert Elements(fulls[i..]) <= Elements(fulls);
    LeftStep(h, nUuid, Elements(fulls[i..]), fulls[i]);
  }

  lemma LeftFromEnds(h: Held, nUuid: string, fulls: seq<string>)
    requires ListsHandled(h.listed, h.normal, h.raw) && Elements(fulls) == TopicsOf(h.listed, nUuid)
    ensures LeftFrom(h, nUuid, fulls, 0) == h && LeftFrom(h, nUuid, fulls, |fulls|) == WithoutAll(h, nUuid)
  {
    assert fulls[0..] == fulls && Elements(fulls[|fulls|..]) == {};
    LeftEnds(h, nUuid);
  }

  /** What a process holds for the services of one node and of the others: the names the node lists, every replier, and
      what the discovery service announces. */
  datatype Served = Served(listed: set<string>, repliers: map<H.Id, (string, string)>, announced: set<Publisher>)

  /** The announced publishers but those of the node on other topics than these. */
  ghost function Announcing(announced: set<Publisher>, pUuid: string, nUuid: string,
                            topics: set<string>): set<Publisher> {
    set x | x in announced && (x.pUuid != pUuid || x.nUuid != nUuid || x.topic in topics)
  }

  /** The node serves and announces only what it lists. */
  ghost predicate ServesListed(v: Served, pUuid: string, nUuid: string) {
    && (forall full | H.AnyOfNode(v.repliers, full, nUuid) :: full in v.listed)
    && (forall x | x in v.announced && x.pUuid == pUuid && x.nUuid == nUuid :: x.topic in v.listed)
  }

  ghost function ServiceAdded(v: Served, id: H.Id, types: (string, string), announced: set<Publisher>): Served {
    Served(v.listed + {id.topic}, Added(v.repliers, id, types), announced)
  }

  ghost function ServiceDropped(v: Served, pUuid: string, nUuid: string, full: string): Served {
    Served(v.listed - {full}, H.WithoutNode(v.repliers, full, nUuid),
           v.announced - T.OfNode(v.announced, full, pUuid, nUuid))
  }

  /** Nothing of the node, and all that the others have. */
  ghost function NothingServed(v: Served, pUuid: string, nUuid: string): Served {
    Served({}, OthersOf(v.repliers, nUuid), Announcing(v.announced, pUuid, nUuid, {}))
  }

  /** Read off replier by replier and announcement by announcement. */
  lemma ServedMeans(v: Served, pUuid: string, nUuid: string, full: string, id: H.Id, x: Publisher)
    ensures var d := ServiceDropped(v, pUuid, nUuid, full);
            && (forall t :: t in d.listed <==> t in v.listed && t != full)
            && (id in d.repliers <==> id in v.repliers && !(id.topic == full && id.nUuid == nUuid))
            && (id in d.repliers ==> d.repliers[id] == v.repliers[id])
            && (x in d.announced <==>
                  x in v.announced && !(x.topic == full && x.pUuid == pUuid && x.nUuid == nUuid))
    ensures var d := NothingServed(v, pUuid, nUuid);
            && d.listed == {} && (id in d.repliers <==> id in v.repliers && id.nUuid != nUuid)
            && (id in d.repliers ==> d.repliers[id] == v.repliers[id])
            && (x in d.announced <==> x in v.announced && !(x.pUuid == pUuid && x.nUuid == nUuid))
  {
  }

  lemma AddedMeans(v: Served, id: H.Id, types: (string, string), announced: set<Publisher>, other: H.Id)
    ensures var d := ServiceAdded(v, id, types, announced);
            && (forall t :: t in d.listed <==> t in v.listed || t == id.topic) && d.announced == announced
            && id in d.repliers && d.repliers[id] == (if id in v.repliers then v.repliers[id] else types)
            && (other != id ==> (other in d.repliers <==> other in v.repliers)
                                && (other in v.repliers ==> d.repliers[other] == v.repliers[other]))
  {
  }

  /** What is served when the node has still these services, from the i-th on. */
  ghost function ServedFrom(v: Served, pUuid: string, nUuid: string, fulls: seq<string>, i: nat): Served
    requires i <= |fulls|
  {
    var left := Elements(fulls[i..]);
    Served(left, Remaining(v.repliers, nUuid, left), Announcing(v.announced, pUuid, nUuid, left))
  }

  lemma ServedFromStep(v: Served, pUuid: string, nUuid: string, fulls: seq<string>, i: nat)
    requires i < |fulls| && forall j, k | 0 <= j < k < |fulls| :: fulls[j] != fulls[k]
    ensures ServiceDropped(ServedFrom(v, pUuid, nUuid, fulls, i), pUuid, nUuid, fulls[i])
         == ServedFrom(v, pUuid, nUuid, fulls, i + 1)
  {
    ElementsStep(fulls, i);
    RemainingStep(v.repliers, nUuid, Elements(fulls[i..]), fulls[i]);
    AnnouncingStep(v.announced, pUuid, nUuid, Elements(fulls[i..]), fulls[i]);
  }

  lemma AnnouncingStep(announced: set<Publisher>, pUuid: string, nUuid: string, topics: set<string>, full: string)
    requires full in topics
    ensures var a := Announcing(announced, pUuid, nUuid, topics);
            a - T.OfNode(a, full, pUuid, nUuid) == Announcing(announced, pUuid, nUuid, topics - {full})
  {
  }

  lemma ServedFromEnds(v: Served, pUuid: string, nUuid: string, fulls: seq<string>)
    requires ServesListed(v, pUuid, nUuid) && Elements(fulls) == v.listed
    ensures ServedFrom(v, pUuid, nUuid, fulls, 0) == v
    ensures ServedFrom(v, pUuid, nUuid, fulls, |fulls|) == NothingServed(v, pUuid, nUuid)
  {
    assert fulls[0..] == fulls && Elements(fulls[|fulls|..]) == {};
    RemainingEnds(v.repliers, nUuid, Elements(fulls));
  }

  /** What a node needs of the process to be torn down completely. */
  ghost predicate Sound(opts: NodeOptions, pUuid: string, nUuid: string, h: Held, v: Served) {
    AllOwn(opts, TopicsOf(h.listed, nUuid)) && AllOwn(opts, v.listed) && ServesListed(v, pUuid, nUuid)
  }

  /** What the nodes other than one have in a process: subscriptions, services and announcements. */
  datatype Others = Others(listed: Listed, normal: Flat, raw: Flat, repliers: map<H.Id, (string, string)>,
                           announced: set<Publisher>)

  ghost function OthersHave(h: Held, v: Served, pUuid: string, nUuid: string): Others {
    Others(h.listed - {nUuid}, OthersOf(h.normal, nUuid), OthersOf(h.raw, nUuid), OthersOf(v.repliers, nUuid),
           Announcing(v.announced, pUuid, nUuid, {}))
  }

  /** A change by one node: it stays sound, and the others keep what they have. */
  ghost predicate OwnChange(opts: NodeOptions, pUuid: string, nUuid: string, h: Held, v: Served, h': Held, v': Served)
  {
    && (Sound(opts, pUuid, nUuid, h, v) ==> Sound(opts, pUuid, nUuid, h', v'))
    && OthersHave(h', v', pUuid, nUuid) == OthersHave(h, v, pUuid, nUuid)
  }

  lemma Subscribing(opts: NodeOptions, pUuid: string, h: Held, v: Served, id: H.Id, msgType: string)
    requires Own(opts, id.topic)
    ensures OwnChange(opts, pUuid, id.nUuid, h, v, Subscribed(h, id, msgType), v)
  {
    OthersSpareAdded(h.normal, id, msgType);
  }

  lemma SubscribingRaw(opts: NodeOptions, pUuid: string, h: Held, v: Served, id: H.Id, msgType: string)
    requires Own(opts, id.topic)
    ensures OwnChange(opts, pUuid, id.nUuid, h, v, SubscribedRaw(h, id, msgType), v)
  {
    OthersSpareAdded(h.raw, id, msgType);
  }

  lemma Dropping(opts: NodeOptions, pUuid: string, nUuid: string, h: Held, v: Served, full: string)
    ensures OwnChange(opts, pUuid, nUuid, h, v, Dropped(h, nUuid, full), v)
  {
    OthersSpareDropped(h.normal, full, nUuid);
    OthersSpareDropped(h.raw, full, nUuid);
  }

  lemma Advertising(opts: NodeOptions, pUuid: string, h: Held, v: Served, id: H.Id, types: (string, string))
    requires Own(opts, id.topic)
    ensures OwnChange(opts, pUuid, id.nUuid, h, v, h, ServiceAdded(v, id, types, v.announced))
  {
    OthersSpareAdded(v.repliers, id, types);
    forall t { AddedHandles(v.repliers, id, types, id.nUuid, t); }
  }

  lemma AnnouncingOne(opts: NodeOptions, pUuid: string, nUuid: string, h: Held, v: Served, pub: Publisher)
    requires pub.topic in v.listed && pub.pUuid == pUuid && pub.nUuid == nUuid
    ensures OwnChange(opts, pUuid, nUuid, h, v, h, v.(announced := v.announced + {pub}))
    ensures v.(announced := v.announced + {}) == v
  {
    assert v.announced + {} == v.announced;
  }

  lemma Unadvertising(opts: NodeOptions, pUuid: string, nUuid: string, h: Held, v: Served, full: string)
    ensures OwnChange(opts, pUuid, nUuid, h, v, h, ServiceDropped(v, pUuid, nUuid, full))
  {
    OthersSpareDropped(v.repliers, full, nUuid);
    forall t { WithoutNodeHandles(v.repliers, full, nUuid, nUuid, t); }
  }

  lemma Leaving(opts: NodeOptions, pUuid: string, nUuid: string, h: Held, v: Served)
    ensures OwnChange(opts, pUuid, nUuid, h, v, WithoutAll(h, nUuid), v)
    ensures OwnChange(opts, pUuid, nUuid, h, v, h, NothingServed(v, pUuid, nUuid))
  {
  }

  /** What one node changes leaves another sound. */
  lemma SparedStaysSound(opts: NodeOptions, pUuid: string, nUuid: string, other: string, h: Held, h': Held,
                         v: Served, v': Served)
    requires nUuid != other && OthersHave(h', v', pUuid, other) == OthersHave(h, v, pUuid, other)
    requires Sound(opts, pUuid, nUuid, h, v) && v'.listed == v.listed
    ensures Sound(opts, pUuid, nUuid, h', v')
  {
    assert TopicsOf(h'.listed, nUuid) == TopicsOf(h'.listed - {other}, nUuid) == TopicsOf(h.listed - {other}, nUuid);
    forall full | H.AnyOfNode(v'.repliers, full, nUuid) ensures full in v.listed {
      var id :| id in v'.repliers && id.topic == full && id.nUuid == nUuid;
      assert id in OthersOf(v'.repliers, other) && id in v.repliers;
    }
    forall x | x in v'.announced && x.pUuid == pUuid && x.nUuid == nUuid ensures x.topic in v.listed {
      assert x in Announcing(v'.announced, pUuid, other, {}) && x in v.announced;
    }
  }

  /** Lists a set in some order. */
  method InSomeOrder(items: set<string>) returns (v: seq<string>)
    ensures |v| == |items| && (forall x :: x in v <==> x in items)
    ensures forall i, j | 0 <= i < j < |v| :: v[i] != v[j]
  {
    v := [];
    var todo := items;
    while todo != {}
      invariant todo <= items && |v| + |todo| == |items|
      invariant forall x :: x in v <==> x in items && x !in todo
      invariant forall i, j | 0 <= i < j < |v| :: v[i] != v[j]
    {
      var x :| x in todo;
      v := v + [x];
      todo := todo - {x};
    }
  }

  class Node {
    const shared: NodeShared
    const srvDiscovery: D.Discovery
    const nUuid: string
    const opts: NodeOptions
    var srvsAdvertised: set<string>

    ghost function Services(): Served
      reads this, shared.repliers, srvDiscovery.info
    {
      Served(srvsAdvertised, shared.repliers.Contents(), srvDiscovery.info.Contents())
    }

    /** Nothing is announced before the discovery service is started. */
    ghost predicate Valid()
      reads this, shared, shared.normal, shared.raw, shared.repliers, shared.connections
      reads srvDiscovery, srvDiscovery.info, srvDiscovery.remoteSubscribers
    {
      && shared.Valid() && srvDiscovery.Valid() && srvDiscovery.pUuid == shared.pUuid
      && Sound(opts, shared.pUuid, nUuid, shared.View(), Services())
      && (srvDiscovery.enabled || srvDiscovery.info.Contents() == {})
    }

    ghost function Elsewhere(): Others
      reads this, shared, shared.normal, shared.raw, shared.repliers, srvDiscovery.info
    {
      OthersHave(shared.View(), Services(), shared.pUuid, nUuid)
    }

    constructor (shared: NodeShared, srvDiscovery: D.Discovery, nUuid: string, opts: NodeOptions)
      requires shared.Valid() && srvDiscovery.Valid() && srvDiscovery.pUuid == shared.pUuid
      requires TopicsOf(shared.topicsSubscribed, nUuid) == {}
      requires ServesListed(Served({}, shared.repliers.Contents(), srvDiscovery.info.Contents()), shared.pUuid, nUuid)
      requires srvDiscovery.enabled || srvDiscovery.info.Contents() == {}
      ensures Valid() && this.shared == shared && this.srvDiscovery == srvDiscovery
      ensures this.nUuid == nUuid && this.opts == opts && srvsAdvertised == {}
    {
      this.shared, this.srvDiscovery, this.nUuid, this.opts := shared, srvDiscovery, nUuid, opts;
      srvsAdvertised := {};
    }

    method Subscribe(topic: string, hUuid: string, msgType: string) returns (ok: bool)
      requires Valid()
      modifies shared`topicsSubscribed, shared.normal
      ensures Valid() && Elsewhere() == old(Elsewhere())
      ensures ok <==> FullName(opts, TopicRemap(opts, topic)).Some?
      ensures shared.View() ==
                if ok then Subscribed(old(shared.View()),
                                      H.Id(FullName(opts, TopicRemap(opts, topic)).value, nUuid, hUuid), msgType)
                else old(shared.View())
    {
      var name := FullName(opts, TopicRemap(opts, topic));
      if name == None { return false; }
      Store(H.Id(name.value, nUuid, hUuid), msgType);
      return true;
    }

    method Store(id: H.Id, msgType: string)
      requires Valid() && id.nUuid == nUuid && Own(opts, id.topic)
      modifies shared`topicsSubscribed, shared.normal
      ensures Valid() && Elsewhere() == old(Elsewhere())
      ensures shared.View() == Subscribed(old(shared.View()), id, msgType)
    {
      ghost var held, services := shared.View(), Services();
      shared.Subscribe(id, msgType);
      assert Services() == services;
      Subscribing(opts, shared.pUuid, held, services, id, msgType);
    }

    method SubscribeRaw(topic: string, hUuid: string, msgType: string) returns (ok: bool)
      requires Valid()
      modifies shared`topicsSubscribed, shared.raw
      ensures Valid() && Elsewhere() == old(Elsewhere())
      ensures ok <==> FullName(opts, TopicRemap(opts, topic)).Some?
      ensures shared.View() ==
                if ok then SubscribedRaw(old(shared.View()),
                                         H.Id(FullName(opts, TopicRemap(opts, topic)).value, nUuid, hUuid), msgType)
                else old(shared.View())
    {
      var name := FullName(opts, TopicRemap(opts, topic));
      if name == None { return false; }
      StoreRaw(H.Id(name.value, nUuid, hUuid), msgType);
      return true;
    }

    method StoreRaw(id: H.Id, msgType: string)
      requires Valid() && id.nUuid == nUuid && Own(opts, id.topic)
      modifies shared`topicsSubscribed, shared.raw
      ensures Valid() && Elsewhere() == old(Elsewhere())
      ensures shared.View() == SubscribedRaw(old(shared.View()), id, msgType)
    {
      ghost var held, services := shared.View(), Services();
      shared.SubscribeRaw(id, msgType);
      assert Services() == services;
      SubscribingRaw(opts, shared.pUuid, held, services, id, msgType);
    }

    method Unsubscribe(topic: string) returns (ok: bool)
      requires Valid()
      modifies shared`topicsSubscribed, shared`pubQueue, shared.normal, shared.raw
      ensures Valid() && Elsewhere() == old(Elsewhere())
      ensures ok <==> FullName(opts, topic).Some?
      ensures shared.View() == if ok then Dropped(old(shared.View()), nUuid, FullName(opts, topic).value)
                               else old(shared.View())
    {
      ghost var held, services := shared.View(), Services();
      ok := Drop(topic);
      assert Services() == services;
      if ok { Dropping(opts, shared.pUuid, nUuid, held, services, FullName(opts, topic).value); }
    }

    /** With no handler named, all of the node's go, and so does the listing. */
    method Drop(topic: string) returns (ok: bool)
      requires shared.Valid()
      modifies shared`topicsSubscribed, shared`pubQueue, shared.normal, shared.raw
      ensures shared.Valid() && (ok <==> FullName(opts, topic).Some?)
      ensures shared.View() == if ok then Dropped(old(shared.View()), nUuid, FullName(opts, topic).value)
                               else old(shared.View())
    {
      ghost var held := shared.View();
      var known: seq<string> := *;
      var farewells;
      ok, farewells := shared.Unsubscribe(topic, nUuid, opts, "", known);
      if ok { LeftNone(held.normal, held.raw, FullName(opts, topic).value, nUuid); }
    }

    /** The topics of the node without their partition, in no particular order. */
    method SubscribedTopics() returns (v: seq<string>, ghost fulls: seq<string>)
      ensures |v| == |TopicsOf(shared.topicsSubscribed, nUuid)|
      ensures Elements(v) == StrippedNames(TopicsOf(shared.topicsSubscribed, nUuid))
      ensures |v| == |fulls| && forall i | 0 <= i < |v| :: v[i] == Names.Stripped(fulls[i])
      ensures forall full :: full in fulls <==> full in TopicsOf(shared.topicsSubscribed, nUuid)
      ensures forall i, j | 0 <= i < j < |fulls| :: fulls[i] != fulls[j]
    {
      v, fulls := Unqualified(TopicsOf(shared.topicsSubscribed, nUuid));
    }

    method AdvertisedServices() returns (v: seq<string>, ghost fulls: seq<string>)
      ensures |v| == |srvsAdvertised| && Elements(v) == StrippedNames(srvsAdvertised)
      ensures |v| == |fulls| && forall i | 0 <= i < |v| :: v[i] == Names.Stripped(fulls[i])
      ensures forall full :: full in fulls <==> full in srvsAdvertised
      ensures forall i, j | 0 <= i < j < |fulls| :: fulls[i] != fulls[j]
    {
      v, fulls := Unqualified(srvsAdvertised);
    }

    static method Unqualified(names: set<string>) returns (v: seq<string>, ghost fulls: seq<string>)
      ensures |v| == |names| && Elements(v) == StrippedNames(names)
      ensures |v| == |fulls| && forall i | 0 <= i < |v| :: v[i] == Names.Stripped(fulls[i])
      ensures forall full :: full in fulls <==> full in names
      ensures forall i, j | 0 <= i < j < |fulls| :: fulls[i] != fulls[j]
    {
      var all := InSomeOrder(names);
      fulls := all;
      v := StripAll(all);
      assert Elements(all) == names;
      StrippedElements(v, all);
    }

    static method StripAll(all: seq<string>) returns (v: seq<string>)
      ensures |v| == |all| && forall i | 0 <= i < |v| :: v[i] == Names.Stripped(all[i])
    {
      v := [];
      for i := 0 to |all|
        invariant |v| == i && forall k | 0 <= k < i :: v[k] == Names.Stripped(all[k])
      {
        v := v + [Names.Stripped(all[i])];
      }
    }

    /** The publisher announced names this process's replier; `ok` tells whether the discovery service took it. */
    method AdvertiseService(topic: string, hUuid: string, types: (string, string), scope: Scope)
      returns (ok: bool)
      requires Valid()
      modifies this, shared.repliers, srvDiscovery.info
      ensures Valid() && Elsewhere() == old(Elsewhere())
      ensures FullName(opts, TopicRemap(opts, topic)).None? ==> !ok && Services() == old(Services())
      ensures FullName(opts, TopicRemap(opts, topic)).Some? ==>
                var full := FullName(opts, TopicRemap(opts, topic)).value;
                var pub := Publisher(full, shared.myReplierAddress, shared.pUuid, nUuid, scope,
                                     SrvDetails(shared.replierId, types.0, types.1, scope));
                && (ok <==> srvDiscovery.enabled && !T.HasKey(old(Services()).announced, pub))
                && Services() == ServiceAdded(old(Services()), H.Id(full, nUuid, hUuid), types,
                                              old(Services()).announced + if ok then {pub} else {})
    {
      var name := FullName(opts, TopicRemap(opts, topic));
      if name == None { return false; }
      assert Own(opts, name.value);
      StoreService(H.Id(name.value, nUuid, hUuid), types);
      ok := Announce(shared.ServicePublisher(name.value, nUuid, types, scope));
    }

    /** Lists and stores, before the discovery service is told. */
    method StoreService(id: H.Id, types: (string, string))
      requires Valid() && id.nUuid == nUuid && Own(opts, id.topic)
      modifies this, shared.repliers
      ensures Valid() && Elsewhere() == old(Elsewhere())
      ensures Services() == ServiceAdded(old(Services()), id, types, old(Services()).announced)
    {
      ghost var held, services := shared.View(), Services();
      srvsAdvertised := srvsAdvertised + {id.topic};
      shared.AddReplier(id, types);
      assert shared.View() == held && Services() == ServiceAdded(services, id, types, services.announced);
      Advertising(opts, shared.pUuid, held, services, id, types);
    }

    method Announce(pub: Publisher) returns (ok: bool)
      requires Valid() && pub.topic in srvsAdvertised && pub.pUuid == shared.pUuid && pub.nUuid == nUuid
      modifies srvDiscovery.info
      ensures Valid() && Elsewhere() == old(Elsewhere())
      ensures ok <==> srvDiscovery.enabled && !T.HasKey(old(Services()).announced, pub)
      ensures Services() == old(Services()).(announced := old(Services()).announced + if ok then {pub} else {})
    {
      ghost var held, services := shared.View(), Services();
      AnnouncingOne(opts, shared.pUuid, nUuid, held, services, pub);
      ok := Tell(pub);
      assert shared.View() == held && shared.Valid();
      assert Services() == services.(announced := services.announced + if ok then {pub} else {});
    }

    method Tell(pub: Publisher) returns (ok: bool)
      requires srvDiscovery.Valid()
      modifies srvDiscovery.info
      ensures srvDiscovery.Valid()
      ensures ok <==> srvDiscovery.enabled && !T.HasKey(old(srvDiscovery.info.Contents()), pub)
      ensures srvDiscovery.info.Contents() == old(srvDiscovery.info.Contents()) + if ok then {pub} else {}
    {
      var outs, calls;
      ok, outs, calls := srvDiscovery.Advertise(pub);
    }

    method Withdraw(full: string) returns (ok: bool)
      requires srvDiscovery.Valid() && (srvDiscovery.enabled || srvDiscovery.info.Contents() == {})
      modifies srvDiscovery.info
      ensures srvDiscovery.Valid() && ok == srvDiscovery.enabled
      ensures var announced := old(srvDiscovery.info.Contents());
              srvDiscovery.info.Contents() == announced - T.OfNode(announced, full, srvDiscovery.pUuid, nUuid)
    {
      var outs, first;
      ok, outs, first := srvDiscovery.Unadvertise(full, nUuid);
    }

    /** Qualifies the name as given, not remapped; the node forgets the service whatever discovery answers. */
    method UnadvertiseSrv(topic: string) returns (ok: bool)
      requires Valid()
      modifies this, shared.repliers, srvDiscovery.info
      ensures Valid() && Elsewhere() == old(Elsewhere())
      ensures ok <==> srvDiscovery.enabled && FullName(opts, topic).Some?
      ensures Services() == if FullName(opts, topic).None? then old(Services())
                            else ServiceDropped(old(Services()), shared.pUuid, nUuid, FullName(opts, topic).value)
    {
      var name := FullName(opts, topic);
      if name == None { return false; }
      ok := Forget(name.value);
    }

    method Forget(full: string) returns (ok: bool)
      requires Valid()
      modifies this, shared.repliers, srvDiscovery.info
      ensures Valid() && Elsewhere() == old(Elsewhere()) && ok == srvDiscovery.enabled
      ensures Services() == ServiceDropped(old(Services()), shared.pUuid, nUuid, full)
    {
      ghost var held, services := shared.View(), Services();
      Unadvertising(opts, shared.pUuid, nUuid, held, services, full);
      srvsAdvertised := srvsAdvertised - {full};
      var removed := shared.repliers.RemoveHandlersForNode(full, nUuid);
      ok := Withdraw(full);
      assert shared.View() == held && Services() == ServiceDropped(services, shared.pUuid, nUuid, full);
    }

    /** One step of the teardown: the topic as listed, without its partition. */
    method DropTopic(topic: string, ghost full: string)
      requires Valid() && topic == Names.Stripped(full) && Own(opts, full)
      modifies shared`topicsSubscribed, shared`pubQueue, shared.normal, shared.raw
      ensures Valid() && shared.View() == Dropped(old(shared.View()), nUuid, full)
    {
      OwnRequalifies(opts, full);
      var ok := Unsubscribe(topic);
    }

    method DropTopics(topics: seq<string>, ghost fulls: seq<string>)
      requires Valid() && Elements(fulls) == TopicsOf(shared.topicsSubscribed, nUuid)
      requires |topics| == |fulls| && forall i | 0 <= i < |topics| :: topics[i] == Names.Stripped(fulls[i])
      requires forall i, j | 0 <= i < j < |fulls| :: fulls[i] != fulls[j]
      modifies shared`topicsSubscribed, shared`pubQueue, shared.normal, shared.raw
      ensures Valid() && shared.View() == WithoutAll(old(shared.View()), nUuid)
    {
      ghost var before := shared.View();
      EachOwn(opts, fulls);
      LeftFromEnds(before, nUuid, fulls);
      for i := 0 to |topics|
        invariant Valid()
        invariant shared.View() == LeftFrom(before, nUuid, fulls, i)
      {
        LeftFromStep(before, nUuid, fulls, i);
        DropTopic(topics[i], fulls[i]);
      }
    }

    method UnsubscribeAll()
      requires Valid()
      modifies shared`topicsSubscribed, shared`pubQueue, shared.normal, shared.raw
      ensures Valid() && Elsewhere() == old(Elsewhere())
      ensures shared.View() == WithoutAll(old(shared.View()), nUuid)
    {
      ghost var held, services := shared.View(), Services();
      var topics, fulls := SubscribedTopics();
      DropTopics(topics, fulls);
      assert Services() == services;
      Leaving(opts, shared.pUuid, nUuid, held, services);
    }

    method DropService(service: string, ghost full: string)
      requires Valid() && service == Names.Stripped(full) && Own(opts, full)
      modifies this, shared.repliers, srvDiscovery.info
      ensures Valid() && Services() == ServiceDropped(old(Services()), shared.pUuid, nUuid, full)
    {
      OwnRequalifies(opts, full);
      var ok := UnadvertiseSrv(service);
    }

    method DropServices(services: seq<string>, ghost fulls: seq<string>)
      requires Valid() && Elements(fulls) == srvsAdvertised
      requires |services| == |fulls| && forall i | 0 <= i < |services| :: services[i] == Names.Stripped(fulls[i])
      requires forall i, j | 0 <= i < j < |fulls| :: fulls[i] != fulls[j]
      modifies this, shared.repliers, srvDiscovery.info
      ensures Valid() && Services() == NothingServed(old(Services()), shared.pUuid, nUuid)
    {
      ghost var before := Services();
      EachOwn(opts, fulls);
      ServedFromEnds(before, shared.pUuid, nUuid, fulls);
      for i := 0 to |services|
        invariant Valid() && Services() == ServedFrom(before, shared.pUuid, nUuid, fulls, i)
      {
        ServedFromStep(before, shared.pUuid, nUuid, fulls, i);
        DropService(services[i], fulls[i]);
      }
    }

    method UnadvertiseAll()
      requires Valid()
      modifies this, shared.repliers, srvDiscovery.info
      ensures Valid() && Elsewhere() == old(Elsewhere())
      ensures Services() == NothingServed(old(Services()), shared.pUuid, nUuid)
    {
      ghost var held, before := shared.View(), Services();
      var services, fulls := AdvertisedServices();
      DropServices(services, fulls);
      assert shared.View() == held;
      Leaving(opts, shared.pUuid, nUuid, held, before);
    }

    /** The destructor: afterwards nothing of the node is left in the handler lists, the repliers and the service
        announcements, and every other node keeps all it had. */
    method Destroy()
      requires Valid()
      modifies this, shared`topicsSubscribed, shared`pubQueue, shared.normal, shared.raw
      modifies shared.repliers, srvDiscovery.info
      ensures Valid() && Elsewhere() == old(Elsewhere())
      ensures TopicsOf(shared.topicsSubscribed, nUuid) == {} && srvsAdvertised == {}
      ensures shared.View() == WithoutAll(old(shared.View()), nUuid)
      ensures Services() == NothingServed(old(Services()), shared.pUuid, nUuid)
    {
      UnsubscribeAll();
      UnadvertiseAll();
    }

    /** Unsubscribing by the name used to subscribe undoes the subscription exactly when remapping
        does not change the full name. */
    method SubscribeThenUnsubscribe(topic: string, hUuid: string, msgType: string) returns (on: bool, off: bool)
      requires Valid()
      requires FullName(opts, topic).Some? && FullName(opts, TopicRemap(opts, topic)).Some?
      modifies shared`topicsSubscribed, shared`pubQueue, shared.normal, shared.raw
      ensures Valid() && on && off
      ensures FullName(opts, TopicRemap(opts, topic)).value in TopicsOf(shared.topicsSubscribed, nUuid)
         <==> Names.Absolute(opts.ns, TopicRemap(opts, topic)) != Names.Absolute(opts.ns, topic)
    {
      on := Subscribe(topic, hUuid, msgType);
      off := Unsubscribe(topic);
      Names.SameNameIff(opts.partition, opts.ns, topic, opts.partition, opts.ns, TopicRemap(opts, topic));
    }
  }

  /** Whatever one node did, another of the same process with these subscriptions and services before is still valid,
      since every method of a node keeps what is elsewhere. */
  lemma OtherStaysValid(a: Node, b: Node, held: Held, services: Served)
    requires a.shared == b.shared && a.srvDiscovery == b.srvDiscovery && a.nUuid != b.nUuid
    requires Sound(b.opts, b.shared.pUuid, b.nUuid, held, services) && b.srvsAdvertised == services.listed
    requires a.Valid() && a.Elsewhere() == OthersHave(held, services, a.shared.pUuid, a.nUuid)
    ensures b.Valid()
  {
    SparedStaysSound(b.opts, b.shared.pUuid, b.nUuid, a.nUuid, held, b.shared.View(), services, b.Services());
  }

  /** Tearing one node down leaves another of the same process valid, so that it can be torn down as completely. */
  method DestroyBeside(a: Node, b: Node)
    requires a.shared == b.shared && a.srvDiscovery == b.srvDiscovery && a.nUuid != b.nUuid
    requires a.Valid() && b.Valid()
    modifies a, a.shared`topicsSubscribed, a.shared`pubQueue, a.shared.normal, a.shared.raw
    modifies a.shared.repliers, a.srvDiscovery.info
    ensures a.Valid() && b.Valid()
    ensures a.shared.View() == WithoutAll(old(a.shared.View()), a.nUuid)
    ensures a.Services() == NothingServed(old(a.Services()), a.shared.pUuid, a.nUuid)
  {
    ghost var held, services := b.shared.View(), b.Services();
    a.Destroy();
    OtherStaysValid(a, b, held, services);
  }

  function Remapping(): NodeOptions {
    NodeOptions("", "", map["a" := "/b"])
  }

  lemma RemappingNames()
    ensures FullName(Remapping(), "a") == Some("@@/a") && FullName(Remapping(), "/b") == Some("@@/b")
    ensures Names.Absolute("", "a") == "/a" && Names.Absolute("", "/b") == "/b"
  {
    assert Names.Clean("a") && Names.Clean("/b");
    assert Names.NormNamespace("") + "a" == "/a";
    assert Names.Spelled("", "/a") == "@@/a" && Names.Spelled("", "/b") == "@@/b";
  }

  /** A remapped topic that its own Unsubscribe leaves behind: "a" goes to "/b", which stays listed. */
  method RemappedTopicStays(node: Node, hUuid: string)
    requires node.Valid() && node.opts == Remapping()
    modifies node.shared`topicsSubscribed, node.shared`pubQueue, node.shared.normal, node.shared.raw
    ensures "@@/b" in TopicsOf(node.shared.topicsSubscribed, node.nUuid)
  {
    RemappingNames();
    var on, off := node.SubscribeThenUnsubscribe("a", hUuid, "T");
  }

  /** Such a node exists. */
  method NewRemappedNode() returns (node: Node)
    ensures node.Valid() && node.opts == Remapping()
  {
    var shared := new NodeShared("p", "tcp://h:1", "tcp://h:2", "r");
    var discovery := new D.Discovery("p", SrvKind, 10, {});
    node := new Node(shared, discovery, "n", Remapping());
  }
}
