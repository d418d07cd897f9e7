/** The other end of a registration: what a publisher's process makes of NEW_CONNECTION and END_CONNECTION
    (aerozen/node_shared.cpp). */
module Registrations {
  import opened Publishers
  import opened Protocol
  import opened Exchanges
  import Sub = Subscribers
  import T = TopicStorage

  /** A registration counts when it is addressed to this process. */
  ghost function Registered(self: string, subscribers: set<Publisher>, x: Publisher): set<Publisher>
    requires x.Kind() == MsgKind
  {
    if x.details.ctrl != self || T.HasKey(subscribers, x) then subscribers else subscribers + {x}
  }

  /** Its end counts when it is addressed to this process or to all. */
  ghost function Unregistered(self: string, subscribers: set<Publisher>, x: Publisher): set<Publisher>
    requires x.Kind() == MsgKind
  {
    if x.details.ctrl != "" && x.details.ctrl != self then subscribers
    else subscribers - T.OfNode(subscribers, x.topic, x.pUuid, x.nUuid)
  }

  /** The remote subscribers that NodeShared keeps for publishing. */
  class RemoteSubscribers {
    const pUuid: string
    const subscribers: T.TopicStorage

    ghost predicate Valid()
      reads subscribers
    {
      subscribers.Valid()
    }

    constructor (pUuid: string)
      ensures Valid() && this.pUuid == pUuid && fresh(subscribers) && subscribers.Contents() == {}
    {
      this.pUuid := pUuid;
      subscribers := new T.TopicStorage();
    }

    method OnNewRegistration(pub: Publisher)
      requires Valid() && pub.Kind() == MsgKind
      modifies subscribers
      ensures Valid() && subscribers.Contents() == Registered(pUuid, old(subscribers.Contents()), pub)
    {
      if pub.details.ctrl != pUuid { return; }
      var added := subscribers.AddPublisher(pub);
    }

    method OnEndRegistration(pub: Publisher)
      requires Valid() && pub.Kind() == MsgKind
      modifies subscribers
      ensures Valid() && subscribers.Contents() == Unregistered(pUuid, old(subscribers.Contents()), pub)
    {
      if pub.details.ctrl != "" && pub.details.ctrl != pUuid { return; }
      var removed := subscribers.DelPublisherByNode(pub.topic, pub.pUuid, pub.nUuid);
    }
  }

  /** Some node of the process is listed for the topic. */
  predicate Listens(subscribers: set<Publisher>, topic: string, pUuid: string, nUuid: string) {
    exists y | y in subscribers :: y.topic == topic && y.pUuid == pUuid && y.nUuid == nUuid
  }

  /** What a connection callback registers for a node arrives at the process of the publisher, which then lists that
      node of the subscriber's process for the topic and loses nobody; every other process that hears it keeps its
      list. */
  lemma RegistrationArrives(pub: Publisher, pUuid: string, nUuid: string, r: State, from: string, m: Message, now: int,
                            answers: seq<Publisher>, subscribers: set<Publisher>)
    returns (x: Publisher)
    requires pub.Kind() == MsgKind && Consistent(pub) && r.kind == MsgKind && Heeded(r, m)
    requires About(m, NEW_CONNECTION, Sub.Registration(pub, pUuid, nUuid))
    ensures Dispatch(r, from, m, now, answers).calls == [Register(x)] && x.Kind() == MsgKind
    ensures var after := Registered(r.self, subscribers, x);
            if r.self == pub.pUuid
            then Listens(after, pub.topic, pUuid, nUuid) && subscribers <= after
                 && forall y | y in after && y !in subscribers ::
                      y.topic == pub.topic && y.pUuid == pUuid && y.nUuid == nUuid && y.addr == pub.addr
            else after == subscribers
  {
    x := Sub.Registration(pub, pUuid, nUuid);
    ConnectionIsReported(r, from, m, now, answers, x);
    var after := Registered(r.self, subscribers, x);
    if r.self == pub.pUuid {
      if y :| y in subscribers && SameKey(y, x) {
        assert y in after;
      } else {
        assert x in after;
      }
    }
  }

  /** The END_CONNECTION that a node sends to a process, or to all, takes exactly that node's entries on the topic from
      the lists it is meant for. */
  lemma FarewellArrives(full: string, addr: string, pUuid: string, nUuid: string, dst: string, r: State, from: string,
                        m: Message, now: int, answers: seq<Publisher>, subscribers: set<Publisher>)
    returns (x: Publisher)
    requires r.kind == MsgKind && Heeded(r, m)
    requires About(m, END_CONNECTION, Sub.Leaver(full, addr, pUuid, nUuid, dst))
    ensures Dispatch(r, from, m, now, answers).calls == [Unregister(x)] && x.Kind() == MsgKind
    ensures forall y :: y in Unregistered(r.self, subscribers, x) <==>
                          y in subscribers && !((dst == "" || dst == r.self)
                                                && y.topic == full && y.pUuid == pUuid && y.nUuid == nUuid)
  {
    x := Sub.Leaver(full, addr, pUuid, nUuid, dst);
    ConnectionIsReported(r, from, m, now, answers, x);
  }
}
