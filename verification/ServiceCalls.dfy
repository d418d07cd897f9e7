/** The service half of NodeShared: its methods proved to take the steps of Requests. */
module ServiceCalls {
  import opened Publishers
  import opened Sequences
  import opened HandlerStorage
  import opened Requests
  import TopicStorage

  class ServiceCalls {
    const requests: HandlerStorage<Req>
    var srvQueue: seq<Publisher>
    var srvConnections: seq<string>
    var sent: seq<Wire>

    ghost predicate Valid() reads this, requests {
      requests.Valid()
    }

    constructor ()
      ensures Valid() && fresh(requests) && requests.Contents() == map[] && srvQueue == [] && srvConnections == []
              && sent == []
    {
      requests := new HandlerStorage<Req>();
      srvQueue, srvConnections, sent := [], [], [];
    }

    method Connect(addr: string)
      modifies this`srvConnections
      ensures srvConnections == old(srvConnections) + if addr in old(srvConnections) then [] else [addr]
    {
      if addr !in srvConnections {
        srvConnections := srvConnections + [addr];
      }
    }

    /** The publisher is queued for the service thread exactly when some stored request has its service and types. */
    method OnNewSrvConnection(pub: Publisher)
      requires Valid() && pub.Kind() == SrvKind
      modifies this`srvQueue, this`srvConnections
      ensures Valid()
      ensures srvQueue == old(srvQueue) + if Awaits(requests.Contents(), pub) then [pub] else []
      ensures srvConnections == old(srvConnections) + if pub.addr in old(srvConnections) then [] else [pub.addr]
    {
      Connect(pub.addr);
      var handler := requests.FirstHandler(pub.topic, (r: Req) => r.reqType == pub.details.reqType
                                           && r.repType == pub.details.repType);
      if handler.Some? {
        srvQueue := srvQueue + [pub];
      }
    }

    /** Looks up, notifies and removes. `notified` tells whether NotifyResult ran. */
    method RecvSrvResponse(id: Id) returns (notified: bool)
      requires Valid()
      modifies requests
      ensures Valid() && requests.Contents() == old(requests.Contents()) - {id}
      ensures notified <==> id in old(requests.Contents())
    {
      var handler := requests.Handler(id);
      notified := handler.Some?;
      if notified {
        var removed := requests.RemoveHandler(id);
      }
    }

    /** The first publisher with the right types among those the discovery knows for the topic, in storage order. */
    method FindResponder(addresses: TopicStorage.Procs, topic: string, reqType: string, repType: string)
      returns (responder: Option<Publisher>)
      requires TopicStorage.ProcsOk(topic, addresses)
      requires forall p, x | p in addresses && x in addresses[p] :: x.Kind() == SrvKind
      ensures responder.None? ==> forall x :: !Offered(addresses, x, topic, reqType, repType)
      ensures responder.Some? ==> Offered(addresses, responder.value, topic, reqType, repType)
    {
      var todo := addresses.Keys;
      while todo != {}
        invariant todo <= addresses.Keys
        invariant forall p, x | p in addresses && p !in todo && x in addresses[p] ::
                  !Offered(addresses, x, topic, reqType, repType)
      {
        var p :| p in todo;
        todo := todo - {p};
        var v := addresses[p];
        assert TopicStorage.VectorOk(topic, p, v);
        for i := 0 to |v|
          invariant forall x | x in v[..i] :: !Offered(addresses, x, topic, reqType, repType)
        {
          assert v[i] in addresses[p] && v[..i + 1] == v[..i] + [v[i]] && v[i].Kind() == SrvKind;
          if v[i].details.reqType == reqType && v[i].details.repType == repType {
            return Some(v[i]);
          }
        }
        assert v[..|v|] == v;
      }
      return None;
    }

    /** Sends every due request of the key to the responder found. `serializable` are the requests whose message can
        be written, `accepted` those the socket takes; `order` are the ones that went out. */
    method SendPendingRemoteReqs(addresses: TopicStorage.Procs, topic: string, reqType: string, repType: string,
                                 serializable: set<Id>, accepted: set<Id>)
      returns (responder: Option<Publisher>, order: seq<Id>)
      requires Valid() && TopicStorage.ProcsOk(topic, addresses)
      requires forall p, x | p in addresses && x in addresses[p] :: x.Kind() == SrvKind
      modifies this`srvConnections, this`sent, requests
      ensures Valid()
      ensures responder.None? ==> forall x :: !Offered(addresses, x, topic, reqType, repType)
      ensures responder.Some? ==> Offered(addresses, responder.value, topic, reqType, repType)
      ensures responder.None? ==> requests.Contents() == old(requests.Contents()) && sent == old(sent)
      ensures responder.Some? ==> responder.value.addr in srvConnections
      ensures responder.Some? ==>
              requests.Contents() == AfterSend(old(requests.Contents()), Key(topic, reqType, repType), serializable)
      ensures responder.Some? ==>
                Lists(order, Due(old(requests.Contents()), Key(topic, reqType, repType)) * serializable * accepted) &&
                sent == old(sent) + Wires(order, Key(topic, reqType, repType), responder.value.details.socketId)
      ensures responder.Some? ==> forall w ::
                w in sent <==> w in old(sent) || (w.id in order && w.key == Key(topic, reqType, repType)
                                                  && w.socketId == responder.value.details.socketId)
    {
      order := [];
      responder := FindResponder(addresses, topic, reqType, repType);
      if responder.None? {
        return;
      }
      Connect(responder.value.addr);
      var reqs := requests.HandlersOf(topic);
      if reqs.None? {
        assert Due(requests.Contents(), Key(topic, reqType, repType)) == {};
        return;
      }
      ghost var before := sent;
      order := SendDue(reqs.value, Key(topic, reqType, repType), responder.value.details.socketId, serializable,
                       accepted);
      WiresGoTo(before, order, Key(topic, reqType, repType), responder.value.details.socketId);
    }

    /** The loop over the copy of the handlers taken under the mutex. */
    method SendDue(reqs: Nodes<Req>, key: Key, socketId: string, serializable: set<Id>, accepted: set<Id>)
      returns (order: seq<Id>)
      requires Valid() && CopyOf(requests.Contents(), key.topic, reqs)
      modifies this`sent, requests
      ensures Valid()
      ensures requests.Contents() == AfterSend(old(requests.Contents()), key, serializable)
      ensures Lists(order, Due(old(requests.Contents()), key) * serializable * accepted)
      ensures sent == old(sent) + Wires(order, key, socketId)
    {
      order := [];
      ghost var before := requests.Contents();
      var todo := IdsOf(reqs, key.topic);
      NothingVisited(before, key, serializable, accepted, reqs, todo);
      while todo != {}
        invariant Valid() && todo <= IdsOf(reqs, key.topic)
        invariant SentSoFar(before, key, serializable, accepted, todo, order, requests.Contents())
        invariant sent == old(sent) + Wires(order, key, socketId)
      {
        var id :| id in todo;
        assert id in IdsOf(reqs, key.topic);
        VisitedOne(before, key, serializable, accepted, todo, order, requests.Contents(), id);
        todo := todo - {id};
        var out := SendOne(id, reqs[id.nUuid][id.hUuid], before, key, socketId, serializable, accepted);
        if out {
          WiresAppend(old(sent), order, key, socketId, id);
          order := order + [id];
        }
      }
      AllVisited(before, key, serializable, accepted, order, requests.Contents());
    }

    /** One stored request: skipped when already requested or of other types, else marked first and then sent. */
    method SendOne(id: Id, r: Req, ghost before: map<Id, Req>, key: Key, socketId: string, serializable: set<Id>,
                   accepted: set<Id>)
      returns (out: bool)
      requires Valid() && id in before && r == before[id] && id in requests.Contents()
      modifies this`sent, requests
      ensures Valid() && requests.Contents() == Visit(old(requests.Contents()), before, key, serializable, id)
      ensures out <==> Wanted(before, key, id) && id in serializable && id in accepted
      ensures sent == old(sent) + if out then [Wire(id, key, socketId)] else []
    {
      out := false;
      if r.requested || r.reqType != key.reqType || r.repType != key.repType {
        return;
      }
      requests.Replace(id, r.(requested := true));
      if id !in serializable {
        return;
      }
      if id in accepted {
        sent := sent + [Wire(id, key, socketId)];
        out := true;
      }
      if key.repType == EMPTY_TYPE {
        var removed := requests.RemoveHandler(id);
      }
    }
  }

  /** Some stored request has the publisher's service and types. */
  ghost predicate Awaits(requests: map<Id, Req>, x: Publisher)
    requires x.Kind() == SrvKind
  {
    exists id | id in requests :: id.topic == x.topic && requests[id].reqType == x.details.reqType
                                  && requests[id].repType == x.details.repType
  }

  /** The callback of Requests queues just then. */
  lemma AwaitsIsPending(requests: map<Id, Req>, x: Publisher)
    requires x.Kind() == SrvKind
    ensures Awaits(requests, x) <==> Pending(requests, KeyOf(x))
  {
    if Pending(requests, KeyOf(x)) {
      var id :| id in requests && ReqKey(id, requests[id]) == KeyOf(x);
      assert id.topic == x.topic;
    }
    if Awaits(requests, x) {
      var id :| id in requests && id.topic == x.topic && requests[id].reqType == x.details.reqType
                && requests[id].repType == x.details.repType;
      assert ReqKey(id, requests[id]) == KeyOf(x);
    }
  }

  /** Stored for the topic, with the types. */
  predicate Offered(addresses: TopicStorage.Procs, x: Publisher, topic: string, reqType: string, repType: string) {
    && x.Kind() == SrvKind && x.topic == topic && x.details.reqType == reqType && x.details.repType == repType
    && exists p | p in addresses :: x in addresses[p]
  }

  /** What Requests looks for among the publishers known. */
  lemma OfferedIsMatching(addresses: TopicStorage.Procs, x: Publisher, topic: string, reqType: string, repType: string)
    requires forall p, y | p in addresses && y in addresses[p] :: y.Kind() == SrvKind
    ensures Offered(addresses, x, topic, reqType, repType)
       <==> x in Matching(TopicStorage.Union(addresses, addresses.Keys), Key(topic, reqType, repType))
  {
  }

  lemma WiresGoTo(base: seq<Wire>, order: seq<Id>, key: Key, socketId: string)
    ensures forall w :: w in base + Wires(order, key, socketId) <==>
                          w in base || (w.id in order && w.key == key && w.socketId == socketId)
  {
    forall w: Wire | w.id in order && w.key == key && w.socketId == socketId ensures w in Wires(order, key, socketId) {
      var i :| 0 <= i < |order| && order[i] == w.id;
      assert Wires(order, key, socketId)[i] == w;
    }
  }

  /** The map that HandlersOf hands out for a topic. */
  ghost predicate CopyOf(flat: map<Id, Req>, topic: string, reqs: Nodes<Req>) {
    forall id: Id | id.topic == topic ::
      (id in flat <==> id.nUuid in reqs && id.hUuid in reqs[id.nUuid])
        && (id in flat ==> reqs[id.nUuid][id.hUuid] == flat[id])
  }

  function IdsOf(reqs: Nodes<Req>, topic: string): set<Id> {
    set n, h | n in reqs && h in reqs[n] :: Id(topic, n, h)
  }

  /** The state of the loop when the requests of `todo` are still to be visited. */
  ghost predicate SentSoFar(before: map<Id, Req>, key: Key, serializable: set<Id>, accepted: set<Id>,
                            todo: set<Id>, order: seq<Id>, now: map<Id, Req>) {
    && now == Marked(before, Due(before, key) - todo, Dispatched(before, key, serializable) - todo)
    && Lists(order, (Due(before, key) - todo) * serializable * accepted)
    && forall id | id in todo :: id in before && id.topic == key.topic
  }

  lemma NothingVisited(before: map<Id, Req>, key: Key, serializable: set<Id>, accepted: set<Id>, reqs: Nodes<Req>,
                       todo: set<Id>)
    requires CopyOf(before, key.topic, reqs) && todo == IdsOf(reqs, key.topic)
    ensures SentSoFar(before, key, serializable, accepted, todo, [], before)
  {
  }

  lemma VisitedOne(before: map<Id, Req>, key: Key, serializable: set<Id>, accepted: set<Id>,
                   todo: set<Id>, order: seq<Id>, now: map<Id, Req>, id: Id)
    requires SentSoFar(before, key, serializable, accepted, todo, order, now) && id in todo
    ensures id in now
    ensures SentSoFar(before, key, serializable, accepted, todo - {id},
                      if Wanted(before, key, id) && id in serializable && id in accepted then order + [id] else order,
                      Visit(now, before, key, serializable, id))
  {
    MarkStep(before, key, serializable, todo, id);
    OrderStep(before, key, serializable, accepted, todo, id);
    ListsAppend(order, (Due(before, key) - todo) * serializable * accepted, id);
  }

  lemma AllVisited(before: map<Id, Req>, key: Key, serializable: set<Id>, accepted: set<Id>, order: seq<Id>,
                   now: map<Id, Req>)
    requires SentSoFar(before, key, serializable, accepted, {}, order, now)
    ensures now == AfterSend(before, key, serializable)
    ensures Lists(order, Due(before, key) * serializable * accepted)
  {
    assert Due(before, key) - {} == Due(before, key);
    assert Dispatched(before, key, serializable) - {} == Dispatched(before, key, serializable);
  }

  lemma WiresAppend(base: seq<Wire>, order: seq<Id>, key: Key, socketId: string, id: Id)
    ensures base + Wires(order, key, socketId) + [Wire(id, key, socketId)] == base + Wires(order + [id], key, socketId)
  {
  }

  predicate Wanted(before: map<Id, Req>, key: Key, id: Id)
    requires id in before
  {
    !before[id].requested && before[id].reqType == key.reqType && before[id].repType == key.repType
  }

  /** The marked requests after visiting `id`, from those before. */
  ghost function Visit(now: map<Id, Req>, before: map<Id, Req>, key: Key, serializable: set<Id>, id: Id): map<Id, Req>
    requires id in before
  {
    if !Wanted(before, key, id) then now
    else if id in serializable && key.repType == EMPTY_TYPE then now[id := before[id].(requested := true)] - {id}
    else now[id := before[id].(requested := true)]
  }

  lemma MarkStep(before: map<Id, Req>, key: Key, serializable: set<Id>, todo: set<Id>, id: Id)
    requires id in todo && id in before && id.topic == key.topic
    ensures var now := Marked(before, Due(before, key) - todo, Dispatched(before, key, serializable) - todo);
            id in now && Marked(before, Due(before, key) - (todo - {id}),
                                Dispatched(before, key, serializable) - (todo - {id})) ==
                         Visit(now, before, key, serializable, id)
  {
  }

  lemma OrderStep(before: map<Id, Req>, key: Key, serializable: set<Id>, accepted: set<Id>, todo: set<Id>, id: Id)
    requires id in todo && id in before && id.topic == key.topic
    ensures var sent := (Due(before, key) - todo) * serializable * accepted;
            && id !in sent
            && (Due(before, key) - (todo - {id})) * serializable * accepted
               == sent + if Wanted(before, key, id) && id in serializable && id in accepted then {id} else {}
  {
  }
}
