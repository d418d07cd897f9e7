/** Service calls of one process against any number of repliers, at the granularity of its two mutexes: the pending
    requests of aerozen/node_shared.cpp and the Request calls of aerozen/detail/node.hpp. */
module Requests {
  import opened Publishers
  import opened Sequences
  import opened TopicStorage
  import opened HandlerStorage

  /** A service and its pair of types. */
  datatype Key = Key(topic: string, reqType: string, repType: string)

  const EMPTY_TYPE := "aerozen.msgs.Empty"

  datatype Req = Req(reqType: string, repType: string, requested: bool)

  function KeyOf(x: Publisher): Key {
    match x.details
    case SrvDetails(_, reqType, repType, _) => Key(x.topic, reqType, repType)
    case MsgDetails(_, _, _, _) => Key(x.topic, "", "")
  }

  function ReqKey(id: Id, r: Req): Key {
    Key(id.topic, r.reqType, r.repType)
  }

  /** Where a Request call is while it holds the NodeShared mutex. */
  datatype Caller =
    | NoCaller
    | Stored(id: Id)                             // the handler is stored, the publishers not yet asked for
    | Sending(id: Id)                            // the topic has publishers: SendPendingRemoteReqs entered
    | Matched(id: Id, responder: Publisher)      // a publisher with the right types found, the requests not yet sent
    | Discovering(id: Id)                        // the topic has none: Discover entered
    | Calling(id: Id, todo: set<Publisher>)      // running the callback for the publishers known meanwhile

  /** The service thread. It looks at the publishers before it takes the mutex. */
  datatype Worker = Idle | Popped(job: Publisher) | Found(key: Key, responder: Publisher)

  /** The thread that receives responses; it notifies without the mutex. */
  datatype Receiver = Waiting | Notifying(id: Id) | Removing(id: Id)

  datatype Wire = Wire(id: Id, key: Key, socketId: string)
  datatype Served = Served(id: Id, handler: Key)

  /** `callbacks` are the OnNewSrvConnection calls still to run. The last six fields are history. */
  datatype Sys = Sys(
    info: set<Publisher>, callbacks: seq<Publisher>, requests: map<Id, Req>, queue: seq<Publisher>,
    worker: Worker, caller: Caller, receiver: Receiver,
    wire: seq<Wire>, responses: seq<Id>, repliers: map<string, set<Key>>,
    added: map<Id, Key>, answered: set<Id>, oneWay: set<Id>, sent: seq<Id>, notified: seq<Id>, served: seq<Served>)

  ghost function Matching(info: set<Publisher>, key: Key): set<Publisher> {
    set x | x in info && KeyOf(x) == key
  }

  ghost predicate Pending(requests: map<Id, Req>, key: Key) {
    exists id | id in requests :: ReqKey(id, requests[id]) == key
  }

  /** The requests that SendPendingRemoteReqs picks. */
  ghost function Due(requests: map<Id, Req>, key: Key): set<Id> {
    set id | id in requests && !requests[id].requested && ReqKey(id, requests[id]) == key
  }

  /** One-way requests leave the storage once dispatched, unless they could not be serialized. */
  ghost function Dispatched(requests: map<Id, Req>, key: Key, serializable: set<Id>): set<Id> {
    if key.repType == EMPTY_TYPE then Due(requests, key) * serializable else {}
  }

  ghost function Marked(requests: map<Id, Req>, due: set<Id>, gone: set<Id>): map<Id, Req> {
    map id | id in requests && id !in gone :: if id in due then requests[id].(requested := true) else requests[id]
  }

  /** Every due request is marked, sent or not. */
  ghost function AfterSend(requests: map<Id, Req>, key: Key, serializable: set<Id>): map<Id, Req> {
    Marked(requests, Due(requests, key), Dispatched(requests, key, serializable))
  }

  function Wires(order: seq<Id>, key: Key, socketId: string): seq<Wire> {
    seq(|order|, i requires 0 <= i < |order| => Wire(order[i], key, socketId))
  }

  function SocketOf(x: Publisher): string {
    match x.details
    case SrvDetails(socketId, _, _, _) => socketId
    case MsgDetails(_, _, _, _) => ""
  }

  /** SendPendingRemoteReqs once a responder is known. */
  ghost function SendPending(s: Sys, key: Key, responder: Publisher, serializable: set<Id>, order: seq<Id>): Sys {
    s.(requests := AfterSend(s.requests, key, serializable),
       oneWay := s.oneWay + Dispatched(s.requests, key, serializable),
       sent := s.sent + order,
       wire := s.wire + Wires(order, key, SocketOf(responder)))
  }

  /** The requests that went out, in the order of sending: those due that could be serialized and that the socket
      accepted. */
  ghost predicate Sendable(s: Sys, key: Key, serializable: set<Id>, accepted: set<Id>, order: seq<Id>) {
    Lists(order, Due(s.requests, key) * serializable * accepted)
  }

  /** OnNewSrvConnection. */
  ghost function OnConnection(s: Sys, x: Publisher): Sys {
    if Pending(s.requests, KeyOf(x)) then s.(queue := s.queue + [x]) else s
  }

  datatype Step =
    | AddPublisher(x: Publisher)
    | DropPublishers(gone: set<Publisher>)
    | RunCallback(i: nat)
    | PopQueue
    | WorkerLook
    | WorkerSend(serializable: set<Id>, accepted: set<Id>, order: seq<Id>)
    | Store(id: Id, reqType: string, repType: string)
    | AskTopic
    | CallerLook
    | CallerSend(serializable: set<Id>, accepted: set<Id>, order: seq<Id>)
    | CallerSnapshot
    | CallerCallback(x: Publisher)
    | CallerDone
    | Serve(i: nat, handler: Key)
    | Refuse(i: nat)
    | RepeatResponse(i: nat)
    | LoseResponse(i: nat)
    | RecvResponse(i: nat)
    | Notify
    | RemoveAnswered
    | SetRepliers(socketId: string, keys: set<Key>)

  /** The mutex is free for callbacks, the service thread, the receiver and new Request calls. */
  predicate Unlocked(s: Sys) {
    s.caller == NoCaller
  }

  ghost predicate DiscoveryNext(s: Sys, s': Sys, step: Step) {
    match step
    case AddPublisher(x) =>
      x.Kind() == SrvKind
      && s' == if HasKey(s.info, x) then s else s.(info := s.info + {x}, callbacks := s.callbacks + [x])
    case DropPublishers(gone) => s' == s.(info := s.info - gone)
    case RunCallback(i) =>
      Unlocked(s) && i < |s.callbacks|
      && s' == OnConnection(s, s.callbacks[i]).(callbacks := Remove(s.callbacks, i))
    case _ => false
  }

  ghost predicate WorkerNext(s: Sys, s': Sys, step: Step) {
    match step
    case PopQueue => s.worker.Idle? && s.queue != [] && s' == s.(worker := Popped(s.queue[0]), queue := s.queue[1..])
    case WorkerLook =>
      s.worker.Popped?
      && var key := KeyOf(s.worker.job);
         if Matching(s.info, key) == {} then s' == s.(worker := Idle)
         else
           && s'.worker.Found? && s'.worker.key == key && s'.worker.responder in Matching(s.info, key)
           && s' == s.(worker := s'.worker)
    case WorkerSend(serializable, accepted, order) =>
      s.worker.Found? && Unlocked(s) && Sendable(s, s.worker.key, serializable, accepted, order)
      && s' == SendPending(s, s.worker.key, s.worker.responder, serializable, order).(worker := Idle)
    case _ => false
  }

  ghost predicate CallerNext(s: Sys, s': Sys, step: Step) {
    match step
    case Store(id, reqType, repType) =>
      Unlocked(s) && id !in s.added
      && s' == s.(requests := s.requests[id := Req(reqType, repType, false)],
                  added := s.added[id := Key(id.topic, reqType, repType)], caller := Stored(id))
    case AskTopic =>
      s.caller.Stored?
      && s' == s.(caller := if OnTopic(s.info, s.caller.id.topic) != {} then Sending(s.caller.id)
                  else Discovering(s.caller.id))
    case CallerLook =>
      s.caller.Sending? && s.caller.id in s.added
      && var matching := Matching(s.info, s.added[s.caller.id]);
         if matching == {} then s' == s.(caller := NoCaller)
         else
           && s'.caller.Matched? && s'.caller.id == s.caller.id && s'.caller.responder in matching
           && s' == s.(caller := s'.caller)
    case CallerSend(serializable, accepted, order) =>
      s.caller.Matched? && s.caller.id in s.added && Sendable(s, s.added[s.caller.id], serializable, accepted, order)
      && s' == SendPending(s, s.added[s.caller.id], s.caller.responder, serializable, order).(caller := NoCaller)
    case CallerSnapshot =>
      s.caller.Discovering? && s' == s.(caller := Calling(s.caller.id, OnTopic(s.info, s.caller.id.topic)))
    case CallerCallback(x) =>
      s.caller.Calling? && x in s.caller.todo
        && s' == OnConnection(s, x).(caller := Calling(s.caller.id, s.caller.todo - {x}))
    case CallerDone => s.caller.Calling? && s.caller.todo == {} && s' == s.(caller := NoCaller)
    case _ => false
  }

  /** Repliers serve a request with a handler of the same topic and types, and answer unless it is one-way.
      Responses may be repeated or lost. */
  ghost predicate RemoteNext(s: Sys, s': Sys, step: Step) {
    match step
    case Serve(i, handler) =>
      i < |s.wire|
      && var w := s.wire[i];
         && w.socketId in s.repliers && handler in s.repliers[w.socketId] && handler == w.key
         && s' == s.(wire := Remove(s.wire, i), served := s.served + [Served(w.id, handler)],
                     responses := s.responses + if w.key.repType == EMPTY_TYPE then [] else [w.id])
    case Refuse(i) => i < |s.wire| && s' == s.(wire := Remove(s.wire, i))
    case RepeatResponse(i) => i < |s.responses| && s' == s.(responses := s.responses + [s.responses[i]])
    case LoseResponse(i) => i < |s.responses| && s' == s.(responses := Remove(s.responses, i))
    case SetRepliers(socketId, keys) => s' == s.(repliers := s.repliers[socketId := keys])
    case _ => false
  }

  ghost predicate ReceiverNext(s: Sys, s': Sys, step: Step) {
    match step
    case RecvResponse(i) =>
      s.receiver.Waiting? && Unlocked(s) && i < |s.responses|
      && var id := s.responses[i];
         s' == s.(responses := Remove(s.responses, i), receiver := if id in s.requests then Notifying(id) else Waiting)
    case Notify =>
      s.receiver.Notifying? && s' == s.(notified := s.notified + [s.receiver.id], receiver := Removing(s.receiver.id))
    case RemoveAnswered =>
      s.receiver.Removing? && Unlocked(s)
      && var id := s.receiver.id;
         s' == s.(requests := s.requests - {id}, receiver := Waiting,
                  answered := s.answered + if id in s.requests then {id} else {})
    case _ => false
  }

  ghost predicate Next(s: Sys, s': Sys, step: Step) {
    || DiscoveryNext(s, s', step) || WorkerNext(s, s', step) || CallerNext(s, s', step)
    || RemoteNext(s, s', step) || ReceiverNext(s, s', step)
  }

  ghost predicate Init(s: Sys) {
    s == Sys({}, [], map[], [], Idle, NoCaller, Waiting, [], [], s.repliers, map[], {}, {}, [], [], [])
  }

  ghost predicate Run(run: seq<Sys>, steps: seq<Step>) {
    && |run| == |steps| + 1 && Init(run[0])
    && forall k {:trigger steps[k]} | 0 <= k < |steps| :: Next(run[k], run[k + 1], steps[k])
  }

  /** The service thread will look, or is about to send, for this key. */
  predicate Scheduled(s: Sys, key: Key) {
    || (exists q | q in s.queue :: KeyOf(q) == key)
    || (s.worker.Popped? && KeyOf(s.worker.job) == key)
    || (s.worker.Found? && s.worker.key == key)
  }

  /** What sending for a key does to each request and each message, read off the fields: the requests due are those of
      the topic and types that were not yet requested; all of them are marked; a message goes to the responder's socket
      for each that could be serialized and was accepted; and the one-way ones that could be serialized are gone. */
  lemma SendMeans(s: Sys, key: Key, x: Publisher, serializable: set<Id>, accepted: set<Id>, order: seq<Id>, id: Id)
    requires Sendable(s, key, serializable, accepted, order) && x.Kind() == SrvKind
    ensures var s' := SendPending(s, key, x, serializable, order);
            var due := id in s.requests && !s.requests[id].requested && id.topic == key.topic
                       && s.requests[id].reqType == key.reqType && s.requests[id].repType == key.repType;
            && (id in order <==> due && id in serializable && id in accepted)
            && (id in s'.requests <==>
                  id in s.requests && !(due && id in serializable && key.repType == "aerozen.msgs.Empty"))
            && (id in s'.requests ==>
                  s'.requests[id] == if due then s.requests[id].(requested := true) else s.requests[id])
            && s'.sent == s.sent + order && |s'.wire| == |s.wire| + |order| && s'.wire[..|s.wire|] == s.wire
            && forall i | 0 <= i < |order| ::
                 var w := s'.wire[|s.wire| + i];
                 w.id == order[i] && w.key == key && w.socketId == x.details.socketId
  {
    assert id in order <==> id in Elements(order);
  }

  /** Somebody will still act on the request `id` for the publisher `x`. */
  predicate Covered(s: Sys, id: Id, x: Publisher) {
    x in s.callbacks || Scheduled(s, KeyOf(x)) || (s.caller != NoCaller && s.caller.id == id)
  }

  /** As Covered, but a caller past its look at the publishers covers only those it still has to call back. */
  predicate StrictlyCovered(s: Sys, id: Id, x: Publisher) {
    || x in s.callbacks || Scheduled(s, KeyOf(x))
    || (s.caller != NoCaller && s.caller.id == id && (s.caller.Calling? ==> x in s.caller.todo))
  }

  ghost predicate AllCovered(s: Sys) {
    forall id, x | id in s.requests && !s.requests[id].requested && x in s.info
      && KeyOf(x) == ReqKey(id, s.requests[id]) ::
      StrictlyCovered(s, id, x)
  }

  /** What is stored is what was added, and every added request is in exactly one place. */
  ghost predicate Accounted(s: Sys) {
    && s.added.Keys == s.requests.Keys + s.answered + s.oneWay
    && s.requests.Keys !! s.answered !! s.oneWay
    && (forall id | id in s.requests :: ReqKey(id, s.requests[id]) == s.added[id])
    && (forall id | id in s.added :: s.added[id].topic == id.topic)
    && (s.caller != NoCaller ==> s.caller.id in s.added)
  }

  ghost predicate SentOnce(s: Sys) {
    && NoRepeats(s.sent)
    && (forall id | id in s.sent :: id in s.added && (id in s.requests ==> s.requests[id].requested))
    && (forall w | w in s.wire :: w.id in s.sent && w.id in s.added && w.key == s.added[w.id])
    && (forall v | v in s.served :: v.id in s.sent && v.id in s.added && v.handler == s.added[v.id])
    && DistinctWires(s.wire)
    && (forall i, j | 0 <= i < j < |s.served| :: s.served[i].id != s.served[j].id)
    && (forall w, v | w in s.wire && v in s.served :: w.id != v.id)
  }

  ghost predicate NotifiedOnce(s: Sys) {
    && NoRepeats(s.notified)
    && (forall id | id in s.responses :: id in s.sent && id in s.added && s.added[id].repType != EMPTY_TYPE)
    && (forall id | id in s.answered :: id in s.sent)
    && (forall id | id in s.oneWay :: id in s.added && s.added[id].repType == EMPTY_TYPE)
    && (forall id | id in s.notified :: id in s.answered || s.receiver == Removing(id))
    && (!s.receiver.Waiting? ==> s.receiver.id in s.requests && s.receiver.id in s.sent)
  }

  /** After sending for a key, whatever is still unrequested was so before and has another key. */
  lemma SendMarks(s: Sys, key: Key, responder: Publisher, serializable: set<Id>, order: seq<Id>, id: Id)
    requires id in SendPending(s, key, responder, serializable, order).requests
    requires !SendPending(s, key, responder, serializable, order).requests[id].requested
    ensures id in s.requests && !s.requests[id].requested && ReqKey(id, s.requests[id]) != key
    ensures SendPending(s, key, responder, serializable, order).requests[id] == s.requests[id]
  {
  }

  lemma DiscoveryCovers(s: Sys, s': Sys, step: Step)
    requires AllCovered(s) && DiscoveryNext(s, s', step)
    ensures AllCovered(s')
  {
    forall id, x | id in s'.requests && !s'.requests[id].requested && x in s'.info
      && KeyOf(x) == ReqKey(id, s'.requests[id])
      ensures StrictlyCovered(s', id, x)
    {
      if step.AddPublisher? && !HasKey(s.info, step.x) && x == step.x {
        assert s'.callbacks[|s.callbacks|] == x;
      } else {
        assert StrictlyCovered(s, id, x);
        if step.RunCallback? {
          var y := s.callbacks[step.i];
          if x in s.callbacks { RemoveKeepsOthers(s.callbacks, step.i, x); }
          if x == y {
            assert Pending(s.requests, KeyOf(y)) && s'.queue[|s.queue|] == y;
          }
          ScheduledStays(s, s', KeyOf(x));
        }
      }
    }
  }

  lemma ScheduledStays(s: Sys, s': Sys, key: Key)
    requires s'.worker == s.worker && s.queue <= s'.queue
    ensures Scheduled(s, key) ==> Scheduled(s', key)
  {
  }

  lemma WorkerCovers(s: Sys, s': Sys, step: Step)
    requires AllCovered(s) && WorkerNext(s, s', step)
    ensures AllCovered(s')
  {
    forall id, x | id in s'.requests && !s'.requests[id].requested && x in s'.info
      && KeyOf(x) == ReqKey(id, s'.requests[id])
      ensures StrictlyCovered(s', id, x)
    {
      if step.WorkerSend? {
        SendMarks(s, s.worker.key, s.worker.responder, step.serializable, step.order, id);
      }
      assert StrictlyCovered(s, id, x);
      if step.PopQueue? && Scheduled(s, KeyOf(x)) {
        var q :| q in s.queue && KeyOf(q) == KeyOf(x);
        assert q == s.queue[0] || q in s.queue[1..];
      }
      if step.WorkerLook? && KeyOf(s.worker.job) == KeyOf(x) {
        assert x in Matching(s.info, KeyOf(x));
      }
    }
  }

  lemma CallerSendCovers(s: Sys, s': Sys, step: Step)
    requires AllCovered(s) && Accounted(s) && step.CallerSend? && CallerNext(s, s', step)
    ensures AllCovered(s')
  {
    forall id, x | id in s'.requests && !s'.requests[id].requested && x in s'.info
      && KeyOf(x) == ReqKey(id, s'.requests[id])
      ensures StrictlyCovered(s', id, x)
    {
      SendMarks(s, s.added[s.caller.id], s.caller.responder, step.serializable, step.order, id);
      assert StrictlyCovered(s, id, x);
    }
  }

  lemma CallerCallbackCovers(s: Sys, s': Sys, y: Publisher)
    requires AllCovered(s) && CallerNext(s, s', CallerCallback(y))
    ensures AllCovered(s')
  {
    forall id, x | id in s'.requests && !s'.requests[id].requested && x in s'.info
      && KeyOf(x) == ReqKey(id, s'.requests[id])
      ensures StrictlyCovered(s', id, x)
    {
      assert StrictlyCovered(s, id, x);
      ScheduledStays(s, s', KeyOf(x));
      if x == y {
        assert Pending(s.requests, KeyOf(y)) && s'.queue[|s.queue|] == y;
      }
    }
  }

  lemma CallerMoveCovers(s: Sys, s': Sys, step: Step)
    requires AllCovered(s) && Accounted(s) && CallerNext(s, s', step)
    requires step.Store? || step.AskTopic? || step.CallerLook? || step.CallerSnapshot? || step.CallerDone?
    ensures AllCovered(s')
  {
    forall id, x | id in s'.requests && !s'.requests[id].requested && x in s'.info
      && KeyOf(x) == ReqKey(id, s'.requests[id])
      ensures StrictlyCovered(s', id, x)
    {
      if !(step.Store? && id == step.id) {
        assert StrictlyCovered(s, id, x);
      }
      if step.CallerLook? && id == s.caller.id {
        assert x in Matching(s.info, s.added[id]);
      }
      if step.CallerSnapshot? && id == s.caller.id {
        assert x in OnTopic(s.info, id.topic);
      }
    }
  }

  lemma CallerCovers(s: Sys, s': Sys, step: Step)
    requires AllCovered(s) && Accounted(s) && CallerNext(s, s', step)
    ensures AllCovered(s')
  {
    match step {
      case CallerSend(_, _, _) => CallerSendCovers(s, s', step);
      case CallerCallback(y) => CallerCallbackCovers(s, s', y);
      case _ => CallerMoveCovers(s, s', step);
    }
  }

  lemma OthersCover(s: Sys, s': Sys, step: Step)
    requires AllCovered(s) && (RemoteNext(s, s', step) || ReceiverNext(s, s', step))
    ensures AllCovered(s')
  {
    forall id, x | id in s'.requests && !s'.requests[id].requested && x in s'.info
      && KeyOf(x) == ReqKey(id, s'.requests[id])
      ensures StrictlyCovered(s', id, x)
    {
      assert StrictlyCovered(s, id, x);
    }
  }

  lemma SendAccounts(s: Sys, key: Key, responder: Publisher, serializable: set<Id>, order: seq<Id>)
    requires Accounted(s)
    ensures Accounted(SendPending(s, key, responder, serializable, order))
  {
  }

  lemma SendSendsOnce(s: Sys, key: Key, responder: Publisher, serializable: set<Id>, accepted: set<Id>, order: seq<Id>)
    requires Accounted(s) && SentOnce(s) && Sendable(s, key, serializable, accepted, order)
    ensures SentOnce(SendPending(s, key, responder, serializable, order))
  {
    var s' := SendPending(s, key, responder, serializable, order);
    forall id | id in order ensures id in Due(s.requests, key) && id !in s.sent {
      assert id in Elements(order);
    }
    forall i, j | 0 <= i < j < |s'.sent| ensures s'.sent[i] != s'.sent[j] {
      if i < |s.sent| <= j { assert order[j - |s.sent|] in order; }
    }
    forall w | w in s'.wire
      ensures w.id in s'.sent && w.id in s'.added && w.key == s'.added[w.id] && (w in s.wire || w.id in order)
    {
      if w !in s.wire {
        var j :| 0 <= j < |order| && w == Wire(order[j], key, SocketOf(responder));
        assert order[j] in order;
      }
    }
    forall i, j | 0 <= i < j < |s'.wire| ensures s'.wire[i].id != s'.wire[j].id {
      if i < |s.wire| <= j {
        assert s'.wire[i] in s.wire && s'.wire[i].id in s.sent && s'.wire[j].id == order[j - |s.wire|];
      }
    }
    forall w, v | w in s'.wire && v in s'.served ensures w.id != v.id {
      if w !in s.wire { assert w.id in order; }
    }
  }

  lemma SendNotifies(s: Sys, key: Key, responder: Publisher, serializable: set<Id>, order: seq<Id>)
    requires Accounted(s) && SentOnce(s) && NotifiedOnce(s)
    ensures NotifiedOnce(SendPending(s, key, responder, serializable, order))
  {
  }

  /** The books of every request: where it is, and how often it was sent, served and notified. */
  ghost predicate Books(s: Sys) {
    Accounted(s) && SentOnce(s) && NotifiedOnce(s)
  }

  lemma SendKeepsBooks(s: Sys, s': Sys, key: Key, responder: Publisher, serializable: set<Id>, accepted: set<Id>,
                       order: seq<Id>)
    requires Books(s) && Sendable(s, key, serializable, accepted, order)
    requires s' == SendPending(s, key, responder, serializable, order).(worker := s'.worker, caller := s'.caller)
    requires s'.caller == NoCaller
    ensures Books(s')
  {
    SendAccounts(s, key, responder, serializable, order);
    SendSendsOnce(s, key, responder, serializable, accepted, order);
    SendNotifies(s, key, responder, serializable, order);
  }

  /** A step that leaves requests and messages alone changes nothing in the books. */
  lemma AsideKeepsBooks(s: Sys, s': Sys)
    requires Books(s)
    requires s' == s.(info := s'.info, callbacks := s'.callbacks, queue := s'.queue, worker := s'.worker,
                      caller := s'.caller, repliers := s'.repliers)
    requires s'.caller != NoCaller ==> s'.caller.id in s.added
    ensures Books(s')
  {
  }

  lemma WorkerKeepsBooks(s: Sys, s': Sys, step: Step)
    requires Books(s) && WorkerNext(s, s', step)
    ensures Books(s')
  {
    if step.WorkerSend? {
      SendKeepsBooks(s, s', s.worker.key, s.worker.responder, step.serializable, step.accepted, step.order);
    } else {
      AsideKeepsBooks(s, s');
    }
  }

  lemma StoreAccounts(s: Sys, s': Sys, step: Step)
    requires Accounted(s) && step.Store? && CallerNext(s, s', step)
    ensures Accounted(s')
  {
  }

  lemma StoreSendsNothing(s: Sys, s': Sys, step: Step)
    requires Accounted(s) && SentOnce(s) && step.Store? && CallerNext(s, s', step)
    ensures SentOnce(s')
  {
  }

  lemma StoreNotifiesNothing(s: Sys, s': Sys, step: Step)
    requires Accounted(s) && SentOnce(s) && NotifiedOnce(s) && step.Store? && CallerNext(s, s', step)
    ensures NotifiedOnce(s')
  {
  }

  lemma StoreKeepsBooks(s: Sys, s': Sys, step: Step)
    requires Books(s) && step.Store? && CallerNext(s, s', step)
    ensures Books(s')
  {
    StoreAccounts(s, s', step);
    StoreSendsNothing(s, s', step);
    StoreNotifiesNothing(s, s', step);
  }

  lemma CallerKeepsBooks(s: Sys, s': Sys, step: Step)
    requires Books(s) && CallerNext(s, s', step)
    ensures Books(s')
  {
    if step.CallerSend? {
      SendKeepsBooks(s, s', s.added[s.caller.id], s.caller.responder, step.serializable, step.accepted, step.order);
    } else if step.Store? {
      StoreKeepsBooks(s, s', step);
    } else {
      AsideKeepsBooks(s, s');
    }
  }

  /** Request messages name distinct requests. */
  ghost predicate DistinctWires(q: seq<Wire>) {
    forall i, j | 0 <= i < j < |q| :: q[i].id != q[j].id
  }

  lemma RemoveWire(q: seq<Wire>, i: nat)
    requires DistinctWires(q) && i < |q|
    ensures DistinctWires(Remove(q, i))
    ensures forall w | w in Remove(q, i) :: w in q && w.id != q[i].id
  {
  }

  lemma ServeKeepsBooks(s: Sys, s': Sys, i: nat, handler: Key)
    requires Books(s) && RemoteNext(s, s', Serve(i, handler))
    ensures Books(s')
  {
    RemoveWire(s.wire, i);
    assert s.wire[i] in s.wire;
    assert forall v | v in s'.served :: v in s.served || v == Served(s.wire[i].id, handler);
    forall k, j | 0 <= k < j < |s'.served| ensures s'.served[k].id != s'.served[j].id {
      if j == |s.served| { assert s'.served[k] in s.served; }
    }
  }

  lemma RemoteKeepsBooks(s: Sys, s': Sys, step: Step)
    requires Books(s) && RemoteNext(s, s', step)
    ensures Books(s')
  {
    match step {
      case Serve(i, handler) => ServeKeepsBooks(s, s', i, handler);
      case Refuse(i) => RemoveWire(s.wire, i);
      case LoseResponse(i) => RemoveMembers(s.responses, i);
      case RepeatResponse(i) => assert s.responses[i] in s.responses;
      case _ => AsideKeepsBooks(s, s');
    }
  }

  lemma RemovalKeepsBooks(s: Sys, s': Sys)
    requires Books(s) && ReceiverNext(s, s', RemoveAnswered)
    ensures Books(s')
  {
  }

  lemma ReceiverKeepsBooks(s: Sys, s': Sys, step: Step)
    requires Books(s) && ReceiverNext(s, s', step)
    ensures Books(s')
  {
    match step {
      case RecvResponse(i) => RemoveMembers(s.responses, i); assert s.responses[i] in s.responses;
      case Notify => assert s.receiver.id !in s.notified;
      case RemoveAnswered => RemovalKeepsBooks(s, s');
    }
  }

  ghost predicate Inv(s: Sys) {
    AllCovered(s) && Books(s)
  }

  lemma NextKeepsInv(s: Sys, s': Sys, step: Step)
    requires Inv(s) && Next(s, s', step)
    ensures Inv(s')
  {
    if DiscoveryNext(s, s', step) {
      DiscoveryCovers(s, s', step);
      AsideKeepsBooks(s, s');
    } else if WorkerNext(s, s', step) {
      WorkerCovers(s, s', step);
      WorkerKeepsBooks(s, s', step);
    } else if CallerNext(s, s', step) {
      CallerCovers(s, s', step);
      CallerKeepsBooks(s, s', step);
    } else {
      OthersCover(s, s', step);
      if RemoteNext(s, s', step) { RemoteKeepsBooks(s, s', step); } else { ReceiverKeepsBooks(s, s', step); }
    }
  }

  lemma InitHasInv(s: Sys)
    requires Init(s)
    ensures Inv(s)
  {
  }

  lemma {:induction false} RunKeepsInv(run: seq<Sys>, steps: seq<Step>, k: nat)
    requires Run(run, steps) && k < |run|
    ensures Inv(run[k])
  {
    if k == 0 {
      InitHasInv(run[0]);
    } else {
      RunKeepsInv(run, steps, k - 1);
      NextKeepsInv(run[k - 1], run[k], steps[k - 1]);
    }
  }

  /** In every interleaving: while a stored request is unrequested and a publisher of its service and types is known,
      that publisher's connection callback is still to run, or the service thread has the key queued or in hand, or
      the Request call that stored it has not left its critical section. No wakeup is lost. */
  lemma NoStrandedRequest(run: seq<Sys>, steps: seq<Step>, k: nat, id: Id, x: Publisher)
    requires Run(run, steps) && k < |run|
    requires id in run[k].requests && !run[k].requests[id].requested
    requires x in run[k].info && KeyOf(x) == ReqKey(id, run[k].requests[id])
    ensures Covered(run[k], id, x)
  {
    RunKeepsInv(run, steps, k);
    assert StrictlyCovered(run[k], id, x);
  }

  predicate Quiet(s: Sys) {
    s.callbacks == [] && s.queue == [] && s.worker == Idle && s.caller == NoCaller
  }

  /** No request whose service is known waits unrequested. */
  ghost predicate AllRequested(s: Sys) {
    forall id | id in s.requests && Matching(s.info, ReqKey(id, s.requests[id])) != {} :: s.requests[id].requested
  }

  lemma QuietCovers(s: Sys)
    requires AllCovered(s) && Quiet(s)
    ensures AllRequested(s)
  {
    forall id | id in s.requests && Matching(s.info, ReqKey(id, s.requests[id])) != {}
      ensures s.requests[id].requested
    {
      var x :| x in Matching(s.info, ReqKey(id, s.requests[id]));
      assert !s.requests[id].requested ==> StrictlyCovered(s, id, x);
    }
  }

  /** Once nothing is in progress, no request whose service is known waits unrequested. */
  lemma QuietMeansRequested(run: seq<Sys>, steps: seq<Step>, k: nat)
    requires Run(run, steps) && k < |run| && Quiet(run[k])
    ensures AllRequested(run[k])
  {
    RunKeepsInv(run, steps, k);
    QuietCovers(run[k]);
  }

  /** Every added request is stored, answered or gone one-way, and in one of these only; it is sent, served and
      notified at most once however often a response is repeated, and served by its own topic and types. */
  lemma RequestConservation(run: seq<Sys>, steps: seq<Step>, k: nat)
    requires Run(run, steps) && k < |run|
    ensures var s := run[k];
            && s.added.Keys == s.requests.Keys + s.answered + s.oneWay
            && s.requests.Keys !! s.answered !! s.oneWay
            && NoRepeats(s.sent) && NoRepeats(s.notified)
            && (forall i, j | 0 <= i < j < |s.served| :: s.served[i].id != s.served[j].id)
            && (forall v | v in s.served :: v.id in s.added && v.handler == s.added[v.id])
            && (forall id | id in s.answered :: id in s.sent)
            && (forall id | id in s.notified :: id in s.answered || s.receiver == Removing(id))
            && (s.receiver.Removing? ==> s.receiver.id in s.requests)
  {
    RunKeepsInv(run, steps, k);
  }
}
