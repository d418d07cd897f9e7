/** Where the messages of a process's requests go, and where each request is once it has been sent, in every run of
    Requests. */
module Destinations {
  import opened Publishers
  import opened Sequences
  import opened HandlerStorage
  import opened Requests
  import T = TopicStorage
  import FailedSends

  function WorkerHas(worker: Worker): set<Publisher> {
    match worker
    case Popped(job) => {job}
    case Found(_, x) => {x}
    case Idle => {}
  }

  function CallerHas(caller: Caller): set<Publisher> {
    match caller
    case Matched(_, x) => {x}
    case Calling(_, todo) => todo
    case _ => {}
  }

  /** Some thread has the publisher in hand. */
  ghost predicate Holds(s: Sys, x: Publisher) {
    x in s.info || x in s.callbacks || x in s.queue || x in WorkerHas(s.worker) || x in CallerHas(s.caller)
  }

  /** The message is for this publisher: its service, its types and its socket. */
  predicate IsFor(w: Wire, x: Publisher) {
    && x.Kind() == SrvKind && w.socketId == x.details.socketId
    && w.key.topic == x.topic && w.key.reqType == x.details.reqType && w.key.repType == x.details.repType
  }

  /** A responder in hand has the service and types it was looked up for. */
  ghost predicate RespondersFit(s: Sys) {
    && (s.worker.Found? ==> KeyOf(s.worker.responder) == s.worker.key)
    && (s.caller.Matched? ==> s.caller.id in s.added && KeyOf(s.caller.responder) == s.added[s.caller.id])
    && forall x | Holds(s, x) :: x.Kind() == SrvKind
  }

  lemma SendReaches(s: Sys, s': Sys, key: Key, x: Publisher, serializable: set<Id>, order: seq<Id>, w: Wire)
    requires KeyOf(x) == key && x.Kind() == SrvKind
    requires s'.wire == SendPending(s, key, x, serializable, order).wire && w in s'.wire && w !in s.wire
    ensures IsFor(w, x)
  {
  }

  lemma WorkerReaches(s: Sys, s': Sys, step: Step)
    requires RespondersFit(s) && WorkerNext(s, s', step)
    ensures RespondersFit(s') && (forall x | Holds(s', x) :: Holds(s, x))
    ensures forall w | w in s'.wire && w !in s.wire :: exists x :: Holds(s, x) && IsFor(w, x)
  {
    forall w | w in s'.wire && w !in s.wire ensures exists x :: Holds(s, x) && IsFor(w, x) {
      SendReaches(s, s', s.worker.key, s.worker.responder, step.serializable, step.order, w);
      assert Holds(s, s.worker.responder);
    }
  }

  lemma CallerReaches(s: Sys, s': Sys, step: Step)
    requires RespondersFit(s) && CallerNext(s, s', step)
    ensures RespondersFit(s') && (forall x | Holds(s', x) :: Holds(s, x))
    ensures forall w | w in s'.wire && w !in s.wire :: exists x :: Holds(s, x) && IsFor(w, x)
  {
    forall w | w in s'.wire && w !in s.wire ensures exists x :: Holds(s, x) && IsFor(w, x) {
      SendReaches(s, s', s.added[s.caller.id], s.caller.responder, step.serializable, step.order, w);
      assert Holds(s, s.caller.responder);
    }
  }

  lemma DiscoveryReaches(s: Sys, s': Sys, step: Step)
    requires RespondersFit(s) && DiscoveryNext(s, s', step)
    ensures RespondersFit(s') && (forall x | Holds(s', x) :: Holds(s, x) || step == AddPublisher(x))
    ensures s'.wire == s.wire
  {
    if step.RunCallback? { RemoveMembers(s.callbacks, step.i); }
  }

  lemma OthersReach(s: Sys, s': Sys, step: Step)
    requires RespondersFit(s) && (RemoteNext(s, s', step) || ReceiverNext(s, s', step))
    ensures RespondersFit(s') && (forall x | Holds(s', x) :: Holds(s, x))
    ensures forall w | w in s'.wire :: w in s.wire
  {
  }

  predicate Adds(steps: seq<Step>, j: nat, x: Publisher) {
    j < |steps| && steps[j] == AddPublisher(x)
  }

  ghost predicate WasAdded(steps: seq<Step>, k: nat, x: Publisher) {
    exists j: nat :: j < k && Adds(steps, j, x)
  }

  /** What is in hand was added; every message is for a publisher that was. */
  ghost predicate AllReach(steps: seq<Step>, k: nat, s: Sys) {
    && RespondersFit(s) && (forall x | Holds(s, x) :: WasAdded(steps, k, x))
    && forall w | w in s.wire :: exists x :: WasAdded(steps, k, x) && IsFor(w, x)
  }

  lemma AddedLater(steps: seq<Step>, k: nat)
    ensures forall x | WasAdded(steps, k, x) :: WasAdded(steps, k + 1, x)
    ensures k < |steps| && steps[k].AddPublisher? ==> WasAdded(steps, k + 1, steps[k].x)
  {
    if k < |steps| && steps[k].AddPublisher? { assert Adds(steps, k, steps[k].x); }
  }

  lemma NextReaches(s: Sys, s': Sys, step: Step)
    requires RespondersFit(s) && Next(s, s', step)
    ensures RespondersFit(s') && (forall x | Holds(s', x) :: Holds(s, x) || step == AddPublisher(x))
    ensures forall w | w in s'.wire && w !in s.wire :: exists x :: Holds(s, x) && IsFor(w, x)
  {
    if DiscoveryNext(s, s', step) {
      DiscoveryReaches(s, s', step);
    } else if WorkerNext(s, s', step) {
      WorkerReaches(s, s', step);
    } else if CallerNext(s, s', step) {
      CallerReaches(s, s', step);
    } else {
      OthersReach(s, s', step);
    }
  }

  lemma StepReaches(run: seq<Sys>, steps: seq<Step>, k: nat)
    requires Run(run, steps) && k < |steps| && AllReach(steps, k, run[k])
    ensures AllReach(steps, k + 1, run[k + 1])
  {
    var s, s' := run[k], run[k + 1];
    NextReaches(s, s', steps[k]);
    AddedLater(steps, k);
    forall w | w in s'.wire ensures exists x :: WasAdded(steps, k + 1, x) && IsFor(w, x) {
      if w in s.wire {
        var x :| WasAdded(steps, k, x) && IsFor(w, x);
        assert WasAdded(steps, k + 1, x);
      } else {
        var x :| Holds(s, x) && IsFor(w, x);
        assert WasAdded(steps, k + 1, x);
      }
    }
  }

  lemma {:induction false} RunReaches(run: seq<Sys>, steps: seq<Step>, k: nat)
    requires Run(run, steps) && k < |run|
    ensures AllReach(steps, k, run[k])
  {
    if k > 0 {
      RunReaches(run, steps, k - 1);
      StepReaches(run, steps, k - 1);
    }
  }

  /** A replier that listens at the socket, with a handler for the service and types, can serve the message. */
  ghost predicate Servable(s: Sys, i: nat, x: Publisher)
    requires x.Kind() == SrvKind
  {
    var key := Key(x.topic, x.details.reqType, x.details.repType);
    x.details.socketId in s.repliers && key in s.repliers[x.details.socketId] ==>
      exists s' :: RemoteNext(s, s', Serve(i, key))
  }

  lemma ForMeansServable(s: Sys, i: nat, x: Publisher)
    requires i < |s.wire| && IsFor(s.wire[i], x)
    ensures Servable(s, i, x)
  {
    var w, key := s.wire[i], Key(x.topic, x.details.reqType, x.details.repType);
    if x.details.socketId in s.repliers && key in s.repliers[x.details.socketId] {
      var s' := s.(wire := Remove(s.wire, i), served := s.served + [Served(w.id, key)],
                   responses := s.responses + if w.key.repType == EMPTY_TYPE then [] else [w.id]);
      assert RemoteNext(s, s', Serve(i, key));
    }
  }

  /** In every run, each message on its way is for a publisher added before, and goes to the socket which that publisher
      names, where a replier for its service and types can serve it. */
  lemma EveryRequestHasAnAddress(run: seq<Sys>, steps: seq<Step>, k: nat, i: nat) returns (x: Publisher)
    requires Run(run, steps) && k < |run| && i < |run[k].wire|
    ensures WasAdded(steps, k, x) && IsFor(run[k].wire[i], x) && Servable(run[k], i, x)
  {
    RunReaches(run, steps, k);
    var s, w := run[k], run[k].wire[i];
    assert w in s.wire;
    x :| WasAdded(steps, k, x) && IsFor(w, x);
    ForMeansServable(s, i, x);
  }

  /** A request that was sent: a one-way one has left the storage. */
  ghost predicate OneWayLeaves(s: Sys) {
    forall id | id in s.sent && id in s.added && s.added[id].repType == "aerozen.msgs.Empty" :: id !in s.requests
  }

  lemma SendTakesOneWay(s: Sys, s': Sys, key: Key, x: Publisher, serializable: set<Id>, accepted: set<Id>,
                        order: seq<Id>, id: Id)
    requires Accounted(s) && OneWayLeaves(s) && Sendable(s, key, serializable, accepted, order)
    requires s' == SendPending(s, key, x, serializable, order).(worker := s'.worker, caller := s'.caller)
    requires id in s'.sent && id in s'.added && s'.added[id].repType == "aerozen.msgs.Empty"
    ensures id !in s'.requests
  {
    assert id in order <==> id in Elements(order);
  }

  lemma NextTakesOneWay(s: Sys, s': Sys, step: Step, id: Id)
    requires Inv(s) && Next(s, s', step) && OneWayLeaves(s) && FailedSends.FlagMoves(s, s', step, id)
    requires id in s'.sent && id in s'.added && s'.added[id].repType == "aerozen.msgs.Empty"
    ensures id !in s'.requests
  {
    if step.WorkerSend? {
      SendTakesOneWay(s, s', s.worker.key, s.worker.responder, step.serializable, step.accepted, step.order, id);
    } else if step.CallerSend? {
      SendTakesOneWay(s, s', s.added[s.caller.id], s.caller.responder, step.serializable, step.accepted, step.order,
                      id);
    }
  }

  lemma StepTakesOneWay(run: seq<Sys>, steps: seq<Step>, k: nat)
    requires Run(run, steps) && k < |steps| && OneWayLeaves(run[k])
    ensures OneWayLeaves(run[k + 1])
  {
    RunKeepsInv(run, steps, k);
    var s' := run[k + 1];
    forall id | id in s'.sent && id in s'.added && s'.added[id].repType == "aerozen.msgs.Empty"
      ensures id !in s'.requests
    {
      FailedSends.StepMoves(run, steps, k, id);
      NextTakesOneWay(run[k], s', steps[k], id);
    }
  }

  lemma {:induction false} RunTakesOneWay(run: seq<Sys>, steps: seq<Step>, k: nat)
    requires Run(run, steps) && k < |run|
    ensures OneWayLeaves(run[k])
  {
    if k > 0 {
      RunTakesOneWay(run, steps, k - 1);
      StepTakesOneWay(run, steps, k - 1);
    }
  }

  /** In every run, a request that was sent is stored exactly when it awaits a response that has not been taken: one-way
      requests leave as they are sent, and others stay, marked, until they are answered. */
  lemma SentIsStoredIff(run: seq<Sys>, steps: seq<Step>, k: nat, id: Id)
    requires Run(run, steps) && k < |run| && id in run[k].sent
    ensures id in run[k].added
    ensures id in run[k].requests
       <==> run[k].added[id].repType != "aerozen.msgs.Empty" && id !in run[k].answered
    ensures id in run[k].requests ==> run[k].requests[id].requested
  {
    RunKeepsInv(run, steps, k);
    RunTakesOneWay(run, steps, k);
  }
}
