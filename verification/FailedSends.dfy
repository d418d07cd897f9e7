/** Requests that were marked but never went out: the flag is set before the request is serialized
    (aerozen/node_shared.cpp), so nothing tries again. */
module FailedSends {
  import opened Publishers
  import opened Sequences
  import opened TopicStorage
  import opened HandlerStorage
  import opened Requests

  /** Marked as requested, but nothing went out for it: the serialization or the socket failed. */
  ghost predicate Failed(s: Sys, id: Id) {
    id in s.requests && s.requests[id].requested && id !in s.sent
  }

  predicate Sends(step: Step) {
    step.WorkerSend? || step.CallerSend?
  }

  /** What a step may do to one request: only a send marks it or sends it, a failed request stays failed, and one that
      has left the storage does not come back, since its handler's UUID is used once. */
  ghost predicate FlagMoves(s: Sys, s': Sys, step: Step, id: Id) {
    && (id in s.added ==> id in s'.added && s'.added[id] == s.added[id] && (id in s'.requests ==> id in s.requests))
    && (id in s'.requests && s'.requests[id].requested ==>
          id in s.requests && (s.requests[id].requested || Sends(step)))
    && (id in s'.sent <==> id in s.sent || (Sends(step) && id in step.order))
    && (Failed(s, id) ==> Failed(s', id))
  }

  lemma SendMoves(s: Sys, s': Sys, step: Step, key: Key, responder: Publisher, id: Id)
    requires Sends(step) && Sendable(s, key, step.serializable, step.accepted, step.order)
    requires s' == SendPending(s, key, responder, step.serializable, step.order)
                   .(worker := s'.worker, caller := s'.caller)
    ensures FlagMoves(s, s', step, id)
  {
    assert forall i | i in step.order :: i in Elements(step.order);
  }

  lemma DiscoveryMoves(s: Sys, s': Sys, step: Step, id: Id)
    requires DiscoveryNext(s, s', step)
    ensures FlagMoves(s, s', step, id)
  {
  }

  lemma WorkerMoves(s: Sys, s': Sys, step: Step, id: Id)
    requires WorkerNext(s, s', step)
    ensures FlagMoves(s, s', step, id)
  {
    if step.WorkerSend? { SendMoves(s, s', step, s.worker.key, s.worker.responder, id); }
  }

  lemma CallerMoves(s: Sys, s': Sys, step: Step, id: Id)
    requires CallerNext(s, s', step) && s.requests.Keys <= s.added.Keys
    ensures FlagMoves(s, s', step, id)
  {
    if step.CallerSend? { SendMoves(s, s', step, s.added[s.caller.id], s.caller.responder, id); }
  }

  lemma ReceiverMoves(s: Sys, s': Sys, step: Step, id: Id)
    requires ReceiverNext(s, s', step) && (s.receiver.Removing? ==> s.receiver.id in s.sent)
    ensures FlagMoves(s, s', step, id)
  {
  }

  lemma NextMoves(s: Sys, s': Sys, step: Step, id: Id)
    requires Inv(s) && Next(s, s', step)
    ensures FlagMoves(s, s', step, id)
  {
    if DiscoveryNext(s, s', step) {
      DiscoveryMoves(s, s', step, id);
    } else if WorkerNext(s, s', step) {
      WorkerMoves(s, s', step, id);
    } else if CallerNext(s, s', step) {
      CallerMoves(s, s', step, id);
    } else if ReceiverNext(s, s', step) {
      ReceiverMoves(s, s', step, id);
    }
  }

  lemma StepSparesFailed(run: seq<Sys>, steps: seq<Step>, k: nat, id: Id)
    requires Run(run, steps) && k < |steps| && Failed(run[k], id)
    ensures Failed(run[k + 1], id)
  {
    RunKeepsInv(run, steps, k);
    NextMoves(run[k], run[k + 1], steps[k], id);
  }

  /** The flag is set before the request is serialized, so a failed send is final: the request is never sent, and its
      handler stays stored, in every continuation. */
  lemma {:induction false} FailedSendIsFinal(run: seq<Sys>, steps: seq<Step>, k: nat, later: nat, id: Id)
    requires Run(run, steps) && k <= later < |run| && Failed(run[k], id)
    ensures Failed(run[later], id)
    decreases later
  {
    if k < later {
      FailedSendIsFinal(run, steps, k, later - 1, id);
      StepSparesFailed(run, steps, later - 1, id);
    }
  }

  /** The step marks the request as requested without sending it. */
  predicate MarksOnly(s: Sys, s': Sys, step: Step, id: Id) {
    && id in s.requests && !s.requests[id].requested && id in s'.requests && s'.requests[id].requested
    && Sends(step) && id !in step.order
  }

  lemma StepMoves(run: seq<Sys>, steps: seq<Step>, k: nat, id: Id)
    requires Run(run, steps) && k < |steps|
    ensures FlagMoves(run[k], run[k + 1], steps[k], id)
    ensures id in run[k].sent && id in run[k].requests ==> run[k].requests[id].requested
  {
    RunKeepsInv(run, steps, k);
    NextMoves(run[k], run[k + 1], steps[k], id);
  }

  /** A send finds the request due, and cannot serialize it or has it refused by the socket. */
  ghost predicate Refused(s: Sys, step: Step, id: Id) {
    match step
    case WorkerSend(serializable, accepted, _) =>
      s.worker.Found? && id in Due(s.requests, s.worker.key) && id !in serializable * accepted
    case CallerSend(serializable, accepted, _) =>
      s.caller.Matched? && s.caller.id in s.added && id in Due(s.requests, s.added[s.caller.id])
      && id !in serializable * accepted
    case _ => false
  }

  lemma SendRefuses(s: Sys, s': Sys, step: Step, key: Key, responder: Publisher, id: Id)
    requires Sends(step) && Sendable(s, key, step.serializable, step.accepted, step.order)
    requires s' == SendPending(s, key, responder, step.serializable, step.order)
                   .(worker := s'.worker, caller := s'.caller)
    requires id in s'.requests
    ensures MarksOnly(s, s', step, id) <==> id in Due(s.requests, key) && id !in step.serializable * step.accepted
  {
    assert id in step.order <==> id in Elements(step.order);
  }

  /** A request that stays stored is refused exactly when the step marks it without sending it. */
  lemma RefusedMarks(s: Sys, s': Sys, step: Step, id: Id)
    requires Next(s, s', step) && id in s'.requests
    ensures Refused(s, step, id) <==> MarksOnly(s, s', step, id)
  {
    if step.WorkerSend? {
      SendRefuses(s, s', step, s.worker.key, s.worker.responder, id);
    } else if step.CallerSend? {
      SendRefuses(s, s', step, s.added[s.caller.id], s.caller.responder, id);
    }
  }

  lemma MarksOnlyFails(s: Sys, s': Sys, step: Step, id: Id)
    requires SentOnce(s) && FlagMoves(s, s', step, id) && MarksOnly(s, s', step, id)
    ensures Failed(s', id)
  {
  }

  lemma StoredBefore(run: seq<Sys>, steps: seq<Step>, k: nat, id: Id)
    requires Run(run, steps) && k < |steps| && id in run[k].added
    ensures id in run[k + 1].added && (id in run[k + 1].requests ==> id in run[k].requests)
  {
    StepMoves(run, steps, k, id);
  }

  lemma {:induction false} StoredAllAlong(run: seq<Sys>, steps: seq<Step>, j: nat, k: nat, id: Id)
    requires Run(run, steps) && j <= k < |run| && id in run[j].added
    ensures id in run[k].added && (id in run[k].requests ==> id in run[j].requests)
    decreases k
  {
    if j < k {
      StoredAllAlong(run, steps, j, k - 1, id);
      StoredBefore(run, steps, k - 1, id);
    }
  }

  lemma RefusedFails(run: seq<Sys>, steps: seq<Step>, j: nat, k: nat, id: Id)
    requires Run(run, steps) && j < k < |run| && Refused(run[j], steps[j], id) && id in run[k].requests
    ensures Failed(run[k], id)
  {
    RunKeepsInv(run, steps, j);
    StepMoves(run, steps, j, id);
    StoredAllAlong(run, steps, j + 1, k, id);
    RefusedMarks(run[j], run[j + 1], steps[j], id);
    MarksOnlyFails(run[j], run[j + 1], steps[j], id);
    FailedSendIsFinal(run, steps, j + 1, k, id);
  }

  lemma FailsByRefusal(run: seq<Sys>, steps: seq<Step>, k: nat, id: Id)
    requires Run(run, steps) && k < |steps| && !Failed(run[k], id) && Failed(run[k + 1], id)
    ensures Refused(run[k], steps[k], id)
  {
    StepMoves(run, steps, k, id);
    RefusedMarks(run[k], run[k + 1], steps[k], id);
  }

  lemma {:induction false} FailedWasRefused(run: seq<Sys>, steps: seq<Step>, k: nat, id: Id) returns (j: nat)
    requires Run(run, steps) && k < |run| && Failed(run[k], id)
    ensures j < k && Refused(run[j], steps[j], id)
  {
    assert k > 0;
    if Failed(run[k - 1], id) {
      j := FailedWasRefused(run, steps, k - 1, id);
    } else {
      FailsByRefusal(run, steps, k - 1, id);
      j := k - 1;
    }
  }

  /** A request is failed exactly when it is stored and some send found it due and could not serialize it or had it
      refused by the socket. */
  lemma FailedIff(run: seq<Sys>, steps: seq<Step>, k: nat, id: Id)
    requires Run(run, steps) && k < |run|
    ensures Failed(run[k], id)
       <==> id in run[k].requests && exists j {:trigger steps[j]} | 0 <= j < k :: Refused(run[j], steps[j], id)
  {
    if Failed(run[k], id) {
      var j := FailedWasRefused(run, steps, k, id);
      assert Refused(run[j], steps[j], id);
    } else if id in run[k].requests {
      forall j {:trigger steps[j]} | 0 <= j < k ensures !Refused(run[j], steps[j], id) {
        if Refused(run[j], steps[j], id) { RefusedFails(run, steps, j, k, id); }
      }
    }
  }

  /** A service is known and a request for it stored; then the publishers are asked for. */
  function Waited(id: Id, r: Req, x: Publisher, caller: Caller): Sys {
    Sys({x}, [x], map[id := r], [], Idle, caller, Waiting, [], [], map[],
        map[id := Key(id.topic, r.reqType, r.repType)], {}, {}, [], [], [])
  }

  const NOTHING := Sys({}, [], map[], [], Idle, NoCaller, Waiting, [], [], map[], map[], {}, {}, [], [], [])

  lemma StoreWhileKnown(id: Id, r: Req, x: Publisher) returns (known: Sys)
    requires !r.requested && x.Kind() == SrvKind
    ensures Next(NOTHING, known, AddPublisher(x))
    ensures Next(known, Waited(id, r, x, Stored(id)), Store(id, r.reqType, r.repType))
  {
    known := NOTHING.(info := {x}, callbacks := [x]);
  }

  lemma LookWhileKnown(id: Id, r: Req, x: Publisher)
    requires KeyOf(x) == Key(id.topic, r.reqType, r.repType) && x.topic == id.topic
    ensures Next(Waited(id, r, x, Stored(id)), Waited(id, r, x, Sending(id)), AskTopic)
    ensures Next(Waited(id, r, x, Sending(id)), Waited(id, r, x, Matched(id, x)), CallerLook)
  {
    assert x in OnTopic({x}, id.topic) && x in Matching({x}, KeyOf(x));
  }

  /** Not serializable, or refused by the socket; a one-way request that the socket refuses leaves the storage. */
  predicate Unsendable(id: Id, repType: string, serializable: set<Id>, accepted: set<Id>) {
    id !in serializable || (id !in accepted && repType != EMPTY_TYPE)
  }

  lemma MarkUnsendable(id: Id, r: Req, x: Publisher, serializable: set<Id>, accepted: set<Id>)
    requires !r.requested && Unsendable(id, r.repType, serializable, accepted)
    ensures Next(Waited(id, r, x, Matched(id, x)), Waited(id, r.(requested := true), x, NoCaller),
                 CallerSend(serializable, accepted, []))
  {
    var key := Key(id.topic, r.reqType, r.repType);
    assert Due(map[id := r], key) == {id} && Due(map[id := r], key) * serializable * accepted == {};
    assert Dispatched(map[id := r], key, serializable) == {};
  }

  /** It happens, for every request that cannot be serialized and every two-way one that the socket refuses: it is
      stored while its service is known. */
  lemma SomeRequestFails(id: Id, reqType: string, repType: string, x: Publisher, serializable: set<Id>,
                         accepted: set<Id>)
    returns (run: seq<Sys>, steps: seq<Step>)
    requires x.Kind() == SrvKind && KeyOf(x) == Key(id.topic, reqType, repType)
    requires Unsendable(id, repType, serializable, accepted)
    ensures Run(run, steps) && Failed(run[|run| - 1], id)
    ensures steps[|steps| - 1] == CallerSend(serializable, accepted, [])
  {
    var r := Req(reqType, repType, false);
    var known := StoreWhileKnown(id, r, x);
    LookWhileKnown(id, r, x);
    MarkUnsendable(id, r, x, serializable, accepted);
    run := [NOTHING, known, Waited(id, r, x, Stored(id)), Waited(id, r, x, Sending(id)),
            Waited(id, r, x, Matched(id, x)), Waited(id, r.(requested := true), x, NoCaller)];
    steps := [AddPublisher(x), Store(id, reqType, repType), AskTopic, CallerLook,
              CallerSend(serializable, accepted, [])];
    assert Init(NOTHING);
  }
}
