/** The threads of one process come to rest: with no further call, message or publisher, what is in progress for the
    service requests (Requests) and the registrations (Subscriptions) comes to an end, and ends well. */
module Settling {
  import opened Publishers
  import opened Sequences
  import T = TopicStorage
  import R = Requests
  import S = Subscriptions

  lemma {:induction false} NoEndlessDescent(rank: nat -> nat, start: nat) returns (k: nat)
    ensures k >= start && rank(k + 1) >= rank(k)
    decreases rank(start)
  {
    if rank(start + 1) < rank(start) {
      k := NoEndlessDescent(rank, start + 1);
    } else {
      k := start;
    }
  }

  /** Steps of the threads already at work on requests: no new call, publisher, message or response. */
  predicate Continues(step: R.Step) {
    || step.RunCallback? || step.PopQueue? || step.WorkerLook? || step.WorkerSend? || step.AskTopic?
    || step.CallerLook? || step.CallerSend? || step.CallerSnapshot? || step.CallerCallback? || step.CallerDone?
  }

  ghost predicate Works(s: R.Sys, s': R.Sys) {
    exists step :: Continues(step) && R.Next(s, s', step)
  }

  function WorkerRank(worker: R.Worker): nat {
    match worker
    case Idle => 0
    case Popped(_) => 3
    case Found(_, _) => 2
  }

  function CallerRank(caller: R.Caller, info: set<Publisher>): nat {
    match caller
    case NoCaller => 0
    case Stored(_) => 5 * |info| + 3
    case Sending(_) => 2
    case Matched(_, _) => 1
    case Discovering(_) => 5 * |info| + 2
    case Calling(_, todo) => 5 * |todo| + 1
  }

  /** A callback costs more than the queue entry it may leave, and this more than what the service thread makes of
      it. */
  function RequestRank(s: R.Sys): nat {
    5 * |s.callbacks| + 4 * |s.queue| + WorkerRank(s.worker) + CallerRank(s.caller, s.info)
  }

  lemma OnTopicIsFewer(info: set<Publisher>, topic: string)
    ensures |T.OnTopic(info, topic)| <= |info|
  {
    SubsetIsFewer(T.OnTopic(info, topic), info);
  }

  lemma {:induction false} SubsetIsFewer<T>(part: set<T>, whole: set<T>)
    requires part <= whole
    ensures |part| <= |whole|
  {
    if part != {} {
      var x :| x in part;
      SubsetIsFewer(part - {x}, whole - {x});
    }
  }

  lemma CallbackDescends(s: R.Sys, s': R.Sys, step: R.Step)
    requires Continues(step) && R.DiscoveryNext(s, s', step)
    ensures RequestRank(s') < RequestRank(s) && s'.info == s.info
  {
  }

  lemma WorkerDescends(s: R.Sys, s': R.Sys, step: R.Step)
    requires Continues(step) && R.WorkerNext(s, s', step)
    ensures RequestRank(s') < RequestRank(s) && s'.info == s.info
  {
  }

  lemma CallerDescends(s: R.Sys, s': R.Sys, step: R.Step)
    requires Continues(step) && R.CallerNext(s, s', step)
    ensures RequestRank(s') < RequestRank(s) && s'.info == s.info
  {
    if step.CallerSnapshot? { OnTopicIsFewer(s.info, s.caller.id.topic); }
  }

  lemma WorkDescends(s: R.Sys, s': R.Sys, step: R.Step)
    requires Continues(step) && R.Next(s, s', step)
    ensures RequestRank(s') < RequestRank(s) && s'.info == s.info
  {
    if R.DiscoveryNext(s, s', step) {
      CallbackDescends(s, s', step);
    } else if R.WorkerNext(s, s', step) {
      WorkerDescends(s, s', step);
    } else {
      CallerDescends(s, s', step);
    }
  }

  /** The Request call in its critical section can always go on. */
  lemma CallerCanStep(s: R.Sys) returns (s': R.Sys, step: R.Step)
    requires s.caller != R.NoCaller && s.caller.id in s.added
    ensures Continues(step) && R.Next(s, s', step)
  {
    match s.caller {
      case Stored(id) =>
        step := R.AskTopic;
        s' := s.(caller := if T.OnTopic(s.info, id.topic) != {} then R.Sending(id) else R.Discovering(id));
      case Sending(id) =>
        step := R.CallerLook;
        if x :| x in R.Matching(s.info, s.added[id]) {
          s' := s.(caller := R.Matched(id, x));
        } else {
          assert R.Matching(s.info, s.added[id]) == {};
          s' := s.(caller := R.NoCaller);
        }
      case Matched(id, responder) =>
        step := R.CallerSend({}, {}, []);
        s' := R.SendPending(s, s.added[id], responder, {}, []).(caller := R.NoCaller);
      case Discovering(id) =>
        step := R.CallerSnapshot;
        s' := s.(caller := R.Calling(id, T.OnTopic(s.info, id.topic)));
      case Calling(id, todo) =>
        if x :| x in todo {
          step := R.CallerCallback(x);
          s' := R.OnConnection(s, x).(caller := R.Calling(id, todo - {x}));
        } else {
          step := R.CallerDone;
          s' := s.(caller := R.NoCaller);
        }
    }
  }

  lemma OthersCanStep(s: R.Sys) returns (s': R.Sys, step: R.Step)
    requires s.caller == R.NoCaller && !R.Quiet(s)
    ensures Continues(step) && R.Next(s, s', step)
  {
    if s.callbacks != [] {
      step := R.RunCallback(0);
      s' := R.OnConnection(s, s.callbacks[0]).(callbacks := Remove(s.callbacks, 0));
    } else {
      match s.worker {
        case Idle =>
          step := R.PopQueue;
          s' := s.(worker := R.Popped(s.queue[0]), queue := s.queue[1..]);
        case Popped(job) =>
          step := R.WorkerLook;
          if x :| x in R.Matching(s.info, R.KeyOf(job)) {
            s' := s.(worker := R.Found(R.KeyOf(job), x));
          } else {
            assert R.Matching(s.info, R.KeyOf(job)) == {};
            s' := s.(worker := R.Idle);
          }
        case Found(key, responder) =>
          step := R.WorkerSend({}, {}, []);
          s' := R.SendPending(s, key, responder, {}, []).(worker := R.Idle);
      }
    }
  }

  /** No deadlock: until everything is at rest, some thread can take a step. */
  lemma RequestsCanStep(run: seq<R.Sys>, steps: seq<R.Step>, k: nat) returns (s': R.Sys)
    requires R.Run(run, steps) && k < |run| && !R.Quiet(run[k])
    ensures Works(run[k], s')
  {
    R.RunKeepsInv(run, steps, k);
    var step;
    if run[k].caller != R.NoCaller {
      s', step := CallerCanStep(run[k]);
    } else {
      s', step := OthersCanStep(run[k]);
    }
  }

  ghost predicate WorksAt(run: nat -> R.Sys, k: nat) {
    Works(run(k), run(k + 1))
  }

  lemma WorksOnlyDown(s: R.Sys, s': R.Sys)
    ensures Works(s, s') ==> RequestRank(s') < RequestRank(s)
  {
    if step :| Continues(step) && R.Next(s, s', step) { WorkDescends(s, s', step); }
  }

  /** No livelock: from any state these steps come to an end. */
  lemma RequestsComeToRest(run: nat -> R.Sys, start: nat) returns (k: nat)
    ensures k >= start && !WorksAt(run, k)
  {
    k := NoEndlessDescent((k: nat) => RequestRank(run(k)), start);
    WorksOnlyDown(run(k), run(k + 1));
  }

  lemma {:induction false} RestIsReached(run: nat -> R.Sys, start: nat) returns (k: nat)
    requires R.Inv(run(start))
    requires forall k: nat {:trigger WorksAt(run, k)} :: R.Quiet(run(k)) || WorksAt(run, k)
    ensures R.Quiet(run(k)) && R.Inv(run(k)) && run(k).info == run(start).info
    decreases RequestRank(run(start))
  {
    if R.Quiet(run(start)) {
      k := start;
    } else {
      assert WorksAt(run, start);
      var step :| Continues(step) && R.Next(run(start), run(start + 1), step);
      WorkDescends(run(start), run(start + 1), step);
      R.NextKeepsInv(run(start), run(start + 1), step);
      k := RestIsReached(run, start + 1);
    }
  }

  /** From every reachable state: if the threads go on until they are at rest, then they reach a state at rest, with the
      same publishers known, in which every stored request whose service is known has been requested. */
  lemma EveryRequestIsRequested(before: seq<R.Sys>, steps: seq<R.Step>, run: nat -> R.Sys) returns (k: nat)
    requires R.Run(before, steps) && run(0) == before[|before| - 1]
    requires forall k: nat {:trigger WorksAt(run, k)} :: R.Quiet(run(k)) || WorksAt(run, k)
    ensures R.Quiet(run(k)) && run(k).info == run(0).info && R.AllRequested(run(k))
  {
    R.RunKeepsInv(before, steps, |before| - 1);
    k := RestIsReached(run, 0);
    R.QuietCovers(run(k));
  }

  /** Steps of the reception thread and of a Subscribe call already under way. */
  predicate Proceeds(step: S.Step) {
    || step.RxRun? || step.RxRegister? || step.RxDone?
    || step.SubSnapshot? || step.SubCall? || step.SubRegister? || step.SubCalled? || step.SubDone?
  }

  ghost predicate Registers(s: S.Sys, s': S.Sys) {
    exists step :: Proceeds(step) && S.Next(s, s', step, true)
  }

  function ReceptionRank(rx: S.Reception, handlers: nat): nat {
    match rx
    case RxIdle => 0
    case ToRun(_) => handlers + 2
    case Registering(_, todo) => |todo| + 1
  }

  /** Each publisher still to be dealt with costs `each` steps at most. */
  function SubscriberRank(sub: S.Subscriber, info: set<Publisher>, each: nat): nat {
    match sub
    case NoSub => 0
    case Storing(_) => |info| * each + 2
    case Calling(_, left) => |left| * each + 1
    case SubRegistering(_, _, todo, left) => |left| * each + |todo| + 2
  }

  function RegistrationRank(s: S.Sys): nat {
    ReceptionRank(s.rx, |s.handlers|) + SubscriberRank(s.sub, s.info, |s.handlers| + 3)
  }

  /** The registered nodes are no more than the handlers. */
  lemma {:induction false} NodesAreFewer(handlers: S.Handlers, x: Publisher)
    ensures |S.NodesFor(handlers, x)| <= |handlers|
  {
    if handlers == map[] {
      assert S.NodesFor(handlers, x) == {};
    } else {
      var id :| id in handlers;
      var rest := handlers - {id};
      NodesAreFewer(rest, x);
      assert handlers.Keys == rest.Keys + {id};
      SubsetIsFewer(S.NodesFor(handlers, x), S.NodesFor(rest, x) + {id.nUuid});
    }
  }

  lemma ReceptionDescends(s: S.Sys, s': S.Sys, step: S.Step)
    requires Proceeds(step) && S.NextReception(s, s', step)
    ensures ReceptionRank(s'.rx, |s.handlers|) < ReceptionRank(s.rx, |s.handlers|)
    ensures s'.sub == s.sub && s'.info == s.info && s'.handlers == s.handlers
  {
    if step.RxRun? { NodesAreFewer(s.handlers, s.rx.x); }
  }

  lemma FewerCostLess(part: nat, whole: nat, each: nat)
    requires part <= whole
    ensures part * each <= whole * each
    ensures part < whole ==> part * each + each <= whole * each
  {
    if part < whole {
      assert (part + 1) * each <= whole * each;
    }
  }

  lemma SubscribeDescends(s: S.Sys, s': S.Sys, step: S.Step)
    requires Proceeds(step) && S.NextSubscribe(s, s', step, true)
    ensures s'.rx == s.rx && s'.info == s.info && s'.handlers == s.handlers
    ensures SubscriberRank(s'.sub, s.info, |s.handlers| + 3) < SubscriberRank(s.sub, s.info, |s.handlers| + 3)
  {
    var each := |s.handlers| + 3;
    match step {
      case SubSnapshot =>
        OnTopicIsFewer(s.info, s.sub.id.topic);
        FewerCostLess(|s'.sub.left|, |s.info|, each);
      case SubCall(x) =>
        NodesAreFewer(s.handlers, x);
        FewerCostLess(|s'.sub.left|, |s.sub.left|, each);
      case _ =>
    }
  }

  lemma RegistrationDescends(s: S.Sys, s': S.Sys, step: S.Step)
    requires Proceeds(step) && S.Next(s, s', step, true)
    ensures RegistrationRank(s') < RegistrationRank(s) && s'.info == s.info && s'.handlers == s.handlers
  {
    if S.NextReception(s, s', step) {
      ReceptionDescends(s, s', step);
    } else {
      SubscribeDescends(s, s', step);
    }
  }

  lemma SubscriberCanStep(s: S.Sys) returns (s': S.Sys, step: S.Step)
    requires s.sub != S.NoSub
    ensures Proceeds(step) && S.Next(s, s', step, true)
  {
    match s.sub {
      case Storing(id) =>
        step := S.SubSnapshot;
        s' := s.(sub := S.Calling(id, T.OnTopic(s.info, id.topic)));
      case Calling(id, left) =>
        if x :| x in left {
          step := S.SubCall(x);
          s' := s.(sub := S.SubRegistering(id, x, S.Callback(s, x), left - {x}));
        } else {
          step := S.SubDone;
          s' := s.(sub := S.NoSub);
        }
      case SubRegistering(id, x, todo, left) =>
        if n :| n in todo {
          step := S.SubRegister(n);
          s' := s.(sub := s.sub.(todo := todo - {n}), trace := s.trace + [S.New(n, x)]);
        } else {
          step := S.SubCalled;
          s' := s.(sub := S.Calling(id, left));
        }
    }
  }

  lemma ReceptionCanStep(s: S.Sys) returns (s': S.Sys, step: S.Step)
    requires s.sub == S.NoSub && s.rx != S.RxIdle
    ensures Proceeds(step) && S.Next(s, s', step, true)
  {
    match s.rx {
      case ToRun(x) =>
        step := S.RxRun;
        s' := s.(rx := S.Registering(x, S.Callback(s, x)));
      case Registering(x, todo) =>
        if n :| n in todo {
          step := S.RxRegister(n);
          s' := s.(rx := S.Registering(x, todo - {n}), trace := s.trace + [S.New(n, x)]);
        } else {
          step := S.RxDone;
          s' := s.(rx := S.RxIdle);
        }
    }
  }

  /** No deadlock, in any state at all. */
  lemma RegistrationsCanStep(s: S.Sys) returns (s': S.Sys)
    requires !S.Quiet(s)
    ensures Registers(s, s')
  {
    var step;
    if s.sub != S.NoSub {
      s', step := SubscriberCanStep(s);
    } else {
      s', step := ReceptionCanStep(s);
    }
  }

  ghost predicate RegistersAt(run: nat -> S.Sys, k: nat) {
    Registers(run(k), run(k + 1))
  }

  lemma RegistersOnlyDown(s: S.Sys, s': S.Sys)
    ensures Registers(s, s') ==> RegistrationRank(s') < RegistrationRank(s)
  {
    if step :| Proceeds(step) && S.Next(s, s', step, true) { RegistrationDescends(s, s', step); }
  }

  /** No livelock: from any state these steps come to an end. */
  lemma RegistrationsComeToRest(run: nat -> S.Sys, start: nat) returns (k: nat)
    ensures k >= start && !RegistersAt(run, k)
  {
    k := NoEndlessDescent((k: nat) => RegistrationRank(run(k)), start);
    RegistersOnlyDown(run(k), run(k + 1));
  }

  lemma {:induction false} SubscribersRest(run: nat -> S.Sys, start: nat, guarded: bool) returns (k: nat)
    requires S.Inv(run(start), guarded)
    requires forall k: nat {:trigger RegistersAt(run, k)} :: S.Quiet(run(k)) || RegistersAt(run, k)
    ensures S.Quiet(run(k)) && S.Inv(run(k), guarded)
    ensures run(k).info == run(start).info && run(k).handlers == run(start).handlers
    decreases RegistrationRank(run(start))
  {
    if S.Quiet(run(start)) {
      k := start;
    } else {
      assert RegistersAt(run, start);
      var step :| Proceeds(step) && S.Next(run(start), run(start + 1), step, true);
      RegistrationDescends(run(start), run(start + 1), step);
      S.NextKeepsInv(run(start), run(start + 1), step, guarded);
      k := SubscribersRest(run, start + 1, guarded);
    }
  }

  /** From every reachable state: if the threads go on until they are at rest, then they reach a state at rest, with the
      same publishers and handlers, in which every remote publisher is registered with by the node of every handler that
      takes its messages. */
  lemma EveryPairIsRegistered(before: seq<S.Sys>, steps: seq<S.Step>, guarded: bool, run: nat -> S.Sys)
    returns (k: nat)
    requires S.Run(before, steps, guarded) && run(0) == before[|before| - 1]
    requires forall k: nat {:trigger RegistersAt(run, k)} :: S.Quiet(run(k)) || RegistersAt(run, k)
    ensures S.Quiet(run(k)) && run(k).info == run(0).info && run(k).handlers == run(0).handlers
    ensures forall x, id | S.Concerns(run(k), x, id) :: S.Kept(run(k).trace, x, id.nUuid, guarded)
  {
    S.RunKeepsInv(before, steps, guarded, |before| - 1);
    k := SubscribersRest(run, 0, guarded);
    forall x, id | S.Concerns(run(k), x, id) ensures S.Kept(run(k).trace, x, id.nUuid, guarded) {
      assert S.Covered(run(k), x, id, guarded);
    }
  }
}
