/** When END_CONNECTION can overtake the registration of a node that subscribes again: exactly while the node has not
    yet sent the last one for its place. */
module Resubscription {
  import opened Publishers
  import opened HandlerStorage
  import opened Subscriptions
  import T = TopicStorage

  /** The run goes on from run0 by guarded steps only. */
  ghost predicate After(run0: seq<Sys>, steps0: seq<Step>, run: seq<Sys>, steps: seq<Step>) {
    && Run(run, steps, false) && run0 <= run && steps0 <= steps
    && forall k {:trigger steps[k]} | |steps0| <= k < |steps| :: Next(run[k], run[k + 1], steps[k], true)
  }

  lemma Go(run0: seq<Sys>, steps0: seq<Step>, run: seq<Sys>, steps: seq<Step>, s': Sys, step: Step)
    requires After(run0, steps0, run, steps) && Next(Now(run), s', step, true)
    ensures After(run0, steps0, run + [s'], steps + [step])
  {
    Extend(run, steps, s', step);
    var all, done := run + [s'], steps + [step];
    forall k {:trigger done[k]} | |steps0| <= k < |done| ensures Next(all[k], all[k + 1], done[k], true) {
      assert k < |steps| ==> done[k] == steps[k] && all[k] == run[k] && all[k + 1] == run[k + 1];
    }
  }

  /** A Subscribe call finds no publisher, all being dropped meanwhile. */
  lemma SubscribeAlone(run0: seq<Sys>, steps0: seq<Step>, run1: seq<Sys>, steps1: seq<Step>)
    returns (run: seq<Sys>, steps: seq<Step>)
    requires After(run0, steps0, run1, steps1) && Now(run1).sub.Storing?
    ensures After(run0, steps0, run, steps) && Now(run) == Now(run1).(info := {}, sub := NoSub)
  {
    var id := Now(run1).sub.id;
    var s := Now(run1).(info := {});
    Go(run0, steps0, run1, steps1, s, Drop(Now(run1).info));
    run, steps := run1 + [s], steps1 + [Drop(Now(run1).info)];
    assert T.OnTopic({}, id.topic) == {};
    Go(run0, steps0, run, steps, s.(sub := Calling(id, {})), SubSnapshot);
    run, steps := run + [s.(sub := Calling(id, {}))], steps + [SubSnapshot];
    Go(run0, steps0, run, steps, s.(sub := NoSub), SubDone);
    run, steps := run + [s.(sub := NoSub)], steps + [SubDone];
  }

  /** The reception thread sends the registrations it has decided on, in some order. */
  lemma Register(run0: seq<Sys>, steps0: seq<Step>, run1: seq<Sys>, steps1: seq<Step>)
    returns (run: seq<Sys>, steps: seq<Step>)
    requires After(run0, steps0, run1, steps1) && Now(run1).rx.Registering?
    ensures After(run0, steps0, run, steps)
    ensures Now(run) == Now(run1).(rx := RxIdle, trace := Now(run).trace)
    decreases Now(run1).rx.todo
  {
    var s := Now(run1);
    if s.rx.todo == {} {
      Go(run0, steps0, run1, steps1, s.(rx := RxIdle), RxDone);
      run, steps := run1 + [s.(rx := RxIdle)], steps1 + [RxDone];
    } else {
      var n :| n in s.rx.todo;
      var s' := s.(rx := Registering(s.rx.x, s.rx.todo - {n}), trace := s.trace + [New(n, s.rx.x)]);
      Go(run0, steps0, run1, steps1, s', RxRegister(n));
      run, steps := Register(run0, steps0, run1 + [s'], steps1 + [RxRegister(n)]);
    }
  }

  /** It comes to rest wherever it is, once the mutex is free. */
  lemma Settle(run0: seq<Sys>, steps0: seq<Step>, run1: seq<Sys>, steps1: seq<Step>)
    returns (run: seq<Sys>, steps: seq<Step>)
    requires After(run0, steps0, run1, steps1) && Now(run1).sub == NoSub
    ensures After(run0, steps0, run, steps)
    ensures Now(run) == Now(run1).(rx := RxIdle, trace := Now(run).trace)
  {
    run, steps := run1, steps1;
    var s := Now(run1);
    if s.rx.ToRun? {
      var s' := s.(rx := Registering(s.rx.x, Callback(s, s.rx.x)));
      Go(run0, steps0, run, steps, s', RxRun);
      run, steps := run + [s'], steps + [RxRun];
    }
    if Now(run).rx.Registering? {
      run, steps := Register(run0, steps0, run, steps);
    }
  }

  /** A publisher is added, its callback runs, and the nodes are registered. */
  lemma Announce(run0: seq<Sys>, steps0: seq<Step>, run1: seq<Sys>, steps1: seq<Step>, x: Publisher)
    returns (run: seq<Sys>, steps: seq<Step>)
    requires After(run0, steps0, run1, steps1) && Now(run1).sub == NoSub && Now(run1).rx == RxIdle
    requires Now(run1).info == {} && x.pUuid != Now(run1).self
    ensures After(run0, steps0, run, steps)
    ensures Now(run) == Now(run1).(info := {x}, trace := Now(run).trace)
  {
    var s := Now(run1);
    var s' := s.(info := {x}, rx := ToRun(x), trace := s.trace + [Added(x)]);
    Go(run0, steps0, run1, steps1, s', AddRemote(x));
    run, steps := Settle(run0, steps0, run1 + [s'], steps1 + [AddRemote(x)]);
  }

  /** All that leave are done, without a further message. */
  lemma AllLeft(run0: seq<Sys>, steps0: seq<Step>, run1: seq<Sys>, steps1: seq<Step>)
    returns (run: seq<Sys>, steps: seq<Step>)
    requires After(run0, steps0, run1, steps1)
    ensures After(run0, steps0, run, steps) && Now(run) == Now(run1).(leaving := multiset{})
    decreases |Now(run1).leaving|
  {
    run, steps := run1, steps1;
    var s := Now(run1);
    if s.leaving != multiset{} {
      var place :| place in s.leaving;
      var s' := s.(leaving := s.leaving - multiset{place});
      Go(run0, steps0, run1, steps1, s', EndDone(place));
      run, steps := AllLeft(run0, steps0, run1 + [s'], steps1 + [EndDone(place)]);
    }
  }

  /** The last END_CONNECTION of a place is sent, and every Unsubscribe call returns. */
  lemma SayEnd(run0: seq<Sys>, steps0: seq<Step>, run1: seq<Sys>, steps1: seq<Step>, place: Place)
    returns (run: seq<Sys>, steps: seq<Step>)
    requires After(run0, steps0, run1, steps1) && place in Now(run1).leaving
    ensures After(run0, steps0, run, steps)
    ensures Now(run) == Now(run1).(leaving := multiset{}, trace := Now(run1).trace + [End(place)])
  {
    var s' := Now(run1).(trace := Now(run1).trace + [End(place)]);
    Go(run0, steps0, run1, steps1, s', SendEnd(place));
    run, steps := AllLeft(run0, steps0, run1 + [s'], steps1 + [SendEnd(place)]);
  }

  predicate AtRest(s: Sys) {
    s.rx == RxIdle && s.sub == NoSub && s.leaving == multiset{}
  }

  function Subscribed(s: Sys, id: Id, msgType: string): Sys {
    s.(handlers := s.handlers[id := msgType], stored := s.stored[id := msgType], sub := Storing(id))
  }

  /** The handler is subscribed at the end of `run`; by guarded steps only the longer run comes to rest with the
      handler and the publisher known, yet the last word about the node is END_CONNECTION. */
  ghost predicate Overtakes(run: seq<Sys>, steps: seq<Step>, id: Id, msgType: string, x: Publisher,
                            run': seq<Sys>, steps': seq<Step>)
    requires run != []
  {
    && After(run + [Subscribed(Now(run), id, msgType)], steps + [SubStart(id, msgType)], run', steps')
    && AtRest(Now(run')) && Concerns(Now(run'), x, id) && !Kept(Now(run').trace, x, id.nUuid, true)
  }

  /** Every subscription to a place that is still being left can be overtaken, for every publisher it takes. */
  lemma EndOvertakesNew(run: seq<Sys>, steps: seq<Step>, id: Id, msgType: string, x: Publisher)
    returns (run': seq<Sys>, steps': seq<Step>)
    requires Run(run, steps, false) && Now(run).sub == NoSub && id !in Now(run).stored
    requires Place(id.topic, id.nUuid) in Now(run).leaving
    requires x.pUuid != Now(run).self && x.topic == id.topic && TypeMatches(msgType, TypeOf(x))
    ensures Overtakes(run, steps, id, msgType, x, run', steps')
  {
    var place, s1, step := Place(id.topic, id.nUuid), Subscribed(Now(run), id, msgType), SubStart(id, msgType);
    Extend(run, steps, s1, step);
    var run0, steps0 := run + [s1], steps + [step];
    run', steps' := SubscribeAlone(run0, steps0, run0, steps0);
    run', steps' := Settle(run0, steps0, run', steps');
    run', steps' := Announce(run0, steps0, run', steps', x);
    KeptAppend(Now(run').trace, End(place), x, id.nUuid, true);
    run', steps' := SayEnd(run0, steps0, run', steps', place);
  }

  lemma GuardedThroughout(run: seq<Sys>, steps: seq<Step>, id: Id, msgType: string, run': seq<Sys>, steps': seq<Step>)
    requires Run(run, steps, true) && Now(run).sub == NoSub && id !in Now(run).stored
    requires Place(id.topic, id.nUuid) !in Now(run).leaving
    requires After(run + [Subscribed(Now(run), id, msgType)], steps + [SubStart(id, msgType)], run', steps')
    ensures Run(run', steps', true)
  {
    var run0, steps0 := run + [Subscribed(Now(run), id, msgType)], steps + [SubStart(id, msgType)];
    forall k {:trigger steps'[k]} | 0 <= k < |steps'| ensures Next(run'[k], run'[k + 1], steps'[k], true) {
      if k < |steps0| {
        assert steps'[k] == steps0[k] && run'[k] == run0[k] && run'[k + 1] == run0[k + 1];
        if k < |steps| {
          assert steps0[k] == steps[k] && run0[k] == run[k] && run0[k + 1] == run[k + 1];
        }
      }
    }
  }

  /** The guard is exact. After any guarded run, subscribing a new handler can end with END_CONNECTION as the last word,
      for a publisher it takes, if and only if its node is still leaving the topic. */
  lemma GuardIsExact(run: seq<Sys>, steps: seq<Step>, id: Id, msgType: string, x: Publisher)
    requires Run(run, steps, true) && Now(run).sub == NoSub && id !in Now(run).stored
    requires x.pUuid != Now(run).self && x.topic == id.topic && TypeMatches(msgType, TypeOf(x))
    ensures (exists run', steps' :: Overtakes(run, steps, id, msgType, x, run', steps'))
       <==> Place(id.topic, id.nUuid) in Now(run).leaving
  {
    if Place(id.topic, id.nUuid) in Now(run).leaving {
      GuardedIsRun(run, steps);
      var run', steps' := EndOvertakesNew(run, steps, id, msgType, x);
    } else if exists run', steps' :: Overtakes(run, steps, id, msgType, x, run', steps') {
      var run', steps' :| Overtakes(run, steps, id, msgType, x, run', steps');
      GuardedThroughout(run, steps, id, msgType, run', steps');
      NoRegistrationTakenBack(run', steps', |run'| - 1, x, id);
    }
  }

  lemma GuardedIsRun(run: seq<Sys>, steps: seq<Step>)
    requires Run(run, steps, true)
    ensures Run(run, steps, false)
  {
    forall k {:trigger steps[k]} | 0 <= k < |steps| ensures Next(run[k], run[k + 1], steps[k], false) {
      assert Next(run[k], run[k + 1], steps[k], true);
    }
  }

  /** Such a place is reached by unsubscribing, before the message leaves. */
  lemma LeavingIsReached(self: string, place: Place) returns (run: seq<Sys>, steps: seq<Step>)
    ensures Run(run, steps, true) && Now(run).sub == NoSub && place in Now(run).leaving
  {
    var s := Sys(self, {}, map[], RxIdle, NoSub, multiset{}, map[], []);
    assert s.handlers - {} == map[] && !HasPlace(map[], place);
    run, steps := [s, s.(leaving := multiset{place})], [Unsub(place, {})];
    assert NextUnsubscribe(run[0], run[1], steps[0]);
  }
}
