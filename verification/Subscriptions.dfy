/** Registration of one process's subscribers with remote publishers, at lock granularity: the connection callback of
    aerozen/node_shared.cpp, the Subscribe calls of aerozen/detail/node.hpp, and Unsubscribe. */
module Subscriptions {
  import opened Publishers
  import opened HandlerStorage
  import T = TopicStorage

  function TypeOf(x: Publisher): string {
    match x.details
    case MsgDetails(_, msgType, _, _) => msgType
    case SrvDetails(_, _, _, _) => ""
  }

  type Handlers = map<Id, string>

  predicate Takes(handlers: Handlers, id: Id, x: Publisher) {
    id in handlers && id.topic == x.topic && TypeMatches(handlers[id], TypeOf(x))
  }

  /** The nodes that the connection callback registers: those with a handler for the topic and type. */
  ghost function NodesFor(handlers: Handlers, x: Publisher): set<string> {
    set id | id in handlers && Takes(handlers, id, x) :: id.nUuid
  }

  /** The reception thread. The callback for a publisher just added runs after the discovery mutex is released. */
  datatype Reception =
    | RxIdle
    | ToRun(x: Publisher)
    | Registering(x: Publisher, todo: set<string>)

  /** The thread inside Subscribe; it holds the NodeShared mutex throughout. */
  datatype Subscriber =
    | NoSub
    | Storing(id: Id)
    | Calling(id: Id, left: set<Publisher>)
    | SubRegistering(id: Id, x: Publisher, todo: set<string>, left: set<Publisher>)

  datatype Place = Place(topic: string, nUuid: string)

  /** Publishers added, and NEW_CONNECTION and END_CONNECTION messages sent. */
  datatype Event = Added(x: Publisher) | New(nUuid: string, x: Publisher) | End(place: Place)

  /** `leaving` are the Unsubscribe calls that have released the mutex and not yet sent all their END_CONNECTIONs.
      `stored` and `trace` are history. */
  datatype Sys = Sys(
    self: string, info: set<Publisher>, handlers: Handlers, rx: Reception, sub: Subscriber,
    leaving: multiset<Place>, stored: Handlers, trace: seq<Event>)

  datatype Step =
    | AddRemote(x: Publisher)
    | AddLocal(x: Publisher)
    | Drop(gone: set<Publisher>)
    | RxRun
    | RxRegister(nUuid: string)
    | RxDone
    | SubStart(id: Id, msgType: string)
    | SubSnapshot
    | SubCall(x: Publisher)
    | SubRegister(nUuid: string)
    | SubCalled
    | SubDone
    | Unsub(place: Place, removed: set<Id>)
    | SendEnd(place: Place)
    | EndDone(place: Place)

  ghost predicate HasPlace(handlers: Handlers, place: Place) {
    AnyOfNode(handlers, place.topic, place.nUuid)
  }

  /** OnNewConnection until it releases the mutex: whom to register. */
  ghost function Callback(s: Sys, x: Publisher): set<string> {
    if AnyOnTopic(s.handlers, x.topic) && x.pUuid != s.self then NodesFor(s.handlers, x) else {}
  }

  /** Handler by handler: a node is registered with a remote publisher exactly when it has a handler on the topic for
      the publisher's type or for the generic one. */
  lemma CallbackMeans(s: Sys, x: Publisher, nUuid: string)
    requires x.Kind() == MsgKind
    ensures nUuid in Callback(s, x) <==>
            x.pUuid != s.self && exists id | id in s.handlers && id.nUuid == nUuid && id.topic == x.topic ::
                                   s.handlers[id] == x.details.msgType || s.handlers[id] == "google.protobuf.Message"
  {
  }

  ghost predicate NextReception(s: Sys, s': Sys, step: Step) {
    match step
    case AddRemote(x) =>
      && s.rx == RxIdle && x.pUuid != s.self && !(exists y :: y in s.info && SameKey(x, y))
      && s' == s.(info := s.info + {x}, rx := ToRun(x), trace := s.trace + [Added(x)])
    case AddLocal(x) =>
      x.pUuid == s.self && s' == s.(info := s.info + {x})
    case Drop(gone) =>
      s' == s.(info := s.info - gone)
    case RxRun =>
      s.rx.ToRun? && s.sub == NoSub && s' == s.(rx := Registering(s.rx.x, Callback(s, s.rx.x)))
    case RxRegister(n) =>
      && s.rx.Registering? && n in s.rx.todo
      && s' == s.(rx := Registering(s.rx.x, s.rx.todo - {n}), trace := s.trace + [New(n, s.rx.x)])
    case RxDone =>
      s.rx.Registering? && s.rx.todo == {} && s' == s.(rx := RxIdle)
    case _ => false
  }

  ghost predicate NextSubscribe(s: Sys, s': Sys, step: Step, guarded: bool) {
    match step
    case SubStart(id, msgType) =>
      && s.sub == NoSub && id !in s.stored
      && (guarded ==> Place(id.topic, id.nUuid) !in s.leaving)
      && s' == s.(handlers := s.handlers[id := msgType], stored := s.stored[id := msgType], sub := Storing(id))
    case SubSnapshot =>
      && s.sub.Storing?
      && s' == s.(sub := Calling(s.sub.id, T.OnTopic(s.info, s.sub.id.topic)))
    case SubCall(x) =>
      && s.sub.Calling? && x in s.sub.left
      && s' == s.(sub := SubRegistering(s.sub.id, x, Callback(s, x), s.sub.left - {x}))
    case SubRegister(n) =>
      && s.sub.SubRegistering? && n in s.sub.todo
      && s' == s.(sub := s.sub.(todo := s.sub.todo - {n}), trace := s.trace + [New(n, s.sub.x)])
    case SubCalled =>
      s.sub.SubRegistering? && s.sub.todo == {} && s' == s.(sub := Calling(s.sub.id, s.sub.left))
    case SubDone =>
      s.sub.Calling? && s.sub.left == {} && s' == s.(sub := NoSub)
    case _ => false
  }

  ghost predicate NextUnsubscribe(s: Sys, s': Sys, step: Step) {
    match step
    case Unsub(place, removed) =>
      && s.sub == NoSub && removed <= s.handlers.Keys
      && (forall id | id in removed :: id.topic == place.topic && id.nUuid == place.nUuid)
      && var left := s.handlers - removed;
         s' == s.(handlers := left,
                  leaving := if HasPlace(left, place) then s.leaving else s.leaving + multiset{place})
    case SendEnd(place) =>
      place in s.leaving && s' == s.(trace := s.trace + [End(place)])
    case EndDone(place) =>
      place in s.leaving && s' == s.(leaving := s.leaving - multiset{place})
    case _ => false
  }

  /** `guarded` runs are those in which no node subscribes again to a topic it is still leaving. */
  ghost predicate Next(s: Sys, s': Sys, step: Step, guarded: bool) {
    || NextReception(s, s', step)
    || NextSubscribe(s, s', step, guarded)
    || NextUnsubscribe(s, s', step)
  }

  predicate Init(s: Sys) {
    s == Sys(s.self, {}, map[], RxIdle, NoSub, multiset{}, map[], [])
  }

  ghost predicate Run(run: seq<Sys>, steps: seq<Step>, guarded: bool) {
    && |run| == |steps| + 1 && Init(run[0])
    && forall k {:trigger steps[k]} | 0 <= k < |steps| :: Next(run[k], run[k + 1], steps[k], guarded)
  }

  /** A registration of the node with the publisher that nothing later has made void: the publisher was not added
      anew and, when `strict`, no END_CONNECTION of the node followed. */
  predicate Kept(trace: seq<Event>, x: Publisher, nUuid: string, strict: bool) {
    trace != [] &&
    var last := trace[|trace| - 1];
    last == New(nUuid, x) ||
    (last != Added(x) && !(strict && last == End(Place(x.topic, nUuid)))
     && Kept(trace[..|trace| - 1], x, nUuid, strict))
  }

  predicate RegisteredAt(trace: seq<Event>, i: nat, x: Publisher, nUuid: string, strict: bool) {
    && i < |trace| && trace[i] == New(nUuid, x)
    && forall j | i < j < |trace| :: trace[j] != Added(x) && !(strict && trace[j] == End(Place(x.topic, nUuid)))
  }

  /** The same, read off the positions of the trace. */
  lemma {:induction false} KeptMeans(trace: seq<Event>, x: Publisher, nUuid: string, strict: bool)
    ensures Kept(trace, x, nUuid, strict) <==> exists i :: RegisteredAt(trace, i, x, nUuid, strict)
  {
    if trace != [] {
      var front := trace[..|trace| - 1];
      KeptMeans(front, x, nUuid, strict);
      if trace[|front|] == New(nUuid, x) {
        assert RegisteredAt(trace, |front|, x, nUuid, strict);
      } else if Kept(trace, x, nUuid, strict) {
        var i :| RegisteredAt(front, i, x, nUuid, strict);
        assert RegisteredAt(trace, i, x, nUuid, strict);
      } else if exists i :: RegisteredAt(trace, i, x, nUuid, strict) {
        var i :| RegisteredAt(trace, i, x, nUuid, strict);
        assert RegisteredAt(front, i, x, nUuid, strict);
      }
    }
  }

  lemma KeptAppend(trace: seq<Event>, e: Event, x: Publisher, nUuid: string, strict: bool)
    ensures Kept(trace + [e], x, nUuid, strict) <==>
            e == New(nUuid, x) ||
            (e != Added(x) && !(strict && e == End(Place(x.topic, nUuid))) && Kept(trace, x, nUuid, strict))
  {
  }

  /** The Subscribe call of this very handler has still to deal with the publisher. */
  predicate InProgress(sub: Subscriber, x: Publisher, id: Id) {
    match sub
    case NoSub => false
    case Storing(own) => own == id
    case Calling(own, left) => own == id && x in left
    case SubRegistering(own, y, todo, left) => own == id && (x in left || (x == y && id.nUuid in todo))
  }

  predicate CallbackToCome(rx: Reception, x: Publisher, nUuid: string) {
    rx == ToRun(x) || (rx.Registering? && rx.x == x && nUuid in rx.todo)
  }

  predicate Covered(s: Sys, x: Publisher, id: Id, strict: bool) {
    || Kept(s.trace, x, id.nUuid, strict)
    || CallbackToCome(s.rx, x, id.nUuid)
    || InProgress(s.sub, x, id)
  }

  predicate Concerns(s: Sys, x: Publisher, id: Id) {
    x in s.info && x.pUuid != s.self && Takes(s.handlers, id, x)
  }

  ghost predicate AllCovered(s: Sys, strict: bool) {
    forall x, id | Concerns(s, x, id) :: Covered(s, x, id, strict)
  }

  ghost predicate NoneLeavingStays(s: Sys) {
    forall place | place in s.leaving :: !HasPlace(s.handlers, place)
  }

  ghost predicate Inv(s: Sys, strict: bool) {
    && AllCovered(s, strict)
    && (strict ==> NoneLeavingStays(s))
    && (s.rx.ToRun? ==> s.rx.x.pUuid != s.self)
    && s.handlers.Keys <= s.stored.Keys
  }

  lemma ReceptionKeepsCovered(s: Sys, s': Sys, step: Step, strict: bool, x: Publisher, id: Id)
    requires Inv(s, strict) && NextReception(s, s', step) && Concerns(s', x, id)
    ensures Covered(s', x, id, strict)
  {
    if step.AddRemote? {
      KeptAppend(s.trace, Added(step.x), x, id.nUuid, strict);
      assert x != step.x ==> Concerns(s, x, id);
    } else {
      assert Concerns(s, x, id);
      if step.RxRegister? { KeptAppend(s.trace, New(step.nUuid, s.rx.x), x, id.nUuid, strict); }
      if step.RxRun? && s.rx.x == x { assert id.nUuid in NodesFor(s.handlers, x); }
    }
  }

  lemma SubscribeKeepsCovered(s: Sys, s': Sys, step: Step, strict: bool, x: Publisher, id: Id)
    requires Inv(s, strict) && NextSubscribe(s, s', step, strict) && Concerns(s', x, id)
    ensures Covered(s', x, id, strict)
  {
    if !(step.SubStart? && step.id == id) {
      assert Concerns(s, x, id);
      if step.SubRegister? { KeptAppend(s.trace, New(step.nUuid, s.sub.x), x, id.nUuid, strict); }
      if step.SubCall? && step.x == x { assert id.nUuid in NodesFor(s.handlers, x); }
    }
  }

  lemma UnsubscribeKeepsCovered(s: Sys, s': Sys, step: Step, strict: bool, x: Publisher, id: Id)
    requires Inv(s, strict) && NextUnsubscribe(s, s', step) && Concerns(s', x, id)
    ensures Covered(s', x, id, strict)
  {
    assert Concerns(s, x, id);
    if step.SendEnd? {
      KeptAppend(s.trace, End(step.place), x, id.nUuid, strict);
    }
  }

  lemma NextKeepsLeaving(s: Sys, s': Sys, step: Step)
    requires NoneLeavingStays(s) && Next(s, s', step, true)
    ensures NoneLeavingStays(s')
  {
  }

  lemma NextKeepsInv(s: Sys, s': Sys, step: Step, strict: bool)
    requires Inv(s, strict) && Next(s, s', step, strict)
    ensures Inv(s', strict)
  {
    forall x, id | Concerns(s', x, id) ensures Covered(s', x, id, strict) {
      if NextReception(s, s', step) {
        ReceptionKeepsCovered(s, s', step, strict, x, id);
      } else if NextSubscribe(s, s', step, strict) {
        SubscribeKeepsCovered(s, s', step, strict, x, id);
      } else {
        UnsubscribeKeepsCovered(s, s', step, strict, x, id);
      }
    }
    if strict { NextKeepsLeaving(s, s', step); }
  }

  lemma {:induction false} RunKeepsInv(run: seq<Sys>, steps: seq<Step>, strict: bool, k: nat)
    requires Run(run, steps, strict) && k < |run|
    ensures Inv(run[k], strict)
  {
    if k > 0 {
      RunKeepsInv(run, steps, strict, k - 1);
      NextKeepsInv(run[k - 1], run[k], steps[k - 1], strict);
    }
  }

  /** In every run, each remote publisher in the message info and each local handler on its topic that takes its type:
      a NEW_CONNECTION naming the handler's node and the publisher has been sent since the publisher was added, or the
      publisher's callback is still to come for that node, or the handler's own Subscribe call is still to get to it. */
  lemma NoLostSubscription(run: seq<Sys>, steps: seq<Step>, k: nat, x: Publisher, id: Id)
    requires Run(run, steps, false) && k < |run| && Concerns(run[k], x, id)
    ensures Covered(run[k], x, id, false)
  {
    RunKeepsInv(run, steps, false, k);
  }

  /** When no node subscribes again while it is still leaving, the registration has not been taken back either. */
  lemma NoRegistrationTakenBack(run: seq<Sys>, steps: seq<Step>, k: nat, x: Publisher, id: Id)
    requires Run(run, steps, true) && k < |run| && Concerns(run[k], x, id)
    ensures Covered(run[k], x, id, true)
  {
    RunKeepsInv(run, steps, true, k);
  }

  predicate Quiet(s: Sys) {
    s.rx == RxIdle && s.sub == NoSub
  }

  /** With both threads at rest, every such pair is registered. */
  lemma QuietMeansRegistered(run: seq<Sys>, steps: seq<Step>, guarded: bool, k: nat, x: Publisher, id: Id)
    requires Run(run, steps, guarded) && k < |run| && Concerns(run[k], x, id)
    requires Quiet(run[k])
    ensures Kept(run[k].trace, x, id.nUuid, guarded)
  {
    RunKeepsInv(run, steps, guarded, k);
  }

  /** Everything a thread is about to register was added, and is wanted by a handler that was stored. */
  predicate Earned(s: Sys, x: Publisher) {
    x.pUuid == s.self || Added(x) in s.trace
  }

  ghost predicate Wanted(s: Sys, x: Publisher, nUuid: string) {
    exists id :: Takes(s.stored, id, x) && id.nUuid == nUuid
  }

  ghost predicate SoundInv(s: Sys) {
    && (forall id | id in s.handlers :: id in s.stored && s.stored[id] == s.handlers[id])
    && (forall x | x in s.info :: Earned(s, x))
    && (s.rx != RxIdle ==> Earned(s, s.rx.x))
    && (s.rx.Registering? ==> forall n | n in s.rx.todo :: s.rx.x.pUuid != s.self && Wanted(s, s.rx.x, n))
    && (s.sub.Calling? || s.sub.SubRegistering? ==> forall x | x in s.sub.left :: Earned(s, x))
    && (s.sub.SubRegistering? ==>
          Earned(s, s.sub.x) && forall n | n in s.sub.todo :: s.sub.x.pUuid != s.self && Wanted(s, s.sub.x, n))
    && (forall e | e in s.trace && e.New? :: e.x.pUuid != s.self && Added(e.x) in s.trace && Wanted(s, e.x, e.nUuid))
  }

  lemma HistoryGrows(s: Sys, s': Sys, step: Step)
    requires Next(s, s', step, false) && SoundInv(s)
    ensures s'.self == s.self && forall e | e in s.trace :: e in s'.trace
    ensures forall x, n | Wanted(s, x, n) :: Wanted(s', x, n)
    ensures forall x, n | n in Callback(s, x) :: x.pUuid != s.self && Wanted(s', x, n)
  {
  }

  lemma ReceptionKeepsSound(s: Sys, s': Sys, step: Step)
    requires SoundInv(s) && NextReception(s, s', step)
    ensures SoundInv(s')
  {
    HistoryGrows(s, s', step);
    forall x | Earned(s, x) ensures Earned(s', x) {}
    if step.AddRemote? { assert Added(step.x) in s'.trace; }
  }

  lemma SubscribeKeepsSound(s: Sys, s': Sys, step: Step)
    requires SoundInv(s) && NextSubscribe(s, s', step, false)
    ensures SoundInv(s')
  {
    HistoryGrows(s, s', step);
    forall x | Earned(s, x) ensures Earned(s', x) {}
    if step.SubRegister? { assert s.sub.x.pUuid != s.self; }
  }

  lemma UnsubscribeKeepsSound(s: Sys, s': Sys, step: Step)
    requires SoundInv(s) && NextUnsubscribe(s, s', step)
    ensures SoundInv(s')
  {
    HistoryGrows(s, s', step);
    forall x | Earned(s, x) ensures Earned(s', x) {}
  }

  lemma NextKeepsSound(s: Sys, s': Sys, step: Step)
    requires SoundInv(s) && Next(s, s', step, false)
    ensures SoundInv(s')
  {
    if NextReception(s, s', step) {
      ReceptionKeepsSound(s, s', step);
    } else if NextSubscribe(s, s', step, false) {
      SubscribeKeepsSound(s, s', step);
    } else {
      UnsubscribeKeepsSound(s, s', step);
    }
  }

  lemma {:induction false} RunKeepsSound(run: seq<Sys>, steps: seq<Step>, k: nat)
    requires Run(run, steps, false) && k < |run|
    ensures SoundInv(run[k])
  {
    if k > 0 {
      RunKeepsSound(run, steps, k - 1);
      NextKeepsSound(run[k - 1], run[k], steps[k - 1]);
    }
  }

  /** Every registration sent names a remote publisher that was added, and a node that stored a handler for its
      topic and type. */
  lemma RegistrationsAreEarned(run: seq<Sys>, steps: seq<Step>, k: nat, x: Publisher, n: string)
    requires Run(run, steps, false) && k < |run| && New(n, x) in run[k].trace
    ensures x.pUuid != run[k].self && Added(x) in run[k].trace && Wanted(run[k], x, n)
  {
    RunKeepsSound(run, steps, k);
    assert New(n, x).New?;
  }

  function Now(run: seq<Sys>): Sys
    requires run != []
  {
    run[|run| - 1]
  }

  lemma Extend(run: seq<Sys>, steps: seq<Step>, s': Sys, step: Step)
    requires Run(run, steps, false) && Next(Now(run), s', step, false)
    ensures Run(run + [s'], steps + [step], false)
  {
  }
}
