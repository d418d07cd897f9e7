/** HOST scope is judged by the address of the last hop: where that leaks, and where it cannot. */
module HostScope {
  import opened Publishers
  import opened Sequences
  import opened Protocol
  import opened Network

  /** Written by p itself: plain to the group, with the RELAY flag to the relays. */
  predicate Own(p: string, o: Out) {
    o.msg.process == p && (o.Unicast? <==> o.msg.relay)
  }

  /** A message passed on: from a relay to the group, from the group to the relays. */
  predicate Forwards(m: Message, o: Out) {
    o.msg.process == m.process && if m.relay then o.Multicast? && !o.msg.relay else o.Unicast? && o.msg.relay
  }

  ghost predicate AllOwn(p: string, outs: seq<Out>) {
    forall o | o in outs :: Own(p, o)
  }

  /** The process that sends in a step. */
  ghost function Sender(n: Net, step: Step): Option<string> {
    match step
    case Deliver(i, _, _, _, _) => if i < |n.flying| then Some(n.flying[i].dst) else None
    case AdvertiseStep(p, _, _) => Some(p)
    case UnadvertiseStep(p, _, _, _, _) => Some(p)
    case DiscoverStep(p, _, _, _) => Some(p)
    case TopicListStep(p, _) => Some(p)
    case TellStep(p, _, _, _) => Some(p)
    case HeartbeatStep(p, _, _, _, _) => Some(p)
    case LeaveStep(p, _) => Some(p)
    case _ => None
  }

  /** What a process sends in a step that delivers nothing to it. */
  ghost function OwnSends(s: State, step: Step): seq<Out> {
    match step
    case AdvertiseStep(_, pub, _) => Advertise(s, pub).outs
    case UnadvertiseStep(_, topic, nUuid, first, _) => Unadvertise(s, topic, nUuid, first).outs
    case DiscoverStep(_, topic, known, _) => Discover(s, topic, known).outs
    case TopicListStep(_, _) => TopicListRequest(s).outs
    case TellStep(_, what, about, _) => Send(s, what, about)
    case HeartbeatStep(_, now, later, own, _) => Heartbeat(s, now, later, own).outs
    case LeaveStep(_, _) => Send(s, BYE, Anonymous(s))
    case _ => []
  }

  lemma SendsAreOwn(s: State, kind: MsgType, pubs: seq<Publisher>)
    ensures AllOwn(s.self, SendEach(s, kind, pubs))
  {
  }

  lemma OwnSendsAreOwn(s: State, step: Step)
    ensures AllOwn(s.self, OwnSends(s, step))
  {
    if step.HeartbeatStep? { SendsAreOwn(s, ADVERTISE, step.own); }
  }

  /** Everything a delivery sets off is the receiver's own or the message passed on. */
  lemma ReactionsAreOwnOrForwarded(s: State, from: string, m: Message, now: int, answers: seq<Publisher>,
                                   triggered: seq<Out>, o: Out)
    requires forall t | t in triggered :: Triggers(s, Dispatch(s, from, m, now, answers).calls, t)
    requires o in Dispatch(s, from, m, now, answers).outs + triggered
    ensures Own(s.self, o) || Forwards(m, o)
  {
    if o in triggered {
      assert Triggers(s, Dispatch(s, from, m, now, answers).calls, o);
    } else {
      SendsAreOwn(s.(activity := s.activity[m.process := now]), ADVERTISE, answers);
    }
  }

  /** Where a datagram in flight after a step comes from. */
  ghost predicate Sent(top: Topology, n: Net, step: Step, o: Out, pkt: Packet) {
    && Sender(n, step).Some? && Sender(n, step).value in n.procs
    && Carries(top, n.procs[Sender(n, step).value], o, pkt)
    && (Own(Sender(n, step).value, o) || (step.Deliver? && step.i < |n.flying| && Forwards(n.flying[step.i].msg, o)))
  }

  lemma DeliverSends(top: Topology, n: Net, n': Net, step: Step, pkt: Packet)
    requires Inv(top.kind, n) && step.Deliver? && Next(top, n, n', step) && pkt in n'.flying && pkt !in n.flying
    ensures exists o :: Sent(top, n, step, o, pkt)
  {
    var s, m := n.procs[n.flying[step.i].dst], n.flying[step.i].msg;
    assert ProcOk(top.kind, n, n.flying[step.i].dst, s) && pkt in step.copies;
    var e := Dispatch(s, n.flying[step.i].from, m, step.now, step.answers);
    var o :| o in e.outs + step.triggered && Carries(top, s, o, pkt);
    ReactionsAreOwnOrForwarded(s, n.flying[step.i].from, m, step.now, step.answers, step.triggered, o);
    assert Sent(top, n, step, o, pkt);
  }

  lemma OthersSend(top: Topology, n: Net, n': Net, step: Step, pkt: Packet)
    requires Inv(top.kind, n) && !step.Deliver? && Next(top, n, n', step) && pkt in n'.flying && pkt !in n.flying
    ensures exists o :: Sent(top, n, step, o, pkt)
  {
    var p := Sender(n, step).value;
    var s := n.procs[p];
    assert ProcOk(top.kind, n, p, s);
    var o :| o in OwnSends(s, step) && Carries(top, s, o, pkt);
    OwnSendsAreOwn(s, step);
    assert Sent(top, n, step, o, pkt);
  }

  /** A process learns of another's publisher only from an ADVERTISE of the owner that passes the scope check. */
  ghost predicate Learned(n: Net, step: Step, p: string, x: Publisher) {
    && step.Deliver? && step.i < |n.flying| && n.flying[step.i].dst == p && p in n.procs
    && !n.flying[step.i].msg.relay && n.flying[step.i].msg.process == x.pUuid
    && Admits(n.procs[p], n.flying[step.i].from, x)
  }

  lemma HandleLearns(kind: Kind, log: map<string, seq<Api>>, s: State, from: string, m: Message,
                     answers: seq<Publisher>, x: Publisher)
    requires HonestMessage(kind, log, m) && s.kind == kind && x in Handle(s, from, m, answers).next.info
    ensures x in s.info || (m.process == x.pUuid && Admits(s, from, x))
  {
    if m.kind == ADVERTISE {
      var y :| Ever(log, y) && y.pUuid == m.process && y.Kind() == kind && Consistent(y) && m.pub == FillDiscovery(y);
      WireRoundTrip(y);
    }
  }

  /** What a step may do to a process: its own host's addresses never change, a relay is learned from two kinds of
      step only, and another's publisher as said above. */
  ghost predicate Moves(n: Net, step: Step, p: string, s': State) {
    if p !in n.procs then s'.info == {} && s'.relays == []
    else
      && s'.interfaces == n.procs[p].interfaces
      && (s'.relays == n.procs[p].relays || step.AddRelayStep?
          || (step.Deliver? && step.i < |n.flying| && n.flying[step.i].msg.relay))
      && forall x | x in s'.info && x.pUuid != p :: x in n.procs[p].info || Learned(n, step, p, x)
  }

  lemma DeliverLearns(top: Topology, n: Net, n': Net, step: Step, x: Publisher)
    requires Inv(top.kind, n) && step.Deliver? && Next(top, n, n', step)
    requires x in n'.procs[n.flying[step.i].dst].info && x.pUuid != n.flying[step.i].dst
    ensures x in n.procs[n.flying[step.i].dst].info || Learned(n, step, n.flying[step.i].dst, x)
  {
    var pkt := n.flying[step.i];
    var s := n.procs[pkt.dst];
    assert ProcOk(top.kind, n, pkt.dst, s) && HonestMessage(top.kind, n.log, pkt.msg);
    if Processes(s, pkt.msg) {
      var heard := s.(activity := s.activity[pkt.msg.process := step.now]);
      HandleLearns(top.kind, n.log, heard, pkt.from, pkt.msg, step.answers, x);
    }
  }

  lemma DeliverMoves(top: Topology, n: Net, n': Net, step: Step, p: string)
    requires Inv(top.kind, n) && step.Deliver? && Next(top, n, n', step) && p in n'.procs
    ensures Moves(n, step, p, n'.procs[p])
  {
    if n.flying[step.i].dst == p {
      forall x | x in n'.procs[p].info && x.pUuid != p ensures x in n.procs[p].info || Learned(n, step, p, x) {
        DeliverLearns(top, n, n', step, x);
      }
    }
  }

  lemma EntriesMove(top: Topology, n: Net, n': Net, step: Step, p: string)
    requires Inv(top.kind, n) && Next(top, n, n', step) && p in n'.procs
             && (step.AdvertiseStep? || step.UnadvertiseStep?)
    ensures Moves(n, step, p, n'.procs[p])
  {
  }

  lemma AskingMoves(top: Topology, n: Net, n': Net, step: Step, p: string)
    requires Inv(top.kind, n) && Next(top, n, n', step) && p in n'.procs
    requires step.DiscoverStep? || step.TopicListStep? || step.AddRelayStep?
    ensures Moves(n, step, p, n'.procs[p])
  {
  }

  lemma OthersMove(top: Topology, n: Net, n': Net, step: Step, p: string)
    requires Inv(top.kind, n) && Next(top, n, n', step) && p in n'.procs && !step.Deliver?
    requires !step.AdvertiseStep? && !step.UnadvertiseStep?
    requires !step.DiscoverStep? && !step.TopicListStep? && !step.AddRelayStep?
    ensures Moves(n, step, p, n'.procs[p])
  {
    if step.JoinStep? { assert p in n.procs ==> ProcOk(top.kind, n, p, n.procs[p]); }
  }

  lemma NextMoves(top: Topology, n: Net, n': Net, step: Step, p: string)
    requires Inv(top.kind, n) && Next(top, n, n', step) && p in n'.procs
    ensures Moves(n, step, p, n'.procs[p])
  {
    if step.Deliver? {
      DeliverMoves(top, n, n', step, p);
    } else if step.AdvertiseStep? || step.UnadvertiseStep? {
      EntriesMove(top, n, n', step, p);
    } else if step.DiscoverStep? || step.TopicListStep? || step.AddRelayStep? {
      AskingMoves(top, n, n', step, p);
    } else {
      OthersMove(top, n, n', step, p);
    }
  }

  lemma NextSends(top: Topology, n: Net, n': Net, step: Step, pkt: Packet) returns (o: Out)
    requires Inv(top.kind, n) && Next(top, n, n', step) && pkt in n'.flying && pkt !in n.flying
    ensures Sent(top, n, step, o, pkt)
  {
    if step.Deliver? { DeliverSends(top, n, n', step, pkt); } else { OthersSend(top, n, n', step, pkt); }
    o :| Sent(top, n, step, o, pkt);
  }

  /** Every datagram comes straight from the process that wrote it. */
  ghost predicate Direct(top: Topology, pkt: Packet) {
    !pkt.msg.relay && pkt.msg.process in top.hosts && pkt.from == top.hosts[pkt.msg.process]
  }

  /** No relay known, and HOST-scoped entries only from an address this process counts as its own host. */
  ghost predicate HostLocal(top: Topology, s: State) {
    && s.relays == []
    && forall x | x in s.info && x.pUuid != s.self && x.Scope() == HOST ::
         x.pUuid in top.hosts && Local(s.interfaces, top.hosts[x.pUuid])
  }

  ghost predicate Unrelayed(top: Topology, n: Net) {
    && (forall p | p in n.procs :: HostLocal(top, n.procs[p]))
    && forall pkt | pkt in n.flying :: Direct(top, pkt)
  }

  lemma MovesKeepLocal(top: Topology, n: Net, step: Step, p: string, s': State)
    requires Unrelayed(top, n) && Moves(n, step, p, s') && !step.AddRelayStep? && s'.self == p
    requires p in n.procs ==> n.procs[p].self == p
    requires step.Deliver? ==> step.i < |n.flying|
    ensures HostLocal(top, s')
  {
    assert step.Deliver? ==> Direct(top, n.flying[step.i]);
    assert p in n.procs ==> HostLocal(top, n.procs[p]);
  }

  lemma NextKeepsUnrelayed(top: Topology, n: Net, n': Net, step: Step)
    requires Inv(top.kind, n) && Inv(top.kind, n') && Unrelayed(top, n) && Next(top, n, n', step)
    requires !step.AddRelayStep?
    ensures Unrelayed(top, n')
  {
    forall p | p in n'.procs ensures HostLocal(top, n'.procs[p]) {
      NextMoves(top, n, n', step, p);
      assert ProcOk(top.kind, n', p, n'.procs[p]) && (p in n.procs ==> ProcOk(top.kind, n, p, n.procs[p]));
      MovesKeepLocal(top, n, step, p, n'.procs[p]);
    }
    forall pkt | pkt in n'.flying ensures Direct(top, pkt) {
      if pkt !in n.flying {
        var o := NextSends(top, n, n', step, pkt);
        var p := Sender(n, step).value;
        assert ProcOk(top.kind, n, p, n.procs[p]) && HostLocal(top, n.procs[p]);
        assert step.Deliver? ==> Direct(top, n.flying[step.i]);
      }
    }
  }

  lemma {:induction false} RunKeepsUnrelayed(top: Topology, run: seq<Net>, steps: seq<Step>, k: nat)
    requires Run(top, run, steps) && k < |run|
    requires forall i | 0 <= i < k :: !steps[i].AddRelayStep?
    ensures Unrelayed(top, run[k])
  {
    if k > 0 {
      RunKeepsUnrelayed(top, run, steps, k - 1);
      RunKeepsInv(top, run, steps, k - 1);
      RunKeepsInv(top, run, steps, k);
      NextKeepsUnrelayed(top, run[k - 1], run[k], steps[k - 1]);
    }
  }

  /** A run holding, at process p, a HOST-scoped publisher of another process `owner` whose address is not local. */
  ghost predicate Leaked(top: Topology, n: Net, p: string, interfaces: set<string>, owner: string, x: Publisher) {
    && p in n.procs && n.procs[p].interfaces == interfaces && x in n.procs[p].info
    && x.pUuid == owner != p && x.Scope() == HOST
    && (owner in top.hosts ==> !Local(interfaces, top.hosts[owner]))
  }

  /** As long as nobody has been given a relay address, no HOST-scoped publisher leaks, on any topology. */
  lemma HostScopeWithoutRelays(top: Topology, run: seq<Net>, steps: seq<Step>, k: nat, p: string,
                               interfaces: set<string>, owner: string, x: Publisher)
    requires Run(top, run, steps) && k < |run|
    requires forall i | 0 <= i < k :: !steps[i].AddRelayStep?
    ensures !Leaked(top, run[k], p, interfaces, owner, x)
  {
    RunKeepsUnrelayed(top, run, steps, k);
    RunKeepsInv(top, run, steps, k);
    if p in run[k].procs {
      assert HostLocal(top, run[k].procs[p]) && ProcOk(top.kind, run[k], p, run[k].procs[p]);
    }
  }

  /** Some host whose address p takes for its own multicasts into p's group. */
  predicate HasLocalHop(top: Topology, p: string, interfaces: set<string>) {
    exists r | r in top.hosts :: (r, p) in top.lan && Local(interfaces, top.hosts[r])
  }

  /** The last hop of a datagram that is to be processed is a host of the receiver's group; the first is a host too. */
  ghost predicate Traced(top: Topology, pkt: Packet) {
    && pkt.msg.process in top.hosts
    && (!pkt.msg.relay ==> exists r | r in top.hosts :: (r, pkt.dst) in top.lan && top.hosts[r] == pkt.from)
  }

  ghost predicate Hopped(top: Topology, p: string, s: State) {
    forall x | x in s.info && x.pUuid != p && x.Scope() == HOST ::
      x.pUuid in top.hosts && HasLocalHop(top, p, s.interfaces)
  }

  ghost predicate AllTraced(top: Topology, n: Net) {
    && (forall p | p in n.procs :: Hopped(top, p, n.procs[p]))
    && forall pkt | pkt in n.flying :: Traced(top, pkt)
  }

  lemma MovesKeepHopped(top: Topology, n: Net, step: Step, p: string, s': State)
    requires AllTraced(top, n) && Moves(n, step, p, s')
    requires step.Deliver? ==> step.i < |n.flying|
    ensures Hopped(top, p, s')
  {
    assert p in n.procs ==> Hopped(top, p, n.procs[p]);
    assert step.Deliver? ==> Traced(top, n.flying[step.i]);
  }

  lemma NextKeepsTraced(top: Topology, n: Net, n': Net, step: Step)
    requires Inv(top.kind, n) && AllTraced(top, n) && Next(top, n, n', step)
    ensures AllTraced(top, n')
  {
    forall p | p in n'.procs ensures Hopped(top, p, n'.procs[p]) {
      NextMoves(top, n, n', step, p);
      MovesKeepHopped(top, n, step, p, n'.procs[p]);
    }
    forall pkt | pkt in n'.flying ensures Traced(top, pkt) {
      if pkt !in n.flying {
        var o := NextSends(top, n, n', step, pkt);
        var p := Sender(n, step).value;
        assert ProcOk(top.kind, n, p, n.procs[p]) && p in top.hosts;
        assert step.Deliver? ==> Traced(top, n.flying[step.i]);
      }
    }
  }

  lemma {:induction false} RunKeepsTraced(top: Topology, run: seq<Net>, steps: seq<Step>, k: nat)
    requires Run(top, run, steps) && k < |run|
    ensures AllTraced(top, run[k])
  {
    if k > 0 {
      RunKeepsTraced(top, run, steps, k - 1);
      RunKeepsInv(top, run, steps, k - 1);
      NextKeepsTraced(top, run[k - 1], run[k], steps[k - 1]);
    }
  }

  /** An owner, a relay in the hearer's group, and the addresses that the relay and the hearer take for their own. */
  datatype Site = Site(top: Topology, owner: string, relay: string, hearer: string, interfaces: set<string>)

  predicate Leaky(w: Site) {
    && w.owner in w.top.hosts && w.relay in w.top.hosts && w.hearer != w.owner
    && (w.relay, w.hearer) in w.top.lan
    && Local(w.interfaces, w.top.hosts[w.relay]) && !Local(w.interfaces, w.top.hosts[w.owner])
  }

  function Started(w: Site, self: string): State {
    State(self, w.top.kind, 10, w.interfaces, 3000, 100, 1000, true, {}, {}, map[], [], 0, 0, false, 0)
  }

  function Entry(w: Site): Publisher {
    Publisher("@@/t", "tcp://a", w.owner, "n", HOST,
      if w.top.kind == MsgKind then MsgDetails("", "m", HOST, UNTHROTTLED) else SrvDetails("s", "q", "r", HOST))
  }

  function FirstHop(w: Site): Packet
    requires Leaky(w)
  {
    Packet(w.relay, w.top.hosts[w.owner], Message(10, ADVERTISE, w.owner, FillDiscovery(Entry(w)), None, true, false))
  }

  function SecondHop(w: Site): Packet
    requires Leaky(w)
  {
    Packet(w.hearer, w.top.hosts[w.relay], FirstHop(w).msg.(relay := false, noRelay := true))
  }

  function Now(run: seq<Net>): Net
    requires run != []
  {
    run[|run| - 1]
  }

  lemma Extend(top: Topology, run: seq<Net>, steps: seq<Step>, n: Net, step: Step)
    requires Run(top, run, steps) && Next(top, Now(run), n, step)
    ensures Run(top, run + [n], steps + [step])
  {
    var all, done := run + [n], steps + [step];
    forall k {:trigger done[k]} | 0 <= k < |done| ensures Next(top, all[k], all[k + 1], done[k]) {
      assert k < |steps| ==> done[k] == steps[k] && all[k] == run[k] && all[k + 1] == run[k + 1];
    }
  }

  lemma Join(w: Site, run0: seq<Net>, steps0: seq<Step>, p: string) returns (run: seq<Net>, steps: seq<Step>)
    requires Run(w.top, run0, steps0) && p !in Now(run0).log
    ensures Run(w.top, run, steps)
    ensures Now(run) == Now(run0).(procs := Now(run0).procs[p := Started(w, p)], log := Now(run0).log[p := []])
  {
    var n := Now(run0);
    var n' := n.(procs := n.procs[p := Started(w, p)], log := n.log[p := []]);
    Extend(w.top, run0, steps0, n', JoinStep(p, Started(w, p)));
    run, steps := run0 + [n'], steps0 + [JoinStep(p, Started(w, p))];
  }

  /** All processes up and nothing in flight; the owner knows the relay. */
  ghost predicate Ready(w: Site, n: Net)
    requires Leaky(w)
  {
    && n.flying == [] && w.owner in n.procs && w.relay in n.procs && w.hearer in n.procs && w.owner in n.log
    && n.procs[w.owner] == AddRelay(Started(w, w.owner), w.top.hosts[w.relay])
    && n.procs[w.relay] == Started(w, w.relay) && n.procs[w.hearer] == Started(w, w.hearer)
  }

  lemma ReachReady(w: Site) returns (run: seq<Net>, steps: seq<Step>)
    requires Leaky(w)
    ensures Run(w.top, run, steps) && Ready(w, Now(run))
  {
    run, steps := Join(w, [EMPTY], [], w.owner);
    run, steps := Join(w, run, steps, w.relay);
    if w.hearer != w.relay { run, steps := Join(w, run, steps, w.hearer); }
    var n, step := Now(run), AddRelayStep(w.owner, w.top.hosts[w.relay]);
    var n' := n.(procs := n.procs[w.owner := AddRelay(n.procs[w.owner], w.top.hosts[w.relay])]);
    Extend(w.top, run, steps, n', step);
    run, steps := run + [n'], steps + [step];
  }

  lemma Talk(w: Site, n: Net) returns (n': Net, step: Step)
    requires Leaky(w) && Ready(w, n)
    ensures Next(w.top, n, n', step) && n'.flying == [FirstHop(w)]
    ensures w.relay in n'.procs && n'.procs[w.relay] == Started(w, w.relay)
    ensures w.hearer in n'.procs && n'.procs[w.hearer] == Started(w, w.hearer)
  {
    var s := n.procs[w.owner];
    var e := Advertise(s, Entry(w));
    assert e.outs[1] == Unicast(FirstHop(w).msg) && Carries(w.top, s, e.outs[1], FirstHop(w));
    step := AdvertiseStep(w.owner, Entry(w), [FirstHop(w)]);
    n' := Update(n, w.owner, e, [FirstHop(w)]).(log := n.log[w.owner := n.log[w.owner] + [Advertised(Entry(w))]]);
  }

  lemma Forward(w: Site, n: Net) returns (n': Net, step: Step)
    requires Leaky(w) && n.flying == [FirstHop(w)]
    requires w.relay in n.procs && n.procs[w.relay] == Started(w, w.relay)
    requires w.hearer in n.procs && n.procs[w.hearer] == Started(w, w.hearer)
    ensures Next(w.top, n, n', step) && n'.flying == [SecondHop(w)] && w.hearer in n'.procs
    ensures n'.procs[w.hearer] == Started(w, w.hearer).(relays := n'.procs[w.hearer].relays)
  {
    var s := n.procs[w.relay];
    var e := Dispatch(s, w.top.hosts[w.owner], FirstHop(w).msg, 0, []);
    assert (e.outs + [])[0] == Multicast(SecondHop(w).msg)
           && Carries(w.top, s, Multicast(SecondHop(w).msg), SecondHop(w));
    step := Deliver(0, 0, [], [], [SecondHop(w)]);
    n' := n.(procs := n.procs[w.relay := e.next], flying := Remove(n.flying, 0) + [SecondHop(w)],
             heard := n.heard + {});
  }

  lemma Hear(w: Site, n: Net) returns (n': Net, step: Step)
    requires Leaky(w) && n.flying == [SecondHop(w)] && w.hearer in n.procs
    requires n.procs[w.hearer] == Started(w, w.hearer).(relays := n.procs[w.hearer].relays)
    ensures Next(w.top, n, n', step) && Leaked(w.top, n', w.hearer, w.interfaces, w.owner, Entry(w))
  {
    var s := n.procs[w.hearer];
    var e := Dispatch(s, w.top.hosts[w.relay], SecondHop(w).msg, 0, []);
    WireRoundTrip(Entry(w));
    step := Deliver(0, 0, [], [], []);
    n' := n.(procs := n.procs[w.hearer := e.next], flying := Remove(n.flying, 0) + [],
             heard := n.heard + {Heard(w.hearer, w.owner, 0)});
  }

  /** One relay hop carries a HOST-scoped publisher off its host on every such site; the relay may be the hearer. */
  lemma RelayLeaksHostScope(w: Site) returns (run: seq<Net>, steps: seq<Step>)
    requires Leaky(w)
    ensures Run(w.top, run, steps) && Leaked(w.top, Now(run), w.hearer, w.interfaces, w.owner, Entry(w))
  {
    run, steps := ReachReady(w);
    var n, step := Talk(w, Now(run));
    Extend(w.top, run, steps, n, step);
    run, steps := run + [n], steps + [step];
    n, step := Forward(w, n);
    Extend(w.top, run, steps, n, step);
    run, steps := run + [n], steps + [step];
    n, step := Hear(w, n);
    Extend(w.top, run, steps, n, step);
    run, steps := run + [n], steps + [step];
  }

  /** Some run ends with a HOST-scoped publisher of `owner` leaked to p. */
  ghost predicate CanLeak(top: Topology, p: string, interfaces: set<string>, owner: string) {
    exists run, steps, x :: Run(top, run, steps) && Leaked(top, Now(run), p, interfaces, owner, x)
  }

  /** The exact condition: `owner` is a host whose address p does not take for its own, and some host whose address p
      does take for its own multicasts into p's group. */
  lemma HostScopeLeaksIff(top: Topology, p: string, interfaces: set<string>, owner: string)
    ensures CanLeak(top, p, interfaces, owner) <==>
            && owner != p && owner in top.hosts && !Local(interfaces, top.hosts[owner])
            && HasLocalHop(top, p, interfaces)
  {
    if CanLeak(top, p, interfaces, owner) {
      var run, steps, x :| Run(top, run, steps) && Leaked(top, Now(run), p, interfaces, owner, x);
      RunKeepsTraced(top, run, steps, |run| - 1);
    }
    if owner != p && owner in top.hosts && !Local(interfaces, top.hosts[owner]) && HasLocalHop(top, p, interfaces) {
      var r :| r in top.hosts && (r, p) in top.lan && Local(interfaces, top.hosts[r]);
      var run, steps := RelayLeaksHostScope(Site(top, owner, r, p, interfaces));
    }
  }

  /** On the topology alone: some choice of p's own addresses leaks exactly when the owner is not on a loopback address
      and a host with another address multicasts into p's group. */
  lemma TopologyLeaksIff(top: Topology, p: string, owner: string)
    ensures (exists interfaces :: CanLeak(top, p, interfaces, owner)) <==>
            && owner != p && owner in top.hosts && !("127." <= top.hosts[owner])
            && exists r | r in top.hosts :: (r, p) in top.lan && top.hosts[r] != top.hosts[owner]
  {
    if exists interfaces :: CanLeak(top, p, interfaces, owner) {
      var interfaces :| CanLeak(top, p, interfaces, owner);
      HostScopeLeaksIff(top, p, interfaces, owner);
    }
    if owner != p && owner in top.hosts && !("127." <= top.hosts[owner])
       && exists r | r in top.hosts :: (r, p) in top.lan && top.hosts[r] != top.hosts[owner] {
      var r :| r in top.hosts && (r, p) in top.lan && top.hosts[r] != top.hosts[owner];
      HostScopeLeaksIff(top, p, {top.hosts[r]}, owner);
      assert CanLeak(top, p, {top.hosts[r]}, owner);
    }
  }
}
