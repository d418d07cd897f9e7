/** Any number of discovery processes over a lossy, duplicating, reordering datagram network with relays. */
module Network {
  import opened Publishers
  import opened Sequences
  import opened TopicStorage
  import opened Protocol

  /** `lan` holds (p, q) when q hears the multicast group of p; `hosts` gives each process its address. */
  datatype Topology = Topology(kind: Kind, lan: set<(string, string)>, hosts: map<string, string>)

  /** A datagram on its way to one process, with the address of the hop that sent it. */
  datatype Packet = Packet(dst: string, from: string, msg: Message)

  /** What the API of a process has accepted, oldest first. */
  datatype Api = Advertised(pub: Publisher) | Unadvertised(topic: string, nUuid: string)

  /** A message from `sender` processed by `receiver`. */
  datatype Heard = Heard(receiver: string, sender: string, time: int)

  /** `log` and `heard` are history: no step reads them. */
  datatype Net = Net(procs: map<string, State>, flying: seq<Packet>, log: map<string, seq<Api>>, heard: set<Heard>)

  datatype Step =
    | Deliver(i: nat, now: int, answers: seq<Publisher>, triggered: seq<Out>, copies: seq<Packet>)
    | Lose(i: nat)
    | Duplicate(i: nat)
    | AdvertiseStep(p: string, pub: Publisher, copies: seq<Packet>)
    | UnadvertiseStep(p: string, topic: string, nUuid: string, first: Option<Publisher>, copies: seq<Packet>)
    | DiscoverStep(p: string, topic: string, known: seq<Publisher>, copies: seq<Packet>)
    | TopicListStep(p: string, copies: seq<Packet>)
    | TellStep(p: string, what: MsgType, about: WirePub, copies: seq<Packet>)
    | AddRelayStep(p: string, ip: string)
    | HeartbeatStep(p: string, now: int, later: int, own: seq<Publisher>, copies: seq<Packet>)
    | SweepStep(p: string, now: int, later: int, gone: seq<string>)
    | JoinStep(p: string, s: State)
    | LeaveStep(p: string, copies: seq<Packet>)

  /** A multicast reaches the group of its sender, a unicast the hosts that are relays of its sender. */
  ghost predicate Carries(top: Topology, s: State, o: Out, pkt: Packet) {
    && s.self in top.hosts && pkt.from == top.hosts[s.self]
    && pkt.msg == o.msg
    && match o
       case Multicast(_) => (s.self, pkt.dst) in top.lan
       case Unicast(_) => pkt.dst in top.hosts && top.hosts[pkt.dst] in s.relays
  }

  /** The datagrams that sending leaves in flight: any number of copies of any of the sends, possibly none. */
  ghost predicate Carried(top: Topology, s: State, outs: seq<Out>, copies: seq<Packet>) {
    forall pkt | pkt in copies :: exists o | o in outs :: Carries(top, s, o, pkt)
  }

  /** What the client's callbacks send while they run: OnNewConnection registers its subscribers and OnSubscribers
      lists them; the other callbacks send no discovery message. */
  ghost predicate Triggers(s: State, calls: seq<Call>, o: Out) {
    exists pub: WirePub, kind: MsgType ::
      && o in Send(s, kind, pub)
      && ((kind == NEW_CONNECTION && exists c | c in calls :: c.Connect?)
          || (kind == SUBSCRIBERS_REP && Subscribers in calls))
  }

  ghost function Update(n: Net, p: string, e: Effect, copies: seq<Packet>): Net {
    n.(procs := n.procs[p := e.next], flying := n.flying + copies)
  }

  /** Whether a message is processed rather than discarded or forwarded only. */
  predicate Processes(s: State, m: Message) {
    m.version == s.version && m.process != s.self && !m.relay
  }

  ghost predicate DeliverNext(top: Topology, n: Net, n': Net, i: nat, now: int, answers: seq<Publisher>,
                              triggered: seq<Out>, copies: seq<Packet>) {
    && i < |n.flying|
    && var pkt := n.flying[i];
       pkt.dst in n.procs
       && var s := n.procs[pkt.dst];
          var e := Dispatch(s, pkt.from, pkt.msg, now, answers);
          && (Processes(s, pkt.msg) ==> AnswersFor(s, pkt.from, pkt.msg, answers))
          && (forall o | o in triggered :: Triggers(s, e.calls, o))
          && Carried(top, s, e.outs + triggered, copies)
          && n' == n.(procs := n.procs[pkt.dst := e.next],
                      flying := Remove(n.flying, i) + copies,
                      heard := n.heard + if Processes(s, pkt.msg) then {Heard(pkt.dst, pkt.msg.process, now)} else {})
  }

  ghost predicate Logged(n: Net, n': Net, p: string, entry: seq<Api>) {
    p in n.log && n'.log == n.log[p := n.log[p] + entry]
  }

  ghost predicate Next(top: Topology, n: Net, n': Net, step: Step) {
    match step
    case Deliver(i, now, answers, triggered, copies) => DeliverNext(top, n, n', i, now, answers, triggered, copies)
    case Lose(i) => i < |n.flying| && n' == n.(flying := Remove(n.flying, i))
    case Duplicate(i) => i < |n.flying| && n' == n.(flying := n.flying + [n.flying[i]])
    case AdvertiseStep(p, pub, copies) =>
      p in n.procs
      && var s := n.procs[p];
         var e := Advertise(s, pub);
         && pub.pUuid == p && pub.Kind() == top.kind && Consistent(pub)
         && Carried(top, s, e.outs, copies)
         && Logged(n, n', p, if CanAdvertise(s, pub) then [Advertised(pub)] else [])
         && n' == Update(n, p, e, copies).(log := n'.log)
    case UnadvertiseStep(p, topic, nUuid, first, copies) =>
      p in n.procs
      && var s := n.procs[p];
         var e := Unadvertise(s, topic, nUuid, first);
         && FirstOf(s, topic, nUuid, first)
         && Carried(top, s, e.outs, copies)
         && Logged(n, n', p, if s.enabled then [Unadvertised(topic, nUuid)] else [])
         && n' == Update(n, p, e, copies).(log := n'.log)
    case DiscoverStep(p, topic, known, copies) =>
      p in n.procs
      && Lists(known, OnTopic(n.procs[p].info, topic))
      && var e := Discover(n.procs[p], topic, known);
         Carried(top, n.procs[p], e.outs, copies) && n' == Update(n, p, e, copies)
    case TopicListStep(p, copies) =>
      p in n.procs
      && var e := TopicListRequest(n.procs[p]);
         Carried(top, n.procs[p], e.outs, copies) && n' == Update(n, p, e, copies)
    case TellStep(p, what, about, copies) =>
      p in n.procs && what in {NEW_CONNECTION, END_CONNECTION, SUBSCRIBERS_REP}
      && Carried(top, n.procs[p], Send(n.procs[p], what, about), copies)
      && n' == n.(flying := n.flying + copies)
    case AddRelayStep(p, ip) => p in n.procs && n' == n.(procs := n.procs[p := AddRelay(n.procs[p], ip)])
    case HeartbeatStep(p, now, later, own, copies) =>
      p in n.procs
      && Lists(own, OfProcess(n.procs[p].info, p))
      && var e := Heartbeat(n.procs[p], now, later, own);
         Carried(top, n.procs[p], e.outs, copies) && n' == Update(n, p, e, copies)
    case SweepStep(p, now, later, gone) =>
      p in n.procs
      && Lists(gone, Expired(n.procs[p], now))
      && n' == Update(n, p, Sweep(n.procs[p], now, later, gone), [])
    case JoinStep(p, s) =>
      p !in n.log
      && s.self == p && s.kind == top.kind && s.info == {} && s.activity == map[] && s.relays == []
      && n' == n.(procs := n.procs[p := s], log := n.log[p := []])
    case LeaveStep(p, copies) =>
      p in n.procs
      && Carried(top, n.procs[p], Send(n.procs[p], BYE, Anonymous(n.procs[p])), copies)
      && n' == n.(procs := n.procs - {p}, flying := n.flying + copies)
  }

  const EMPTY := Net(map[], [], map[], {})

  /** A run from the empty network: any interleaving of any steps. */
  ghost predicate Run(top: Topology, run: seq<Net>, steps: seq<Step>) {
    && |run| == |steps| + 1 && run[0] == EMPTY
    && forall k {:trigger steps[k]} | 0 <= k < |steps| :: Next(top, run[k], run[k + 1], steps[k])
  }

  /** Advertised by the owner at some time. */
  ghost predicate Ever(log: map<string, seq<Api>>, x: Publisher) {
    x.pUuid in log && Advertised(x) in log[x.pUuid]
  }

  /** Advertised, and the topic not unadvertised by that node since. */
  ghost predicate Live(l: seq<Api>, x: Publisher) {
    exists i | 0 <= i < |l| :: l[i] == Advertised(x) && forall j | i < j < |l| :: l[j] != Unadvertised(x.topic, x.nUuid)
  }

  lemma LiveAppend(l: seq<Api>, a: Api, x: Publisher)
    ensures Live(l + [a], x) <==> a == Advertised(x) || (Live(l, x) && a != Unadvertised(x.topic, x.nUuid))
  {
    var l' := l + [a];
    if a == Advertised(x) {
      assert l'[|l|] == Advertised(x);
    } else if Live(l, x) && a != Unadvertised(x.topic, x.nUuid) {
      var i :| 0 <= i < |l| && l[i] == Advertised(x) && forall j | i < j < |l| ::
        l[j] != Unadvertised(x.topic, x.nUuid);
      assert l'[i] == Advertised(x);
    }
    if Live(l', x) && a != Advertised(x) {
      var i :| 0 <= i < |l'| && l'[i] == Advertised(x) && forall j | i < j < |l'| ::
        l'[j] != Unadvertised(x.topic, x.nUuid);
      assert l[i] == Advertised(x);
      assert l'[|l|] == a;
      forall j | i < j < |l| ensures l[j] != Unadvertised(x.topic, x.nUuid) { assert l'[j] == l[j]; }
    }
  }

  /** What every message in flight satisfies. */
  ghost predicate HonestMessage(kind: Kind, log: map<string, seq<Api>>, m: Message) {
    && (m.kind == ADVERTISE ==> m.sub == None && exists x ::
          Ever(log, x) && x.pUuid == m.process && x.Kind() == kind && Consistent(x) && m.pub == FillDiscovery(x))
    && (m.kind == UNADVERTISE ==> m.sub == None && m.pub.processUuid == m.process)
  }

  /** Own entries are exactly the live ones. */
  ghost predicate OwnExact(l: seq<Api>, p: string, info: set<Publisher>) {
    forall x :: x in info && x.pUuid == p <==> Live(l, x)
  }

  /** A remote entry is, field by field, one its owner advertised, not PROCESS-scoped, from a process in `activity`. */
  ghost predicate RemoteSound(log: map<string, seq<Api>>, p: string, s: State) {
    forall x | x in s.info && x.pUuid != p :: Ever(log, x) && x.Scope() != PROCESS && x.pUuid in s.activity
  }

  ghost predicate LogOwned(kind: Kind, log: map<string, seq<Api>>) {
    forall p, a | p in log && a in log[p] && a.Advertised? :: a.pub.pUuid == p && a.pub.Kind() == kind
      && Consistent(a.pub)
  }

  ghost predicate ProcOk(kind: Kind, n: Net, p: string, s: State) {
    && s.self == p && s.kind == kind && p in n.log && p !in s.activity
    && OwnExact(n.log[p], p, s.info)
    && RemoteSound(n.log, p, s)
    && forall q | q in s.activity :: Heard(p, q, s.activity[q]) in n.heard
  }

  ghost predicate Inv(kind: Kind, n: Net) {
    && LogOwned(kind, n.log)
    && (forall p | p in n.procs :: ProcOk(kind, n, p, n.procs[p]))
    && forall pkt | pkt in n.flying :: HonestMessage(kind, n.log, pkt.msg)
  }

  /** The history of every process but `p` is untouched; that of `p` may have grown. */
  ghost predicate Extends(log: map<string, seq<Api>>, log': map<string, seq<Api>>, p: string) {
    && p in log && log'.Keys == log.Keys && log[p] <= log'[p]
    && forall q | q in log && q != p :: log'[q] == log[q]
  }

  lemma HonestLater(kind: Kind, log: map<string, seq<Api>>, log': map<string, seq<Api>>, p: string, m: Message)
    requires Extends(log, log', p) && HonestMessage(kind, log, m)
    ensures HonestMessage(kind, log', m)
  {
  }

  /** What is enough for the invariant after a step of one process. */
  lemma InvAfterUpdate(kind: Kind, n: Net, n': Net, p: string, copies: seq<Packet>)
    requires Inv(kind, n) && p in n.procs && p in n'.procs && n'.procs == n.procs[p := n'.procs[p]]
    requires Extends(n.log, n'.log, p) && LogOwned(kind, n'.log) && n.heard <= n'.heard
    requires ProcOk(kind, n', p, n'.procs[p])
    requires forall pkt | pkt in n'.flying :: pkt in n.flying || pkt in copies
    requires forall pkt | pkt in copies :: HonestMessage(kind, n'.log, pkt.msg)
    ensures Inv(kind, n')
  {
    forall q | q in n'.procs ensures ProcOk(kind, n', q, n'.procs[q]) {
      if q != p {
        assert ProcOk(kind, n, q, n.procs[q]);
        forall x | x in n.procs[q].info && x.pUuid != q ensures Ever(n'.log, x) { assert Ever(n.log, x); }
      }
    }
    forall pkt | pkt in n'.flying ensures HonestMessage(kind, n'.log, pkt.msg) {
      if pkt in n.flying { HonestLater(kind, n.log, n'.log, p, pkt.msg); }
    }
  }

  /** Whatever a well-behaved process sends is honest: its own publishers when advertising or unadvertising. */
  lemma HonestSend(kind: Kind, log: map<string, seq<Api>>, s: State, what: MsgType, pub: WirePub, o: Out)
    requires LogOwned(kind, log) && o in Send(s, what, pub)
    requires what == ADVERTISE ==> exists x :: Ever(log, x) && x.pUuid == s.self && pub == FillDiscovery(x)
    requires what == UNADVERTISE ==> pub.processUuid == s.self
    ensures HonestMessage(kind, log, o.msg)
  {
  }

  lemma HonestBulk(kind: Kind, log: map<string, seq<Api>>, s: State, pubs: seq<Publisher>, o: Out)
    requires LogOwned(kind, log) && o in SendEach(s, ADVERTISE, pubs)
    requires forall x | x in pubs :: Ever(log, x) && x.pUuid == s.self
    ensures HonestMessage(kind, log, o.msg)
  {
    SendEachMembers(s, ADVERTISE, pubs, o);
    var x :| x in pubs && o in Send(s, ADVERTISE, FillDiscovery(x));
    HonestSend(kind, log, s, ADVERTISE, FillDiscovery(x), o);
  }

  lemma CarriedHonest(top: Topology, log: map<string, seq<Api>>, s: State, outs: seq<Out>, copies: seq<Packet>)
    requires Carried(top, s, outs, copies)
    requires forall o | o in outs :: HonestMessage(top.kind, log, o.msg)
    ensures forall pkt | pkt in copies :: HonestMessage(top.kind, log, pkt.msg)
  {
  }

  /** Processing an honest message of another process keeps own entries exact and remote ones sound. */
  lemma HandleKeepsInfo(kind: Kind, log: map<string, seq<Api>>, p: string, s: State, from: string, m: Message,
                        answers: seq<Publisher>)
    requires LogOwned(kind, log) && s.self == p && s.kind == kind && p in log && m.process != p
    requires OwnExact(log[p], p, s.info) && RemoteSound(log, p, s) && m.process in s.activity
    requires HonestMessage(kind, log, m)
    ensures var s' := Handle(s, from, m, answers).next;
            OwnExact(log[p], p, s'.info) && RemoteSound(log, p, s') && s'.self == p && s'.kind == kind
    ensures forall q | q in Handle(s, from, m, answers).next.activity ::
              q in s.activity && Handle(s, from, m, answers).next.activity[q] == s.activity[q]
  {
    if m.kind == ADVERTISE {
      var x :| Ever(log, x) && x.pUuid == m.process && x.Kind() == kind && Consistent(x) && m.pub == FillDiscovery(x);
      WireRoundTrip(x);
      assert SetFromDiscovery(kind, m.sub, m.pub) == x;
    }
  }

  lemma HandleSendsHonestly(kind: Kind, log: map<string, seq<Api>>, s: State, from: string, m: Message,
                            answers: seq<Publisher>, o: Out)
    requires LogOwned(kind, log) && s.self in log && OwnExact(log[s.self], s.self, s.info)
    requires AnswersFor(s, from, m, answers) && o in Handle(s, from, m, answers).outs
    ensures HonestMessage(kind, log, o.msg)
  {
    assert m.kind == SUBSCRIBE && o in SendEach(s, ADVERTISE, answers);
    assert Elements(answers) == Eligible(s, from, m.sub.value);
    forall x | x in answers ensures Ever(log, x) && x.pUuid == s.self {
      assert x in Eligible(s, from, m.sub.value);
      assert x in s.info;
    }
    HonestBulk(kind, log, s, answers, o);
  }

  lemma DeliverKeepsProc(top: Topology, n: Net, n': Net, i: nat, now: int, answers: seq<Publisher>,
                         triggered: seq<Out>, copies: seq<Packet>)
    requires Inv(top.kind, n) && DeliverNext(top, n, n', i, now, answers, triggered, copies)
    ensures ProcOk(top.kind, n', n.flying[i].dst, n'.procs[n.flying[i].dst])
  {
    var pkt := n.flying[i];
    var s := n.procs[pkt.dst];
    assert ProcOk(top.kind, n, pkt.dst, s) && HonestMessage(top.kind, n.log, pkt.msg);
    if Processes(s, pkt.msg) {
      var s1 := s.(activity := s.activity[pkt.msg.process := now]);
      var s' := n'.procs[pkt.dst];
      HandleKeepsInfo(top.kind, n.log, pkt.dst, s1, pkt.from, pkt.msg, answers);
      forall q | q in s'.activity ensures Heard(pkt.dst, q, s'.activity[q]) in n'.heard {
        assert q in s1.activity && s'.activity[q] == s1.activity[q];
      }
    }
  }

  lemma ReactionsAreHonest(top: Topology, n: Net, n': Net, i: nat, now: int, answers: seq<Publisher>,
                           triggered: seq<Out>, copies: seq<Packet>, o: Out)
    requires Inv(top.kind, n) && DeliverNext(top, n, n', i, now, answers, triggered, copies)
    requires o in Dispatch(n.procs[n.flying[i].dst], n.flying[i].from, n.flying[i].msg, now, answers).outs + triggered
    ensures HonestMessage(top.kind, n.log, o.msg)
  {
    var pkt := n.flying[i];
    var s := n.procs[pkt.dst];
    assert ProcOk(top.kind, n, pkt.dst, s) && HonestMessage(top.kind, n.log, pkt.msg);
    if o in triggered {
      assert Triggers(s, Dispatch(s, pkt.from, pkt.msg, now, answers).calls, o);
      var pub: WirePub, what: MsgType :| o in Send(s, what, pub) && what in {NEW_CONNECTION, SUBSCRIBERS_REP};
      HonestSend(top.kind, n.log, s, what, pub, o);
    } else if Processes(s, pkt.msg) {
      var s1 := s.(activity := s.activity[pkt.msg.process := now]);
      if o in Handle(s1, pkt.from, pkt.msg, answers).outs {
        assert Eligible(s1, pkt.from, pkt.msg.sub.value) == Eligible(s, pkt.from, pkt.msg.sub.value);
        HandleSendsHonestly(top.kind, n.log, s1, pkt.from, pkt.msg, answers, o);
      }
    }
  }

  lemma DeliverKeepsInv(top: Topology, n: Net, n': Net, i: nat, now: int, answers: seq<Publisher>, triggered: seq<Out>,
                        copies: seq<Packet>)
    requires Inv(top.kind, n) && DeliverNext(top, n, n', i, now, answers, triggered, copies)
    ensures Inv(top.kind, n')
  {
    var pkt := n.flying[i];
    var s := n.procs[pkt.dst];
    var outs := Dispatch(s, pkt.from, pkt.msg, now, answers).outs + triggered;
    DeliverKeepsProc(top, n, n', i, now, answers, triggered, copies);
    forall o | o in outs ensures HonestMessage(top.kind, n.log, o.msg) {
      ReactionsAreHonest(top, n, n', i, now, answers, triggered, copies, o);
    }
    assert ProcOk(top.kind, n, pkt.dst, s);
    CarriedHonest(top, n.log, s, outs, copies);
    InvAfterUpdate(top.kind, n, n', pkt.dst, copies);
  }

  lemma OwnAfterAdvertise(l: seq<Api>, p: string, info: set<Publisher>, pub: Publisher)
    requires OwnExact(l, p, info) && pub.pUuid == p
    ensures OwnExact(l + [Advertised(pub)], p, info + {pub})
  {
    forall x { LiveAppend(l, Advertised(pub), x); }
  }

  lemma OwnAfterUnadvertise(l: seq<Api>, p: string, info: set<Publisher>, topic: string, nUuid: string)
    requires OwnExact(l, p, info)
    ensures OwnExact(l + [Unadvertised(topic, nUuid)], p, info - OfNode(info, topic, p, nUuid))
  {
    forall x { LiveAppend(l, Unadvertised(topic, nUuid), x); }
  }

  lemma RemoteLater(log: map<string, seq<Api>>, log': map<string, seq<Api>>, p: string, s: State, s': State)
    requires Extends(log, log', p) && RemoteSound(log, p, s)
    requires forall x | x in s'.info && x.pUuid != p :: x in s.info
    requires forall x | x in s'.info && x.pUuid != p :: x.pUuid in s.activity ==> x.pUuid in s'.activity
    ensures RemoteSound(log', p, s')
  {
  }

  lemma AdvertiseKeepsInv(top: Topology, n: Net, n': Net, p: string, pub: Publisher, copies: seq<Packet>)
    requires Inv(top.kind, n) && Next(top, n, n', AdvertiseStep(p, pub, copies))
    ensures Inv(top.kind, n')
  {
    var s := n.procs[p];
    var e := Advertise(s, pub);
    assert ProcOk(top.kind, n, p, s);
    assert n.log[p] + [] == n.log[p];
    OwnAfterAdvertise(n.log[p], p, s.info, pub);
    RemoteLater(n.log, n'.log, p, s, e.next);
    assert LogOwned(top.kind, n'.log);
    assert ProcOk(top.kind, n', p, n'.procs[p]);
    forall o | o in e.outs ensures HonestMessage(top.kind, n'.log, o.msg) {
      assert Advertised(pub) in n'.log[p];
      HonestSend(top.kind, n'.log, s, ADVERTISE, FillDiscovery(pub), o);
    }
    CarriedHonest(top, n'.log, s, e.outs, copies);
    InvAfterUpdate(top.kind, n, n', p, copies);
  }

  lemma UnadvertiseKeepsInv(top: Topology, n: Net, n': Net, p: string, topic: string, nUuid: string,
                            first: Option<Publisher>, copies: seq<Packet>)
    requires Inv(top.kind, n) && Next(top, n, n', UnadvertiseStep(p, topic, nUuid, first, copies))
    ensures Inv(top.kind, n')
  {
    var s := n.procs[p];
    var e := Unadvertise(s, topic, nUuid, first);
    assert ProcOk(top.kind, n, p, s);
    assert n.log[p] + [] == n.log[p];
    OwnAfterUnadvertise(n.log[p], p, s.info, topic, nUuid);
    assert s.info - {} == s.info;
    RemoteLater(n.log, n'.log, p, s, e.next);
    assert LogOwned(top.kind, n'.log);
    assert ProcOk(top.kind, n', p, n'.procs[p]);
    forall o | o in e.outs ensures HonestMessage(top.kind, n'.log, o.msg) {
      HonestSend(top.kind, n'.log, s, UNADVERTISE, FillDiscovery(first.value), o);
    }
    CarriedHonest(top, n'.log, s, e.outs, copies);
    InvAfterUpdate(top.kind, n, n', p, copies);
  }

  lemma HeartbeatKeepsInv(top: Topology, n: Net, n': Net, p: string, now: int, later: int, own: seq<Publisher>,
                          copies: seq<Packet>)
    requires Inv(top.kind, n) && Next(top, n, n', HeartbeatStep(p, now, later, own, copies))
    ensures Inv(top.kind, n')
  {
    var s := n.procs[p];
    var e := Heartbeat(s, now, later, own);
    assert ProcOk(top.kind, n, p, s);
    assert ProcOk(top.kind, n', p, n'.procs[p]);
    assert Elements(own) == OfProcess(s.info, p);
    forall x | x in own ensures Ever(n.log, x) && x.pUuid == p {
      assert x in OfProcess(s.info, p);
      assert x in s.info;
    }
    forall o | o in e.outs ensures HonestMessage(top.kind, n.log, o.msg) {
      if o in SendEach(s, ADVERTISE, own) { HonestBulk(top.kind, n.log, s, own, o); }
    }
    CarriedHonest(top, n.log, s, e.outs, copies);
    InvAfterUpdate(top.kind, n, n', p, copies);
  }

  lemma SweepKeepsInv(top: Topology, n: Net, n': Net, p: string, now: int, later: int, gone: seq<string>)
    requires Inv(top.kind, n) && Next(top, n, n', SweepStep(p, now, later, gone))
    ensures Inv(top.kind, n')
  {
  }

  lemma QuietKeepsInv(top: Topology, n: Net, n': Net, p: string, outs: seq<Out>, copies: seq<Packet>)
    requires Inv(top.kind, n) && p in n.procs && p in n'.procs && Carried(top, n.procs[p], outs, copies)
    requires n' == n.(procs := n.procs[p := n'.procs[p]], flying := n.flying + copies)
    requires n'.procs[p] == n.procs[p].(relays := n'.procs[p].relays,
                                        remoteSubscribers := n'.procs[p].remoteSubscribers)
    requires forall o | o in outs :: o.msg.kind != ADVERTISE && o.msg.kind != UNADVERTISE
    ensures Inv(top.kind, n')
  {
  }

  lemma JoinKeepsInv(top: Topology, n: Net, n': Net, p: string, s: State)
    requires Inv(top.kind, n) && Next(top, n, n', JoinStep(p, s))
    ensures Inv(top.kind, n')
  {
    forall x | Ever(n.log, x) ensures Ever(n'.log, x) {}
    forall q | q in n'.procs ensures ProcOk(top.kind, n', q, n'.procs[q]) {
      if q in n.procs && q != p { assert ProcOk(top.kind, n, q, n.procs[q]); }
    }
    forall pkt | pkt in n'.flying ensures HonestMessage(top.kind, n'.log, pkt.msg) {
      assert HonestMessage(top.kind, n.log, pkt.msg);
    }
  }

  lemma FewerKeepsInv(top: Topology, n: Net, n': Net)
    requires Inv(top.kind, n) && n'.log == n.log && n'.heard == n.heard
    requires forall p | p in n'.procs :: p in n.procs && n'.procs[p] == n.procs[p]
    requires forall pkt | pkt in n'.flying :: HonestMessage(top.kind, n.log, pkt.msg)
    ensures Inv(top.kind, n')
  {
  }

  lemma AskingKeepsInv(top: Topology, n: Net, n': Net, step: Step)
    requires Inv(top.kind, n) && Next(top, n, n', step) && (step.DiscoverStep? || step.TopicListStep?)
    ensures Inv(top.kind, n')
  {
    var s := n.procs[step.p];
    match step
    case DiscoverStep(p, topic, known, copies) =>
      QuietKeepsInv(top, n, n', p, Discover(s, topic, known).outs, copies);
    case TopicListStep(p, copies) => QuietKeepsInv(top, n, n', p, TopicListRequest(s).outs, copies);
  }

  lemma TellingKeepsInv(top: Topology, n: Net, n': Net, step: Step)
    requires Inv(top.kind, n) && Next(top, n, n', step) && (step.TellStep? || step.AddRelayStep?)
    ensures Inv(top.kind, n')
  {
    match step
    case TellStep(p, what, about, copies) =>
      QuietKeepsInv(top, n, n', p, Send(n.procs[p], what, about), copies);
    case AddRelayStep(p, ip) =>
      assert n.flying + [] == n.flying;
      QuietKeepsInv(top, n, n', p, [], []);
  }

  /** Timers, and processes coming and going. */
  lemma LifeKeepsInv(top: Topology, n: Net, n': Net, step: Step)
    requires Inv(top.kind, n) && Next(top, n, n', step)
    requires step.HeartbeatStep? || step.SweepStep? || step.JoinStep? || step.LeaveStep?
    ensures Inv(top.kind, n')
  {
    match step
    case HeartbeatStep(p, now, later, own, copies) => HeartbeatKeepsInv(top, n, n', p, now, later, own, copies);
    case SweepStep(p, now, later, gone) => SweepKeepsInv(top, n, n', p, now, later, gone);
    case JoinStep(p, s) => JoinKeepsInv(top, n, n', p, s);
    case LeaveStep(p, copies) =>
      CarriedHonest(top, n.log, n.procs[p], Send(n.procs[p], BYE, Anonymous(n.procs[p])), copies);
      FewerKeepsInv(top, n, n');
  }

  /** What the network and a client do to a publisher's entry. */
  lemma TrafficKeepsInv(top: Topology, n: Net, n': Net, step: Step)
    requires Inv(top.kind, n) && Next(top, n, n', step)
    requires step.Deliver? || step.Lose? || step.Duplicate? || step.AdvertiseStep? || step.UnadvertiseStep?
    ensures Inv(top.kind, n')
  {
    match step
    case Deliver(i, now, answers, triggered, copies) =>
      DeliverKeepsInv(top, n, n', i, now, answers, triggered, copies);
    case AdvertiseStep(p, pub, copies) => AdvertiseKeepsInv(top, n, n', p, pub, copies);
    case UnadvertiseStep(p, topic, nUuid, first, copies) =>
      UnadvertiseKeepsInv(top, n, n', p, topic, nUuid, first, copies);
    case Lose(_) => FewerKeepsInv(top, n, n');
    case Duplicate(_) => FewerKeepsInv(top, n, n');
  }

  lemma NextKeepsInv(top: Topology, n: Net, n': Net, step: Step)
    requires Inv(top.kind, n) && Next(top, n, n', step)
    ensures Inv(top.kind, n')
  {
    if step.HeartbeatStep? || step.SweepStep? || step.JoinStep? || step.LeaveStep? {
      LifeKeepsInv(top, n, n', step);
    } else if step.DiscoverStep? || step.TopicListStep? {
      AskingKeepsInv(top, n, n', step);
    } else if step.TellStep? || step.AddRelayStep? {
      TellingKeepsInv(top, n, n', step);
    } else {
      TrafficKeepsInv(top, n, n', step);
    }
  }

  lemma {:induction false} RunKeepsInv(top: Topology, run: seq<Net>, steps: seq<Step>, k: nat)
    requires Run(top, run, steps) && k < |run|
    ensures Inv(top.kind, run[k])
  {
    if k > 0 {
      RunKeepsInv(top, run, steps, k - 1);
      NextKeepsInv(top, run[k - 1], run[k], steps[k - 1]);
    }
  }

  /** At any time of any run, the entries a process keeps of itself are exactly the publishers it advertised and has
      not unadvertised: no message and no timeout adds or removes one. */
  lemma OwnershipOverRuns(top: Topology, run: seq<Net>, steps: seq<Step>, k: nat, p: string)
    requires Run(top, run, steps) && k < |run| && p in run[k].procs
    ensures p in run[k].log
    ensures forall x :: x in run[k].procs[p].info && x.pUuid == p <==> Live(run[k].log[p], x)
  {
    RunKeepsInv(top, run, steps, k);
    assert ProcOk(top.kind, run[k], p, run[k].procs[p]);
  }

  /** Every entry about another process equals, field by field, a publisher that process advertised; none of them is
      PROCESS-scoped, although heartbeats send those too. */
  lemma SoundnessAndScopeOverRuns(top: Topology, run: seq<Net>, steps: seq<Step>, k: nat, p: string, x: Publisher)
    requires Run(top, run, steps) && k < |run| && p in run[k].procs && x in run[k].procs[p].info && x.pUuid != p
    ensures x.pUuid in run[k].log && Advertised(x) in run[k].log[x.pUuid] && x.Scope() != PROCESS
  {
    RunKeepsInv(top, run, steps, k);
    assert ProcOk(top.kind, run[k], p, run[k].procs[p]);
  }

  /** Every process known through an entry is this one or is being watched for silence. */
  lemma FreshnessOverRuns(top: Topology, run: seq<Net>, steps: seq<Step>, k: nat, p: string, x: Publisher)
    requires Run(top, run, steps) && k < |run| && p in run[k].procs && x in run[k].procs[p].info
    ensures x.pUuid == p || x.pUuid in run[k].procs[p].activity
  {
    RunKeepsInv(top, run, steps, k);
    assert ProcOk(top.kind, run[k], p, run[k].procs[p]);
  }
}
