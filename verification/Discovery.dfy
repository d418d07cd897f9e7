/** The Discovery class of aerozen/discovery.hpp, its methods proved to do exactly what Protocol says.
    Sends and client callbacks are returned in the order in which they happen. */
module Discovery {
  import opened Publishers
  import opened Sequences
  import opened Protocol
  import TopicStorage

  /** The entries but those of these processes. */
  ghost function Outlasting(info: set<Publisher>, gone: set<string>): set<Publisher> {
    set x | x in info && x.pUuid !in gone
  }

  lemma DropStep(before: State, now: int, todo: set<string>, q: string)
    requires q in todo && q in before.activity
    ensures todo - {q} + {q} == todo
    ensures if Silent(before, now, q)
            then Expired(before, now) - (todo - {q}) == (Expired(before, now) - todo) + {q}
                 && q !in Expired(before, now) - todo
                 && Outlasting(before.info, Expired(before, now) - (todo - {q}))
                    == Outlasting(before.info, Expired(before, now) - todo)
                       - TopicStorage.OfProcess(Outlasting(before.info, Expired(before, now) - todo), q)
            else Expired(before, now) - (todo - {q}) == Expired(before, now) - todo
  {
  }

  class Discovery {
    const pUuid: string
    const kind: Kind
    const wireVersion: nat
    const hostInterfaces: set<string>
    var silenceInterval: nat
    var activityInterval: nat
    var heartbeatInterval: nat
    var enabled: bool
    const info: TopicStorage.TopicStorage
    const remoteSubscribers: TopicStorage.TopicStorage
    var activity: map<string, int>
    var relayAddrs: seq<string>
    var timeNextHeartbeat: int
    var timeNextActivity: int
    var initialized: bool
    var numHeartbeatsUninitialized: nat

    ghost predicate Valid() reads this, info, remoteSubscribers {
      info != remoteSubscribers && info.Valid() && remoteSubscribers.Valid()
    }

    /** The protocol state this object stands for. */
    ghost function View(): State reads this, info, remoteSubscribers {
      State(pUuid, kind, wireVersion, hostInterfaces, silenceInterval, activityInterval, heartbeatInterval,
            enabled, info.Contents(), remoteSubscribers.Contents(), activity, relayAddrs,
            timeNextHeartbeat, timeNextActivity, initialized, numHeartbeatsUninitialized)
    }

    constructor (pUuid: string, kind: Kind, version: nat, interfaces: set<string>)
      ensures Valid() && fresh(info) && fresh(remoteSubscribers)
      ensures View() == State(pUuid, kind, version, interfaces, 3000, 100, 1000, false, {}, {}, map[], [],
                              timeNextHeartbeat, timeNextActivity, false, 0)
    {
      this.pUuid, this.kind, this.wireVersion, this.hostInterfaces := pUuid, kind, version, interfaces;
      silenceInterval, activityInterval, heartbeatInterval := 3000, 100, 1000;
      enabled, activity, relayAddrs := false, map[], [];
      initialized, numHeartbeatsUninitialized := false, 0;
      info := new TopicStorage.TopicStorage();
      remoteSubscribers := new TopicStorage.TopicStorage();
    }

    method Start(now: int)
      requires Valid()
      modifies this
      ensures Valid()
      ensures View() == if old(View()).enabled then old(View())
                        else old(View()).(enabled := true, timeNextHeartbeat := now, timeNextActivity := now)
    {
      if enabled {
        return;
      }
      enabled := true;
      timeNextHeartbeat := now;
      timeNextActivity := now;
    }

    /** To the multicast group, then with the RELAY flag to every relay. */
    method SendMsg(kind: MsgType, pub: WirePub) returns (outs: seq<Out>)
      requires Valid()
      ensures outs == Send(View(), kind, pub)
    {
      var m := Message(wireVersion, kind, pUuid, pub, None, false, false);
      if kind == SUBSCRIBE {
        m := m.(sub := Some(pub.topic));
      }
      outs := [Multicast(m)];
      m := m.(relay := true);
      outs := outs + [Unicast(m)];
    }

    method SendEachMsg(kind: MsgType, pubs: seq<Publisher>) returns (outs: seq<Out>)
      requires Valid()
      ensures outs == SendEach(View(), kind, pubs)
    {
      outs := [];
      for i := 0 to |pubs|
        invariant Valid() && View() == old(View()) && outs == SendEach(View(), kind, pubs[..i])
      {
        assert pubs[..i + 1] == pubs[..i] + [pubs[i]];
        SendEachAppend(View(), kind, pubs[..i], pubs[i]);
        var sent := SendMsg(kind, FillDiscovery(pubs[i]));
        outs := outs + sent;
      }
      assert pubs[..|pubs|] == pubs;
    }

    method Remember(pub: Publisher) returns (added: bool)
      requires Valid()
      modifies info
      ensures Valid() && View() == old(View()).(info := Added(old(View()).info, pub))
      ensures added <==> !TopicStorage.HasKey(old(View()).info, pub)
    {
      added := info.AddPublisher(pub);
    }

    method Advertise(pub: Publisher) returns (ok: bool, outs: seq<Out>, calls: seq<Call>)
      requires Valid()
      modifies info
      ensures Valid()
      ensures ok <==> CanAdvertise(old(View()), pub)
      ensures Effect(View(), outs, calls) == Protocol.Advertise(old(View()), pub)
    {
      outs, calls := [], [];
      if !enabled {
        return false, outs, calls;
      }
      ok := Remember(pub);
      if !ok {
        return;
      }
      calls := [Connect(pub)];
      if pub.Scope() != PROCESS {
        outs := SendMsg(ADVERTISE, FillDiscovery(pub));
      }
    }

    method Unadvertise(topic: string, nUuid: string) returns (ok: bool, outs: seq<Out>, first: Option<Publisher>)
      requires Valid()
      modifies info
      ensures Valid() && ok == enabled
      ensures FirstOf(old(View()), topic, nUuid, first)
      ensures Effect(View(), outs, []) == Protocol.Unadvertise(old(View()), topic, nUuid, first)
    {
      outs := [];
      ok := enabled;
      first := info.FindPublisher(topic, pUuid, nUuid);
      if !enabled || first.None? {
        return;
      }
      var removed := info.DelPublisherByNode(topic, pUuid, nUuid);
      if first.value.Scope() != PROCESS {
        outs := SendMsg(UNADVERTISE, FillDiscovery(first.value));
      }
    }

    /** The callback runs once for each publisher known before the answers to the request can arrive. */
    method Discover(topic: string) returns (ok: bool, outs: seq<Out>, calls: seq<Call>, known: seq<Publisher>)
      requires Valid()
      ensures ok == enabled
      ensures ok ==> Lists(known, TopicStorage.OnTopic(View().info, topic))
      ensures Effect(View(), outs, calls) == Protocol.Discover(View(), topic, known)
    {
      outs, calls, known := [], [], [];
      ok := enabled;
      if !enabled {
        return;
      }
      outs := SendMsg(SUBSCRIBE, FillDiscovery(BlankPublisher(kind, topic, pUuid)));
      var found := info.Publishers(topic);
      if found.None? {
        return;
      }
      TopicStorage.GroupedByProc(topic, found.value);
      known := TopicStorage.Flatten(found.value);
      for i := 0 to |known|
        invariant calls == Connects(known[..i])
      {
        assert known[..i + 1] == known[..i] + [known[i]];
        ConnectsAppend(known[..i], known[i]);
        calls := calls + [Connect(known[i])];
      }
      assert known[..|known|] == known;
    }

    method AddRelayAddress(ip: string)
      requires Valid()
      modifies this`relayAddrs
      ensures Valid() && View() == AddRelay(old(View()), ip)
    {
      for i := 0 to |relayAddrs|
        invariant relayAddrs == old(relayAddrs) && ip !in relayAddrs[..i]
      {
        if relayAddrs[i] == ip {
          return;
        }
      }
      relayAddrs := relayAddrs + [ip];
    }

    method UpdateActivity(now: int, later: int) returns (calls: seq<Call>, gone: seq<string>)
      requires Valid()
      modifies this`activity, this`timeNextActivity, info
      ensures Valid()
      ensures now >= old(timeNextActivity) ==> Lists(gone, Expired(old(View()), now))
      ensures Effect(View(), [], calls) == Sweep(old(View()), now, later, gone)
    {
      calls, gone := [], [];
      if now < timeNextActivity {
        return;
      }
      gone := DropSilent(now);
      timeNextActivity := Later(later, activityInterval);
      calls := Report(gone);
    }

    /** Erases from `activity` and `info` while iterating. */
    method DropSilent(now: int) returns (gone: seq<string>)
      requires Valid()
      modifies this`activity, info
      ensures Valid() && Lists(gone, Expired(old(View()), now))
      ensures View() == old(View()).(activity := old(activity) - Expired(old(View()), now),
                                     info := set x | x in old(View()).info && x.pUuid !in Expired(old(View()), now))
    {
      gone := [];
      ghost var before := View();
      var todo := activity.Keys;
      while todo != {}
        invariant Valid() && todo <= before.activity.Keys
        invariant activity == before.activity - (Expired(before, now) - todo)
        invariant info.Contents() == Outlasting(before.info, Expired(before, now) - todo)
        invariant Lists(gone, Expired(before, now) - todo)
      {
        var q :| q in todo;
        DropStep(before, now, todo, q);
        todo := todo - {q};
        var elapsed := now - activity[q];
        if Milliseconds(elapsed) > silenceInterval {
          var removed := info.DelPublishersByProc(q);
          ListsAppend(gone, Expired(before, now) - (todo + {q}), q);
          gone := gone + [q];
          activity := activity - {q};
        }
      }
      assert Expired(before, now) - {} == Expired(before, now);
    }

    method Report(gone: seq<string>) returns (calls: seq<Call>)
      ensures calls == Disconnects(kind, gone)
    {
      calls := [];
      for i := 0 to |gone|
        invariant calls == Disconnects(kind, gone[..i])
      {
        assert gone[..i + 1] == gone[..i] + [gone[i]];
        DisconnectsAppend(kind, gone[..i], gone[i]);
        calls := calls + [Disconnect(BlankPublisher(kind, "", gone[i]))];
      }
      assert gone[..|gone|] == gone;
    }

    method UpdateHeartbeat(now: int, later: int) returns (outs: seq<Out>, own: seq<Publisher>)
      requires Valid()
      modifies this`initialized, this`numHeartbeatsUninitialized, this`timeNextHeartbeat
      ensures Valid()
      ensures now >= old(timeNextHeartbeat) ==> Lists(own, TopicStorage.OfProcess(View().info, pUuid))
      ensures Effect(View(), outs, []) == Heartbeat(old(View()), now, later, own)
    {
      outs, own := [], [];
      if now < timeNextHeartbeat {
        return;
      }
      outs := SendMsg(HEARTBEAT, WirePub("", "", pUuid, "", ALL, NoBody));
      var nodes := info.PublishersByProc(pUuid);
      TopicStorage.GroupedByNodes(nodes, TopicStorage.OfProcess(View().info, pUuid));
      own := TopicStorage.Flatten(nodes);
      var sent := SendEachMsg(ADVERTISE, own);
      outs := outs + sent;
      if !initialized {
        if numHeartbeatsUninitialized == 2 {
          initialized := true;
        }
        numHeartbeatsUninitialized := numHeartbeatsUninitialized + 1;
      }
      timeNextHeartbeat := Later(later, heartbeatInterval);
    }

    method TopicListRequest() returns (outs: seq<Out>)
      requires Valid()
      modifies remoteSubscribers
      ensures Valid()
      ensures Effect(View(), outs, []) == Protocol.TopicListRequest(old(View()))
    {
      remoteSubscribers.Clear();
      outs := SendMsg(SUBSCRIBERS_REQ, WirePub("", "", pUuid, "", ALL, NoBody));
    }

    /** The other half of TopicList, once discovery is initialised: the topics published, then those of the remote
        subscribers that are not among them. */
    method TopicListAnswer() returns (topics: seq<string>)
      requires Valid()
      ensures Lists(topics, TopicStorage.TopicsIn(View().info + View().remoteSubscribers))
    {
      topics := info.TopicList();
      var remoteSubs := remoteSubscribers.TopicList();
      ghost var published := TopicStorage.TopicsIn(View().info);
      for i := 0 to |remoteSubs|
        invariant Lists(topics, published + Elements(remoteSubs[..i]))
      {
        assert remoteSubs[..i + 1] == remoteSubs[..i] + [remoteSubs[i]];
        assert Elements(remoteSubs[..i + 1]) == Elements(remoteSubs[..i]) + {remoteSubs[i]};
        if remoteSubs[i] !in topics {
          ListsAppend(topics, published + Elements(remoteSubs[..i]), remoteSubs[i]);
          topics := topics + [remoteSubs[i]];
        }
        assert published + Elements(remoteSubs[..i + 1]) == published + Elements(remoteSubs[..i]) + {remoteSubs[i]};
      }
      assert remoteSubs[..|remoteSubs|] == remoteSubs;
      assert TopicStorage.TopicsIn(View().info + View().remoteSubscribers)
          == published + TopicStorage.TopicsIn(View().remoteSubscribers);
    }

    /** Forward, note the sender as active, then handle by type. */
    method DispatchDiscoveryMsg(fromIp: string, m: Message, now: int)
      returns (outs: seq<Out>, calls: seq<Call>, answers: seq<Publisher>)
      requires Valid()
      modifies this`activity, this`relayAddrs, info, remoteSubscribers
      ensures Valid()
      ensures AnswersFor(old(View()), fromIp, m, answers) || m.version != wireVersion || m.process == pUuid || m.relay
      ensures Effect(View(), outs, calls) == Dispatch(old(View()), fromIp, m, now, answers)
    {
      outs, calls, answers := [], [], [];
      if m.version != wireVersion || m.process == pUuid {
        return;
      }
      if m.relay {
        outs := [Multicast(m.(relay := false, noRelay := true))];
        AddRelayAddress(fromIp);
        return;
      } else if !m.noRelay {
        outs := [Unicast(m.(relay := true))];
      }
      activity := activity[m.process := now];
      ghost var before := View();
      var replies;
      replies, calls, answers := HandleMsg(fromIp, m);
      outs := outs + replies;
    }

    /** The switch over the message type. */
    method HandleMsg(fromIp: string, m: Message) returns (outs: seq<Out>, calls: seq<Call>, answers: seq<Publisher>)
      requires Valid()
      modifies this`activity, info, remoteSubscribers
      ensures Valid()
      ensures AnswersFor(old(View()), fromIp, m, answers)
      ensures Effect(View(), outs, calls) == Handle(old(View()), fromIp, m, answers)
    {
      outs, calls, answers := [], [], [];
      var pub := SetFromDiscovery(kind, m.sub, m.pub);
      var isSenderLocal := fromIp in hostInterfaces || "127." <= fromIp;
      var inScope := !(pub.Scope() == PROCESS || (pub.Scope() == HOST && !isSenderLocal));
      assert inScope == Admits(View(), fromIp, pub);
      match m.kind {
        case ADVERTISE =>
          if inScope { calls := RecvAdvertise(pub); }
          return;
        case SUBSCRIBE =>
          outs, answers := RecvSubscribe(fromIp, m);
          return;
        case SUBSCRIBERS_REQ =>
          calls := [Subscribers];
          return;
        case SUBSCRIBERS_REP =>
          RecvSubscribersRep(pub);
          return;
        case NEW_CONNECTION =>
          calls := [Register(pub)];
          return;
        case END_CONNECTION =>
          calls := [Unregister(pub)];
          return;
        case BYE =>
          calls := RecvBye(m.process);
          return;
        case UNADVERTISE =>
          if inScope { calls := RecvUnadvertise(pub); }
          return;
        case _ =>
      }
    }

    ghost function OwnOn(topic: string): set<Publisher> reads this, info {
      TopicStorage.OfProcess(TopicStorage.OnTopic(info.Contents(), topic), pUuid)
    }

    method RecvSubscribe(fromIp: string, m: Message) returns (outs: seq<Out>, answers: seq<Publisher>)
      requires Valid()
      ensures AnswersFor(View(), fromIp, m.(kind := SUBSCRIBE), answers)
      ensures outs == if m.sub.None? then [] else SendEach(View(), ADVERTISE, answers)
    {
      outs, answers := [], [];
      if m.sub.Some? {
        var isSenderLocal := fromIp in hostInterfaces || "127." <= fromIp;
        answers := OwnEligible(m.sub.value, isSenderLocal);
        assert Eligible(View(), fromIp, m.sub.value) == Visible(OwnOn(m.sub.value), isSenderLocal);
        outs := SendEachMsg(ADVERTISE, answers);
      }
    }

    method RecvSubscribersRep(pub: Publisher)
      requires Valid()
      modifies remoteSubscribers
      ensures Valid() && View() == old(View()).(remoteSubscribers := Added(old(View()).remoteSubscribers, pub))
    {
      var added := remoteSubscribers.AddPublisher(pub);
    }

    method RecvAdvertise(pub: Publisher) returns (calls: seq<Call>)
      requires Valid()
      modifies info
      ensures Valid() && View() == old(View()).(info := Added(old(View()).info, pub))
      ensures calls == if TopicStorage.HasKey(old(View()).info, pub) then [] else [Connect(pub)]
    {
      var added := Remember(pub);
      calls := if added then [Connect(pub)] else [];
    }

    method RecvBye(process: string) returns (calls: seq<Call>)
      requires Valid()
      modifies this`activity, info
      ensures Valid() && calls == [Disconnect(BlankPublisher(kind, "", process))]
      ensures View() == old(View()).(activity := old(activity) - {process},
                                     info := old(View()).info - TopicStorage.OfProcess(old(View()).info, process))
    {
      activity := activity - {process};
      calls := [Disconnect(BlankPublisher(kind, "", process))];
      var removed := info.DelPublishersByProc(process);
    }

    method RecvUnadvertise(pub: Publisher) returns (calls: seq<Call>)
      requires Valid()
      modifies info
      ensures Valid() && calls == [Disconnect(pub)]
      ensures View() == old(View()).(
                info := old(View()).info - TopicStorage.OfNode(old(View()).info, pub.topic, pub.pUuid, pub.nUuid))
    {
      calls := [Disconnect(pub)];
      var removed := info.DelPublisherByNode(pub.topic, pub.pUuid, pub.nUuid);
    }

    /** The own publishers of a topic that the requester may see, in the order stored. */
    method OwnEligible(topic: string, isSenderLocal: bool) returns (answers: seq<Publisher>)
      requires Valid()
      ensures Lists(answers, Visible(OwnOn(topic), isSenderLocal))
    {
      var found := info.Publishers(topic);
      var own := [];
      if found.Some? {
        TopicStorage.EntriesOfProcess(topic, found.value, pUuid);
        if pUuid in found.value {
          own := found.value[pUuid];
        }
      }
      assert Lists(own, OwnOn(topic));
      answers := FilterVisible(own, OwnOn(topic), isSenderLocal);
    }
  }

  ghost function Visible(pubs: set<Publisher>, isSenderLocal: bool): set<Publisher> {
    set x | x in pubs && x.Scope() != PROCESS && (x.Scope() == HOST ==> isSenderLocal)
  }

  method FilterVisible(own: seq<Publisher>, ghost whole: set<Publisher>, isSenderLocal: bool)
    returns (answers: seq<Publisher>)
    requires Lists(own, whole)
    ensures Lists(answers, Visible(whole, isSenderLocal))
  {
    answers := [];
    for i := 0 to |own|
      invariant Lists(answers, Visible(Elements(own[..i]), isSenderLocal))
    {
      assert own[..i + 1] == own[..i] + [own[i]];
      if own[i].Scope() == PROCESS || (own[i].Scope() == HOST && !isSenderLocal) {
        continue;
      }
      ListsAppend(answers, Visible(Elements(own[..i]), isSenderLocal), own[i]);
      answers := answers + [own[i]];
    }
    assert own[..|own|] == own;
  }
}
