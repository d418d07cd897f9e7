/** What one discovery process tells another, followed from the event at the sender to the effect at the receiver
    (aerozen/discovery.hpp). */
module Exchanges {
  import opened Publishers
  import opened Sequences
  import opened Protocol
  import T = TopicStorage

  /** Written by another process for the same protocol version, and heard in the group. */
  predicate Heeded(r: State, m: Message) {
    m.version == r.version && m.process != r.self && !m.relay
  }

  /** Two processes of one kind that speak the same version. */
  predicate Peers(s: State, r: State) {
    s.self != r.self && s.version == r.version && s.kind == r.kind
  }

  /** What a process may see of a publisher, by the address of the last hop. */
  predicate MaySee(r: State, from: string, x: Publisher) {
    x.details.scope == ALL || (x.details.scope == HOST && (from in r.interfaces || "127." <= from))
  }

  /** A message about this publisher and nothing else. */
  predicate About(m: Message, what: MsgType, x: Publisher) {
    m.kind == what && m.sub == None && m.pub == FillDiscovery(x)
  }

  /** An ADVERTISE stores what the receiver may see and does not yet have, and only this calls back. */
  lemma AdvertiseIsStored(r: State, from: string, m: Message, now: int, answers: seq<Publisher>, x: Publisher)
    requires Heeded(r, m) && About(m, ADVERTISE, x) && Consistent(x) && x.Kind() == r.kind
    ensures var e := Dispatch(r, from, m, now, answers);
            var isNew := MaySee(r, from, x) && !T.HasKey(r.info, x);
            && e.next.info == r.info + (if isNew then {x} else {})
            && e.calls == (if isNew then [Connect(x)] else [])
            && (MaySee(r, from, x) ==> T.HasKey(e.next.info, x))
            && e.next.activity == r.activity[m.process := now]
  {
    WireRoundTrip(x);
  }

  /** An UNADVERTISE in scope takes exactly the entries of that topic, process and node. */
  lemma UnadvertiseIsDropped(r: State, from: string, m: Message, now: int, answers: seq<Publisher>, x: Publisher)
    requires Heeded(r, m) && About(m, UNADVERTISE, x) && Consistent(x) && x.Kind() == r.kind
    ensures var e := Dispatch(r, from, m, now, answers);
            && (forall y :: y in e.next.info <==>
                  y in r.info && !(MaySee(r, from, x)
                                   && y.topic == x.topic && y.pUuid == x.pUuid && y.nUuid == x.nUuid))
            && e.calls == if MaySee(r, from, x) then [Disconnect(x)] else []
  {
    WireRoundTrip(x);
  }

  /** A BYE takes the entries of its process, which is no longer watched for silence, and reports it without a topic. */
  lemma ByeIsDropped(r: State, from: string, m: Message, now: int, answers: seq<Publisher>)
    requires Heeded(r, m) && m.kind == BYE
    ensures var e := Dispatch(r, from, m, now, answers);
            && (forall y :: y in e.next.info <==> y in r.info && y.pUuid != m.process)
            && e.next.activity == r.activity - {m.process}
            && |e.calls| == 1 && e.calls[0].Disconnect?
            && e.calls[0].pub.pUuid == m.process && e.calls[0].pub.topic == "" && e.calls[0].pub.nUuid == ""
  {
  }

  /** Subscribers coming and going are reported as they were sent; the publishers known stay. */
  lemma ConnectionIsReported(r: State, from: string, m: Message, now: int, answers: seq<Publisher>, x: Publisher)
    requires Heeded(r, m) && Consistent(x) && x.Kind() == r.kind
    requires About(m, NEW_CONNECTION, x) || About(m, END_CONNECTION, x)
    ensures var e := Dispatch(r, from, m, now, answers);
            && e.calls == (if m.kind == NEW_CONNECTION then [Register(x)] else [Unregister(x)])
            && e.next == r.(activity := r.activity[m.process := now])
  {
    WireRoundTrip(x);
  }

  /** The question for subscribers is passed to the client, and each answer is kept. */
  lemma SubscribersAreKept(r: State, from: string, m: Message, now: int, answers: seq<Publisher>, x: Publisher)
    requires Heeded(r, m) && Consistent(x) && x.Kind() == r.kind
    ensures var e := Dispatch(r, from, m, now, answers);
            && (m.kind == SUBSCRIBERS_REQ ==> e.calls == [Subscribers])
            && (About(m, SUBSCRIBERS_REP, x) ==>
                  && T.HasKey(e.next.remoteSubscribers, x) && e.calls == []
                  && (!T.HasKey(r.remoteSubscribers, x) ==> e.next.remoteSubscribers == r.remoteSubscribers + {x}))
            && (m.kind == HEARTBEAT ==>
                  e.next == r.(activity := r.activity[m.process := now]) && e.calls == [])
  {
    WireRoundTrip(x);
  }

  /** Messages of this process and of other versions do nothing at all. */
  lemma OthersAreIgnored(r: State, from: string, m: Message, now: int, answers: seq<Publisher>)
    requires m.version != r.version || m.process == r.self
    ensures Dispatch(r, from, m, now, answers) == Effect(r, [], [])
  {
  }

  /** A message from a relay is put in the group, marked so that it goes no further, and its sender is remembered as a
      relay; nothing else happens. One heard in the group goes to the relays exactly when it is not so marked. */
  lemma ForwardingGoesOneHop(r: State, from: string, m: Message, now: int, answers: seq<Publisher>)
    requires m.version == r.version && m.process != r.self
    ensures var e := Dispatch(r, from, m, now, answers);
            && (m.relay ==>
                  && e.outs == [Multicast(m.(relay := false, noRelay := true))] && e.calls == []
                  && e.next == r.(relays := e.next.relays)
                  && forall ip :: ip in e.next.relays <==> ip in r.relays || ip == from)
            && (!m.relay ==> (Unicast(m.(relay := true)) in e.outs <==> !m.noRelay) && e.next.relays == r.relays)
  {
    if !m.relay {
      var s1 := r.(activity := r.activity[m.process := now]);
      var outs := Handle(s1, from, m, answers).outs;
      if Unicast(m.(relay := true)) in outs { AnswersAreOwn(s1, answers, Unicast(m.(relay := true))); }
    }
  }

  lemma {:induction false} AnswersAreOwn(s: State, pubs: seq<Publisher>, o: Out)
    requires o in SendEach(s, ADVERTISE, pubs)
    ensures o.msg.process == s.self
  {
    SendEachMembers(s, ADVERTISE, pubs, o);
  }

  /** A send reaches the group and the relays with the same content, which names the sender. */
  ghost predicate Goes(s: State, outs: seq<Out>, what: MsgType, x: Publisher) {
    exists m :: About(m, what, x) && m.version == s.version && m.process == s.self && !m.relay && !m.noRelay
      && Multicast(m) in outs && Unicast(m.(relay := true)) in outs
  }

  lemma SendGoes(s: State, what: MsgType, x: Publisher)
    requires what != SUBSCRIBE
    ensures Goes(s, Send(s, what, FillDiscovery(x)), what, x)
  {
    var m := Message(s.version, what, s.self, FillDiscovery(x), None, false, false);
    assert Send(s, what, FillDiscovery(x))[0] == Multicast(m);
    assert Send(s, what, FillDiscovery(x))[1] == Unicast(m.(relay := true));
  }

  lemma {:induction false} EachGoes(s: State, what: MsgType, pubs: seq<Publisher>, x: Publisher)
    requires what != SUBSCRIBE && x in pubs
    ensures Goes(s, SendEach(s, what, pubs), what, x)
  {
    if x == pubs[0] {
      SendGoes(s, what, x);
      MoreOutsGo(s, [], Send(s, what, FillDiscovery(x)), SendEach(s, what, pubs[1..]), what, x);
    } else {
      EachGoes(s, what, pubs[1..], x);
      MoreOutsGo(s, Send(s, what, FillDiscovery(pubs[0])), SendEach(s, what, pubs[1..]), [], what, x);
    }
  }

  lemma MoreOutsGo(s: State, before: seq<Out>, outs: seq<Out>, after: seq<Out>, what: MsgType, x: Publisher)
    requires Goes(s, outs, what, x)
    ensures Goes(s, before + outs + after, what, x)
    ensures Goes(s, before + outs, what, x) && Goes(s, outs + after, what, x)
  {
    var m :| About(m, what, x) && m.version == s.version && m.process == s.self && !m.relay && !m.noRelay
             && Multicast(m) in outs && Unicast(m.(relay := true)) in outs;
    assert forall o | o in outs :: o in before + outs + after && o in before + outs && o in outs + after;
  }

  /** An advertisement is stored and announced unless its scope is the process; the client is called back here too. */
  lemma AdvertisementGoes(s: State, x: Publisher)
    requires s.enabled && !T.HasKey(s.info, x)
    ensures Advertise(s, x).next == s.(info := s.info + {x}) && Advertise(s, x).calls == [Connect(x)]
    ensures if x.details.scope == PROCESS then Advertise(s, x).outs == []
            else Goes(s, Advertise(s, x).outs, ADVERTISE, x)
  {
    SendGoes(s, ADVERTISE, x);
  }

  /** Withdrawing takes the node's entries on the topic and no other; `first` is the one found for it. */
  lemma WithdrawalGoes(s: State, topic: string, nUuid: string, first: Publisher)
    requires s.enabled
    requires first in s.info && first.topic == topic && first.pUuid == s.self && first.nUuid == nUuid
    ensures var e := Unadvertise(s, topic, nUuid, Some(first));
            && (forall y :: y in e.next.info <==>
                  y in s.info && !(y.topic == topic && y.pUuid == s.self && y.nUuid == nUuid))
            && (if first.details.scope == PROCESS then e.outs == [] else Goes(s, e.outs, UNADVERTISE, first))
  {
    SendGoes(s, UNADVERTISE, first);
  }

  /** A heartbeat that is due repeats every own publisher, and says that the process is alive. */
  lemma HeartbeatGoes(s: State, now: int, later: int, own: seq<Publisher>, x: Publisher)
    requires now >= s.timeNextHeartbeat && Lists(own, T.OfProcess(s.info, s.self))
    requires x in s.info && x.pUuid == s.self
    ensures Goes(s, Heartbeat(s, now, later, own).outs, ADVERTISE, x)
    ensures exists m: Message :: m.kind == HEARTBEAT && m.process == s.self && m.version == s.version && !m.relay
                        && Multicast(m) in Heartbeat(s, now, later, own).outs
  {
    assert x in Elements(own);
    EachGoes(s, ADVERTISE, own, x);
    MoreOutsGo(s, Send(s, HEARTBEAT, Anonymous(s)), SendEach(s, ADVERTISE, own), [], ADVERTISE, x);
    assert Send(s, HEARTBEAT, Anonymous(s)) + SendEach(s, ADVERTISE, own) == Heartbeat(s, now, later, own).outs;
    assert Send(s, HEARTBEAT, Anonymous(s))[0] in Heartbeat(s, now, later, own).outs;
  }

  /** Asking for the subscribers forgets those known and reaches the client of every peer that hears it. */
  lemma SubscribersAreAsked(s: State, r: State, from: string, now: int, answers: seq<Publisher>) returns (m: Message)
    requires Peers(s, r)
    ensures TopicListRequest(s).next == s.(remoteSubscribers := {})
    ensures Multicast(m) in TopicListRequest(s).outs && Unicast(m.(relay := true)) in TopicListRequest(s).outs
    ensures Heeded(r, m) && Dispatch(r, from, m, now, answers).calls == [Subscribers]
  {
    m := TopicListRequest(s).outs[0].msg;
    assert TopicListRequest(s).outs[1] == Unicast(m.(relay := true));
  }

  /** The farewell of a process that stops reaches its peers, which let go of it. */
  lemma LeavingIsHeeded(s: State, r: State, from: string, now: int, answers: seq<Publisher>) returns (m: Message)
    requires Peers(s, r)
    ensures Multicast(m) in Send(s, BYE, Anonymous(s)) && Unicast(m.(relay := true)) in Send(s, BYE, Anonymous(s))
    ensures forall y | y in Dispatch(r, from, m, now, answers).next.info :: y.pUuid != s.self
    ensures s.self !in Dispatch(r, from, m, now, answers).next.activity
  {
    m := Send(s, BYE, Anonymous(s))[0].msg;
    assert Send(s, BYE, Anonymous(s))[1] == Unicast(m.(relay := true));
    ByeIsDropped(r, from, m, now, answers);
  }

  /** The next one is due exactly one interval, in milliseconds, after the clock is read again. */
  lemma HeartbeatPeriod(s: State, now: int, later: int, own: seq<Publisher>, now': int, later': int,
                        own': seq<Publisher>)
    requires now >= s.timeNextHeartbeat
    ensures var s' := Heartbeat(s, now, later, own).next;
            Heartbeat(s', now', later', own').outs != [] <==> now' >= later + s.heartbeatInterval * 1_000_000
  {
  }

  datatype Beat = Beat(now: int, later: int, own: seq<Publisher>)

  /** Successive heartbeats that were due. */
  ghost predicate Beats(run: seq<State>, beats: seq<Beat>) {
    && |run| == |beats| + 1
    && forall k {:trigger beats[k]} | 0 <= k < |beats| ::
         beats[k].now >= run[k].timeNextHeartbeat
         && run[k + 1] == Heartbeat(run[k], beats[k].now, beats[k].later, beats[k].own).next
  }

  /** Discovery counts as initialised from the third heartbeat on. */
  lemma {:induction false} ThirdBeatInitializes(run: seq<State>, beats: seq<Beat>, k: nat)
    requires Beats(run, beats) && k < |run| && !run[0].initialized && run[0].heartbeats == 0
    ensures run[k].initialized <==> k >= 3
    ensures run[k].heartbeats == if k < 3 then k else 3
  {
    if k > 0 {
      ThirdBeatInitializes(run, beats, k - 1);
      assert beats[k - 1].now >= run[k - 1].timeNextHeartbeat;
    }
  }

  /** A question for a topic goes to the group and the relays, and its asker is called back at once for each publisher
      of the topic that it knows already. */
  lemma QuestionGoes(s: State, topic: string, known: seq<Publisher>) returns (m: Message)
    requires s.enabled && Lists(known, T.OnTopic(s.info, topic))
    ensures m.kind == SUBSCRIBE && m.sub == Some(topic) && m.process == s.self && m.version == s.version
    ensures !m.relay && !m.noRelay
    ensures Multicast(m) in Discover(s, topic, known).outs
    ensures Unicast(m.(relay := true)) in Discover(s, topic, known).outs
    ensures forall y :: Connect(y) in Discover(s, topic, known).calls <==> y in s.info && y.topic == topic
    ensures |Discover(s, topic, known).calls| == |T.OnTopic(s.info, topic)|
  {
    var outs := Discover(s, topic, known).outs;
    m := outs[0].msg;
    assert outs[1] == Unicast(m.(relay := true));
    ConnectsEach(known);
    assert forall y :: y in Elements(known) <==> y in known;
    ListsCount(known, T.OnTopic(s.info, topic));
  }

  lemma {:induction false} ConnectsEach(pubs: seq<Publisher>)
    ensures |Connects(pubs)| == |pubs| && forall i | 0 <= i < |pubs| :: Connects(pubs)[i] == Connect(pubs[i])
    ensures forall y :: Connect(y) in Connects(pubs) <==> y in pubs
  {
    if pubs != [] { ConnectsEach(pubs[1..]); }
  }

  /** It is answered with each own publisher of the topic that the asker's address may see. */
  lemma QuestionIsAnswered(r: State, from: string, m: Message, now: int, answers: seq<Publisher>, x: Publisher)
    requires Heeded(r, m) && m.kind == SUBSCRIBE && m.sub == Some(x.topic) && AnswersFor(r, from, m, answers)
    requires x in r.info && x.pUuid == r.self && MaySee(r, from, x)
    ensures var e := Dispatch(r, from, m, now, answers);
            Goes(r, e.outs, ADVERTISE, x) && e.next == r.(activity := r.activity[m.process := now]) && e.calls == []
  {
    var s1 := r.(activity := r.activity[m.process := now]);
    var forward := if m.noRelay then [] else [Unicast(m.(relay := true))];
    assert Dispatch(r, from, m, now, answers).outs == forward + SendEach(s1, ADVERTISE, answers);
    assert x in Eligible(r, from, x.topic) && x in Elements(answers);
    EachGoes(s1, ADVERTISE, answers, x);
    MoreOutsGo(s1, forward, SendEach(s1, ADVERTISE, answers), [], ADVERTISE, x);
  }

  /** And with nothing else. */
  lemma OnlyAnswersAreSent(r: State, from: string, m: Message, now: int, answers: seq<Publisher>, o: Out)
    returns (x: Publisher)
    requires Heeded(r, m) && m.kind == SUBSCRIBE && m.sub.Some? && AnswersFor(r, from, m, answers)
    requires o in Dispatch(r, from, m, now, answers).outs && o != Unicast(m.(relay := true))
    ensures x in r.info && x.pUuid == r.self && x.topic == m.sub.value && MaySee(r, from, x)
    ensures About(o.msg, ADVERTISE, x)
  {
    var s1 := r.(activity := r.activity[m.process := now]);
    assert o in SendEach(s1, ADVERTISE, answers);
    SendEachMembers(s1, ADVERTISE, answers, o);
    x :| x in answers && o in Send(s1, ADVERTISE, FillDiscovery(x));
    assert x in Elements(answers) && x in Eligible(r, from, m.sub.value);
  }

  /** Whoever hears the message has the publisher afterwards, if its address may see it, and is called back exactly when
      it did not have it. */
  ghost predicate Teaches(m: Message, r: State, x: Publisher) {
    forall from: string, now: int, answers: seq<Publisher> {:trigger Dispatch(r, from, m, now, answers)}
      | MaySee(r, from, x) ::
      var e := Dispatch(r, from, m, now, answers);
      if T.HasKey(r.info, x) then e.next.info == r.info && e.calls == []
      else e.next.info == r.info + {x} && e.calls == [Connect(x)]
  }

  ghost predicate Untaught(m: Message, r: State, x: Publisher) {
    forall from: string, now: int, answers: seq<Publisher> {:trigger Dispatch(r, from, m, now, answers)}
      | MaySee(r, from, x) ::
      forall y | y in Dispatch(r, from, m, now, answers).next.info ::
        !(y.topic == x.topic && y.pUuid == x.pUuid && y.nUuid == x.nUuid)
  }

  lemma AboutTeaches(m: Message, r: State, x: Publisher)
    requires Heeded(r, m) && Consistent(x) && x.Kind() == r.kind
    ensures About(m, ADVERTISE, x) ==> Teaches(m, r, x)
    ensures About(m, UNADVERTISE, x) ==> Untaught(m, r, x)
  {
    forall from: string, now: int, answers: seq<Publisher> | About(m, ADVERTISE, x) && MaySee(r, from, x)
      ensures var e := Dispatch(r, from, m, now, answers);
              if T.HasKey(r.info, x) then e.next.info == r.info && e.calls == []
              else e.next.info == r.info + {x} && e.calls == [Connect(x)]
    {
      AdvertiseIsStored(r, from, m, now, answers, x);
    }
    forall from: string, now: int, answers: seq<Publisher> | About(m, UNADVERTISE, x) && MaySee(r, from, x)
      ensures forall y | y in Dispatch(r, from, m, now, answers).next.info ::
                !(y.topic == x.topic && y.pUuid == x.pUuid && y.nUuid == x.nUuid)
    {
      UnadvertiseIsDropped(r, from, m, now, answers, x);
    }
  }

  /** What goes is learned, or forgotten, by every process of the group that hears it; and by every process of a
      relay's group, when the relay puts in its group what it was sent. */
  lemma WhatGoesArrives(s: State, outs: seq<Out>, what: MsgType, x: Publisher, r: State) returns (m: Message)
    requires Peers(s, r) && Goes(s, outs, what, x) && Consistent(x) && x.Kind() == s.kind
    requires what == ADVERTISE || what == UNADVERTISE
    ensures Multicast(m) in outs && if what == ADVERTISE then Teaches(m, r, x) else Untaught(m, r, x)
  {
    m :| About(m, what, x) && m.version == s.version && m.process == s.self && !m.relay && !m.noRelay
         && Multicast(m) in outs && Unicast(m.(relay := true)) in outs;
    AboutTeaches(m, r, x);
  }

  lemma WhatGoesArrivesByRelay(s: State, outs: seq<Out>, what: MsgType, x: Publisher, relay: State, from: string,
                               now: int, answers: seq<Publisher>, r: State)
    returns (sent: Message, passed: Message)
    requires Peers(s, relay) && Peers(s, r) && Goes(s, outs, what, x) && Consistent(x) && x.Kind() == s.kind
    requires what == ADVERTISE || what == UNADVERTISE
    ensures Unicast(sent) in outs && Multicast(passed) in Dispatch(relay, from, sent, now, answers).outs
    ensures if what == ADVERTISE then Teaches(passed, r, x) else Untaught(passed, r, x)
  {
    var m :| About(m, what, x) && m.version == s.version && m.process == s.self && !m.relay && !m.noRelay
             && Multicast(m) in outs && Unicast(m.(relay := true)) in outs;
    sent, passed := m.(relay := true), m.(noRelay := true);
    ForwardingGoesOneHop(relay, from, sent, now, answers);
    AboutTeaches(passed, r, x);
  }

  /** Discovery works: a process that asks for a topic is told of each publisher of it that a peer owns and the asker's
      address may see, and what it is told makes every peer of the owner learn that publisher, the asker among them. */
  lemma AskingFinds(asker: State, known: seq<Publisher>, owner: State, from: string, now: int, answers: seq<Publisher>,
                    x: Publisher, r: State)
    returns (question: Message, answer: Message)
    requires asker.enabled && Lists(known, T.OnTopic(asker.info, x.topic))
    requires Peers(asker, owner) && Peers(owner, r)
    requires x in owner.info && x.pUuid == owner.self && MaySee(owner, from, x)
    requires Consistent(x) && x.Kind() == owner.kind
    ensures Multicast(question) in Discover(asker, x.topic, known).outs
    ensures AnswersFor(owner, from, question, answers) ==>
              Multicast(answer) in Dispatch(owner, from, question, now, answers).outs && Teaches(answer, r, x)
  {
    question := QuestionGoes(asker, x.topic, known);
    answer := question;
    if AnswersFor(owner, from, question, answers) {
      QuestionIsAnswered(owner, from, question, now, answers, x);
      answer := WhatGoesArrives(owner, Dispatch(owner, from, question, now, answers).outs, ADVERTISE, x, r);
    }
  }
}
