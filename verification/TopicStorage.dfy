/** aerozen/topic_storage.hpp: topic -> process -> vector of publishers, refining a flat set of publishers. */
module TopicStorage {
  import opened Publishers
  import opened Sequences

  type Procs = map<string, seq<Publisher>>
  type Data = map<string, Procs>

  /** A vector sits under its own topic and process, is not empty, and holds each key once. */
  ghost predicate VectorOk(topic: string, pUuid: string, v: seq<Publisher>) {
    && v != []
    && (forall x | x in v :: x.topic == topic && x.pUuid == pUuid)
    && (forall i, j | 0 <= i < j < |v| :: !SameKey(v[i], v[j]))
  }

  ghost predicate ProcsOk(topic: string, m: Procs) {
    forall p | p in m :: VectorOk(topic, p, m[p])
  }

  /** The shape every operation keeps. Presence tests are right only because no level is ever empty. */
  ghost predicate WellFormed(d: Data) {
    forall t | t in d :: d[t] != map[] && ProcsOk(t, d[t])
  }

  ghost predicate Has(d: Data, x: Publisher) {
    x.topic in d && x.pUuid in d[x.topic] && x in d[x.topic][x.pUuid]
  }

  /** The flat set that the nested map stands for. */
  ghost function Entries(d: Data): set<Publisher> {
    set t, p, x | t in d && p in d[t] && x in d[t][p] :: x
  }

  ghost predicate HasKey(entries: set<Publisher>, pub: Publisher) {
    exists y | y in entries :: SameKey(y, pub)
  }

  ghost predicate DistinctKeys(entries: set<Publisher>) {
    forall x, y | x in entries && y in entries && SameKey(x, y) :: x == y
  }

  lemma EntriesAreHad(d: Data)
    requires WellFormed(d)
    ensures forall x :: x in Entries(d) <==> Has(d, x)
  {
  }

  lemma EntriesHaveDistinctKeys(d: Data)
    requires WellFormed(d)
    ensures DistinctKeys(Entries(d))
  {
  }

  /** No topic is kept without an entry: what HasTopic and Publishers answer from. */
  lemma TopicHasEntry(d: Data, t: string)
    requires WellFormed(d)
    ensures t in d <==> OnTopic(Entries(d), t) != {}
  {
    EntriesAreHad(d);
    if t in d {
      var p :| p in d[t];
      assert VectorOk(t, p, d[t][p]);
      var x := d[t][p][0];
      assert Has(d, x) && x in OnTopic(Entries(d), t);
    }
  }

  lemma ProcHasEntry(d: Data, t: string, p: string)
    requires WellFormed(d)
    ensures (t in d && p in d[t]) <==> OfProcess(OnTopic(Entries(d), t), p) != {}
  {
    EntriesAreHad(d);
    if t in d && p in d[t] {
      assert VectorOk(t, p, d[t][p]);
      var x := d[t][p][0];
      assert Has(d, x) && x in OfProcess(OnTopic(Entries(d), t), p);
    }
  }

  ghost function TopicsIn(entries: set<Publisher>): set<string> {
    set x | x in entries :: x.topic
  }

  lemma TopicsAreKeys(d: Data)
    requires WellFormed(d)
    ensures d.Keys == TopicsIn(Entries(d))
  {
    forall t ensures t in d <==> t in TopicsIn(Entries(d)) {
      TopicHasEntry(d, t);
      if t in d {
        assert OnTopic(Entries(d), t) != {};
        var x :| x in OnTopic(Entries(d), t);
      }
    }
  }

  /** The storage with the vector of one process replaced, empty levels pruned. */
  ghost function Put(d: Data, t: string, p: string, v: seq<Publisher>): Data {
    var m := if t in d then d[t] else map[];
    var m' := if v == [] then m - {p} else m[p := v];
    if m' == map[] then d - {t} else d[t := m']
  }

  lemma PutEntries(d: Data, t: string, p: string, v: seq<Publisher>)
    requires WellFormed(d) && (v == [] || VectorOk(t, p, v))
    ensures WellFormed(Put(d, t, p, v))
    ensures Entries(Put(d, t, p, v)) == Entries(d) - OfProcess(OnTopic(Entries(d), t), p) + set x | x in v
  {
    var d' := Put(d, t, p, v);
    var m := if t in d then d[t] else map[];
    var m' := if v == [] then m - {p} else m[p := v];
    assert ProcsOk(t, m');
    EntriesAreHad(d);
    EntriesAreHad(d');
    forall x ensures Has(d', x) <==> if x.topic == t && x.pUuid == p then x in v else Has(d, x) {
      if x.topic == t {
        assert t in d' <==> m' != map[];
        assert Has(d', x) <==> x.pUuid in m' && x in m'[x.pUuid];
      } else {
        assert x.topic in d' <==> x.topic in d;
      }
    }
  }

  /** std::remove_if by node UUID. */
  function WithoutNode(v: seq<Publisher>, nUuid: string): (r: seq<Publisher>)
    ensures forall x :: x in r <==> x in v && x.nUuid != nUuid
    ensures |r| <= |v| && (|r| == |v| <==> forall x | x in v :: x.nUuid != nUuid)
  {
    if v == [] then []
    else
      assert v == [v[0]] + v[1..];
      var rest := WithoutNode(v[1..], nUuid);
      if v[0].nUuid == nUuid then rest else [v[0]] + rest
  }

  lemma {:induction false} WithoutNodeKeepsDistinct(v: seq<Publisher>, nUuid: string)
    requires forall i, j | 0 <= i < j < |v| :: !SameKey(v[i], v[j])
    ensures forall i, j | 0 <= i < j < |WithoutNode(v, nUuid)| ::
              !SameKey(WithoutNode(v, nUuid)[i], WithoutNode(v, nUuid)[j])
  {
    if v != [] {
      var rest := WithoutNode(v[1..], nUuid);
      WithoutNodeKeepsDistinct(v[1..], nUuid);
      forall j | 0 <= j < |rest| ensures !SameKey(v[0], rest[j]) {
        assert rest[j] in v[1..];
      }
    }
  }

  /** The part of the storage under one topic. */
  ghost function OnTopic(entries: set<Publisher>, topic: string): set<Publisher> {
    set x | x in entries && x.topic == topic
  }

  ghost function OfProcess(entries: set<Publisher>, pUuid: string): set<Publisher> {
    set x | x in entries && x.pUuid == pUuid
  }

  ghost function OfNode(entries: set<Publisher>, topic: string, pUuid: string, nUuid: string): set<Publisher> {
    set x | x in entries && x.topic == topic && x.pUuid == pUuid && x.nUuid == nUuid
  }

  /** The entries of a process under the topics visited, once only those of `todo` are left. */
  ghost function Erased(d: Data, todo: set<string>, pUuid: string): set<Publisher> {
    set x | x in Entries(d) && x.topic !in todo && x.pUuid == pUuid
  }

  lemma ErasedGrows(before: Data, todo: set<string>, pUuid: string, t: string)
    requires WellFormed(before) && t in todo && t in before
    ensures Erased(before, todo - {t}, pUuid)
         == Erased(before, todo, pUuid) + OfProcess(OnTopic(Entries(before), t), pUuid)
    ensures OfProcess(OnTopic(Entries(before), t), pUuid) != {} <==> pUuid in before[t]
  {
    ProcHasEntry(before, t, pUuid);
  }

  lemma EraseStep(before: Data, d: Data, todo: set<string>, pUuid: string, t: string)
    requires WellFormed(before) && WellFormed(d) && t in todo && todo <= before.Keys
    requires forall u | u in todo :: u in d && d[u] == before[u]
    requires Entries(d) == Entries(before) - Erased(before, todo, pUuid)
    ensures WellFormed(Put(d, t, pUuid, []))
    ensures Entries(Put(d, t, pUuid, [])) == Entries(before) - Erased(before, todo - {t}, pUuid)
    ensures Erased(before, todo - {t}, pUuid) != {} <==> Erased(before, todo, pUuid) != {} || pUuid in d[t]
  {
    ErasedGrows(before, todo, pUuid, t);
    PutEntries(d, t, pUuid, []);
    assert OfProcess(OnTopic(Entries(d), t), pUuid) == OfProcess(OnTopic(Entries(before), t), pUuid);
  }

  /** The std::find_if of AddPublisher. */
  predicate HoldsKey(v: seq<Publisher>, pub: Publisher) {
    exists i | 0 <= i < |v| :: v[i].addr == pub.addr && v[i].nUuid == pub.nUuid
  }

  function VectorOf(d: Data, topic: string, pUuid: string): seq<Publisher> {
    if topic in d && pUuid in d[topic] then d[topic][pUuid] else []
  }

  lemma KeyIsHeld(d: Data, pub: Publisher, y: Publisher)
    requires WellFormed(d) && y in Entries(d) && SameKey(y, pub)
    ensures HoldsKey(VectorOf(d, pub.topic, pub.pUuid), pub)
  {
    EntriesAreHad(d);
    var v := VectorOf(d, pub.topic, pub.pUuid);
    assert Has(d, y) && y in v;
    var i :| 0 <= i < |v| && v[i] == y;
  }

  lemma HeldIsKey(d: Data, pub: Publisher)
    requires WellFormed(d) && HoldsKey(VectorOf(d, pub.topic, pub.pUuid), pub)
    ensures HasKey(Entries(d), pub)
  {
    EntriesAreHad(d);
    var v := VectorOf(d, pub.topic, pub.pUuid);
    var i :| 0 <= i < |v| && v[i].addr == pub.addr && v[i].nUuid == pub.nUuid;
    assert VectorOk(pub.topic, pub.pUuid, v);
    assert Has(d, v[i]) && SameKey(v[i], pub);
  }

  lemma VectorHolds(d: Data, pub: Publisher)
    requires WellFormed(d)
    ensures HasKey(Entries(d), pub) <==> HoldsKey(VectorOf(d, pub.topic, pub.pUuid), pub)
  {
    if y :| y in Entries(d) && SameKey(y, pub) { KeyIsHeld(d, pub, y); }
    if HoldsKey(VectorOf(d, pub.topic, pub.pUuid), pub) { HeldIsKey(d, pub); }
  }

  lemma AddStep(d: Data, pub: Publisher)
    requires WellFormed(d) && !HoldsKey(VectorOf(d, pub.topic, pub.pUuid), pub)
    ensures var m := if pub.topic in d then d[pub.topic] else map[];
            var d' := d[pub.topic := m[pub.pUuid := VectorOf(d, pub.topic, pub.pUuid) + [pub]]];
            WellFormed(d') && Entries(d') == Entries(d) + {pub}
  {
    var v := VectorOf(d, pub.topic, pub.pUuid);
    assert v == [] || VectorOk(pub.topic, pub.pUuid, v);
    assert VectorOk(pub.topic, pub.pUuid, v + [pub]);
    PutEntries(d, pub.topic, pub.pUuid, v + [pub]);
    assert pub.pUuid in (if pub.topic in d then d[pub.topic] else map[])[pub.pUuid := v + [pub]];
    assert OfProcess(OnTopic(Entries(d), pub.topic), pub.pUuid) == set x | x in v by {
      EntriesAreHad(d);
    }
  }

  lemma VectorIs(d: Data, t: string, p: string)
    requires WellFormed(d)
    ensures Elements(VectorOf(d, t, p)) == OfProcess(OnTopic(Entries(d), t), p)
    ensures forall i, j | 0 <= i < j < |VectorOf(d, t, p)| :: !SameKey(VectorOf(d, t, p)[i], VectorOf(d, t, p)[j])
  {
    EntriesAreHad(d);
    var v := VectorOf(d, t, p);
    assert v != [] ==> VectorOk(t, p, v);
    forall x ensures x in v <==> x in OfProcess(OnTopic(Entries(d), t), p) {
      assert x in Entries(d) <==> Has(d, x);
    }
  }

  lemma NodeOfVector(d: Data, t: string, p: string, n: string)
    requires WellFormed(d)
    ensures var w := VectorOf(d, t, p);
            Elements(WithoutNode(w, n)) == Elements(w) - OfNode(Entries(d), t, p, n)
            && (|WithoutNode(w, n)| < |w| <==> OfNode(Entries(d), t, p, n) != {})
  {
    VectorIs(d, t, p);
    var w := VectorOf(d, t, p);
    assert forall x :: x in OfNode(Entries(d), t, p, n) <==> x in w && x.nUuid == n by {
      assert forall x :: x in Elements(w) <==> x in w;
    }
  }

  /** Erasing the publishers of one node from its vector. */
  lemma DropStep(d: Data, t: string, p: string, n: string)
    requires WellFormed(d)
    ensures t !in d || p !in d[t] ==> OfNode(Entries(d), t, p, n) == {}
    ensures t in d && p in d[t] ==>
              var v := WithoutNode(d[t][p], n);
              && WellFormed(Put(d, t, p, v)) && Entries(Put(d, t, p, v)) == Entries(d) - OfNode(Entries(d), t, p, n)
              && (|v| < |d[t][p]| <==> OfNode(Entries(d), t, p, n) != {})
  {
    NodeOfVector(d, t, p, n);
    var w := VectorOf(d, t, p);
    if t in d && p in d[t] {
      VectorIs(d, t, p);
      WithoutNodeKeepsDistinct(w, n);
      assert VectorOk(t, p, w);
      PutEntries(d, t, p, WithoutNode(w, n));
    }
  }

  class TopicStorage {
    var data: Data

    ghost predicate Valid() reads this {
      WellFormed(data)
    }

    ghost function Contents(): set<Publisher> reads this {
      Entries(data)
    }

    constructor ()
      ensures Valid() && Contents() == {}
    {
      data := map[];
    }

    method AddPublisher(pub: Publisher) returns (added: bool)
      requires Valid()
      modifies this
      ensures Valid()
      ensures added <==> !exists y :: y in old(Contents()) && y.topic == pub.topic && y.pUuid == pub.pUuid
                                      && y.addr == pub.addr && y.nUuid == pub.nUuid
      ensures Contents() == old(Contents()) + if added then {pub} else {}
    {
      VectorHolds(data, pub);
      var m := if pub.topic in data then data[pub.topic] else map[];
      var v := if pub.pUuid in m then m[pub.pUuid] else [];
      if HoldsKey(v, pub) {
        return false;
      }
      AddStep(data, pub);
      data := data[pub.topic := m[pub.pUuid := v + [pub]]];
      added := true;
    }

    method HasTopic(topic: string) returns (found: bool)
      requires Valid()
      ensures found <==> OnTopic(Contents(), topic) != {}
    {
      TopicHasEntry(data, topic);
      found := topic in data;
    }

    method HasTopicOfType(topic: string, msgType: string) returns (found: bool)
      requires Valid()
      requires forall x | x in Contents() :: x.Kind() == MsgKind
      ensures found <==> exists x | x in OnTopic(Contents(), topic) ::
                           x.Kind() == MsgKind && (x.details.msgType == msgType
                                                   || x.details.msgType == GENERIC_MESSAGE_TYPE)
    {
      EntriesAreHad(data);
      if topic !in data {
        return false;
      }
      var m := data[topic];
      found := exists p | p in m :: exists i | 0 <= i < |m[p]| ::
        assert m[p][i] in Contents();
        m[p][i].details.msgType == msgType || m[p][i].details.msgType == GENERIC_MESSAGE_TYPE;
      if found {
        ghost var p, i :| p in m && 0 <= i < |m[p]| && m[p][i] in Contents() &&
          (m[p][i].details.msgType == msgType || m[p][i].details.msgType == GENERIC_MESSAGE_TYPE);
        assert VectorOk(topic, p, m[p]) && m[p][i] in OnTopic(Contents(), topic);
      }
    }

    method HasAnyPublishers(topic: string, pUuid: string) returns (found: bool)
      requires Valid()
      ensures found <==> OfProcess(OnTopic(Contents(), topic), pUuid) != {}
    {
      ProcHasEntry(data, topic, pUuid);
      found := topic in data && pUuid in data[topic];
    }

    method HasPublisher(addr: string) returns (found: bool)
      requires Valid()
      ensures found <==> exists x | x in Contents() :: x.addr == addr
    {
      EntriesAreHad(data);
      found := exists t | t in data :: exists p | p in data[t] :: exists i | 0 <= i < |data[t][p]| ::
        data[t][p][i].addr == addr;
    }

    /** The first publisher of the node, when it has any. */
    method FindPublisher(topic: string, pUuid: string, nUuid: string) returns (pub: Option<Publisher>)
      requires Valid()
      ensures pub.None? <==> OfNode(Contents(), topic, pUuid, nUuid) == {}
      ensures pub.Some? ==> pub.value in OfNode(Contents(), topic, pUuid, nUuid)
    {
      EntriesAreHad(data);
      if topic !in data || pUuid !in data[topic] {
        return None;
      }
      var v := data[topic][pUuid];
      assert VectorOk(topic, pUuid, v);
      for i := 0 to |v|
        invariant forall j | 0 <= j < i :: v[j].nUuid != nUuid
      {
        if v[i].nUuid == nUuid {
          assert Has(data, v[i]) && v[i] in OfNode(Contents(), topic, pUuid, nUuid);
          return Some(v[i]);
        }
      }
      return None;
    }

    /** The map handed out is the storage's own submap: regrouping it gives exactly the topic's entries. */
    method Publishers(topic: string) returns (info: Option<Procs>)
      requires Valid()
      ensures info.None? <==> OnTopic(Contents(), topic) == {}
      ensures info.Some? ==>
                ProcsOk(topic, info.value) && Entries(map[topic := info.value]) == OnTopic(Contents(), topic)
    {
      TopicHasEntry(data, topic);
      if topic !in data {
        return None;
      }
      info := Some(data[topic]);
      var single := map[topic := data[topic]];
      EntriesAreHad(data);
      EntriesAreHad(single);
    }

    method DelPublisherByNode(topic: string, pUuid: string, nUuid: string) returns (removed: bool)
      requires Valid()
      modifies this
      ensures Valid()
      ensures Contents() == old(Contents()) - OfNode(old(Contents()), topic, pUuid, nUuid)
      ensures removed <==> OfNode(old(Contents()), topic, pUuid, nUuid) != {}
    {
      DropStep(data, topic, pUuid, nUuid);
      if topic !in data || pUuid !in data[topic] {
        return false;
      }
      var m := data[topic];
      var v := WithoutNode(m[pUuid], nUuid);
      removed := |v| < |m[pUuid]|;
      m := if v == [] then m - {pUuid} else m[pUuid := v];
      data := if m == map[] then data - {topic} else data[topic := m];
    }

    /** Erases the process under every topic, dropping each topic that becomes empty, while iterating. */
    method DelPublishersByProc(pUuid: string) returns (removed: bool)
      requires Valid()
      modifies this
      ensures Valid()
      ensures Contents() == old(Contents()) - OfProcess(old(Contents()), pUuid)
      ensures removed <==> OfProcess(old(Contents()), pUuid) != {}
    {
      ghost var before := data;
      var todo := data.Keys;
      removed := false;
      assert Erased(before, todo, pUuid) == {} by { EntriesAreHad(before); }
      while todo != {}
        invariant todo <= before.Keys && Valid()
        invariant forall t | t in todo :: t in data && data[t] == before[t]
        invariant Contents() == Entries(before) - Erased(before, todo, pUuid)
        invariant removed <==> Erased(before, todo, pUuid) != {}
      {
        var t :| t in todo;
        EraseStep(before, data, todo, pUuid, t);
        var m := data[t];
        removed := removed || pUuid in m;
        m := m - {pUuid};
        data := if m == map[] then data - {t} else data[t := m];
        todo := todo - {t};
      }
      assert Erased(before, {}, pUuid) == OfProcess(Entries(before), pUuid);
    }

    /** Regroups by node what one process publishes; each entry appears once, under its own node. */
    method PublishersByProc(pUuid: string) returns (pubs: map<string, seq<Publisher>>)
      requires Valid()
      ensures GroupedByNode(pubs, OfProcess(Contents(), pUuid))
    {
      pubs := map[];
      var todo := data.Keys;
      assert Erased(data, todo, pUuid) == {} by { EntriesAreHad(data); }
      while todo != {}
        invariant todo <= data.Keys
        invariant GroupedByNode(pubs, Erased(data, todo, pUuid))
      {
        var t :| t in todo;
        ErasedGrows(data, todo, pUuid, t);
        if pUuid in data[t] {
          VectorIs(data, t, pUuid);
          pubs := AppendVector(pubs, Erased(data, todo, pUuid), data[t][pUuid]);
        }
        todo := todo - {t};
      }
      assert Erased(data, {}, pUuid) == OfProcess(Contents(), pUuid);
    }

    static method AppendVector(pubs0: map<string, seq<Publisher>>, ghost seen: set<Publisher>, v: seq<Publisher>)
      returns (pubs: map<string, seq<Publisher>>)
      requires GroupedByNode(pubs0, seen) && forall x | x in v :: x !in seen
      requires forall i, j | 0 <= i < j < |v| :: v[i] != v[j]
      ensures GroupedByNode(pubs, seen + Elements(v))
    {
      pubs := pubs0;
      assert seen + Elements(v[..0]) == seen;
      for i := 0 to |v|
        invariant GroupedByNode(pubs, seen + Elements(v[..i]))
      {
        assert v[..i + 1] == v[..i] + [v[i]];
        assert seen + Elements(v[..i + 1]) == seen + Elements(v[..i]) + {v[i]};
        pubs := AppendByNode(pubs, seen + Elements(v[..i]), v[i]);
      }
      assert v[..|v|] == v;
    }

    /** The entries of one node of one process, each once. */
    method PublishersByNode(pUuid: string, nUuid: string) returns (pubs: seq<Publisher>)
      requires Valid()
      ensures Lists(pubs, set x | x in Contents() && x.pUuid == pUuid && x.nUuid == nUuid)
    {
      var grouped := PublishersByProc(pUuid);
      return if nUuid in grouped then grouped[nUuid] else [];
    }

    method TopicList() returns (topics: seq<string>)
      requires Valid()
      ensures Lists(topics, TopicsIn(Contents()))
    {
      topics := [];
      var todo := data.Keys;
      while todo != {}
        invariant todo <= data.Keys
        invariant Lists(topics, data.Keys - todo)
      {
        var t :| t in todo;
        ListsAppend(topics, data.Keys - todo, t);
        todo := todo - {t};
        topics := topics + [t];
        assert data.Keys - todo == data.Keys - (todo + {t}) + {t};
      }
      TopicsAreKeys(data);
    }

    method Clear()
      modifies this
      ensures Valid() && Contents() == {}
    {
      data := map[];
    }
  }

  ghost predicate GroupedByNode(pubs: map<string, seq<Publisher>>, whole: set<Publisher>) {
    && (forall n | n in pubs :: pubs[n] != [] && Lists(pubs[n], set x | x in whole && x.nUuid == n))
    && (forall x | x in whole :: x.nUuid in pubs)
  }

  function AppendByNode(pubs: map<string, seq<Publisher>>, ghost whole: set<Publisher>,
                        x: Publisher): (r: map<string, seq<Publisher>>)
    requires GroupedByNode(pubs, whole) && x !in whole
    ensures GroupedByNode(r, whole + {x})
  {
    var r := pubs[x.nUuid := (if x.nUuid in pubs then pubs[x.nUuid] else []) + [x]];
    assert forall n | n in r :: Lists(r[n], set y | y in whole + {x} && y.nUuid == n) by {
      forall n | n in r ensures Lists(r[n], set y | y in whole + {x} && y.nUuid == n) {
        var group := set y | y in whole && y.nUuid == n;
        var group' := set y | y in whole + {x} && y.nUuid == n;
        if n == x.nUuid {
          assert n !in pubs ==> group == {};
          ListsAppend(if n in pubs then pubs[n] else [], group, x);
          assert group' == group + {x};
        } else {
          assert group' == group;
        }
      }
    }
    r
  }

  /** Groups that share no element and repeat none. */
  ghost predicate Disjoint(groups: map<string, seq<Publisher>>) {
    && (forall k | k in groups :: NoRepeats(groups[k]))
    && (forall k, l, x | k in groups && l in groups && x in groups[k] && x in groups[l] :: k == l)
  }

  ghost function Union(groups: map<string, seq<Publisher>>, keys: set<string>): set<Publisher> {
    set k, x | k in keys && k in groups && x in groups[k] :: x
  }

  method Flatten(groups: map<string, seq<Publisher>>) returns (all: seq<Publisher>)
    requires Disjoint(groups)
    ensures Lists(all, Union(groups, groups.Keys))
  {
    all := [];
    var todo := groups.Keys;
    while todo != {}
      invariant todo <= groups.Keys
      invariant Lists(all, Union(groups, groups.Keys - todo))
    {
      var k :| k in todo;
      ConcatLists(all, Union(groups, groups.Keys - todo), groups[k]);
      assert Union(groups, groups.Keys - (todo - {k})) == Union(groups, groups.Keys - todo) + Elements(groups[k]);
      all := all + groups[k];
      todo := todo - {k};
    }
  }

  lemma GroupedByProc(topic: string, m: Procs)
    requires ProcsOk(topic, m)
    ensures Disjoint(m) && Union(m, m.Keys) == Entries(map[topic := m])
  {
    forall k | k in m ensures NoRepeats(m[k]) {
      assert VectorOk(topic, k, m[k]);
      forall i, j | 0 <= i < j < |m[k]| ensures m[k][i] != m[k][j] { assert !SameKey(m[k][i], m[k][j]); }
    }
    forall k, l, x | k in m && l in m && x in m[k] && x in m[l] ensures k == l {
      assert VectorOk(topic, k, m[k]) && VectorOk(topic, l, m[l]);
    }
    var single := map[topic := m];
    forall x ensures x in Union(m, m.Keys) <==> x in Entries(single) {
      if x in Entries(single) {
        var t, p :| t in single && p in single[t] && x in single[t][p];
        assert p in m && x in m[p];
      }
      if x in Union(m, m.Keys) {
        var p :| p in m && x in m[p];
        assert topic in single && p in single[topic] && x in single[topic][p];
      }
    }
  }

  /** The vector of a process is its part of the topic's entries, each listed once. */
  lemma EntriesOfProcess(topic: string, m: Procs, pUuid: string)
    requires ProcsOk(topic, m)
    ensures pUuid !in m ==> OfProcess(Entries(map[topic := m]), pUuid) == {}
    ensures pUuid in m ==> Lists(m[pUuid], OfProcess(Entries(map[topic := m]), pUuid))
  {
    GroupedByProc(topic, m);
    forall p, x | p in m && x in m[p] ensures x.pUuid == p { assert VectorOk(topic, p, m[p]); }
    if pUuid in m {
      forall x ensures x in OfProcess(Entries(map[topic := m]), pUuid) <==> x in m[pUuid] {
        assert x in Entries(map[topic := m]) <==> x in Union(m, m.Keys);
      }
    }
  }

  lemma GroupedByNodes(pubs: map<string, seq<Publisher>>, whole: set<Publisher>)
    requires GroupedByNode(pubs, whole)
    ensures Disjoint(pubs) && Union(pubs, pubs.Keys) == whole
  {
    forall n | n in pubs ensures Elements(pubs[n]) == set y | y in whole && y.nUuid == n {
    }
    forall n, x | n in pubs ensures x in pubs[n] <==> x in whole && x.nUuid == n {
      assert x in pubs[n] <==> x in Elements(pubs[n]);
    }
    forall k, l, x | k in pubs && l in pubs && x in pubs[k] && x in pubs[l] ensures k == l {
      assert x.nUuid == k && x.nUuid == l;
    }
    assert forall x | x in whole :: x in pubs[x.nUuid];
  }
}
