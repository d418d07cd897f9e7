/** aerozen/handler_storage.hpp: topic -> node -> handler, refining a flat map keyed by (topic, node, handler). */
module HandlerStorage {
  import opened Publishers

  datatype Id = Id(topic: string, nUuid: string, hUuid: string)

  type Handlers<T> = map<string, T>
  type Nodes<T> = map<string, Handlers<T>>
  type Data<T> = map<string, Nodes<T>>

  ghost predicate NodesOk<T>(m: Nodes<T>) {
    forall n | n in m :: m[n] != map[]
  }

  /** The shape every operation keeps: no topic without a node, no node without a handler. */
  ghost predicate WellFormed<T>(d: Data<T>) {
    forall t | t in d :: d[t] != map[] && NodesOk(d[t])
  }

  function Lookup<T>(d: Data<T>, id: Id): Option<T> {
    if id.topic in d && id.nUuid in d[id.topic] && id.hUuid in d[id.topic][id.nUuid]
    then Some(d[id.topic][id.nUuid][id.hUuid]) else None
  }

  ghost function Keys<T>(d: Data<T>): set<Id> {
    set t, n, h | t in d && n in d[t] && h in d[t][n] :: Id(t, n, h)
  }

  /** The flat map that the nested map stands for. */
  ghost function Flat<T>(d: Data<T>): map<Id, T> {
    map id | id in Keys(d) :: d[id.topic][id.nUuid][id.hUuid]
  }

  ghost predicate AnyOnTopic<T>(flat: map<Id, T>, topic: string) {
    exists id | id in flat :: id.topic == topic
  }

  ghost predicate AnyOfNode<T>(flat: map<Id, T>, topic: string, nUuid: string) {
    exists id | id in flat :: id.topic == topic && id.nUuid == nUuid
  }

  ghost function WithoutNode<T>(flat: map<Id, T>, topic: string, nUuid: string): map<Id, T> {
    map id | id in flat && !(id.topic == topic && id.nUuid == nUuid) :: flat[id]
  }

  ghost function Get<T>(flat: map<Id, T>, id: Id): Option<T> {
    if id in flat then Some(flat[id]) else None
  }

  lemma FlatLookup<T>(d: Data<T>, id: Id)
    ensures Get(Flat(d), id) == Lookup(d, id)
  {
  }

  lemma FlatIs<T>(d: Data<T>, flat: map<Id, T>)
    requires forall id :: Lookup(d, id) == Get(flat, id)
    ensures Flat(d) == flat
  {
    forall id ensures Get(Flat(d), id) == Get(flat, id) { FlatLookup(d, id); }
    forall id ensures id in Flat(d) <==> id in flat {
      assert Get(Flat(d), id) == Get(flat, id);
    }
    forall id | id in flat ensures Flat(d)[id] == flat[id] {
      assert Get(Flat(d), id) == Get(flat, id);
    }
  }

  /** The handlers of one node replaced, empty levels pruned. */
  ghost function Put<T>(d: Data<T>, t: string, n: string, hs: Handlers<T>): Data<T> {
    var m := if t in d then d[t] else map[];
    var m' := if hs == map[] then m - {n} else m[n := hs];
    if m' == map[] then d - {t} else d[t := m']
  }

  lemma PutNonEmpty<T>(d: Data<T>, t: string, n: string, hs: Handlers<T>)
    requires hs != map[]
    ensures Put(d, t, n, hs) == d[t := (if t in d then d[t] else map[])[n := hs]]
  {
    assert n in (if t in d then d[t] else map[])[n := hs];
  }

  lemma PutEmpty<T>(d: Data<T>, t: string, n: string)
    ensures Put(d, t, n, map[]) == if t !in d then d
                                   else if d[t] - {n} == map[] then d - {t} else d[t := d[t] - {n}]
  {
  }

  lemma PutKeepsShape<T>(d: Data<T>, t: string, n: string, hs: Handlers<T>)
    requires WellFormed(d)
    ensures WellFormed(Put(d, t, n, hs))
  {
  }

  lemma PutLookup<T>(d: Data<T>, t: string, n: string, hs: Handlers<T>, id: Id)
    ensures Lookup(Put(d, t, n, hs), id) ==
            if id.topic == t && id.nUuid == n then (if id.hUuid in hs then Some(hs[id.hUuid]) else None)
            else Lookup(d, id)
  {
    var m := if t in d then d[t] else map[];
    var m' := if hs == map[] then m - {n} else m[n := hs];
    if id.topic == t {
      assert id.nUuid != n && id.nUuid in m ==> id.nUuid in m' && m'[id.nUuid] == m[id.nUuid];
      assert id.nUuid == n ==> (n in m' <==> hs != map[]);
    }
  }

  lemma AddFlat<T>(d: Data<T>, id: Id, handler: T)
    ensures Flat(Put(d, id.topic, id.nUuid, HandlersAt(d, id.topic, id.nUuid)[id.hUuid := handler]))
            == Flat(d)[id := handler]
  {
    var hs := HandlersAt(d, id.topic, id.nUuid)[id.hUuid := handler];
    forall i: Id ensures Lookup(Put(d, id.topic, id.nUuid, hs), i) == Get(Flat(d)[id := handler], i) {
      PutLookup(d, id.topic, id.nUuid, hs, i);
      FlatLookup(d, i);
    }
    FlatIs(Put(d, id.topic, id.nUuid, hs), Flat(d)[id := handler]);
  }

  lemma RemoveFlat<T>(d: Data<T>, id: Id)
    ensures Flat(Put(d, id.topic, id.nUuid, HandlersAt(d, id.topic, id.nUuid) - {id.hUuid})) == Flat(d) - {id}
  {
    var hs := HandlersAt(d, id.topic, id.nUuid) - {id.hUuid};
    forall i: Id ensures Lookup(Put(d, id.topic, id.nUuid, hs), i) == Get(Flat(d) - {id}, i) {
      PutLookup(d, id.topic, id.nUuid, hs, i);
      FlatLookup(d, i);
    }
    FlatIs(Put(d, id.topic, id.nUuid, hs), Flat(d) - {id});
  }

  lemma RemoveNodeFlat<T>(d: Data<T>, t: string, n: string)
    ensures Flat(Put(d, t, n, map[])) == WithoutNode(Flat(d), t, n)
  {
    forall i: Id ensures Lookup(Put(d, t, n, map[]), i) == Get(WithoutNode(Flat(d), t, n), i) {
      PutLookup(d, t, n, map[], i);
      FlatLookup(d, i);
    }
    FlatIs(Put(d, t, n, map[]), WithoutNode(Flat(d), t, n));
  }

  ghost function HandlersAt<T>(d: Data<T>, topic: string, nUuid: string): Handlers<T> {
    if topic in d && nUuid in d[topic] then d[topic][nUuid] else map[]
  }

  lemma TopicHeld<T>(d: Data<T>, t: string)
    requires WellFormed(d)
    ensures t in d <==> AnyOnTopic(Flat(d), t)
  {
    if t in d {
      var n :| n in d[t];
      var h :| h in d[t][n];
      FlatLookup(d, Id(t, n, h));
    }
  }

  lemma NodeHeld<T>(d: Data<T>, t: string, n: string)
    requires WellFormed(d)
    ensures (t in d && n in d[t]) <==> AnyOfNode(Flat(d), t, n)
  {
    if t in d && n in d[t] {
      var h :| h in d[t][n];
      FlatLookup(d, Id(t, n, h));
    }
  }

  lemma HandlersAgree<T>(d: Data<T>, e: Data<T>, t: string, n: string)
    requires Flat(d) == Flat(e) && t in d && n in d[t] && t in e && n in e[t]
    ensures d[t][n] == e[t][n]
  {
    forall h ensures (h in d[t][n] <==> h in e[t][n]) && (h in d[t][n] ==> d[t][n][h] == e[t][n][h]) {
      FlatLookup(d, Id(t, n, h));
      FlatLookup(e, Id(t, n, h));
    }
  }

  lemma NodesAgree<T>(d: Data<T>, e: Data<T>, t: string)
    requires WellFormed(d) && WellFormed(e) && Flat(d) == Flat(e) && t in d && t in e
    ensures d[t] == e[t]
  {
    forall n ensures n in d[t] <==> n in e[t] { NodeHeld(d, t, n); NodeHeld(e, t, n); }
    forall n | n in d[t] ensures d[t][n] == e[t][n] { HandlersAgree(d, e, t, n); }
  }

  /** Because no level is empty, the flat map determines the nested one: equal contents are equal structures. */
  lemma FlatDetermines<T>(d: Data<T>, e: Data<T>)
    requires WellFormed(d) && WellFormed(e) && Flat(d) == Flat(e)
    ensures d == e
  {
    forall t ensures t in d <==> t in e { TopicHeld(d, t); TopicHeld(e, t); }
    forall t | t in d ensures d[t] == e[t] { NodesAgree(d, e, t); }
  }

  class HandlerStorage<T> {
    var data: Data<T>

    ghost predicate Valid() reads this {
      WellFormed(data)
    }

    ghost function Contents(): map<Id, T> reads this {
      Flat(data)
    }

    constructor ()
      ensures Valid() && Contents() == map[]
    {
      data := map[];
    }

    /** Keeps an existing handler: insert does not overwrite. */
    method AddHandler(topic: string, nUuid: string, hUuid: string, handler: T)
      requires Valid()
      modifies this
      ensures Valid()
      ensures Contents() == if Id(topic, nUuid, hUuid) in old(Contents()) then old(Contents())
                            else old(Contents())[Id(topic, nUuid, hUuid) := handler]
    {
      FlatLookup(data, Id(topic, nUuid, hUuid));
      var m := if topic in data then data[topic] else map[];
      var hs := if nUuid in m then m[nUuid] else map[];
      if hUuid in hs {
        return;
      }
      AddFlat(data, Id(topic, nUuid, hUuid), handler);
      assert hUuid in hs[hUuid := handler];
      PutKeepsShape(data, topic, nUuid, hs[hUuid := handler]);
      PutNonEmpty(data, topic, nUuid, hs[hUuid := handler]);
      data := data[topic := m[nUuid := hs[hUuid := handler]]];
    }

    method HandlersOf(topic: string) returns (handlers: Option<Nodes<T>>)
      requires Valid()
      ensures handlers.None? <==> !AnyOnTopic(Contents(), topic)
      ensures handlers.Some? ==> forall id: Id | id.topic == topic ::
                (id in Contents() <==> id.nUuid in handlers.value && id.hUuid in handlers.value[id.nUuid]) &&
                (id in Contents() ==> handlers.value[id.nUuid][id.hUuid] == Contents()[id])
    {
      TopicHeld(data, topic);
      forall id: Id | id.topic == topic ensures Get(Contents(), id) == Lookup(data, id) { FlatLookup(data, id); }
      handlers := if topic in data then Some(data[topic]) else None;
    }

    /** Which handler is first follows the key order of the map, which the contract leaves open. */
    method FirstHandler(topic: string, matches: T -> bool) returns (handler: Option<T>)
      requires Valid()
      ensures handler.None? <==> !exists id | id in Contents() :: id.topic == topic && matches(Contents()[id])
      ensures handler.Some? ==>
                matches(handler.value) && exists id | id in Contents() ::
                  id.topic == topic && Contents()[id] == handler.value
    {
      if topic !in data {
        return None;
      }
      var m := data[topic];
      var todo := m.Keys;
      while todo != {}
        invariant todo <= m.Keys
        invariant forall id | id in Contents() && id.topic == topic && id.nUuid !in todo :: !matches(Contents()[id])
      {
        var n :| n in todo;
        if h :| h in m[n] && matches(m[n][h]) {
          assert Id(topic, n, h) in Contents();
          return Some(m[n][h]);
        }
        todo := todo - {n};
      }
      return None;
    }

    method Handler(id: Id) returns (handler: Option<T>)
      requires Valid()
      ensures handler == if id in Contents() then Some(Contents()[id]) else None
    {
      FlatLookup(data, id);
      handler := Lookup(data, id);
    }

    method HasHandlersForTopic(topic: string) returns (found: bool)
      requires Valid()
      ensures found <==> AnyOnTopic(Contents(), topic)
    {
      TopicHeld(data, topic);
      found := topic in data && data[topic] != map[];
    }

    method HasHandlersForNode(topic: string, nUuid: string) returns (found: bool)
      requires Valid()
      ensures found <==> AnyOfNode(Contents(), topic, nUuid)
    {
      NodeHeld(data, topic, nUuid);
      found := topic in data && nUuid in data[topic];
    }

    /** A change made to a stored handler through its shared pointer. */
    method Replace(id: Id, handler: T)
      requires Valid() && id in Contents()
      modifies this
      ensures Valid() && Contents() == old(Contents())[id := handler]
    {
      FlatLookup(data, id);
      var hs := data[id.topic][id.nUuid][id.hUuid := handler];
      assert id.hUuid in hs;
      AddFlat(data, id, handler);
      PutKeepsShape(data, id.topic, id.nUuid, hs);
      PutNonEmpty(data, id.topic, id.nUuid, hs);
      data := data[id.topic := data[id.topic][id.nUuid := hs]];
    }

    method RemoveHandler(id: Id) returns (removed: bool)
      requires Valid()
      modifies this
      ensures Valid()
      ensures Contents() == old(Contents()) - {id}
      ensures removed <==> id in old(Contents())
    {
      FlatLookup(data, id);
      if id.topic !in data || id.nUuid !in data[id.topic] {
        return false;
      }
      RemoveFlat(data, id);
      var hs := data[id.topic][id.nUuid];
      removed := id.hUuid in hs;
      hs := hs - {id.hUuid};
      PutKeepsShape(data, id.topic, id.nUuid, hs);
      var m := data[id.topic];
      m := if hs == map[] then m - {id.nUuid} else m[id.nUuid := hs];
      data := if m == map[] then data - {id.topic} else data[id.topic := m];
    }

    method RemoveHandlersForNode(topic: string, nUuid: string) returns (removed: bool)
      requires Valid()
      modifies this
      ensures Valid()
      ensures Contents() == WithoutNode(old(Contents()), topic, nUuid)
      ensures removed <==> AnyOfNode(old(Contents()), topic, nUuid)
    {
      NodeHeld(data, topic, nUuid);
      RemoveNodeFlat(data, topic, nUuid);
      PutKeepsShape(data, topic, nUuid, map[]);
      PutEmpty(data, topic, nUuid);
      removed := topic in data && nUuid in data[topic];
      if topic !in data {
        return;
      }
      var m := data[topic] - {nUuid};
      data := if m == map[] then data - {topic} else data[topic := m];
    }
  }

  /** Removing a handler just added gives back the very structure there was, at every level. */
  method AddThenRemove<T>(storage: HandlerStorage<T>, id: Id, handler: T)
    requires storage.Valid() && id !in storage.Contents()
    modifies storage
    ensures storage.data == old(storage.data)
  {
    ghost var before, flat := storage.data, storage.Contents();
    assert flat[id := handler] - {id} == flat;
    storage.AddHandler(id.topic, id.nUuid, id.hUuid, handler);
    var removed := storage.RemoveHandler(id);
    assert Flat(storage.data) == Flat(before);
    FlatDetermines(storage.data, before);
  }
}
