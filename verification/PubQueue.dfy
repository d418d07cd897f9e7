/** The queue of messages waiting for local delivery, and the purge of the handlers of a node
    (aerozen/node_shared.cpp). */
module PubQueue {
  import opened Publishers
  import opened Sequences

  datatype Handler = Handler(nUuid: string, hUuid: string)

  /** One queued message; `topic` is what MessageInfo::Topic() answers, the name without its partition. */
  datatype Message = Message(topic: string, payload: string, localHandlers: seq<Handler>, rawHandlers: seq<Handler>)

  /** Handlers of the node, or only the one with this UUID. */
  predicate Belongs(h: Handler, nUuid: string, hUuid: Option<string>) {
    h.nUuid == nUuid && (hUuid == None || hUuid == Some(h.hUuid))
  }

  /** What is kept of the first n handlers. */
  function KeptOf(hs: seq<Handler>, n: nat, nUuid: string, hUuid: Option<string>): seq<Handler>
    requires n <= |hs|
  {
    if n == 0 then []
    else
      var front := KeptOf(hs, n - 1, nUuid, hUuid);
      if Belongs(hs[n - 1], nUuid, hUuid) then front else front + [hs[n - 1]]
  }

  function Kept(hs: seq<Handler>, nUuid: string, hUuid: Option<string>): seq<Handler> {
    KeptOf(hs, |hs|, nUuid, hUuid)
  }

  function Purged(m: Message, topic: string, nUuid: string, hUuid: Option<string>): Message {
    if m.topic != topic then m
    else m.(localHandlers := Kept(m.localHandlers, nUuid, hUuid), rawHandlers := Kept(m.rawHandlers, nUuid, hUuid))
  }

  function PurgedQueue(q: seq<Message>, topic: string, nUuid: string, hUuid: Option<string>): seq<Message> {
    seq(|q|, i requires 0 <= i < |q| => Purged(q[i], topic, nUuid, hUuid))
  }

  /** The list sits at strictly increasing positions of the handlers, and those are precisely the positions of the ones
      that do not belong. */
  ghost predicate SitsAt(kept: seq<Handler>, at: seq<nat>, hs: seq<Handler>, nUuid: string, hUuid: Option<string>) {
    && |at| == |kept|
    && (forall i | 0 <= i < |at| :: at[i] < |hs| && hs[at[i]] == kept[i])
    && (forall i, j | 0 <= i < j < |at| :: at[i] < at[j])
    && (forall k: nat | k < |hs| :: k in at <==> hs[k].nUuid != nUuid || (hUuid.Some? && hs[k].hUuid != hUuid.value))
  }

  lemma SitsOneMore(kept: seq<Handler>, at: seq<nat>, hs: seq<Handler>, h: Handler, nUuid: string,
                    hUuid: Option<string>)
    requires SitsAt(kept, at, hs, nUuid, hUuid)
    ensures Belongs(h, nUuid, hUuid) ==> SitsAt(kept, at, hs + [h], nUuid, hUuid)
    ensures !Belongs(h, nUuid, hUuid) ==> SitsAt(kept + [h], at + [|hs|], hs + [h], nUuid, hUuid)
  {
    InAppend(at, |hs|);
    assert |hs| !in at;
  }

  /** An order-preserving exact filter. */
  lemma {:induction false} KeptPositions(hs: seq<Handler>, n: nat, nUuid: string, hUuid: Option<string>)
    returns (at: seq<nat>)
    requires n <= |hs|
    ensures SitsAt(KeptOf(hs, n, nUuid, hUuid), at, hs[..n], nUuid, hUuid)
  {
    if n == 0 {
      at := [];
    } else {
      at := KeptPositions(hs, n - 1, nUuid, hUuid);
      assert hs[..n] == hs[..n - 1] + [hs[n - 1]];
      SitsOneMore(KeptOf(hs, n - 1, nUuid, hUuid), at, hs[..n - 1], hs[n - 1], nUuid, hUuid);
      if !Belongs(hs[n - 1], nUuid, hUuid) { at := at + [n - 1]; }
    }
  }

  /** Erases in place while iterating: the position stays put after an erase. */
  method EraseBelonging(hs: seq<Handler>, nUuid: string, hUuid: Option<string>) returns (handlers: seq<Handler>)
    ensures handlers == Kept(hs, nUuid, hUuid)
  {
    handlers := hs;
    var it := 0;
    ghost var seen := 0;
    while it < |handlers|
      invariant it <= |handlers| && seen <= |hs| && |handlers| - it == |hs| - seen
      invariant handlers[..it] == KeptOf(hs, seen, nUuid, hUuid)
      invariant handlers[it..] == hs[seen..]
      decreases |handlers| - it
    {
      assert handlers[it] == handlers[it..][0] == hs[seen];
      assert handlers[it..][1..] == handlers[it + 1..];
      if Belongs(handlers[it], nUuid, hUuid) {
        handlers := handlers[..it] + handlers[it + 1..];
      } else {
        assert handlers[..it + 1] == handlers[..it] + [handlers[it]];
        it := it + 1;
      }
      seen := seen + 1;
    }
    assert handlers == handlers[..it];
  }

  lemma {:induction false} KeptIsOthers(hs: seq<Handler>, n: nat, nUuid: string, hUuid: Option<string>)
    requires n <= |hs|
    ensures forall h | h in KeptOf(hs, n, nUuid, hUuid) :: !Belongs(h, nUuid, hUuid)
  {
    if n > 0 { KeptIsOthers(hs, n - 1, nUuid, hUuid); }
  }

  lemma KeptMembers(hs: seq<Handler>, nUuid: string, hUuid: Option<string>)
    ensures forall h :: h in Kept(hs, nUuid, hUuid) <==>
                          h in hs && (h.nUuid != nUuid || (hUuid.Some? && h.hUuid != hUuid.value))
  {
    var at := KeptPositions(hs, |hs|, nUuid, hUuid);
    assert hs[..|hs|] == hs;
    forall h | h in hs && (h.nUuid != nUuid || (hUuid.Some? && h.hUuid != hUuid.value))
      ensures h in Kept(hs, nUuid, hUuid)
    {
      var k: nat :| k < |hs| && hs[k] == h;
      var i :| 0 <= i < |at| && at[i] == k;
      assert Kept(hs, nUuid, hUuid)[i] == h;
    }
  }

  /** Handler by handler, for the messages of the topic named; the others are as they were. */
  lemma PurgedMeans(m: Message, topic: string, nUuid: string, hUuid: Option<string>, h: Handler)
    ensures var p := Purged(m, topic, nUuid, hUuid);
            var goes := m.topic == topic && h.nUuid == nUuid && (hUuid.None? || hUuid.value == h.hUuid);
            && (h in p.localHandlers <==> h in m.localHandlers && !goes)
            && (h in p.rawHandlers <==> h in m.rawHandlers && !goes)
            && p.topic == m.topic && p.payload == m.payload && (m.topic != topic ==> p == m)
  {
    KeptMembers(m.localHandlers, nUuid, hUuid);
    KeptMembers(m.rawHandlers, nUuid, hUuid);
  }

  /** Delivery of the message would still call a handler, normal or raw, that belongs. */
  predicate StillCalls(m: Message, nUuid: string, hUuid: Option<string>) {
    || (exists h | h in m.localHandlers :: Belongs(h, nUuid, hUuid))
    || exists h | h in m.rawHandlers :: Belongs(h, nUuid, hUuid)
  }

  /** A purge silences a message exactly when it names the message's topic. */
  lemma PurgeSilences(m: Message, topic: string, nUuid: string, hUuid: Option<string>)
    requires StillCalls(m, nUuid, hUuid)
    ensures !StillCalls(Purged(m, topic, nUuid, hUuid), nUuid, hUuid) <==> m.topic == topic
  {
    KeptIsOthers(m.localHandlers, |m.localHandlers|, nUuid, hUuid);
    KeptIsOthers(m.rawHandlers, |m.rawHandlers|, nUuid, hUuid);
  }
}
