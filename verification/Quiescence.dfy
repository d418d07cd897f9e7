/** Left alone, the network falls silent: relaying and answering cannot go on for ever. */
module Quiescence {
  import opened Publishers
  import opened Sequences
  import opened Protocol
  import opened Network

  /** Requests come before the ADVERTISE messages they cause, those before everything else. */
  function KindRank(kind: MsgType): nat {
    match kind
    case SUBSCRIBE => 2
    case SUBSCRIBERS_REQ => 2
    case ADVERTISE => 1
    case _ => 0
  }

  /** A plain message is forwarded with RELAY, a RELAY message with NO_RELAY, a NO_RELAY message no more. */
  function FlagRank(m: Message): nat {
    if m.relay then 1 else if m.noRelay then 0 else 2
  }

  function Rank(m: Message): (r: nat)
    ensures r < 9
  {
    3 * KindRank(m.kind) + FlagRank(m)
  }

  function Count(flying: seq<Packet>, rank: nat): nat {
    if flying == [] then 0
    else (if Rank(flying[0].msg) == rank then 1 else 0) + Count(flying[1..], rank)
  }

  lemma {:induction false} CountAppend(a: seq<Packet>, b: seq<Packet>, rank: nat)
    ensures Count(a + b, rank) == Count(a, rank) + Count(b, rank)
  {
    if a == [] {
      assert a + b == b;
    } else {
      assert (a + b)[1..] == a[1..] + b;
      CountAppend(a[1..], b, rank);
    }
  }

  lemma CountRemove(a: seq<Packet>, i: nat, rank: nat)
    requires i < |a|
    ensures Count(a, rank) == Count(Remove(a, i), rank) + if Rank(a[i].msg) == rank then 1 else 0
  {
    assert a == a[..i] + ([a[i]] + a[i + 1..]);
    CountAppend(a[..i], [a[i]] + a[i + 1..], rank);
    CountAppend([a[i]], a[i + 1..], rank);
    CountAppend(a[..i], a[i + 1..], rank);
  }

  lemma {:induction false} CountNone(a: seq<Packet>, rank: nat)
    requires forall pkt | pkt in a :: Rank(pkt.msg) != rank
    ensures Count(a, rank) == 0
  {
    if a != [] {
      assert a[0] in a;
      CountNone(a[1..], rank);
    }
  }

  lemma TriggeredRanksBelow(s: State, from: string, m: Message, now: int, answers: seq<Publisher>, o: Out)
    requires Triggers(s, Dispatch(s, from, m, now, answers).calls, o)
    ensures Rank(o.msg) < Rank(m)
  {
  }

  lemma AnswersRankBelow(s: State, from: string, m: Message, answers: seq<Publisher>, o: Out)
    requires o in Handle(s, from, m, answers).outs
    ensures Rank(o.msg) < Rank(m)
  {
    assert m.kind == SUBSCRIBE && o in SendEach(s, ADVERTISE, answers);
    SendEachMembers(s, ADVERTISE, answers, o);
  }

  /** Everything a delivery sends, callbacks included, ranks below what was delivered. */
  lemma DeliveryRanksBelow(s: State, from: string, m: Message, now: int, answers: seq<Publisher>, triggered: seq<Out>,
                           o: Out)
    requires forall t | t in triggered :: Triggers(s, Dispatch(s, from, m, now, answers).calls, t)
    requires o in Dispatch(s, from, m, now, answers).outs + triggered
    ensures Rank(o.msg) < Rank(m)
  {
    var s1 := s.(activity := s.activity[m.process := now]);
    if o in triggered {
      TriggeredRanksBelow(s, from, m, now, answers, o);
    } else if Processes(s, m) && o in Handle(s1, from, m, answers).outs {
      AnswersRankBelow(s1, from, m, answers, o);
    }
  }

  /** A delivery or a loss, with no API call, timer or duplication. */
  ghost predicate Settles(top: Topology, n: Net, n': Net) {
    exists step: Step :: (step.Deliver? || step.Lose?) && Next(top, n, n', step)
  }

  type Tally = c: seq<nat> | |c| == 9 witness [0, 0, 0, 0, 0, 0, 0, 0, 0]

  /** How many messages of each rank are in flight. */
  ghost function Counts(flying: seq<Packet>): Tally {
    seq(9, (rank: nat) => Count(flying, rank))
  }

  /** Fewer at some rank, and no change above it. */
  ghost predicate Below(a: Tally, b: Tally) {
    exists rank | 0 <= rank < 9 :: a[rank] < b[rank] && forall r | rank < r < 9 :: a[r] == b[r]
  }

  /** Ordered from the highest rank down, the counts strictly decrease at each such step. */
  lemma SettlingDecreases(top: Topology, n: Net, n': Net)
    requires Settles(top, n, n')
    ensures Below(Counts(n'.flying), Counts(n.flying))
  {
    var step: Step :| (step.Deliver? || step.Lose?) && Next(top, n, n', step);
    var gone := n.flying[step.i];
    var rank := Rank(gone.msg);
    var copies := if step.Deliver? then step.copies else [];
    assert n'.flying == Remove(n.flying, step.i) + copies;
    forall pkt | pkt in copies ensures Rank(pkt.msg) < rank {
      var s := n.procs[gone.dst];
      var outs := Dispatch(s, gone.from, gone.msg, step.now, step.answers).outs + step.triggered;
      var o :| o in outs && Carries(top, s, o, pkt);
      DeliveryRanksBelow(s, gone.from, gone.msg, step.now, step.answers, step.triggered, o);
    }
    forall r | rank <= r < 9 ensures Count(n'.flying, r) == Count(n.flying, r) - if r == rank then 1 else 0 {
      CountRemove(n.flying, step.i, r);
      CountAppend(Remove(n.flying, step.i), copies, r);
      CountNone(copies, r);
    }
    var a, b := Counts(n'.flying), Counts(n.flying);
    assert a[rank] < b[rank] && forall r | rank < r < 9 :: a[r] == b[r];
  }

  lemma BelowIsLexicographic(a: Tally, b: Tally)
    requires Below(a, b)
    ensures a[8] < b[8] || (a[8] == b[8] && (a[7] < b[7] || (a[7] == b[7] && (a[6] < b[6] || (a[6] == b[6] &&
            (a[5] < b[5] || (a[5] == b[5] && (a[4] < b[4] || (a[4] == b[4] && (a[3] < b[3] || (a[3] == b[3] &&
            (a[2] < b[2] || (a[2] == b[2] && (a[1] < b[1] || (a[1] == b[1] && a[0] < b[0])))))))))))))))
  {
  }

  lemma {:induction false} NoEndlessDescent(counts: nat -> Tally, start: nat) returns (k: nat)
    ensures k >= start && !Below(counts(k + 1), counts(k))
    decreases counts(start)[8], counts(start)[7], counts(start)[6], counts(start)[5], counts(start)[4],
              counts(start)[3], counts(start)[2], counts(start)[1], counts(start)[0]
  {
    if Below(counts(start + 1), counts(start)) {
      BelowIsLexicographic(counts(start + 1), counts(start));
      k := NoEndlessDescent(counts, start + 1);
    } else {
      k := start;
    }
  }

  lemma MustDecrease(top: Topology, n: Net, n': Net)
    ensures Settles(top, n, n') ==> Below(Counts(n'.flying), Counts(n.flying))
  {
    if Settles(top, n, n') { SettlingDecreases(top, n, n'); }
  }

  ghost predicate GoesOn(top: Topology, run: nat -> Net, k: nat) {
    Settles(top, run(k), run(k + 1))
  }

  /** From any state of any network, every sequence of deliveries and losses comes to an end: there is no endless run
      of them, whatever the number of processes and relays. */
  lemma NetworkFallsSilent(top: Topology, run: nat -> Net, start: nat) returns (k: nat)
    ensures k >= start && !GoesOn(top, run, k)
  {
    k := NoEndlessDescent((k: nat) => Counts(run(k).flying), start);
    MustDecrease(top, run(k), run(k + 1));
  }

  /** A run that takes a step whenever something is in flight reaches a network with nothing in flight. */
  lemma NetworkEmpties(top: Topology, run: nat -> Net) returns (k: nat)
    requires forall k: nat :: run(k).flying != [] ==> GoesOn(top, run, k)
    ensures run(k).flying == []
  {
    k := NetworkFallsSilent(top, run, 0);
  }
}
