/** When a discovery process lets go of what it knows of others: withdrawals, farewells and silence, and nothing else
    (aerozen/discovery.hpp). */
module Retention {
  import opened Publishers
  import opened Sequences
  import opened Protocol
  import opened Network
  import Freshness
  import T = TopicStorage

  /** A sweep that is due keeps a process exactly when it was heard from less than one millisecond more than the silence
      interval ago; then it keeps all the entries of the process and reports nothing of it. Otherwise it keeps none and
      reports the process once, without a topic. */
  lemma SweepDropsSilent(s: State, now: int, later: int, gone: seq<string>, q: string)
    requires now >= s.timeNextActivity && Lists(gone, Expired(s, now)) && q in s.activity
    ensures var e := Sweep(s, now, later, gone);
            var kept := now - s.activity[q] < (s.silenceInterval + 1) * 1_000_000;
            && (q in e.next.activity <==> kept) && (kept ==> e.next.activity[q] == s.activity[q])
            && (forall x: Publisher | x.pUuid == q :: x in e.next.info <==> x in s.info && kept)
            && ((exists c :: c in e.calls && c.Disconnect? && c.pub.pUuid == q) <==> !kept)
  {
    DisconnectsEach(s.kind, gone);
    assert q in Expired(s, now) <==> q in Elements(gone);
    if q in gone {
      var i :| 0 <= i < |gone| && gone[i] == q;
      assert Disconnects(s.kind, gone)[i].pub.pUuid == q;
    }
  }

  lemma {:induction false} DisconnectsEach(kind: Kind, gone: seq<string>)
    ensures |Disconnects(kind, gone)| == |gone|
    ensures forall i | 0 <= i < |gone| ::
              var c := Disconnects(kind, gone)[i];
              c.Disconnect? && c.pub.pUuid == gone[i] && c.pub.topic == "" && c.pub.nUuid == ""
  {
    if gone != [] { DisconnectsEach(kind, gone[1..]); }
  }

  /** Each process dropped is reported once and as a whole; processes not watched, this one among them, keep all. */
  lemma SweepReports(s: State, now: int, later: int, gone: seq<string>)
    requires now >= s.timeNextActivity && Lists(gone, Expired(s, now))
    ensures var e := Sweep(s, now, later, gone);
            && |e.calls| == |s.activity| - |e.next.activity| && e.outs == []
            && (forall c | c in e.calls :: c.Disconnect? && c.pub.topic == "")
            && (forall i, j | 0 <= i < j < |e.calls| :: e.calls[i].pub.pUuid != e.calls[j].pub.pUuid)
            && forall x: Publisher | x.pUuid !in s.activity :: x in e.next.info <==> x in s.info
  {
    DisconnectsEach(s.kind, gone);
    ListsCount(gone, Expired(s, now));
    var left := s.activity - Expired(s, now);
    assert left.Keys == s.activity.Keys - Expired(s, now);
    assert |left.Keys| == |left| && |s.activity.Keys| == |s.activity|;
  }

  /** The next sweep is due exactly one interval, in milliseconds, after the clock is read again. */
  lemma SweepPeriod(s: State, now: int, later: int, gone: seq<string>, now': int, later': int, gone': seq<string>)
    requires now >= s.timeNextActivity
    ensures var s' := Sweep(s, now, later, gone).next;
            && s'.timeNextActivity == later + s.activityInterval * 1_000_000
            && (now' < s'.timeNextActivity ==> Sweep(s', now', later', gone') == Effect(s', [], []))
  {
  }

  /** The owner of the publisher takes it back, or leaves. */
  predicate Withdraws(n: Net, step: Step, p: string, x: Publisher) {
    && step.Deliver? && step.i < |n.flying| && n.flying[step.i].dst == p
    && var m := n.flying[step.i].msg;
       && m.process == x.pUuid
       && (m.kind == BYE || (m.kind == UNADVERTISE && m.pub.topic == x.topic && m.pub.nodeUuid == x.nUuid))
  }

  /** A due sweep of p finds the process silent. */
  predicate SweepsAway(n: Net, step: Step, p: string, q: string) {
    && step.SweepStep? && step.p == p && p in n.procs && q in n.procs[p].activity
    && step.now - n.procs[p].activity[q] >= (n.procs[p].silenceInterval + 1) * 1_000_000
  }

  lemma DeliveryTakesOnly(top: Topology, n: Net, n': Net, step: Step, p: string, x: Publisher)
    requires Inv(top.kind, n) && step.Deliver? && Next(top, n, n', step) && p in n.procs
    requires x in n.procs[p].info && x !in n'.procs[p].info
    ensures Withdraws(n, step, p, x)
  {
    var pkt := n.flying[step.i];
    assert HonestMessage(top.kind, n.log, pkt.msg);
    DeliverTakes(n.procs[p], pkt.from, pkt.msg, step.now, step.answers, x);
  }

  lemma SweepTakesOnly(top: Topology, n: Net, n': Net, step: Step, p: string, x: Publisher)
    requires step.SweepStep? && Next(top, n, n', step) && p in n.procs
    requires x in n.procs[p].info && x !in n'.procs[p].info
    ensures SweepsAway(n, step, p, x.pUuid)
  {
  }

  lemma OwnCallTakesNothing(top: Topology, n: Net, n': Net, step: Step, p: string, x: Publisher)
    requires Inv(top.kind, n) && Next(top, n, n', step) && p in n.procs
    requires (step.AdvertiseStep? || step.UnadvertiseStep?) && x in n.procs[p].info && x.pUuid != p
    ensures x in n'.procs[p].info
  {
    assert ProcOk(top.kind, n, p, n.procs[p]);
  }

  lemma OthersTakeNothing(top: Topology, n: Net, n': Net, step: Step, p: string, x: Publisher)
    requires Next(top, n, n', step) && p in n.procs && p in n'.procs && x in n.procs[p].info
    requires !step.Deliver? && !step.SweepStep? && !step.AdvertiseStep? && !step.UnadvertiseStep?
    requires step.JoinStep? ==> step.p != p
    ensures x in n'.procs[p].info
  {
  }

  /** An entry about another process goes for one of these two reasons only. */
  lemma EntryGoesOnly(top: Topology, n: Net, n': Net, step: Step, p: string, x: Publisher)
    requires Inv(top.kind, n) && Next(top, n, n', step) && p in n.procs && p in n'.procs
    requires x in n.procs[p].info && x.pUuid != p && x !in n'.procs[p].info
    ensures Withdraws(n, step, p, x) || SweepsAway(n, step, p, x.pUuid)
  {
    if step.Deliver? {
      DeliveryTakesOnly(top, n, n', step, p, x);
    } else if step.SweepStep? {
      SweepTakesOnly(top, n, n', step, p, x);
    } else if step.AdvertiseStep? || step.UnadvertiseStep? {
      OwnCallTakesNothing(top, n, n', step, p, x);
    } else {
      assert ProcOk(top.kind, n, p, n.procs[p]);
      OthersTakeNothing(top, n, n', step, p, x);
    }
  }

  lemma DeliverTakes(s: State, from: string, m: Message, now: int, answers: seq<Publisher>, x: Publisher)
    requires x in s.info && x !in Dispatch(s, from, m, now, answers).next.info
    requires m.kind == UNADVERTISE ==> m.sub == None && m.pub.processUuid == m.process
    ensures m.process == x.pUuid
    ensures m.kind == BYE || (m.kind == UNADVERTISE && m.pub.topic == x.topic && m.pub.nodeUuid == x.nUuid)
  {
  }

  /** Heard from at p, recently enough for a sweep at this time. */
  ghost predicate HeardWithin(n: Net, p: string, q: string, now: int) {
    p in n.procs && exists h :: h in n.heard && h.receiver == p && h.sender == q
                                && now - h.time < (n.procs[p].silenceInterval + 1) * 1_000_000
  }

  lemma HeardIsNotSwept(top: Topology, run: seq<Net>, steps: seq<Step>, k: nat, p: string, x: Publisher)
    requires Run(top, run, steps) && Freshness.Monotone(run, steps, p) && k < |steps|
    requires p in run[k].procs && x in run[k].procs[p].info && x.pUuid != p
    requires steps[k].SweepStep? && steps[k].p == p ==> HeardWithin(run[k], p, x.pUuid, steps[k].now)
    ensures !SweepsAway(run[k], steps[k], p, x.pUuid)
  {
    RunKeepsInv(top, run, steps, k);
    Freshness.RunKeepsLatest(top, run, steps, k, p);
    assert ProcOk(top.kind, run[k], p, run[k].procs[p]);
  }

  /** The owner does not withdraw it in this step, and if it is a sweep has been heard from in time. */
  ghost predicate Tended(run: seq<Net>, steps: seq<Step>, k: nat, p: string, x: Publisher)
    requires k < |steps| < |run|
  {
    && !Withdraws(run[k], steps[k], p, x)
    && (steps[k].SweepStep? && steps[k].p == p ==> HeardWithin(run[k], p, x.pUuid, steps[k].now))
  }

  lemma StepKeepsEntry(top: Topology, run: seq<Net>, steps: seq<Step>, k: nat, p: string, x: Publisher)
    requires Run(top, run, steps) && Freshness.Monotone(run, steps, p) && k < |steps|
    requires p in run[k].procs && p in run[k + 1].procs && x in run[k].procs[p].info && x.pUuid != p
    requires Tended(run, steps, k, p, x)
    ensures x in run[k + 1].procs[p].info
  {
    RunKeepsInv(top, run, steps, k);
    HeardIsNotSwept(top, run, steps, k, p, x);
    if x !in run[k + 1].procs[p].info { EntryGoesOnly(top, run[k], run[k + 1], steps[k], p, x); }
  }

  predicate Carries(run: seq<Net>, j: nat, p: string, x: Publisher)
    requires j + 1 < |run| && p in run[j].procs && p in run[j + 1].procs
  {
    x in run[j].procs[p].info ==> x in run[j + 1].procs[p].info
  }

  lemma {:induction false} CarriedAlong(run: seq<Net>, i: nat, k: nat, p: string, x: Publisher)
    requires i <= k < |run| && forall j | i <= j <= k :: p in run[j].procs
    requires forall j | i <= j < k :: Carries(run, j, p, x)
    requires x in run[i].procs[p].info
    ensures x in run[k].procs[p].info
    decreases k
  {
    if i < k {
      CarriedAlong(run, i, k - 1, p, x);
      assert Carries(run, k - 1, p, x);
    }
  }

  /** Over any stretch of a run, under a clock that never goes back: an entry stays as long as its owner does not
      withdraw it and is heard from within the interval before every sweep. */
  lemma HeardEntryStays(top: Topology, run: seq<Net>, steps: seq<Step>, i: nat, k: nat, p: string, x: Publisher)
    requires Run(top, run, steps) && Freshness.Monotone(run, steps, p) && i <= k < |run|
    requires forall j | i <= j <= k :: p in run[j].procs
    requires x in run[i].procs[p].info && x.pUuid != p
    requires forall j | i <= j < k :: Tended(run, steps, j, p, x)
    ensures x in run[k].procs[p].info
  {
    forall j | i <= j < k ensures Carries(run, j, p, x) {
      if x in run[j].procs[p].info { StepKeepsEntry(top, run, steps, j, p, x); }
    }
    CarriedAlong(run, i, k, p, x);
  }
}
