/** What a sweep guarantees when the clock of the process never goes back. */
module Freshness {
  import opened Publishers
  import opened Protocol
  import opened Network

  /** Process p reads its clock in this step. */
  predicate Ticks(n: Net, step: Step, p: string) {
    || (step.Deliver? && step.i < |n.flying| && n.flying[step.i].dst == p)
    || ((step.HeartbeatStep? || step.SweepStep?) && step.p == p)
  }

  ghost predicate ClockOfStep(n: Net, step: Step, p: string, time: int) {
    Ticks(n, step, p) && step.now == time
  }

  /** The readings of p's clock never go back. */
  ghost predicate Monotone(run: seq<Net>, steps: seq<Step>, p: string)
    requires |run| > |steps|
  {
    forall i, j | 0 <= i < j < |steps| && Ticks(run[i], steps[i], p) && Ticks(run[j], steps[j], p) ::
      steps[i].now <= steps[j].now
  }

  /** Every hearing so far was timed by a reading of the hearer's clock. */
  ghost predicate HeardOnTime(run: seq<Net>, steps: seq<Step>, k: nat, p: string)
    requires k < |run| && |run| == |steps| + 1
  {
    forall h | h in run[k].heard && h.receiver == p :: exists j | 0 <= j < k :: ClockOfStep(run[j], steps[j], p, h.time)
  }

  /** The activity of q at p is the latest hearing of q. */
  predicate Latest(n: Net, p: string, s: State) {
    forall h | h in n.heard && h.receiver == p && h.sender in s.activity :: h.time <= s.activity[h.sender]
  }

  lemma NextHears(top: Topology, n: Net, n': Net, step: Step, h: Heard)
    requires Next(top, n, n', step) && h in n'.heard && h !in n.heard
    ensures step.Deliver? && ClockOfStep(n, step, h.receiver, h.time)
  {
  }

  lemma StepHears(top: Topology, run: seq<Net>, steps: seq<Step>, k: nat, h: Heard)
    requires Run(top, run, steps) && k < |steps| && h in run[k + 1].heard && h !in run[k].heard
    ensures ClockOfStep(run[k], steps[k], h.receiver, h.time)
  {
    NextHears(top, run[k], run[k + 1], steps[k], h);
  }

  lemma {:induction false} HeardInStep(top: Topology, run: seq<Net>, steps: seq<Step>, k: nat, h: Heard)
    returns (j: nat)
    requires Run(top, run, steps) && k < |run| && h in run[k].heard
    ensures j < k && ClockOfStep(run[j], steps[j], h.receiver, h.time)
  {
    assert k > 0;
    if h in run[k - 1].heard {
      j := HeardInStep(top, run, steps, k - 1, h);
    } else {
      j := k - 1;
      StepHears(top, run, steps, j, h);
    }
  }

  lemma RunHearsOnTime(top: Topology, run: seq<Net>, steps: seq<Step>, k: nat, p: string)
    requires Run(top, run, steps) && k < |run|
    ensures HeardOnTime(run, steps, k, p)
  {
    forall h | h in run[k].heard && h.receiver == p
      ensures exists j | 0 <= j < k :: ClockOfStep(run[j], steps[j], p, h.time)
    {
      var j := HeardInStep(top, run, steps, k, h);
    }
  }

  /** Handling a message forgets activity, at most. */
  lemma HandleKeepsActivity(s: State, from: string, m: Message, answers: seq<Publisher>)
    ensures var a := Handle(s, from, m, answers).next.activity;
            forall q | q in a :: q in s.activity && a[q] == s.activity[q]
  {
  }

  /** A step leaves the activity of q at p as it was, with no new hearing, or sets it to the time of the step. */
  ghost predicate ActivityMoves(n: Net, n': Net, step: Step, p: string, q: string)
    requires p in n'.procs && q in n'.procs[p].activity
  {
    || ClockOfStep(n, step, p, n'.procs[p].activity[q])
    || (p in n.procs && q in n.procs[p].activity && n'.procs[p].activity[q] == n.procs[p].activity[q]
        && forall h | h in n'.heard && h.receiver == p && h.sender == q :: h in n.heard)
  }

  lemma DeliverMovesActivity(top: Topology, n: Net, n': Net, step: Step, p: string, q: string)
    requires step.Deliver? && Next(top, n, n', step) && p in n'.procs && q in n'.procs[p].activity
    ensures ActivityMoves(n, n', step, p, q)
  {
    var pkt := n.flying[step.i];
    var s := n.procs[pkt.dst];
    if Processes(s, pkt.msg) {
      HandleKeepsActivity(s.(activity := s.activity[pkt.msg.process := step.now]), pkt.from, pkt.msg, step.answers);
    }
  }

  lemma NextMovesActivity(top: Topology, n: Net, n': Net, step: Step, p: string, q: string)
    requires Next(top, n, n', step) && p in n'.procs && q in n'.procs[p].activity
    ensures ActivityMoves(n, n', step, p, q)
  {
    if step.Deliver? { DeliverMovesActivity(top, n, n', step, p, q); }
  }

  lemma NextKeepsLatest(top: Topology, run: seq<Net>, steps: seq<Step>, k: nat, p: string)
    requires Run(top, run, steps) && k < |steps| && Monotone(run, steps, p) && HeardOnTime(run, steps, k + 1, p)
    requires p in run[k + 1].procs && (p in run[k].procs ==> Latest(run[k], p, run[k].procs[p]))
    ensures Latest(run[k + 1], p, run[k + 1].procs[p])
  {
    assert Next(top, run[k], run[k + 1], steps[k]);
    var s' := run[k + 1].procs[p];
    forall h | h in run[k + 1].heard && h.receiver == p && h.sender in s'.activity
      ensures h.time <= s'.activity[h.sender]
    {
      NextMovesActivity(top, run[k], run[k + 1], steps[k], p, h.sender);
      if ClockOfStep(run[k], steps[k], p, s'.activity[h.sender]) {
        var j :| 0 <= j < k + 1 && ClockOfStep(run[j], steps[j], p, h.time);
      }
    }
  }

  lemma {:induction false} RunKeepsLatest(top: Topology, run: seq<Net>, steps: seq<Step>, k: nat, p: string)
    requires Run(top, run, steps) && k < |run| && Monotone(run, steps, p) && p in run[k].procs
    ensures Latest(run[k], p, run[k].procs[p])
  {
    if k > 0 {
      RunHearsOnTime(top, run, steps, k, p);
      if p in run[k - 1].procs { RunKeepsLatest(top, run, steps, k - 1, p); }
      NextKeepsLatest(top, run, steps, k - 1, p);
    }
  }

  /** After a sweep that ran, under a clock that never goes back, every other process with an entry was last heard from
      at a time not after the sweep and within the silence interval before it, counted in whole milliseconds. */
  lemma FreshAfterSweep(top: Topology, run: seq<Net>, steps: seq<Step>, k: nat, p: string, x: Publisher)
    returns (h: Heard)
    requires Run(top, run, steps) && Monotone(run, steps, p)
    requires k < |steps| && steps[k].SweepStep? && steps[k].p == p && p in run[k].procs && p in run[k + 1].procs
    requires steps[k].now >= run[k].procs[p].timeNextActivity
    requires x in run[k + 1].procs[p].info && x.pUuid != p
    ensures h in run[k + 1].heard && h.receiver == p && h.sender == x.pUuid
    ensures forall g | g in run[k + 1].heard && g.receiver == p && g.sender == x.pUuid :: g.time <= h.time
    ensures h.time <= steps[k].now && Milliseconds(steps[k].now - h.time) <= run[k].procs[p].silenceInterval
  {
    RunKeepsInv(top, run, steps, k);
    assert Next(top, run[k], run[k + 1], steps[k]);
    var s := run[k].procs[p];
    assert ProcOk(top.kind, run[k], p, s);
    h := Heard(p, x.pUuid, s.activity[x.pUuid]);
    assert h in run[k].heard && x.pUuid !in Expired(s, steps[k].now);
    RunKeepsLatest(top, run, steps, k, p);
    RunHearsOnTime(top, run, steps, k, p);
    var j :| 0 <= j < k && ClockOfStep(run[j], steps[j], p, h.time);
  }
}
