/** Over every run, all the writes that close, partly close or edit one broker position are made for one
    trade. The trade links the position before it asks whether it owns it alone, and no link is ever
    removed, so of two contenders the later one sees both. */
module SingleWriter {
  import opened Events
  import opened Identity
  import opened Journal
  import opened Protocol

  predicate Names(p: Process) {
    ActsOnPosition(p.plan.request) && p.plan.request.target != ""
  }

  function LinkOf(c: Clearance): Link {
    Identity.Link(c.trade, Destination, c.scope, PositionLink, c.position)
  }

  function ClearanceOf(l: Ledger, m: Sent): Clearance {
    Clearance(m.trade, DestinationScope(l, m.account), m.request.target)
  }

  predicate ActsByName(m: Sent) {
    ActsOnPosition(m.request) && m.request.target != ""
  }

  /** Where a process stands: linked before the guard, cleared after it. */
  ghost predicate InOrder(s: System, p: Process) {
    && (p.pc in {Reading, LinkedPosition} ==> ActsOnPosition(p.plan.request))
    && (Names(p) && p.pc != Reading ==> LinkOf(Target(s, p)) in Links(s.ledger))
    && (Names(p) && p.pc !in {Reading, LinkedPosition} ==> Target(s, p) in s.cleared)
  }

  ghost predicate Owned(s: System) {
    && (forall pid :: pid in s.processes ==> InOrder(s, s.processes[pid]))
    && (forall c :: c in s.cleared && c.position != "" ==> LinkOf(c) in Links(s.ledger))
    && (forall c, d :: c in s.cleared && d in s.cleared && c.position == d.position != "" && c.scope == d.scope ==>
        c.trade == d.trade)
    && (forall m :: m in s.sent && ActsByName(m) ==> ClearanceOf(s.ledger, m) in s.cleared)
  }

  /** The guard hands a position to one trade only. */
  lemma GuardClearsOneTrade(s: System, pid: Pid)
    requires Owned(s) && At(s, pid, LinkedPosition) && Unshared(Links(s.ledger), s.processes[pid].trade)
    ensures Owned(Next(s, Step.Guard(pid)))
  {
    var mine := Target(s, s.processes[pid]);
    if Names(s.processes[pid]) {
      forall c | c in s.cleared && c.position == mine.position && c.scope == mine.scope
        ensures c.trade == mine.trade
      {
        UnsharedMeansSoleOwner(Links(s.ledger), LinkOf(mine), LinkOf(c));
      }
    }
  }

  lemma LinkKeepsOwned(s: System, pid: Pid, positions: seq<Position>, at: int)
    requires Owned(s)
    ensures Owned(Next(s, Step.Link(pid, positions, at)))
  {
    if At(s, pid, Reading) && Lists(positions, s.processes[pid].plan.request.target) {
      PositionLinkedAdds(s.ledger, s.processes[pid].trade, s.processes[pid].plan.account, positions);
    }
  }

  predicate PastGuard(pc: Pc) {
    pc !in {Reading, LinkedPosition}
  }

  /** p has become q without passing the guard. */
  predicate Continues(p: Process, q: Process) {
    q.trade == p.trade && q.plan == p.plan && (q.pc == p.pc || (PastGuard(p.pc) && PastGuard(q.pc)))
  }

  predicate Starts(q: Process) {
    q.pc == if ActsOnPosition(q.plan.request) then Reading else Ready
  }

  lemma OtherStepsContinue(s: System, step: Step)
    requires !IsLedgerStep(step) && !step.Guard? && !step.Link?
    ensures var n := Next(s, step);
            && n.cleared == s.cleared
            && (forall pid :: pid in n.processes ==>
                  if pid in s.processes then Continues(s.processes[pid], n.processes[pid])
                  else Starts(n.processes[pid]))
  {
    hide Journal.Update;
    hide Journal.Finish;
    hide Journal.Claim;
    hide Journal.Record;
  }

  /** The other steps neither clear a position nor let an uncleared process past the guard. */
  lemma OtherSteps(s: System, step: Step)
    requires !IsLedgerStep(step) && !step.Guard? && !step.Link?
    ensures var n := Next(s, step);
            && n.cleared == s.cleared
            && (forall pid :: pid in n.processes ==>
                  if pid in s.processes then Continues(s.processes[pid], n.processes[pid])
                  else Starts(n.processes[pid]))
            && (forall m :: m in n.sent && m !in s.sent ==>
                  exists pid :: pid in s.processes && PastGuard(s.processes[pid].pc)
                             && m == Sent(s.processes[pid].trade, s.processes[pid].plan.action,
                                          s.processes[pid].plan.account, s.processes[pid].plan.request))
  {
    OtherStepsContinue(s, step);
    hide Continues;
    hide Starts;
    hide Journal.Update;
    hide Journal.Finish;
  }

  lemma OtherStepKeepsOwned(s: System, step: Step)
    requires Owned(s) && !IsLedgerStep(step) && !step.Guard? && !step.Link?
    ensures Owned(Next(s, step))
  {
    var n := Next(s, step);
    ProcessStepGrows(s, step);
    OtherSteps(s, step);
    hide Next;
    forall pid | pid in n.processes
      ensures InOrder(n, n.processes[pid])
    {
      if pid in s.processes {
        StaysInOrder(s, n, s.processes[pid], n.processes[pid]);
      }
    }
    hide InOrder;
    hide Continues;
    hide Starts;
  }

  lemma StaysInOrder(s: System, n: System, p: Process, q: Process)
    requires InOrder(s, p) && Continues(p, q) && n.cleared == s.cleared
    requires Links(s.ledger) <= Links(n.ledger) && n.ledger.broker == s.ledger.broker
    ensures InOrder(n, q)
  {
  }

  lemma NextKeepsOwned(s: System, step: Step)
    requires Owned(s)
    ensures Owned(Next(s, step))
  {
    if IsLedgerStep(step) {
      LedgerStepGrows(s, step);
    } else if step.Link? {
      LinkKeepsOwned(s, step.pid, step.positions, step.at);
    } else if step.Guard? {
      if At(s, step.pid, LinkedPosition) && Unshared(Links(s.ledger), s.processes[step.pid].trade) {
        GuardClearsOneTrade(s, step.pid);
      }
    } else {
      OtherStepKeepsOwned(s, step);
    }
  }

  lemma {:induction false} RunKeepsOwned(s: System, steps: seq<Step>)
    requires Owned(s)
    ensures Owned(Run(s, steps))
  {
    if steps != [] {
      RunKeepsOwned(s, steps[..|steps| - 1]);
      NextKeepsOwned(Run(s, steps[..|steps| - 1]), steps[|steps| - 1]);
    }
  }

  /** Two writes to one position of one account are writes for one trade. */
  lemma OneTradePerPosition(s: System, steps: seq<Step>, a: Sent, b: Sent)
    requires Initial(s)
    requires a in Run(s, steps).sent && b in Run(s, steps).sent
    requires ActsByName(a) && ActsByName(b)
    requires a.account == b.account && a.request.target == b.request.target
    ensures a.trade == b.trade
  {
    RunKeepsOwned(s, steps);
    var l := Run(s, steps).ledger;
    assert ClearanceOf(l, a) in Run(s, steps).cleared && ClearanceOf(l, b) in Run(s, steps).cleared;
  }
}
