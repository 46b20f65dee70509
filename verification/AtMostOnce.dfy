/** Over every run, one action of one trade reaches the broker at most once: the attempt row is committed
    before the call and is never taken away, not by failure, redelivery, crash or restart. */
module AtMostOnce {
  import opened Journal
  import opened Protocol

  /** The process's own attempt is on record. */
  predicate HoldsAttempt(pc: Pc) {
    pc in {Claimed, Noted, Called, Confirming, Withdrawing, Failing, Finished}
  }

  predicate YetToCall(pc: Pc) {
    pc in {Claimed, Noted}
  }

  function KeyOf(p: Process): AttemptKey {
    AttemptKey(p.trade, p.plan.action)
  }

  function SentKey(m: Sent): AttemptKey {
    AttemptKey(m.trade, m.action)
  }

  ghost predicate Distinct(sent: seq<Sent>) {
    forall i, j :: 0 <= i < j < |sent| ==> SentKey(sent[i]) != SentKey(sent[j])
  }

  ghost predicate Once(s: System) {
    && (forall p :: p in s.processes && HoldsAttempt(s.processes[p].pc) ==> KeyOf(s.processes[p]) in s.ledger.attempts)
    && (forall p, q | p in s.processes && q in s.processes && p != q ::
          HoldsAttempt(s.processes[p].pc) && HoldsAttempt(s.processes[q].pc) ==>
            KeyOf(s.processes[p]) != KeyOf(s.processes[q]))
    && (forall m :: m in s.sent ==> SentKey(m) in s.ledger.attempts)
    && (forall p, m :: p in s.processes && m in s.sent && YetToCall(s.processes[p].pc) ==>
        SentKey(m) != KeyOf(s.processes[p]))
    && Distinct(s.sent)
  }

  /** The steps that neither claim nor call. */
  predicate IsQuiet(step: Step) {
    !step.Claim? && !step.Call? && !IsLedgerStep(step)
  }

  lemma QuietSteps(s: System, step: Step)
    requires IsQuiet(step)
    ensures var n := Next(s, step);
            && n.sent == s.sent
            && forall p :: p in n.processes && HoldsAttempt(n.processes[p].pc) ==>
                 && p in s.processes && HoldsAttempt(s.processes[p].pc)
                 && KeyOf(n.processes[p]) == KeyOf(s.processes[p])
                 && (YetToCall(n.processes[p].pc) ==> YetToCall(s.processes[p].pc))
  {
    hide Journal.Finish;
    hide Update;
  }

  lemma ClaimKeepsOnce(s: System, pid: Pid)
    requires Once(s)
    ensures Once(Next(s, Step.Claim(pid)))
  {
  }

  lemma CallKeepsOnce(s: System, pid: Pid)
    requires Once(s)
    ensures Once(Next(s, Step.Call(pid)))
  {
  }

  lemma NextKeepsOnce(s: System, step: Step)
    requires Once(s)
    ensures Once(Next(s, step))
  {
    if IsLedgerStep(step) {
      LedgerStepGrows(s, step);
    } else if step.Claim? {
      ClaimKeepsOnce(s, step.pid);
    } else if step.Call? {
      CallKeepsOnce(s, step.pid);
    } else {
      ProcessStepGrows(s, step);
      QuietSteps(s, step);
    }
  }

  lemma {:induction false} RunKeepsOnce(s: System, steps: seq<Step>)
    requires Once(s)
    ensures Once(Run(s, steps))
  {
    if steps != [] {
      RunKeepsOnce(s, steps[..|steps| - 1]);
      NextKeepsOnce(Run(s, steps[..|steps| - 1]), steps[|steps| - 1]);
    }
  }

  /** However the run goes, no two broker calls share a trade and an action key. */
  lemma OneCallPerAction(s: System, steps: seq<Step>, i: nat, j: nat)
    requires Initial(s)
    requires i < j < |Run(s, steps).sent|
    ensures SentKey(Run(s, steps).sent[i]) != SentKey(Run(s, steps).sent[j])
  {
    RunKeepsOnce(s, steps);
  }

  /** Every creating write carries the one key that allows no second. */
  ghost predicate Planned(s: System) {
    && (forall p :: p in s.processes ==> IsPlan(s.processes[p].plan))
    && (forall m :: m in s.sent ==> (Creates(m.request) <==> m.action == "CREATE"))
  }

  lemma NextKeepsPlanned(s: System, step: Step)
    requires Planned(s)
    ensures Planned(Next(s, step))
  {
    hide Journal.Finish;
    hide Update;
    if IsLedgerStep(step) {
      LedgerStepGrows(s, step);
      hide Next;
    }
  }

  lemma {:induction false} RunKeepsPlanned(s: System, steps: seq<Step>)
    requires Planned(s)
    ensures Planned(Run(s, steps))
  {
    if steps != [] {
      RunKeepsPlanned(s, steps[..|steps| - 1]);
      NextKeepsPlanned(Run(s, steps[..|steps| - 1]), steps[|steps| - 1]);
    }
  }

  /** However the run goes, one trade is opened or placed at the broker at most once in its life. */
  lemma OneCreatePerTrade(s: System, steps: seq<Step>, i: nat, j: nat)
    requires Initial(s)
    requires i < |Run(s, steps).sent| && j < |Run(s, steps).sent|
    requires Creates(Run(s, steps).sent[i].request) && Creates(Run(s, steps).sent[j].request)
    requires Run(s, steps).sent[i].trade == Run(s, steps).sent[j].trade
    ensures i == j
  {
    RunKeepsPlanned(s, steps);
    var sent := Run(s, steps).sent;
    assert sent[i] in sent && sent[j] in sent;
    if i != j {
      OneCallPerAction(s, steps, if i < j then i else j, if i < j then j else i);
    }
  }
}
