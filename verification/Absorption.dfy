/** When a trade row is uncertain or resolved, no more broker writes are made for it. That holds of a trade
    exactly while no attempt is open on it, so what matters is how a row can become uncertain or resolved
    under an open attempt: when another dispatcher's bookkeeping fails after its outcome was written, when an
    event ends the trade at its source, and when a reconciliation moves it. The controller lock held around
    every dispatch, send, unwind, event and reconciliation rules all three out. */
module Absorption {
  import opened Wrappers
  import opened Events
  import opened Identity
  import opened Journal
  import opened Protocol
  import R = Reconcile

  /** The attempt is claimed and its outcome is not yet written. */
  predicate IsOpen(p: Process) {
    p.pc in {Claimed, Noted, Called}
  }

  /** The outcome is written, and the dispatcher may still fail over what it does after. */
  predicate IsPast(p: Process) {
    p.pc in {Confirming, Withdrawing, Finished}
  }

  predicate Absorbed(l: Ledger, t: TradeId) {
    t in l.trades && l.trades[t].state in {Uncertain, Resolved}
  }

  predicate OpenOn(s: System, p: Pid, t: TradeId) {
    p in s.processes && IsOpen(s.processes[p]) && s.processes[p].trade == t
  }

  ghost predicate HasOpenAttempt(s: System, t: TradeId) {
    exists p :: OpenOn(s, p, t)
  }

  /** An open attempt has its trade to itself, and the row says so. */
  ghost predicate Covered(s: System, t: TradeId) {
    && (forall p :: OpenOn(s, p, t) ==> t in s.ledger.trades && s.ledger.trades[t].state == Dispatching)
    && (forall p, q :: OpenOn(s, p, t) && OpenOn(s, q, t) ==> p == q)
  }

  ghost predicate Plain(s: System) {
    forall p :: p in s.processes ==> IsPlan(s.processes[p].plan)
  }

  /** The trade an event would resolve, when it would. */
  predicate Ends(l: Ledger, e: Event, newId: TradeId, t: TradeId) {
    && newId !in l.trades && Record(l, e, newId).Recorded? && Identified(l, e, newId) == Some(t)
    && t in l.trades && l.trades[t].destination == "" && EndsAtSource(e)
  }

  predicate AllDifferent(ids: seq<TradeId>) {
    forall i, j :: 0 <= i < j < |ids| ==> ids[i] != ids[j]
  }

  /** A dispatcher of the trade fails after it wrote its outcome. */
  predicate Unsettles(s: System, step: Step, t: TradeId) {
    step.Fail? && step.pid in s.processes && s.processes[step.pid].trade == t && IsPast(s.processes[step.pid])
  }

  /** The three ways a step can move a row under an open attempt. */
  ghost predicate Disturbs(s: System, step: Step, t: TradeId) {
    && HasOpenAttempt(s, t)
    && match step
       case Fail(pid) => Unsettles(s, step, t)
       case Receive(event, newId) => Ends(s.ledger, event, newId, t)
       case Settle(account, ids, view) =>
         t in s.ledger.trades && AllDifferent(ids) && R.NewState(s.ledger, account, ids, view, t) != Dispatching
       case _ => false
  }

  // ---- what one step does to one trade ----

  predicate Acts(s: System, pid: Pid, t: TradeId, pcs: set<Pc>) {
    pid in s.processes && s.processes[pid].trade == t && s.processes[pid].pc in pcs
  }

  /** The row's state after the step. */
  ghost function StateAfter(s: System, step: Step, t: TradeId): TradeState
    requires t in s.ledger.trades
  {
    var state := s.ledger.trades[t].state;
    match step
    case Receive(event, newId) => if Ends(s.ledger, event, newId, t) then Resolved else state
    case Settle(account, ids, view) => if AllDifferent(ids) then R.NewState(s.ledger, account, ids, view, t) else state
    case Claim(pid) =>
      if Acts(s, pid, t, {Ready}) && Claimable(s.ledger, t, s.processes[pid].plan.action) then Dispatching else state
    case Confirm(pid, change) =>
      if Acts(s, pid, t, {Called}) && IsOutcome(s.processes[pid].plan, change) then change.state.value else state
    case Withdraw(pid, resume) =>
      if Acts(s, pid, t, {Noted}) && resume in {Observed, Pending, Open} then resume else state
    case Fail(pid) => if Acts(s, pid, t, {Noted, Called, Confirming, Withdrawing, Finished}) then Uncertain else state
    case Crash => if state == Dispatching then Uncertain else state
    case _ => state
  }

  lemma ReceiveMoves(s: System, event: Event, newId: TradeId, t: TradeId)
    requires t in s.ledger.trades
    ensures var n := Next(s, Step.Receive(event, newId));
            t in n.ledger.trades
            && n.ledger.trades[t].state == if Ends(s.ledger, event, newId, t) then Resolved
                                           else s.ledger.trades[t].state
  {
    if newId !in s.ledger.trades && Record(s.ledger, event, newId).Recorded? {
      RecordOnlyAdds(s.ledger, event, newId);
      var id := Identified(s.ledger, event, newId);
      if id.Some? && Ends(s.ledger, event, newId, id.value) {
        assert Record(s.ledger, event, newId).ledger.trades[id.value] == Touched(s.ledger.trades[id.value], event);
      }
    }
  }

  lemma UpdateMoves(l: Ledger, id: TradeId, c: Change, t: TradeId)
    requires t in l.trades
    ensures t in Update(l, id, c).trades
    ensures Update(l, id, c).trades[t].state == if id == t && c.state.Some? then c.state.value else l.trades[t].state
  {
    UpdateOnlyRow(l, id, c);
    hide Update;
  }

  lemma LedgerStateAfter(s: System, step: Step, t: TradeId)
    requires IsLedgerStep(step) && t in s.ledger.trades
    ensures t in Next(s, step).ledger.trades && Next(s, step).ledger.trades[t].state == StateAfter(s, step, t)
  {
    match step
    case Receive(event, newId) => ReceiveMoves(s, event, newId, t);
    case NotePosition(trade, position) => UpdateMoves(s.ledger, trade, NO_CHANGE.(positionId := Some(position)), t);
    case Settle(account, ids, view) =>
      if AllDifferent(ids) {
        R.ReconciliationIsSound(s.ledger, account, ids, view);
      }
      hide R.NewState;
      hide R.Reconciled;
    case _ =>
  }

  lemma OutcomeStateAfter(s: System, step: Step, t: TradeId)
    requires (step.Confirm? || step.Withdraw?) && t in s.ledger.trades
    ensures t in Next(s, step).ledger.trades && Next(s, step).ledger.trades[t].state == StateAfter(s, step, t)
  {
    hide Update;
    if step.pid in s.processes {
      var change := if step.Confirm? then step.change else NO_CHANGE.(state := Some(step.resume));
      UpdateMoves(s.ledger, s.processes[step.pid].trade, change, t);
    }
  }

  lemma MarkedStateAfter(s: System, step: Step, t: TradeId)
    requires (step.Note? || step.Fail?) && Plain(s) && t in s.ledger.trades
    ensures t in Next(s, step).ledger.trades && Next(s, step).ledger.trades[t].state == StateAfter(s, step, t)
  {
    hide Update;
    if step.pid in s.processes {
      var p := s.processes[step.pid];
      UpdateMoves(s.ledger, p.trade, if step.Note? then p.plan.before else NO_CHANGE.(state := Some(Uncertain)), t);
    }
  }

  lemma ProcessStateAfter(s: System, step: Step, t: TradeId)
    requires !IsLedgerStep(step) && Plain(s) && t in s.ledger.trades
    ensures t in Next(s, step).ledger.trades && Next(s, step).ledger.trades[t].state == StateAfter(s, step, t)
  {
    hide Update;
    if step.Confirm? || step.Withdraw? {
      OutcomeStateAfter(s, step, t);
      hide Next;
    } else if step.Note? || step.Fail? {
      MarkedStateAfter(s, step, t);
      hide Next;
    }
  }

  lemma StateAfterIs(s: System, step: Step, t: TradeId)
    requires Plain(s) && t in s.ledger.trades
    ensures t in Next(s, step).ledger.trades && Next(s, step).ledger.trades[t].state == StateAfter(s, step, t)
  {
    hide Next;
    if IsLedgerStep(step) {
      LedgerStateAfter(s, step, t);
    } else {
      ProcessStateAfter(s, step, t);
    }
  }

  /** Which attempts are open on a trade after the step: one more after a granted claim, one less after an
      outcome, a failure or the end of its dispatcher. */
  predicate OpenAfter(s: System, step: Step, p: Pid, t: TradeId) {
    match step
    case Claim(pid) =>
      if pid == p && Acts(s, p, t, {Ready}) then Claimable(s.ledger, t, s.processes[p].plan.action) else OpenOn(s, p, t)
    case Confirm(pid, change) =>
      OpenOn(s, p, t) && !(pid == p && Acts(s, p, t, {Called}) && IsOutcome(s.processes[p].plan, change))
    case Withdraw(pid, resume) =>
      OpenOn(s, p, t) && !(pid == p && Acts(s, p, t, {Noted}) && resume in {Observed, Pending, Open})
    case Fail(pid) => OpenOn(s, p, t) && !(pid == p && Acts(s, p, t, {Noted, Called}))
    case Stop(pid) => OpenOn(s, p, t) && pid != p
    case Crash => false
    case _ => OpenOn(s, p, t)
  }

  lemma OpenAfterIs(s: System, step: Step, p: Pid, t: TradeId)
    ensures OpenOn(Next(s, step), p, t) == OpenAfter(s, step, p, t)
  {
    hide Update;
    hide Journal.Finish;
    if IsLedgerStep(step) {
      LedgerStepGrows(s, step);
      hide Next;
    }
  }

  lemma NextKeepsPlain(s: System, step: Step)
    requires Plain(s)
    ensures Plain(Next(s, step))
  {
    if IsLedgerStep(step) {
      LedgerStepGrows(s, step);
      hide Next;
    }
  }

  lemma {:induction false} RunKeepsPlain(s: System, steps: seq<Step>)
    requires Plain(s)
    ensures Plain(Run(s, steps))
  {
    hide Next;
    if steps != [] {
      RunKeepsPlain(s, steps[..|steps| - 1]);
      NextKeepsPlain(Run(s, steps[..|steps| - 1]), steps[|steps| - 1]);
    }
  }

  predicate IsProcessStep(step: Step) {
    !IsLedgerStep(step) && !step.Begin? && !step.Crash?
  }

  lemma ActingIsOpen(s: System, p: Pid, t: TradeId)
    ensures Acts(s, p, t, {Noted}) || Acts(s, p, t, {Called}) || Acts(s, p, t, {Noted, Called}) ==> OpenOn(s, p, t)
    ensures Acts(s, p, t, {Noted, Called, Confirming, Withdrawing, Finished}) ==>
              OpenOn(s, p, t) || IsPast(s.processes[p])
  {
  }

  // ---- a covered trade stays covered exactly by the steps that do not disturb it ----

  lemma UndisturbedStaysCovered(s: System, step: Step, t: TradeId)
    requires Plain(s) && Covered(s, t) && !Disturbs(s, step, t)
    ensures Covered(Next(s, step), t)
  {
    hide Next;
    var n := Next(s, step);
    forall p ensures OpenOn(n, p, t) == OpenAfter(s, step, p, t) {
      OpenAfterIs(s, step, p, t);
    }
    forall p | OpenOn(n, p, t) ensures t in n.ledger.trades && n.ledger.trades[t].state == Dispatching {
      assert t in s.ledger.trades;
      StateAfterIs(s, step, t);
      assert OpenOn(s, p, t) ==> HasOpenAttempt(s, t);
      if IsProcessStep(step) {
        ActingIsOpen(s, step.pid, t);
      }
    }
  }

  lemma DisturbedIsNotCovered(s: System, step: Step, t: TradeId)
    requires Plain(s) && Covered(s, t) && Disturbs(s, step, t)
    ensures !Covered(Next(s, step), t) && HasOpenAttempt(Next(s, step), t)
  {
    hide Next;
    var p :| OpenOn(s, p, t);
    OpenAfterIs(s, step, p, t);
    StateAfterIs(s, step, t);
  }

  /** From a covered trade, a step leaves it covered exactly if it is not one of the three disturbances. */
  lemma CoveredIff(s: System, step: Step, t: TradeId)
    requires Plain(s) && Covered(s, t)
    ensures Covered(Next(s, step), t) <==> !Disturbs(s, step, t)
  {
    if Disturbs(s, step, t) {
      DisturbedIsNotCovered(s, step, t);
    } else {
      UndisturbedStaysCovered(s, step, t);
    }
  }

  // ---- absorption, exactly ----

  function SentFor(sent: seq<Sent>, t: TradeId): seq<Sent> {
    if sent == [] then []
    else
      var n := |sent| - 1;
      SentFor(sent[..n], t) + (if sent[n].trade == t then [sent[n]] else [])
  }

  lemma SentForAppend(sent: seq<Sent>, m: Sent, t: TradeId)
    ensures SentFor(sent + [m], t) == SentFor(sent, t) + (if m.trade == t then [m] else [])
  {
    assert (sent + [m])[..|sent|] == sent;
  }

  /** Only the call of an open attempt sends for its trade. */
  lemma SentAfter(s: System, step: Step, t: TradeId)
    ensures SentFor(Next(s, step).sent, t) != SentFor(s.sent, t) <==> step.Call? && Acts(s, step.pid, t, {Noted})
  {
    if IsLedgerStep(step) {
      LedgerStepGrows(s, step);
      hide Next;
    } else if step.Call? && At(s, step.pid, Noted) {
      var p := s.processes[step.pid];
      SentForAppend(s.sent, Sent(p.trade, p.plan.action, p.plan.account, p.plan.request), t);
    }
  }

  lemma AbsorbedStep(s: System, step: Step, t: TradeId)
    requires Plain(s) && Absorbed(s.ledger, t) && !HasOpenAttempt(s, t)
    ensures var n := Next(s, step);
            && Plain(n) && Absorbed(n.ledger, t) && !HasOpenAttempt(n, t) && SentFor(n.sent, t) == SentFor(s.sent, t)
            && (n.ledger.trades[t].state != s.ledger.trades[t].state ==>
                  n.ledger.trades[t].state == if Unsettles(s, step, t) then Uncertain else Resolved)
            && (s.ledger.trades[t].state == Resolved ==>
                  (n.ledger.trades[t].state != Resolved <==> Unsettles(s, step, t)))
  {
    hide Next;
    NextKeepsPlain(s, step);
    StateAfterIs(s, step, t);
    SentAfter(s, step, t);
    forall p ensures !OpenOn(Next(s, step), p, t) && !OpenOn(s, p, t) {
      OpenAfterIs(s, step, p, t);
    }
    if IsProcessStep(step) {
      ActingIsOpen(s, step.pid, t);
    } else if step.Settle? && AllDifferent(step.ids) && R.Resolves(s.ledger, step.account, step.ids, step.view, t) {
      R.ResolvedOnlyWhenGone(s.ledger, step.account, step.ids, step.view, t);
    }
    hide R.Resolves;
  }

  /** The row has left the absorbing states, or another broker write was made for the trade. */
  predicate Escapes(d: System, e: System, t: TradeId) {
    SentFor(e.sent, t) != SentFor(d.sent, t) || !Absorbed(e.ledger, t)
  }

  /** Absorption over runs, whatever happens in them: an uncertain or resolved row with no attempt open on
      it never leaves the two states, and no broker write is ever made for its trade again. */
  lemma {:induction false} AbsorbedForever(s: System, steps: seq<Step>, t: TradeId)
    requires Plain(s) && Absorbed(s.ledger, t) && !HasOpenAttempt(s, t)
    ensures !Escapes(s, Run(s, steps), t) && !HasOpenAttempt(Run(s, steps), t)
  {
    hide Next;
    if steps != [] {
      var front := steps[..|steps| - 1];
      AbsorbedForever(s, front, t);
      RunKeepsPlain(s, front);
      AbsorbedStep(Run(s, front), steps[|steps| - 1], t);
    }
  }

  /** The rest of an open attempt, up to something that should not happen to an absorbed trade. */
  function Rest(s: System, p: Pid): seq<Step>
    requires p in s.processes
  {
    if s.processes[p].pc == Called then [Step.Confirm(p, NO_CHANGE.(state := Some(Open)))]
    else if s.processes[p].pc == Noted then [Step.Call(p)]
    else [Step.Note(p), Step.Call(p)]
  }

  lemma OneStep(s: System, step: Step)
    ensures Run(s, [step]) == Next(s, step)
  {
    hide Next;
    RunSnoc(s, [], step);
    assert [] + [step] == [step];
  }

  lemma TwoSteps(s: System, a: Step, b: Step)
    ensures Run(s, [a, b]) == Next(Next(s, a), b)
  {
    hide Next;
    OneStep(s, a);
    RunSnoc(s, [a], b);
    assert [a] + [b] == [a, b];
  }

  lemma OpenAttemptEscapes(d: System, p: Pid, t: TradeId)
    requires Plain(d) && t in d.ledger.trades && OpenOn(d, p, t)
    ensures Escapes(d, Run(d, Rest(d, p)), t)
  {
    hide Next;
    match d.processes[p].pc
    case Called =>
      var step := Step.Confirm(p, NO_CHANGE.(state := Some(Open)));
      OneStep(d, step);
      StateAfterIs(d, step, t);
    case Noted =>
      OneStep(d, Step.Call(p));
      SentAfter(d, Step.Call(p), t);
    case Claimed =>
      TwoSteps(d, Step.Note(p), Step.Call(p));
      NoteStep(d, p);
      SentAfter(d, Step.Note(p), t);
      SentAfter(Next(d, Step.Note(p)), Step.Call(p), t);
  }

  /** An absorbed trade stays absorbed in every continuation exactly if no attempt is open on it. */
  lemma AbsorptionIff(d: System, t: TradeId)
    requires Plain(d) && Absorbed(d.ledger, t)
    ensures (forall more :: !Escapes(d, Run(d, more), t)) <==> !HasOpenAttempt(d, t)
  {
    if p :| OpenOn(d, p, t) {
      OpenAttemptEscapes(d, p, t);
    } else {
      forall more ensures !Escapes(d, Run(d, more), t) {
        AbsorbedForever(d, more, t);
      }
    }
  }

  /** When a step leaves a covered trade uncertain or resolved, some continuation writes for it again or
      reopens it exactly if the step disturbed it: failed bookkeeping, an event or a reconciliation that
      moved the row under an open attempt. */
  lemma EscapesIffDisturbed(s: System, step: Step, t: TradeId)
    requires Plain(s) && Covered(s, t) && Absorbed(Next(s, step).ledger, t)
    ensures (exists more :: Escapes(Next(s, step), Run(Next(s, step), more), t)) <==> Disturbs(s, step, t)
  {
    hide Next;
    NextKeepsPlain(s, step);
    AbsorptionIff(Next(s, step), t);
    if Disturbs(s, step, t) {
      DisturbedIsNotCovered(s, step, t);
    } else {
      UndisturbedStaysCovered(s, step, t);
    }
  }

  // ---- runs ----

  ghost predicate Undisturbed(s: System, steps: seq<Step>, t: TradeId) {
    forall k :: 0 <= k < |steps| ==> !Disturbs(Run(s, steps[..k]), steps[k], t)
  }

  lemma InitialIsCovered(s: System, t: TradeId)
    requires Initial(s)
    ensures Plain(s) && Covered(s, t)
  {
  }

  lemma {:induction false} UndisturbedRunsCover(s: System, steps: seq<Step>, t: TradeId)
    requires Plain(s) && Covered(s, t) && Undisturbed(s, steps, t)
    ensures Covered(Run(s, steps), t)
  {
    hide Next;
    hide Disturbs;
    if steps != [] {
      var front := steps[..|steps| - 1];
      forall k | 0 <= k < |front| ensures !Disturbs(Run(s, front[..k]), front[k], t) {
        assert front[..k] == steps[..k];
      }
      UndisturbedRunsCover(s, front, t);
      RunKeepsPlain(s, front);
      UndisturbedStaysCovered(Run(s, front), steps[|steps| - 1], t);
    }
  }

  predicate IsResolved(s: System, t: TradeId) {
    t in s.ledger.trades && s.ledger.trades[t].state == Resolved
  }

  /** Resolved is final in a run, from a trade with no open attempt, exactly if no dispatcher of it fails
      after having written its outcome. */
  lemma ResolvedIsTerminalIff(s: System, steps: seq<Step>, t: TradeId)
    requires Plain(s) && !HasOpenAttempt(s, t) && IsResolved(s, t)
    ensures (forall k :: 0 <= k <= |steps| ==> IsResolved(Run(s, steps[..k]), t))
            <==> (forall k :: 0 <= k < |steps| ==> !Unsettles(Run(s, steps[..k]), steps[k], t))
  {
    assert Absorbed(s.ledger, t);
    hide Run;
    hide Unsettles;
    hide IsResolved;
    if forall k :: 0 <= k < |steps| ==> !Unsettles(Run(s, steps[..k]), steps[k], t) {
      forall k | 0 <= k <= |steps| ensures IsResolved(Run(s, steps[..k]), t) {
        StaysResolved(s, steps, k, t);
      }
    } else {
      var k :| 0 <= k < |steps| && Unsettles(Run(s, steps[..k]), steps[k], t);
      if IsResolved(Run(s, steps[..k]), t) {
        OneMoreStep(s, steps, k, t);
        assert !IsResolved(Run(s, steps[..k + 1]), t);
      }
    }
  }

  lemma OneMoreStep(s: System, steps: seq<Step>, k: nat, t: TradeId)
    requires Plain(s) && Absorbed(s.ledger, t) && !HasOpenAttempt(s, t)
    requires k < |steps| && IsResolved(Run(s, steps[..k]), t)
    ensures IsResolved(Run(s, steps[..k + 1]), t) <==> !Unsettles(Run(s, steps[..k]), steps[k], t)
  {
    hide Next;
    assert steps[..k + 1] == steps[..k] + [steps[k]];
    RunSnoc(s, steps[..k], steps[k]);
    RunKeepsPlain(s, steps[..k]);
    AbsorbedForever(s, steps[..k], t);
    AbsorbedStep(Run(s, steps[..k]), steps[k], t);
  }

  lemma {:induction false} StaysResolved(s: System, steps: seq<Step>, k: nat, t: TradeId)
    requires Plain(s) && !HasOpenAttempt(s, t) && IsResolved(s, t) && k <= |steps|
    requires forall j :: 0 <= j < |steps| ==> !Unsettles(Run(s, steps[..j]), steps[j], t)
    ensures IsResolved(Run(s, steps[..k]), t)
  {
    hide Next;
    hide Unsettles;
    hide HasOpenAttempt;
    if k > 0 {
      hide Run;
      StaysResolved(s, steps, k - 1, t);
      OneMoreStep(s, steps, k - 1, t);
    }
  }

  // ---- crash and restart ----

  /** Stopping the process leaves no attempt in flight, and a trade uncertain after the restart exactly if
      its row was dispatching or uncertain. */
  lemma CrashIff(s: System, t: TradeId)
    requires t in s.ledger.trades
    ensures var n := Next(s, Step.Crash);
            && n.processes == map[] && (forall k :: k in n.ledger.attempts ==> n.ledger.attempts[k] != InFlight)
            && t in n.ledger.trades
            && (n.ledger.trades[t].state == Uncertain <==> s.ledger.trades[t].state in {Dispatching, Uncertain})
  {
  }

  /** In a run that does not disturb the trade, stopping anywhere between the claim and the outcome leaves it
      uncertain after the restart. */
  lemma CrashLeavesUncertain(s: System, steps: seq<Step>, t: TradeId)
    requires Plain(s) && Covered(s, t) && Undisturbed(s, steps, t) && HasOpenAttempt(Run(s, steps), t)
    ensures var n := Next(Run(s, steps), Step.Crash);
            && t in n.ledger.trades && n.ledger.trades[t].state == Uncertain && n.processes == map[]
            && forall k :: k in n.ledger.attempts ==> n.ledger.attempts[k] != InFlight
  {
    UndisturbedRunsCover(s, steps, t);
    var p :| OpenOn(Run(s, steps), p, t);
    CrashIff(Run(s, steps), t);
  }

  // ---- the controller lock ----

  /** A dispatcher begins only when none runs, and events and reconciliations are processed only when none
      has an attempt open. */
  ghost predicate UnderLock(s: System, step: Step) {
    && (step.Begin? ==> s.processes == map[])
    && (step.Receive? || step.Settle? ==> forall p :: p in s.processes ==> !IsOpen(s.processes[p]))
  }

  ghost predicate AllUnderLock(s: System, steps: seq<Step>) {
    forall k :: 0 <= k < |steps| ==> UnderLock(Run(s, steps[..k]), steps[k])
  }

  ghost predicate OneProcess(s: System) {
    forall p, q :: p in s.processes && q in s.processes ==> p == q
  }

  lemma ProcessesAfter(s: System, step: Step)
    ensures Next(s, step).processes.Keys <= s.processes.Keys + (if step.Begin? then {step.pid} else {})
  {
    if IsLedgerStep(step) {
      LedgerStepGrows(s, step);
      hide Next;
    }
  }

  lemma LockedPrefix(s: System, steps: seq<Step>, k: nat)
    requires AllUnderLock(s, steps) && k <= |steps|
    ensures AllUnderLock(s, steps[..k])
  {
    forall j | 0 <= j < k
      ensures UnderLock(Run(s, steps[..k][..j]), steps[..k][j])
    {
      assert steps[..k][..j] == steps[..j];
    }
  }

  lemma {:induction false} LockedRunsHaveOneProcess(s: System, steps: seq<Step>)
    requires s.processes == map[] && AllUnderLock(s, steps)
    ensures OneProcess(Run(s, steps))
  {
    hide Next;
    if steps != [] {
      var n := |steps| - 1;
      LockedPrefix(s, steps, n);
      LockedRunsHaveOneProcess(s, steps[..n]);
      assert UnderLock(Run(s, steps[..n]), steps[n]);
      ProcessesAfter(Run(s, steps[..n]), steps[n]);
    }
  }

  lemma LockedIsUndisturbed(s: System, steps: seq<Step>, t: TradeId)
    requires s.processes == map[] && AllUnderLock(s, steps)
    ensures Undisturbed(s, steps, t)
  {
    hide Next;
    forall k | 0 <= k < |steps|
      ensures !Disturbs(Run(s, steps[..k]), steps[k], t)
    {
      LockedPrefix(s, steps, k);
      LockedRunsHaveOneProcess(s, steps[..k]);
      assert UnderLock(Run(s, steps[..k]), steps[k]);
    }
  }

  /** From a restarted journal, while the lock is kept, a row that has become uncertain or resolved stays so
      in every continuation, and nothing more is written for its trade. */
  lemma LockedRunsAbsorb(s: System, steps: seq<Step>, more: seq<Step>, t: TradeId)
    requires Initial(s) && AllUnderLock(s, steps) && Absorbed(Run(s, steps).ledger, t)
    ensures !Escapes(Run(s, steps), Run(Run(s, steps), more), t)
  {
    hide Next;
    InitialIsCovered(s, t);
    LockedIsUndisturbed(s, steps, t);
    UndisturbedRunsCover(s, steps, t);
    RunKeepsPlain(s, steps);
    AbsorbedForever(Run(s, steps), more, t);
  }
}
