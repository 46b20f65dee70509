/** The router's dispatch, the manual send and the unwind, left undisturbed, are runs of the protocol:
    what is proved of every interleaving is proved of them and of any mixture of their steps. */
module Refinement {
  import opened Wrappers
  import opened Events
  import opened Identity
  import opened Journal
  import opened Attempts
  import opened Protocol
  import opened Absorption
  import Router
  import M = ManualSend
  import U = Unwind

  /** n is s after a whole attempt: its ledger, its one call if one was made, and no process left over. */
  ghost predicate Matches(s: System, n: System, id: TradeId, account: string, action: string, ledger: Ledger,
                          sent: seq<Request>)
  {
    && n.ledger == ledger && n.processes == s.processes
    && n.sent == s.sent + (if sent == [] then [] else [Sent(id, action, account, sent[0])])
  }

  predicate IsReply(plan: Plan, reply: Reply) {
    match reply
    case Confirmed(change) => IsOutcome(plan, change)
    case Unconfirmed => true
    case NotSent(resume) => resume in {Observed, Pending, Open}
  }

  /** The steps of one attempt, from ready to its end. */
  function AttemptSteps(pid: Pid, reply: Reply): seq<Step> {
    (match reply
     case Confirmed(change) =>
       [Step.Claim(pid), Step.Note(pid), Step.Call(pid), Step.Confirm(pid, change), Step.Finish(pid)]
     case Unconfirmed => [Step.Claim(pid), Step.Note(pid), Step.Call(pid), Step.Fail(pid), Step.Finish(pid)]
     case NotSent(resume) => [Step.Claim(pid), Step.Note(pid), Step.Withdraw(pid, resume), Step.Finish(pid)])
    + [Step.Stop(pid)]
  }

  lemma FourSteps(s: System, a: Step, b: Step, c: Step, d: Step)
    ensures Run(s, [a, b, c, d]) == Next(Next(Next(Next(s, a), b), c), d)
  {
    hide Next;
    RunSnoc(s, [], a);
    RunSnoc(s, [a], b);
    RunSnoc(s, [a, b], c);
    RunSnoc(s, [a, b, c], d);
    assert [] + [a] == [a] && [a] + [b] == [a, b] && [a, b] + [c] == [a, b, c] && [a, b, c] + [d] == [a, b, c, d];
  }

  lemma FiveSteps(s: System, a: Step, b: Step, c: Step, d: Step, e: Step)
    ensures Run(s, [a, b, c, d, e]) == Next(Next(Next(Next(Next(s, a), b), c), d), e)
  {
    hide Next;
    FourSteps(s, a, b, c, d);
    RunSnoc(s, [a, b, c, d], e);
    assert [a, b, c, d] + [e] == [a, b, c, d, e];
  }

  /** A refused claim ends the process; every later step of it is then disabled. */
  lemma GoneStays(s: System, pid: Pid, step: Step)
    requires pid !in s.processes
    requires step in {Step.Note(pid), Step.Call(pid), Step.Fail(pid), Step.Finish(pid), Step.Stop(pid)}
          || (step.Confirm? && step.pid == pid) || (step.Withdraw? && step.pid == pid)
    ensures Next(s, step) == s
  {
  }

  /** The step that writes what the answer established. */
  function ReplyStep(pid: Pid, reply: Reply): Step {
    match reply
    case Confirmed(change) => Step.Confirm(pid, change)
    case Unconfirmed => Step.Fail(pid)
    case NotSent(resume) => Step.Withdraw(pid, resume)
  }

  lemma ReplyAndFinish(s: System, pid: Pid, reply: Reply)
    requires At(s, pid, if reply.NotSent? then Noted else Called) && IsReply(s.processes[pid].plan, reply)
    ensures var p := s.processes[pid];
            Next(Next(Next(s, ReplyStep(pid, reply)), Step.Finish(pid)), Step.Stop(pid))
            == s.(processes := s.processes - {pid}, ledger := Settled(s.ledger, p.trade, p.plan.action, reply))
  {
    var p := s.processes[pid];
    var n := Next(s, ReplyStep(pid, reply));
    ReplyStepIs(s, pid, reply);
    FinishThenStop(n, pid);
    hide Next;
    assert n.processes - {pid} == s.processes - {pid};
  }

  /** How far the dispatcher is once it has its reply. */
  function PcAfter(reply: Reply): Pc {
    match reply
    case Confirmed(_) => Confirming
    case NotSent(_) => Withdrawing
    case Unconfirmed => Failing
  }

  lemma ReplyStepIs(s: System, pid: Pid, reply: Reply)
    requires At(s, pid, if reply.NotSent? then Noted else Called) && IsReply(s.processes[pid].plan, reply)
    ensures var p := s.processes[pid];
            Next(s, ReplyStep(pid, reply))
            == s.(processes := s.processes[pid := p.(pc := PcAfter(reply))],
                  ledger := Update(s.ledger, p.trade, ChangeOf(reply)))
  {
    hide Update;
  }

  /** What the steps of an attempt come to, one after the other. */
  function AfterSteps(s: System, pid: Pid, reply: Reply): System {
    var noted := Next(Next(s, Step.Claim(pid)), Step.Note(pid));
    var called := if reply.NotSent? then noted else Next(noted, Step.Call(pid));
    Next(Next(Next(called, ReplyStep(pid, reply)), Step.Finish(pid)), Step.Stop(pid))
  }

  lemma AttemptStepsAre(s: System, pid: Pid, reply: Reply)
    ensures Run(s, AttemptSteps(pid, reply)) == AfterSteps(s, pid, reply)
  {
    hide Next;
    hide Run;
    var all, stop := AttemptSteps(pid, reply), Step.Stop(pid);
    var core := all[..|all| - 1];
    RunSnoc(s, core, stop);
    assert all == core + [stop];
    if reply.NotSent? {
      assert core == [Step.Claim(pid), Step.Note(pid), ReplyStep(pid, reply), Step.Finish(pid)];
      FourSteps(s, Step.Claim(pid), Step.Note(pid), ReplyStep(pid, reply), Step.Finish(pid));
    } else {
      assert core == [Step.Claim(pid), Step.Note(pid), Step.Call(pid), ReplyStep(pid, reply), Step.Finish(pid)];
      FiveSteps(s, Step.Claim(pid), Step.Note(pid), Step.Call(pid), ReplyStep(pid, reply), Step.Finish(pid));
    }
  }

  lemma RefusedAttempt(s: System, pid: Pid, reply: Reply)
    requires At(s, pid, Ready) && IsReply(s.processes[pid].plan, reply)
    requires var p := s.processes[pid];
             Journal.Claim(s.ledger, p.trade, p.plan.action, p.plan.account, p.plan.request).None?
    ensures AfterSteps(s, pid, reply) == s.(processes := s.processes - {pid})
  {
    hide Next;
    hide Journal.Claim;
    var s1 := Next(s, Step.Claim(pid));
    ClaimStep(s, pid);
    GoneStays(s1, pid, Step.Note(pid));
    GoneStays(s1, pid, Step.Call(pid));
    GoneStays(s1, pid, ReplyStep(pid, reply));
    GoneStays(s1, pid, Step.Finish(pid));
    GoneStays(s1, pid, Step.Stop(pid));
  }

  lemma GrantedAttempt(s: System, pid: Pid, reply: Reply)
    requires At(s, pid, Ready) && IsReply(s.processes[pid].plan, reply)
    requires var p := s.processes[pid];
             Journal.Claim(s.ledger, p.trade, p.plan.action, p.plan.account, p.plan.request).Some?
    ensures var p, t := s.processes[pid], AfterSteps(s, pid, reply);
            var claimed := Journal.Claim(s.ledger, p.trade, p.plan.action, p.plan.account, p.plan.request).value;
            && t.processes == s.processes - {pid}
            && t.ledger == Settled(Update(claimed, p.trade, p.plan.before), p.trade, p.plan.action, reply)
            && t.sent == s.sent + (if reply.NotSent? then []
                                   else [Sent(p.trade, p.plan.action, p.plan.account, p.plan.request)])
  {
    hide Next;
    hide Update;
    hide Settled;
    hide Journal.Claim;
    hide IsReply;
    var s1 := Next(s, Step.Claim(pid));
    ClaimStep(s, pid);
    NoteStep(s1, pid);
    var s2 := Next(s1, Step.Note(pid));
    var s3 := if reply.NotSent? then s2 else Next(s2, Step.Call(pid));
    if !reply.NotSent? {
      CallStep(s2, pid);
    }
    ReplyAndFinish(s3, pid, reply);
    assert s3.processes - {pid} == s.processes - {pid};
  }

  /** A ready process that runs undisturbed does exactly what Performs says. */
  lemma AttemptIsRun(s: System, pid: Pid, reply: Reply)
    requires At(s, pid, Ready) && IsReply(s.processes[pid].plan, reply)
    ensures var p := s.processes[pid];
            var d := Performs(s.ledger, p.trade, p.plan, reply);
            Matches(s.(processes := s.processes - {pid}), Run(s, AttemptSteps(pid, reply)), p.trade, p.plan.account,
                    p.plan.action, d.ledger, d.sent)
  {
    hide Next;
    hide Update;
    hide Settled;
    hide Run;
    hide AfterSteps;
    hide Journal.Claim;
    var p := s.processes[pid];
    AttemptStepsAre(s, pid, reply);
    if Journal.Claim(s.ledger, p.trade, p.plan.action, p.plan.account, p.plan.request).None? {
      RefusedAttempt(s, pid, reply);
    } else {
      GrantedAttempt(s, pid, reply);
    }
  }

  // ---- getting to ready ----

  lemma LinkStep(s: System, pid: Pid, positions: seq<Position>, at: int)
    requires At(s, pid, Reading) && Lists(positions, s.processes[pid].plan.request.target)
    ensures var p := s.processes[pid];
            Next(s, Step.Link(pid, positions, at))
            == s.(processes := s.processes[pid := p.(pc := LinkedPosition)],
                  ledger := ObservePositions(s.ledger, p.trade, p.plan.account, positions, at))
  {
  }

  lemma GuardStep(s: System, pid: Pid)
    requires At(s, pid, LinkedPosition) && Unshared(Links(s.ledger), s.processes[pid].trade)
    ensures Next(s, Step.Guard(pid))
         == s.(processes := s.processes[pid := s.processes[pid].(pc := Ready)],
               cleared := s.cleared + {Target(s, s.processes[pid])})
  {
  }

  lemma NotePositionStep(s: System, id: TradeId, position: string)
    requires Places(s.ledger, id)
    ensures Next(s, Step.NotePosition(id, position))
         == s.(ledger := Update(s.ledger, id, NO_CHANGE.(positionId := Some(position))))
  {
  }

  lemma ObserveStep(s: System, id: TradeId, account: string, positions: seq<Position>, at: int)
    ensures Next(s, Step.Observe(id, account, positions, at))
         == s.(ledger := ObservePositions(s.ledger, id, account, positions, at))
  {
  }

  /** Running first to s' and from there to n is running to n. */
  lemma Continue(s: System, front: seq<Step>, back: seq<Step>)
    ensures Run(s, front + back) == Run(Run(s, front), back)
  {
    RunsCompose(s, front, back);
  }

  /** A write that acts on no position: begin, then the attempt. */
  lemma PlainAttempt(s: System, pid: Pid, id: TradeId, plan: Plan, reply: Reply) returns (steps: seq<Step>)
    requires pid !in s.processes && IsPlan(plan) && KeepsLots(s.ledger, id, plan) && !ActsOnPosition(plan.request)
    requires IsReply(plan, reply)
    ensures var d := Performs(s.ledger, id, plan, reply);
            Matches(s, Run(s, steps), id, plan.account, plan.action, d.ledger, d.sent)
  {
    hide Next;
    hide Run;
    hide Performs;
    var ready := Next(s, Step.Begin(pid, id, plan));
    BeginStep(s, pid, id, plan);
    OneStep(s, Step.Begin(pid, id, plan));
    AttemptIsRun(ready, pid, reply);
    Continue(s, [Step.Begin(pid, id, plan)], AttemptSteps(pid, reply));
    steps := [Step.Begin(pid, id, plan)] + AttemptSteps(pid, reply);
    assert ready.processes - {pid} == s.processes;
  }

  /** The ledger once a position has been linked, and noted on the row or not. */
  function LinkedAndNoted(l: Ledger, id: TradeId, account: string, p: Position, at: int, note: bool): Ledger {
    var linked := ObservePositions(l, id, account, [p], at);
    if note then Update(linked, id, NO_CHANGE.(positionId := Some(p.id))) else linked
  }

  /** A write to a position: begin, link it, note and guard in the dispatcher's own order, then the attempt. */
  lemma PositionAttempt(s: System, pid: Pid, id: TradeId, plan: Plan, p: Position, at: int, note: bool,
                        guardFirst: bool, reply: Reply)
    returns (steps: seq<Step>)
    requires pid !in s.processes && IsPlan(plan) && KeepsLots(s.ledger, id, plan) && IsReply(plan, reply)
    requires ActsOnPosition(plan.request) && plan.request.target == p.id && (note ==> Places(s.ledger, id))
    requires Unshared(Links(LinkedAndNoted(s.ledger, id, plan.account, p, at, note && !guardFirst)), id)
    ensures var d := Performs(LinkedAndNoted(s.ledger, id, plan.account, p, at, note), id, plan, reply);
            Matches(s, Run(s, steps), id, plan.account, plan.action, d.ledger, d.sent)
  {
    hide Next;
    hide Run;
    hide Performs;
    hide Update;
    hide ObservePositions;
    hide Unshared;
    var s1 := Next(s, Step.Begin(pid, id, plan));
    BeginStep(s, pid, id, plan);
    var s2 := Next(s1, Step.Link(pid, [p], at));
    assert Lists([p], p.id);
    LinkStep(s1, pid, [p], at);
    ObservingKeepsRows(s.ledger, id, plan.account, [p], at);
    var guard, noting := Step.Guard(pid), Step.NotePosition(id, p.id);
    var front := [Step.Begin(pid, id, plan), Step.Link(pid, [p], at)];
    TwoSteps(s, front[0], front[1]);
    var middle := if !note then [guard] else if guardFirst then [guard, noting] else [noting, guard];
    var ready := Run(s2, middle);
    if !note {
      OneStep(s2, guard);
      GuardStep(s2, pid);
    } else if guardFirst {
      TwoSteps(s2, guard, noting);
      GuardStep(s2, pid);
      NotePositionStep(Next(s2, guard), id, p.id);
    } else {
      TwoSteps(s2, noting, guard);
      NotePositionStep(s2, id, p.id);
      GuardStep(Next(s2, noting), pid);
    }
    AttemptIsRun(ready, pid, reply);
    Continue(s, front, middle);
    Continue(s, front + middle, AttemptSteps(pid, reply));
    steps := front + middle + AttemptSteps(pid, reply);
    assert ready.processes - {pid} == s.processes;
  }

  // ---- the router ----

  /** The creating key is the create's, and no other action's. */
  lemma RouterKey(e: Event)
    ensures Router.ActionKey(e) == "CREATE" <==> e.action == Create
  {
    var key := Router.ActionKey(e);
    assert e.action != Create ==> |key| > 1 && (key[0] != "CREATE"[0] || key[1] != "CREATE"[1]);
  }

  /** What a planned lifecycle write rests on. */
  lemma RouterTarget(l: Ledger, id: TradeId, terms: Router.Terms, account: string, view: Router.View)
    requires id in l.trades && Router.Choice(l, id, terms, account, view).plan.Ok?
    ensures var (c, t) := (Router.Choice(l, id, terms, account, view), l.trades[id]);
            && c.plan.value.account == account && c.plan.value.action == Router.ActionKey(terms.event)
            && IsPlan(c.plan.value)
            && (c.plan.value.before.lots == Some(None) ==> terms.event.action != Create && t.lots.None?)
            && (terms.event.action == Create ==> c.ledger == l && !ActsOnPosition(c.plan.value.request))
            && (terms.event.action != Create ==>
                view.positions.Some? && c.ledger == Router.AfterReads(l, id, account, view))
            && (ActsOnPosition(c.plan.value.request) ==>
                  && view.positions.Some? && |Related(t, view.positions.value)| == 1
                  && c.plan.value.request.target == Related(t, view.positions.value)[0].id
                  && Unshared(Links(c.ledger), id))
  {
    RouterKey(terms.event);
    Router.ChoiceOnlyLinks(l, id, terms, account, view);
    hide Router.AfterReads;
    hide Router.ActionKey;
    hide Related;
    hide Unshared;
    if terms.event.action != Create {
      Router.ChosenRequest(l, id, terms, account, view);
      hide Router.Choice;
      RequestTarget(Router.AfterReads(l, id, account, view), id, l.trades[id], terms, view.orders.value,
                    Related(l.trades[id], view.positions.value));
      hide Router.LifecycleRequest;
    }
  }

  lemma RequestTarget(m: Ledger, id: TradeId, t: Trade, terms: Router.Terms, orders: seq<Order>, related: seq<Position>)
    requires Router.LifecycleRequest(m, id, t, terms, orders, related).Ok?
    ensures var r := Router.LifecycleRequest(m, id, t, terms, orders, related).value;
            !Creates(r) && (ActsOnPosition(r) ==> |related| == 1 && r.target == related[0].id && Unshared(Links(m), id))
  {
    hide Router.Listed;
    hide Unshared;
  }

  /** The reads of an edit, cancel or close that ends without a position write. */
  lemma ReadsAreRun(s: System, id: TradeId, account: string, view: Router.View) returns (steps: seq<Step>)
    requires id in s.ledger.trades && view.positions.Some?
    ensures Run(s, steps) == s.(ledger := Router.AfterReads(s.ledger, id, account, view))
  {
    hide Next;
    hide Run;
    hide Update;
    hide ObservePositions;
    var related := Related(s.ledger.trades[id], view.positions.value);
    var observe := Step.Observe(id, account, related, view.at);
    ObserveStep(s, id, account, related, view.at);
    ObservingKeepsRows(s.ledger, id, account, related, view.at);
    if |related| == 1 {
      RelatedIsPlaced(s.ledger.trades[id], view.positions.value);
      NotePositionStep(Next(s, observe), id, related[0].id);
      TwoSteps(s, observe, Step.NotePosition(id, related[0].id));
      steps := [observe, Step.NotePosition(id, related[0].id)];
    } else {
      OneStep(s, observe);
      steps := [observe];
    }
  }

  /** Reading leaves the lots as they are, and a row that names an order or a position goes on naming one. */
  lemma ReadsKeepPlace(l: Ledger, id: TradeId, account: string, view: Router.View)
    requires Places(l, id) && view.positions.Some?
    ensures var m := Router.AfterReads(l, id, account, view);
            Places(m, id) && m.trades[id].lots == l.trades[id].lots
  {
    var related := Related(l.trades[id], view.positions.value);
    ObservingKeepsRows(l, id, account, related, view.at);
    if |related| == 1 {
      RelatedIsPlaced(l.trades[id], view.positions.value);
      UpdateOnlyRow(ObservePositions(l, id, account, related, view.at), id,
                    NO_CHANGE.(positionId := Some(related[0].id)));
    }
    hide Update;
    hide ObservePositions;
    hide Related;
  }

  /** One whole router dispatch is a run. */
  lemma DispatchIsRun(s: System, pid: Pid, settings: Router.Settings, id: TradeId, e: Event, account: string, now: int,
                      view: Router.View, answer: Answer) returns (steps: seq<Step>)
    requires pid !in s.processes && id in s.ledger.trades
    ensures var d := Router.Dispatched(settings, s.ledger, Some(id), e, account, now, view, answer);
            Matches(s, Run(s, steps), id, account, Router.ActionKey(e), d.ledger, d.sent)
  {
    hide Next;
    hide Run;
    hide Performs;
    hide Router.Preflight;
    hide Router.Choice;
    hide Router.ReplyTo;
    var checked := Router.Preflight(settings, s.ledger, Some(id), e, account, now, view);
    if checked.Refused? {
      EmptyRun(s);
      steps := [];
    } else {
      Router.PreflightKeepsAction(settings, s.ledger, Some(id), e, account, now, view);
      steps := AttemptedIsRun(s, pid, id, checked.value, account, view, answer);
    }
  }

  lemma EmptyRun(s: System)
    ensures Run(s, []) == s
  {
  }

  lemma AttemptedIsRun(s: System, pid: Pid, id: TradeId, terms: Router.Terms, account: string, view: Router.View,
                       answer: Answer)
    returns (steps: seq<Step>)
    requires pid !in s.processes && id in s.ledger.trades
    requires terms.event.action != Create ==> Places(s.ledger, id)
    ensures var d := Router.Attempted(s.ledger, id, terms, Router.Choice(s.ledger, id, terms, account, view), view,
                                      answer);
            Matches(s, Run(s, steps), id, account, Router.ActionKey(terms.event), d.ledger, d.sent)
  {
    hide Next;
    hide Run;
    hide Performs;
    hide Router.Choice;
    hide Router.ReplyTo;
    hide Router.AfterReads;
    var c := Router.Choice(s.ledger, id, terms, account, view);
    if c.plan.Refused? {
      steps := RefusedReadsAreRun(s, id, terms, account, view);
    } else {
      var plan := c.plan.value;
      var reply := Router.ReplyTo(c.ledger, id, s.ledger.trades[id], terms, plan, view, answer);
      Router.ReplyOutcome(c.ledger, id, s.ledger.trades[id], terms, plan, view, answer);
      Router.ChoiceOnlyLinks(s.ledger, id, terms, account, view);
      RouterTarget(s.ledger, id, terms, account, view);
      RouterKey(terms.event);
      if terms.event.action == Create {
        steps := PlainAttempt(s, pid, id, plan, reply);
      } else if ActsOnPosition(plan.request) {
        var p := Related(s.ledger.trades[id], view.positions.value)[0];
        OnlyReadIsNoted(s.ledger, id, account, view);
        steps := PositionAttempt(s, pid, id, plan, p, view.at, true, false, reply);
      } else {
        var reading := ReadsAreRun(s, id, account, view);
        ReadsKeepPlace(s.ledger, id, account, view);
        var attempt := PlainAttempt(Run(s, reading), pid, id, plan, reply);
        Continue(s, reading, attempt);
        steps := reading + attempt;
      }
    }
  }

  lemma OnlyReadIsNoted(l: Ledger, id: TradeId, account: string, view: Router.View)
    requires id in l.trades && view.positions.Some? && |Related(l.trades[id], view.positions.value)| == 1
    ensures var p := Related(l.trades[id], view.positions.value)[0];
            Router.AfterReads(l, id, account, view) == LinkedAndNoted(l, id, account, p, view.at, true)
  {
    var related := Related(l.trades[id], view.positions.value);
    assert related == [related[0]];
  }

  lemma RefusedReadsAreRun(s: System, id: TradeId, terms: Router.Terms, account: string, view: Router.View)
    returns (steps: seq<Step>)
    requires id in s.ledger.trades && Router.Choice(s.ledger, id, terms, account, view).plan.Refused?
    ensures Run(s, steps) == s.(ledger := Router.Choice(s.ledger, id, terms, account, view).ledger)
  {
    hide Next;
    hide Run;
    hide Router.AfterReads;
    hide Router.LifecycleRequest;
    var t := s.ledger.trades[id];
    if t.symbol != terms.symbol || t.side != terms.event.side || view.orders.None? || view.positions.None? {
      EmptyRun(s);
      steps := [];
    } else {
      steps := ReadsAreRun(s, id, account, view);
    }
  }

  // ---- manual send and unwind ----

  /** A paper send is a run, and sends nothing. */
  lemma PaperIsRun(s: System, id: TradeId, o: M.Order, found: M.Evidence, instruments: Option<seq<Instrument>>,
                   answer: Answer)
    requires M.Send(s.ledger, id, o, found, instruments, answer).Paper?
    ensures Run(s, [Step.Paper(id)])
         == s.(ledger := M.After(s.ledger, M.Send(s.ledger, id, o, found, instruments, answer)))
  {
    hide M.Prepare;
    hide M.LivePlan;
    OneStep(s, Step.Paper(id));
  }

  /** A live manual send is a run; a refused one takes no step of the protocol. */
  lemma SendIsRun(s: System, pid: Pid, id: TradeId, o: M.Order, found: M.Evidence, instruments: Option<seq<Instrument>>,
                  answer: Answer)
    returns (steps: seq<Step>)
    requires pid !in s.processes && M.Send(s.ledger, id, o, found, instruments, answer).Live?
    ensures var d := M.Send(s.ledger, id, o, found, instruments, answer).done;
            Matches(s, Run(s, steps), id, o.account, "CREATE", d.ledger, d.sent)
  {
    hide Next;
    hide Run;
    hide Performs;
    hide M.Prepare;
    var terms := M.Prepare(s.ledger, id, o, found).value;
    var plan := M.LivePlan(terms, o, instruments).value;
    steps := PlainAttempt(s, pid, id, plan, M.Established(terms.event, answer));
  }

  /** What a planned unwind rests on. */
  ghost predicate RestsOn(l: Ledger, id: TradeId, t: Trade, c: U.Context, chosen: U.Chosen)
    requires chosen.unwinding.Ok?
  {
    var plan := chosen.unwinding.value.plan;
    && plan.account == c.account && IsPlan(plan) && plan.before.lots.None?
    && IsOutcome(plan, chosen.unwinding.value.confirmed)
    && (ActsOnPosition(plan.request) ==>
          && c.view.positions.Some? && |Related(t, c.view.positions.value)| == 1
          && var p := Related(t, c.view.positions.value)[0];
             && plan.request.target == p.id
             && Unshared(Links(ObservePositions(l, id, c.account, [p], c.view.at)), id)
             && chosen.ledger == LinkedAndNoted(l, id, c.account, p, c.view.at, t.positionId == ""))
    && (!ActsOnPosition(plan.request) ==> chosen.ledger == l)
  }

  lemma CancellingTarget(m: Ledger, id: TradeId, t: Trade, s: U.Signal, c: U.Context)
    requires U.Cancelling(m, id, t, s, c).Ok?
    ensures RestsOn(m, id, t, c, U.Chosen(m, U.Cancelling(m, id, t, s, c)))
    ensures U.Cancelling(m, id, t, s, c).value.plan.action == U.ActionKey(s)
    ensures !ActsOnPosition(U.Cancelling(m, id, t, s, c).value.plan.request)
  {
    UnwindKey(s);
    hide U.ActionKey;
  }

  lemma UnwindKey(s: U.Signal)
    ensures U.ActionKey(s) != "CREATE"
  {
    var key := U.ActionKey(s);
    assert |key| > 1 && key[1] != "CREATE"[1];
  }

  lemma ClosingTarget(l: Ledger, id: TradeId, t: Trade, s: U.Signal, c: U.Context)
    requires id in l.trades && U.Closing(l, id, t, s, c).unwinding.Ok?
    ensures RestsOn(l, id, t, c, U.Closing(l, id, t, s, c))
    ensures U.Closing(l, id, t, s, c).unwinding.value.plan.action == U.ActionKey(s)
  {
    hide Related;
    hide Unshared;
    hide ObservePositions;
    hide Update;
    hide U.Cancelling;
    UnwindKey(s);
    hide U.ActionKey;
    var related := Related(t, c.view.positions.value);
    if |related| == 1 {
      assert related == [related[0]];
    } else {
      CancellingTarget(U.Closing(l, id, t, s, c).ledger, id, t, s, c);
    }
  }

  lemma UnwindTarget(l: Ledger, id: TradeId, s: U.Signal, c: U.Context)
    requires id in l.trades && U.Choice(l, id, s, c).unwinding.Ok?
    ensures RestsOn(l, id, l.trades[id], c, U.Choice(l, id, s, c)) && Places(l, id)
    ensures U.Choice(l, id, s, c).unwinding.value.plan.action == U.ActionKey(s)
  {
    hide U.Closing;
    hide U.Cancelling;
    hide RestsOn;
    var t := l.trades[id];
    if s.cancel {
      CancellingTarget(l, id, t, s, c);
    } else {
      ClosingTarget(l, id, t, s, c);
    }
  }

  /** One whole unwind is a run. */
  lemma UnwindIsRun(s: System, pid: Pid, id: TradeId, signal: U.Signal, c: U.Context, answer: Answer)
    returns (steps: seq<Step>)
    requires pid !in s.processes && id in s.ledger.trades
    ensures var d := U.Apply(s.ledger, [id], signal, c, answer);
            Matches(s, Run(s, steps), id, c.account, U.ActionKey(signal), d.ledger, d.sent)
  {
    hide Next;
    hide Run;
    hide Performs;
    hide U.Choice;
    hide U.RemovesOwnExposure;
    hide ObservePositions;
    hide Update;
    hide Unshared;
    var chosen := U.Choice(s.ledger, id, signal, c);
    if chosen.unwinding.Refused? {
      steps := RefusedUnwindIsRun(s, id, signal, c);
    } else {
      var u := chosen.unwinding.value;
      var reply := U.Established(s.ledger.trades[id], u, answer);
      U.ChoiceRemovesOwnExposure(s.ledger, id, signal, c);
      UnwindTarget(s.ledger, id, signal, c);
      UnwindReply(s.ledger.trades[id], u, answer);
      if ActsOnPosition(u.plan.request) {
        var p := Related(s.ledger.trades[id], c.view.positions.value)[0];
        steps := PositionAttempt(s, pid, id, u.plan, p, c.view.at, s.ledger.trades[id].positionId == "", true, reply);
      } else {
        steps := PlainAttempt(s, pid, id, u.plan, reply);
      }
    }
  }

  lemma UnwindReply(t: Trade, u: U.Unwinding, answer: Answer)
    requires t.state !in {Uncertain, Dispatching, Resolved}
    requires IsOutcome(u.plan, u.confirmed)
    ensures IsReply(u.plan, U.Established(t, u, answer))
  {
    assert t.state.Observed? || t.state.Pending? || t.state.Open?;
  }

  lemma RefusedUnwindIsRun(s: System, id: TradeId, signal: U.Signal, c: U.Context) returns (steps: seq<Step>)
    requires id in s.ledger.trades && U.Choice(s.ledger, id, signal, c).unwinding.Refused?
    ensures Run(s, steps) == s.(ledger := U.Choice(s.ledger, id, signal, c).ledger)
  {
    hide Next;
    hide Run;
    hide Unshared;
    hide ObservePositions;
    hide Update;
    if U.Choice(s.ledger, id, signal, c).ledger == s.ledger {
      EmptyRun(s);
      steps := [];
    } else {
      var related := Related(s.ledger.trades[id], c.view.positions.value);
      ObserveStep(s, id, c.account, related, c.view.at);
      OneStep(s, Step.Observe(id, c.account, related, c.view.at));
      steps := [Step.Observe(id, c.account, related, c.view.at)];
    }
  }
}
