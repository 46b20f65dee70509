/** Every interleaving of router dispatches, manual sends, unwinds, reconciliations, redelivered events
    and crashes over one ledger. A dispatcher is a process that takes one committed transaction, or the
    one broker call, at a time; between any two of its steps any other process may run, and it may stop
    for good. Preflight checks are left out on purpose, but for what they settle about lots and broker ids: what
    is proved here holds whatever else they decide. */
module Protocol {
  import opened Wrappers
  import opened Events
  import opened Identity
  import opened Journal
  import opened Attempts
  import R = Reconcile

  type Pid = nat

  /** How far a process has come. Reading and LinkedPosition are passed only by writes to a position. A
      finished process has written its outcome and its attempt; it may still fail over what it does after. */
  datatype Pc =
    | Reading | LinkedPosition | Ready | Claimed | Noted | Called | Confirming | Withdrawing | Failing | Finished

  datatype Process = Process(trade: TradeId, plan: Plan, pc: Pc)

  /** A broker mutation as it left. */
  datatype Sent = Sent(trade: TradeId, action: string, account: string, request: Request)

  /** A trade that passed the guard while linked to a position. */
  datatype Clearance = Clearance(trade: TradeId, scope: Scope, position: string)

  datatype System = System(ledger: Ledger, processes: map<Pid, Process>, sent: seq<Sent>, cleared: set<Clearance>)

  datatype Step =
    | Receive(event: Event, newId: TradeId)
    | Observe(trade: TradeId, account: string, positions: seq<Position>, at: int)
    | NotePosition(trade: TradeId, position: string)
    | Paper(trade: TradeId)
    | Settle(account: string, ids: seq<TradeId>, view: R.View)
    | Begin(pid: Pid, trade: TradeId, plan: Plan)
    | Link(pid: Pid, positions: seq<Position>, at: int)
    | Guard(pid: Pid)
    | Claim(pid: Pid)
    | Note(pid: Pid)
    | Call(pid: Pid)
    | Confirm(pid: Pid, change: Change)
    | Withdraw(pid: Pid, resume: TradeState)
    | Fail(pid: Pid)
    | Finish(pid: Pid)
    | Stop(pid: Pid)
    | Crash

  /** Writes that close or change an open position. */
  predicate ActsOnPosition(r: Request) {
    r.call in {ClosePosition, PartialClose, EditPosition}
  }

  /** Writes that create something at the broker. */
  predicate Creates(r: Request) {
    r.call in {OpenPosition, CreatePending}
  }

  /** What every dispatcher plans: the key "CREATE" for exactly the creating writes; and before the call no state
      and no broker id, but for a creating write the lots. */
  predicate IsPlan(plan: Plan) {
    && plan.before.state.None? && plan.before.orderId.None? && plan.before.positionId.None?
    && (Creates(plan.request) <==> plan.action == "CREATE")
    && (Creates(plan.request) ==> plan.before.lots.Some? && plan.before.lots.value.Some?)
  }

  /** The row names an order or a position of the broker. */
  predicate IsPlaced(row: Trade) {
    row.orderId != "" || row.positionId != ""
  }

  predicate Places(l: Ledger, trade: TradeId) {
    trade in l.trades && IsPlaced(l.trades[trade])
  }

  /** A position is related only to a row that names an order or a position. */
  lemma RelatedIsPlaced(t: Trade, positions: seq<Position>)
    requires Related(t, positions) != []
    ensures IsPlaced(t) && IsRelated(t, Related(t, positions)[0])
  {
    RelatedAre(t, positions);
    assert Related(t, positions)[0] in Related(t, positions);
  }

  lemma ObservingKeepsRows(l: Ledger, id: TradeId, account: string, positions: seq<Position>, at: int)
    ensures ObservePositions(l, id, account, positions, at).trades == l.trades
  {
  }

  /** Lots that were never recorded are written back only as they were read, on a row that names an order or a
      position. */
  predicate KeepsLots(l: Ledger, trade: TradeId, plan: Plan) {
    plan.before.lots == Some(None) ==> Places(l, trade) && l.trades[trade].lots.None?
  }

  function Starting(trade: TradeId, plan: Plan): Process {
    Process(trade, plan, if ActsOnPosition(plan.request) then Reading else Ready)
  }

  predicate At(s: System, pid: Pid, pc: Pc) {
    pid in s.processes && s.processes[pid].pc == pc
  }

  function Moved(s: System, pid: Pid, pc: Pc): System
    requires pid in s.processes
  {
    s.(processes := s.processes[pid := s.processes[pid].(pc := pc)])
  }

  function Ended(s: System, pid: Pid): System {
    s.(processes := s.processes - {pid})
  }

  function Target(s: System, p: Process): Clearance {
    Clearance(p.trade, DestinationScope(s.ledger, p.plan.account), p.plan.request.target)
  }

  predicate Lists(positions: seq<Position>, id: string) {
    exists p <- positions :: p.id == id
  }

  /** The confirmed outcome of a write leaves the trade pending, open or resolved; only that of a creating one
      names an order or a position, and none is about lots. */
  predicate IsOutcome(plan: Plan, c: Change) {
    && c.state.Some? && c.state.value in {Pending, Open, Resolved} && c.lots.None?
    && (!Creates(plan.request) ==> c.orderId.None? && c.positionId.None?)
  }

  /** One step; a step that is not enabled changes nothing. */
  function Next(s: System, step: Step): System {
    match step
    case Receive(event, newId) =>
      if newId in s.ledger.trades then s
      else
        var r := Record(s.ledger, event, newId);
        if r.Recorded? then s.(ledger := r.ledger) else s
    case Observe(trade, account, positions, at) =>
      s.(ledger := ObservePositions(s.ledger, trade, account, positions, at))
    case NotePosition(trade, position) =>
      if !Places(s.ledger, trade) then s
      else s.(ledger := Update(s.ledger, trade, NO_CHANGE.(positionId := Some(position))))
    case Paper(trade) => s.(ledger := s.ledger.(papers := s.ledger.papers + {trade}))
    case Settle(account, ids, view) =>
      if forall i, j :: 0 <= i < j < |ids| ==> ids[i] != ids[j]
      then s.(ledger := R.Reconciled(s.ledger, account, ids, view).ledger) else s
    case Begin(pid, trade, plan) =>
      if pid in s.processes || !IsPlan(plan) || !KeepsLots(s.ledger, trade, plan) then s
      else s.(processes := s.processes[pid := Starting(trade, plan)])
    case Link(pid, positions, at) =>
      if !At(s, pid, Reading) || !Lists(positions, s.processes[pid].plan.request.target) then s
      else
        var p := s.processes[pid];
        Moved(s, pid, LinkedPosition).(ledger := ObservePositions(s.ledger, p.trade, p.plan.account, positions, at))
    case Guard(pid) =>
      if !At(s, pid, LinkedPosition) then s
      else if !Unshared(Links(s.ledger), s.processes[pid].trade) then Ended(s, pid)
      else Moved(s, pid, Ready).(cleared := s.cleared + {Target(s, s.processes[pid])})
    case Claim(pid) =>
      if !At(s, pid, Ready) then s
      else
        var p := s.processes[pid];
        var claimed := Journal.Claim(s.ledger, p.trade, p.plan.action, p.plan.account, p.plan.request);
        if claimed.None? then Ended(s, pid) else Moved(s, pid, Claimed).(ledger := claimed.value)
    case Note(pid) =>
      if !At(s, pid, Claimed) then s
      else Moved(s, pid, Noted).(ledger := Update(s.ledger, s.processes[pid].trade, s.processes[pid].plan.before))
    case Call(pid) =>
      if !At(s, pid, Noted) then s
      else
        var p := s.processes[pid];
        Moved(s, pid, Called).(sent := s.sent + [Sent(p.trade, p.plan.action, p.plan.account, p.plan.request)])
    case Confirm(pid, change) =>
      if !At(s, pid, Called) || !IsOutcome(s.processes[pid].plan, change) then s
      else Moved(s, pid, Confirming).(ledger := Update(s.ledger, s.processes[pid].trade, change))
    case Withdraw(pid, resume) =>
      if !At(s, pid, Noted) || resume !in {Observed, Pending, Open} then s
      else
        var t := s.processes[pid].trade;
        Moved(s, pid, Withdrawing).(ledger := Update(s.ledger, t, NO_CHANGE.(state := Some(resume))))
    case Fail(pid) =>
      if pid !in s.processes || s.processes[pid].pc !in {Noted, Called, Confirming, Withdrawing, Finished} then s
      else
        var t := s.processes[pid].trade;
        Moved(s, pid, Failing).(ledger := Update(s.ledger, t, NO_CHANGE.(state := Some(Uncertain))))
    case Finish(pid) =>
      if pid !in s.processes || s.processes[pid].pc !in {Confirming, Withdrawing, Failing} then s
      else
        var p := s.processes[pid];
        var outcome := if p.pc == Confirming then Succeeded else if p.pc == Withdrawing then Held else Unverified;
        (if p.pc == Failing then Ended(s, pid) else Moved(s, pid, Finished)).(
          ledger := Journal.Finish(s.ledger, p.trade, p.plan.action, outcome))
    case Stop(pid) => Ended(s, pid)
    case Crash => s.(ledger := Recover(s.ledger), processes := map[])
  }

  function Run(s: System, steps: seq<Step>): System {
    if steps == [] then s else Next(Run(s, steps[..|steps| - 1]), steps[|steps| - 1])
  }

  /** A journal with any history, and no dispatcher running. */
  predicate Initial(s: System) {
    && s.processes == map[] && s.sent == [] && s.cleared == {}
    && forall id :: id in s.ledger.trades ==> s.ledger.trades[id].state != Dispatching
  }

  lemma RunSnoc(s: System, steps: seq<Step>, step: Step)
    ensures Run(s, steps + [step]) == Next(Run(s, steps), step)
  {
    assert (steps + [step])[..|steps|] == steps;
  }

  lemma {:induction false} RunsCompose(s: System, a: seq<Step>, b: seq<Step>)
    ensures Run(s, a + b) == Run(Run(s, a), b)
  {
    hide Next;
    if b == [] {
      assert a + b == a;
    } else {
      var front, last := b[..|b| - 1], b[|b| - 1];
      RunsCompose(s, a, front);
      RunSnoc(s, a + front, last);
      RunSnoc(Run(s, a), front, last);
      assert a + b == a + front + [last];
      assert b == front + [last];
    }
  }

  // ---- what no step ever takes back ----

  /** Links, attempts, recorded events and paper sends are only ever added, and the broker of a journal is fixed. */
  ghost predicate Grows(l: Ledger, m: Ledger) {
    && m.broker == l.broker && Links(l) <= Links(m) && l.attempts.Keys <= m.attempts.Keys
    && (forall k :: k in l.events ==> k in m.events && m.events[k] == l.events[k])
    && l.papers <= m.papers && l.trades.Keys <= m.trades.Keys
  }

  /** The steps that are one whole transaction of no dispatcher. */
  predicate IsLedgerStep(step: Step) {
    step.Receive? || step.Observe? || step.NotePosition? || step.Paper? || step.Settle?
  }

  lemma ReceiveGrows(l: Ledger, event: Event, newId: TradeId)
    requires newId !in l.trades && Record(l, event, newId).Recorded?
    ensures Grows(l, Record(l, event, newId).ledger) && Record(l, event, newId).ledger.attempts == l.attempts
  {
    RecordOnlyAdds(l, event, newId);
    hide Applied;
    hide Identified;
    hide WithTrade;
    RecordKeepsEvents(l, event, newId);
  }

  lemma RecordKeepsEvents(l: Ledger, event: Event, newId: TradeId)
    requires Record(l, event, newId).Recorded?
    ensures var m := Record(l, event, newId).ledger;
            && m.papers == l.papers && EventKey(event.machine, event.eventId) !in l.events
            && m.events == l.events[EventKey(event.machine, event.eventId) := Record(l, event, newId).row]
  {
    hide Touched;
    hide SourceEvidence;
    hide TradeOf;
  }

  lemma LedgerStepGrows(s: System, step: Step)
    requires IsLedgerStep(step)
    ensures var n := Next(s, step);
            n == s.(ledger := n.ledger) && Grows(s.ledger, n.ledger) && n.ledger.attempts == s.ledger.attempts
  {
    match step
    case Receive(event, newId) =>
      if newId !in s.ledger.trades && Record(s.ledger, event, newId).Recorded? {
        ReceiveGrows(s.ledger, event, newId);
        hide Record;
      }
    case Observe(trade, account, positions, at) => PositionLinkedAdds(s.ledger, trade, account, positions);
    case NotePosition(trade, position) => UpdateOnlyRow(s.ledger, trade, NO_CHANGE.(positionId := Some(position)));
    case Settle(account, ids, view) =>
      if forall i, j :: 0 <= i < j < |ids| ==> ids[i] != ids[j] {
        R.ReconciliationIsSound(s.ledger, account, ids, view);
      }
    case _ =>
  }

  /** The steps of a dispatcher that are one update of its row. */
  predicate IsUpdate(step: Step) {
    step.Note? || step.Confirm? || step.Withdraw? || step.Fail?
  }

  /** The change that such a step makes, when it is enabled. */
  function UpdateOf(p: Process, step: Step): Option<Change> {
    match step
    case Note(_) => if p.pc == Claimed then Some(p.plan.before) else None
    case Confirm(_, change) => if p.pc == Called && IsOutcome(p.plan, change) then Some(change) else None
    case Withdraw(_, resume) =>
      if p.pc == Noted && resume in {Observed, Pending, Open} then Some(NO_CHANGE.(state := Some(resume))) else None
    case Fail(_) =>
      if p.pc in {Noted, Called, Confirming, Withdrawing, Finished} then Some(NO_CHANGE.(state := Some(Uncertain)))
      else None
    case _ => None
  }

  lemma UpdateStepIs(s: System, step: Step)
    requires IsUpdate(step)
    ensures Next(s, step).ledger
         == if step.pid in s.processes && UpdateOf(s.processes[step.pid], step).Some?
            then Update(s.ledger, s.processes[step.pid].trade, UpdateOf(s.processes[step.pid], step).value)
            else s.ledger
  {
    hide Update;
    hide IsOutcome;
  }

  lemma UpdateGrows(l: Ledger, id: TradeId, c: Change)
    ensures Grows(l, Update(l, id, c))
  {
    UpdateOnlyRow(l, id, c);
    hide Update;
  }

  lemma UpdateStepGrows(s: System, step: Step)
    requires IsUpdate(step)
    ensures Grows(s.ledger, Next(s, step).ledger)
  {
    UpdateStepIs(s, step);
    hide Next;
    hide UpdateOf;
    if step.pid in s.processes && UpdateOf(s.processes[step.pid], step).Some? {
      UpdateGrows(s.ledger, s.processes[step.pid].trade, UpdateOf(s.processes[step.pid], step).value);
    }
    hide Update;
  }

  /** What a dispatcher's step does to the ledger only adds. */
  lemma ProcessStepGrows(s: System, step: Step)
    requires !IsLedgerStep(step)
    ensures Grows(s.ledger, Next(s, step).ledger)
  {
    hide Update;
    hide Record;
    hide R.Reconciled;
    if IsUpdate(step) {
      UpdateStepGrows(s, step);
      hide Next;
    } else if step.Link? && step.pid in s.processes {
      var p := s.processes[step.pid];
      PositionLinkedAdds(s.ledger, p.trade, p.plan.account, step.positions);
    }
  }

  lemma NextGrows(s: System, step: Step)
    ensures Grows(s.ledger, Next(s, step).ledger)
  {
    if IsLedgerStep(step) {
      LedgerStepGrows(s, step);
    } else {
      ProcessStepGrows(s, step);
    }
  }

  /** In every run, from wherever it starts. */
  lemma {:induction false} RunGrows(s: System, steps: seq<Step>)
    ensures Grows(s.ledger, Run(s, steps).ledger)
  {
    if steps != [] {
      var n := |steps| - 1;
      RunGrows(s, steps[..n]);
      NextGrows(Run(s, steps[..n]), steps[n]);
      hide Next;
    }
  }

  // ---- single steps ----

  lemma BeginStep(s: System, pid: Pid, id: TradeId, plan: Plan)
    requires pid !in s.processes && IsPlan(plan) && KeepsLots(s.ledger, id, plan)
    ensures Next(s, Step.Begin(pid, id, plan))
         == s.(processes := s.processes[pid := Starting(id, plan)])
  {
  }

  lemma ClaimStep(s: System, pid: Pid)
    requires At(s, pid, Ready)
    ensures var (p, n) := (s.processes[pid], Next(s, Step.Claim(pid)));
            var claimed := Journal.Claim(s.ledger, p.trade, p.plan.action, p.plan.account, p.plan.request);
            if claimed.None? then n == s.(processes := s.processes - {pid})
            else n == s.(processes := s.processes[pid := p.(pc := Claimed)], ledger := claimed.value)
  {
  }

  lemma NoteStep(s: System, pid: Pid)
    requires At(s, pid, Claimed)
    ensures var p := s.processes[pid];
            Next(s, Step.Note(pid))
            == s.(processes := s.processes[pid := p.(pc := Noted)], ledger := Update(s.ledger, p.trade, p.plan.before))
  {
  }

  lemma CallStep(s: System, pid: Pid)
    requires At(s, pid, Noted)
    ensures var p := s.processes[pid];
            Next(s, Step.Call(pid))
            == s.(processes := s.processes[pid := p.(pc := Called)],
                  sent := s.sent + [Sent(p.trade, p.plan.action, p.plan.account, p.plan.request)])
  {
  }

  lemma FinishThenStop(s: System, pid: Pid)
    requires pid in s.processes && s.processes[pid].pc in {Confirming, Withdrawing, Failing}
    ensures var p := s.processes[pid];
            var outcome := if p.pc == Confirming then Succeeded else if p.pc == Withdrawing then Held else Unverified;
            Next(Next(s, Step.Finish(pid)), Step.Stop(pid))
            == s.(processes := s.processes - {pid}, ledger := Journal.Finish(s.ledger, p.trade, p.plan.action, outcome))
  {
    hide Journal.Finish;
    assert Next(s, Step.Finish(pid)).processes - {pid} == s.processes - {pid};
  }
}
