/** Runs that show the limits of absorption are met: from an empty journal, under the controller lock, a
    resolved trade becomes uncertain; without the lock, a trade already uncertain or resolved is written for. */
module Limits {
  import opened Wrappers
  import opened Decimals
  import opened Events
  import opened Identity
  import opened Journal
  import opened Attempts
  import opened Protocol
  import opened Absorption
  import F = Fills
  import R = Reconcile

  // ---- the steps of a write that touches no position ----

  function UpToNote(pid: Pid, t: TradeId, plan: Plan): seq<Step> {
    [Step.Begin(pid, t, plan)] + [Step.Claim(pid)] + [Step.Note(pid)]
  }

  function UpToOutcome(pid: Pid, t: TradeId, plan: Plan, change: Change): seq<Step> {
    UpToNote(pid, t, plan) + [Step.Call(pid)] + [Step.Confirm(pid, change)]
  }

  predicate CanWrite(s: System, pid: Pid, t: TradeId, plan: Plan) {
    && pid !in s.processes && IsPlan(plan) && KeepsLots(s.ledger, t, plan) && !ActsOnPosition(plan.request)
    && Claimable(s.ledger, t, plan.action)
  }

  lemma ReachesNote(s: System, pid: Pid, t: TradeId, plan: Plan)
    requires CanWrite(s, pid, t, plan)
    ensures Prepared(s.ledger, t, plan).Some?
    ensures Run(s, UpToNote(pid, t, plan))
         == s.(processes := s.processes[pid := Process(t, plan, Noted)], ledger := Prepared(s.ledger, t, plan).value)
  {
    hide Next;
    hide Update;
    var begin, claim, note := Step.Begin(pid, t, plan), Step.Claim(pid), Step.Note(pid);
    OneStep(s, begin);
    BeginStep(s, pid, t, plan);
    RunSnoc(s, [begin], claim);
    ClaimStep(Next(s, begin), pid);
    RunSnoc(s, [begin] + [claim], note);
    NoteStep(Next(Next(s, begin), claim), pid);
  }

  lemma ConfirmStep(s: System, pid: Pid, change: Change)
    requires At(s, pid, Called) && IsOutcome(s.processes[pid].plan, change)
    ensures var p := s.processes[pid];
            Next(s, Step.Confirm(pid, change))
            == s.(processes := s.processes[pid := p.(pc := Confirming)], ledger := Update(s.ledger, p.trade, change))
  {
  }

  lemma ReachesOutcome(s: System, pid: Pid, t: TradeId, plan: Plan, change: Change)
    requires CanWrite(s, pid, t, plan) && IsOutcome(plan, change)
    ensures Prepared(s.ledger, t, plan).Some?
    ensures Run(s, UpToOutcome(pid, t, plan, change))
         == s.(processes := s.processes[pid := Process(t, plan, Confirming)],
               ledger := Update(Prepared(s.ledger, t, plan).value, t, change),
               sent := s.sent + [Sent(t, plan.action, plan.account, plan.request)])
  {
    hide Next;
    hide Update;
    hide Prepared;
    hide Run;
    var noted, call := Run(s, UpToNote(pid, t, plan)), Step.Call(pid);
    ReachesNote(s, pid, t, plan);
    RunSnoc(s, UpToNote(pid, t, plan), call);
    CallStep(noted, pid);
    RunSnoc(s, UpToNote(pid, t, plan) + [call], Step.Confirm(pid, change));
    ConfirmStep(Next(noted, call), pid, change);
  }

  /** A trade's row is the row it was claimed from, with the two changes of the attempt. */
  lemma OutcomeRow(l: Ledger, t: TradeId, plan: Plan, change: Change)
    requires Claimable(l, t, plan.action)
    ensures Prepared(l, t, plan).Some?
    ensures var (prepared, m) := (Prepared(l, t, plan).value, Update(Prepared(l, t, plan).value, t, change));
            && t in m.trades && m.attempts == prepared.attempts
            && prepared.attempts.Keys == l.attempts.Keys + {AttemptKey(t, plan.action)}
            && m.trades[t] == Changed(Changed(l.trades[t].(state := Dispatching), plan.before), change)
  {
    hide Changed;
    PreparedTables(l, t, plan);
    UpdateOnlyRow(Prepared(l, t, plan).value, t, change);
    hide Prepared;
    hide Update;
  }

  // ---- under the lock ----

  lemma LockedRunsJoin(s: System, a: seq<Step>, b: seq<Step>)
    requires AllUnderLock(s, a) && AllUnderLock(Run(s, a), b)
    ensures AllUnderLock(s, a + b)
  {
    forall k | 0 <= k < |a + b| ensures UnderLock(Run(s, (a + b)[..k]), (a + b)[k]) {
      LockedStep(s, a, b, k);
    }
  }

  lemma LockedStep(s: System, a: seq<Step>, b: seq<Step>, k: nat)
    requires AllUnderLock(s, a) && AllUnderLock(Run(s, a), b) && k < |a + b|
    ensures UnderLock(Run(s, (a + b)[..k]), (a + b)[k])
  {
    hide Next;
    hide UnderLock;
    hide Run;
    if k < |a| {
      assert (a + b)[..k] == a[..k];
    } else {
      RunsCompose(s, a, b[..k - |a|]);
      assert (a + b)[..k] == a + b[..k - |a|];
    }
  }

  /** One dispatcher at a time: only its first step needs the others gone. */
  lemma AttemptIsUnderLock(s: System, pid: Pid, t: TradeId, plan: Plan, change: Change)
    requires s.processes == map[]
    ensures AllUnderLock(s, UpToOutcome(pid, t, plan, change))
  {
    hide Next;
    var steps := UpToOutcome(pid, t, plan, change);
    forall k | 0 <= k < |steps| ensures UnderLock(Run(s, steps[..k]), steps[k]) {
      if k == 0 {
        assert steps[..0] == [];
      } else {
        assert !steps[k].Begin? && !steps[k].Receive? && !steps[k].Settle?;
      }
    }
  }

  lemma QuietIsUnderLock(s: System, steps: seq<Step>)
    requires forall k :: 0 <= k < |steps| ==> !steps[k].Begin? && !steps[k].Receive? && !steps[k].Settle?
    ensures AllUnderLock(s, steps)
  {
    hide Next;
    hide Run;
  }

  lemma FinishAndStop(s: System, pid: Pid)
    requires At(s, pid, Confirming)
    ensures var p := s.processes[pid];
            Run(s, [Step.Finish(pid), Step.Stop(pid)])
            == s.(processes := s.processes - {pid},
                  ledger := Journal.Finish(s.ledger, p.trade, p.plan.action, Succeeded))
  {
    hide Next;
    TwoSteps(s, Step.Finish(pid), Step.Stop(pid));
    FinishThenStop(s, pid);
  }

  function NoTrades(broker: string): Ledger {
    Ledger(broker, map[], map[], map[], map[], map[], F.Evidence(map[], {}), map[], {})
  }

  function Begun(broker: string): System {
    System(NoTrades(broker), map[], [], {})
  }

  const CREATE_REQUEST :=
    Request(CreatePending, "EURUSD", "BUY", "", "LIMIT", None, None, None, None)

  const CANCEL_REQUEST :=
    Request(CancelPending, "EURUSD", "BUY", "7", "LIMIT", None, None, None, None)

  const LOT := Decimal(false, 1, 0)

  function CreatePlan(account: string): Plan {
    Plan("CREATE", CREATE_REQUEST, account, NO_CHANGE.(destination := Some(account), lots := Some(Some(LOT))))
  }

  function CancelPlan(account: string): Plan {
    Plan("CANCEL:1", CANCEL_REQUEST, account, NO_CHANGE.(destination := Some(account)))
  }

  const FILLED := NO_CHANGE.(state := Some(Open), orderId := Some("7"), positionId := Some("9"))
  const PLACED := NO_CHANGE.(state := Some(Pending), orderId := Some("7"))
  const RESTING := NO_CHANGE.(state := Some(Pending))
  const GONE := NO_CHANGE.(state := Some(Resolved))

  /** Every link is the trade's, and position 9 of the account is the only position linked. */
  ghost predicate OnlyOwn(l: Ledger, t: TradeId, account: string) {
    forall k :: k in Links(l) ==>
      k.trade == t && (k.kind == PositionLink ==>
                         k == Identity.Link(t, Destination, DestinationScope(l, account), PositionLink, "9"))
  }

  lemma OnlyOwnIsUnshared(l: Ledger, t: TradeId, account: string)
    requires OnlyOwn(l, t, account)
    ensures Unshared(Links(l), t)
  {
    var own := Identity.Link(t, Destination, DestinationScope(l, account), PositionLink, "9");
    forall side | side in {Source, Destination}
      ensures |PositionLinks(Links(l), t, side)| <= 1
      ensures forall k <- PositionLinks(Links(l), t, side) :: |Owners(Links(l), side, k.scope, k.native)| <= 1
    {
      SubsetSize(PositionLinks(Links(l), t, side), {own});
      forall k | k in PositionLinks(Links(l), t, side) ensures |Owners(Links(l), side, k.scope, k.native)| <= 1 {
        SubsetSize(Owners(Links(l), side, k.scope, k.native), {t});
      }
    }
  }

  lemma UpdateKeepsOnlyOwn(l: Ledger, t: TradeId, c: Change, account: string)
    requires OnlyOwn(l, t, account) && t in l.trades
    requires var row := Changed(l.trades[t], c);
             row.destination == account && (row.positionId == "" || row.positionId == "9")
    ensures OnlyOwn(Update(l, t, c), t, account)
  {
    hide Changed;
  }

  lemma FirstEventStartsATrade(s: System, e: Event, t: TradeId)
    requires s.ledger.trades == map[] && s.ledger.events == map[] && s.ledger.sources == map[]
    requires s.ledger.attempts == map[]
    requires e.kind == Accepted && e.orderId != "" && s.processes == map[]
    ensures var n := Next(s, Step.Receive(e, t));
            && n.processes == map[] && n.ledger.attempts == map[] && AllUnderLock(s, [Step.Receive(e, t)])
            && t in n.ledger.trades && n.ledger.trades[t].state == Observed
            && n.ledger.trades[t].orderId == "" && n.ledger.trades[t].positionId == ""
  {
    assert TradeOf(s.ledger, e) == None;
    assert Record(s.ledger, e, t).Recorded?;
  }

  /** The row of a trade that was just placed. */
  function PlacedRow(row: Trade, account: string, outcome: Change): Trade {
    Changed(Changed(row.(state := Dispatching), CreatePlan(account).before), outcome)
  }

  /** The trade has been placed at the broker, and its dispatcher is done. */
  lemma PlacesAnOrder(s: System, pid: Pid, t: TradeId, account: string, outcome: Change) returns (steps: seq<Step>)
    requires s.processes == map[] && s.ledger.attempts == map[] && t in s.ledger.trades
    requires s.ledger.trades[t].state == Observed && s.ledger.trades[t].orderId == ""
    requires s.ledger.trades[t].positionId == ""
    requires IsOutcome(CreatePlan(account), outcome)
    ensures AllUnderLock(s, steps)
    ensures Prepared(s.ledger, t, CreatePlan(account)).Some?
    ensures var n := Run(s, steps);
            && n.processes == map[] && n.ledger.attempts.Keys == {AttemptKey(t, "CREATE")}
            && t in n.ledger.trades && n.ledger.trades[t] == PlacedRow(s.ledger.trades[t], account, outcome)
            && n.ledger.broker == s.ledger.broker
            && Links(n.ledger) == Links(Update(Prepared(s.ledger, t, CreatePlan(account)).value, t, outcome))
  {
    hide Next;
    hide Run;
    hide Prepared;
    hide Update;
    hide Changed;
    var plan := CreatePlan(account);
    steps := UpToOutcome(pid, t, plan, outcome);
    AttemptIsUnderLock(s, pid, t, plan, outcome);
    ReachesOutcome(s, pid, t, plan, outcome);
    OutcomeRow(s.ledger, t, plan, outcome);
    var confirmed, last := Run(s, steps), [Step.Finish(pid), Step.Stop(pid)];
    RunGrows(s, steps);
    FinishAndStop(confirmed, pid);
    QuietIsUnderLock(confirmed, last);
    LockedRunsJoin(s, steps, last);
    RunsCompose(s, steps, last);
    steps := steps + last;
  }

  lemma FirstEventLinks(broker: string, e: Event, t: TradeId, account: string)
    requires e.kind == Accepted && e.orderId != ""
    ensures OnlyOwn(Next(Begun(broker), Step.Receive(e, t)).ledger, t, account)
  {
    var l := Begun(broker).ledger;
    assert TradeOf(l, e) == None;
    assert Record(l, e, t).Recorded?;
  }

  /** Once the create was filled, position 9 is the trade's alone, and it stays so when a cancel is noted. */
  lemma FilledIsOwn(l: Ledger, t: TradeId, account: string)
    requires OnlyOwn(l, t, account) && Claimable(l, t, "CREATE")
    ensures Prepared(l, t, CreatePlan(account)).Some?
    ensures var m := Prepared(l, t, CreatePlan(account)).value;
            Update(m, t, FILLED).broker == l.broker && OnlyOwn(Update(m, t, FILLED), t, account)
  {
    var claimed := Journal.Claim(l, t, "CREATE", account, CREATE_REQUEST).value;
    UpdateKeepsOnlyOwn(claimed, t, CreatePlan(account).before, account);
    UpdateOnlyRow(claimed, t, CreatePlan(account).before);
    hide Update;
    hide OnlyOwn;
    UpdateKeepsOnlyOwn(Prepared(l, t, CreatePlan(account)).value, t, FILLED, account);
    UpdateOnlyRow(Prepared(l, t, CreatePlan(account)).value, t, FILLED);
  }

  lemma SameLinksOwn(l: Ledger, m: Ledger, t: TradeId, account: string)
    requires OnlyOwn(l, t, account) && Links(m) == Links(l) && m.broker == l.broker
    ensures OnlyOwn(m, t, account)
  {
  }

  /** What the witnesses need of the placed row. */
  predicate IsPlacedRow(row: Trade, outcome: Change) {
    && row.state == Or(outcome.state, Dispatching) && row.positionId == Or(outcome.positionId, "")
    && row.lots == Some(LOT)
  }

  lemma PlacedRowIs(row: Trade, account: string, outcome: Change)
    requires IsOutcome(CreatePlan(account), outcome) && row.positionId == ""
    ensures IsPlacedRow(PlacedRow(row, account, outcome), outcome)
  {
  }

  /** From an empty journal and under the lock, a trade is captured and placed. */
  lemma CapturedAndPlaced(broker: string, account: string, e: Event, t: TradeId, outcome: Change)
    returns (steps: seq<Step>)
    requires e.kind == Accepted && e.orderId != "" && IsOutcome(CreatePlan(account), outcome)
    requires outcome == FILLED || outcome == PLACED
    ensures AllUnderLock(Begun(broker), steps)
    ensures var n := Run(Begun(broker), steps);
            && n.processes == map[] && n.ledger.attempts.Keys == {AttemptKey(t, "CREATE")}
            && t in n.ledger.trades && IsPlacedRow(n.ledger.trades[t], outcome)
            && (outcome == FILLED ==> OnlyOwn(n.ledger, t, account))
  {
    hide Next;
    hide Run;
    hide Prepared;
    hide Update;
    hide OnlyOwn;
    var s, received := Begun(broker), [Step.Receive(e, t)];
    FirstEventStartsATrade(s, e, t);
    FirstEventLinks(broker, e, t, account);
    OneStep(s, received[0]);
    var captured := Run(s, received);
    var placing := PlacesAnOrder(captured, 0, t, account, outcome);
    PlacedRowIs(captured.ledger.trades[t], account, outcome);
    hide PlacedRow;
    hide IsPlacedRow;
    LockedRunsJoin(s, received, placing);
    RunsCompose(s, received, placing);
    steps := received + placing;
    if outcome == FILLED {
      FilledIsOwn(captured.ledger, t, account);
      SameLinksOwn(Update(Prepared(captured.ledger, t, CreatePlan(account)).value, t, FILLED), Run(s, steps).ledger, t,
                   account);
    }
  }

  lemma ChangedState(row: Trade, c: Change)
    ensures Changed(row, c).state == Or(c.state, row.state)
  {
  }

  /** A cancel is confirmed and resolves the trade; then its own bookkeeping fails, and the trade is uncertain. */
  lemma LosesItsResolution(s: System, pid: Pid, t: TradeId, account: string) returns (steps: seq<Step>)
    requires s.processes == map[] && t in s.ledger.trades && s.ledger.trades[t].state == Pending
    requires AttemptKey(t, "CANCEL:1") !in s.ledger.attempts
    ensures |steps| > 0 && AllUnderLock(s, steps)
    ensures IsResolved(Run(s, steps[..|steps| - 1]), t)
    ensures t in Run(s, steps).ledger.trades && Run(s, steps).ledger.trades[t].state == Uncertain
  {
    hide Next;
    hide Run;
    hide Prepared;
    hide Update;
    var plan := CancelPlan(account);
    var front, fail := UpToOutcome(pid, t, plan, GONE), Step.Fail(pid);
    AttemptIsUnderLock(s, pid, t, plan, GONE);
    ReachesOutcome(s, pid, t, plan, GONE);
    OutcomeRow(s.ledger, t, plan, GONE);
    ChangedState(Changed(s.ledger.trades[t].(state := Dispatching), plan.before), GONE);
    hide Changed;
    var resolved := Run(s, front);
    QuietIsUnderLock(resolved, [fail]);
    LockedRunsJoin(s, front, [fail]);
    RunSnoc(s, front, fail);
    assert Plain(resolved);
    StateAfterIs(resolved, fail, t);
    steps := front + [fail];
    assert steps[..|steps| - 1] == front;
  }

  /** From an empty journal and under the lock, a trade is captured, placed, cancelled and resolved, and then
      becomes uncertain again: resolved is not final when the last bookkeeping fails. */
  lemma ResolvedCanBeLost(broker: string, account: string, e: Event, t: TradeId) returns (steps: seq<Step>)
    requires e.kind == Accepted && e.orderId != ""
    ensures Initial(Begun(broker)) && |steps| > 0 && AllUnderLock(Begun(broker), steps)
    ensures IsResolved(Run(Begun(broker), steps[..|steps| - 1]), t)
    ensures t in Run(Begun(broker), steps).ledger.trades
    ensures Run(Begun(broker), steps).ledger.trades[t].state == Uncertain
  {
    hide Next;
    hide Run;
    var s := Begun(broker);
    var placed := CapturedAndPlaced(broker, account, e, t, PLACED);
    var losing := LosesItsResolution(Run(s, placed), 0, t, account);
    LockedRunsJoin(s, placed, losing);
    RunsCompose(s, placed, losing);
    RunsCompose(s, placed, losing[..|losing| - 1]);
    steps := placed + losing;
    assert steps[..|steps| - 1] == placed + losing[..|losing| - 1];
  }

  // ---- without the lock ----

  /** The last step of the run reopens or writes for a trade that was uncertain or resolved before it. */
  ghost predicate EndsInEscape(s: System, steps: seq<Step>, t: TradeId) {
    && |steps| > 0 && Absorbed(Run(s, steps[..|steps| - 1]).ledger, t)
    && Escapes(Run(s, steps[..|steps| - 1]), Run(s, steps), t)
  }

  lemma CallIsAnEscape(s: System, front: seq<Step>, q: Pid, t: TradeId)
    requires Absorbed(Run(s, front).ledger, t) && Acts(Run(s, front), q, t, {Noted})
    ensures EndsInEscape(s, front + [Step.Call(q)], t)
  {
    hide Next;
    RunSnoc(s, front, Step.Call(q));
    SentAfter(Run(s, front), Step.Call(q), t);
    assert (front + [Step.Call(q)])[..|front|] == front;
  }

  /** Two dispatchers of one trade: the first has its write confirmed, the second claims, the first one's
      bookkeeping fails, and the second writes for a trade that is uncertain by then. */
  lemma LateWriteAfterFailure(s: System, p: Pid, q: Pid, t: TradeId, a: Plan, b: Plan, change: Change)
    returns (steps: seq<Step>)
    requires Plain(s) && p != q && CanWrite(s, p, t, a) && CanWrite(s, q, t, b)
    requires a.action != b.action && a.action != "CREATE" && b.action != "CREATE"
    requires b.before.lots != Some(None) && IsOutcome(a, change) && change.state != Some(Resolved)
    ensures EndsInEscape(s, steps, t)
  {
    hide Next;
    hide Run;
    hide Prepared;
    hide Update;
    var front, fail := UpToOutcome(p, t, a, change) + UpToNote(q, t, b), Step.Fail(p);
    SecondIsNoted(s, p, q, t, a, b, change);
    var both := Run(s, front);
    RunSnoc(s, front, fail);
    StateAfterIs(both, fail, t);
    FailMovesOne(both, p, q);
    CallIsAnEscape(s, front + [fail], q, t);
    steps := front + [fail] + [Step.Call(q)];
  }

  /** The first dispatcher has written its outcome and the second is about to call. */
  lemma SecondIsNoted(s: System, p: Pid, q: Pid, t: TradeId, a: Plan, b: Plan, change: Change)
    requires Plain(s) && p != q && CanWrite(s, p, t, a) && CanWrite(s, q, t, b)
    requires a.action != b.action && a.action != "CREATE" && b.action != "CREATE"
    requires b.before.lots != Some(None) && IsOutcome(a, change) && change.state != Some(Resolved)
    ensures var both := Run(s, UpToOutcome(p, t, a, change) + UpToNote(q, t, b));
            && Plain(both) && t in both.ledger.trades
            && both.processes == s.processes[p := Process(t, a, Confirming)][q := Process(t, b, Noted)]
  {
    hide Next;
    hide Run;
    hide Update;
    hide Prepared;
    var confirmed := Run(s, UpToOutcome(p, t, a, change));
    ReachesOutcome(s, p, t, a, change);
    OutcomeRow(s.ledger, t, a, change);
    ReachesNote(confirmed, q, t, b);
    PreparedTables(confirmed.ledger, t, b);
    RunsCompose(s, UpToOutcome(p, t, a, change), UpToNote(q, t, b));
  }

  lemma FailMovesOne(s: System, p: Pid, q: Pid)
    requires p != q && q in s.processes
    ensures q in Next(s, Step.Fail(p)).processes && Next(s, Step.Fail(p)).processes[q] == s.processes[q]
  {
    hide Update;
  }

  const EDIT_REQUEST :=
    Request(EditPending, "EURUSD", "BUY", "7", "LIMIT", None, None, None, None)

  function EditPlan(account: string): Plan {
    Plan("EDIT:1", EDIT_REQUEST, account, NO_CHANGE.(destination := Some(account)))
  }

  /** From an empty journal, with an edit and a cancel of one trade overlapping. */
  lemma LateWriteIsReachable(broker: string, account: string, e: Event, t: TradeId) returns (steps: seq<Step>)
    requires e.kind == Accepted && e.orderId != ""
    ensures Initial(Begun(broker)) && EndsInEscape(Begun(broker), steps, t)
  {
    hide Next;
    hide Run;
    var s := Begun(broker);
    var front := CapturedAndPlaced(broker, account, e, t, PLACED);
    var placed := Run(s, front);
    var back := LateWriteAfterFailure(placed, 1, 2, t, EditPlan(account), CancelPlan(account), RESTING);
    steps := front + back;
    EscapesAfter(s, front, back, t);
  }

  lemma EscapesAfter(s: System, front: seq<Step>, back: seq<Step>, t: TradeId)
    requires EndsInEscape(Run(s, front), back, t)
    ensures EndsInEscape(s, front + back, t)
  {
    hide Next;
    hide Run;
    RunsCompose(s, front, back);
    RunsCompose(s, front, back[..|back| - 1]);
    assert (front + back)[..|front + back| - 1] == front + back[..|back| - 1];
  }

  /** Any event or reconciliation that moves the row of an attempt about to call, and leaves it uncertain or
      resolved, is followed by that call. */
  lemma LateWriteAfterDisturbance(s: System, p: Pid, t: TradeId, plan: Plan, step: Step)
    requires CanWrite(s, p, t, plan) && IsLedgerStep(step)
    requires Absorbed(Next(Run(s, UpToNote(p, t, plan)), step).ledger, t)
    ensures EndsInEscape(s, UpToNote(p, t, plan) + [step] + [Step.Call(p)], t)
  {
    hide Next;
    hide Run;
    hide Prepared;
    var front := UpToNote(p, t, plan);
    ReachesNote(s, p, t, plan);
    RunSnoc(s, front, step);
    LedgerStepGrows(Run(s, front), step);
    CallIsAnEscape(s, front + [step], p, t);
  }

  lemma SecondEventEndsTheTrade(l: Ledger, e: Event, t: TradeId, end: Event, newId: TradeId)
    requires t in l.trades && l.trades[t].destination == "" && newId !in l.trades
    requires SourceKeyOf(e) in l.sources && l.sources[SourceKeyOf(e)] == t && e.orderId != ""
    requires end == e.(eventId := end.eventId, kind := OrderSeen, status := "Cancelled")
    requires EventKey(end.machine, end.eventId) !in l.events
    ensures Ends(l, end, newId, t)
  {
    assert SourceKeyOf(end) == SourceKeyOf(e);
    assert TradeOf(l, end) == Some(t);
  }

  /** The first event's tables. */
  lemma FirstEventTables(s: System, e: Event, t: TradeId)
    requires s == Begun(s.ledger.broker) && e.kind == Accepted && e.orderId != ""
    ensures var l := Next(s, Step.Receive(e, t)).ledger;
            && l.sources == map[SourceKeyOf(e) := t] && l.events.Keys == {EventKey(e.machine, e.eventId)}
            && l.trades.Keys == {t} && l.trades[t].destination == ""
  {
    assert TradeOf(s.ledger, e) == None;
    assert Record(s.ledger, e, t).Recorded?;
  }

  function UpToClaim(e: Event, t: TradeId, account: string): seq<Step> {
    [Step.Receive(e, t)] + [Step.Begin(0, t, CreatePlan(account))] + [Step.Claim(0)]
  }

  /** The first event has started a trade, and a dispatcher has claimed its create. */
  lemma FirstClaim(broker: string, account: string, e: Event, t: TradeId)
    requires e.kind == Accepted && e.orderId != ""
    ensures var claimed := Run(Begun(broker), UpToClaim(e, t, account));
            && claimed.processes == map[0 := Process(t, CreatePlan(account), Claimed)]
            && claimed.ledger.sources == map[SourceKeyOf(e) := t]
            && claimed.ledger.events.Keys == {EventKey(e.machine, e.eventId)}
            && claimed.ledger.trades.Keys == {t} && claimed.ledger.trades[t].destination == ""
  {
    hide Next;
    hide Run;
    var s, receive, begin := Begun(broker), Step.Receive(e, t), Step.Begin(0, t, CreatePlan(account));
    FirstEventStartsATrade(s, e, t);
    FirstEventTables(s, e, t);
    OneStep(s, receive);
    BeginStep(Next(s, receive), 0, t, CreatePlan(account));
    RunSnoc(s, [receive], begin);
    ClaimStep(Next(Next(s, receive), begin), 0);
    RunSnoc(s, [receive] + [begin], Step.Claim(0));
  }

  /** From an empty journal: the order of a trade is cancelled at its source between a create's claim and its
      note; the event resolves the trade, and the create is sent all the same. */
  lemma EventUnderAnAttempt(broker: string, account: string, e: Event, end: Event, t: TradeId, newId: TradeId)
    returns (steps: seq<Step>)
    requires e.kind == Accepted && e.orderId != "" && newId != t && end.eventId != e.eventId
    requires end == e.(eventId := end.eventId, kind := OrderSeen, status := "Cancelled")
    ensures EndsInEscape(Begun(broker), steps, t)
  {
    hide Next;
    hide Run;
    hide Record;
    var s, front, ends, note := Begun(broker), UpToClaim(e, t, account), Step.Receive(end, newId), Step.Note(0);
    FirstClaim(broker, account, e, t);
    var claimed := Run(s, front);
    SecondEventEndsTheTrade(claimed.ledger, e, t, end, newId);
    ReceiveMoves(claimed, end, newId, t);
    LedgerStepGrows(claimed, ends);
    hide Ends;
    hide Grows;
    RunSnoc(s, front, ends);
    var resolved := Next(claimed, ends);
    NoteStep(resolved, 0);
    StateAfterIs(resolved, note, t);
    RunSnoc(s, front + [ends], note);
    CallIsAnEscape(s, front + [ends] + [note], 0, t);
    steps := front + [ends] + [note] + [Step.Call(0)];
  }

  /** From an empty journal: stopped between the claim and the outcome, the trade restarts resolved and not
      uncertain, because an event had moved its row. */
  lemma CrashCanHideAnAttempt(broker: string, account: string, e: Event, end: Event, t: TradeId, newId: TradeId)
    returns (steps: seq<Step>)
    requires e.kind == Accepted && e.orderId != "" && newId != t && end.eventId != e.eventId
    requires end == e.(eventId := end.eventId, kind := OrderSeen, status := "Cancelled")
    ensures HasOpenAttempt(Run(Begun(broker), steps), t)
    ensures IsResolved(Next(Run(Begun(broker), steps), Step.Crash), t)
  {
    hide Run;
    hide Record;
    var s, front, ends := Begun(broker), UpToClaim(e, t, account), Step.Receive(end, newId);
    FirstClaim(broker, account, e, t);
    var claimed := Run(s, front);
    SecondEventEndsTheTrade(claimed.ledger, e, t, end, newId);
    ReceiveMoves(claimed, end, newId, t);
    LedgerStepGrows(claimed, ends);
    RunSnoc(s, front, ends);
    hide Ends;
    hide Grows;
    steps := front + [ends];
    assert OpenOn(Run(s, steps), 0, t);
    RestartKeepsResolved(Run(s, steps), t);
  }

  lemma RestartKeepsResolved(s: System, t: TradeId)
    requires IsResolved(s, t)
    ensures IsResolved(Next(s, Step.Crash), t)
  {
  }

  /** The closed history of a position whose whole lots were closed, and nothing else. */
  function AllClosed(row: Trade, lots: Decimal, at: int): R.View {
    R.View([], {}, [ClosedTrade(row.positionId, row.symbol, row.side, lots, lots, None, "", None, None)], at)
  }

  lemma AllClosedResolves(l: Ledger, t: TradeId, lots: Decimal, at: int)
    requires t in l.trades && l.trades[t].state == Dispatching && l.trades[t].positionId != ""
    requires l.trades[t].lots == Some(lots) && Unshared(Links(l), t)
    ensures R.NewState(l, l.trades[t].destination, [t], AllClosed(l.trades[t], lots, at), t) == Resolved
  {
    var row, account := l.trades[t], l.trades[t].destination;
    var view := AllClosed(row, lots, at);
    hide Unshared;
    assert Related(row, []) == [];
    assert [t][..0] == [];
    assert R.NotedAll(l, account, [t], view) == R.Noted(row, l, account, t, view) == l by {
      assert ObservePositions(l, t, account, [], view.at) == l;
    }
    var closing := view.history[0];
    assert R.Closings(row, view.history) == [closing] by {
      assert view.history[1..] == [];
    }
    assert R.ClosedSum([closing]) == Value(lots) by {
      assert [closing][1..] == [];
    }
    assert R.ResolvesAt(l, l, account, [t], view, 0);
  }

  /** A reconciliation that runs beside an attempt about to call resolves its trade, and the call follows. */
  lemma ReconciliationUnderAnAttempt(s: System, p: Pid, t: TradeId, plan: Plan, lots: Decimal, at: int)
    returns (steps: seq<Step>)
    requires CanWrite(s, p, t, plan)
    requires var l := Run(s, UpToNote(p, t, plan)).ledger;
             t in l.trades && l.trades[t].positionId != "" && l.trades[t].lots == Some(lots) && Unshared(Links(l), t)
    ensures EndsInEscape(s, steps, t)
  {
    hide Next;
    hide Run;
    hide Prepared;
    hide Unshared;
    hide Changed;
    hide R.NewState;
    var front := UpToNote(p, t, plan);
    ReachesNote(s, p, t, plan);
    PreparedTables(s.ledger, t, plan);
    NotedIsDispatching(s.ledger.trades[t], plan.before);
    var noted := Run(s, front);
    var row := noted.ledger.trades[t];
    AllClosedResolves(noted.ledger, t, lots, at);
    var settle := Step.Settle(row.destination, [t], AllClosed(row, lots, at));
    LedgerStateAfter(noted, settle, t);
    LateWriteAfterDisturbance(s, p, t, plan, settle);
    steps := front + [settle] + [Step.Call(p)];
  }

  lemma NotedIsDispatching(row: Trade, before: Change)
    requires before.state.None?
    ensures Changed(row.(state := Dispatching), before).state == Dispatching
  {
  }

  lemma CancelIsOwn(l: Ledger, t: TradeId, account: string)
    requires OnlyOwn(l, t, account) && Claimable(l, t, "CANCEL:1") && l.trades[t].positionId == "9"
    ensures Prepared(l, t, CancelPlan(account)).Some?
    ensures var m := Prepared(l, t, CancelPlan(account)).value;
            && t in m.trades && m.trades[t].positionId == "9" && m.trades[t].lots == l.trades[t].lots
            && Unshared(Links(m), t)
  {
    var claimed := Journal.Claim(l, t, "CANCEL:1", account, CANCEL_REQUEST).value;
    UpdateKeepsOnlyOwn(claimed, t, CancelPlan(account).before, account);
    UpdateOnlyRow(claimed, t, CancelPlan(account).before);
    hide Update;
    OnlyOwnIsUnshared(Prepared(l, t, CancelPlan(account)).value, t, account);
    hide OnlyOwn;
    hide Unshared;
  }

  /** From an empty journal: a trade is captured and filled; while a cancel of its order is about to be sent, a
      reconciliation finds its position closed in full and resolves it, and the cancel is sent all the same. */
  lemma ReconciliationIsReachable(broker: string, account: string, e: Event, t: TradeId, at: int)
    returns (steps: seq<Step>)
    requires e.kind == Accepted && e.orderId != ""
    ensures Initial(Begun(broker)) && EndsInEscape(Begun(broker), steps, t)
  {
    hide Next;
    hide Run;
    hide Prepared;
    hide OnlyOwn;
    hide Unshared;
    hide Update;
    var s := Begun(broker);
    var front := CapturedAndPlaced(broker, account, e, t, FILLED);
    var placed := Run(s, front);
    CancelIsOwn(placed.ledger, t, account);
    ReachesNote(placed, 1, t, CancelPlan(account));
    var back := ReconciliationUnderAnAttempt(placed, 1, t, CancelPlan(account), LOT, at);
    EscapesAfter(s, front, back, t);
    steps := front + back;
  }
}
