/** The discipline every dispatcher shares (router.py, manual_send.py, unwind.py): commit the attempt,
    note the request, call the broker once, then write what its answer established. */
module Attempts {
  import opened Wrappers
  import opened Events
  import opened Identity
  import opened Journal

  /** One write about to be attempted: its action key, its request, and the row change made before the call. */
  datatype Plan = Plan(action: string, request: Request, account: string, before: Change)

  /** What the broker, or our own client, said. Failed stands for anything raised by the call. */
  datatype Answer = Answered(status: Option<string>, orderId: Option<string>, positionId: Option<string>)
                  | Failed | WritesDisabled

  /** What the answer established. */
  datatype Reply = Confirmed(change: Change) | Unconfirmed | NotSent(resume: TradeState)

  datatype Outcome = AcceptedByBroker | NotVerified | HeldBack(reason: string)

  datatype Performed = Performed(ledger: Ledger, outcome: Outcome, sent: seq<Request>)

  /** claim, then the change before the call. */
  function Prepared(l: Ledger, id: TradeId, plan: Plan): Option<Ledger> {
    var claimed := Claim(l, id, plan.action, plan.account, plan.request);
    if claimed.None? then None else Some(Update(claimed.value, id, plan.before))
  }

  function ChangeOf(reply: Reply): Change {
    match reply
    case Confirmed(change) => change
    case Unconfirmed => NO_CHANGE.(state := Some(Uncertain))
    case NotSent(resume) => NO_CHANGE.(state := Some(resume))
  }

  function RecordOf(reply: Reply): AttemptState {
    match reply
    case Confirmed(_) => Succeeded
    case Unconfirmed => Unverified
    case NotSent(_) => Held
  }

  /** The change the answer established, then the end of the attempt. */
  function Settled(l: Ledger, id: TradeId, action: string, reply: Reply): Ledger {
    Finish(Update(l, id, ChangeOf(reply)), id, action, RecordOf(reply))
  }

  function OutcomeOf(reply: Reply): Outcome {
    match reply
    case Confirmed(_) => AcceptedByBroker
    case Unconfirmed => NotVerified
    case NotSent(_) => HeldBack("Broker writes are disabled; nothing was sent")
  }

  /** The whole attempt, undisturbed; prepared is the ledger the call was made from. */
  function Performs(l: Ledger, id: TradeId, plan: Plan, reply: Reply): Performed {
    match Prepared(l, id, plan)
    case None => Performed(l, HeldBack("Action already attempted; it will not be sent again"), [])
    case Some(prepared) =>
      Performed(Settled(prepared, id, plan.action, reply), OutcomeOf(reply),
                if reply.NotSent? then [] else [plan.request])
  }

  /** The positions the broker itself ties to the trade, by position id or opening order id, with the
      trade's symbol and side; never matched by price. */
  function Related(t: Trade, positions: seq<Position>): seq<Position> {
    if positions == [] then []
    else (if IsRelated(t, positions[0]) then [positions[0]] else []) + Related(t, positions[1..])
  }

  predicate IsRelated(t: Trade, p: Position) {
    && ((t.positionId != "" && p.id == t.positionId) || (t.orderId != "" && p.orderId == Some(t.orderId)))
    && p.symbol == t.symbol && p.side == t.side
  }

  lemma {:induction false} RelatedAre(t: Trade, positions: seq<Position>)
    ensures forall p :: p in Related(t, positions) <==> p in positions && IsRelated(t, p)
  {
    if positions != [] {
      RelatedAre(t, positions[1..]);
    }
  }

  /** How an attempt leaves its trade's row, and that it left exactly one attempt on record. */
  lemma PerformedState(l: Ledger, id: TradeId, plan: Plan, reply: Reply)
    requires plan.before.state.None? && (reply.Confirmed? ==> reply.change.state.Some?)
    ensures var d := Performs(l, id, plan, reply);
            && d.sent == (if Claimable(l, id, plan.action) && !reply.NotSent? then [plan.request] else [])
            && (!Claimable(l, id, plan.action) ==> d.ledger == l && d.outcome.HeldBack?)
            && (Claimable(l, id, plan.action) ==>
                  && d.outcome == OutcomeOf(reply)
                  && d.ledger.attempts.Keys == l.attempts.Keys + {AttemptKey(id, plan.action)}
                  && id in d.ledger.trades
                  && d.ledger.trades[id].state == match reply
                                                  case Confirmed(change) => change.state.value
                                                  case Unconfirmed => Uncertain
                                                  case NotSent(resume) => resume)
  {
    if Claimable(l, id, plan.action) {
      var claimed := Claim(l, id, plan.action, plan.account, plan.request).value;
      UpdateOnlyRow(claimed, id, plan.before);
      var prepared := Update(claimed, id, plan.before);
      UpdateOnlyRow(prepared, id, ChangeOf(reply));
    }
  }

  lemma PreparedTables(l: Ledger, id: TradeId, plan: Plan)
    requires Claimable(l, id, plan.action)
    ensures Prepared(l, id, plan).Some?
    ensures var (m, key) := (Prepared(l, id, plan).value, AttemptKey(id, plan.action));
            && m == l.(attempts := l.attempts[key := InFlight],
                       history := l.history[key := HistoryRow(plan.account, plan.request, InFlight, "", "")],
                       trades := l.trades[id := Changed(l.trades[id].(state := Dispatching), plan.before)],
                       evidence := l.evidence.(links := Links(m)))
            && Links(l) <= Links(m)
  {
    hide Changed;
    UpdateOnlyRow(Claim(l, id, plan.action, plan.account, plan.request).value, id, plan.before);
    hide Update;
  }

  lemma SettledTables(l: Ledger, id: TradeId, action: string, reply: Reply)
    requires id in l.trades && AttemptKey(id, action) in l.attempts && AttemptKey(id, action) in l.history
    ensures var (m, key) := (Settled(l, id, action, reply), AttemptKey(id, action));
            var row := Changed(l.trades[id], ChangeOf(reply));
            && m == l.(attempts := l.attempts[key := RecordOf(reply)],
                       history := l.history[key := FinishedRow(l.history[key], row, RecordOf(reply))],
                       trades := l.trades[id := row], evidence := l.evidence.(links := Links(m)))
            && Links(l) <= Links(m)
  {
    hide Changed;
    UpdateOnlyRow(l, id, ChangeOf(reply));
    hide Update;
    hide ChangeOf;
  }

  /** The whole effect of an attempt on the tables: its own record and history say what was asked for, what
      the answer established and which broker ids the trade has by then; its trade's row carries the two
      changes; no other trade's row, no other attempt and no other history is touched; links are only added. */
  lemma PerformedTables(l: Ledger, id: TradeId, plan: Plan, reply: Reply)
    requires Claimable(l, id, plan.action)
    ensures var (m, key) := (Performs(l, id, plan, reply).ledger, AttemptKey(id, plan.action));
            var row := Changed(Changed(l.trades[id].(state := Dispatching), plan.before), ChangeOf(reply));
            && m.attempts == l.attempts[key := RecordOf(reply)]
            && m.history
               == l.history[key := HistoryRow(plan.account, plan.request, RecordOf(reply), row.orderId, row.positionId)]
            && m.trades == l.trades[id := row]
            && Links(l) <= Links(m)
            && m == l.(attempts := m.attempts, history := m.history, trades := m.trades,
                       evidence := l.evidence.(links := Links(m)))
  {
    hide Changed;
    hide Settled;
    hide Prepared;
    hide RecordOf;
    hide ChangeOf;
    PreparedTables(l, id, plan);
    SettledTables(Prepared(l, id, plan).value, id, plan.action, reply);
  }

  /** An attempt records no event. */
  lemma PerformsKeepsEvents(l: Ledger, id: TradeId, plan: Plan, reply: Reply)
    ensures Performs(l, id, plan, reply).ledger.events == l.events
  {
    if Claimable(l, id, plan.action) {
      var claimed := Claim(l, id, plan.action, plan.account, plan.request).value;
      UpdateOnlyRow(claimed, id, plan.before);
      UpdateOnlyRow(Update(claimed, id, plan.before), id, ChangeOf(reply));
    }
  }
}
