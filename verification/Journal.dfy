/** store.py and the tables of mapping.py as values: each function is one committed transaction.
    A refused transaction changes nothing, as the rolled-back one does. */
module Journal {
  import opened Wrappers
  import opened Decimals
  import opened Events
  import opened Identity
  import F = Fills
  import O = Observations

  datatype TradeState = Observed | Dispatching | Pending | Open | Uncertain | Resolved
  datatype AttemptState = InFlight | Succeeded | Unverified | Held

  type SourceKey = seq<string>

  datatype Trade = Trade(
    source: string, scope: Scope, destination: string, orderId: string, positionId: string, state: TradeState,
    lots: Option<Decimal>, symbol: string, side: string, orderType: string,
    lastRequest: string, lastEventAt: Option<int>)

  datatype EventKey = EventKey(machine: string, id: string)
  datatype EventRow = EventRow(event: Event, trade: Option<TradeId>)
  datatype AttemptKey = AttemptKey(trade: TradeId, action: string)

  /** The broker mutations, each with the id it acts on. */
  datatype Call =
    | OpenPosition | CreatePending | CancelPending | EditPending | ClosePosition | PartialClose | EditPosition
  datatype Request = Request(
    call: Call, instrument: string, side: string, target: string, orderType: string,
    volume: Option<Decimal>, price: Option<Decimal>, sl: Option<Decimal>, tp: Option<Decimal>)

  datatype HistoryRow = HistoryRow(
    account: string, request: Request, outcome: AttemptState, orderId: string, positionId: string)

  datatype Ledger = Ledger(
    broker: string, trades: map<TradeId, Trade>, sources: map<SourceKey, TradeId>, events: map<EventKey, EventRow>,
    attempts: map<AttemptKey, AttemptState>, history: map<AttemptKey, HistoryRow>,
    evidence: F.Evidence, rows: O.Table, papers: set<TradeId>)

  function Links(l: Ledger): set<Link> {
    l.evidence.links
  }

  function DestinationScope(l: Ledger, account: string): Scope {
    [l.broker, account]
  }

  function WithLink(l: Ledger, link: Link): Ledger {
    l.(evidence := l.evidence.(links := Linked(l.evidence.links, link)))
  }

  // ---- record ----

  function SourceKeyOf(e: Event): SourceKey {
    e.Scope() + [e.orderId]
  }

  function Only<T(!new)>(s: set<T>): (x: T)
    requires |s| == 1
    ensures x in s
  {
    assert s != {};
    assert forall a, b :: a in s && b in s ==> a == b by {
      forall a, b | a in s && b in s
        ensures a == b
      {
        AtMostOne(s, a, b);
      }
    }
    var x :| x in s;
    x
  }

  /** The trade an event belongs to: by its order, or by a position that one trade alone is linked to. */
  function TradeOf(l: Ledger, e: Event): Option<TradeId> {
    if e.orderId != "" then
      if SourceKeyOf(e) in l.sources then Some(l.sources[SourceKeyOf(e)]) else None
    else if e.positionId != "" then
      var owners := set t | t in Owners(Links(l), Source, e.Scope(), e.positionId) && t in l.trades;
      if |owners| == 1 then Some(Only(owners)) else None
    else None
  }

  function FillOf(id: TradeId, e: Event): F.Fill {
    F.Fill(F.FillKey(Source, e.Scope(), e.executionId), id, e.orderId, e.positionId, e.quantity, e.price, e.effect,
           e.emittedAt)
  }

  function SourceEvidence(evidence: F.Evidence, id: TradeId, e: Event): Result<F.Evidence> {
    var ordered := Linked(evidence.links, Link(id, Source, e.Scope(), OrderLink, e.orderId));
    var placed := if e.kind in {FillSeen, PositionSeen}
                  then Linked(ordered, Link(id, Source, e.Scope(), PositionLink, e.positionId)) else ordered;
    var linked := evidence.(links := placed);
    if e.kind == FillSeen && e.executionId != "" then F.Filled(linked, FillOf(id, e)) else Ok(linked)
  }

  /** The source says the order ended: cancelled or refused, or its position was removed. */
  predicate EndsAtSource(e: Event) {
    || (e.kind == OrderSeen && e.status in {"Cancelled", "Refused"})
    || (e.kind == PositionSeen && e.status == "Removed")
  }

  function Touched(t: Trade, e: Event): Trade {
    var named := if t.destination != "" then t
                 else t.(symbol := e.symbol, side := e.side, orderType := e.orderType,
                         state := if EndsAtSource(e) then Resolved else t.state);
    if e.action == Create && e.source != "UNKNOWN" && named.source == "UNKNOWN" then named.(source := e.source)
    else named
  }

  function NewTrade(e: Event): Trade {
    Trade(e.source, e.Scope(), "", "", "", Observed, None, "", "", "", "", None)
  }

  datatype Recording = Duplicate(row: EventRow) | Conflict | Recorded(ledger: Ledger, row: EventRow)

  /** The trade an event is recorded under, which a first order event starts under newId. */
  function Identified(l: Ledger, e: Event, newId: TradeId): Option<TradeId> {
    var known := TradeOf(l, e);
    if known.None? && e.orderId != "" then Some(newId) else known
  }

  function WithTrade(l: Ledger, e: Event, newId: TradeId): Ledger {
    if TradeOf(l, e).None? && e.orderId != ""
    then l.(trades := l.trades[newId := NewTrade(e)], sources := l.sources[SourceKeyOf(e) := newId])
    else l
  }

  /** What the event does to its trade and to the evidence; refused when its fill conflicts. */
  function Applied(l: Ledger, id: TradeId, e: Event): Result<Ledger>
    requires id in l.trades
  {
    match SourceEvidence(l.evidence, id, e)
    case Refused(reason) => Refused(reason)
    case Ok(evidence) => Ok(l.(evidence := evidence, trades := l.trades[id := Touched(l.trades[id], e)]))
  }

  /** One event, at most once per event id; newId is the identity a new trade would get. */
  function Record(l: Ledger, e: Event, newId: TradeId): Recording {
    var key := EventKey(e.machine, e.eventId);
    if key in l.events then
      if l.events[key].event == e then Duplicate(l.events[key]) else Conflict
    else
      var id := Identified(l, e, newId);
      var row := EventRow(e, id);
      var started := WithTrade(l, e, newId);
      var applied := if id.Some? && id.value in started.trades then Applied(started, id.value, e) else Ok(started);
      if applied.Refused? then Conflict else Recorded(applied.value.(events := l.events[key := row]), row)
  }

  /** Attempts, their history and the journal's broker are not an event's business; a state moves only
      to resolved, for the event's own trade, when the source ended it before any destination. */
  ghost predicate OnlyAdds(l: Ledger, m: Ledger, e: Event, id: Option<TradeId>) {
    && m.broker == l.broker && m.attempts == l.attempts && m.history == l.history
    && Links(l) <= Links(m) && l.trades.Keys <= m.trades.Keys
    && (forall t :: t in l.trades && m.trades[t].state != l.trades[t].state ==>
          m.trades[t].state == Resolved && l.trades[t].destination == "" && EndsAtSource(e) && Some(t) == id)
    && (forall t :: t in m.trades && t !in l.trades ==> m.trades[t].state in {Observed, Resolved})
  }

  lemma AppliedOnlyAdds(l: Ledger, id: TradeId, e: Event)
    requires id in l.trades && Applied(l, id, e).Ok?
    ensures OnlyAdds(l, Applied(l, id, e).value, e, Some(id))
  {
    assert l.evidence.links <= SourceEvidence(l.evidence, id, e).value.links;
  }

  lemma WithTradeOnlyAdds(l: Ledger, e: Event, newId: TradeId)
    requires newId !in l.trades
    ensures OnlyAdds(l, WithTrade(l, e, newId), e, Identified(l, e, newId))
  {
  }

  lemma OnlyAddsComposes(l: Ledger, m: Ledger, n: Ledger, e: Event, id: Option<TradeId>)
    requires OnlyAdds(l, m, e, id) && OnlyAdds(m, n, e, id)
    requires forall t :: t in l.trades && t in m.trades ==> m.trades[t].destination == l.trades[t].destination
    ensures OnlyAdds(l, n, e, id)
  {
  }

  lemma RecordOnlyAdds(l: Ledger, e: Event, newId: TradeId)
    requires Record(l, e, newId).Recorded? && newId !in l.trades
    ensures OnlyAdds(l, Record(l, e, newId).ledger, e, Identified(l, e, newId))
  {
    var id, started := Identified(l, e, newId), WithTrade(l, e, newId);
    WithTradeOnlyAdds(l, e, newId);
    var events := Record(l, e, newId).ledger.events;
    if id.Some? && id.value in started.trades {
      AppliedOnlyAdds(started, id.value, e);
      OnlyAddsComposes(l, started, Applied(started, id.value, e).value, e, id);
      EventsAside(l, Applied(started, id.value, e).value, e, id, events);
    } else {
      EventsAside(l, started, e, id, events);
    }
  }

  lemma EventsAside(l: Ledger, m: Ledger, e: Event, id: Option<TradeId>, events: map<EventKey, EventRow>)
    requires OnlyAdds(l, m, e, id)
    ensures OnlyAdds(l, m.(events := events), e, id)
  {
  }

  // ---- claim, update, finish ----

  predicate Claimable(l: Ledger, id: TradeId, action: string) {
    && id in l.trades && l.trades[id].state !in {Uncertain, Dispatching, Resolved}
    && (action == "CREATE" ==> l.trades[id].orderId == "" && l.trades[id].positionId == "")
    && AttemptKey(id, action) !in l.attempts
  }

  /** The attempt is on record before any broker call; None when it may not be made. */
  function Claim(l: Ledger, id: TradeId, action: string, account: string, request: Request): Option<Ledger> {
    if !Claimable(l, id, action) then None
    else
      var key := AttemptKey(id, action);
      Some(l.(attempts := l.attempts[key := InFlight],
              trades := l.trades[id := l.trades[id].(state := Dispatching)],
              history := l.history[key := HistoryRow(account, request, InFlight, "", "")]))
  }

  datatype Change = Change(
    destination: Option<string>, orderId: Option<string>, positionId: Option<string>, state: Option<TradeState>,
    lots: Option<Option<Decimal>>, symbol: Option<string>, side: Option<string>, orderType: Option<string>,
    lastRequest: Option<string>, lastEventAt: Option<int>)

  const NO_CHANGE := Change(None, None, None, None, None, None, None, None, None, None)

  function Or<T>(o: Option<T>, d: T): T {
    if o.Some? then o.value else d
  }

  function Changed(t: Trade, c: Change): Trade {
    t.(destination := Or(c.destination, t.destination), orderId := Or(c.orderId, t.orderId),
       positionId := Or(c.positionId, t.positionId), state := Or(c.state, t.state), lots := Or(c.lots, t.lots),
       symbol := Or(c.symbol, t.symbol), side := Or(c.side, t.side), orderType := Or(c.orderType, t.orderType),
       lastRequest := Or(c.lastRequest, t.lastRequest),
       lastEventAt := if c.lastEventAt.Some? then c.lastEventAt else t.lastEventAt)
  }

  function Update(l: Ledger, id: TradeId, c: Change): Ledger {
    if id !in l.trades then l
    else
      var t := Changed(l.trades[id], c);
      var changed := l.(trades := l.trades[id := t]);
      if t.destination == "" then changed
      else
        var scope := DestinationScope(l, t.destination);
        WithLink(WithLink(changed, Link(id, Destination, scope, OrderLink, t.orderId)),
                 Link(id, Destination, scope, PositionLink, t.positionId))
  }

  /** An update changes one row, and otherwise only adds links. */
  lemma UpdateOnlyRow(l: Ledger, id: TradeId, c: Change)
    ensures var m := Update(l, id, c);
            && m == l.(trades := m.trades, evidence := l.evidence.(links := Links(m)))
            && m.trades == (if id in l.trades then l.trades[id := Changed(l.trades[id], c)] else l.trades)
            && Links(l) <= Links(m)
  {
  }

  function FinishedRow(h: HistoryRow, t: Trade, outcome: AttemptState): HistoryRow {
    h.(outcome := outcome, orderId := t.orderId, positionId := t.positionId)
  }

  /** The attempt's outcome, with the broker ids its trade has by then; there is no attempt of an unknown trade. */
  function Finish(l: Ledger, id: TradeId, action: string, outcome: AttemptState): Ledger {
    var key := AttemptKey(id, action);
    if id !in l.trades then l
    else l.(attempts := if key in l.attempts then l.attempts[key := outcome] else l.attempts,
            history := if key in l.history then l.history[key := FinishedRow(l.history[key], l.trades[id], outcome)]
                       else l.history)
  }

  /** Opening the journal again: whatever was in flight when the process stopped is uncertain. */
  function Recover(l: Ledger): Ledger {
    l.(trades := map id | id in l.trades ::
                   if l.trades[id].state == Dispatching then l.trades[id].(state := Uncertain) else l.trades[id],
       attempts := map k | k in l.attempts :: if l.attempts[k] == InFlight then Unverified else l.attempts[k],
       history := map k | k in l.history ::
                    if l.history[k].outcome == InFlight then l.history[k].(outcome := Unverified) else l.history[k])
  }

  // ---- read-backs ----

  function PositionLinked(l: Ledger, id: TradeId, account: string, positions: seq<Position>): set<Link> {
    if positions == [] then Links(l)
    else
      var n := |positions| - 1;
      Linked(PositionLinked(l, id, account, positions[..n]),
             Link(id, Destination, DestinationScope(l, account), PositionLink, positions[n].id))
  }

  function ObservePositions(l: Ledger, id: TradeId, account: string, positions: seq<Position>, at: int): Ledger {
    l.(evidence := l.evidence.(links := PositionLinked(l, id, account, positions)),
       rows := O.PositionsObserved(l.rows, id, DestinationScope(l, account), positions, at))
  }

  function ObserveClosed(l: Ledger, id: TradeId, account: string, closed: seq<ClosedTrade>, at: int): Ledger {
    l.(rows := O.ClosedObserved(l.rows, id, DestinationScope(l, account), closed, at))
  }

  lemma {:induction false} PositionLinkedAdds(l: Ledger, id: TradeId, account: string, positions: seq<Position>)
    ensures Links(l) <= PositionLinked(l, id, account, positions)
    ensures forall p :: p in positions && p.id != "" ==>
              Link(id, Destination, DestinationScope(l, account), PositionLink, p.id)
              in PositionLinked(l, id, account, positions)
  {
    if positions != [] {
      var n := |positions| - 1;
      PositionLinkedAdds(l, id, account, positions[..n]);
      assert positions == positions[..n] + [positions[n]];
    }
  }

  // ---- redelivery ----

  /** An event on record is answered from it, and a reuse of its id for other data is refused. */
  lemma AnsweredFromRecord(l: Ledger, e: Event, row: EventRow, again: Event, newId: TradeId)
    requires EventKey(e.machine, e.eventId) in l.events && l.events[EventKey(e.machine, e.eventId)] == row
    requires row.event == e && EventKey(again.machine, again.eventId) == EventKey(e.machine, e.eventId)
    ensures Record(l, again, newId) == if again == e then Duplicate(row) else Conflict
  {
    hide WithTrade;
    hide Applied;
    hide Identified;
  }
}
