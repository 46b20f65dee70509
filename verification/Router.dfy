/** router.py, _dispatch: from an accepted source event to at most one broker write. */
module Router {
  import opened Wrappers
  import opened Decimals
  import opened Events
  import opened Identity
  import opened Prices
  import opened Journal
  import opened Attempts

  datatype SymbolRoute = SymbolRoute(destination: string, multiplier: Decimal, maxLots: Decimal)
  datatype Route = Route(scope: Scope, account: string, sources: set<string>, symbols: map<string, SymbolRoute>)

  /** The router's own settings, and whether a broker connection was handed in. */
  datatype Settings = Settings(armed: bool, armedAt: Option<int>, route: Option<Route>, verified: bool, connected: bool)

  /** What the broker returned to the preflight reads; None stands for a read that failed. */
  datatype View = View(instruments: Option<seq<Instrument>>, orders: Option<seq<Order>>,
                       positions: Option<seq<Position>>, at: int)

  const SECOND := 1_000_000

  /** Everything settled before the broker's orders and positions are looked at. */
  datatype Terms = Terms(event: Event, lots: Decimal, symbol: string)

  function Product(a: Decimal, b: Decimal): Decimal {
    Rounded(Decimal(a.negative != b.negative, a.coefficient * b.coefficient, a.exponent + b.exponent))
  }

  function Matched(route: Route, scope: Scope, source: string, symbol: string): Result<SymbolRoute> {
    if scope != route.scope then Refused("Source connection/account does not match configured route")
    else if source !in route.sources then Refused("Source attribution is not enabled for this route")
    else if symbol !in route.symbols then Refused("No explicit symbol/quantity mapping")
    else Ok(route.symbols[symbol])
  }

  /** What the row and the shape of the event stand against. */
  function RowRefusal(t: Trade, e: Event, account: string): Option<string> {
    if t.lastEventAt.Some? && e.emittedAt < t.lastEventAt.value
    then Some("Out-of-order action predates the latest dispatched action")
    else if t.state in {Dispatching, Uncertain, Resolved}
    then Some("Trade is resolved or needs reconciliation; no automatic retry")
    else if t.destination != "" && t.destination != account then Some("Trade already belongs to another destination")
    else if e.action == Create && (t.orderId != "" || t.positionId != "")
    then Some("Trade already has a destination order")
    else if e.action != Create && t.orderId == "" && t.positionId == ""
    then Some("No confirmed destination mapping for this source trade")
    else if !e.bracketsAbsolute then Some("Offset brackets require an explicit absolute-price conversion")
    else if e.orderType !in {"MARKET", "LIMIT", "STOP"}
    then Some("Unsupported order type; stop-limit is not silently converted")
    else if e.side !in {"BUY", "SELL"} then Some("Missing side")
    else None
  }

  /** The converted quantity, and for all but a cancel the checked prices. */
  function Sized(mapping: SymbolRoute, e: Event, view: View): Result<Terms> {
    var lots, symbol := Product(e.quantity, mapping.multiplier), mapping.destination;
    if e.action !in {Create, Edit, Close} then Ok(Terms(e, lots, symbol))
    else if Value(lots) <= 0.0 || Value(lots) > Value(mapping.maxLots)
    then Refused("Converted quantity is outside route limit")
    else if view.instruments.None? then Refused("Preflight read failed; no broker write attempted")
    else
      var checked := Validated(view.instruments.value, symbol, lots, e);
      if checked.Refused? then Refused(checked.reason) else Ok(Terms(checked.value, lots, symbol))
  }

  function Preflight(s: Settings, l: Ledger, id: Option<TradeId>, e: Event, account: string, now: int, view: View)
    : Result<Terms>
  {
    if !s.armed || s.route.None? || !s.verified || !s.connected
    then Refused("Copying is not armed with a verified demo destination")
    else if account != s.route.value.account then Refused("Selected destination does not match route")
    else if e.snapshot || !(-5 * SECOND <= now - e.emittedAt <= 30 * SECOND)
    then Refused("Snapshot or expired event; never replay old trades")
    else if s.armedAt.Some? && e.emittedAt < s.armedAt.value
    then Refused("Event predates enabling copying; never replay the off period")
    else if id.None? || id.value !in l.trades || e.requestId == "" then Refused("Missing source trade/request identity")
    else
      var t := l.trades[id.value];
      var source := if e.action != Create then t.source else e.source;
      var mapping := Matched(s.route.value, e.Scope(), source, e.symbol);
      if mapping.Refused? then Refused(mapping.reason)
      else
        var refusal := RowRefusal(t, e, account);
        if refusal.Some? then Refused(refusal.value) else Sized(mapping.value, e, view)
  }

  /** The orders read, last listing of an id winning. */
  function Listed(orders: seq<Order>, id: string): Option<Order> {
    if orders == [] then None
    else if orders[|orders| - 1].id == id then Some(orders[|orders| - 1])
    else Listed(orders[..|orders| - 1], id)
  }

  /** The ledger after an edit, cancel or close has read the broker: every related position is linked,
      and noted on the row when it is the only one. */
  function AfterReads(l: Ledger, id: TradeId, account: string, view: View): Ledger
    requires id in l.trades && view.positions.Some?
  {
    var related := Related(l.trades[id], view.positions.value);
    var linked := ObservePositions(l, id, account, related, view.at);
    if |related| == 1 then Update(linked, id, NO_CHANGE.(positionId := Some(related[0].id))) else linked
  }

  function CreateRequest(terms: Terms): Request {
    var e := terms.event;
    if e.orderType == "MARKET"
    then Request(OpenPosition, terms.symbol, e.side, "", "", Some(terms.lots), None, Some(e.sl), Some(e.tp))
    else Request(CreatePending, terms.symbol, e.side, "", e.orderType, Some(terms.lots), Some(e.price), Some(e.sl),
                 Some(e.tp))
  }

  /** Which write an edit, cancel or close becomes; l is the ledger after the reads, t the row before them. */
  function LifecycleRequest(l: Ledger, id: TradeId, t: Trade, terms: Terms, orders: seq<Order>, related: seq<Position>)
    : Result<Request>
  {
    var e := terms.event;
    var resting := Listed(orders, t.orderId);
    if e.action == Cancel then
      if resting.None? then Refused("Mapped pending order is absent; reconcile fill/cancel before acting")
      else Ok(Request(CancelPending, terms.symbol, e.side, t.orderId, resting.value.orderType, None, None, None, None))
    else if e.action == Edit && resting.Some? && e.orderId != "" then
      Ok(Request(EditPending, terms.symbol, e.side, t.orderId, resting.value.orderType, Some(terms.lots), Some(e.price),
                 Some(e.sl), Some(e.tp)))
    else if |related| != 1 then Refused("No unambiguous open-position mapping; manual reconciliation required")
    else if !Unshared(Links(l), id) then Refused("Split or merged position requires an explicit action allocation")
    else
      var p := related[0];
      if e.action == Close then
        if Value(terms.lots) > Value(p.volume) then Refused("Close exceeds mapped destination position")
        else Ok(Request(if Value(terms.lots) == Value(p.volume) then ClosePosition else PartialClose,
                        terms.symbol, e.side, p.id, "", Some(terms.lots), None, None, None))
      else if Value(terms.lots) != Value(p.volume) then Refused("Position edit cannot change volume; use partial close")
      else Ok(Request(EditPosition, terms.symbol, e.side, p.id, "", Some(terms.lots), None, Some(e.sl), Some(e.tp)))
  }

  function ActionKey(e: Event): string {
    match e.action
    case Create => "CREATE"
    case Edit => "EDIT:" + e.requestId
    case Cancel => "CANCEL:" + e.requestId
    case Close => "CLOSE:" + e.requestId
    case Observe => "OBSERVE:" + e.requestId
  }

  /** The row change committed before the call. */
  function BeforeCall(terms: Terms, account: string, t: Trade): Change {
    var e := terms.event;
    Change(Some(account), None, None, None, Some(if e.action in {Create, Edit} then Some(terms.lots) else t.lots),
           Some(terms.symbol), Some(e.side), Some(e.orderType), Some(e.requestId), Some(e.emittedAt))
  }

  function Text(o: Option<string>): string {
    Or(o, "")
  }

  /** What the broker's answer establishes; l is the ledger the call was made from. */
  function Established(l: Ledger, id: TradeId, t: Trade, terms: Terms, orders: seq<Order>, related: seq<Position>,
                       answer: Answer)
    : Reply
  {
    var e := terms.event;
    if !answer.Answered? || Text(answer.status) !in {"", "OK"}
       || (e.action in {Cancel, Close} && Text(answer.status) != "OK") then Unconfirmed
    else
      var usual := NO_CHANGE.(state := Some(if e.orderType != "MARKET" then Pending else Open));
      match e.action
      case Create =>
        if Text(answer.orderId) == "" && Text(answer.positionId) == "" then Unconfirmed
        else Confirmed(usual.(orderId := Some(Text(answer.orderId)),
                              positionId := if Text(answer.positionId) != "" then answer.positionId else None))
      case Cancel =>
        var exposed := related != [] || PositionLinks(Links(l), id, Destination) != {};
        Confirmed(NO_CHANGE.(state := Some(if exposed then Open else Resolved)))
      case Close =>
        var whole := related != [] && Value(terms.lots) == Value(related[0].volume);
        var rests := Listed(orders, t.orderId).Some?;
        var state := if whole && !rests then Resolved else if rests && whole then Pending else Open;
        Confirmed(NO_CHANGE.(state := Some(state)))
      case _ => Confirmed(usual)
  }

  datatype Dispatch = Dispatch(ledger: Ledger, outcome: Outcome, sent: seq<Request>)

  /** Everything chosen before the attempt is claimed: the ledger as the reads left it, and the plan. */
  datatype Chosen = Chosen(ledger: Ledger, plan: Result<Plan>)

  function Choice(l: Ledger, id: TradeId, terms: Terms, account: string, view: View): Chosen
    requires id in l.trades
  {
    var t, e := l.trades[id], terms.event;
    if e.action == Create then
      Chosen(l, Ok(Plan(ActionKey(e), CreateRequest(terms), account, BeforeCall(terms, account, t))))
    else if t.symbol != terms.symbol || t.side != e.side then
      Chosen(l, Refused("Source edit does not match mapped instrument/side"))
    else if view.orders.None? || view.positions.None? then
      Chosen(l, Refused("Preflight read failed; no broker write attempted"))
    else
      var after := AfterReads(l, id, account, view);
      var request := LifecycleRequest(after, id, t, terms, view.orders.value, Related(t, view.positions.value));
      Chosen(after, if request.Refused? then Refused(request.reason)
                    else Ok(Plan(ActionKey(e), request.value, account, BeforeCall(terms, account, t))))
  }

  function ReplyTo(l: Ledger, id: TradeId, t: Trade, terms: Terms, plan: Plan, view: View, answer: Answer): Reply {
    match Prepared(l, id, plan)
    case None => Unconfirmed
    case Some(prepared) =>
      Established(prepared, id, t, terms, Or(view.orders, []), Related(t, Or(view.positions, [])), answer)
  }

  /** The attempt that follows a choice. */
  function Attempted(l: Ledger, id: TradeId, terms: Terms, chosen: Chosen, view: View, answer: Answer): Dispatch
    requires id in l.trades
  {
    if chosen.plan.Refused? then Dispatch(chosen.ledger, HeldBack(chosen.plan.reason), [])
    else
      var reply := ReplyTo(chosen.ledger, id, l.trades[id], terms, chosen.plan.value, view, answer);
      var done := Performs(chosen.ledger, id, chosen.plan.value, reply);
      Dispatch(done.ledger, done.outcome, done.sent)
  }

  /** One whole dispatch with nothing in between. */
  function Dispatched(s: Settings, l: Ledger, id: Option<TradeId>, e: Event, account: string, now: int, view: View,
                      answer: Answer)
    : Dispatch
  {
    var terms := Preflight(s, l, id, e, account, now, view);
    if terms.Refused? then Dispatch(l, HeldBack(terms.reason), [])
    else Attempted(l, id.value, terms.value, Choice(l, id.value, terms.value, account, view), view, answer)
  }

  /** receive: an event is dispatched only the first time it is recorded. */
  function Received(s: Settings, l: Ledger, e: Event, newId: TradeId, account: string, now: int, view: View,
                    answer: Answer)
    : Dispatch
  {
    match Record(l, e, newId)
    case Conflict => Dispatch(l, HeldBack("Event ID reused with different data"), [])
    case Duplicate(_) => Dispatch(l, HeldBack("Recovered prior attempt; no replay"), [])
    case Recorded(recorded, row) =>
      if e.kind == Accepted && e.action != Observe
      then Dispatched(s, recorded, row.trade, e, account, now, view, answer)
      else Dispatch(recorded, HeldBack("Native observation; no broker action"), [])
  }

  // ---- what a dispatch may conclude ----

  /** The broker's orders and positions once the confirmed write has taken effect. */
  function OrdersLeft(orders: seq<Order>, r: Request): set<string> {
    (set o | o in orders :: o.id) - (if r.call == CancelPending then {r.target} else {})
  }

  function PositionsLeft(t: Trade, positions: seq<Position>, r: Request): set<Position> {
    set p | p in positions && IsRelated(t, p) && !(r.call == ClosePosition && p.id == r.target)
  }

  /** No pending order and no related position of the trade is left. */
  predicate NothingRemains(t: Trade, orders: seq<Order>, positions: seq<Position>, r: Request) {
    t.orderId !in OrdersLeft(orders, r) && PositionsLeft(t, positions, r) == {}
  }

  lemma {:induction false} ListedIff(orders: seq<Order>, id: string)
    ensures Listed(orders, id).Some? <==> exists o :: o in orders && o.id == id
  {
    if orders != [] {
      var n := |orders| - 1;
      ListedIff(orders[..n], id);
      assert orders == orders[..n] + [orders[n]];
    }
  }

  lemma CancelLeavesNothing(t: Trade, orders: seq<Order>, positions: seq<Position>, r: Request)
    requires r.call == CancelPending && r.target == t.orderId
    ensures NothingRemains(t, orders, positions, r) <==> Related(t, positions) == []
  {
    RelatedAre(t, positions);
    var related := Related(t, positions);
    if related != [] {
      assert related[0] in related;
      assert related[0] in PositionsLeft(t, positions, r);
    }
  }

  lemma CloseLeavesNothing(t: Trade, orders: seq<Order>, positions: seq<Position>, r: Request)
    requires |Related(t, positions)| == 1 && r.call in {ClosePosition, PartialClose}
    requires r.target == Related(t, positions)[0].id
    ensures NothingRemains(t, orders, positions, r) <==> r.call == ClosePosition && Listed(orders, t.orderId).None?
  {
    RelatedAre(t, positions);
    ListedIff(orders, t.orderId);
    var related := Related(t, positions);
    assert forall p :: p in related ==> p == related[0];
    assert related[0] in related;
    if r.call == PartialClose {
      assert related[0] in PositionsLeft(t, positions, r);
    }
  }

  lemma {:induction false} ListedIs(orders: seq<Order>, id: string)
    requires Listed(orders, id).Some?
    ensures Listed(orders, id).value in orders && Listed(orders, id).value.id == id
  {
    var n := |orders| - 1;
    if orders[n].id != id {
      ListedIs(orders[..n], id);
    }
  }

  /** A write to the trade's own pending order, as the broker lists it. */
  ghost predicate OnOwnOrder(t: Trade, orders: seq<Order>, r: Request) {
    r.target == t.orderId && exists o :: o in orders && o.id == t.orderId && o.orderType == r.orderType
  }

  /** A write to the one position that is the trade's own, and no other trade's. */
  ghost predicate OnOwnPosition(id: TradeId, t: Trade, links: set<Link>, p: Position, positions: seq<Position>,
                                r: Request)
  {
    && p in positions && IsRelated(t, p) && (forall q :: q in positions && IsRelated(t, q) ==> q == p)
    && r.target == p.id && Unshared(links, id) && r.volume.Some?
    && Value(r.volume.value) <= Value(p.volume)
    && (r.call in {ClosePosition, EditPosition} <==> Value(r.volume.value) == Value(p.volume))
  }

  /** Which write an action becomes, and what it carries. */
  predicate Carries(terms: Terms, r: Request) {
    var e := terms.event;
    && (e.action == Cancel <==> r.call == CancelPending)
    && (e.action == Close <==> r.call in {ClosePosition, PartialClose})
    && (e.action == Edit ==> r.volume == Some(terms.lots) && r.sl == Some(e.sl) && r.tp == Some(e.tp)
                             && r.price == if r.call == EditPending then Some(e.price) else None)
  }

  ghost predicate OnOwn(id: TradeId, t: Trade, links: set<Link>, orders: seq<Order>, positions: seq<Position>,
                        r: Request)
  {
    if r.call in {CancelPending, EditPending} then OnOwnOrder(t, orders, r)
    else exists p :: OnOwnPosition(id, t, links, p, positions, r)
  }

  lemma SoleRelated(t: Trade, positions: seq<Position>)
    requires |Related(t, positions)| == 1
    ensures var p := Related(t, positions)[0];
            p in positions && IsRelated(t, p) && forall q :: q in positions && IsRelated(t, q) ==> q == p
  {
    RelatedAre(t, positions);
    hide IsRelated;
    var related := Related(t, positions);
    assert related[0] in related && forall q :: q in related ==> q == related[0];
    hide Related;
  }

  lemma RequestCarries(m: Ledger, id: TradeId, t: Trade, terms: Terms, orders: seq<Order>, related: seq<Position>)
    requires terms.event.action in {Edit, Cancel, Close} && LifecycleRequest(m, id, t, terms, orders, related).Ok?
    ensures Carries(terms, LifecycleRequest(m, id, t, terms, orders, related).value)
  {
    hide Unshared;
    hide Listed;
  }

  lemma RequestStaysOwn(m: Ledger, id: TradeId, t: Trade, terms: Terms, orders: seq<Order>, positions: seq<Position>)
    requires terms.event.action in {Edit, Cancel, Close}
    requires LifecycleRequest(m, id, t, terms, orders, Related(t, positions)).Ok?
    ensures OnOwn(id, t, Links(m), orders, positions,
                  LifecycleRequest(m, id, t, terms, orders, Related(t, positions)).value)
  {
    hide Unshared;
    hide IsRelated;
    hide Listed;
    hide Related;
    var r := LifecycleRequest(m, id, t, terms, orders, Related(t, positions)).value;
    if r.call in {CancelPending, EditPending} {
      ListedIs(orders, t.orderId);
    } else {
      SoleRelated(t, positions);
      assert OnOwnPosition(id, t, Links(m), Related(t, positions)[0], positions, r);
      hide OnOwnPosition;
    }
  }

  /** A planned edit, cancel or close is the request that the reads allow, for the trade's own instrument and side. */
  lemma ChosenRequest(l: Ledger, id: TradeId, terms: Terms, account: string, view: View)
    requires id in l.trades && terms.event.action != Create && Choice(l, id, terms, account, view).plan.Ok?
    ensures view.orders.Some? && view.positions.Some?
    ensures var (t, m, plan) :=
        (l.trades[id], AfterReads(l, id, account, view), Choice(l, id, terms, account, view).plan.value);
            && Choice(l, id, terms, account, view).ledger == m
            && t.symbol == terms.symbol && t.side == terms.event.side
            && LifecycleRequest(m, id, t, terms, view.orders.value, Related(t, view.positions.value))
                  == Ok(plan.request)
            && plan == Plan(ActionKey(terms.event), plan.request, account, BeforeCall(terms, account, t))
  {
    hide AfterReads;
    hide LifecycleRequest;
    hide BeforeCall;
    hide ActionKey;
  }

  lemma RequestNames(m: Ledger, id: TradeId, t: Trade, terms: Terms, orders: seq<Order>, related: seq<Position>)
    requires LifecycleRequest(m, id, t, terms, orders, related).Ok?
    ensures var r := LifecycleRequest(m, id, t, terms, orders, related).value;
            r.instrument == terms.symbol && r.side == terms.event.side
  {
    hide Listed;
    hide Unshared;
  }

  /** An edit, cancel or close is about the trade's own instrument and side, and touches only its own
      pending order or its own sole position; an edit carries the checked prices where they belong, and a
      close takes no more than there is. */
  lemma LifecycleStaysOwn(l: Ledger, id: TradeId, terms: Terms, account: string, view: View)
    requires id in l.trades && terms.event.action in {Edit, Cancel, Close}
    requires Choice(l, id, terms, account, view).plan.Ok?
    ensures view.orders.Some? && view.positions.Some?
    ensures var (t, e) := (l.trades[id], terms.event);
            var (m, r) := (Choice(l, id, terms, account, view).ledger,
                           Choice(l, id, terms, account, view).plan.value.request);
            && r.instrument == t.symbol && r.side == t.side
            && (if r.call in {CancelPending, EditPending} then OnOwnOrder(t, view.orders.value, r)
                else exists p :: OnOwnPosition(id, t, Links(m), p, view.positions.value, r))
            && (e.action == Cancel <==> r.call == CancelPending)
            && (e.action == Close <==> r.call in {ClosePosition, PartialClose})
            && (e.action == Edit ==> r.volume == Some(terms.lots) && r.sl == Some(e.sl) && r.tp == Some(e.tp)
                                     && r.price == if r.call == EditPending then Some(e.price) else None)
  {
    ChosenRequest(l, id, terms, account, view);
    hide Choice;
    hide AfterReads;
    hide LifecycleRequest;
    hide OnOwnOrder;
    hide OnOwnPosition;
    var t, m := l.trades[id], AfterReads(l, id, account, view);
    RequestNames(m, id, t, terms, view.orders.value, Related(t, view.positions.value));
    RequestCarries(m, id, t, terms, view.orders.value, Related(t, view.positions.value));
    RequestStaysOwn(m, id, t, terms, view.orders.value, view.positions.value);
  }

  /** The plan of a cancel or close, as it follows from the reads. */
  lemma LifecyclePlan(l: Ledger, id: TradeId, terms: Terms, account: string, view: View)
    requires id in l.trades && terms.event.action in {Cancel, Close} && Choice(l, id, terms, account, view).plan.Ok?
    ensures view.orders.Some? && view.positions.Some?
    ensures var (t, r) := (l.trades[id], Choice(l, id, terms, account, view).plan.value.request);
            var related := Related(t, view.positions.value);
            if terms.event.action == Cancel then r.call == CancelPending && r.target == t.orderId
            else |related| == 1 && r.target == related[0].id
                 && r.call == if Value(terms.lots) == Value(related[0].volume) then ClosePosition else PartialClose
  {
    hide Unshared;
    hide Listed;
    hide Related;
    ChosenRequest(l, id, terms, account, view);
    hide Choice;
    hide AfterReads;
    hide BeforeCall;
    hide ActionKey;
  }

  /** A confirmed cancel or close resolves the trade exactly when, relative to what was read and the write
      confirmed, nothing of the trade is left (and, for a cancel, no position was ever linked to it). */
  lemma EstablishedResolves(l: Ledger, id: TradeId, terms: Terms, account: string, view: View, prepared: Ledger,
                            answer: Answer)
    requires id in l.trades && terms.event.action in {Cancel, Close} && Choice(l, id, terms, account, view).plan.Ok?
    requires view.orders.Some? && view.positions.Some?
    requires Established(prepared, id, l.trades[id], terms, view.orders.value,
                         Related(l.trades[id], view.positions.value), answer).Confirmed?
    ensures var (t, r) := (l.trades[id], Choice(l, id, terms, account, view).plan.value.request);
            var change := Established(prepared, id, t, terms, view.orders.value, Related(t, view.positions.value),
                                      answer).change;
            && change.state.Some? && change.state.value in {Pending, Open, Resolved}
            && (change.state.value == Resolved <==>
                  && NothingRemains(t, view.orders.value, view.positions.value, r)
                  && (terms.event.action == Cancel ==> PositionLinks(Links(prepared), id, Destination) == {}))
  {
    var t, r := l.trades[id], Choice(l, id, terms, account, view).plan.value.request;
    LifecyclePlan(l, id, terms, account, view);
    if terms.event.action == Cancel {
      CancelLeavesNothing(t, view.orders.value, view.positions.value, r);
    } else {
      CloseLeavesNothing(t, view.orders.value, view.positions.value, r);
    }
  }

  lemma PreflightKeepsAction(s: Settings, l: Ledger, id: Option<TradeId>, e: Event, account: string, now: int,
                             view: View)
    requires Preflight(s, l, id, e, account, now, view).Ok?
    ensures var sent := Preflight(s, l, id, e, account, now, view).value.event;
            && id.Some? && id.value in l.trades && l.trades[id.value].state !in {Dispatching, Uncertain, Resolved}
            && (e.action != Create ==> l.trades[id.value].orderId != "" || l.trades[id.value].positionId != "")
            && sent == e.(price := sent.price, sl := sent.sl, tp := sent.tp)
  {
    hide Matched;
    hide Sized;
    var source := if e.action != Create then l.trades[id.value].source else e.source;
    SizedTerms(Matched(s.route.value, e.Scope(), source, e.symbol).value, e, view);
  }

  /** Sizing an event checks the prices of all but a cancel, and changes nothing but its prices. */
  lemma SizedTerms(mapping: SymbolRoute, e: Event, view: View)
    requires Sized(mapping, e, view).Ok?
    ensures var terms := Sized(mapping, e, view).value;
            && terms.event == e.(price := terms.event.price, sl := terms.event.sl, tp := terms.event.tp)
            && (e.action in {Create, Edit, Close} ==>
                  view.instruments.Some? && IsAcceptable(view.instruments.value, terms, e))
  {
    hide Product;
    hide Validated;
    if e.action in {Create, Edit, Close} {
      ValidatedTerms(view.instruments.value, mapping.destination, Product(e.quantity, mapping.multiplier), e);
      hide Acceptable;
    }
  }

  /** Some listed instrument of the symbol accepts the lots and prices. */
  ghost predicate IsAcceptable(instruments: seq<Instrument>, terms: Terms, e: Event) {
    exists info :: info in instruments && info.symbol == terms.symbol && Acceptable(info, terms.lots, e, terms.event)
  }

  /** What the reads leave alone. */
  ghost predicate OnlyLinks(l: Ledger, m: Ledger) {
    && m.attempts == l.attempts && m.events == l.events && m.trades.Keys == l.trades.Keys && Links(l) <= Links(m)
    && forall t :: t in l.trades ==> m.trades[t].state == l.trades[t].state
  }

  lemma AfterReadsOnlyLinks(l: Ledger, id: TradeId, account: string, view: View)
    requires id in l.trades && view.positions.Some?
    ensures OnlyLinks(l, AfterReads(l, id, account, view))
  {
    hide Related;
    var related := Related(l.trades[id], view.positions.value);
    PositionLinkedAdds(l, id, account, related);
    var linked := ObservePositions(l, id, account, related, view.at);
    hide ObservePositions;
    if |related| == 1 {
      UpdateOnlyRow(linked, id, NO_CHANGE.(positionId := Some(related[0].id)));
      hide Update;
    }
  }

  lemma ChoiceOnlyLinks(l: Ledger, id: TradeId, terms: Terms, account: string, view: View)
    requires id in l.trades
    ensures OnlyLinks(l, Choice(l, id, terms, account, view).ledger)
    ensures var p := Choice(l, id, terms, account, view).plan; p.Ok? ==> p.value.before.state.None?
  {
    hide AfterReads;
    hide LifecycleRequest;
    hide CreateRequest;
    hide ActionKey;
    if view.positions.Some? {
      AfterReadsOnlyLinks(l, id, account, view);
      hide OnlyLinks;
    }
  }

  lemma EstablishedOutcome(l: Ledger, id: TradeId, t: Trade, terms: Terms, orders: seq<Order>, related: seq<Position>,
                           answer: Answer)
    ensures var reply := Established(l, id, t, terms, orders, related, answer);
            && !reply.NotSent?
            && (reply.Confirmed? ==>
                  && answer.Answered? && reply.change.state.Some?
                  && reply.change.state.value in {Pending, Open, Resolved}
                  && (reply.change.state.value == Resolved ==> terms.event.action in {Cancel, Close})
                  && reply.change.lots.None?
                  && (terms.event.action != Create ==> reply.change.orderId.None? && reply.change.positionId.None?))
  {
  }

  /** How a dispatch ends, given its terms. */
  ghost predicate Ends(l: Ledger, id: TradeId, d: Dispatch, answer: Answer)
    requires id in l.trades
  {
    && id in d.ledger.trades
    && match d.outcome
       case HeldBack(_) =>
         d.sent == [] && d.ledger.attempts == l.attempts && d.ledger.trades[id].state == l.trades[id].state
       case NotVerified => |d.sent| == 1 && d.ledger.trades[id].state == Uncertain
       case AcceptedByBroker =>
         |d.sent| == 1 && answer.Answered? && d.ledger.trades[id].state in {Pending, Open, Resolved}
  }

  /** A cancel or close resolves the trade when and only when nothing of it is left at the broker. */
  ghost predicate ResolvesSoundly(l: Ledger, id: TradeId, e: Event, view: View, d: Dispatch, linked: set<Link>)
    requires id in l.trades && id in d.ledger.trades && d.sent != []
  {
    d.ledger.trades[id].state == Resolved <==>
      && e.action in {Cancel, Close} && view.orders.Some? && view.positions.Some?
      && NothingRemains(l.trades[id], view.orders.value, view.positions.value, d.sent[0])
      && (e.action == Cancel ==> PositionLinks(linked, id, Destination) == {})
  }

  lemma AttemptedEnds(l: Ledger, id: TradeId, terms: Terms, account: string, view: View, answer: Answer)
    requires id in l.trades
    ensures Ends(l, id, Attempted(l, id, terms, Choice(l, id, terms, account, view), view, answer), answer)
  {
    hide Choice;
    hide Established;
    hide Performs;
    var chosen := Choice(l, id, terms, account, view);
    ChoiceOnlyLinks(l, id, terms, account, view);
    if chosen.plan.Ok? {
      var plan := chosen.plan.value;
      var reply := ReplyTo(chosen.ledger, id, l.trades[id], terms, plan, view, answer);
      ReplyOutcome(chosen.ledger, id, l.trades[id], terms, plan, view, answer);
      PerformedState(chosen.ledger, id, plan, reply);
    }
  }

  lemma ReplyOutcome(l: Ledger, id: TradeId, t: Trade, terms: Terms, plan: Plan, view: View, answer: Answer)
    ensures var reply := ReplyTo(l, id, t, terms, plan, view, answer);
            && !reply.NotSent?
            && (reply.Confirmed? ==>
                  && Prepared(l, id, plan).Some? && answer.Answered?
                  && reply.change.state.Some? && reply.change.state.value in {Pending, Open, Resolved}
                  && (reply.change.state.value == Resolved ==> terms.event.action in {Cancel, Close})
                  && reply.change.lots.None?
                  && (terms.event.action != Create ==> reply.change.orderId.None? && reply.change.positionId.None?))
  {
    hide Established;
    var prepared := Prepared(l, id, plan);
    if prepared.Some? {
      EstablishedOutcome(prepared.value, id, t, terms, Or(view.orders, []), Related(t, Or(view.positions, [])), answer);
    }
  }

  lemma AttemptedResolves(l: Ledger, id: TradeId, terms: Terms, account: string, view: View, answer: Answer)
    requires id in l.trades
    requires Attempted(l, id, terms, Choice(l, id, terms, account, view), view, answer).outcome == AcceptedByBroker
    ensures var d := Attempted(l, id, terms, Choice(l, id, terms, account, view), view, answer);
            && id in d.ledger.trades && d.sent != []
            && ResolvesSoundly(l, id, terms.event, view, d, ChosenLinks(id, Choice(l, id, terms, account, view)))
  {
    hide Choice;
    hide Established;
    hide Performs;
    hide NothingRemains;
    var chosen := Choice(l, id, terms, account, view);
    AttemptedEnds(l, id, terms, account, view, answer);
    ChoiceOnlyLinks(l, id, terms, account, view);
    var plan := chosen.plan.value;
    var reply := ReplyTo(chosen.ledger, id, l.trades[id], terms, plan, view, answer);
    ReplyOutcome(chosen.ledger, id, l.trades[id], terms, plan, view, answer);
    PerformedState(chosen.ledger, id, plan, reply);
    if terms.event.action in {Cancel, Close} {
      LifecyclePlan(l, id, terms, account, view);
      EstablishedResolves(l, id, terms, account, view, Prepared(chosen.ledger, id, plan).value, answer);
    }
  }

  /** The links on record when the broker is called. */
  function ChosenLinks(id: TradeId, chosen: Chosen): set<Link> {
    if chosen.plan.Refused? then Links(chosen.ledger)
    else
      var prepared := Prepared(chosen.ledger, id, chosen.plan.value);
      if prepared.None? then Links(chosen.ledger) else Links(prepared.value)
  }

  /** The router's promise. A dispatch makes at most one broker write; without one it claims nothing and
      moves no state; an answer that establishes nothing leaves the trade uncertain; and a confirmed
      write resolves it exactly when it is a cancel or close after which nothing of it is left. */
  lemma DispatchPromise(s: Settings, l: Ledger, id: TradeId, e: Event, account: string, now: int, view: View,
                        answer: Answer)
    requires id in l.trades
    ensures var d := Dispatched(s, l, Some(id), e, account, now, view, answer);
            && Ends(l, id, d, answer)
            && (d.outcome == AcceptedByBroker ==>
                  && Preflight(s, l, Some(id), e, account, now, view).Ok?
                  && ResolvesSoundly(l, id, e, view, d,
                       ChosenLinks(id, Choice(l, id, Preflight(s, l, Some(id), e, account, now, view).value, account,
                                              view))))
  {
    hide Preflight;
    hide Choice;
    hide Performs;
    hide ReplyTo;
    var checked := Preflight(s, l, Some(id), e, account, now, view);
    if checked.Ok? {
      PreflightKeepsAction(s, l, Some(id), e, account, now, view);
      AttemptedEnds(l, id, checked.value, account, view, answer);
      if Attempted(l, id, checked.value, Choice(l, id, checked.value, account, view), view, answer).outcome
        == AcceptedByBroker {
        AttemptedResolves(l, id, checked.value, account, view, answer);
      }
    }
  }

  /** Every order the router places is one its instrument accepts: lots within limits and on the step,
      prices on the grid, brackets beyond the entry. */
  lemma PlacedOrdersAreAcceptable(s: Settings, l: Ledger, id: TradeId, e: Event, account: string, now: int, view: View,
                                  answer: Answer)
    requires e.action == Create
    requires Dispatched(s, l, Some(id), e, account, now, view, answer).sent != []
    ensures var r := Dispatched(s, l, Some(id), e, account, now, view, answer).sent[0];
            && view.instruments.Some? && r.volume.Some? && r.sl.Some? && r.tp.Some?
            && (r.call == CreatePending ==> r.price.Some?)
            && exists info, sent ::
                 && info in view.instruments.value && info.symbol == r.instrument
                 && Acceptable(info, r.volume.value, e, sent)
                 && r.sl == Some(sent.sl) && r.tp == Some(sent.tp)
                 && (r.call == CreatePending ==> r.price == Some(sent.price))
  {
    hide Preflight;
    hide Performs;
    hide ReplyTo;
    var terms := Preflight(s, l, Some(id), e, account, now, view).value;
    CreateTerms(s, l, id, e, account, now, view);
    var plan := Choice(l, id, terms, account, view).plan.value;
    var reply := ReplyTo(l, id, l.trades[id], terms, plan, view, answer);
    ReplyOutcome(l, id, l.trades[id], terms, plan, view, answer);
    PerformedState(l, id, plan, reply);
  }

  lemma CreateTerms(s: Settings, l: Ledger, id: TradeId, e: Event, account: string, now: int, view: View)
    requires e.action == Create && Preflight(s, l, Some(id), e, account, now, view).Ok?
    ensures var terms := Preflight(s, l, Some(id), e, account, now, view).value;
            && id in l.trades && terms.event.action == Create && view.instruments.Some?
            && IsAcceptable(view.instruments.value, terms, e)
  {
    hide Matched;
    hide RowRefusal;
    hide Sized;
    SizedTerms(Matched(s.route.value, e.Scope(), e.source, e.symbol).value, e, view);
  }

  /** An event on record is not dispatched, whatever the broker and the settings are by then. */
  lemma RecordedIsNotDispatched(s: Settings, l: Ledger, e: Event, newId: TradeId, account: string, now: int, view: View,
                                answer: Answer)
    requires EventKey(e.machine, e.eventId) in l.events
    ensures var d := Received(s, l, e, newId, account, now, view, answer);
            d.sent == [] && d.ledger == l
  {
    hide Dispatched;
    hide WithTrade;
    hide Applied;
    hide Identified;
  }

  lemma DispatchKeepsEvents(s: Settings, l: Ledger, id: Option<TradeId>, e: Event, account: string, now: int,
                            view: View, answer: Answer)
    ensures Dispatched(s, l, id, e, account, now, view, answer).ledger.events == l.events
  {
    hide Choice;
    hide ReplyTo;
    hide Performs;
    var checked := Preflight(s, l, id, e, account, now, view);
    if checked.Ok? {
      var chosen := Choice(l, id.value, checked.value, account, view);
      ChoiceOnlyLinks(l, id.value, checked.value, account, view);
      if chosen.plan.Ok? {
        PerformsKeepsEvents(chosen.ledger, id.value, chosen.plan.value,
                            ReplyTo(chosen.ledger, id.value, l.trades[id.value], checked.value, chosen.plan.value, view,
                                    answer));
      }
    }
  }
}
