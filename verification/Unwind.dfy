/** unwind.py: the source ended a lifecycle, so the exposure sent for it is cancelled or closed at once. */
module Unwind {
  import opened Wrappers
  import opened Events
  import opened Identity
  import opened Journal
  import opened Attempts

  datatype Signal = Signal(cancel: bool, eventId: string, symbol: string, at: int)

  /** The broker session handed in: whose it is, and whether it lets writes through. */
  datatype Session = Session(account: string, writes: bool)

  datatype View = View(orders: Option<seq<Order>>, positions: Option<seq<Position>>, at: int)

  /** Who is asking, from which session, and the trade's latest accepted create if there is one. */
  datatype Context = Context(account: string, session: Option<Session>, verified: bool, candidate: Option<Event>,
                             view: View)

  /** The chosen write and the change its confirmation makes. */
  datatype Unwinding = Unwinding(plan: Plan, confirmed: Change)

  datatype Chosen = Chosen(ledger: Ledger, unwinding: Result<Unwinding>)

  function ActionKey(s: Signal): string {
    (if s.cancel then "CANCEL:signal:" else "CLOSE:signal:") + s.eventId
  }

  function WithId(orders: seq<Order>, id: string): seq<Order> {
    if orders == [] then [] else (if orders[0].id == id then [orders[0]] else []) + WithId(orders[1..], id)
  }

  /** Instrument, side and type of the create as it was sent, else of the row. */
  function StoredCopy(l: Ledger, id: TradeId, t: Trade): (string, string, string) {
    var key := AttemptKey(id, "CREATE");
    if key in l.history
    then (l.history[key].request.instrument, l.history[key].request.side, l.history[key].request.orderType)
    else (t.symbol, t.side, t.orderType)
  }

  function PlanOf(s: Signal, account: string, r: Request): Plan {
    Plan(ActionKey(s), r, account, NO_CHANGE.(lastRequest := Some(s.eventId), lastEventAt := Some(s.at)))
  }

  function ResolvedOr(linked: set<Link>, id: TradeId): Change {
    NO_CHANGE.(state := Some(if PositionLinks(linked, id, Destination) != {} then Open else Resolved))
  }

  function Cancelling(l: Ledger, id: TradeId, t: Trade, s: Signal, c: Context): Result<Unwinding> {
    if c.view.orders.None? then Refused("Preflight failed; no broker write was attempted")
    else
      var found := WithId(c.view.orders.value, t.orderId);
      if |found| != 1 then Refused("Linked order is no longer pending; no position is closed")
      else
        var o := found[0];
        if (o.symbol, o.side, o.orderType) != StoredCopy(l, id, t)
        then Refused("Broker order does not match the stored copy")
        else
          var cancel := Request(CancelPending, o.symbol, o.side, o.id, o.orderType, None, None, None, None);
          Ok(Unwinding(PlanOf(s, c.account, cancel), ResolvedOr(Links(l), id)))
  }

  function Closing(l: Ledger, id: TradeId, t: Trade, s: Signal, c: Context): Chosen
    requires id in l.trades
  {
    if !Unshared(Links(l), id)
    then Chosen(l, Refused("Split or merged position requires an explicit action allocation"))
    else if c.view.positions.None? then Chosen(l, Refused("Preflight failed; no broker write was attempted"))
    else
      var related := Related(t, c.view.positions.value);
      var linked := if related == [] then l else ObservePositions(l, id, c.account, related, c.view.at);
      if related != [] && !Unshared(Links(linked), id)
      then Chosen(linked, Refused("Split or merged position requires an explicit action allocation"))
      else if |related| > 1 then Chosen(linked, Refused("No unambiguous position to close"))
      else if |related| == 1 then
        var p := related[0];
        var noted := if t.positionId == "" then Update(linked, id, NO_CHANGE.(positionId := Some(p.id))) else linked;
        var close := Request(ClosePosition, p.symbol, p.side, p.id, "", Some(p.volume), None, None, None);
        Chosen(noted, Ok(Unwinding(PlanOf(s, c.account, close),
                                   NO_CHANGE.(state := Some(Resolved)))))
      else if t.orderId != "" then Chosen(linked, Cancelling(linked, id, t, s, c))
      else Chosen(linked, Refused("Broker returned no open position for the trade"))
  }

  function Choice(l: Ledger, id: TradeId, s: Signal, c: Context): Chosen
    requires id in l.trades
  {
    var t := l.trades[id];
    if c.candidate.Some? && s.symbol != "" && c.candidate.value.symbol != "" && c.candidate.value.symbol != s.symbol
    then Chosen(l, Refused("The signal names another instrument than the captured order"))
    else if t.orderId == "" && t.positionId == "" then Chosen(l, Refused("Lifecycle ended before anything was sent"))
    else if t.destination != c.account then Chosen(l, Refused("Trade was sent to another account"))
    else if t.state in {Uncertain, Dispatching}
    then Chosen(l, Refused("Reconcile the trade before any further broker action"))
    else if t.state == Resolved then Chosen(l, Refused("Trade was already resolved"))
    else if c.session.None? || !c.verified then Chosen(l, Refused("Account is not connected"))
    else if c.session.value.account != c.account
    then Chosen(l, Refused("The broker connection belongs to a different account"))
    else if !c.session.value.writes then Chosen(l, Refused("Broker writes are disabled"))
    else if s.cancel then
      if t.orderId == "" then Chosen(l, Refused("A cancel never closes a filled position"))
      else Chosen(l, Cancelling(l, id, t, s, c))
    else Closing(l, id, t, s, c)
  }

  function Established(t: Trade, u: Unwinding, answer: Answer): Reply {
    match answer
    case WritesDisabled => NotSent(t.state)
    case Failed => Unconfirmed
    case Answered(status, _, _) => if status == Some("OK") then Confirmed(u.confirmed) else Unconfirmed
  }

  /** apply, for the trades linked to the signal's lifecycle. */
  function Apply(l: Ledger, linked: seq<TradeId>, s: Signal, c: Context, answer: Answer): Performed {
    if |linked| != 1 || linked[0] !in l.trades
    then Performed(l, HeldBack("No one sent trade is linked to the lifecycle"), [])
    else
      var id := linked[0];
      var chosen := Choice(l, id, s, c);
      if chosen.unwinding.Refused? then Performed(chosen.ledger, HeldBack(chosen.unwinding.reason), [])
      else Performs(chosen.ledger, id, chosen.unwinding.value.plan,
                    Established(l.trades[id], chosen.unwinding.value, answer))
  }

  lemma {:induction false} WithIdAre(orders: seq<Order>, id: string)
    ensures forall o :: o in WithId(orders, id) <==> o in orders && o.id == id
  {
    if orders != [] {
      WithIdAre(orders[1..], id);
    }
  }

  /** Whatever is chosen removes exposure this trade was confirmed to hold: the cancel of its own pending
      order, or the close of the one open position the broker ties to it, which no other trade is linked to. */
  ghost predicate RemovesOwnExposure(l: Ledger, id: TradeId, c: Context, m: Ledger, r: Request)
    requires id in l.trades
  {
    var t := l.trades[id];
    || (r.call == CancelPending && r.target == t.orderId != "" && c.view.orders.Some?
        && exists o ::
             && o in c.view.orders.value && o.id == r.target
             && (o.symbol, o.side, o.orderType) == (r.instrument, r.side, r.orderType))
    || (r.call == ClosePosition && c.view.positions.Some?
        && (exists p :: Related(t, c.view.positions.value) == [p] && p.id == r.target && r.volume == Some(p.volume))
        && (r.target != "" ==> Owners(Links(m), Destination, DestinationScope(l, c.account), r.target) == {id}))
  }

  lemma SoleOwner(links: set<Link>, id: TradeId, scope: Scope, position: string)
    requires Unshared(links, id) && Identity.Link(id, Destination, scope, PositionLink, position) in links
    ensures Owners(links, Destination, scope, position) == {id}
  {
    var mine := Identity.Link(id, Destination, scope, PositionLink, position);
    forall t | t in Owners(links, Destination, scope, position)
      ensures t == id
    {
      UnsharedMeansSoleOwner(links, mine, Identity.Link(t, Destination, scope, PositionLink, position));
    }
    assert id in Owners(links, Destination, scope, position);
  }

  lemma CancellingOwnOrder(l: Ledger, id: TradeId, t: Trade, s: Signal, c: Context)
    requires id in l.trades && t.orderId != "" && Cancelling(l, id, t, s, c).Ok?
    ensures var r := Cancelling(l, id, t, s, c).value.plan.request;
            && r.call == CancelPending && r.target == t.orderId && c.view.orders.Some?
            && exists o ::
                 && o in c.view.orders.value && o.id == r.target
                 && (o.symbol, o.side, o.orderType) == (r.instrument, r.side, r.orderType)
  {
    WithIdAre(c.view.orders.value, t.orderId);
    var o := WithId(c.view.orders.value, t.orderId)[0];
    assert o in WithId(c.view.orders.value, t.orderId);
  }

  lemma ClosingRemovesOwnExposure(l: Ledger, id: TradeId, s: Signal, c: Context)
    requires id in l.trades && Closing(l, id, l.trades[id], s, c).unwinding.Ok?
    ensures var chosen := Closing(l, id, l.trades[id], s, c);
            RemovesOwnExposure(l, id, c, chosen.ledger, chosen.unwinding.value.plan.request)
  {
    hide Cancelling;
    hide Unshared;
    hide ObservePositions;
    hide Update;
    hide Owners;
    var t := l.trades[id];
    var related := Related(t, c.view.positions.value);
    var linked := ObservePositions(l, id, c.account, related, c.view.at);
    if |related| == 1 {
      assert related == [related[0]];
      if related[0].id != "" {
        ClosedPositionIsOwn(l, id, c, related[0], t.positionId == "");
      }
    } else if related == [] {
      CancellingOwnOrder(l, id, t, s, c);
    }
  }

  lemma ClosedPositionIsOwn(l: Ledger, id: TradeId, c: Context, p: Position, noted: bool)
    requires id in l.trades && p.id != "" && Unshared(Links(ObservePositions(l, id, c.account, [p], c.view.at)), id)
    ensures var linked := ObservePositions(l, id, c.account, [p], c.view.at);
            var m := if noted then Update(linked, id, NO_CHANGE.(positionId := Some(p.id))) else linked;
            Owners(Links(m), Destination, DestinationScope(l, c.account), p.id) == {id}
  {
    hide Unshared;
    var linked := ObservePositions(l, id, c.account, [p], c.view.at);
    PositionLinkedAdds(l, id, c.account, [p]);
    SoleOwner(Links(linked), id, DestinationScope(l, c.account), p.id);
    NotingKeepsOwners(linked, id, c.account, p.id, noted);
  }

  /** Noting on the row a position already linked to it adds no owner of that position. */
  lemma NotingKeepsOwners(l: Ledger, id: TradeId, account: string, position: string, noted: bool)
    requires id in l.trades
    requires Owners(Links(l), Destination, DestinationScope(l, account), position) == {id}
    ensures var m := if noted then Update(l, id, NO_CHANGE.(positionId := Some(position))) else l;
            Owners(Links(m), Destination, DestinationScope(l, account), position) == {id}
  {
    var m := if noted then Update(l, id, NO_CHANGE.(positionId := Some(position))) else l;
    UpdateOnlyRow(l, id, NO_CHANGE.(positionId := Some(position)));
    assert forall k :: k in Links(m) && k !in Links(l) ==> k.trade == id;
  }

  lemma ChoiceRemovesOwnExposure(l: Ledger, id: TradeId, s: Signal, c: Context)
    requires id in l.trades && Choice(l, id, s, c).unwinding.Ok?
    ensures RemovesOwnExposure(l, id, c, Choice(l, id, s, c).ledger, Choice(l, id, s, c).unwinding.value.plan.request)
    ensures l.trades[id].destination == c.account && c.session.Some? && c.session.value.account == c.account
    ensures Choice(l, id, s, c).unwinding.value.plan.before.state.None?
    ensures Choice(l, id, s, c).unwinding.value.confirmed.state.Some?
    ensures Choice(l, id, s, c).unwinding.value.confirmed.state.value in {Open, Resolved}
    ensures l.trades[id].state !in {Uncertain, Dispatching, Resolved}
  {
    hide Cancelling;
    hide Closing;
    if s.cancel {
      CancellingOwnOrder(l, id, l.trades[id], s, c);
      CancellingPlan(l, id, l.trades[id], s, c);
    } else {
      ClosingRemovesOwnExposure(l, id, s, c);
      ClosingPlan(l, id, s, c);
    }
  }

  lemma CancellingPlan(l: Ledger, id: TradeId, t: Trade, s: Signal, c: Context)
    requires Cancelling(l, id, t, s, c).Ok?
    ensures var u := Cancelling(l, id, t, s, c).value;
            u.plan.before.state.None? && u.confirmed.state.Some? && u.confirmed.state.value in {Open, Resolved}
  {
  }

  lemma ClosingPlan(l: Ledger, id: TradeId, s: Signal, c: Context)
    requires id in l.trades && Closing(l, id, l.trades[id], s, c).unwinding.Ok?
    ensures var u := Closing(l, id, l.trades[id], s, c).unwinding.value;
            u.plan.before.state.None? && u.confirmed.state.Some? && u.confirmed.state.value in {Open, Resolved}
  {
  }

  /** The owner's rule: an unwind never opens anything and never touches exposure that is not this
      trade's own; only an explicit OK counts, and an unknown outcome is left uncertain. */
  lemma UnwindPromise(l: Ledger, id: TradeId, s: Signal, c: Context, answer: Answer)
    requires id in l.trades
    ensures var d := Apply(l, [id], s, c, answer);
            d.sent != [] ==>
              && |d.sent| == 1 && id in d.ledger.trades
              && l.trades[id].destination == c.account && l.trades[id].state !in {Uncertain, Dispatching, Resolved}
              && RemovesOwnExposure(l, id, c, Choice(l, id, s, c).ledger, d.sent[0])
              && if answer.Answered? && answer.status == Some("OK") then d.ledger.trades[id].state in {Open, Resolved}
                 else d.ledger.trades[id].state == Uncertain
  {
    hide Choice;
    hide Performs;
    hide RemovesOwnExposure;
    var chosen := Choice(l, id, s, c);
    if chosen.unwinding.Ok? {
      ChoiceRemovesOwnExposure(l, id, s, c);
      PerformedState(chosen.ledger, id, chosen.unwinding.value.plan,
                     Established(l.trades[id], chosen.unwinding.value, answer));
    }
  }
}
