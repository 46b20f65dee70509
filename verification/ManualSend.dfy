/** manual_send.py: one candidate sent once, on paper or live. */
module ManualSend {
  import opened Wrappers
  import opened Decimals
  import opened Events
  import opened Identity
  import opened Prices
  import opened Journal
  import opened Attempts
  import V = Verified

  /** The copy controls, the selected account, and what the front end asked for. */
  datatype Order = Order(
    paper: bool, enabled: set<string>, account: string, connected: bool,
    symbols: map<string, string>, volume: Option<Decimal>)

  /** What the store's own queries return for the trade: its snapshot and its latest accepted create. */
  datatype Evidence = Evidence(snapshot: V.Snapshot, candidate: Option<Event>)

  datatype Terms = Terms(event: Event, symbol: string, lots: Decimal)

  predicate AlreadySent(l: Ledger, id: TradeId) {
    id in l.papers || exists k <- l.attempts.Keys :: k.trade == id
  }

  function Prepare(l: Ledger, id: TradeId, o: Order, found: Evidence): Result<Terms> {
    if id !in l.trades then Refused("Unknown trade")
    else
      var t := l.trades[id];
      if t.source !in o.enabled then Refused("Source is not enabled for copying")
      else if t.state != Observed || V.Classify(found.snapshot).state != V.Candidate
      then Refused("Trade is not a candidate")
      else if t.orderId != "" || t.positionId != "" then Refused("Trade already has a destination order")
      else if t.destination != "" && t.destination != o.account
      then Refused("Trade already belongs to another destination")
      else if AlreadySent(l, id) then Refused("This trade was already sent once; it will not be sent again")
      else if found.candidate.None? then Refused("No accepted CREATE signal is on record for this trade")
      else
        var e := found.candidate.value;
        if !e.bracketsAbsolute then Refused("Offset brackets require an explicit absolute-price conversion")
        else if e.orderType !in {"MARKET", "LIMIT", "STOP"}
        then Refused("Unsupported order type; stop-limit is not silently converted")
        else if e.side !in {"BUY", "SELL"} then Refused("Missing side")
        else if o.volume.None? || Value(o.volume.value) <= 0.0 then Refused("Volume must be a finite positive number")
        else
          var symbol := if e.symbol in o.symbols then o.symbols[e.symbol] else e.symbol;
          if symbol == "" then Refused("Signal carries no instrument") else Ok(Terms(e, symbol, o.volume.value))
  }

  function RequestFor(terms: Terms, sent: Event): Request {
    if sent.orderType == "MARKET"
    then Request(OpenPosition, terms.symbol, sent.side, "", "", Some(terms.lots), None, Some(sent.sl), Some(sent.tp))
    else Request(CreatePending, terms.symbol, sent.side, "", sent.orderType, Some(terms.lots), Some(sent.price),
                 Some(sent.sl), Some(sent.tp))
  }

  function PlanFor(terms: Terms, sent: Event, account: string): Plan {
    Plan("CREATE", RequestFor(terms, sent), account,
         Change(Some(account), None, None, None, Some(Some(terms.lots)), Some(terms.symbol), Some(sent.side),
                Some(sent.orderType), Some(sent.requestId), Some(sent.emittedAt)))
  }

  function Established(e: Event, answer: Answer): Reply {
    if !answer.Answered? || Or(answer.status, "") !in {"", "OK"} then Unconfirmed
    else if Or(answer.orderId, "") == "" && Or(answer.positionId, "") == "" then Unconfirmed
    else Confirmed(NO_CHANGE.(state := Some(if e.orderType == "MARKET" then Open else Pending),
                             orderId := Some(Or(answer.orderId, "")),
                             positionId := if Or(answer.positionId, "") != "" then answer.positionId else None))
  }

  datatype SendResult = NotSent(reason: string) | Paper(ledger: Ledger) | Live(done: Performed)

  /** The live plan, once the instrument check has put the prices on the grid. */
  function LivePlan(terms: Terms, o: Order, instruments: Option<seq<Instrument>>): Result<Plan> {
    if !o.connected then Refused("Connect the destination account before sending live")
    else if instruments.None? then Refused("Preflight instrument read failed; no broker write attempted")
    else
      var checked := Validated(instruments.value, terms.symbol, terms.lots, terms.event);
      if checked.Refused? then Refused(checked.reason) else Ok(PlanFor(terms, checked.value, o.account))
  }

  function Send(l: Ledger, id: TradeId, o: Order, found: Evidence, instruments: Option<seq<Instrument>>, answer: Answer)
    : SendResult
  {
    var terms := Prepare(l, id, o, found);
    if terms.Refused? then SendResult.NotSent(terms.reason)
    else if o.paper then Paper(l.(papers := l.papers + {id}))
    else
      var plan := LivePlan(terms.value, o, instruments);
      if plan.Refused? then SendResult.NotSent(plan.reason)
      else
        var done := Performs(l, id, plan.value, Established(terms.value.event, answer));
        if done.outcome.HeldBack? then SendResult.NotSent("Action already attempted; it will not be sent again")
        else Live(done)
  }

  function After(l: Ledger, r: SendResult): Ledger {
    match r
    case NotSent(_) => l
    case Paper(ledger) => ledger
    case Live(done) => done.ledger
  }

  /** A paper or live send leaves its mark on the trade. */
  lemma SendIsNoted(l: Ledger, id: TradeId, o: Order, found: Evidence, instruments: Option<seq<Instrument>>,
                    answer: Answer)
    requires !Send(l, id, o, found, instruments, answer).NotSent?
    ensures AlreadySent(After(l, Send(l, id, o, found, instruments, answer)), id)
  {
    hide Performs;
    hide Prepare;
    hide LivePlan;
    var r := Send(l, id, o, found, instruments, answer);
    if r.Live? {
      var terms := Prepare(l, id, o, found).value;
      LivePlanCreates(terms, o, instruments);
      PerformedState(l, id, LivePlan(terms, o, instruments).value, Established(terms.event, answer));
      assert AttemptKey(id, "CREATE") in r.done.ledger.attempts.Keys;
    }
  }

  /** A marked trade is refused, whatever is asked for, whatever is read and whatever any earlier answer was. */
  lemma NotedIsNotSent(l: Ledger, id: TradeId, o: Order, found: Evidence, instruments: Option<seq<Instrument>>,
                       answer: Answer)
    requires AlreadySent(l, id)
    ensures Send(l, id, o, found, instruments, answer).NotSent?
  {
    SentIsRefused(l, id, o, found);
    hide Prepare;
  }

  lemma LivePlanCreates(terms: Terms, o: Order, instruments: Option<seq<Instrument>>)
    requires LivePlan(terms, o, instruments).Ok?
    ensures LivePlan(terms, o, instruments).value.action == "CREATE"
    ensures LivePlan(terms, o, instruments).value.before.state.None?
  {
  }

  lemma SentIsRefused(l: Ledger, id: TradeId, o: Order, found: Evidence)
    requires AlreadySent(l, id)
    ensures Prepare(l, id, o, found).Refused?
  {
  }

  /** The request carries lots and prices its instrument accepts. */
  ghost predicate AcceptableRequest(instruments: seq<Instrument>, e: Event, r: Request) {
    exists info, sent ::
      && info in instruments && info.symbol == r.instrument
      && r.volume.Some? && Acceptable(info, r.volume.value, e, sent)
      && r.sl == Some(sent.sl) && r.tp == Some(sent.tp) && (r.call == CreatePending ==> r.price == Some(sent.price))
  }

  lemma LivePlanIsAcceptable(terms: Terms, o: Order, instruments: Option<seq<Instrument>>)
    requires LivePlan(terms, o, instruments).Ok?
    ensures instruments.Some?
    ensures AcceptableRequest(instruments.value, terms.event, LivePlan(terms, o, instruments).value.request)
    ensures LivePlan(terms, o, instruments).value.before.state.None?
    ensures LivePlan(terms, o, instruments).value.action == "CREATE"
  {
    hide Acceptable;
    hide Validated;
    ValidatedTerms(instruments.value, terms.symbol, terms.lots, terms.event);
    var sent := Validated(instruments.value, terms.symbol, terms.lots, terms.event).value;
    var info :| info in instruments.value && info.symbol == terms.symbol
      && Acceptable(info, terms.lots, terms.event, sent);
  }

  /** A live send is one create whose terms its instrument accepts, and it ends pending, open or uncertain. */
  lemma SendPromise(l: Ledger, id: TradeId, o: Order, found: Evidence, instruments: Option<seq<Instrument>>,
                    answer: Answer)
    requires Send(l, id, o, found, instruments, answer).Live?
    ensures var d := Send(l, id, o, found, instruments, answer).done;
            && !o.paper && found.candidate.Some? && instruments.Some? && |d.sent| == 1
            && id in d.ledger.trades && d.ledger.trades[id].state in {Pending, Open, Uncertain}
            && AcceptableRequest(instruments.value, found.candidate.value, d.sent[0])
  {
    hide Performs;
    hide LivePlan;
    hide AcceptableRequest;
    hide V.Classify;
    var terms := Prepare(l, id, o, found).value;
    var plan := LivePlan(terms, o, instruments).value;
    LivePlanIsAcceptable(terms, o, instruments);
    PerformedState(l, id, plan, Established(terms.event, answer));
  }
}
