/** router.py, manual_send.py, unwind.py and reconcile.py as the program runs them: methods over one store
    object and one broker session, each doing exactly what its specification function says. */
module Dispatchers {
  import opened Wrappers
  import opened Decimals
  import opened Events
  import opened Identity
  import opened Journal
  import opened Attempts
  import opened CaptureStore
  import Router
  import M = ManualSend
  import U = Unwind
  import R = Reconcile

  /** The broker session, as the list of mutations that left for it. */
  class Session {
    var sent: seq<Request>

    constructor ()
      ensures sent == []
    {
      sent := [];
    }

    /** One broker call; a client that refuses it writes nothing. */
    method Write(r: Request, refused: bool)
      modifies this
      ensures sent == if refused then old(sent) else old(sent) + [r]
    {
      if !refused {
        sent := sent + [r];
      }
    }
  }

  /** claim and the change before the call; false when the attempt may not be made. */
  method Prepare(store: Store, id: TradeId, plan: Plan) returns (claimed: bool)
    modifies store
    ensures claimed <==> Prepared(old(store.Snapshot()), id, plan).Some?
    ensures store.Snapshot() == Or(Prepared(old(store.Snapshot()), id, plan), old(store.Snapshot()))
  {
    claimed := store.Claim(id, plan.action, plan.account, plan.request);
    if claimed {
      store.Update(id, plan.before);
    }
  }

  /** The call, and then what its answer established. */
  method Conclude(store: Store, session: Session, id: TradeId, plan: Plan, reply: Reply) returns (outcome: Outcome)
    modifies store, session
    ensures store.Snapshot() == Settled(old(store.Snapshot()), id, plan.action, reply)
    ensures session.sent == old(session.sent) + (if reply.NotSent? then [] else [plan.request])
    ensures outcome == OutcomeOf(reply)
  {
    session.Write(plan.request, reply.NotSent?);
    match reply {
      case Confirmed(change) =>
        store.Update(id, change);
        store.Finish(id, plan.action, Succeeded);
      case Unconfirmed =>
        store.Update(id, NO_CHANGE.(state := Some(Uncertain)));
        store.Finish(id, plan.action, Unverified);
      case NotSent(resume) =>
        store.Update(id, NO_CHANGE.(state := Some(resume)));
        store.Finish(id, plan.action, Held);
    }
    outcome := OutcomeOf(reply);
  }

  class CaptureRouter {
    const store: Store
    var settings: Router.Settings

    constructor (store: Store, settings: Router.Settings)
      ensures this.store == store && this.settings == settings
    {
      this.store := store;
      this.settings := settings;
    }

    /** _dispatch. The views and the answer are what the broker returns when asked. */
    method Dispatch(session: Session, id: Option<TradeId>, e: Event, account: string, now: int, view: Router.View,
                    answer: Answer)
      returns (outcome: Outcome)
      modifies store, session
      ensures var d := Router.Dispatched(settings, old(store.Snapshot()), id, e, account, now, view, answer);
              store.Snapshot() == d.ledger && outcome == d.outcome && session.sent == old(session.sent) + d.sent
    {
      hide Router.Preflight;
      hide Router.Choice;
      hide Router.Attempted;
      var before := store.Snapshot();
      var checked := Router.Preflight(settings, before, id, e, account, now, view);
      if checked.Refused? {
        return HeldBack(checked.reason);
      }
      Found(settings, before, id, e, account, now, view);
      outcome := Attempt(session, id.value, checked.value, account, view, answer);
    }

    /** The reads of an edit, cancel or close: every related position is linked, a single one is noted. */
    method ReadBroker(id: TradeId, terms: Router.Terms, account: string, view: Router.View)
      requires id in store.trades
      modifies store
      ensures store.Snapshot() == Router.Choice(old(store.Snapshot()), id, terms, account, view).ledger
    {
      hide Router.LifecycleRequest;
      hide Journal.ObservePositions;
      hide Journal.Update;
      var t := store.trades[id];
      if terms.event.action == Create || t.symbol != terms.symbol || t.side != terms.event.side
         || view.orders.None? || view.positions.None? {
        return;
      }
      var related := Related(t, view.positions.value);
      store.ObservePositions(id, account, related, view.at);
      if |related| == 1 {
        store.Update(id, NO_CHANGE.(positionId := Some(related[0].id)));
      }
    }

    method Attempt(session: Session, id: TradeId, terms: Router.Terms, account: string, view: Router.View,
                   answer: Answer)
      returns (outcome: Outcome)
      requires id in store.trades
      modifies store, session
      ensures var before := old(store.Snapshot());
              var d := Router.Attempted(before, id, terms, Router.Choice(before, id, terms, account, view), view,
                                        answer);
              store.Snapshot() == d.ledger && outcome == d.outcome && session.sent == old(session.sent) + d.sent
    {
      hide Router.Choice;
      hide Router.Established;
      hide Settled;
      hide Prepared;
      var t := store.trades[id];
      var chosen := Router.Choice(store.Snapshot(), id, terms, account, view);
      ReadBroker(id, terms, account, view);
      if chosen.plan.Refused? {
        return HeldBack(chosen.plan.reason);
      }
      var claimed := Prepare(store, id, chosen.plan.value);
      if !claimed {
        return HeldBack("Action already attempted; it will not be sent again");
      }
      var related := Related(t, Or(view.positions, []));
      var reply := Router.Established(store.Snapshot(), id, t, terms, Or(view.orders, []), related, answer);
      outcome := Conclude(store, session, id, chosen.plan.value, reply);
    }
  }

  lemma Found(s: Router.Settings, l: Ledger, id: Option<TradeId>, e: Event, account: string, now: int,
              view: Router.View)
    requires Router.Preflight(s, l, id, e, account, now, view).Ok?
    ensures id.Some? && id.value in l.trades
  {
  }

  /** manual_send.send. */
  method Send(store: Store, session: Session, id: TradeId, o: M.Order, found: M.Evidence,
              instruments: Option<seq<Instrument>>, answer: Answer)
    returns (r: M.SendResult)
    modifies store, session
    ensures r == M.Send(old(store.Snapshot()), id, o, found, instruments, answer)
    ensures store.Snapshot() == M.After(old(store.Snapshot()), r)
    ensures session.sent == old(session.sent) + (if r.Live? then r.done.sent else [])
  {
    hide M.Prepare;
    hide M.LivePlan;
    hide Settled;
    hide Prepared;
    var before := store.Snapshot();
    var terms := M.Prepare(before, id, o, found);
    if terms.Refused? {
      return M.SendResult.NotSent(terms.reason);
    }
    if o.paper {
      store.NotePaper(id);
      return M.Paper(store.Snapshot());
    }
    var plan := M.LivePlan(terms.value, o, instruments);
    if plan.Refused? {
      return M.SendResult.NotSent(plan.reason);
    }
    var claimed := Prepare(store, id, plan.value);
    if !claimed {
      return M.SendResult.NotSent("Action already attempted; it will not be sent again");
    }
    var outcome := Conclude(store, session, id, plan.value, M.Established(terms.value.event, answer));
    r := M.Live(Performed(store.Snapshot(), outcome, [plan.value.request]));
  }

  /** unwind.apply. */
  method Apply(store: Store, session: Session, linked: seq<TradeId>, s: U.Signal, c: U.Context, answer: Answer)
    returns (outcome: Outcome)
    modifies store, session
    ensures var d := U.Apply(old(store.Snapshot()), linked, s, c, answer);
            store.Snapshot() == d.ledger && outcome == d.outcome && session.sent == old(session.sent) + d.sent
  {
    hide U.Closing;
    hide U.Cancelling;
    hide Settled;
    hide Prepared;
    var before := store.Snapshot();
    if |linked| != 1 || linked[0] !in store.trades {
      return HeldBack("No one sent trade is linked to the lifecycle");
    }
    var id := linked[0];
    var t := store.trades[id];
    var chosen := U.Choice(before, id, s, c);
    ReadBack(store, id, t, s, c);
    if chosen.unwinding.Refused? {
      return HeldBack(chosen.unwinding.reason);
    }
    var plan := chosen.unwinding.value.plan;
    var claimed := Prepare(store, id, plan);
    if !claimed {
      return HeldBack("Action already attempted; it will not be sent again");
    }
    outcome := Conclude(store, session, id, plan, U.Established(t, chosen.unwinding.value, answer));
  }

  /** The part of _close that links what the broker returned, before any write. */
  method ReadBack(store: Store, id: TradeId, t: Trade, s: U.Signal, c: U.Context)
    requires id in store.trades && store.trades[id] == t
    modifies store
    ensures store.Snapshot() == U.Choice(old(store.Snapshot()), id, s, c).ledger
  {
    hide U.Cancelling;
    hide U.StoredCopy;
    hide Unshared;
    hide Journal.ObservePositions;
    hide Journal.Update;
    hide Related;
    var before := store.Snapshot();
    var chosen := U.Choice(before, id, s, c);
    if chosen.ledger != before {
      var related := Related(t, c.view.positions.value);
      store.ObservePositions(id, c.account, related, c.view.at);
      if |related| == 1 && t.positionId == "" && Unshared(store.links, id) {
        store.Update(id, NO_CHANGE.(positionId := Some(related[0].id)));
      }
    }
  }

  /** reconcile. ids is the listing the selection query returns; lots that were never recorded end it early. */
  method ReconcileAccount(store: Store, account: string, ids: seq<TradeId>, view: R.View) returns (raised: bool)
    modifies store
    ensures R.Pass(store.Snapshot(), raised) == R.Reconciled(old(store.Snapshot()), account, ids, view)
  {
    var rows := store.Snapshot();
    for i := 0 to |ids|
      invariant store.Snapshot() == R.NotedAll(rows, account, ids[..i], view)
    {
      assert ids[..i + 1][..i] == ids[..i];
      if R.Selected(rows, account, ids[i]) {
        NoteOpen(store, rows.trades[ids[i]], account, ids[i], view);
      }
    }
    assert ids[..|ids|] == ids;
    var noted := store.Snapshot();
    raised := false;
    for i := 0 to |ids|
      invariant !raised && R.Pass(store.Snapshot(), raised) == R.SettledAll(rows, noted, account, ids[..i], view)
    {
      assert ids[..i + 1][..i] == ids[..i];
      if R.Selected(rows, account, ids[i]) {
        raised := SettleClosed(store, rows.trades[ids[i]], account, ids[i], view);
        if raised {
          RaisedStays(rows, noted, account, ids, view, i + 1);
          return;
        }
      }
    }
  }

  lemma {:induction false} RaisedStays(l0: Ledger, l1: Ledger, account: string, ids: seq<TradeId>, view: R.View, k: nat)
    requires k <= |ids| && R.SettledAll(l0, l1, account, ids[..k], view).raised
    ensures R.SettledAll(l0, l1, account, ids, view) == R.SettledAll(l0, l1, account, ids[..k], view)
  {
    if k == |ids| {
      assert ids[..k] == ids;
    } else {
      var n := |ids| - 1;
      assert ids[..n][..k] == ids[..k];
      RaisedStays(l0, l1, account, ids[..n], view, k);
    }
  }

  method NoteOpen(store: Store, row: Trade, account: string, id: TradeId, view: R.View)
    modifies store
    ensures store.Snapshot() == R.Noted(row, old(store.Snapshot()), account, id, view)
  {
    var open := Related(row, view.positions);
    store.ObservePositions(id, account, open, view.at);
    if |open| == 1 {
      store.Update(id, NO_CHANGE.(positionId := Some(open[0].id),
                                       state := if row.state != Uncertain then Some(Open) else None));
    }
  }

  method SettleClosed(store: Store, row: Trade, account: string, id: TradeId, view: R.View) returns (raised: bool)
    modifies store
    ensures store.Snapshot() == R.Settles(row, old(store.Snapshot()), account, id, view)
    ensures raised == (R.HasClosings(row, old(store.Snapshot()), id, view) && row.lots.None?)
  {
    raised := false;
    if R.IsMissing(row, view) && Unshared(store.links, id) {
      var closings := R.Closings(row, view.history);
      if closings != [] {
        store.ObserveClosed(id, account, closings, view.at);
        if row.lots.None? {
          return true;
        }
        if R.ClosedSum(closings) >= Value(row.lots.value) {
          store.Update(id, NO_CHANGE.(state := Some(Resolved)));
        }
      }
    }
  }
}
