/** What a reconciliation settles. In every run from an empty journal the lots of a trade are on record before
    any order or position of the broker, and a trade's own broker ids are linked to it; so no reconciliation
    ever raises, and it resolves exactly the listed trades that are missing, unshared and fully closed. */
module Settlement {
  import opened Wrappers
  import opened Events
  import opened Identity
  import opened Journal
  import opened Attempts
  import opened Protocol
  import R = Reconcile

  // ---- a trade's own broker ids are linked to it ----

  ghost predicate OwnLinked(l: Ledger) {
    forall id :: id in l.trades && l.trades[id].destination != "" ==> RowLinked(l, id, l.trades[id])
  }

  predicate RowLinked(l: Ledger, id: TradeId, row: Trade) {
    var scope := DestinationScope(l, row.destination);
    && (row.orderId != "" ==> Identity.Link(id, Destination, scope, OrderLink, row.orderId) in Links(l))
    && (row.positionId != "" ==> Identity.Link(id, Destination, scope, PositionLink, row.positionId) in Links(l))
  }

  /** Rows keep their destination and broker ids, and links are only added. */
  ghost predicate SameIds(l: Ledger, m: Ledger) {
    && m.broker == l.broker && Links(l) <= Links(m)
    && forall id :: id in m.trades && m.trades[id].destination != "" ==>
         && id in l.trades && m.trades[id].destination == l.trades[id].destination
         && m.trades[id].orderId == l.trades[id].orderId && m.trades[id].positionId == l.trades[id].positionId
  }

  lemma SameIdsStayLinked(l: Ledger, m: Ledger)
    requires OwnLinked(l) && SameIds(l, m)
    ensures OwnLinked(m)
  {
  }

  lemma UpdatedRowIsLinked(l: Ledger, id: TradeId, c: Change)
    requires id in l.trades && Changed(l.trades[id], c).destination != ""
    ensures RowLinked(Update(l, id, c), id, Changed(l.trades[id], c))
  {
    hide Changed;
  }

  lemma UpdateKeepsLinked(l: Ledger, id: TradeId, c: Change)
    requires OwnLinked(l)
    ensures OwnLinked(Update(l, id, c))
  {
    UpdateOnlyRow(l, id, c);
    if id in l.trades && Changed(l.trades[id], c).destination != "" {
      UpdatedRowIsLinked(l, id, c);
    }
    hide Update;
    hide Changed;
  }

  /** A change of state alone adds no link to a trade whose own ids are linked. */
  lemma StateAddsNoLink(l: Ledger, id: TradeId, state: TradeState)
    requires OwnLinked(l)
    ensures Links(Update(l, id, NO_CHANGE.(state := Some(state)))) == Links(l)
  {
  }

  lemma ObservingKeepsLinked(l: Ledger, id: TradeId, account: string, positions: seq<Position>, at: int)
    requires OwnLinked(l)
    ensures OwnLinked(ObservePositions(l, id, account, positions, at))
  {
    PositionLinkedAdds(l, id, account, positions);
    SameIdsStayLinked(l, ObservePositions(l, id, account, positions, at));
    hide PositionLinked;
  }

  // ---- lots come before broker ids ----

  ghost predicate Sized(l: Ledger) {
    forall id :: id in l.trades && IsPlaced(l.trades[id]) ==> l.trades[id].lots.Some?
  }

  /** Lots once recorded stay recorded, and no trade without lots comes to name an order or a position. */
  ghost predicate SizesKept(l: Ledger, m: Ledger) {
    && l.trades.Keys <= m.trades.Keys
    && (forall id :: id in l.trades && l.trades[id].lots.Some? ==> m.trades[id].lots.Some?)
    && (forall id :: id in m.trades && IsPlaced(m.trades[id]) && m.trades[id].lots.None? ==> Places(l, id))
  }

  lemma SizesStayKept(l: Ledger, m: Ledger, n: Ledger)
    requires SizesKept(l, m) && SizesKept(m, n)
    ensures SizesKept(l, n)
  {
  }

  lemma KeptIsSized(l: Ledger, m: Ledger)
    requires Sized(l) && SizesKept(l, m)
    ensures Sized(m)
  {
  }

  predicate NamesIds(c: Change) {
    c.orderId.Some? || c.positionId.Some?
  }

  lemma UpdateKeepsSizes(l: Ledger, id: TradeId, c: Change)
    requires c.lots != Some(None)
    requires NamesIds(c) && id in l.trades ==> l.trades[id].lots.Some? || Places(l, id)
    ensures SizesKept(l, Update(l, id, c))
  {
    UpdateOnlyRow(l, id, c);
    hide Update;
  }

  // ---- one reconciliation keeps both ----

  lemma NotedKeepsLinked(row: Trade, l: Ledger, account: string, id: TradeId, view: R.View)
    requires OwnLinked(l)
    ensures OwnLinked(R.Noted(row, l, account, id, view))
  {
    hide OwnLinked;
    hide Related;
    hide Update;
    var open := Related(row, view.positions);
    ObservingKeepsLinked(l, id, account, open, view.at);
    if |open| == 1 {
      UpdateKeepsLinked(ObservePositions(l, id, account, open, view.at), id,
                        NO_CHANGE.(positionId := Some(open[0].id),
                                   state := if row.state != Uncertain then Some(Open) else None));
    }
  }

  lemma NotedKeepsSizes(row: Trade, l: Ledger, account: string, id: TradeId, view: R.View)
    requires id in l.trades && (IsPlaced(row) ==> l.trades[id].lots.Some? || Places(l, id))
    ensures SizesKept(l, R.Noted(row, l, account, id, view))
  {
    hide Related;
    hide Update;
    var open := Related(row, view.positions);
    if |open| == 1 {
      RelatedIsPlaced(row, view.positions);
      UpdateKeepsSizes(ObservePositions(l, id, account, open, view.at), id,
                       NO_CHANGE.(positionId := Some(open[0].id),
                                  state := if row.state != Uncertain then Some(Open) else None));
    }
  }

  lemma {:induction false} NotedAllKeepsLinked(l: Ledger, account: string, ids: seq<TradeId>, view: R.View)
    requires OwnLinked(l)
    ensures OwnLinked(R.NotedAll(l, account, ids, view))
  {
    hide OwnLinked;
    hide R.Noted;
    if ids != [] {
      var n := |ids| - 1;
      NotedAllKeepsLinked(l, account, ids[..n], view);
      if R.Selected(l, account, ids[n]) {
        NotedKeepsLinked(l.trades[ids[n]], R.NotedAll(l, account, ids[..n], view), account, ids[n], view);
      }
    }
  }

  lemma {:induction false} NotedAllKeepsSizes(l: Ledger, account: string, ids: seq<TradeId>, view: R.View)
    requires Sized(l)
    ensures SizesKept(l, R.NotedAll(l, account, ids, view))
  {
    hide R.Noted;
    if ids != [] {
      var n := |ids| - 1;
      var m := R.NotedAll(l, account, ids[..n], view);
      NotedAllKeepsSizes(l, account, ids[..n], view);
      if R.Selected(l, account, ids[n]) {
        NotedKeepsSizes(l.trades[ids[n]], m, account, ids[n], view);
        SizesStayKept(l, m, R.Noted(l.trades[ids[n]], m, account, ids[n], view));
      }
      hide SizesKept;
    }
  }

  /** Settling one trade adds no link, so the guard of the next ones sees the links of the first pass. */
  lemma SettlesKeepsLinks(row: Trade, l: Ledger, account: string, id: TradeId, view: R.View)
    requires OwnLinked(l)
    ensures Links(R.Settles(row, l, account, id, view)) == Links(l)
    ensures OwnLinked(R.Settles(row, l, account, id, view))
  {
    hide OwnLinked;
    hide R.HasClosings;
    hide R.FullyClosed;
    var recorded := ObserveClosed(l, id, account, R.Closings(row, view.history), view.at);
    RowsAsideLinked(l, recorded);
    UpdateKeepsLinked(recorded, id, NO_CHANGE.(state := Some(Resolved)));
    StateAddsNoLink(recorded, id, Resolved);
    hide Update;
  }

  lemma RowsAsideLinked(l: Ledger, m: Ledger)
    requires OwnLinked(l) && m == l.(rows := m.rows)
    ensures OwnLinked(m)
  {
  }

  lemma {:induction false} SettledAllKeepsLinks(l0: Ledger, l1: Ledger, account: string, ids: seq<TradeId>,
                                                view: R.View)
    requires OwnLinked(l1)
    ensures Links(R.SettledAll(l0, l1, account, ids, view).ledger) == Links(l1)
    ensures OwnLinked(R.SettledAll(l0, l1, account, ids, view).ledger)
  {
    hide OwnLinked;
    hide R.Settles;
    hide R.HasClosings;
    if ids != [] {
      var n := |ids| - 1;
      SettledAllKeepsLinks(l0, l1, account, ids[..n], view);
      if R.Selected(l0, account, ids[n]) {
        SettlesKeepsLinks(l0.trades[ids[n]], R.SettledAll(l0, l1, account, ids[..n], view).ledger, account, ids[n],
                          view);
      }
    }
  }

  // ---- which reconciliations raise, and what they settle ----

  /** The row is selected and has closings to compare, but no lots to compare them with; m is the ledger after
      the first pass. */
  predicate Blocks(l: Ledger, m: Ledger, account: string, id: TradeId, view: R.View) {
    && R.Selected(l, account, id) && l.trades[id].lots.None?
    && R.HasClosings(l.trades[id], m, id, view)
  }

  /** The second pass raises exactly if it comes to such a row. */
  lemma {:induction false} PassRaisesIff(l0: Ledger, l1: Ledger, account: string, ids: seq<TradeId>, view: R.View)
    requires OwnLinked(l1)
    ensures R.SettledAll(l0, l1, account, ids, view).raised
            <==> exists k :: 0 <= k < |ids| && Blocks(l0, l1, account, ids[k], view)
  {
    hide OwnLinked;
    hide R.Selected;
    hide R.Settles;
    if ids != [] {
      var n := |ids| - 1;
      PassRaisesIff(l0, l1, account, ids[..n], view);
      SettledAllKeepsLinks(l0, l1, account, ids[..n], view);
      assert forall k :: 0 <= k < n ==> ids[..n][k] == ids[k];
      if R.SettledAll(l0, l1, account, ids[..n], view).raised {
        var k :| 0 <= k < n && Blocks(l0, l1, account, ids[..n][k], view);
        assert Blocks(l0, l1, account, ids[k], view);
      }
    }
  }

  /** The trade is listed as unsettled, missing at the broker, alone on its position, and closed in full; m is
      the ledger after the first pass. */
  predicate Gone(l: Ledger, m: Ledger, account: string, id: TradeId, view: R.View) {
    && R.Selected(l, account, id)
    && R.HasClosings(l.trades[id], m, id, view) && R.FullyClosed(l.trades[id], view.history)
  }

  ghost predicate NoneBlocks(l: Ledger, m: Ledger, account: string, ids: seq<TradeId>, view: R.View) {
    forall j :: 0 <= j < |ids| ==> !Blocks(l, m, account, ids[j], view)
  }

  lemma ResolvesAtIff(l: Ledger, m: Ledger, account: string, ids: seq<TradeId>, view: R.View, k: nat)
    requires OwnLinked(m) && k < |ids|
    ensures R.ResolvesAt(l, m, account, ids, view, k)
            <==> Gone(l, m, account, ids[k], view) && NoneBlocks(l, m, account, ids[..k], view)
  {
    PassRaisesIff(l, m, account, ids[..k], view);
    SettledAllKeepsLinks(l, m, account, ids[..k], view);
    hide OwnLinked;
    hide R.Selected;
    hide R.FullyClosed;
    hide R.SettledAll;
  }

  /** A reconciliation raises exactly if it comes to a row with closings and without lots; a listed trade ends
      resolved exactly if it was, or if it is gone and no such row is listed ahead of it. */
  lemma ReconciliationSettlesIff(l: Ledger, account: string, ids: seq<TradeId>, view: R.View)
    requires OwnLinked(l) && forall i, j :: 0 <= i < j < |ids| ==> ids[i] != ids[j]
    ensures var (m, p) := (R.NotedAll(l, account, ids, view), R.Reconciled(l, account, ids, view));
            && (p.raised <==> !NoneBlocks(l, m, account, ids, view))
            && (forall k :: 0 <= k < |ids| && ids[k] in l.trades ==>
                  && ids[k] in p.ledger.trades
                  && (p.ledger.trades[ids[k]].state == Resolved
                      <==> (l.trades[ids[k]].state == Resolved
                            || (Gone(l, m, account, ids[k], view) && NoneBlocks(l, m, account, ids[..k], view)))))
  {
    var m := R.NotedAll(l, account, ids, view);
    NotedAllKeepsLinked(l, account, ids, view);
    PassRaisesIff(l, m, account, ids, view);
    R.ReconciliationIsSound(l, account, ids, view);
    hide OwnLinked;
    hide Blocks;
    hide R.Opens;
    hide R.SettledAll;
    hide R.NotedAll;
    forall k | 0 <= k < |ids| && ids[k] in l.trades
      ensures R.Resolves(l, account, ids, view, ids[k])
              <==> Gone(l, m, account, ids[k], view) && NoneBlocks(l, m, account, ids[..k], view)
    {
      forall j | 0 <= j < |ids|
        ensures R.ResolvesAt(l, m, account, ids, view, j)
                <==> Gone(l, m, account, ids[j], view) && NoneBlocks(l, m, account, ids[..j], view)
      {
        ResolvesAtIff(l, m, account, ids, view, j);
      }
    }
    hide R.Resolves;
    hide NoneBlocks;
    hide R.HasClosings;
    hide R.FullyClosed;
  }

  /** Where lots come before broker ids, nothing blocks: a reconciliation never raises, and the listed trades
      that end resolved are exactly those that were and those that are gone. */
  lemma SizedReconciliationSettles(l: Ledger, account: string, ids: seq<TradeId>, view: R.View)
    requires Sized(l) && OwnLinked(l) && forall i, j :: 0 <= i < j < |ids| ==> ids[i] != ids[j]
    ensures var (m, p) := (R.NotedAll(l, account, ids, view), R.Reconciled(l, account, ids, view));
            && !p.raised
            && (forall id :: id in ids && id in l.trades ==>
                  && id in p.ledger.trades
                  && (p.ledger.trades[id].state == Resolved
                      <==> l.trades[id].state == Resolved || Gone(l, m, account, id, view)))
  {
    var m := R.NotedAll(l, account, ids, view);
    ReconciliationSettlesIff(l, account, ids, view);
    forall id ensures !Blocks(l, m, account, id, view) {
    }
    hide Gone;
    hide Blocks;
    hide R.Reconciled;
    hide R.NotedAll;
  }

  // ---- every run ----

  /** What is known of a dispatcher: it writes no lots away, and one that creates has recorded its lots. */
  predicate Minds(l: Ledger, p: Process) {
    && IsPlan(p.plan) && p.plan.before.lots != Some(None)
    && (Creates(p.plan.request) && p.pc in {Claimed, Noted, Called} ==> p.trade in l.trades)
    && (Creates(p.plan.request) && p.pc in {Noted, Called} ==> l.trades[p.trade].lots.Some?)
  }

  ghost predicate Sound(s: System) {
    && Sized(s.ledger) && OwnLinked(s.ledger)
    && forall pid :: pid in s.processes ==> Minds(s.ledger, s.processes[pid])
  }

  /** A journal without trades. */
  predicate Empty(s: System) {
    Initial(s) && s.ledger.trades == map[]
  }

  lemma EmptyIsSound(s: System)
    requires Empty(s)
    ensures Sound(s)
  {
  }

  lemma MindsStays(l: Ledger, m: Ledger, p: Process)
    requires Minds(l, p) && SizesKept(l, m)
    ensures Minds(m, p)
  {
  }

  /** An event leaves lots, destinations and broker ids alone, and a trade it starts has none. */
  ghost predicate RowsApart(l: Ledger, m: Ledger) {
    && m.broker == l.broker && Links(l) <= Links(m) && l.trades.Keys <= m.trades.Keys
    && forall id :: id in m.trades ==>
         var row := m.trades[id];
         if id in l.trades then
           && row.destination == l.trades[id].destination && row.lots == l.trades[id].lots
           && row.orderId == l.trades[id].orderId && row.positionId == l.trades[id].positionId
         else row.destination == "" && !IsPlaced(row)
  }

  lemma StartedApart(l: Ledger, e: Event, newId: TradeId)
    requires newId !in l.trades
    ensures RowsApart(l, WithTrade(l, e, newId))
  {
    hide TradeOf;
  }

  lemma AppliedApart(l: Ledger, id: TradeId, e: Event)
    requires id in l.trades && Applied(l, id, e).Ok?
    ensures RowsApart(l, Applied(l, id, e).value)
  {
    AppliedOnlyAdds(l, id, e);
    hide SourceEvidence;
  }

  lemma ApartComposes(l: Ledger, m: Ledger, n: Ledger, events: map<EventKey, EventRow>)
    requires RowsApart(l, m) && RowsApart(m, n)
    ensures RowsApart(l, n.(events := events))
  {
  }

  lemma RecordLeavesRows(l: Ledger, e: Event, newId: TradeId)
    requires newId !in l.trades && Record(l, e, newId).Recorded?
    ensures RowsApart(l, Record(l, e, newId).ledger)
  {
    hide TradeOf;
    hide Applied;
    hide WithTrade;
    var id, started := Identified(l, e, newId), WithTrade(l, e, newId);
    var m := Record(l, e, newId).ledger;
    StartedApart(l, e, newId);
    if id.Some? && id.value in started.trades {
      AppliedApart(started, id.value, e);
      ApartComposes(l, started, Applied(started, id.value, e).value, m.events);
    } else {
      ApartComposes(l, started, started, m.events);
    }
    hide RowsApart;
  }

  lemma ApartIsSound(l: Ledger, m: Ledger)
    requires RowsApart(l, m) && OwnLinked(l)
    ensures OwnLinked(m) && SizesKept(l, m)
  {
    SameIdsStayLinked(l, m);
  }

  lemma SettlingIsSound(l: Ledger, account: string, ids: seq<TradeId>, view: R.View)
    requires Sized(l) && OwnLinked(l) && forall i, j :: 0 <= i < j < |ids| ==> ids[i] != ids[j]
    ensures OwnLinked(R.Reconciled(l, account, ids, view).ledger)
    ensures SizesKept(l, R.Reconciled(l, account, ids, view).ledger)
  {
    var m := R.NotedAll(l, account, ids, view);
    NotedAllKeepsLinked(l, account, ids, view);
    NotedAllKeepsSizes(l, account, ids, view);
    SettledAllKeepsLinks(l, m, account, ids, view);
    R.NotedAllKeeps(l, account, ids, view);
    R.SettledAllKeeps(l, m, account, ids, view);
    var n := R.SettledAll(l, m, account, ids, view).ledger;
    hide R.ResolvesIn;
    assert SizesKept(m, n);
    SizesStayKept(l, m, n);
    hide SizesKept;
    hide OwnLinked;
    hide R.SettledAll;
    hide R.NotedAll;
  }

  lemma LedgerStepIsSound(s: System, step: Step)
    requires Sound(s) && IsLedgerStep(step)
    ensures OwnLinked(Next(s, step).ledger) && SizesKept(s.ledger, Next(s, step).ledger)
  {
    hide OwnLinked;
    hide Update;
    hide ObservePositions;
    match step
    case Receive(event, newId) =>
      if newId !in s.ledger.trades && Record(s.ledger, event, newId).Recorded? {
        RecordLeavesRows(s.ledger, event, newId);
        ApartIsSound(s.ledger, Record(s.ledger, event, newId).ledger);
      }
      hide Record;
    case Observe(trade, account, positions, at) =>
      ObservingKeepsLinked(s.ledger, trade, account, positions, at);
      ObservingKeepsRows(s.ledger, trade, account, positions, at);
    case NotePosition(trade, position) =>
      UpdateKeepsLinked(s.ledger, trade, NO_CHANGE.(positionId := Some(position)));
      if Places(s.ledger, trade) {
        UpdateKeepsSizes(s.ledger, trade, NO_CHANGE.(positionId := Some(position)));
      }
    case Paper(trade) => assert OwnLinked(s.ledger.(papers := s.ledger.papers + {trade})) by {
        SameIdsStayLinked(s.ledger, s.ledger.(papers := s.ledger.papers + {trade}));
      }
    case Settle(account, ids, view) =>
      if forall i, j :: 0 <= i < j < |ids| ==> ids[i] != ids[j] {
        SettlingIsSound(s.ledger, account, ids, view);
      }
      hide R.Reconciled;
  }

  /** A dispatcher's update of its row. */
  lemma UpdateIsSound(s: System, pid: Pid, c: Change)
    requires Sound(s) && pid in s.processes && c.lots != Some(None)
    requires NamesIds(c) ==> Creates(s.processes[pid].plan.request) && s.processes[pid].pc == Called
    ensures var m := Update(s.ledger, s.processes[pid].trade, c); OwnLinked(m) && SizesKept(s.ledger, m)
  {
    assert Minds(s.ledger, s.processes[pid]);
    UpdateKeepsLinked(s.ledger, s.processes[pid].trade, c);
    UpdateKeepsSizes(s.ledger, s.processes[pid].trade, c);
    hide OwnLinked;
    hide Update;
  }

  /** Claims, outcomes and restarts change neither broker ids nor lots. */
  ghost predicate SameRows(l: Ledger, m: Ledger) {
    && m.broker == l.broker && Links(m) == Links(l) && m.trades.Keys == l.trades.Keys
    && forall id :: id in l.trades ==> m.trades[id] == l.trades[id].(state := m.trades[id].state)
  }

  lemma SameRowsAreSound(l: Ledger, m: Ledger)
    requires OwnLinked(l) && SameRows(l, m)
    ensures OwnLinked(m) && SizesKept(l, m)
  {
  }

  lemma OtherStepKeepsRows(s: System, step: Step)
    requires !IsLedgerStep(step) && !IsUpdate(step) && !step.Link?
    ensures SameRows(s.ledger, Next(s, step).ledger)
  {
    hide Record;
    hide R.Reconciled;
  }

  lemma UpdateStepIsSound(s: System, step: Step)
    requires Sound(s) && IsUpdate(step)
    ensures OwnLinked(Next(s, step).ledger) && SizesKept(s.ledger, Next(s, step).ledger)
  {
    UpdateStepIs(s, step);
    hide Next;
    hide Update;
    if step.pid in s.processes && UpdateOf(s.processes[step.pid], step).Some? {
      assert Minds(s.ledger, s.processes[step.pid]);
      hide OwnLinked;
      hide Sized;
      UpdateIsSound(s, step.pid, UpdateOf(s.processes[step.pid], step).value);
    }
  }

  lemma LinkStepIsSound(s: System, step: Step)
    requires Sound(s) && step.Link?
    ensures OwnLinked(Next(s, step).ledger) && SizesKept(s.ledger, Next(s, step).ledger)
  {
    hide OwnLinked;
    if step.pid in s.processes {
      var p := s.processes[step.pid];
      ObservingKeepsLinked(s.ledger, p.trade, p.plan.account, step.positions, step.at);
      ObservingKeepsRows(s.ledger, p.trade, p.plan.account, step.positions, step.at);
    }
    hide ObservePositions;
  }

  lemma StepIsSound(s: System, step: Step)
    requires Sound(s)
    ensures OwnLinked(Next(s, step).ledger) && SizesKept(s.ledger, Next(s, step).ledger)
  {
    hide Next;
    hide OwnLinked;
    hide SizesKept;
    if IsLedgerStep(step) {
      LedgerStepIsSound(s, step);
    } else if IsUpdate(step) {
      UpdateStepIsSound(s, step);
    } else if step.Link? {
      LinkStepIsSound(s, step);
    } else {
      OtherStepKeepsRows(s, step);
      SameRowsAreSound(s.ledger, Next(s, step).ledger);
    }
  }

  // ---- dispatchers ----

  /** A dispatcher that goes on with its plan, not into a claim or a note. */
  predicate GoesOn(p: Process, q: Process) {
    && q.trade == p.trade && q.plan == p.plan
    && (q.pc == p.pc || q.pc !in {Claimed, Noted, Called} || (p.pc == Noted && q.pc == Called))
  }

  lemma GoingOnMinds(l: Ledger, m: Ledger, p: Process, q: Process)
    requires Minds(l, p) && SizesKept(l, m) && GoesOn(p, q)
    ensures Minds(m, q)
  {
  }

  lemma OthersGoOn(s: System, step: Step, pid: Pid)
    requires !IsLedgerStep(step) && !step.Begin? && !step.Claim? && !step.Note? && pid in Next(s, step).processes
    ensures pid in s.processes && GoesOn(s.processes[pid], Next(s, step).processes[pid])
  {
    hide Record;
    hide R.Reconciled;
    hide Update;
    hide Journal.Finish;
  }

  lemma BegunMinds(s: System, pid: Pid, trade: TradeId, plan: Plan, q: Pid)
    requires Sound(s) && q in Next(s, Step.Begin(pid, trade, plan)).processes
    ensures Minds(s.ledger, Next(s, Step.Begin(pid, trade, plan)).processes[q])
  {
    hide OwnLinked;
  }

  lemma ClaimedMinds(s: System, pid: Pid, q: Pid)
    requires Sound(s) && SizesKept(s.ledger, Next(s, Step.Claim(pid)).ledger)
    requires q in Next(s, Step.Claim(pid)).processes
    ensures Minds(Next(s, Step.Claim(pid)).ledger, Next(s, Step.Claim(pid)).processes[q])
  {
    hide OwnLinked;
    hide SizesKept;
    if At(s, pid, Ready) {
      ClaimStep(s, pid);
    }
    var n := Next(s, Step.Claim(pid));
    assert q == pid && At(s, pid, Ready) ==> s.processes[q].trade in n.ledger.trades;
    assert q in s.processes;
    assert q != pid || !At(s, pid, Ready) ==> n.processes[q] == s.processes[q];
    hide Next;
    if n.processes[q] == s.processes[q] {
      MindsStays(s.ledger, n.ledger, s.processes[q]);
    }
  }

  lemma NotedMinds(s: System, pid: Pid, q: Pid)
    requires Sound(s) && SizesKept(s.ledger, Next(s, Step.Note(pid)).ledger)
    requires q in Next(s, Step.Note(pid)).processes
    ensures Minds(Next(s, Step.Note(pid)).ledger, Next(s, Step.Note(pid)).processes[q])
  {
    hide OwnLinked;
    hide SizesKept;
    var n := Next(s, Step.Note(pid));
    if At(s, pid, Claimed) {
      NoteStep(s, pid);
      UpdateOnlyRow(s.ledger, s.processes[pid].trade, s.processes[pid].plan.before);
    }
    assert q in s.processes && (q != pid || !At(s, pid, Claimed) ==> n.processes[q] == s.processes[q]);
    hide Next;
    hide Update;
    if n.processes[q] == s.processes[q] {
      MindsStays(s.ledger, n.ledger, s.processes[q]);
    }
  }

  lemma DispatcherMinds(s: System, step: Step, pid: Pid)
    requires Sound(s) && SizesKept(s.ledger, Next(s, step).ledger) && pid in Next(s, step).processes
    ensures Minds(Next(s, step).ledger, Next(s, step).processes[pid])
  {
    hide Next;
    hide OwnLinked;
    hide SizesKept;
    if IsLedgerStep(step) {
      LedgerStepGrows(s, step);
      MindsStays(s.ledger, Next(s, step).ledger, s.processes[pid]);
    } else if step.Begin? {
      BegunMinds(s, step.pid, step.trade, step.plan, pid);
      MindsStays(s.ledger, Next(s, step).ledger, Next(s, step).processes[pid]);
    } else if step.Claim? {
      ClaimedMinds(s, step.pid, pid);
    } else if step.Note? {
      NotedMinds(s, step.pid, pid);
    } else {
      OthersGoOn(s, step, pid);
      GoingOnMinds(s.ledger, Next(s, step).ledger, s.processes[pid], Next(s, step).processes[pid]);
    }
  }

  lemma NextKeepsSound(s: System, step: Step)
    requires Sound(s)
    ensures Sound(Next(s, step))
  {
    hide Next;
    StepIsSound(s, step);
    KeptIsSized(s.ledger, Next(s, step).ledger);
    forall pid | pid in Next(s, step).processes ensures Minds(Next(s, step).ledger, Next(s, step).processes[pid]) {
      DispatcherMinds(s, step, pid);
    }
    hide OwnLinked;
    hide Sized;
    hide Minds;
  }

  lemma {:induction false} RunKeepsSound(s: System, steps: seq<Step>)
    requires Sound(s)
    ensures Sound(Run(s, steps))
  {
    hide Next;
    hide Sound;
    if steps != [] {
      RunKeepsSound(s, steps[..|steps| - 1]);
      NextKeepsSound(Run(s, steps[..|steps| - 1]), steps[|steps| - 1]);
    }
  }

  /** In every run from a journal without trades no reconciliation raises, and the listed trades that end
      resolved are exactly those that were and those that are gone. */
  lemma EveryReconciliationSettles(s: System, steps: seq<Step>, account: string, ids: seq<TradeId>, view: R.View)
    requires Empty(s) && forall i, j :: 0 <= i < j < |ids| ==> ids[i] != ids[j]
    ensures var l := Run(s, steps).ledger;
            var (m, p) := (R.NotedAll(l, account, ids, view), R.Reconciled(l, account, ids, view));
            && !p.raised
            && (forall id :: id in ids && id in l.trades ==>
                  && id in p.ledger.trades
                  && (p.ledger.trades[id].state == Resolved
                      <==> l.trades[id].state == Resolved || Gone(l, m, account, id, view)))
  {
    EmptyIsSound(s);
    RunKeepsSound(s, steps);
    hide Run;
    SizedReconciliationSettles(Run(s, steps).ledger, account, ids, view);
  }
}
