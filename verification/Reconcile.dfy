/** reconcile.py: trades still in doubt, settled from exact broker identities and closed history. */
module Reconcile {
  import opened Wrappers
  import opened Decimals
  import opened Events
  import opened Identity
  import opened Journal
  import opened Attempts

  /** the broker state one reconciliation reads. */
  datatype View = View(positions: seq<Position>, orders: set<string>, history: seq<ClosedTrade>, at: int)

  predicate Selected(l: Ledger, account: string, id: TradeId) {
    id in l.trades && l.trades[id].destination == account && l.trades[id].state !in {Observed, Resolved}
  }

  /** First pass, one trade: link what is open, and note the position when exactly one is. A visible
      position cannot tell whether an uncertain edit succeeded, so uncertain stays. */
  function Noted(row: Trade, l: Ledger, account: string, id: TradeId, view: View): Ledger {
    var open := Related(row, view.positions);
    var linked := ObservePositions(l, id, account, open, view.at);
    if |open| != 1 then linked
    else Update(linked, id, NO_CHANGE.(positionId := Some(open[0].id),
                                      state := if row.state != Uncertain then Some(Open) else None))
  }

  predicate IsMissing(row: Trade, view: View) {
    |Related(row, view.positions)| != 1 && row.orderId !in view.orders && row.positionId != ""
  }

  function Closings(row: Trade, history: seq<ClosedTrade>): seq<ClosedTrade> {
    if history == [] then []
    else
      var c := history[0];
      (if c.id == row.positionId && c.symbol == row.symbol && c.side == row.side then [c] else [])
      + Closings(row, history[1..])
  }

  function ClosedSum(closings: seq<ClosedTrade>): real {
    if closings == [] then 0.0 else Value(closings[0].volume) + ClosedSum(closings[1..])
  }

  /** The history of the trade's own position adds up to the whole of its lots. */
  predicate FullyClosed(row: Trade, history: seq<ClosedTrade>) {
    var closings := Closings(row, history);
    closings != [] && row.lots.Some? && ClosedSum(closings) >= Value(row.lots.value)
  }

  /** The trade is missing, no other trade shares its position, and the history has closings of it. */
  predicate HasClosings(row: Trade, l: Ledger, id: TradeId, view: View) {
    IsMissing(row, view) && Unshared(Links(l), id) && Closings(row, view.history) != []
  }

  /** Second pass, one missing trade: record its closings, and resolve it only when nothing is left. */
  function Settles(row: Trade, l: Ledger, account: string, id: TradeId, view: View): Ledger {
    if !HasClosings(row, l, id, view) then l
    else
      var recorded := ObserveClosed(l, id, account, Closings(row, view.history), view.at);
      if FullyClosed(row, view.history) then Update(recorded, id, NO_CHANGE.(state := Some(Resolved))) else recorded
  }

  function NotedAll(l0: Ledger, account: string, ids: seq<TradeId>, view: View): Ledger {
    if ids == [] then l0
    else
      var n := |ids| - 1;
      var l := NotedAll(l0, account, ids[..n], view);
      if Selected(l0, account, ids[n]) then Noted(l0.trades[ids[n]], l, account, ids[n], view) else l
  }

  /** A pass that raised does nothing more; what it did before stays. */
  datatype Pass = Pass(ledger: Ledger, raised: bool)

  /** Comparing closings with lots that were never recorded raises. */
  function SettledAll(l0: Ledger, l1: Ledger, account: string, ids: seq<TradeId>, view: View): Pass {
    if ids == [] then Pass(l1, false)
    else
      var n := |ids| - 1;
      var before := SettledAll(l0, l1, account, ids[..n], view);
      if before.raised || !Selected(l0, account, ids[n]) then before
      else
        var row := l0.trades[ids[n]];
        Pass(Settles(row, before.ledger, account, ids[n], view),
             HasClosings(row, before.ledger, ids[n], view) && row.lots.None?)
  }

  /** ids is the selection query's listing; rows are the ones it returned, whatever later updates do. */
  function Reconciled(l: Ledger, account: string, ids: seq<TradeId>, view: View): Pass {
    SettledAll(l, NotedAll(l, account, ids, view), account, ids, view)
  }

  // ---- what reconciliation changes ----

  /** Everything but the states and positions of trades, the links and the read-back rows is kept. */
  ghost predicate OnlyEvidence(l: Ledger, m: Ledger) {
    && m == l.(trades := m.trades, evidence := l.evidence.(links := Links(m)), rows := m.rows)
    && Links(l) <= Links(m) && m.trades.Keys == l.trades.Keys
    && forall id :: id in l.trades ==> SameTrade(l.trades[id], m.trades[id])
  }

  predicate SameTrade(t: Trade, u: Trade) {
    u == t.(state := u.state, positionId := u.positionId)
  }

  /** Only the row of id may differ. */
  ghost predicate OnlyRow(l: Ledger, m: Ledger, id: TradeId) {
    OnlyEvidence(l, m) && forall other :: other in l.trades && other != id ==> m.trades[other] == l.trades[other]
  }

  predicate Opens(row: Trade, view: View) {
    |Related(row, view.positions)| == 1 && row.state != Uncertain
  }

  /** The k-th trade is resolved: it is missing, its position is its own when its turn comes, its history
      covers its lots, and nothing raised before. */
  ghost predicate ResolvesAt(l0: Ledger, l1: Ledger, account: string, ids: seq<TradeId>, view: View, k: nat)
    requires k < |ids|
  {
    var before := SettledAll(l0, l1, account, ids[..k], view);
    && !before.raised && Selected(l0, account, ids[k])
    && HasClosings(l0.trades[ids[k]], before.ledger, ids[k], view) && FullyClosed(l0.trades[ids[k]], view.history)
  }

  ghost predicate ResolvesIn(l0: Ledger, l1: Ledger, account: string, ids: seq<TradeId>, view: View, id: TradeId) {
    exists k :: 0 <= k < |ids| && ids[k] == id && ResolvesAt(l0, l1, account, ids, view, k)
  }

  /** The reconciliation of l resolves the trade. */
  ghost predicate Resolves(l: Ledger, account: string, ids: seq<TradeId>, view: View, id: TradeId) {
    ResolvesIn(l, NotedAll(l, account, ids, view), account, ids, view, id)
  }

  /** Where a reconciliation leaves a trade. */
  ghost function NewState(l: Ledger, account: string, ids: seq<TradeId>, view: View, id: TradeId): TradeState
    requires id in l.trades
  {
    if Resolves(l, account, ids, view, id) then Resolved
    else if id in ids && Selected(l, account, id) && Opens(l.trades[id], view) then Open
    else l.trades[id].state
  }

  lemma NotedKeeps(row: Trade, l: Ledger, account: string, id: TradeId, view: View)
    requires id in l.trades
    ensures var m := Noted(row, l, account, id, view);
            && OnlyRow(l, m, id)
            && m.trades[id].state == if Opens(row, view) then Open else l.trades[id].state
  {
    var open := Related(row, view.positions);
    PositionLinkedAdds(l, id, account, open);
    if |open| == 1 {
      UpdateOnlyRow(ObservePositions(l, id, account, open, view.at), id,
                    NO_CHANGE.(positionId := Some(open[0].id),
                              state := if row.state != Uncertain then Some(Open) else None));
    }
  }

  lemma SettlesKeeps(row: Trade, l: Ledger, account: string, id: TradeId, view: View)
    requires id in l.trades
    ensures var m := Settles(row, l, account, id, view);
            && OnlyEvidence(l, m)
            && m.trades == if HasClosings(row, l, id, view) && FullyClosed(row, view.history)
                           then l.trades[id := l.trades[id].(state := Resolved)] else l.trades
  {
    hide HasClosings;
    hide FullyClosed;
    var recorded := ObserveClosed(l, id, account, Closings(row, view.history), view.at);
    UpdateOnlyRow(recorded, id, NO_CHANGE.(state := Some(Resolved)));
  }

  /** The rows after the first pass; a trade not listed keeps its whole row. */
  ghost predicate AfterNoting(l0: Ledger, m: Ledger, account: string, ids: seq<TradeId>, view: View) {
    && OnlyEvidence(l0, m)
    && forall id :: id in l0.trades ==>
         if id in ids && Selected(l0, account, id)
         then m.trades[id].state == (if Opens(l0.trades[id], view) then Open else l0.trades[id].state)
         else m.trades[id] == l0.trades[id]
  }

  lemma {:induction false} NotedAllKeeps(l0: Ledger, account: string, ids: seq<TradeId>, view: View)
    requires forall i, j :: 0 <= i < j < |ids| ==> ids[i] != ids[j]
    ensures AfterNoting(l0, NotedAll(l0, account, ids, view), account, ids, view)
  {
    if ids != [] {
      var n := |ids| - 1;
      NotedAllKeeps(l0, account, ids[..n], view);
      assert ids == ids[..n] + [ids[n]];
      assert ids[n] !in ids[..n];
      var before := NotedAll(l0, account, ids[..n], view);
      if Selected(l0, account, ids[n]) {
        NotedKeeps(l0.trades[ids[n]], before, account, ids[n], view);
        NotedOneMore(l0, before, Noted(l0.trades[ids[n]], before, account, ids[n], view), account, ids, view);
      } else {
        assert forall id :: id in l0.trades && Selected(l0, account, id) ==> (id in ids <==> id in ids[..n]);
      }
    }
  }

  lemma NotedOneMore(l0: Ledger, m: Ledger, n: Ledger, account: string, ids: seq<TradeId>, view: View)
    requires ids != [] && AfterNoting(l0, m, account, ids[..|ids| - 1], view) && ids[|ids| - 1] !in ids[..|ids| - 1]
    requires Selected(l0, account, ids[|ids| - 1]) && OnlyRow(m, n, ids[|ids| - 1])
    requires var last := ids[|ids| - 1];
             n.trades[last].state == if Opens(l0.trades[last], view) then Open else m.trades[last].state
    ensures AfterNoting(l0, n, account, ids, view)
  {
    hide Opens;
    hide Selected;
    assert ids == ids[..|ids| - 1] + [ids[|ids| - 1]];
    assert OnlyEvidence(m, n);
    EvidenceJoins(l0, m, n);
    hide OnlyEvidence;
  }

  ghost predicate AfterSettling(l0: Ledger, l1: Ledger, m: Ledger, account: string, ids: seq<TradeId>, view: View)
    requires l0.trades.Keys == l1.trades.Keys
  {
    && OnlyEvidence(l1, m)
    && forall id :: id in l0.trades ==>
         m.trades[id] == if ResolvesIn(l0, l1, account, ids, view, id) then l1.trades[id].(state := Resolved)
                         else l1.trades[id]
  }

  lemma EvidenceJoins(l: Ledger, m: Ledger, n: Ledger)
    requires OnlyEvidence(l, m) && OnlyEvidence(m, n)
    ensures OnlyEvidence(l, n) && m.trades.Keys == l.trades.Keys == n.trades.Keys
  {
  }

  lemma SamePrefix(l0: Ledger, l1: Ledger, account: string, ids: seq<TradeId>, view: View, n: nat, k: nat)
    requires k < n <= |ids|
    ensures ids[..n][k] == ids[k]
    ensures ResolvesAt(l0, l1, account, ids[..n], view, k) == ResolvesAt(l0, l1, account, ids, view, k)
  {
    hide HasClosings;
    hide FullyClosed;
    hide Selected;
    assert ids[..n][..k] == ids[..k];
  }

  lemma ResolvesInOneMore(l0: Ledger, l1: Ledger, account: string, ids: seq<TradeId>, view: View, id: TradeId)
    requires ids != []
    ensures var n := |ids| - 1;
            ResolvesIn(l0, l1, account, ids, view, id)
            <==> (ResolvesIn(l0, l1, account, ids[..n], view, id)
                  || (ids[n] == id && ResolvesAt(l0, l1, account, ids, view, n)))
  {
    hide ResolvesAt;
    var n := |ids| - 1;
    forall k | 0 <= k < n
      ensures ids[..n][k] == ids[k]
      ensures ResolvesAt(l0, l1, account, ids[..n], view, k) == ResolvesAt(l0, l1, account, ids, view, k)
    {
      SamePrefix(l0, l1, account, ids, view, n, k);
    }
  }

  lemma SettledOneMore(l0: Ledger, l1: Ledger, account: string, ids: seq<TradeId>, view: View)
    requires ids != [] && l0.trades.Keys == l1.trades.Keys
    requires OnlyEvidence(l1, SettledAll(l0, l1, account, ids[..|ids| - 1], view).ledger)
    ensures var n := |ids| - 1;
            var (before, after) :=
              (SettledAll(l0, l1, account, ids[..n], view).ledger, SettledAll(l0, l1, account, ids, view).ledger);
            && OnlyEvidence(l1, after)
            && after.trades == if ResolvesAt(l0, l1, account, ids, view, n)
                               then before.trades[ids[n] := before.trades[ids[n]].(state := Resolved)]
                               else before.trades
  {
    SettledStep(l0, l1, account, ids, view);
    hide SettledAll;
    hide HasClosings;
    hide FullyClosed;
    hide Settles;
    var n := |ids| - 1;
    var before := SettledAll(l0, l1, account, ids[..n], view);
    if !before.raised && Selected(l0, account, ids[n]) {
      hide Selected;
      var (row, l) := (l0.trades[ids[n]], before.ledger);
      var after := Settles(row, l, account, ids[n], view);
      SettlesKeeps(row, l, account, ids[n], view);
      EvidenceJoins(l1, l, after);
      hide OnlyEvidence;
    }
  }

  lemma SettledStep(l0: Ledger, l1: Ledger, account: string, ids: seq<TradeId>, view: View)
    requires ids != []
    ensures var n := |ids| - 1;
            var before := SettledAll(l0, l1, account, ids[..n], view);
            SettledAll(l0, l1, account, ids, view).ledger
            == if Selected(l0, account, ids[n]) && !before.raised
               then Settles(l0.trades[ids[n]], before.ledger, account, ids[n], view) else before.ledger
  {
    hide Settles;
    hide HasClosings;
    hide Selected;
  }

  lemma {:induction false} SettledAllKeeps(l0: Ledger, l1: Ledger, account: string, ids: seq<TradeId>, view: View)
    requires l0.trades.Keys == l1.trades.Keys
    ensures AfterSettling(l0, l1, SettledAll(l0, l1, account, ids, view).ledger, account, ids, view)
  {
    hide ResolvesAt;
    if ids == [] {
      assert forall id :: !ResolvesIn(l0, l1, account, ids, view, id);
    } else {
      var n := |ids| - 1;
      SettledAllKeeps(l0, l1, account, ids[..n], view);
      SettledOneMore(l0, l1, account, ids, view);
      forall id | id in l0.trades
        ensures ResolvesIn(l0, l1, account, ids, view, id)
                <==> (ResolvesIn(l0, l1, account, ids[..n], view, id)
                      || (ids[n] == id && ResolvesAt(l0, l1, account, ids, view, n)))
      {
        ResolvesInOneMore(l0, l1, account, ids, view, id);
      }
      hide ResolvesIn;
      hide SettledAll;
      hide OnlyEvidence;
    }
  }

  /** What a reconciliation does to every trade, exactly: it becomes resolved only when the broker listed no
      single open position for it, its order is not pending, its position is no other trade's, and the closed
      history of that very position covers its lots; it becomes open only when exactly one position is listed
      and it was not uncertain; otherwise its state stays. Observed, resolved and unlisted trades keep their rows. */
  lemma ReconciliationIsSound(l: Ledger, account: string, ids: seq<TradeId>, view: View)
    requires forall i, j :: 0 <= i < j < |ids| ==> ids[i] != ids[j]
    ensures var m := Reconciled(l, account, ids, view).ledger;
            && OnlyEvidence(l, m)
            && (forall id :: id in l.trades ==> m.trades[id].state == NewState(l, account, ids, view, id))
            && (forall id :: id in l.trades && !(id in ids && Selected(l, account, id)) ==>
                m.trades[id] == l.trades[id])
  {
    var noted := NotedAll(l, account, ids, view);
    NotedAllKeeps(l, account, ids, view);
    SettledAllKeeps(l, noted, account, ids, view);
    forall id | Resolves(l, account, ids, view, id) ensures id in ids && Selected(l, account, id) {
    }
    hide ResolvesIn;
    hide Opens;
    hide Selected;
  }

  lemma {:induction false} SettlingOnlyLinks(l0: Ledger, l1: Ledger, account: string, ids: seq<TradeId>, view: View)
    requires l0.trades.Keys == l1.trades.Keys
    ensures Links(l1) <= Links(SettledAll(l0, l1, account, ids, view).ledger)
  {
    SettledAllKeeps(l0, l1, account, ids, view);
  }

  /** Resolving a trade takes its whole lots, closed in the history of a position it shares with no other. */
  lemma ResolvedOnlyWhenGone(l: Ledger, account: string, ids: seq<TradeId>, view: View, id: TradeId)
    requires Resolves(l, account, ids, view, id)
    requires forall i, j :: 0 <= i < j < |ids| ==> ids[i] != ids[j]
    ensures id in ids && Selected(l, account, id) && IsMissing(l.trades[id], view)
    ensures FullyClosed(l.trades[id], view.history)
    ensures Unshared(Links(NotedAll(l, account, ids, view)), id)
  {
    var noted := NotedAll(l, account, ids, view);
    var k :| 0 <= k < |ids| && ids[k] == id && ResolvesAt(l, noted, account, ids, view, k);
    NotedAllKeeps(l, account, ids, view);
    SettlingOnlyLinks(l, noted, account, ids[..k], view);
    UnsharedWasUnshared(Links(noted), Links(SettledAll(l, noted, account, ids[..k], view).ledger), id);
  }
}
