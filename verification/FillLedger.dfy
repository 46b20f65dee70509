/** The fills of the journal's own ledger, in every run: each row's order and position stay linked to its
    trade, so the totals always split into the linked positions' contributions and the unplaced fills. */
module FillLedger {
  import opened Wrappers
  import opened Events
  import opened Identity
  import opened Journal
  import opened Attempts
  import opened Protocol
  import F = Fills
  import R = Reconcile

  lemma LinkedBacked(e: F.Evidence, links: set<Link>)
    requires F.Backed(e) && e.links <= links && forall l :: l in links ==> l.native != ""
    ensures F.Backed(e.(links := links))
  {
  }

  lemma SourceEvidenceBacked(e: F.Evidence, id: TradeId, event: Event)
    requires F.Backed(e) && SourceEvidence(e, id, event).Ok?
    ensures F.Backed(SourceEvidence(e, id, event).value)
  {
    var ordered := Linked(e.links, Identity.Link(id, Source, event.Scope(), OrderLink, event.orderId));
    var placed := if event.kind in {FillSeen, PositionSeen}
                  then Linked(ordered, Identity.Link(id, Source, event.Scope(), PositionLink, event.positionId))
                  else ordered;
    LinkedBacked(e, placed);
    if event.kind == FillSeen && event.executionId != "" {
      F.FilledKeepsBacked(e.(links := placed), FillOf(id, event));
    }
  }

  lemma RecordBacked(l: Ledger, event: Event, newId: TradeId)
    requires F.Backed(l.evidence) && Record(l, event, newId).Recorded?
    ensures F.Backed(Record(l, event, newId).ledger.evidence)
  {
    hide F.Backed;
    hide SourceEvidence;
    hide TradeOf;
    hide Touched;
    var id, started := Identified(l, event, newId), WithTrade(l, event, newId);
    if id.Some? && id.value in started.trades {
      SourceEvidenceBacked(l.evidence, id.value, event);
    }
  }

  lemma UpdateBacked(l: Ledger, id: TradeId, c: Change)
    requires F.Backed(l.evidence)
    ensures F.Backed(Update(l, id, c).evidence)
  {
    hide Changed;
  }

  lemma {:induction false} ObservedBacked(l: Ledger, id: TradeId, account: string, positions: seq<Position>, at: int)
    requires F.Backed(l.evidence)
    ensures F.Backed(ObservePositions(l, id, account, positions, at).evidence)
  {
    NoBlanksObserved(l, id, account, positions);
    PositionLinkedAdds(l, id, account, positions);
    LinkedBacked(l.evidence, PositionLinked(l, id, account, positions));
  }

  lemma {:induction false} NoBlanksObserved(l: Ledger, id: TradeId, account: string, positions: seq<Position>)
    requires forall k :: k in Links(l) ==> k.native != ""
    ensures forall k :: k in PositionLinked(l, id, account, positions) ==> k.native != ""
  {
    if positions != [] {
      NoBlanksObserved(l, id, account, positions[..|positions| - 1]);
    }
  }

  lemma NotedBacked(row: Trade, l: Ledger, account: string, id: TradeId, view: R.View)
    requires F.Backed(l.evidence)
    ensures F.Backed(R.Noted(row, l, account, id, view).evidence)
  {
    hide F.Backed;
    hide ObservePositions;
    hide Update;
    var open := Related(row, view.positions);
    ObservedBacked(l, id, account, open, view.at);
    if |open| == 1 {
      UpdateBacked(ObservePositions(l, id, account, open, view.at), id, NO_CHANGE.(
        positionId := Some(open[0].id), state := if row.state != Uncertain then Some(Open) else None));
    }
  }

  lemma {:induction false} NotedAllBacked(l: Ledger, account: string, ids: seq<TradeId>, view: R.View)
    requires F.Backed(l.evidence)
    ensures F.Backed(R.NotedAll(l, account, ids, view).evidence)
  {
    hide F.Backed;
    hide R.Noted;
    if ids != [] {
      var n := |ids| - 1;
      NotedAllBacked(l, account, ids[..n], view);
      if R.Selected(l, account, ids[n]) {
        NotedBacked(l.trades[ids[n]], R.NotedAll(l, account, ids[..n], view), account, ids[n], view);
      }
    }
  }

  lemma SettlesBacked(row: Trade, l: Ledger, account: string, id: TradeId, view: R.View)
    requires F.Backed(l.evidence)
    ensures F.Backed(R.Settles(row, l, account, id, view).evidence)
  {
    hide F.Backed;
    hide R.HasClosings;
    hide R.FullyClosed;
    hide R.Closings;
    var recorded := ObserveClosed(l, id, account, R.Closings(row, view.history), view.at);
    UpdateBacked(recorded, id, NO_CHANGE.(state := Some(Resolved)));
    hide Update;
  }

  lemma {:induction false} SettledAllBacked(l0: Ledger, l1: Ledger, account: string, ids: seq<TradeId>, view: R.View)
    requires F.Backed(l1.evidence)
    ensures F.Backed(R.SettledAll(l0, l1, account, ids, view).ledger.evidence)
  {
    hide F.Backed;
    hide R.Settles;
    hide R.HasClosings;
    if ids != [] {
      var n := |ids| - 1;
      SettledAllBacked(l0, l1, account, ids[..n], view);
      if R.Selected(l0, account, ids[n]) {
        SettlesBacked(l0.trades[ids[n]], R.SettledAll(l0, l1, account, ids[..n], view).ledger, account, ids[n], view);
      }
    }
  }

  lemma NextBacked(s: System, step: Step)
    requires F.Backed(s.ledger.evidence)
    ensures F.Backed(Next(s, step).ledger.evidence)
  {
    hide F.Backed;
    hide Update;
    hide Record;
    hide ObservePositions;
    hide R.SettledAll;
    hide R.NotedAll;
    match step
    case Receive(event, newId) =>
      if Record(s.ledger, event, newId).Recorded? {
        RecordBacked(s.ledger, event, newId);
      }
    case Observe(trade, account, positions, at) => ObservedBacked(s.ledger, trade, account, positions, at);
    case NotePosition(trade, position) => UpdateBacked(s.ledger, trade, NO_CHANGE.(positionId := Some(position)));
    case Settle(account, ids, view) =>
      NotedAllBacked(s.ledger, account, ids, view);
      SettledAllBacked(s.ledger, R.NotedAll(s.ledger, account, ids, view), account, ids, view);
    case Paper(_) =>
    case _ => ProcessBacked(s, step);
  }

  lemma ProcessBacked(s: System, step: Step)
    requires F.Backed(s.ledger.evidence) && !IsLedgerStep(step)
    ensures F.Backed(Next(s, step).ledger.evidence)
  {
    hide F.Backed;
    hide Update;
    hide ObservePositions;
    if IsUpdate(step) {
      UpdateStepIs(s, step);
      hide Next;
      if step.pid in s.processes && UpdateOf(s.processes[step.pid], step).Some? {
        UpdateBacked(s.ledger, s.processes[step.pid].trade, UpdateOf(s.processes[step.pid], step).value);
      }
    } else if step.Link? && step.pid in s.processes {
      var p := s.processes[step.pid];
      ObservedBacked(s.ledger, p.trade, p.plan.account, step.positions, step.at);
    }
  }

  lemma {:induction false} RunBacked(s: System, steps: seq<Step>)
    requires F.Backed(s.ledger.evidence)
    ensures F.Backed(Run(s, steps).ledger.evidence)
  {
    hide F.Backed;
    hide Next;
    if steps != [] {
      RunBacked(s, steps[..|steps| - 1]);
      NextBacked(Run(s, steps[..|steps| - 1]), steps[|steps| - 1]);
    }
  }

  /** In every run, a trade's total on the journal's own ledger is what its linked positions contribute plus
      the fills reported without a position. */
  lemma LedgerTotalsAddUp(s: System, steps: seq<Step>, trade: TradeId, side: Side, scope: Scope, effect: Effect)
    requires F.Backed(s.ledger.evidence)
    ensures var e := Run(s, steps).ledger.evidence;
            F.Total(e.fills, F.Matching(e.fills, trade, side, scope, effect))
            == F.Contributions(e.fills, trade, side, scope, effect, F.LinkedPositions(e.links, trade, side, scope))
               + F.Total(e.fills, F.Contributing(e.fills, trade, side, scope, effect, ""))
  {
    RunBacked(s, steps);
    F.TotalIsContributionsPlusUnplaced(Run(s, steps).ledger.evidence, trade, side, scope, effect);
  }
}
