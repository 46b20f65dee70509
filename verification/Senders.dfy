/** What Outbox lets the rest of the program do to the journal is what the program's own steps do to it: no
    dispatch, reconciliation, restart or event of another machine touches what one sender's events left. */
module Senders {
  import opened Wrappers
  import opened Events
  import opened Identity
  import opened Journal
  import opened Attempts
  import opened Protocol
  import F = Fills
  import R = Reconcile
  import Outbox

  /** The source's side of the journal, which only events write. */
  ghost predicate SourceKept(l: Ledger, m: Ledger) {
    && m.events == l.events && m.sources == l.sources && m.evidence.fills == l.evidence.fills
    && m.trades.Keys == l.trades.Keys && SourceLinksKept(Links(l), Links(m))
  }

  ghost predicate SourceLinksKept(before: set<Link>, after: set<Link>) {
    forall k: Link :: k.side == Source ==> (k in before <==> k in after)
  }

  lemma UpdateKeepsSource(l: Ledger, id: TradeId, c: Change)
    ensures SourceKept(l, Update(l, id, c))
  {
    hide Changed;
  }

  lemma {:induction false} ObservingKeepsSourceLinks(l: Ledger, id: TradeId, account: string, positions: seq<Position>)
    ensures SourceLinksKept(Links(l), PositionLinked(l, id, account, positions))
  {
    if positions != [] {
      ObservingKeepsSourceLinks(l, id, account, positions[..|positions| - 1]);
    }
  }

  lemma ObservingKeepsSource(l: Ledger, id: TradeId, account: string, positions: seq<Position>, at: int)
    ensures SourceKept(l, ObservePositions(l, id, account, positions, at))
  {
    ObservingKeepsSourceLinks(l, id, account, positions);
    hide PositionLinked;
  }

  lemma NotedKeepsSource(row: Trade, l: Ledger, account: string, id: TradeId, view: R.View)
    ensures SourceKept(l, R.Noted(row, l, account, id, view))
  {
    hide ObservePositions;
    hide Update;
    var open := Related(row, view.positions);
    var linked := ObservePositions(l, id, account, open, view.at);
    ObservingKeepsSource(l, id, account, open, view.at);
    if |open| == 1 {
      UpdateKeepsSource(linked, id, NO_CHANGE.(positionId := Some(open[0].id),
                                               state := if row.state != Uncertain then Some(Open) else None));
    }
  }

  lemma {:induction false} NotedAllKeepsSource(l: Ledger, account: string, ids: seq<TradeId>, view: R.View)
    ensures SourceKept(l, R.NotedAll(l, account, ids, view))
  {
    hide R.Noted;
    if ids != [] {
      var n := |ids| - 1;
      NotedAllKeepsSource(l, account, ids[..n], view);
      if R.Selected(l, account, ids[n]) {
        NotedKeepsSource(l.trades[ids[n]], R.NotedAll(l, account, ids[..n], view), account, ids[n], view);
      }
    }
  }

  lemma SettlesKeepsSource(row: Trade, l: Ledger, account: string, id: TradeId, view: R.View)
    ensures SourceKept(l, R.Settles(row, l, account, id, view))
  {
    hide R.HasClosings;
    hide R.FullyClosed;
    hide R.Closings;
    var recorded := ObserveClosed(l, id, account, R.Closings(row, view.history), view.at);
    UpdateKeepsSource(recorded, id, NO_CHANGE.(state := Some(Resolved)));
    hide Update;
  }

  lemma {:induction false} SettledAllKeepsSource(l0: Ledger, l1: Ledger, account: string, ids: seq<TradeId>,
                                                 view: R.View)
    ensures SourceKept(l1, R.SettledAll(l0, l1, account, ids, view).ledger)
  {
    hide R.Settles;
    hide R.HasClosings;
    if ids != [] {
      var n := |ids| - 1;
      SettledAllKeepsSource(l0, l1, account, ids[..n], view);
      if R.Selected(l0, account, ids[n]) {
        var before := R.SettledAll(l0, l1, account, ids[..n], view);
        SettlesKeepsSource(l0.trades[ids[n]], before.ledger, account, ids[n], view);
      }
    }
  }

  lemma LedgerStepKeepsSource(s: System, step: Step)
    requires IsLedgerStep(step) && !step.Receive?
    ensures SourceKept(s.ledger, Next(s, step).ledger)
  {
    hide Update;
    hide ObservePositions;
    hide R.SettledAll;
    hide R.NotedAll;
    match step
    case Observe(trade, account, positions, at) => ObservingKeepsSource(s.ledger, trade, account, positions, at);
    case NotePosition(trade, position) =>
      UpdateKeepsSource(s.ledger, trade, NO_CHANGE.(positionId := Some(position)));
    case Settle(account, ids, view) =>
      NotedAllKeepsSource(s.ledger, account, ids, view);
      SettledAllKeepsSource(s.ledger, R.NotedAll(s.ledger, account, ids, view), account, ids, view);
    case _ =>
  }

  lemma ProcessStepKeepsSource(s: System, step: Step)
    requires !IsLedgerStep(step)
    ensures SourceKept(s.ledger, Next(s, step).ledger)
  {
    hide Update;
    hide ObservePositions;
    hide Record;
    hide R.Reconciled;
    assert SourceLinksKept(Links(s.ledger), Links(s.ledger));
    hide SourceLinksKept;
    if IsUpdate(step) {
      UpdateStepIs(s, step);
      hide Next;
      if step.pid in s.processes && UpdateOf(s.processes[step.pid], step).Some? {
        UpdateKeepsSource(s.ledger, s.processes[step.pid].trade, UpdateOf(s.processes[step.pid], step).value);
      }
    } else if step.Link? && step.pid in s.processes {
      var p := s.processes[step.pid];
      ObservingKeepsSource(s.ledger, p.trade, p.plan.account, step.positions, step.at);
    }
  }

  /** What is new in the evidence is of one scope. */
  ghost predicate AddsInScope(before: F.Evidence, after: F.Evidence, scope: Scope) {
    && before.links <= after.links && before.fills.Keys <= after.fills.Keys
    && (forall k :: k in before.fills ==> after.fills[k] == before.fills[k])
    && (forall k :: k in after.links && k !in before.links ==> k.scope == scope)
    && (forall k :: k in after.fills && k !in before.fills ==> k.scope == scope)
  }

  lemma EvidenceOfScope(evidence: F.Evidence, id: TradeId, e: Event)
    requires SourceEvidence(evidence, id, e).Ok?
    ensures AddsInScope(evidence, SourceEvidence(evidence, id, e).value, e.Scope())
  {
  }

  /** The tables an event writes. */
  ghost predicate WritesOf(l: Ledger, m: Ledger, e: Event, row: EventRow, newId: TradeId) {
    && m.events == l.events[EventKey(e.machine, e.eventId) := row]
    && AddsInScope(l.evidence, m.evidence, e.Scope())
    && (m.sources == l.sources || m.sources == l.sources[SourceKeyOf(e) := newId])
    && l.trades.Keys <= m.trades.Keys <= l.trades.Keys + {newId}
  }

  lemma EventTables(l: Ledger, e: Event, newId: TradeId)
    requires Record(l, e, newId).Recorded?
    ensures WritesOf(l, Record(l, e, newId).ledger, e, Record(l, e, newId).row, newId)
  {
    hide TradeOf;
    hide Touched;
    hide SourceEvidence;
    hide AddsInScope;
    RecordKeepsEvents(l, e, newId);
    var id, started := Identified(l, e, newId), WithTrade(l, e, newId);
    if id.Some? && id.value in started.trades {
      EvidenceOfScope(l.evidence, id.value, e);
    } else {
      NothingAdded(l.evidence, e.Scope());
    }
  }

  lemma NothingAdded(evidence: F.Evidence, scope: Scope)
    ensures AddsInScope(evidence, evidence, scope)
  {
  }

  /** Links and fills of another scope are not the sender's. */
  lemma OtherScopeIsOther(machine: string, before: F.Evidence, after: F.Evidence, scope: Scope)
    requires AddsInScope(before, after, scope) && !Outbox.OfMachine(machine, scope)
    ensures forall k: Link :: k.side == Source && Outbox.OfMachine(machine, k.scope) ==>
              (k in after.links <==> k in before.links)
    ensures forall k: F.FillKey :: k.side == Source && Outbox.OfMachine(machine, k.scope) ==>
              (k in after.fills <==> k in before.fills) && (k in after.fills ==> after.fills[k] == before.fills[k])
  {
  }

  lemma OtherWritesLeaveSender(machine: string, l: Ledger, m: Ledger, e: Event, row: EventRow, newId: TradeId)
    requires e.machine != machine && Outbox.IsNew(l, newId) && WritesOf(l, m, e, row, newId)
    ensures Outbox.LeavesSender(machine, l, m)
  {
    hide Outbox.IsNew;
    assert !Outbox.OfMachine(machine, e.Scope()) && !Outbox.OfMachine(machine, SourceKeyOf(e));
    OtherScopeIsOther(machine, l.evidence, m.evidence, e.Scope());
    hide AddsInScope;
    hide Outbox.OfMachine;
  }

  /** Every step of the program but an event of the sender's own machine leaves what the sender's events left. */
  lemma OtherStepsLeaveSender(machine: string, s: System, step: Step)
    requires step.Receive? ==> step.event.machine != machine && Outbox.IsNew(s.ledger, step.newId)
    ensures Outbox.LeavesSender(machine, s.ledger, Next(s, step).ledger)
  {
    hide Outbox.LeavesSender;
    hide SourceKept;
    KeptLeavesSender(machine, s.ledger, s.ledger);
    if step.Receive? {
      if step.newId !in s.ledger.trades && Record(s.ledger, step.event, step.newId).Recorded? {
        EventTables(s.ledger, step.event, step.newId);
        hide Record;
        hide WritesOf;
        var recorded := Record(s.ledger, step.event, step.newId);
        OtherWritesLeaveSender(machine, s.ledger, recorded.ledger, step.event, recorded.row, step.newId);
      }
    } else {
      if IsLedgerStep(step) {
        LedgerStepKeepsSource(s, step);
      } else {
        ProcessStepKeepsSource(s, step);
      }
      hide Next;
      KeptLeavesSender(machine, s.ledger, Next(s, step).ledger);
    }
  }

  lemma KeptLeavesSender(machine: string, l: Ledger, m: Ledger)
    requires SourceKept(l, m) || m == l
    ensures Outbox.LeavesSender(machine, l, m)
  {
  }
}
