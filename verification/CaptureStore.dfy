/** store.py: the journal as the object the program holds. Every method is one transaction, and is
    specified by the table function of module Journal it carries out. */
module CaptureStore {
  import opened Wrappers
  import opened Events
  import opened Identity
  import opened Journal
  import F = Fills
  import O = Observations

  class Store {
    const broker: string
    var trades: map<TradeId, Trade>
    var sources: map<SourceKey, TradeId>
    var events: map<EventKey, EventRow>
    var attempts: map<AttemptKey, AttemptState>
    var history: map<AttemptKey, HistoryRow>
    var fills: F.FillTable
    var links: set<Link>
    var rows: O.Table
    var papers: set<TradeId>

    function Snapshot(): Ledger
      reads this
    {
      Ledger(broker, trades, sources, events, attempts, history, F.Evidence(fills, links), rows, papers)
    }

    /** Opening a journal: what was in flight when the process stopped becomes uncertain. */
    constructor (l: Ledger)
      ensures Snapshot() == Recover(l)
    {
      broker := l.broker;
      sources, events, papers := l.sources, l.events, l.papers;
      fills, links, rows := l.evidence.fills, l.evidence.links, l.rows;
      trades := map id | id in l.trades ::
        if l.trades[id].state == Dispatching then l.trades[id].(state := Uncertain) else l.trades[id];
      attempts := map k | k in l.attempts :: if l.attempts[k] == InFlight then Unverified else l.attempts[k];
      history := map k | k in l.history ::
        if l.history[k].outcome == InFlight then l.history[k].(outcome := Unverified) else l.history[k];
    }

    method AddLink(l: Link)
      modifies this`links
      ensures links == Linked(old(links), l)
    {
      if l.native != "" {
        links := links + {l};
      }
    }

    method Record(e: Event, newId: TradeId) returns (r: Recording)
      modifies this
      ensures r == Journal.Record(old(Snapshot()), e, newId)
      ensures Snapshot() == if r.Recorded? then r.ledger else old(Snapshot())
    {
      hide TradeOf;
      hide SourceEvidence;
      hide Touched;
      var key := EventKey(e.machine, e.eventId);
      if key in events {
        if events[key].event == e {
          return Duplicate(events[key]);
        }
        return Conflict;
      }
      var before := Snapshot();
      var known := TradeOf(before, e);
      var id := known;
      if known.None? && e.orderId != "" {
        id := Some(newId);
      }
      if id.Some? && (id.value in trades || known.None?) {
        var evidence := SourceEvidence(before.evidence, id.value, e);
        if evidence.Refused? {
          return Conflict;
        }
        if known.None? {
          trades := trades[newId := NewTrade(e)];
          sources := sources[SourceKeyOf(e) := newId];
        }
        trades := trades[id.value := Touched(trades[id.value], e)];
        fills, links := evidence.value.fills, evidence.value.links;
      }
      events := events[key := EventRow(e, id)];
      r := Recorded(Snapshot(), events[key]);
    }

    method Claim(id: TradeId, action: string, account: string, request: Request) returns (claimed: bool)
      modifies this`attempts, this`trades, this`history
      ensures claimed <==> Claimable(old(Snapshot()), id, action)
      ensures Snapshot() == if claimed then Journal.Claim(old(Snapshot()), id, action, account, request).value
                            else old(Snapshot())
    {
      if id !in trades || trades[id].state in {Uncertain, Dispatching, Resolved} {
        return false;
      }
      if action == "CREATE" && (trades[id].orderId != "" || trades[id].positionId != "") {
        return false;
      }
      var key := AttemptKey(id, action);
      if key in attempts {
        return false;
      }
      attempts := attempts[key := InFlight];
      trades := trades[id := trades[id].(state := Dispatching)];
      history := history[key := HistoryRow(account, request, InFlight, "", "")];
      claimed := true;
    }

    method Update(id: TradeId, c: Change)
      modifies this`trades, this`links
      ensures Snapshot() == Journal.Update(old(Snapshot()), id, c)
    {
      if id in trades {
        trades := trades[id := Changed(trades[id], c)];
        var t := trades[id];
        if t.destination != "" {
          var scope := DestinationScope(Snapshot(), t.destination);
          AddLink(Link(id, Destination, scope, OrderLink, t.orderId));
          AddLink(Link(id, Destination, scope, PositionLink, t.positionId));
        }
      }
    }

    method Finish(id: TradeId, action: string, outcome: AttemptState)
      modifies this`attempts, this`history
      ensures Snapshot() == Journal.Finish(old(Snapshot()), id, action, outcome)
    {
      if id !in trades {
        return;
      }
      var key := AttemptKey(id, action);
      if key in attempts {
        attempts := attempts[key := outcome];
      }
      if key in history {
        history := history[key := FinishedRow(history[key], trades[id], outcome)];
      }
    }

    method ObservePositions(id: TradeId, account: string, positions: seq<Position>, at: int)
      modifies this`links, this`rows
      ensures Snapshot() == Journal.ObservePositions(old(Snapshot()), id, account, positions, at)
    {
      var before := Snapshot();
      var scope := DestinationScope(before, account);
      for i := 0 to |positions|
        invariant links == PositionLinked(before, id, account, positions[..i])
        invariant rows == O.PositionsObserved(before.rows, id, scope, positions[..i], at)
      {
        assert positions[..i + 1][..i] == positions[..i];
        AddLink(Link(id, Destination, scope, PositionLink, positions[i].id));
        rows := O.Observed(rows, O.OpenKey(id, scope, positions[i]), O.OpenDelivery(positions[i], at));
      }
      assert positions[..|positions|] == positions;
    }

    method ObserveClosed(id: TradeId, account: string, closed: seq<ClosedTrade>, at: int)
      modifies this`rows
      ensures Snapshot() == Journal.ObserveClosed(old(Snapshot()), id, account, closed, at)
    {
      var before := Snapshot();
      var scope := DestinationScope(before, account);
      for i := 0 to |closed|
        invariant rows == O.ClosedObserved(before.rows, id, scope, closed[..i], at)
      {
        assert closed[..i + 1][..i] == closed[..i];
        rows := O.Observed(rows, O.ClosedKey(id, scope, closed[i]), O.ClosedDelivery(closed[i], at));
      }
      assert closed[..|closed|] == closed;
    }

    method NotePaper(id: TradeId)
      modifies this`papers
      ensures Snapshot() == old(Snapshot()).(papers := old(papers) + {id})
    {
      papers := papers + {id};
    }
  }
}
