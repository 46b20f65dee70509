/** What was handled once stays handled: after any run, with any restarts in it, an event delivered again is
    answered from the record and sends nothing, and a trade sent once is not sent again. */
module Redelivery {
  import opened Wrappers
  import opened Events
  import opened Identity
  import opened Journal
  import opened Attempts
  import opened Protocol
  import M = ManualSend
  import Router

  /** An event stays on record as it was recorded. */
  lemma RecordedForever(s: System, steps: seq<Step>, e: Event, row: EventRow, again: Event, newId: TradeId)
    requires EventKey(e.machine, e.eventId) in s.ledger.events && s.ledger.events[EventKey(e.machine, e.eventId)] == row
    requires row.event == e && EventKey(again.machine, again.eventId) == EventKey(e.machine, e.eventId)
    ensures Record(Run(s, steps).ledger, again, newId) == if again == e then Duplicate(row) else Conflict
  {
    RunGrows(s, steps);
    hide Run;
    AnsweredFromRecord(Run(s, steps).ledger, e, row, again, newId);
  }

  /** After any run, a recorded event delivered again is answered from the record and changes nothing, and a
      reuse of its id for other data is refused and changes nothing. */
  lemma RedeliveryNeverRecordsTwice(s: System, steps: seq<Step>, l: Ledger, e: Event, newId: TradeId, again: Event,
                                    newId': TradeId)
    requires Record(l, e, newId).Recorded? && s.ledger == Record(l, e, newId).ledger
    requires EventKey(again.machine, again.eventId) == EventKey(e.machine, e.eventId)
    ensures Record(Run(s, steps).ledger, again, newId')
         == if again == e then Duplicate(Record(l, e, newId).row) else Conflict
  {
    RecordKeepsEvents(l, e, newId);
    RecordedRowIsTheEvent(l, e, newId);
    RecordedForever(s, steps, e, Record(l, e, newId).row, again, newId');
  }

  lemma RecordedRowIsTheEvent(l: Ledger, e: Event, newId: TradeId)
    requires Record(l, e, newId).Recorded?
    ensures Record(l, e, newId).row.event == e
  {
    hide WithTrade;
    hide Applied;
    hide Identified;
  }

  /** After any run, an event the router received once is never dispatched again, whatever the broker and
      the settings are by then. */
  lemma RedeliveryNeverSends(s: System, steps: seq<Step>, l: Ledger, e: Event, newId: TradeId, newId': TradeId,
                             before: Router.Settings, now: int, view: Router.View, answer: Answer,
                             after: Router.Settings, later: int, view': Router.View, answer': Answer, account: string)
    requires Record(l, e, newId).Recorded?
    requires s.ledger == Router.Received(before, l, e, newId, account, now, view, answer).ledger
    ensures var m := Run(s, steps).ledger;
            var again := Router.Received(after, m, e, newId', account, later, view', answer');
            again.sent == [] && again.ledger == m
  {
    hide Router.Dispatched;
    hide WithTrade;
    hide Applied;
    hide Identified;
    var recorded := Record(l, e, newId);
    RecordKeepsEvents(l, e, newId);
    RecordedRowIsTheEvent(l, e, newId);
    Router.DispatchKeepsEvents(before, recorded.ledger, recorded.row.trade, e, account, now, view, answer);
    RunGrows(s, steps);
    hide Run;
    Router.RecordedIsNotDispatched(after, Run(s, steps).ledger, e, newId', account, later, view', answer');
  }

  /** After any run, a trade that was sent once, on paper or live, is never sent again by hand. */
  lemma SentStaysSent(s: System, steps: seq<Step>, l: Ledger, id: TradeId, o: M.Order, o': M.Order,
                      found: M.Evidence, found': M.Evidence, instruments: Option<seq<Instrument>>,
                      instruments': Option<seq<Instrument>>, answer: Answer, answer': Answer)
    requires !M.Send(l, id, o, found, instruments, answer).NotSent?
    requires s.ledger == M.After(l, M.Send(l, id, o, found, instruments, answer))
    ensures M.Send(Run(s, steps).ledger, id, o', found', instruments', answer').NotSent?
  {
    hide M.Send;
    hide Run;
    M.SendIsNoted(l, id, o, found, instruments, answer);
    RunGrows(s, steps);
    AlreadySentStays(s.ledger, Run(s, steps).ledger, id);
    M.NotedIsNotSent(Run(s, steps).ledger, id, o', found', instruments', answer');
  }

  lemma AlreadySentStays(l: Ledger, m: Ledger, id: TradeId)
    requires Grows(l, m) && M.AlreadySent(l, id)
    ensures M.AlreadySent(m, id)
  {
    if k :| k in l.attempts.Keys && k.trade == id {
      assert k in m.attempts.Keys;
    }
  }
}
