/** DurableOutbox.cs with store.py record: the sender's directory of waiting events and the journal that
    receives them. One step is one thing the sender, the network or the receiver does; the process may
    stop and start again between any two. */
module Outbox {
  import opened Wrappers
  import opened Decimals
  import opened Events
  import opened Identity
  import F = Fills
  import J = Journal

  /** The waiting files by the sequence number in their names. */
  type Directory = map<nat, Event>

  /** The numbers a directory listing gives, in ascending order. */
  predicate IsLowest(files: Directory, n: nat) {
    n in files && forall m :: m in files ==> n <= m
  }

  predicate IsHighest(files: Directory, n: nat) {
    (forall m :: m in files ==> m <= n) && (n in files || n == 0)
  }

  /** An event made durable, and the number it was filed under. */
  datatype Filed = Filed(number: nat, event: Event)

  /** `persisted`, `gone` and `recorded` are history: all events ever made durable, in order; how many of
      their files were deleted; the sender's events the journal recorded, in order. `posted` and `answered`
      are the requests and answers ever on the network, any of which may still arrive. */
  datatype System = System(
    machine: string, maxPending: nat, files: Directory, sequence: nat, sending: Option<nat>,
    posted: set<Event>, answered: set<string>, ledger: J.Ledger,
    ghost persisted: seq<Filed>, ghost gone: nat, ghost recorded: seq<Event>)

  datatype Step =
    | Enqueue(event: Event)
    | FailedWrite
    | Pick(number: nat)
    | Post
    | Receive(event: Event, newId: string)
    | Answer(eventId: string)
    | GiveUp
    | Restart(highest: nat)
    | Elsewhere(ledger: J.Ledger)

  /** What the sender promises of its events: its own machine name, and an id used for no other event. */
  ghost predicate New(s: System, e: Event) {
    e.machine == s.machine && forall i :: 0 <= i < |s.persisted| ==> s.persisted[i].event.eventId != e.eventId
  }

  /** An identity that occurs nowhere in the journal, as a newly drawn one. */
  ghost predicate IsNew(l: J.Ledger, id: TradeId) {
    && id !in l.trades
    && (forall k :: k in l.evidence.fills ==> l.evidence.fills[k].trade != id)
    && (forall k :: k in J.Links(l) ==> k.trade != id)
    && (forall k :: k in l.sources ==> l.sources[k] != id)
  }

  predicate OfMachine(machine: string, scope: Scope) {
    |scope| > 0 && scope[0] == machine
  }

  /** What the rest of the program does to the journal meanwhile (other senders' events, dispatches,
      reconciliations, restarts) leaves what this sender's events left in it: its events, its orders' trades,
      its fills and its source links. A trade that appears is a new one. */
  ghost predicate LeavesSender(machine: string, l: J.Ledger, m: J.Ledger) {
    && (forall k: J.EventKey :: k.machine == machine ==>
          (k in m.events <==> k in l.events) && (k in m.events ==> m.events[k] == l.events[k]))
    && (forall k: J.SourceKey :: OfMachine(machine, k) ==>
          (k in m.sources <==> k in l.sources) && (k in m.sources ==> m.sources[k] == l.sources[k]))
    && (forall k: F.FillKey :: k.side == Source && OfMachine(machine, k.scope) ==>
          (k in m.evidence.fills <==> k in l.evidence.fills)
          && (k in m.evidence.fills ==> m.evidence.fills[k] == l.evidence.fills[k]))
    && (forall k: Link :: k.side == Source && OfMachine(machine, k.scope) ==> (k in J.Links(m) <==> k in J.Links(l)))
    && l.trades.Keys <= m.trades.Keys && forall id :: id in m.trades && id !in l.trades ==> IsNew(l, id)
  }

  ghost function Received(s: System, e: Event, newId: string): System {
    match J.Record(s.ledger, e, newId)
    case Conflict => s
    case Duplicate(_) => s.(answered := s.answered + {e.eventId})
    case Recorded(ledger, _) =>
      s.(ledger := ledger, answered := s.answered + {e.eventId}, recorded := s.recorded + [e])
  }

  ghost function Deleted(s: System): System
    requires s.sending.Some?
  {
    s.(files := s.files - {s.sending.value}, sending := None, gone := s.gone + 1)
  }

  /** None: the step cannot happen now. */
  ghost function Next(s: System, step: Step): Option<System> {
    match step
    case Enqueue(e) =>
      if |s.files| >= s.maxPending then Some(s)
      else if !New(s, e) then None
      else Some(s.(sequence := s.sequence + 1, files := s.files[s.sequence + 1 := e],
                   persisted := s.persisted + [Filed(s.sequence + 1, e)]))
    case FailedWrite => Some(s.(sequence := s.sequence + 1))
    case Pick(n) => if s.sending.None? && IsLowest(s.files, n) then Some(s.(sending := Some(n))) else None
    case Post =>
      if s.sending.Some? && s.sending.value in s.files then Some(s.(posted := s.posted + {s.files[s.sending.value]}))
      else None
    case Receive(e, newId) => if e in s.posted && IsNew(s.ledger, newId) then Some(Received(s, e, newId)) else None
    case Answer(id) =>
      if s.sending.Some? && s.sending.value in s.files && id in s.answered
      then Some(if s.files[s.sending.value].eventId == id then Deleted(s) else s.(sending := None)) else None
    case GiveUp => Some(s.(sending := None))
    case Restart(highest) =>
      if IsHighest(s.files, highest) then Some(s.(sending := None, sequence := highest)) else None
    case Elsewhere(ledger) => if LeavesSender(s.machine, s.ledger, ledger) then Some(s.(ledger := ledger)) else None
  }

  ghost function Run(s: System, steps: seq<Step>): Option<System> {
    if steps == [] then Some(s)
    else
      match Run(s, steps[..|steps| - 1])
      case None => None
      case Some(t) => Next(t, steps[|steps| - 1])
  }

  ghost predicate Initial(s: System) {
    && s.files == map[] && s.sending == None && s.posted == {} && s.answered == {}
    && s.persisted == [] && s.gone == 0 && s.recorded == []
    && forall key :: key in s.ledger.events ==> key.machine != s.machine
  }

  // ---- what every step keeps ----

  function KeyOf(e: Event): J.EventKey {
    J.EventKey(e.machine, e.eventId)
  }

  ghost predicate HasNumber(waiting: seq<Filed>, n: nat) {
    exists i :: 0 <= i < |waiting| && waiting[i].number == n
  }

  /** The files are exactly the waiting events, numbered in the order they came. */
  ghost predicate Queued(files: Directory, waiting: seq<Filed>) {
    && (forall i :: 0 <= i < |waiting| ==> waiting[i].number in files && files[waiting[i].number] == waiting[i].event)
    && (forall i, j :: 0 <= i < j < |waiting| ==> waiting[i].number < waiting[j].number)
    && (forall n :: n in files ==> HasNumber(waiting, n))
  }

  lemma QueueGrows(files: Directory, waiting: seq<Filed>, f: Filed)
    requires Queued(files, waiting) && forall i :: 0 <= i < |waiting| ==> waiting[i].number < f.number
    ensures Queued(files[f.number := f.event], waiting + [f])
  {
    var longer := waiting + [f];
    forall n | n in files[f.number := f.event] ensures HasNumber(longer, n) {
      if n == f.number {
        assert longer[|waiting|].number == n;
      } else {
        assert HasNumber(waiting, n);
        var i :| 0 <= i < |waiting| && waiting[i].number == n;
        assert longer[i].number == n;
      }
    }
  }

  lemma QueueShrinks(files: Directory, waiting: seq<Filed>)
    requires Queued(files, waiting) && waiting != []
    ensures Queued(files - {waiting[0].number}, waiting[1..])
  {
    forall n | n in files && n != waiting[0].number ensures HasNumber(waiting[1..], n) {
      assert HasNumber(waiting, n);
      var i :| 0 <= i < |waiting| && waiting[i].number == n;
      assert waiting[1..][i - 1].number == n;
    }
  }

  lemma LowestIsFirst(files: Directory, waiting: seq<Filed>, n: nat)
    requires Queued(files, waiting) && IsLowest(files, n)
    ensures waiting != [] && waiting[0].number == n
  {
    assert HasNumber(waiting, n);
    var i :| 0 <= i < |waiting| && waiting[i].number == n;
    assert waiting[0].number in files;
    assert i == 0;
  }

  ghost predicate WasTried(s: System, e: Event) {
    exists i :: 0 <= i <= s.gone && i < |s.persisted| && s.persisted[i].event == e
  }

  ghost predicate WasRecorded(s: System, id: string) {
    exists i :: 0 <= i < |s.recorded| && s.recorded[i].eventId == id
  }

  ghost predicate InJournal(s: System, e: Event) {
    KeyOf(e) in s.ledger.events && s.ledger.events[KeyOf(e)].event == e
  }

  /** What was not deleted yet waits in the directory, and the first of it is what is being sent. */
  ghost predicate InOrder(s: System) {
    && s.gone <= |s.persisted| && Queued(s.files, s.persisted[s.gone..])
    && (forall i :: s.gone <= i < |s.persisted| ==> s.persisted[i].number <= s.sequence)
    && (s.sending.Some? ==> s.gone < |s.persisted| && s.sending.value == s.persisted[s.gone].number)
  }

  ghost predicate Distinct(s: System) {
    && (forall i :: 0 <= i < |s.persisted| ==> s.persisted[i].event.machine == s.machine)
    && (forall i, j :: 0 <= i < j < |s.persisted| ==> s.persisted[i].event.eventId != s.persisted[j].event.eventId)
  }

  /** The journal is at the event being sent, or just past it; it knows no other event of the sender. */
  ghost predicate UpToDate(s: System) {
    && s.gone <= |s.recorded| <= s.gone + 1 && |s.recorded| <= |s.persisted|
    && (forall i :: 0 <= i < |s.recorded| ==> s.recorded[i] == s.persisted[i].event && InJournal(s, s.recorded[i]))
    && (forall key :: key in s.ledger.events && key.machine == s.machine ==> WasRecorded(s, key.id))
  }

  ghost predicate OnNetwork(s: System) {
    && (forall e :: e in s.posted ==> WasTried(s, e))
    && (forall id :: id in s.answered ==> WasRecorded(s, id))
  }

  ghost predicate Kept(s: System) {
    InOrder(s) && Distinct(s) && UpToDate(s) && OnNetwork(s)
  }

  lemma EnqueueKeepsInOrder(s: System, e: Event)
    requires InOrder(s) && |s.files| < s.maxPending && New(s, e)
    ensures InOrder(Next(s, Enqueue(e)).value)
  {
    var f := Filed(s.sequence + 1, e);
    QueueGrows(s.files, s.persisted[s.gone..], f);
    assert (s.persisted + [f])[s.gone..] == s.persisted[s.gone..] + [f];
    hide Queued;
  }

  lemma EnqueueKeepsDistinct(s: System, t: System, f: Filed)
    requires Distinct(s) && New(s, f.event) && t.machine == s.machine && t.persisted == s.persisted + [f]
    ensures Distinct(t)
  {
  }

  lemma PersistedGrows(s: System, t: System, f: Filed)
    requires UpToDate(s) && OnNetwork(s) && s.gone <= |s.persisted|
    requires t == s.(files := t.files, sequence := t.sequence, persisted := s.persisted + [f])
    ensures UpToDate(t) && OnNetwork(t)
  {
    assert forall id :: WasRecorded(s, id) ==> WasRecorded(t, id);
    assert forall e :: InJournal(s, e) ==> InJournal(t, e);
    forall e | WasTried(s, e) ensures WasTried(t, e) {
      var i :| 0 <= i <= s.gone && i < |s.persisted| && s.persisted[i].event == e;
      assert t.persisted[i].event == e;
    }
  }

  lemma EnqueueKeeps(s: System, e: Event)
    requires Kept(s) && |s.files| < s.maxPending && New(s, e)
    ensures Kept(Next(s, Enqueue(e)).value)
  {
    var t, f := Next(s, Enqueue(e)).value, Filed(s.sequence + 1, e);
    EnqueueKeepsInOrder(s, e);
    EnqueueKeepsDistinct(s, t, f);
    assert s.gone <= |s.persisted|;
    PersistedGrows(s, t, f);
  }

  lemma RecordedIsBefore(s: System, i: nat)
    requires Distinct(s) && UpToDate(s) && i < |s.persisted| && WasRecorded(s, s.persisted[i].event.eventId)
    ensures i < |s.recorded|
  {
    var j :| 0 <= j < |s.recorded| && s.recorded[j].eventId == s.persisted[i].event.eventId;
    assert s.recorded[j] == s.persisted[j].event;
    assert j == i;
  }

  /** The receiver sees the sender's events in order: one that it does not know is the next one. */
  lemma PostedIsKnownOrNext(s: System, e: Event)
    requires Distinct(s) && UpToDate(s) && OnNetwork(s) && e in s.posted
    ensures if KeyOf(e) in s.ledger.events then s.ledger.events[KeyOf(e)].event == e && WasRecorded(s, e.eventId)
            else |s.recorded| == s.gone < |s.persisted| && e == s.persisted[s.gone].event
  {
    assert WasTried(s, e);
    var i :| 0 <= i <= s.gone && i < |s.persisted| && s.persisted[i].event == e;
    assert s.persisted[i].event.machine == s.machine;
    if KeyOf(e) in s.ledger.events {
      RecordedIsBefore(s, i);
    }
    if i < |s.recorded| {
      assert InJournal(s, s.recorded[i]);
    }
  }

  lemma RecordTouchesOneKey(l: J.Ledger, e: Event, newId: string)
    ensures var r := J.Record(l, e, newId);
            && (KeyOf(e) in l.events && l.events[KeyOf(e)].event == e <==> r.Duplicate?)
            && (r.Recorded? ==>
                  && KeyOf(e) !in l.events && r.row.event == e
                  && r.ledger.events == l.events[KeyOf(e) := r.row])
  {
    hide J.WithTrade;
    hide J.Applied;
    hide J.Identified;
  }

  lemma ReceiveKeeps(s: System, e: Event, newId: string)
    requires Kept(s) && e in s.posted
    ensures Kept(Received(s, e, newId))
  {
    hide J.Record;
    hide InOrder;
    hide Distinct;
    hide UpToDate;
    hide OnNetwork;
    var t := Received(s, e, newId);
    PostedIsKnownOrNext(s, e);
    RecordTouchesOneKey(s.ledger, e, newId);
    OnlyJournalMoves(s, t);
    match J.Record(s.ledger, e, newId) {
      case Recorded(_, _) => RecordedGrows(s, t, e);
      case Duplicate(_) => AnsweredAgain(s, t, e);
      case Conflict =>
    }
  }

  lemma AnsweredAgain(s: System, t: System, e: Event)
    requires UpToDate(s) && OnNetwork(s) && WasRecorded(s, e.eventId)
    requires t == s.(answered := s.answered + {e.eventId})
    ensures UpToDate(t) && OnNetwork(t)
  {
    assert forall f :: WasTried(s, f) ==> WasTried(t, f);
    assert forall id :: WasRecorded(s, id) ==> WasRecorded(t, id);
    assert forall f :: InJournal(s, f) ==> InJournal(t, f);
    hide WasTried;
    hide WasRecorded;
    hide InJournal;
  }

  lemma OnlyJournalMoves(s: System, t: System)
    requires t == s.(ledger := t.ledger, answered := t.answered, recorded := t.recorded)
    requires InOrder(s) && Distinct(s)
    ensures InOrder(t) && Distinct(t)
  {
    hide Queued;
  }

  lemma RecordedGrows(s: System, t: System, e: Event)
    requires UpToDate(s) && OnNetwork(s) && |s.recorded| == s.gone < |s.persisted| && e == s.persisted[s.gone].event
    requires KeyOf(e) !in s.ledger.events && InJournal(t, e)
    requires t.ledger.events == s.ledger.events[KeyOf(e) := t.ledger.events[KeyOf(e)]]
    requires t == s.(ledger := t.ledger, answered := s.answered + {e.eventId}, recorded := s.recorded + [e])
    ensures UpToDate(t) && OnNetwork(t)
  {
    assert t.recorded[|s.recorded|] == e;
    forall id | WasRecorded(s, id) ensures WasRecorded(t, id) {
      var i :| 0 <= i < |s.recorded| && s.recorded[i].eventId == id;
      assert t.recorded[i] == s.recorded[i];
    }
    assert WasRecorded(t, e.eventId);
    forall i | 0 <= i < |t.recorded| ensures t.recorded[i] == t.persisted[i].event && InJournal(t, t.recorded[i]) {
      if i < |s.recorded| {
        assert InJournal(s, s.recorded[i]);
      }
    }
    forall f | f in t.posted ensures WasTried(t, f) {
      assert WasTried(s, f);
    }
  }

  /** An answer naming the event being sent means the journal has it: only then is its file deleted. */
  lemma AnsweredIsRecorded(s: System, id: string)
    requires Kept(s) && s.sending.Some? && s.sending.value in s.files && id in s.answered
    requires s.files[s.sending.value].eventId == id
    ensures |s.recorded| == s.gone + 1
  {
    assert WasRecorded(s, id);
    var i :| 0 <= i < |s.recorded| && s.recorded[i].eventId == id;
    assert s.recorded[i] == s.persisted[i].event;
    assert s.persisted[s.gone..][0] == s.persisted[s.gone];
    assert s.files[s.sending.value] == s.persisted[s.gone].event;
    assert i == s.gone;
  }

  lemma DeleteKeepsInOrder(s: System)
    requires InOrder(s) && s.sending.Some?
    ensures InOrder(Deleted(s))
  {
    QueueShrinks(s.files, s.persisted[s.gone..]);
    assert s.persisted[s.gone..][1..] == s.persisted[s.gone + 1..];
    hide Queued;
  }

  lemma DeleteKeeps(s: System, id: string)
    requires Kept(s) && s.sending.Some? && s.sending.value in s.files && id in s.answered
    requires s.files[s.sending.value].eventId == id
    ensures Kept(Deleted(s))
  {
    hide Queued;
    var t := Deleted(s);
    AnsweredIsRecorded(s, id);
    DeleteKeepsInOrder(s);
    TriedStays(s, t);
    OnlyFilesMove(s, t);
  }

  lemma TriedStays(s: System, t: System)
    requires OnNetwork(s) && t.persisted == s.persisted && t.posted == s.posted && s.gone <= t.gone
    ensures forall e :: e in t.posted ==> WasTried(t, e)
  {
    forall e | e in t.posted ensures WasTried(t, e) {
      assert WasTried(s, e);
      var j :| 0 <= j <= s.gone && j < |s.persisted| && s.persisted[j].event == e;
      assert t.persisted[j].event == e;
    }
  }

  lemma OnlyFilesMove(s: System, t: System)
    requires t == s.(files := t.files, sending := t.sending, sequence := t.sequence, gone := t.gone)
    requires UpToDate(s) && t.gone <= |s.recorded| <= t.gone + 1
    ensures UpToDate(t) && forall id :: WasRecorded(s, id) ==> WasRecorded(t, id)
  {
    assert forall e :: InJournal(s, e) ==> InJournal(t, e);
  }

  lemma PickKeeps(s: System, n: nat)
    requires Kept(s) && s.sending.None? && IsLowest(s.files, n)
    ensures Kept(s.(sending := Some(n)))
  {
    var t := s.(sending := Some(n));
    LowestIsFirst(s.files, s.persisted[s.gone..], n);
    SameButSending(s, t);
  }

  lemma SameButSending(s: System, t: System)
    requires Kept(s) && t == s.(sending := t.sending, sequence := t.sequence)
    requires t.sending.Some? ==> t.gone < |t.persisted| && t.sending.value == t.persisted[t.gone].number
    requires forall i :: s.gone <= i < |s.persisted| ==> s.persisted[i].number <= t.sequence
    ensures Kept(t)
  {
    hide Queued;
    OnlyFilesMove(s, t);
    assert forall e :: WasTried(s, e) ==> WasTried(t, e);
  }

  lemma PostKeeps(s: System)
    requires Kept(s) && s.sending.Some? && s.sending.value in s.files
    ensures Kept(Next(s, Post).value)
  {
    var t := Next(s, Post).value;
    assert s.persisted[s.gone..][0] == s.persisted[s.gone];
    hide Queued;
    hide J.Record;
    assert WasTried(t, s.files[s.sending.value]);
    assert forall e :: WasTried(s, e) ==> WasTried(t, e);
    OnlyPostedMoves(s, t);
    assert InOrder(t);
    hide InOrder;
    hide WasTried;
    hide UpToDate;
    hide Distinct;
  }

  lemma OnlyPostedMoves(s: System, t: System)
    requires UpToDate(s) && Distinct(s) && t == s.(posted := t.posted)
    ensures UpToDate(t) && Distinct(t) && forall id :: WasRecorded(s, id) ==> WasRecorded(t, id)
  {
    assert forall e :: InJournal(s, e) ==> InJournal(t, e);
  }

  lemma ElsewhereKeeps(s: System, ledger: J.Ledger)
    requires Kept(s) && Next(s, Elsewhere(ledger)).Some?
    ensures Kept(Next(s, Elsewhere(ledger)).value)
  {
    var t := Next(s, Elsewhere(ledger)).value;
    OnlyJournalMoves(s, t);
    hide InOrder;
    assert forall id :: WasRecorded(s, id) ==> WasRecorded(t, id);
    assert forall e :: WasTried(s, e) ==> WasTried(t, e);
    forall i | 0 <= i < |t.recorded| ensures t.recorded[i] == t.persisted[i].event && InJournal(t, t.recorded[i]) {
      assert InJournal(s, s.recorded[i]) && s.persisted[i].event.machine == s.machine;
    }
  }

  lemma NextKeeps(s: System, step: Step)
    requires Kept(s) && Next(s, step).Some?
    ensures Kept(Next(s, step).value)
  {
    var t := Next(s, step).value;
    hide Kept;
    match step
    case Enqueue(e) =>
      if |s.files| < s.maxPending {
        EnqueueKeeps(s, e);
      }
    case Pick(n) => PickKeeps(s, n);
    case Post => PostKeeps(s);
    case Receive(e, newId) => ReceiveKeeps(s, e, newId);
    case Answer(id) =>
      if s.files[s.sending.value].eventId == id {
        DeleteKeeps(s, id);
      } else {
        StoppingKeeps(s, s.sequence);
      }
    case Restart(highest) => RestartKeeps(s, highest);
    case Elsewhere(ledger) => ElsewhereKeeps(s, ledger);
    case FailedWrite => CountingKeeps(s);
    case GiveUp => StoppingKeeps(s, s.sequence);
  }

  lemma CountingKeeps(s: System)
    requires Kept(s)
    ensures Kept(s.(sequence := s.sequence + 1))
  {
    SameButSending(s, s.(sequence := s.sequence + 1));
  }

  lemma StoppingKeeps(s: System, sequence: nat)
    requires Kept(s) && s.sequence <= sequence
    ensures Kept(s.(sending := None, sequence := sequence))
  {
    SameButSending(s, s.(sending := None, sequence := sequence));
  }

  /** A restart counts on from the files it finds. */
  lemma RestartKeeps(s: System, highest: nat)
    requires Kept(s) && IsHighest(s.files, highest)
    ensures Kept(Next(s, Restart(highest)).value)
  {
    SameButSending(s, s.(sending := None, sequence := highest));
  }

  lemma {:induction false} RunKeeps(s: System, steps: seq<Step>)
    requires Kept(s) && Run(s, steps).Some?
    ensures Kept(Run(s, steps).value)
  {
    hide Next;
    hide Kept;
    if steps != [] {
      RunKeeps(s, steps[..|steps| - 1]);
      NextKeeps(Run(s, steps[..|steps| - 1]).value, steps[|steps| - 1]);
    }
  }

  // ---- exactly once, in order ----

  function EventsOf(filed: seq<Filed>): seq<Event> {
    seq(|filed|, i requires 0 <= i < |filed| => filed[i].event)
  }

  /** In every run, through lost answers, late and repeated requests and restarts: the journal holds the
      sender's events in the order they were made durable, each once and no other; every deleted file
      was recorded, and at most one recorded file still waits; the rest still waits, in order. */
  lemma ExactlyOnceInOrder(start: System, steps: seq<Step>)
    requires Initial(start) && Run(start, steps).Some?
    ensures var s := Run(start, steps).value;
            && s.gone <= |s.recorded| <= s.gone + 1
            && s.recorded <= EventsOf(s.persisted)
            && (forall i, j :: 0 <= i < j < |s.recorded| ==> s.recorded[i] != s.recorded[j])
            && (forall key :: key in s.ledger.events && key.machine == s.machine ==>
                  s.ledger.events[key].event in s.recorded)
            && (forall e :: e in s.recorded ==> KeyOf(e) in s.ledger.events && s.ledger.events[KeyOf(e)].event == e)
            && s.gone <= |s.persisted|
            && s.files.Values == (set f | f in s.persisted[s.gone..] :: f.event)
  {
    var s := Run(start, steps).value;
    assert Kept(start);
    RunKeeps(start, steps);
    forall e ensures e in s.files.Values <==> e in (set f | f in s.persisted[s.gone..] :: f.event) {
      WaitingIs(s, e);
    }
    forall i, j | 0 <= i < j < |s.recorded| ensures s.recorded[i] != s.recorded[j] {
      assert s.persisted[i].event.eventId != s.persisted[j].event.eventId;
    }
  }

  lemma WaitingIs(s: System, e: Event)
    requires InOrder(s)
    ensures e in s.files.Values <==> exists f :: f in s.persisted[s.gone..] && f.event == e
  {
    var waiting := s.persisted[s.gone..];
    if n :| n in s.files && s.files[n] == e {
      assert HasNumber(waiting, n);
      var i :| 0 <= i < |waiting| && waiting[i].number == n;
      assert waiting[i] in waiting;
    }
    if f :| f in waiting && f.event == e {
      var i :| 0 <= i < |waiting| && waiting[i] == f;
      assert f.number in s.files;
    }
  }

  // ---- progress ----

  lemma RunSnoc(s: System, steps: seq<Step>, step: Step)
    ensures Run(s, steps + [step]) == (if Run(s, steps).Some? then Next(Run(s, steps).value, step) else None)
  {
    assert (steps + [step])[..|steps|] == steps;
  }

  /** One exchange with a receiver that answers. */
  function Exchange(n: nat, e: Event, newId: string): seq<Step> {
    [] + [Pick(n)] + [Post] + [Receive(e, newId)] + [Answer(e.eventId)]
  }

  ghost function Sending(s: System, n: nat): System
    requires n in s.files
  {
    s.(sending := Some(n), posted := s.posted + {s.files[n]})
  }

  lemma ExchangeUnrolls(s: System, n: nat, newId: string)
    requires s.sending.None? && IsLowest(s.files, n) && IsNew(s.ledger, newId)
    ensures Run(s, Exchange(n, s.files[n], newId))
         == Next(Received(Sending(s, n), s.files[n], newId), Answer(s.files[n].eventId))
  {
    hide J.Record;
    var e := s.files[n];
    RunSnoc(s, [], Pick(n));
    RunSnoc(s, [] + [Pick(n)], Post);
    assert Next(s, Pick(n)).value.(posted := s.posted + {e}) == Sending(s, n);
    RunSnoc(s, [] + [Pick(n)] + [Post], Receive(e, newId));
    RunSnoc(s, [] + [Pick(n)] + [Post] + [Receive(e, newId)], Answer(e.eventId));
  }

  lemma SendingKeeps(s: System, n: nat)
    requires Kept(s) && s.sending.None? && IsLowest(s.files, n)
    ensures Kept(Sending(s, n))
  {
    PickKeeps(s, n);
    PostKeeps(s.(sending := Some(n)));
    assert Next(s.(sending := Some(n)), Post).value == Sending(s, n);
  }

  lemma AnsweredIsDeleted(s: System, e: Event)
    requires Kept(s) && s.sending.Some? && s.sending.value in s.files && s.files[s.sending.value] == e
    requires e.eventId in s.answered
    ensures Next(s, Answer(e.eventId)) == Some(Deleted(s)) && |s.recorded| == s.gone + 1
  {
    AnsweredIsRecorded(s, e.eventId);
  }

  // ---- what the journal refuses ----

  function FillKeyOf(e: Event): F.FillKey {
    F.FillKey(Source, e.Scope(), e.executionId)
  }

  /** The event is a fill of an execution the journal already has, with other data, for a trade of its own. */
  predicate Contradicts(l: J.Ledger, e: Event) {
    && e.kind == FillSeen && e.executionId != "" && FillKeyOf(e) in l.evidence.fills
    && match J.TradeOf(l, e)
       case None => e.orderId != ""
       case Some(id) => id in l.trades && !F.SameExecution(l.evidence.fills[FillKeyOf(e)], J.FillOf(id, e))
  }

  lemma EvidenceRefused(evidence: F.Evidence, id: TradeId, e: Event)
    ensures J.SourceEvidence(evidence, id, e).Refused?
            <==> e.kind == FillSeen && e.executionId != "" && FillKeyOf(e) in evidence.fills
                 && !F.SameExecution(evidence.fills[FillKeyOf(e)], J.FillOf(id, e))
  {
    hide F.SameExecution;
  }

  /** An event the journal does not know is refused exactly if it contradicts a fill on record. */
  lemma RefusedIff(l: J.Ledger, e: Event, newId: TradeId)
    requires IsNew(l, newId) && KeyOf(e) !in l.events
    ensures J.Record(l, e, newId) == J.Conflict <==> Contradicts(l, e)
  {
    hide F.SameExecution;
    hide J.TradeOf;
    hide J.SourceEvidence;
    var id := J.Identified(l, e, newId);
    if id.Some? {
      EvidenceRefused(l.evidence, id.value, e);
    }
    if id == Some(newId) && J.TradeOf(l, e).None? && FillKeyOf(e) in l.evidence.fills {
      OtherTradeIsOther(l.evidence.fills[FillKeyOf(e)], J.FillOf(newId, e));
    }
  }

  lemma OtherTradeIsOther(row: F.Fill, f: F.Fill)
    requires row.trade != f.trade
    ensures !F.SameExecution(row, f)
  {
  }

  /** One undisturbed exchange records the first waiting event, if it was not, and deletes its file, exactly
      if the event is on record or contradicts no fill on record. */
  lemma AnExchangeDeliversTheFirst(s: System, n: nat, newId: string)
    requires Kept(s) && s.sending.None? && IsLowest(s.files, n) && IsNew(s.ledger, newId)
    ensures var e, t := s.files[n], Run(s, Exchange(n, s.files[n], newId));
            && (t.Some? <==> KeyOf(e) in s.ledger.events || !Contradicts(s.ledger, e))
            && (t.Some? ==> t.value == Deleted(Received(Sending(s, n), e, newId)) && Kept(t.value)
                            && |t.value.recorded| == s.gone + 1)
  {
    hide J.Record;
    hide Run;
    hide Kept;
    hide Next;
    hide Contradicts;
    var e, sent := s.files[n], Sending(s, n);
    hide IsLowest;
    var received := Received(sent, e, newId);
    ExchangeUnrolls(s, n, newId);
    SendingKeeps(s, n);
    ReceiveKeeps(sent, e, newId);
    RecordedUnlessRefused(sent, e, newId);
    if J.Record(s.ledger, e, newId) != J.Conflict {
      AnsweredIsDeleted(received, e);
      DeleteKeeps(received, e.eventId);
    } else {
      RefusedIsUnanswered(sent, e, newId);
      UnansweredIsNoStep(received, e);
    }
  }

  lemma RecordedUnlessRefused(s: System, e: Event, newId: TradeId)
    requires Kept(s) && e in s.posted && IsNew(s.ledger, newId)
    ensures J.Record(s.ledger, e, newId) != J.Conflict <==> KeyOf(e) in s.ledger.events || !Contradicts(s.ledger, e)
  {
    PostedIsKnownOrNext(s, e);
    hide Kept;
    RecordTouchesOneKey(s.ledger, e, newId);
    if KeyOf(e) !in s.ledger.events {
      RefusedIff(s.ledger, e, newId);
    }
  }

  lemma UnansweredIsNoStep(s: System, e: Event)
    requires e.eventId !in s.answered
    ensures Next(s, Answer(e.eventId)).None?
  {
  }

  /** What the journal refuses it never recorded, so no answer for it is on the network. */
  lemma RefusedIsUnanswered(s: System, e: Event, newId: string)
    requires Kept(s) && e in s.posted && J.Record(s.ledger, e, newId) == J.Conflict
    ensures e.eventId !in s.answered
  {
    PostedIsKnownOrNext(s, e);
    RecordTouchesOneKey(s.ledger, e, newId);
    hide InOrder;
    if WasRecorded(s, e.eventId) {
      RecordedIsBefore(s, s.gone);
    }
  }

  // ---- a refused event stays in front for good ----

  /** The next event contradicts a fill on record. */
  ghost predicate Blocked(s: System) {
    && s.gone < |s.persisted| && |s.recorded| == s.gone
    && KeyOf(s.persisted[s.gone].event) !in s.ledger.events && Contradicts(s.ledger, s.persisted[s.gone].event)
  }

  lemma OwnersStay(machine: string, l: J.Ledger, m: J.Ledger, e: Event)
    requires LeavesSender(machine, l, m) && e.machine == machine
    ensures (set t | t in Owners(J.Links(l), Source, e.Scope(), e.positionId) && t in l.trades)
         == (set t | t in Owners(J.Links(m), Source, e.Scope(), e.positionId) && t in m.trades)
  {
    forall t | t in Owners(J.Links(m), Source, e.Scope(), e.positionId) && t in m.trades
      ensures t in l.trades && t in Owners(J.Links(l), Source, e.Scope(), e.positionId)
    {
      assert Link(t, Source, e.Scope(), PositionLink, e.positionId) in J.Links(m);
      assert Link(t, Source, e.Scope(), PositionLink, e.positionId) in J.Links(l);
    }
    forall t | t in Owners(J.Links(l), Source, e.Scope(), e.positionId) && t in l.trades
      ensures t in Owners(J.Links(m), Source, e.Scope(), e.positionId)
    {
      assert Link(t, Source, e.Scope(), PositionLink, e.positionId) in J.Links(l);
      assert Link(t, Source, e.Scope(), PositionLink, e.positionId) in J.Links(m);
    }
  }

  lemma TradeOfStays(machine: string, l: J.Ledger, m: J.Ledger, e: Event)
    requires LeavesSender(machine, l, m) && e.machine == machine
    ensures J.TradeOf(m, e) == J.TradeOf(l, e)
  {
    if e.orderId == "" {
      OwnersStay(machine, l, m, e);
    } else {
      assert OfMachine(machine, J.SourceKeyOf(e));
    }
    hide Owners;
  }

  lemma ContradictionStays(machine: string, l: J.Ledger, m: J.Ledger, e: Event)
    requires LeavesSender(machine, l, m) && e.machine == machine
    ensures Contradicts(l, e) ==> Contradicts(m, e)
    ensures KeyOf(e) in m.events <==> KeyOf(e) in l.events
  {
    TradeOfStays(machine, l, m, e);
    hide J.TradeOf;
    hide F.SameExecution;
    assert OfMachine(machine, FillKeyOf(e).scope);
  }

  lemma BlockedReceives(s: System, e: Event, newId: TradeId)
    requires Kept(s) && Blocked(s) && e in s.posted && IsNew(s.ledger, newId)
    ensures var t := Received(s, e, newId);
            t == s.(answered := t.answered)
  {
    PostedIsKnownOrNext(s, e);
    hide Kept;
    RecordTouchesOneKey(s.ledger, e, newId);
    if KeyOf(e) !in s.ledger.events {
      RefusedIff(s.ledger, e, newId);
    }
    hide J.Record;
    hide Contradicts;
  }

  lemma NextKeepsBlocked(s: System, step: Step)
    requires Kept(s) && Blocked(s) && Next(s, step).Some?
    ensures var t := Next(s, step).value;
            Blocked(t) && t.gone == s.gone && t.recorded == s.recorded && s.persisted <= t.persisted
  {
    hide J.Record;
    match step
    case Receive(e, newId) => BlockedReceives(s, e, newId);
    case Answer(id) =>
      if s.files[s.sending.value].eventId == id {
        AnsweredIsRecorded(s, id);
      }
    case Elsewhere(ledger) => ContradictionStays(s.machine, s.ledger, ledger, s.persisted[s.gone].event);
    case _ =>
  }

  /** Whatever happens after, such an event is never recorded and its file never deleted, and so neither is
      any behind it. */
  lemma {:induction false} BlockedForever(s: System, steps: seq<Step>)
    requires Kept(s) && Blocked(s) && Run(s, steps).Some?
    ensures var t := Run(s, steps).value;
            && Blocked(t) && t.gone == s.gone && t.recorded == s.recorded && s.persisted <= t.persisted
            && forall i :: s.gone <= i < |s.persisted| ==> s.persisted[i].event in t.files.Values
  {
    hide Next;
    hide Blocked;
    hide Kept;
    if steps == [] {
      WaitingFilesStay(s, s);
    } else {
      var front := steps[..|steps| - 1];
      BlockedForever(s, front);
      RunKeeps(s, front);
      NextKeepsBlocked(Run(s, front).value, steps[|steps| - 1]);
      RunKeeps(s, steps);
      WaitingFilesStay(s, Run(s, steps).value);
    }
  }

  lemma WaitingFilesStay(s: System, t: System)
    requires Kept(t) && t.gone == s.gone && s.persisted <= t.persisted
    ensures forall i :: s.gone <= i < |s.persisted| ==> s.persisted[i].event in t.files.Values
  {
    forall i | s.gone <= i < |s.persisted| ensures s.persisted[i].event in t.files.Values {
      var waiting := t.persisted[t.gone..];
      assert waiting[i - s.gone] == t.persisted[i] == s.persisted[i];
      assert t.files[waiting[i - s.gone].number] == s.persisted[i].event;
    }
  }

  // ---- and otherwise the directory empties ----

  ghost function Waiting(s: System): seq<Event>
    requires s.gone <= |s.persisted|
  {
    EventsOf(s.persisted[s.gone..])
  }

  /** The journal after an event. */
  function Taken(l: J.Ledger, e: Event, newId: TradeId): J.Ledger {
    match J.Record(l, e, newId)
    case Recorded(ledger, _) => ledger
    case _ => l
  }

  /** One new identity for each event. */
  ghost predicate AllNew(l: J.Ledger, events: seq<Event>, ids: seq<TradeId>)
    decreases |events|
  {
    && |ids| == |events|
    && (events != [] ==> IsNew(l, ids[0]) && AllNew(Taken(l, events[0], ids[0]), events[1..], ids[1..]))
  }

  /** No event, when its turn comes, is new and contradicts a fill on record. */
  ghost predicate NoneContradicts(l: J.Ledger, events: seq<Event>, ids: seq<TradeId>)
    requires |ids| == |events|
    decreases |events|
  {
    events != [] ==>
      && (KeyOf(events[0]) in l.events || !Contradicts(l, events[0]))
      && NoneContradicts(Taken(l, events[0], ids[0]), events[1..], ids[1..])
  }

  /** As many exchanges as there are identities, each with the first waiting event. */
  ghost function Exchanges(s: System, ids: seq<TradeId>): Option<System>
    requires s.gone + |ids| <= |s.persisted|
    decreases |ids|
  {
    if ids == [] then Some(s)
    else
      match Exchanged(s, ids[0])
      case None => None
      case Some(t) => if t.gone + |ids| - 1 <= |t.persisted| then Exchanges(t, ids[1..]) else None
  }

  lemma FirstIsLowest(s: System)
    requires Kept(s) && s.gone < |s.persisted|
    ensures var f := s.persisted[s.gone]; IsLowest(s.files, f.number) && s.files[f.number] == f.event
  {
    var waiting := s.persisted[s.gone..];
    assert waiting[0] == s.persisted[s.gone];
    forall m | m in s.files ensures waiting[0].number <= m {
      assert HasNumber(waiting, m);
    }
  }

  /** The exchange of the first waiting event. */
  ghost function Exchanged(s: System, id: TradeId): Option<System>
    requires s.gone < |s.persisted|
  {
    Run(s, Exchange(s.persisted[s.gone].number, s.persisted[s.gone].event, id))
  }

  lemma NextExchange(s: System, id: TradeId)
    requires Kept(s) && s.sending.None? && s.gone < |s.persisted| && IsNew(s.ledger, id)
    ensures var e, t := Waiting(s)[0], Exchanged(s, id);
            && (t.Some? <==> KeyOf(e) in s.ledger.events || !Contradicts(s.ledger, e))
            && (t.Some? ==>
                  && Kept(t.value) && t.value.sending.None? && t.value.gone == s.gone + 1
                  && t.value.persisted == s.persisted && t.value.ledger == Taken(s.ledger, e, id)
                  && Waiting(t.value) == Waiting(s)[1..])
  {
    hide Run;
    hide J.Record;
    hide Contradicts;
    hide Exchange;
    hide Kept;
    var f := s.persisted[s.gone];
    FirstIsLowest(s);
    hide IsLowest;
    AnExchangeDeliversTheFirst(s, f.number, id);
    hide IsNew;
    assert Waiting(s)[0] == f.event;
    if Exchanged(s, id).Some? {
      assert Waiting(Exchanged(s, id).value) == Waiting(s)[1..];
    }
  }

  /** N exchanges empty a directory of N files exactly if no waiting event, when its turn comes, is new and
      contradicts a fill on record. */
  lemma {:induction false} ExchangesEmptyTheDirectoryIff(s: System, ids: seq<TradeId>)
    requires Kept(s) && s.sending.None? && |ids| == |s.persisted| - s.gone && AllNew(s.ledger, Waiting(s), ids)
    ensures Exchanges(s, ids).Some? <==> NoneContradicts(s.ledger, Waiting(s), ids)
    ensures Exchanges(s, ids).Some? ==> Exchanges(s, ids).value.files == map[]
    decreases |ids|
  {
    hide Next;
    hide Run;
    hide J.Record;
    hide Contradicts;
    hide IsNew;
    hide Exchange;
    hide Kept;
    hide Taken;
    hide IsLowest;
    if ids == [] {
      EmptyWhenAllGone(s);
    } else {
      NextExchange(s, ids[0]);
      hide Exchanged;
      if Exchanged(s, ids[0]).Some? {
        ExchangesEmptyTheDirectoryIff(Exchanged(s, ids[0]).value, ids[1..]);
      }
    }
  }

  lemma EmptyWhenAllGone(s: System)
    requires Kept(s) && s.gone == |s.persisted|
    ensures s.files == map[]
  {
    assert s.persisted[s.gone..] == [];
    assert forall n :: n in s.files ==> HasNumber([], n);
  }

  // ---- a directory that never empties ----

  /** Two reports of one execution that disagree on the quantity. */
  predicate Disagree(machine: string, e: Event, f: Event) {
    && e.machine == machine && e.kind == FillSeen && e.executionId != "" && e.orderId != ""
    && f == e.(eventId := f.eventId, quantity := f.quantity)
    && f.eventId != e.eventId && Value(f.quantity) != Value(e.quantity)
  }

  lemma DisagreeingFillContradicts(l: J.Ledger, machine: string, e: Event, f: Event, newId: TradeId)
    requires Disagree(machine, e, f) && KeyOf(e) !in l.events && IsNew(l, newId)
    requires J.SourceKeyOf(e) !in l.sources && FillKeyOf(e) !in l.evidence.fills
    ensures !Contradicts(l, e) && J.Record(l, e, newId).Recorded? && Contradicts(J.Record(l, e, newId).ledger, f)
  {
    RefusedIff(l, e, newId);
    RecordTouchesOneKey(l, e, newId);
    var m := J.Record(l, e, newId).ledger;
    assert J.TradeOf(l, e) == None;
    assert m.sources == l.sources[J.SourceKeyOf(e) := newId];
    assert J.TradeOf(m, f) == Some(newId) && newId in m.trades;
    assert m.evidence.fills[FillKeyOf(f)] == J.FillOf(newId, e);
  }

  /** Both are made durable, the first is delivered, and the second waits for good. */
  lemma AFillCanStayForGood(s: System, e: Event, f: Event, newId: TradeId) returns (steps: seq<Step>)
    requires Initial(s) && s.maxPending >= 2 && Disagree(s.machine, e, f) && IsNew(s.ledger, newId)
    requires J.SourceKeyOf(e) !in s.ledger.sources && FillKeyOf(e) !in s.ledger.evidence.fills
    ensures Run(s, steps).Some? && Kept(Run(s, steps).value) && Blocked(Run(s, steps).value)
    ensures f in Run(s, steps).value.files.Values
  {
    hide J.Record;
    hide Contradicts;
    hide IsNew;
    var both := [] + [Enqueue(e)] + [Enqueue(f)];
    RunSnoc(s, [], Enqueue(e));
    var s1 := Next(s, Enqueue(e)).value;
    assert s1.persisted == [Filed(s.sequence + 1, e)];
    RunSnoc(s, [] + [Enqueue(e)], Enqueue(f));
    var s2 := Next(s1, Enqueue(f)).value;
    assert s2.persisted == [Filed(s.sequence + 1, e), Filed(s.sequence + 2, f)];
    assert Kept(s);
    RunKeeps(s, both);
    steps := both + Exchange(s.sequence + 1, e, newId);
    RunsJoin(s, both, Exchange(s.sequence + 1, e, newId));
    SecondIsBlocked(s2, e, f, newId);
    RunKeeps(s, steps);
    WaitingFilesStay(Run(s, steps).value, Run(s, steps).value);
  }

  lemma SecondIsBlocked(s: System, e: Event, f: Event, newId: TradeId)
    requires Kept(s) && s.gone == 0 && s.sending.None? && |s.persisted| == 2 && |s.recorded| == 0
    requires s.persisted[0].event == e && s.persisted[1].event == f
    requires Disagree(s.machine, e, f) && IsNew(s.ledger, newId) && KeyOf(e) !in s.ledger.events
    requires J.SourceKeyOf(e) !in s.ledger.sources && FillKeyOf(e) !in s.ledger.evidence.fills
    ensures Exchanged(s, newId).Some? && Kept(Exchanged(s, newId).value)
    ensures var t := Exchanged(s, newId).value; Blocked(t) && t.persisted == s.persisted && t.gone == 1
  {
    NextExchange(s, newId);
    DisagreeingFillContradicts(s.ledger, s.machine, e, f, newId);
    RecordTouchesOneKey(s.ledger, e, newId);
    hide J.Record;
    hide Contradicts;
    hide Exchange;
    hide Run;
    assert Waiting(s)[0] == e;
    var t := Exchanged(s, newId).value;
    OneDeletedOneRecorded(t);
    assert !WasRecorded(s, f.eventId);
  }

  /** With one file deleted, and not yet sending, the journal is at the next event or past it. */
  lemma OneDeletedOneRecorded(t: System)
    requires Kept(t)
    ensures t.gone <= |t.recorded| <= t.gone + 1
    ensures t.gone < |t.persisted| && KeyOf(t.persisted[t.gone].event) !in t.ledger.events ==> |t.recorded| == t.gone
  {
    if |t.recorded| == t.gone + 1 {
      assert t.recorded[t.gone] == t.persisted[t.gone].event && InJournal(t, t.recorded[t.gone]);
    }
  }

  lemma {:induction false} RunsJoin(s: System, a: seq<Step>, b: seq<Step>)
    requires Run(s, a).Some?
    ensures Run(s, a + b) == Run(Run(s, a).value, b)
  {
    hide Next;
    if b == [] {
      assert a + b == a;
    } else {
      var n := |b| - 1;
      RunsJoin(s, a, b[..n]);
      assert (a + b)[..|a| + n] == a + b[..n];
    }
  }

  // ---- the object the adapter holds ----

  datatype Health = Ready | Full | ReceiverHttp(status: int) | Acknowledged

  /** What a POST comes back with: nothing, another status than 202, or 202 naming an event id if any. */
  datatype Reply = Unreachable | Status(status: int) | Named(eventId: Option<string>)

  class DurableOutbox {
    const maxPending: nat
    var files: Directory
    var sequence: nat
    var health: Health

    /** Counting goes on from the highest number among the files found. */
    constructor (directory: Directory, maxPending: nat)
      ensures files == directory && this.maxPending == maxPending && IsHighest(directory, sequence) && health == Ready
    {
      this.maxPending, files, health := maxPending, directory, Ready;
      sequence := 0;
      new;
      var rest := directory.Keys;
      while rest != {}
        invariant rest <= directory.Keys && files == directory && this.maxPending == maxPending && health == Ready
        invariant sequence in directory || sequence == 0
        invariant forall n :: n in directory && n !in rest ==> n <= sequence
        decreases rest
      {
        var n :| n in rest;
        if n > sequence {
          sequence := n;
        }
        rest := rest - {n};
      }
    }

    method Enqueue(item: Event) returns (r: Result<nat>)
      modifies this
      ensures if |old(files)| >= maxPending
              then r.Refused? && files == old(files) && sequence == old(sequence) && health == Full
              else r == Ok(old(sequence) + 1) && sequence == old(sequence) + 1
                   && files == old(files)[sequence := item] && health == old(health)
    {
      if |files| >= maxPending {
        health := Full;
        return Refused("outbox full");
      }
      sequence := sequence + 1;
      files := files[sequence := item];
      r := Ok(sequence);
    }

    method First() returns (n: nat)
      requires files != map[]
      ensures IsLowest(files, n)
    {
      n :| n in files;
      var rest := files.Keys - {n};
      while rest != {}
        invariant n in files && rest <= files.Keys
        invariant forall m :: m in files && m !in rest ==> n <= m
        decreases rest
      {
        var m :| m in rest;
        if m < n {
          n := m;
        }
        rest := rest - {m};
      }
    }

    /** One turn of the pump; the receiver answers as it will. */
    method PumpOnce(receiver: Event -> Reply) returns (r: Result<bool>, ghost first: nat)
      modifies this
      ensures sequence == old(sequence)
      ensures old(files) == map[] ==> r == Ok(false) && files == map[] && health == old(health)
      ensures old(files) != map[] ==>
                && IsLowest(old(files), first)
                && (r == Ok(true) <==> receiver(old(files)[first]) == Named(Some(old(files)[first].eventId)))
                && (r == Ok(false) <==>
                      receiver(old(files)[first]).Status? && receiver(old(files)[first]).status != 202)
      ensures files == if r == Ok(true) then old(files) - {first} else old(files)
      ensures r == Ok(true) ==> health == Acknowledged
      ensures r.Refused? ==> health == old(health)
    {
      if files == map[] {
        return Ok(false), 0;
      }
      var path := First();
      first := path;
      var reply := receiver(files[path]);
      match reply
      case Unreachable => r := Refused("delivery unavailable");
      case Status(status) =>
        if status != 202 {
          health := ReceiverHttp(status);
          r := Ok(false);
        } else {
          r := Refused("unreadable acknowledgement");
        }
      case Named(eventId) =>
        if eventId != Some(files[path].eventId) {
          r := Refused("mismatched acknowledgement");
        } else {
          files := files - {path};
          health := Acknowledged;
          r := Ok(true);
        }
    }
  }
}
