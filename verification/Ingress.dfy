/** ws_ingress.py: bounded admission and first-in-first-out dispatch. One step is one stretch of a
    coroutine between two awaits, so every interleaving of readers, worker, writers and shutdown is a run. */
module Ingress {
  import opened Wrappers
  import opened Events

  const OUT_LIMIT := 64

  type ClientId = nat

  datatype Key = Key(machine: string, id: string)

  datatype Message = Ack(eventId: string, duplicate: bool) | Nack(code: string, about: Option<string>) | Ready

  datatype Outgoing = Outgoing(message: Message, release: bool)

  datatype Client = Client(
    machine: string, out: seq<Outgoing>, writing: Option<Outgoing>, inflight: set<string>, closed: bool)

  /** A job is shared: the queue and `pending` both refer to it by its number in `table`. */
  datatype Job = Job(event: Event, waiters: seq<ClientId>)

  /** What running a job came to: a result, a ValueError saying the capture is stopped, another, anything else. */
  datatype Outcome = Processed(duplicate: bool) | RaisedStopped | RaisedValueError | RaisedOther

  datatype Offer = Offer(client: ClientId, job: nat, response: Message)

  /** `table` holds every job ever admitted. History: `responses`, the terminal response of each finished
      job; `offers`, the terminal responses offered; `asked`, which client had which job admitted. */
  datatype Server = Server(
    queueLimit: nat, maxInflight: nat, accepting: bool, stopping: bool, sentinel: bool, ended: bool,
    jobs: seq<Option<nat>>, pending: map<Key, nat>, table: seq<Job>, current: Option<nat>,
    clients: map<ClientId, Client>,
    responses: seq<Message>, offers: seq<Offer>, asked: set<(ClientId, nat)>)

  function KeyOf(e: Event): Key {
    Key(e.machine, e.eventId)
  }

  // ---- offering ----

  function Offered(clients: map<ClientId, Client>, c: ClientId, o: Outgoing): map<ClientId, Client> {
    if c !in clients || clients[c].closed then clients
    else if |clients[c].out| >= OUT_LIMIT then clients[c := clients[c].(closed := true)]
    else clients[c := clients[c].(out := clients[c].out + [o])]
  }

  function OfferedToAll(clients: map<ClientId, Client>, waiters: seq<ClientId>, o: Outgoing): map<ClientId, Client> {
    if waiters == [] then clients
    else Offered(OfferedToAll(clients, waiters[..|waiters| - 1], o), waiters[|waiters| - 1], o)
  }

  function Rejected(s: Server, c: ClientId, code: string, id: Option<string>): Server {
    s.(clients := Offered(s.clients, c, Outgoing(Nack(code, id), false)))
  }

  // ---- admission ----

  function StillOpen(clients: map<ClientId, Client>, waiters: seq<ClientId>): seq<ClientId> {
    if waiters == [] then []
    else
      var c := waiters[|waiters| - 1];
      StillOpen(clients, waiters[..|waiters| - 1]) + (if c in clients && clients[c].closed then [] else [c])
  }

  function Joined(clients: map<ClientId, Client>, waiters: seq<ClientId>, c: ClientId): seq<ClientId> {
    if c in waiters then waiters else StillOpen(clients, waiters) + [c]
  }

  function WithInflight(s: Server, c: ClientId, id: string): map<ClientId, Client>
    requires c in s.clients
  {
    s.clients[c := s.clients[c].(inflight := s.clients[c].inflight + {id})]
  }

  function Admitted(s: Server, c: ClientId, e: Event, running: bool): Server
    requires c in s.clients && forall k :: k in s.pending ==> s.pending[k] < |s.table|
  {
    var key, id := KeyOf(e), e.eventId;
    if !s.accepting || !running then Rejected(s, c, "capture_stopped", Some(id))
    else if |s.clients[c].inflight| >= s.maxInflight && id !in s.clients[c].inflight
    then Rejected(s, c, "busy", Some(id))
    else if key in s.pending then
      var n := s.pending[key];
      var job := s.table[n];
      if job.event != e then Rejected(s, c, "identity_conflict", Some(id))
      else s.(table := s.table[n := job.(waiters := Joined(s.clients, job.waiters, c))],
              clients := WithInflight(s, c, id), asked := s.asked + {(c, n)})
    else if |s.jobs| >= s.queueLimit then Rejected(s, c, "busy", Some(id))
    else s.(pending := s.pending[key := |s.table|], table := s.table + [Job(e, [c])],
            jobs := s.jobs + [Some(|s.table|)], clients := WithInflight(s, c, id), asked := s.asked + {(c, |s.table|)})
  }

  // ---- the worker ----

  function OffersOf(waiters: seq<ClientId>, job: nat, response: Message): seq<Offer> {
    seq(|waiters|, i requires 0 <= i < |waiters| => Offer(waiters[i], job, response))
  }

  function Completed(s: Server, job: nat, response: Message): Server
    requires job < |s.table|
  {
    var waiters := s.table[job].waiters;
    s.(pending := s.pending - {KeyOf(s.table[job].event)}, current := None,
       clients := OfferedToAll(s.clients, waiters, Outgoing(response, true)),
       responses := s.responses + [response], offers := s.offers + OffersOf(waiters, job, response))
  }

  function Response(e: Event, o: Outcome): Message {
    match o
    case Processed(duplicate) => Ack(e.eventId, duplicate)
    case RaisedStopped => Nack("capture_stopped", Some(e.eventId))
    case RaisedValueError => Nack("identity_conflict", Some(e.eventId))
    case RaisedOther => Nack("busy", Some(e.eventId))
  }

  function Stopped(e: Event): Message {
    Nack("capture_stopped", Some(e.eventId))
  }

  /** The worker takes the next job; after the stop signal it only answers it. */
  function Taken(s: Server): Server
    requires s.jobs != [] && forall j :: j in s.jobs && j.Some? ==> j.value < |s.table|
  {
    var rest := s.(jobs := s.jobs[1..]);
    match s.jobs[0]
    case None => rest.(ended := true, sentinel := false)
    case Some(n) => if s.stopping then Completed(rest, n, Stopped(s.table[n].event)) else rest.(current := Some(n))
  }

  // ---- steps ----

  datatype Step =
    | Connect(client: ClientId, machine: string)
    | Fault(client: ClientId, code: string, id: Option<string>)
    | Admit(client: ClientId, event: Event, running: bool)
    | Take
    | Finish(outcome: Outcome)
    | WriterTakes(client: ClientId)
    | WriterSent(client: ClientId)
    | Disconnect(client: ClientId)
    | Stop
    | Cease
    | PutSentinel

  /** Numbers in the queue and in `pending` are numbers of admitted jobs. */
  predicate WellNumbered(s: Server) {
    && (forall k :: k in s.pending ==> s.pending[k] < |s.table|)
    && (forall j :: j in s.jobs && j.Some? ==> j.value < |s.table|)
    && (s.current.Some? ==> s.current.value < |s.table|)
  }

  function ReleasedBy(o: Outgoing): set<string> {
    if !o.release then {}
    else
      match o.message
      case Ack(id, _) => {id}
      case Nack(_, Some(id)) => {id}
      case _ => {}
  }

  /** None: the step cannot happen now. A client sends events of the machine it said hello for; any other is a fault. */
  function Next(s: Server, step: Step): Option<Server>
    requires WellNumbered(s)
  {
    match step
    case Connect(c, machine) =>
      if c in s.clients then None
      else Some(s.(clients := s.clients[c := Client(machine, [Outgoing(Ready, false)], None, {}, false)]))
    case Fault(c, code, id) => if c in s.clients then Some(Rejected(s, c, code, id)) else None
    case Admit(c, e, running) =>
      if c in s.clients && e.machine == s.clients[c].machine then Some(Admitted(s, c, e, running)) else None
    case Take => if s.current.None? && s.jobs != [] && !s.ended then Some(Taken(s)) else None
    case Finish(o) =>
      if s.current.Some? then Some(Completed(s, s.current.value, Response(s.table[s.current.value].event, o))) else None
    case WriterTakes(c) =>
      if c in s.clients && s.clients[c].writing.None? && s.clients[c].out != []
      then Some(s.(clients :=
                   s.clients[c := s.clients[c].(writing := Some(s.clients[c].out[0]), out := s.clients[c].out[1..])]))
      else None
    case WriterSent(c) =>
      if c in s.clients && s.clients[c].writing.Some?
      then Some(s.(clients := s.clients[c := s.clients[c].(
                     writing := None, inflight := s.clients[c].inflight - ReleasedBy(s.clients[c].writing.value))]))
      else None
    case Disconnect(c) =>
      if c in s.clients then Some(s.(clients := s.clients[c := s.clients[c].(closed := true, writing := None)]))
      else None
    case Stop => Some(s.(stopping := true))
    case Cease => if s.stopping then Some(s.(accepting := false)) else None
    case PutSentinel =>
      if !s.accepting && !s.sentinel && !s.ended && |s.jobs| < s.queueLimit
      then Some(s.(jobs := s.jobs + [None], sentinel := true)) else None
  }

  predicate Initial(s: Server) {
    && s.accepting && !s.stopping && !s.sentinel && !s.ended && s.jobs == [] && s.pending == map[] && s.table == []
    && s.current == None && s.clients == map[] && s.responses == [] && s.offers == [] && s.asked == {}
  }

  // ---- what every step keeps ----

  ghost predicate NoneTwice<T>(s: seq<T>) {
    forall i, j :: 0 <= i < j < |s| ==> s[i] != s[j]
  }

  /** The queue, the clients' output queues and their inflight sets stay within their limits. */
  ghost predicate Bounded(s: Server) {
    && |s.jobs| <= s.queueLimit
    && forall c :: c in s.clients ==> |s.clients[c].inflight| <= s.maxInflight && |s.clients[c].out| <= OUT_LIMIT
  }

  function Numbers(from: nat, upTo: nat): seq<Option<nat>>
    requires from <= upTo
  {
    seq(upTo - from, i requires 0 <= i < upTo - from => Some(from + i))
  }

  /** The first job that the queue still holds. */
  function Front(s: Server): nat {
    |s.responses| + (if s.current.Some? then 1 else 0)
  }

  /** Jobs are finished in admission order: what is finished, in progress and queued is exactly every
      admitted job, in order; the sentinel comes last, and nothing is admitted behind it. */
  ghost predicate Lined(s: Server) {
    && Front(s) <= |s.table|
    && (s.current.Some? ==> s.current.value == |s.responses|)
    && s.jobs == Numbers(Front(s), |s.table|) + (if s.sentinel then [None] else [])
    && (s.sentinel ==> !s.accepting)
    && (s.ended ==> !s.accepting && !s.sentinel && s.current.None? && Front(s) == |s.table|)
  }

  /** `pending` holds exactly the queued and in-progress jobs, each under its key. */
  ghost predicate Keyed(s: Server) {
    && (forall k :: k in s.pending ==>
        |s.responses| <= s.pending[k] < |s.table| && KeyOf(s.table[s.pending[k]].event) == k)
    && (forall n :: |s.responses| <= n < |s.table| ==>
          KeyOf(s.table[n].event) in s.pending && s.pending[KeyOf(s.table[n].event)] == n)
  }

  /** A client waits at most once for a job, and only for one it had admitted; it stays until it is closed. */
  ghost predicate Waiting(s: Server) {
    && (forall n :: 0 <= n < |s.table| ==> NoneTwice(s.table[n].waiters) && Attended(s, n))
    && (forall a :: a in s.asked ==> a.1 < |s.table| && (a.0 in s.table[a.1].waiters || Closed(s.clients, a.0)))
  }

  ghost predicate Attended(s: Server, n: nat)
    requires n < |s.table|
  {
    forall c :: c in s.table[n].waiters ==> c in s.clients && (c, n) in s.asked
  }

  predicate Closed(clients: map<ClientId, Client>, c: ClientId) {
    c in clients && clients[c].closed
  }

  /** What finishing the first jobs offered, job by job. */
  function AllOffers(table: seq<Job>, responses: seq<Message>): seq<Offer>
    requires |responses| <= |table|
  {
    if responses == [] then []
    else
      var n := |responses| - 1;
      AllOffers(table, responses[..n]) + OffersOf(table[n].waiters, n, responses[n])
  }

  /** A terminal response names the event it answers. */
  predicate About(m: Message, id: string) {
    match m
    case Ack(named, _) => named == id
    case Nack(code, about) => about == Some(id) && code in {"capture_stopped", "identity_conflict", "busy"}
    case Ready => false
  }

  ghost predicate Answered(s: Server) {
    && |s.responses| <= |s.table| && s.offers == AllOffers(s.table, s.responses)
    && forall n :: 0 <= n < |s.responses| ==> About(s.responses[n], s.table[n].event.eventId)
  }

  ghost predicate Orderly(s: Server) {
    Bounded(s) && Keyed(s) && Waiting(s) && Answered(s)
  }

  ghost predicate Kept(s: Server) {
    Lined(s) && Orderly(s)
  }

  lemma KeptIsWellNumbered(s: Server)
    requires Lined(s) && Keyed(s)
    ensures WellNumbered(s)
  {
  }

  // ---- offering ----

  /** Offering changes nothing about who asked for what; it may close a slow client, and never reopens one. */
  ghost predicate Onward(before: map<ClientId, Client>, after: map<ClientId, Client>) {
    && before.Keys <= after.Keys
    && (forall c :: c in before ==> (before[c].closed ==> after[c].closed))
  }

  ghost predicate Within(clients: map<ClientId, Client>, maxInflight: nat) {
    forall c :: c in clients ==> |clients[c].inflight| <= maxInflight && |clients[c].out| <= OUT_LIMIT
  }

  lemma OfferedIsOnward(clients: map<ClientId, Client>, c: ClientId, o: Outgoing, maxInflight: nat)
    requires Within(clients, maxInflight)
    ensures Onward(clients, Offered(clients, c, o)) && Within(Offered(clients, c, o), maxInflight)
    ensures Offered(clients, c, o).Keys == clients.Keys
  {
  }

  lemma {:induction false} OfferedToAllIsOnward(clients: map<ClientId, Client>, waiters: seq<ClientId>, o: Outgoing,
                                                maxInflight: nat)
    requires Within(clients, maxInflight)
    ensures Onward(clients, OfferedToAll(clients, waiters, o)) && Within(OfferedToAll(clients, waiters, o), maxInflight)
    ensures OfferedToAll(clients, waiters, o).Keys == clients.Keys
  {
    if waiters != [] {
      var n := |waiters| - 1;
      OfferedToAllIsOnward(clients, waiters[..n], o, maxInflight);
      OfferedIsOnward(OfferedToAll(clients, waiters[..n], o), waiters[n], o, maxInflight);
    }
  }

  /** A step that touches only the clients, and only so. */
  lemma ClientsMove(s: Server, t: Server)
    requires Kept(s) && t == s.(clients := t.clients, stopping := t.stopping)
    requires Onward(s.clients, t.clients) && Within(t.clients, s.maxInflight)
    ensures Kept(t)
  {
    hide AllOffers;
    forall n | 0 <= n < |t.table| ensures NoneTwice(t.table[n].waiters) && Attended(t, n) {
      assert Attended(s, n);
    }
  }

  // ---- admission ----

  lemma {:induction false} StillOpenIs(clients: map<ClientId, Client>, waiters: seq<ClientId>)
    requires NoneTwice(waiters)
    ensures NoneTwice(StillOpen(clients, waiters))
    ensures forall c :: c in StillOpen(clients, waiters) <==> c in waiters && !Closed(clients, c)
  {
    if waiters != [] {
      var n := |waiters| - 1;
      StillOpenIs(clients, waiters[..n]);
      assert waiters == waiters[..n] + [waiters[n]];
      assert forall i :: 0 <= i < n ==> waiters[..n][i] != waiters[n];
      assert waiters[n] !in waiters[..n];
    }
  }

  lemma JoinedIs(clients: map<ClientId, Client>, waiters: seq<ClientId>, c: ClientId)
    requires NoneTwice(waiters)
    ensures var j := Joined(clients, waiters, c);
            && NoneTwice(j) && c in j && (forall d :: d in j ==> d in waiters || d == c)
            && forall d :: d in waiters && !Closed(clients, d) ==> d in j
  {
    StillOpenIs(clients, waiters);
  }

  lemma OneMore<T>(s: set<T>, x: T)
    ensures x in s ==> s + {x} == s
    ensures |s + {x}| <= |s| + 1
  {
    if x in s {
      assert s + {x} == s;
    }
  }

  lemma InflightStaysWithin(s: Server, c: ClientId, id: string)
    requires Bounded(s) && c in s.clients
    requires |s.clients[c].inflight| < s.maxInflight || id in s.clients[c].inflight
    ensures Within(WithInflight(s, c, id), s.maxInflight) && Onward(s.clients, WithInflight(s, c, id))
  {
    OneMore(s.clients[c].inflight, id);
  }

  lemma {:induction false} OffersIgnoreTheRest(table: seq<Job>, other: seq<Job>, responses: seq<Message>)
    requires |responses| <= |table| && |responses| <= |other|
    requires forall n :: 0 <= n < |responses| ==> table[n] == other[n]
    ensures AllOffers(table, responses) == AllOffers(other, responses)
  {
    if responses != [] {
      OffersIgnoreTheRest(table, other, responses[..|responses| - 1]);
    }
  }

  /** A second request for a job that is still open joins it. */
  lemma JoinKeeps(s: Server, t: Server, c: ClientId, n: nat, clients: map<ClientId, Client>)
    requires Kept(s) && |s.responses| <= n < |s.table| && c in s.clients
    requires Onward(s.clients, clients) && Within(clients, s.maxInflight)
    requires t == s.(table := s.table[n := s.table[n].(waiters := Joined(s.clients, s.table[n].waiters, c))],
                     clients := clients, asked := s.asked + {(c, n)})
    ensures Kept(t)
  {
    assert NoneTwice(s.table[n].waiters) && Attended(s, n);
    JoinedIs(s.clients, s.table[n].waiters, c);
    hide Joined;
    JoinKeepsWaiting(s, t, c, n);
    JoinKeepsAnswered(s, t, n);
    SameEventsKeyed(s, t);
    hide Waiting;
    hide Answered;
    hide Keyed;
    hide NoneTwice;
    hide Attended;
    hide Onward;
  }

  lemma SameEventsKeyed(s: Server, t: Server)
    requires Keyed(s) && t.pending == s.pending && t.responses == s.responses && |t.table| == |s.table|
    requires forall n :: 0 <= n < |s.table| ==> t.table[n].event == s.table[n].event
    ensures Keyed(t)
  {
  }

  lemma JoinKeepsAnswered(s: Server, t: Server, n: nat)
    requires Answered(s) && |s.responses| <= n < |s.table| == |t.table| && t.responses == s.responses
    requires t.offers == s.offers
    requires t.table == s.table[n := t.table[n]]
    ensures Answered(t)
  {
    OffersIgnoreTheRest(s.table, t.table, s.responses);
    hide AllOffers;
  }

  lemma JoinKeepsWaiting(s: Server, t: Server, c: ClientId, n: nat)
    requires Waiting(s) && n < |s.table| && c in s.clients && Onward(s.clients, t.clients)
    requires t == s.(table := t.table, clients := t.clients, asked := s.asked + {(c, n)})
    requires |t.table| == |s.table| && t.table == s.table[n := s.table[n].(waiters := t.table[n].waiters)]
    requires NoneTwice(t.table[n].waiters) && c in t.table[n].waiters
    requires forall d :: d in t.table[n].waiters ==> d in s.table[n].waiters || d == c
    requires forall d :: d in s.table[n].waiters && !Closed(s.clients, d) ==> d in t.table[n].waiters
    ensures Waiting(t)
  {
    forall m | 0 <= m < |t.table| ensures NoneTwice(t.table[m].waiters) && Attended(t, m) {
      assert NoneTwice(s.table[m].waiters) && Attended(s, m);
    }
  }

  lemma NewJobKeeps(s: Server, t: Server, c: ClientId, e: Event, clients: map<ClientId, Client>)
    requires Kept(s) && s.accepting && c in s.clients && KeyOf(e) !in s.pending && |s.jobs| < s.queueLimit
    requires Onward(s.clients, clients) && Within(clients, s.maxInflight)
    requires t == s.(pending := s.pending[KeyOf(e) := |s.table|], table := s.table + [Job(e, [c])],
                     jobs := s.jobs + [Some(|s.table|)], clients := clients, asked := s.asked + {(c, |s.table|)})
    ensures Kept(t)
  {
    NewJobKeepsWaiting(s, t, c, e);
    NewJobKeepsKeyed(s, t, c, e);
    NewJobKeepsAnswered(s, t, c, e);
    hide Waiting;
    hide Keyed;
    hide Answered;
    hide Onward;
    hide Within;
    assert Numbers(Front(s), |s.table|) + [Some(|s.table|)] == Numbers(Front(t), |t.table|);
  }

  lemma NewJobKeepsKeyed(s: Server, t: Server, c: ClientId, e: Event)
    requires Keyed(s) && |s.responses| <= |s.table| && KeyOf(e) !in s.pending && t.responses == s.responses
    requires t.pending == s.pending[KeyOf(e) := |s.table|] && t.table == s.table + [Job(e, [c])]
    ensures Keyed(t)
  {
  }

  lemma NewJobKeepsAnswered(s: Server, t: Server, c: ClientId, e: Event)
    requires Answered(s) && t.responses == s.responses && t.offers == s.offers && t.table == s.table + [Job(e, [c])]
    ensures Answered(t)
  {
    OffersIgnoreTheRest(s.table, t.table, s.responses);
    hide AllOffers;
  }

  lemma NewJobKeepsWaiting(s: Server, t: Server, c: ClientId, e: Event)
    requires Waiting(s) && c in s.clients && Onward(s.clients, t.clients)
    requires t.table == s.table + [Job(e, [c])] && t.asked == s.asked + {(c, |s.table|)}
    ensures Waiting(t)
  {
    forall m | 0 <= m < |t.table| ensures NoneTwice(t.table[m].waiters) && Attended(t, m) {
      if m < |s.table| {
        assert NoneTwice(s.table[m].waiters) && Attended(s, m);
      }
    }
  }

  lemma RejectKeeps(s: Server, c: ClientId, code: string, id: Option<string>)
    requires Kept(s)
    ensures Kept(Rejected(s, c, code, id))
  {
    OfferedIsOnward(s.clients, c, Outgoing(Nack(code, id), false), s.maxInflight);
    ClientsMove(s, Rejected(s, c, code, id));
  }

  lemma AdmitKeeps(s: Server, c: ClientId, e: Event, running: bool)
    requires Kept(s) && WellNumbered(s) && c in s.clients
    ensures Kept(Admitted(s, c, e, running))
  {
    var key, id := KeyOf(e), e.eventId;
    RejectKeeps(s, c, "capture_stopped", Some(id));
    RejectKeeps(s, c, "busy", Some(id));
    RejectKeeps(s, c, "identity_conflict", Some(id));
    if s.accepting && running && (|s.clients[c].inflight| < s.maxInflight || id in s.clients[c].inflight) {
      InflightStaysWithin(s, c, id);
      var t := Admitted(s, c, e, running);
      hide Rejected;
      if key in s.pending && s.table[s.pending[key]].event == e {
        JoinKeeps(s, t, c, s.pending[key], WithInflight(s, c, id));
      } else if key !in s.pending && |s.jobs| < s.queueLimit {
        NewJobKeeps(s, t, c, e, WithInflight(s, c, id));
      }
    }
  }

  // ---- finishing a job ----

  /** Finishing the job at the front keeps the line; the worker holds it or has just taken it. */
  lemma CompleteKeeps(s: Server, t: Server, response: Message)
    requires Bounded(s) && Keyed(s) && Waiting(s) && Answered(s)
    requires |s.responses| < |s.table| && t == Completed(s, |s.responses|, response)
    requires About(response, s.table[|s.responses|].event.eventId)
    ensures Bounded(t) && Keyed(t) && Waiting(t) && Answered(t)
  {
    var n := |s.responses|;
    OfferedToAllIsOnward(s.clients, s.table[n].waiters, Outgoing(response, true), s.maxInflight);
    CompleteKeepsKeyed(s, t);
    CompleteKeepsAnswered(s, t, response);
    hide Keyed;
    hide Answered;
    hide OfferedToAll;
    hide OffersOf;
    CompleteKeepsWaiting(s, t);
    hide Waiting;
  }

  lemma CompleteKeepsWaiting(s: Server, t: Server)
    requires Waiting(s) && t.table == s.table && t.asked == s.asked && Onward(s.clients, t.clients)
    ensures Waiting(t)
  {
    forall m | 0 <= m < |t.table| ensures NoneTwice(t.table[m].waiters) && Attended(t, m) {
      assert NoneTwice(s.table[m].waiters) && Attended(s, m);
    }
  }

  lemma CompleteKeepsAnswered(s: Server, t: Server, response: Message)
    requires Answered(s) && |s.responses| < |s.table| && t.table == s.table && t.responses == s.responses + [response]
    requires t.offers == s.offers + OffersOf(s.table[|s.responses|].waiters, |s.responses|, response)
    requires About(response, s.table[|s.responses|].event.eventId)
    ensures Answered(t)
  {
    assert t.responses[..|s.responses|] == s.responses;
  }

  lemma CompleteKeepsKeyed(s: Server, t: Server)
    requires Keyed(s) && |s.responses| < |s.table| && t.table == s.table && |t.responses| == |s.responses| + 1
    requires t.pending == s.pending - {KeyOf(s.table[|s.responses|].event)}
    ensures Keyed(t)
  {
  }

  lemma CompleteKeepsOrderly(s: Server, response: Message)
    requires Orderly(s) && |s.responses| < |s.table| && About(response, s.table[|s.responses|].event.eventId)
    ensures Orderly(Completed(s, |s.responses|, response))
  {
    CompleteKeeps(s, Completed(s, |s.responses|, response), response);
    hide Keyed;
    hide Waiting;
    hide Answered;
    hide Bounded;
    hide Completed;
  }

  lemma FinishKeeps(s: Server, response: Message)
    requires Kept(s) && s.current.Some? && s.current.value < |s.table|
    requires About(response, s.table[s.current.value].event.eventId)
    ensures Kept(Completed(s, s.current.value, response))
  {
    CompleteKeepsOrderly(s, response);
    hide Orderly;
    hide OfferedToAll;
    hide OffersOf;
  }

  /** A step that touches only the queue and the flags. */
  lemma QueueMoves(s: Server, t: Server)
    requires Orderly(s) && |t.jobs| <= t.queueLimit
    requires t == s.(jobs := t.jobs, current := t.current, sentinel := t.sentinel, ended := t.ended,
                     accepting := t.accepting, stopping := t.stopping)
    ensures Orderly(t)
  {
    hide AllOffers;
    hide NoneTwice;
    assert forall n :: 0 <= n < |s.table| && Attended(s, n) ==> Attended(t, n);
  }

  lemma FrontOfQueue(s: Server)
    requires Lined(s) && s.jobs != []
    ensures if s.jobs[0].None? then s.sentinel && Front(s) == |s.table| && s.jobs == [None]
            else s.jobs[0].value == Front(s) < |s.table|
                 && s.jobs[1..] == Numbers(Front(s) + 1, |s.table|) + (if s.sentinel then [None] else [])
  {
    if Front(s) < |s.table| {
      assert s.jobs[0] == Numbers(Front(s), |s.table|)[0];
      assert Numbers(Front(s), |s.table|)[1..] == Numbers(Front(s) + 1, |s.table|);
    }
  }

  lemma QueueIsShort(s: Server)
    requires Orderly(s)
    ensures |s.jobs| <= s.queueLimit
  {
  }

  lemma TakesSentinel(s: Server)
    requires Kept(s) && s.current.None? && s.jobs != [] && s.jobs[0].None? && !s.ended
    ensures Kept(s.(jobs := s.jobs[1..], ended := true, sentinel := false))
  {
    QueueIsShort(s);
    QueueMoves(s, s.(jobs := s.jobs[1..], ended := true, sentinel := false));
    hide Orderly;
    FrontOfQueue(s);
  }

  lemma TakesJob(s: Server)
    requires Kept(s) && s.current.None? && s.jobs != [] && s.jobs[0].Some? && !s.ended
    ensures Kept(s.(jobs := s.jobs[1..], current := s.jobs[0]))
  {
    QueueIsShort(s);
    QueueMoves(s, s.(jobs := s.jobs[1..], current := s.jobs[0]));
    hide Orderly;
    FrontOfQueue(s);
  }

  lemma TakeKeeps(s: Server)
    requires Kept(s) && WellNumbered(s) && s.current.None? && s.jobs != [] && !s.ended
    ensures Kept(Taken(s))
  {
    FrontOfQueue(s);
    if s.jobs[0].None? {
      TakesSentinel(s);
    } else {
      TakesJob(s);
      hide Orderly;
      hide Lined;
      if s.stopping {
        var taken := s.(jobs := s.jobs[1..], current := s.jobs[0]);
        FinishKeeps(taken, Stopped(s.table[s.jobs[0].value].event));
        SameCompletion(s.(jobs := s.jobs[1..]), s.jobs[0].value, Stopped(s.table[s.jobs[0].value].event));
      }
    }
  }

  lemma SameCompletion(s: Server, n: nat, response: Message)
    requires n < |s.table|
    ensures Completed(s, n, response) == Completed(s.(current := Some(n)), n, response)
  {
  }

  lemma StopKeeps(s: Server)
    requires Kept(s)
    ensures Kept(s.(stopping := true)) && Kept(s.(accepting := false))
    ensures !s.accepting && !s.sentinel && !s.ended && |s.jobs| < s.queueLimit ==>
              Kept(s.(jobs := s.jobs + [None], sentinel := true))
  {
    QueueMoves(s, s.(stopping := true));
    QueueMoves(s, s.(accepting := false));
    if |s.jobs| < s.queueLimit {
      QueueMoves(s, s.(jobs := s.jobs + [None], sentinel := true));
    }
    hide Orderly;
  }

  /** One client's row is written, and it was not open again. */
  lemma OneClientMoves(clients: map<ClientId, Client>, c: ClientId, client: Client, maxInflight: nat)
    requires Within(clients, maxInflight) && |client.inflight| <= maxInflight && |client.out| <= OUT_LIMIT
    requires c in clients && clients[c].closed ==> client.closed
    ensures Onward(clients, clients[c := client]) && Within(clients[c := client], maxInflight)
  {
  }

  lemma WriterMoves(s: Server, step: Step)
    requires Bounded(s) && WellNumbered(s) && Next(s, step).Some?
    requires step.Connect? || step.WriterTakes? || step.WriterSent? || step.Disconnect?
    ensures var t := Next(s, step).value;
            t == s.(clients := t.clients) && Onward(s.clients, t.clients) && Within(t.clients, s.maxInflight)
  {
    hide WellNumbered;
    hide ReleasedBy;
    hide Onward;
    var t := Next(s, step).value;
    var c := step.client;
    if step.WriterSent? {
      Fewer(s.clients[c].inflight, ReleasedBy(s.clients[c].writing.value));
    }
    assert t.clients == s.clients[c := t.clients[c]];
    OneClientMoves(s.clients, c, t.clients[c], s.maxInflight);
    hide Next;
  }

  lemma WriterKeeps(s: Server, step: Step)
    requires Kept(s) && WellNumbered(s) && Next(s, step).Some?
    requires step.Connect? || step.WriterTakes? || step.WriterSent? || step.Disconnect?
    ensures Kept(Next(s, step).value)
  {
    WriterMoves(s, step);
    ClientsMove(s, Next(s, step).value);
    hide Next;
  }

  lemma Fewer<T>(s: set<T>, x: set<T>)
    ensures |s - x| <= |s|
  {
    assert s == (s - x) + (s * x);
  }

  lemma NextKeeps(s: Server, step: Step)
    requires Kept(s) && WellNumbered(s) && Next(s, step).Some?
    ensures Kept(Next(s, step).value) && WellNumbered(Next(s, step).value)
  {
    hide Kept;
    hide Admitted;
    hide Completed;
    hide Taken;
    hide Rejected;
    match step {
      case Fault(c, code, id) => RejectKeeps(s, c, code, id);
      case Admit(c, e, running) => AdmitKeeps(s, c, e, running);
      case Take => TakeKeeps(s);
      case Finish(o) => FinishKeeps(s, Response(s.table[s.current.value].event, o));
      case Stop => StopKeeps(s);
      case Cease => StopKeeps(s);
      case PutSentinel => StopKeeps(s);
      case _ => WriterKeeps(s, step);
    }
    KeptHasNumbers(Next(s, step).value);
  }

  lemma KeptHasNumbers(s: Server)
    requires Kept(s)
    ensures WellNumbered(s)
  {
    KeptIsWellNumbered(s);
  }

  // ---- every run ----

  ghost predicate Run(states: seq<Server>, steps: seq<Step>) {
    Path(states, steps) && Initial(states[0])
  }

  ghost predicate Path(states: seq<Server>, steps: seq<Step>) {
    && |states| == |steps| + 1
    && forall i :: 0 <= i < |steps| ==> WellNumbered(states[i]) && Next(states[i], steps[i]) == Some(states[i + 1])
  }

  lemma PathsJoin(a: seq<Server>, before: seq<Step>, b: seq<Server>, after: seq<Step>)
    requires Path(a, before) && Path(b, after) && a[|before|] == b[0]
    ensures Path(a + b[1..], before + after)
  {
    hide Next;
    hide WellNumbered;
    var states, steps := a + b[1..], before + after;
    forall i | 0 <= i < |steps| ensures WellNumbered(states[i]) && Next(states[i], steps[i]) == Some(states[i + 1]) {
      if i < |before| {
        assert states[i] == a[i] && states[i + 1] == a[i + 1] && steps[i] == before[i];
      } else {
        assert states[i] == b[i - |before|] && states[i + 1] == b[i + 1 - |before|] && steps[i] == after[i - |before|];
      }
    }
  }

  lemma {:induction false} RunKeeps(states: seq<Server>, steps: seq<Step>, i: nat)
    requires Run(states, steps) && i < |states|
    ensures Kept(states[i]) && WellNumbered(states[i])
  {
    if i > 0 {
      RunKeeps(states, steps, i - 1);
      NextKeeps(states[i - 1], steps[i - 1]);
    }
  }

  /** In every run, at every point: queue, output queues and inflight sets are within their limits, jobs
      ran in the order they were admitted, and `pending` is exactly what is queued or in progress, so no
      key has two jobs at once. */
  lemma BoundedFirstInFirstOut(states: seq<Server>, steps: seq<Step>, i: nat)
    requires Run(states, steps) && i < |states|
    ensures var s := states[i];
            && |s.jobs| <= s.queueLimit
            && (forall c :: c in s.clients ==>
                |s.clients[c].inflight| <= s.maxInflight && |s.clients[c].out| <= OUT_LIMIT)
            && (forall n: nat :: n in s.pending.Values <==> Some(n) in s.jobs || s.current == Some(n))
            && (forall k :: k in s.pending ==> s.pending[k] < |s.table| && KeyOf(s.table[s.pending[k]].event) == k)
            && (s.current.Some? ==> s.current.value == |s.responses|)
            && (forall j, k :: 0 <= j < k < |s.jobs| && s.jobs[j].Some? && s.jobs[k].Some? ==>
                s.jobs[j].value < s.jobs[k].value)
            && (forall j :: 0 <= j < |s.jobs| && s.jobs[j].Some? ==> s.jobs[j].value >= Front(s))
  {
    RunKeeps(states, steps, i);
    var s := states[i];
    forall n: nat ensures n in s.pending.Values <==> Some(n) in s.jobs || s.current == Some(n) {
      PendingIsOutstanding(s, n);
    }
  }

  lemma PendingIsOutstanding(s: Server, n: nat)
    requires Lined(s) && Keyed(s)
    ensures n in s.pending.Values <==> Some(n) in s.jobs || s.current == Some(n)
  {
    var numbers := Numbers(Front(s), |s.table|);
    assert Some(n) in s.jobs <==> Some(n) in numbers;
    if Front(s) <= n < |s.table| {
      assert numbers[n - Front(s)] == Some(n);
    }
    if |s.responses| <= n < |s.table| {
      assert s.pending[KeyOf(s.table[n].event)] == n;
    }
  }

  // ---- one terminal response for each request ----

  function Count(offers: seq<Offer>, c: ClientId, job: nat): nat {
    if offers == [] then 0
    else
      var last := offers[|offers| - 1];
      Count(offers[..|offers| - 1], c, job) + (if last.client == c && last.job == job then 1 else 0)
  }

  lemma {:induction false} CountJoins(a: seq<Offer>, b: seq<Offer>, c: ClientId, job: nat)
    ensures Count(a + b, c, job) == Count(a, c, job) + Count(b, c, job)
  {
    if b == [] {
      assert a + b == a;
    } else {
      CountJoins(a, b[..|b| - 1], c, job);
      assert (a + b)[..|a + b| - 1] == a + b[..|b| - 1];
    }
  }

  lemma {:induction false} WaitersAreOfferedOnce(waiters: seq<ClientId>, n: nat, response: Message, c: ClientId,
                                                 job: nat)
    requires NoneTwice(waiters)
    ensures Count(OffersOf(waiters, n, response), c, job) == if job == n && c in waiters then 1 else 0
  {
    if waiters != [] {
      var k := |waiters| - 1;
      var offers := OffersOf(waiters, n, response);
      WaitersAreOfferedOnce(waiters[..k], n, response, c, job);
      assert offers[..k] == OffersOf(waiters[..k], n, response);
      assert waiters == waiters[..k] + [waiters[k]];
      assert forall i :: 0 <= i < k ==> waiters[..k][i] != waiters[k];
      assert waiters[k] !in waiters[..k];
    }
  }

  lemma {:induction false} EachWaiterIsOfferedOnce(table: seq<Job>, responses: seq<Message>, c: ClientId, job: nat)
    requires |responses| <= |table| && forall n :: 0 <= n < |responses| ==> NoneTwice(table[n].waiters)
    ensures Count(AllOffers(table, responses), c, job) == if job < |responses| && c in table[job].waiters then 1 else 0
  {
    if responses != [] {
      var n := |responses| - 1;
      EachWaiterIsOfferedOnce(table, responses[..n], c, job);
      WaitersAreOfferedOnce(table[n].waiters, n, responses[n], c, job);
      CountJoins(AllOffers(table, responses[..n]), OffersOf(table[n].waiters, n, responses[n]), c, job);
    }
  }

  /** In every run: a finished job has one terminal response, which names its event; it was offered exactly
      once to each client that had the job admitted, unless that client has been closed, and to no other;
      an unfinished job was offered to nobody. */
  lemma OneResponsePerRequest(states: seq<Server>, steps: seq<Step>, i: nat, c: ClientId, job: nat)
    requires Run(states, steps) && i < |states|
    ensures var s := states[i];
            && Count(s.offers, c, job) <= 1
            && (Count(s.offers, c, job) == 1 ==> job < |s.responses| <= |s.table| && (c, job) in s.asked)
            && ((c, job) in s.asked && job < |s.responses| && !Closed(s.clients, c) ==> Count(s.offers, c, job) == 1)
            && (job < |s.responses| <= |s.table| ==> About(s.responses[job], s.table[job].event.eventId))
  {
    RunKeeps(states, steps, i);
    var s := states[i];
    forall n | 0 <= n < |s.responses| ensures NoneTwice(s.table[n].waiters) && Attended(s, n) {
    }
    EachWaiterIsOfferedOnce(s.table, s.responses, c, job);
  }

  /** Once the worker has ended, every job ever admitted was answered and nothing is pending. */
  lemma ShutdownAnswersEverything(states: seq<Server>, steps: seq<Step>, i: nat)
    requires Run(states, steps) && i < |states| && states[i].ended
    ensures |states[i].responses| == |states[i].table| && states[i].pending == map[] && states[i].jobs == []
  {
    RunKeeps(states, steps, i);
    EndedIsAnswered(states[i]);
  }

  // ---- the object ----

  class CaptureServer {
    const queueLimit: nat
    const maxInflight: nat
    var accepting: bool
    var stopping: bool
    var sentinel: bool
    var ended: bool
    var jobs: seq<Option<nat>>
    var pending: map<Key, nat>
    var table: seq<Job>
    var current: Option<nat>
    var clients: map<ClientId, Client>
    ghost var responses: seq<Message>
    ghost var offers: seq<Offer>
    ghost var asked: set<(ClientId, nat)>

    ghost function Snapshot(): Server
      reads this
    {
      Server(queueLimit, maxInflight, accepting, stopping, sentinel, ended, jobs, pending, table, current, clients,
             responses, offers, asked)
    }

    constructor (queueLimit: nat, maxInflight: nat)
      ensures Initial(Snapshot()) && this.queueLimit == queueLimit && this.maxInflight == maxInflight
    {
      this.queueLimit, this.maxInflight := queueLimit, maxInflight;
      accepting, stopping, sentinel, ended := true, false, false, false;
      jobs, pending, table, current, clients := [], map[], [], None, map[];
      responses, offers, asked := [], [], {};
    }

    method Offer(c: ClientId, message: Message, release: bool)
      modifies this`clients
      ensures clients == Offered(old(clients), c, Outgoing(message, release))
    {
      if c !in clients || clients[c].closed {
        return;
      }
      if |clients[c].out| >= OUT_LIMIT {
        clients := clients[c := clients[c].(closed := true)];
      } else {
        clients := clients[c := clients[c].(out := clients[c].out + [Outgoing(message, release)])];
      }
    }

    method Admit(c: ClientId, e: Event, running: bool)
      requires WellNumbered(Snapshot()) && c in clients
      modifies this
      ensures Snapshot() == Admitted(old(Snapshot()), c, e, running)
    {
      if !accepting || !running {
        Offer(c, Nack("capture_stopped", Some(e.eventId)), false);
        return;
      }
      if |clients[c].inflight| >= maxInflight && e.eventId !in clients[c].inflight {
        Offer(c, Nack("busy", Some(e.eventId)), false);
        return;
      }
      var key := KeyOf(e);
      if key in pending {
        var n := pending[key];
        if table[n].event != e {
          Offer(c, Nack("identity_conflict", Some(e.eventId)), false);
          return;
        }
        table := table[n := table[n].(waiters := Joined(clients, table[n].waiters, c))];
        clients := clients[c := clients[c].(inflight := clients[c].inflight + {e.eventId})];
        asked := asked + {(c, n)};
        return;
      }
      if |jobs| >= queueLimit {
        Offer(c, Nack("busy", Some(e.eventId)), false);
        return;
      }
      pending := pending[key := |table|];
      clients := clients[c := clients[c].(inflight := clients[c].inflight + {e.eventId})];
      jobs := jobs + [Some(|table|)];
      asked := asked + {(c, |table|)};
      table := table + [Job(e, [c])];
    }

    method Complete(n: nat, response: Message)
      requires n < |table|
      modifies this
      ensures Snapshot() == Completed(old(Snapshot()), n, response)
    {
      var key, waiters := KeyOf(table[n].event), table[n].waiters;
      pending := pending - {key};
      for i := 0 to |waiters|
        invariant clients == OfferedToAll(old(clients), waiters[..i], Outgoing(response, true))
        invariant pending == old(pending) - {key}
        invariant Snapshot() == old(Snapshot()).(clients := clients, pending := pending)
      {
        assert waiters[..i + 1][..i] == waiters[..i];
        Offer(waiters[i], response, true);
      }
      assert waiters[..|waiters|] == waiters;
      current := None;
      responses := responses + [response];
      offers := offers + OffersOf(waiters, n, response);
    }

    /** The worker up to handing the job on. */
    method Take()
      requires WellNumbered(Snapshot()) && jobs != []
      modifies this
      ensures Snapshot() == Taken(old(Snapshot()))
    {
      var job := jobs[0];
      jobs := jobs[1..];
      match job
      case None => ended, sentinel := true, false;
      case Some(n) =>
        if stopping {
          Complete(n, Stopped(table[n].event));
        } else {
          current := Some(n);
        }
    }

    /** The worker from the end of the job on. */
    method Finish(o: Outcome)
      requires WellNumbered(Snapshot()) && current.Some?
      modifies this
      ensures Snapshot() == Completed(old(Snapshot()), old(current.value), Response(old(table[current.value].event), o))
    {
      Complete(current.value, Response(table[current.value].event, o));
    }

    /** The writer up to sending. */
    method WriterTakes(c: ClientId)
      requires WellNumbered(Snapshot()) && c in clients && clients[c].writing.None? && clients[c].out != []
      modifies this`clients
      ensures Next(old(Snapshot()), Step.WriterTakes(c)) == Some(Snapshot())
    {
      clients := clients[c := clients[c].(writing := Some(clients[c].out[0]), out := clients[c].out[1..])];
    }

    /** The writer behind sending: a terminal response gives its event's place back. */
    method WriterSent(c: ClientId)
      requires WellNumbered(Snapshot()) && c in clients && clients[c].writing.Some?
      modifies this`clients
      ensures Next(old(Snapshot()), Step.WriterSent(c)) == Some(Snapshot())
    {
      var sent := clients[c].writing.value;
      clients := clients[c := clients[c].(writing := None, inflight := clients[c].inflight - ReleasedBy(sent))];
    }

    /** The worker after the stop signal, once the sentinel is in the queue: it ends, every admitted job
        has its one terminal response, and those still queued are told the capture stopped. */
    method Drain()
      requires Kept(Snapshot()) && stopping && sentinel && current.None?
      modifies this
      ensures Kept(Snapshot()) && ended && pending == map[] && jobs == []
      ensures |responses| == |table| && table == old(table)
      ensures forall n :: 0 <= n < |table| ==>
                responses[n] == if n < |old(responses)| then old(responses)[n] else Stopped(table[n].event)
    {
      hide Kept;
      SentinelIsQueued(Snapshot());
      while !ended
        invariant Kept(Snapshot()) && stopping && current.None? && table == old(table) && (!ended ==> sentinel)
        invariant |old(responses)| <= |responses| <= |table|
        invariant forall n :: 0 <= n < |responses| ==>
                    responses[n] == if n < |old(responses)| then old(responses)[n] else Stopped(table[n].event)
        decreases |jobs|, !ended
      {
        SentinelIsQueued(Snapshot());
        TakeKeeps(Snapshot());
        Take();
      }
      EndedIsAnswered(Snapshot());
    }
  }

  lemma SentinelIsQueued(s: Server)
    requires Kept(s) && s.sentinel && s.current.None?
    ensures s.jobs != [] && WellNumbered(s) && !s.ended && |s.responses| <= |s.table|
    ensures s.jobs[0].Some? ==> s.jobs[0].value == |s.responses| < |s.table|
  {
    KeptHasNumbers(s);
    FrontOfQueue(s);
  }

  lemma EndedIsAnswered(s: Server)
    requires Kept(s) && s.ended
    ensures |s.responses| == |s.table| && s.pending == map[] && s.jobs == []
  {
    hide AllOffers;
    hide Waiting;
    assert s.jobs == [] + [];
  }
}
