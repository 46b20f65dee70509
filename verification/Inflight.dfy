/** ws_ingress.py: how many jobs one client can have waiting. Its inflight set bounds them as long as it does
    not send an event again between that event's answer and the writer's release of it, and only so long. */
module Inflight {
  import opened Wrappers
  import opened Events
  import opened Ingress

  /** A terminal response on its way to the client, which gives the event's place back once it is sent. */
  predicate IsReleasing(client: Client, id: string) {
    || (exists o <- client.out :: id in ReleasedBy(o))
    || (client.writing.Some? && id in ReleasedBy(client.writing.value))
  }

  /** The client waits for a job that is not finished yet. */
  predicate WaitsFor(s: Server, c: ClientId, n: nat) {
    |s.responses| <= n < |s.table| && c in s.table[n].waiters
  }

  /** The event of a job the client waits for has its place in the inflight set, and nothing is about to
      give it back. */
  predicate Placed(s: Server, c: ClientId, n: nat)
    requires c in s.clients && n < |s.table|
  {
    var e := s.table[n].event;
    && e.machine == s.clients[c].machine && e.eventId in s.clients[c].inflight
    && !IsReleasing(s.clients[c], e.eventId)
  }

  ghost predicate Clean(s: Server) {
    forall c, n :: c in s.clients && WaitsFor(s, c, n) ==> Placed(s, c, n)
  }

  /** The request passes admission. */
  predicate IsAdmitted(s: Server, c: ClientId, e: Event, running: bool)
    requires c in s.clients && WellNumbered(s)
  {
    && s.accepting && running
    && (|s.clients[c].inflight| < s.maxInflight || e.eventId in s.clients[c].inflight)
    && (if KeyOf(e) in s.pending then s.table[s.pending[KeyOf(e)]].event == e else |s.jobs| < s.queueLimit)
  }

  /** An event is sent again between its answer and the release of it, and admitted. */
  predicate Resends(s: Server, step: Step)
    requires WellNumbered(s)
  {
    match step
    case Admit(c, e, running) =>
      c in s.clients && IsAdmitted(s, c, e, running) && IsReleasing(s.clients[c], e.eventId)
    case _ => false
  }

  // ---- what a step does to a client ----

  /** Nothing new is about to be released, and only what was is given back. */
  ghost predicate Quiet(before: map<ClientId, Client>, after: map<ClientId, Client>, c: ClientId) {
    && c in before && c in after && after[c].machine == before[c].machine
    && (forall id :: IsReleasing(after[c], id) ==> IsReleasing(before[c], id))
    && (forall id :: id in before[c].inflight && id !in after[c].inflight ==> IsReleasing(before[c], id))
  }

  lemma QuietKeepsClean(s: Server, t: Server)
    requires Clean(s) && t.table == s.table && t.responses == s.responses
    requires forall c :: c in t.clients ==> Quiet(s.clients, t.clients, c) || forall n :: !WaitsFor(t, c, n)
    ensures Clean(t)
  {
    forall c, n | c in t.clients && WaitsFor(t, c, n) ensures Placed(t, c, n) {
      assert WaitsFor(s, c, n) && Quiet(s.clients, t.clients, c);
      assert Placed(s, c, n);
    }
  }

  lemma OfferedIsQuiet(clients: map<ClientId, Client>, c: ClientId, o: Outgoing, d: ClientId)
    requires !o.release && d in clients
    ensures Quiet(clients, Offered(clients, c, o), d)
  {
    var after := Offered(clients, c, o);
    forall id | IsReleasing(after[d], id) ensures IsReleasing(clients[d], id) {
      if p :| p in after[d].out && id in ReleasedBy(p) {
        assert p in clients[d].out;
      }
    }
  }

  lemma WriterIsQuiet(s: Server, step: Step, d: ClientId)
    requires WellNumbered(s) && Next(s, step).Some? && d in s.clients
    requires step.WriterTakes? || step.WriterSent? || step.Disconnect?
    ensures Quiet(s.clients, Next(s, step).value.clients, d)
  {
    var t := Next(s, step).value;
    forall id | IsReleasing(t.clients[d], id) ensures IsReleasing(s.clients[d], id) {
      if p :| p in t.clients[d].out && id in ReleasedBy(p) {
        assert p in s.clients[d].out;
      }
    }
  }

  /** Finishing a job starts releasing its event, for those who wait for it. */
  lemma {:induction false} OfferedToAllReleases(clients: map<ClientId, Client>, waiters: seq<ClientId>, o: Outgoing,
                                                c: ClientId)
    requires c in clients
    ensures var after := OfferedToAll(clients, waiters, o);
            && c in after && after[c].machine == clients[c].machine && after[c].inflight == clients[c].inflight
            && forall id :: IsReleasing(after[c], id) ==>
                  IsReleasing(clients[c], id) || (c in waiters && id in ReleasedBy(o))
  {
    if waiters != [] {
      var n := |waiters| - 1;
      OfferedToAllReleases(clients, waiters[..n], o, c);
      var before := OfferedToAll(clients, waiters[..n], o);
      var after := Offered(before, waiters[n], o);
      assert waiters == waiters[..n] + [waiters[n]];
      forall id | IsReleasing(after[c], id)
        ensures IsReleasing(before[c], id) || (c in waiters && id in ReleasedBy(o))
      {
        if p :| p in after[c].out && id in ReleasedBy(p) {
          assert p in before[c].out || (p == o && c == waiters[n]);
        }
      }
    }
  }

  // ---- keeping clean ----

  lemma ReleasesItsEvent(m: Message, id: string, other: string)
    requires About(m, id)
    ensures other in ReleasedBy(Outgoing(m, true)) ==> other == id
  {
  }

  lemma OneJobPerEvent(s: Server, c: ClientId, n: nat, m: nat)
    requires Clean(s) && Keyed(s) && c in s.clients && WaitsFor(s, c, n) && WaitsFor(s, c, m) && n != m
    ensures s.table[n].event.eventId != s.table[m].event.eventId
  {
    assert Placed(s, c, n) && Placed(s, c, m);
    assert KeyOf(s.table[n].event) != KeyOf(s.table[m].event);
  }

  lemma CompleteKeepsClean(s: Server, response: Message)
    requires Clean(s) && Keyed(s) && |s.responses| < |s.table|
    requires About(response, s.table[|s.responses|].event.eventId)
    ensures Clean(Completed(s, |s.responses|, response))
  {
    var n := |s.responses|;
    var t, o := Completed(s, n, response), Outgoing(response, true);
    forall c: ClientId, m: nat | c in t.clients && WaitsFor(t, c, m) ensures Placed(t, c, m) {
      AllOffered(s, n, response, c);
      OfferedToAllReleases(s.clients, s.table[n].waiters, o, c);
      assert WaitsFor(s, c, m) && Placed(s, c, m);
      var id := s.table[m].event.eventId;
      ReleasesItsEvent(response, s.table[n].event.eventId, id);
      if c in s.table[n].waiters {
        OneJobPerEvent(s, c, n, m);
      }
    }
  }

  lemma AllOffered(s: Server, n: nat, response: Message, c: ClientId)
    requires n < |s.table| && c in Completed(s, n, response).clients
    ensures c in s.clients
  {
    OfferedToAllAddsNobody(s.clients, s.table[n].waiters, Outgoing(response, true));
  }

  lemma {:induction false} OfferedToAllAddsNobody(clients: map<ClientId, Client>, waiters: seq<ClientId>, o: Outgoing)
    ensures OfferedToAll(clients, waiters, o).Keys == clients.Keys
  {
    if waiters != [] {
      OfferedToAllAddsNobody(clients, waiters[..|waiters| - 1], o);
    }
  }

  lemma RejectKeepsClean(s: Server, c: ClientId, code: string, id: Option<string>)
    requires Clean(s)
    ensures Clean(Ingress.Rejected(s, c, code, id))
  {
    var t := Ingress.Rejected(s, c, code, id);
    forall d | d in t.clients ensures Quiet(s.clients, t.clients, d) {
      OfferedIsQuiet(s.clients, c, Outgoing(Nack(code, id), false), d);
    }
    QuietKeepsClean(s, t);
  }

  /** Which job an admitted request waits for from then on. */
  function JobOf(s: Server, e: Event): nat {
    if KeyOf(e) in s.pending then s.pending[KeyOf(e)] else |s.table|
  }

  lemma AdmittedWaits(s: Server, c: ClientId, e: Event)
    requires Kept(s) && WellNumbered(s) && c in s.clients && e.machine == s.clients[c].machine
    requires IsAdmitted(s, c, e, true)
    ensures var t, n := Admitted(s, c, e, true), JobOf(s, e);
            && t.responses == s.responses && t.clients == WithInflight(s, c, e.eventId)
            && |s.responses| <= n < |t.table| && t.table[n].event == e && c in t.table[n].waiters
            && (forall d, m :: WaitsFor(t, d, m) ==> WaitsFor(s, d, m) || (d == c && m == n))
            && (forall m :: 0 <= m < |s.table| ==> t.table[m].event == s.table[m].event)
  {
    var n := JobOf(s, e);
    if KeyOf(e) in s.pending {
      assert NoneTwice(s.table[n].waiters);
      JoinedIs(s.clients, s.table[n].waiters, c);
      hide Joined;
    }
    hide Waiting;
    hide Answered;
    hide Bounded;
  }

  lemma AdmitKeepsCleanIff(s: Server, c: ClientId, e: Event)
    requires Kept(s) && WellNumbered(s) && Clean(s)
    requires c in s.clients && e.machine == s.clients[c].machine && IsAdmitted(s, c, e, true)
    ensures Clean(Admitted(s, c, e, true)) <==> !IsReleasing(s.clients[c], e.eventId)
  {
    var t, n := Admitted(s, c, e, true), JobOf(s, e);
    AdmittedWaits(s, c, e);
    hide Admitted;
    hide Kept;
    assert forall id :: IsReleasing(t.clients[c], id) == IsReleasing(s.clients[c], id);
    assert WaitsFor(t, c, n);
    if !IsReleasing(s.clients[c], e.eventId) {
      forall d, m | d in t.clients && WaitsFor(t, d, m) ensures Placed(t, d, m) {
        if d != c || m != n {
          assert WaitsFor(s, d, m) && Placed(s, d, m);
        }
      }
    }
  }

  lemma OtherAdmitsAreRejected(s: Server, c: ClientId, e: Event, running: bool)
    requires Clean(s) && WellNumbered(s) && c in s.clients && !IsAdmitted(s, c, e, running)
    ensures Clean(Admitted(s, c, e, running))
  {
    var id := Some(e.eventId);
    RejectKeepsClean(s, c, "capture_stopped", id);
    RejectKeepsClean(s, c, "busy", id);
    RejectKeepsClean(s, c, "identity_conflict", id);
    hide Ingress.Rejected;
    hide Clean;
  }

  lemma NewClientKeepsClean(s: Server, c: ClientId, machine: string)
    requires Clean(s) && Waiting(s) && WellNumbered(s) && Next(s, Connect(c, machine)).Some?
    ensures Clean(Next(s, Connect(c, machine)).value)
  {
    var t := Next(s, Connect(c, machine)).value;
    forall d, n | d in t.clients && WaitsFor(t, d, n) ensures Placed(t, d, n) {
      assert Attended(s, n);
      assert WaitsFor(s, d, n) && Placed(s, d, n);
    }
  }

  lemma TakeKeepsClean(s: Server)
    requires Kept(s) && WellNumbered(s) && Clean(s) && Next(s, Take).Some?
    ensures Clean(Taken(s))
  {
    FrontOfQueue(s);
    var rest := s.(jobs := s.jobs[1..]);
    assert Clean(rest) by {
      QuietKeepsClean(s, rest);
    }
    if s.jobs[0].Some? && s.stopping {
      CompleteKeepsClean(rest, Stopped(s.table[s.jobs[0].value].event));
    } else {
      QuietKeepsClean(s, Taken(s));
    }
  }

  lemma OtherStepsKeepClean(s: Server, step: Step)
    requires Kept(s) && WellNumbered(s) && Clean(s) && Next(s, step).Some?
    requires step.WriterTakes? || step.WriterSent? || step.Disconnect? || step.Stop? || step.Cease? || step.PutSentinel?
    ensures Clean(Next(s, step).value)
  {
    var t := Next(s, step).value;
    forall d | d in t.clients ensures Quiet(s.clients, t.clients, d) {
      if step.WriterTakes? || step.WriterSent? || step.Disconnect? {
        WriterIsQuiet(s, step, d);
      }
    }
    hide IsReleasing;
    QuietKeepsClean(s, t);
  }

  /** Every step keeps the places exactly, but for an event sent again while its release is on the way. */
  lemma CleanIffNotResent(s: Server, step: Step)
    requires Kept(s) && WellNumbered(s) && Clean(s) && Next(s, step).Some?
    ensures Clean(Next(s, step).value) <==> !Resends(s, step)
  {
    hide Clean;
    hide Kept;
    hide IsReleasing;
    hide IsAdmitted;
    match step {
      case Admit(c, e, running) =>
        if IsAdmitted(s, c, e, running) {
          assert running by {
            AdmittedRuns(s, c, e, running);
          }
          AdmitKeepsCleanIff(s, c, e);
        } else {
          OtherAdmitsAreRejected(s, c, e, running);
        }
      case Connect(c, machine) =>
        KeptWaiting(s);
        NewClientKeepsClean(s, c, machine);
      case Fault(c, code, id) => RejectKeepsClean(s, c, code, id);
      case Take => TakeKeepsClean(s);
      case Finish(o) =>
        KeptWaiting(s);
        CompleteKeepsClean(s, Response(s.table[s.current.value].event, o));
      case _ => OtherStepsKeepClean(s, step);
    }
  }

  lemma AdmittedRuns(s: Server, c: ClientId, e: Event, running: bool)
    requires c in s.clients && WellNumbered(s) && IsAdmitted(s, c, e, running)
    ensures running
  {
  }

  lemma KeptWaiting(s: Server)
    requires Kept(s)
    ensures Waiting(s) && Keyed(s) && (s.current.Some? ==> s.current.value == |s.responses| < |s.table|)
  {
  }

  // ---- the bound ----

  function JobsOf(s: Server, c: ClientId): set<nat> {
    set n: nat | |s.responses| <= n < |s.table| && c in s.table[n].waiters
  }

  lemma {:induction false} PlacesAreEnough(s: Server, c: ClientId, jobs: set<nat>, places: set<string>)
    requires Keyed(s) && Clean(s) && c in s.clients && forall n :: n in jobs ==>
        WaitsFor(s, c, n) && s.table[n].event.eventId in places
    ensures |jobs| <= |places|
    decreases |jobs|
  {
    if n :| n in jobs {
      var id := s.table[n].event.eventId;
      forall m | m in jobs - {n} ensures s.table[m].event.eventId in places - {id} {
        assert Placed(s, c, m) && Placed(s, c, n);
        assert KeyOf(s.table[m].event) == KeyOf(s.table[n].event) ==> m == n;
      }
      PlacesAreEnough(s, c, jobs - {n}, places - {id});
    }
  }

  lemma {:induction false} PoliteRunsAreClean(states: seq<Server>, steps: seq<Step>, i: nat)
    requires Run(states, steps) && i < |states|
    requires forall j :: 0 <= j < i ==> WellNumbered(states[j]) && !Resends(states[j], steps[j])
    ensures Clean(states[i])
  {
    hide Kept;
    hide Resends;
    hide Next;
    if i > 0 {
      var k := i - 1;
      PoliteRunsAreClean(states, steps, k);
      RunKeeps(states, steps, k);
      assert WellNumbered(states[k]) && Next(states[k], steps[k]) == Some(states[k + 1]);
      CleanIffNotResent(states[k], steps[k]);
    }
  }

  /** In every run in which no client sends an event again between its answer and the writer's release of it,
      the unfinished jobs a client waits for number at most its inflight set, and that at most the limit. */
  lemma InflightBoundsJobs(states: seq<Server>, steps: seq<Step>, i: nat, c: ClientId)
    requires Run(states, steps) && i < |states| && c in states[i].clients
    requires forall j :: 0 <= j < i ==> WellNumbered(states[j]) && !Resends(states[j], steps[j])
    ensures |JobsOf(states[i], c)| <= |states[i].clients[c].inflight| <= states[i].maxInflight
  {
    PoliteRunsAreClean(states, steps, i);
    RunKeeps(states, steps, i);
    var s := states[i];
    forall n | n in JobsOf(s, c) ensures WaitsFor(s, c, n) && s.table[n].event.eventId in s.clients[c].inflight {
      assert WaitsFor(s, c, n) && Placed(s, c, n);
    }
    PlacesAreEnough(s, c, JobsOf(s, c), s.clients[c].inflight);
  }

  // ---- a run in which an event is sent again too early ----

  /** The client's first job has just been answered. */
  function JustAnswered(c: ClientId, e: Event): Server {
    var ack := Ack(e.eventId, false);
    Server(2, 1, true, false, false, false, [], map[], [Job(e, [c])], None,
           map[c := Client(e.machine, [Outgoing(ack, true)], None, {e.eventId}, false)], [ack], [Offer(c, 0, ack)],
             {(c, 0)})
  }

  function Greeted(c: ClientId, e: Event): Server {
    Server(2, 1, true, false, false, false, [], map[], [], None, map[c := Client(e.machine, [], None, {}, false)], [],
           [], {})
  }

  function Running(c: ClientId, e: Event): Server {
    Server(2, 1, true, false, false, false, [], map[KeyOf(e) := 0], [Job(e, [c])], Some(0),
           map[c := Client(e.machine, [], None, {e.eventId}, false)], [], [], {(c, 0)})
  }

  lemma GreetsFirst(c: ClientId, e: Event) returns (states: seq<Server>, steps: seq<Step>)
    ensures Run(states, steps) && states[|steps|] == Greeted(c, e)
  {
    hide Admitted;
    hide Taken;
    hide Completed;
    var hello := Outgoing(Ready, false);
    var s0 := Server(2, 1, true, false, false, false, [], map[], [], None, map[], [], [], {});
    var s1 := s0.(clients := s0.clients[c := Client(e.machine, [hello], None, {}, false)]);
    var s2 := s1.(clients := s1.clients[c := Client(e.machine, [], Some(hello), {}, false)]);
    assert [hello][1..] == [];
    assert s2.clients[c].inflight - ReleasedBy(hello) == {};
    assert s2.clients[c := Client(e.machine, [], None, {}, false)] == Greeted(c, e).clients;
    states, steps := [s0, s1, s2, Greeted(c, e)], [Connect(c, e.machine), WriterTakes(c), WriterSent(c)];
  }

  /** Admitting a job that is new, when nothing stands against it. */
  lemma NewJobStep(s: Server, t: Server, c: ClientId, e: Event)
    requires WellNumbered(s) && c in s.clients && e.machine == s.clients[c].machine && s.accepting
    requires |s.jobs| < s.queueLimit && KeyOf(e) !in s.pending
    requires |s.clients[c].inflight| < s.maxInflight || e.eventId in s.clients[c].inflight
    requires t == s.(pending := s.pending[KeyOf(e) := |s.table|], table := s.table + [Job(e, [c])],
                     jobs := s.jobs + [Some(|s.table|)], clients := WithInflight(s, c, e.eventId),
                     asked := s.asked + {(c, |s.table|)})
    ensures Path([s, t], [Admit(c, e, true)])
  {
  }

  lemma FirstJobRuns(c: ClientId, e: Event) returns (states: seq<Server>, steps: seq<Step>)
    ensures Path(states, steps) && states[0] == Greeted(c, e) && states[|steps|] == Running(c, e)
  {
    var s := Greeted(c, e);
    var t := Running(c, e).(jobs := [Some(0)], current := None);
    assert s.clients[c].inflight + {e.eventId} == {e.eventId};
    assert WithInflight(s, c, e.eventId) == t.clients && s.pending[KeyOf(e) := 0] == t.pending;
    assert s.jobs + [Some(0)] == t.jobs && s.table + [Job(e, [c])] == t.table && s.asked + {(c, 0)} == t.asked;
    NewJobStep(s, t, c, e);
    assert [Some(0)][1..] == [];
    hide Admitted;
    hide Completed;
    assert Next(t, Take) == Some(Running(c, e));
    states, steps := [s, t, Running(c, e)], [Admit(c, e, true), Take];
  }

  lemma FirstJobIsAnswered(c: ClientId, e: Event)
    ensures Path([Running(c, e), JustAnswered(c, e)], [Finish(Processed(false))])
  {
    hide Admitted;
    hide Taken;
    var s, ack := Running(c, e), Ack(e.eventId, false);
    assert [c][..0] == [] && s.clients[c].out + [Outgoing(ack, true)] == [Outgoing(ack, true)];
    assert OfferedToAll(s.clients, [c], Outgoing(ack, true)) == JustAnswered(c, e).clients;
    assert s.pending - {KeyOf(e)} == map[] && OffersOf([c], 0, ack) == [Offer(c, 0, ack)];
    assert s.responses + [ack] == [ack] && s.offers + [Offer(c, 0, ack)] == [Offer(c, 0, ack)];
    assert Completed(s, 0, ack) == JustAnswered(c, e);
  }

  /** An event sent again between its answer and the writer's release of it starts a second job; the
      release then makes room for another, so a client can have more jobs waiting than its limit. */
  lemma CanUndercount(c: ClientId, e: Event, f: Event) returns (states: seq<Server>, steps: seq<Step>)
    requires e.eventId != f.eventId && f.machine == e.machine
    ensures Run(states, steps)
    ensures var s := states[|steps|];
            && WaitsFor(s, c, 1) && WaitsFor(s, c, 2) && s.table[1].event != s.table[2].event
            && c in s.clients && |s.clients[c].inflight| <= s.maxInflight == 1
  {
    hide Next;
    hide WellNumbered;
    states, steps := GreetsFirst(c, e);
    var running, runs := FirstJobRuns(c, e);
    PathsJoin(states, steps, running, runs);
    states, steps := states + running[1..], steps + runs;
    FirstJobIsAnswered(c, e);
    PathsJoin(states, steps, [Running(c, e), JustAnswered(c, e)], [Finish(Processed(false))]);
    states, steps := states + [Running(c, e), JustAnswered(c, e)][1..], steps + [Finish(Processed(false))];
    var second, more := SecondJobWaits(c, e);
    PathsJoin(states, steps, second, more);
    states, steps := states + second[1..], steps + more;
    var third, last := ThirdJobWaits(c, e, f);
    PathsJoin(states, steps, third, last);
    states, steps := states + third[1..], steps + last;
  }

  /** The answer is on its way, and the event is there again. */
  function SentAgain(c: ClientId, e: Event): Server {
    var ack := Ack(e.eventId, false);
    Server(2, 1, true, false, false, false, [Some(1)], map[KeyOf(e) := 1], [Job(e, [c]), Job(e, [c])], None,
           map[c := Client(e.machine, [], Some(Outgoing(ack, true)), {e.eventId}, false)], [ack], [Offer(c, 0, ack)],
             {(c, 0), (c, 1)})
  }

  lemma SecondJobWaits(c: ClientId, e: Event) returns (states: seq<Server>, steps: seq<Step>)
    ensures Path(states, steps) && states[0] == JustAnswered(c, e) && states[|steps|] == SentAgain(c, e)
  {
    var answer := Outgoing(Ack(e.eventId, false), true);
    var s0, s2 := JustAnswered(c, e), SentAgain(c, e);
    var s1 := s0.(clients := s0.clients[c := Client(e.machine, [], Some(answer), {e.eventId}, false)]);
    assert [answer][1..] == [] && {e.eventId} + {e.eventId} == {e.eventId};
    assert s1.table + [Job(e, [c])] == s2.table && s1.jobs + [Some(1)] == s2.jobs && s1.asked + {(c, 1)} == s2.asked;
    assert WithInflight(s1, c, e.eventId) == s2.clients && s1.pending[KeyOf(e) := 1] == s2.pending;
    NewJobStep(s1, s2, c, e);
    hide Admitted;
    hide Taken;
    hide Completed;
    assert Path([s0, s1], [WriterTakes(c)]) && Path([s1, s2], [Admit(c, e, true)]);
    PathsJoin([s0, s1], [WriterTakes(c)], [s1, s2], [Admit(c, e, true)]);
    states, steps := [s0, s1] + [s1, s2][1..], [WriterTakes(c)] + [Admit(c, e, true)];
  }

  lemma ThirdJobWaits(c: ClientId, e: Event, f: Event) returns (states: seq<Server>, steps: seq<Step>)
    requires e.eventId != f.eventId && f.machine == e.machine
    ensures Path(states, steps) && states[0] == SentAgain(c, e)
    ensures var s := states[|steps|];
            && |steps| > 0 && WaitsFor(s, c, 1) && WaitsFor(s, c, 2) && s.table[1].event != s.table[2].event
            && c in s.clients && |s.clients[c].inflight| <= s.maxInflight == 1
  {
    var s0 := SentAgain(c, e);
    var s1 := s0.(clients := s0.clients[c := Client(e.machine, [], None, {}, false)]);
    var s2 := s1.(clients := WithInflight(s1, c, f.eventId), jobs := s1.jobs + [Some(2)],
                  pending := s1.pending[KeyOf(f) := 2],
                  table := s1.table + [Job(f, [c])], asked := s1.asked + {(c, 2)});
    assert {e.eventId} - {e.eventId} == {} && s1.clients[c].inflight + {f.eventId} == {f.eventId};
    NewJobStep(s1, s2, c, f);
    hide Admitted;
    hide Taken;
    hide Completed;
    assert Path([s0, s1], [WriterSent(c)]);
    PathsJoin([s0, s1], [WriterSent(c)], [s1, s2], [Admit(c, f, true)]);
    states, steps := [s0, s1] + [s1, s2][1..], [WriterSent(c)] + [Admit(c, f, true)];
    assert s2.jobs[0] == Some(1) && s2.jobs[1] == Some(2);
    assert states[2] == s2;
  }
}
