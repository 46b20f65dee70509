/** A chunk the receiver refuses for its file's name or its offset stops the collector for good: it stays on
    record, and while anything is on record no file is looked at. */
module RelayStuck {
  import opened RelayStore
  import opened RelayCollector
  import opened RelayArchive
  import opened RelayPoll

  /** The archive holds only what the receiver takes. */
  ghost predicate Tidy(a: Archive) {
    forall c :: c in a.chunks ==> WellNamed(c.machine, c.filename) && c.offset <= OFFSET_LIMIT
  }

  ghost predicate Stuck(s: System, name: string) {
    && Wired(s) && Tidy(s.archive)
    && name in s.checkpoint.pending && Unacceptable(s.checkpoint.pending[name])
  }

  lemma NextKeepsTidy(s: System, step: Step)
    requires Tidy(s.archive) && Next(s, step).Some?
    ensures Tidy(Next(s, step).value.archive)
  {
    hide ReadAt;
    hide WholeLines;
    hide WellNamed;
  }

  lemma {:induction false} RunKeepsTidy(s: System, steps: seq<Step>)
    requires Tidy(s.archive) && Run(s, steps).Some?
    ensures Tidy(Run(s, steps).value.archive)
  {
    hide Next;
    hide Tidy;
    if steps != [] {
      var n := |steps| - 1;
      RunKeepsTidy(s, steps[..n]);
      NextKeepsTidy(Run(s, steps[..n]).value, steps[n]);
    }
  }

  /** What may still happen behind such a chunk: other chunks on record are archived and leave the record. */
  ghost predicate HeldUp(s: System, t: System, name: string) {
    && t.phase.Resting? && OnlyPendingMoves(s.checkpoint, t.checkpoint) && name in t.checkpoint.pending
    && (forall n :: n in t.checkpoint.pending ==> t.checkpoint.pending[n] == s.checkpoint.pending[n])
    && (forall c :: c in t.archive.chunks ==> c in s.archive.chunks || IsPendingChunk(s, c))
  }

  predicate IsPendingChunk(s: System, c: Chunk) {
    c.filename in s.checkpoint.pending && c == ChunkOf(s.checkpoint.pending[c.filename])
  }

  lemma HeldUpComposes(s: System, t: System, u: System, name: string)
    requires HeldUp(s, t, name) && HeldUp(t, u, name)
    ensures HeldUp(s, u, name)
  {
  }

  lemma ReceiveHoldsUp(s: System, m: Message, name: string)
    requires Stuck(s, name) && m in s.sent
    ensures HeldUp(s, Receiving(s, m), name)
  {
    assert Expected(s, m);
    if Accepted(s.archive, m).Ok? && ChunkOf(m) in s.archive.chunks {
      ArchivedIsFound(s.archive, m);
    }
    hide WellFormed;
  }

  lemma SettleHoldsUp(s: System, other: string, ack: Ack, name: string)
    requires Stuck(s, name) && other in s.checkpoint.pending && ack in s.acks
    requires Confirms(ack, s.checkpoint.pending[other])
    ensures other != name
  {
    ConfirmedIsArchived(s, other, ack);
    hide Wired;
    var m := s.checkpoint.pending[other];
    assert ChunkOf(m).machine == m.machine && ChunkOf(m).filename == m.filename;
    hide WellNamed;
  }

  lemma NextHoldsUp(s: System, step: Step, name: string)
    requires Stuck(s, name) && Next(s, step).Some?
    ensures HeldUp(s, Next(s, step).value, name) && Stuck(Next(s, step).value, name)
  {
    NextKeepsWired(s, step);
    NextKeepsTidy(s, step);
    var t := Next(s, step).value;
    assert s.phase.Resting? && s.checkpoint.pending != map[];
    match step {
      case Receive(m) => ReceiveHoldsUp(s, m, name);
      case Settle(other, ack) =>
        if Confirms(ack, s.checkpoint.pending[other]) {
          SettleHoldsUp(s, other, ack, name);
          OtherSettledHoldsUp(s, t, other, name);
        } else {
          SameTablesHoldUp(s, t, name);
        }
      case _ => SameTablesHoldUp(s, t, name);
    }
    hide Wired;
    hide Tidy;
    hide HeldUp;
    hide Unacceptable;
  }

  lemma SameTablesHoldUp(s: System, t: System, name: string)
    requires name in s.checkpoint.pending && t.checkpoint == s.checkpoint && t.archive == s.archive && t.phase.Resting?
    ensures HeldUp(s, t, name)
  {
  }

  lemma OtherSettledHoldsUp(s: System, t: System, other: string, name: string)
    requires name in s.checkpoint.pending && other in s.checkpoint.pending && other != name && t.phase.Resting?
    requires t.checkpoint == Checkpointed(s.checkpoint, other, s.checkpoint.pending[other]) && t.archive == s.archive
    ensures HeldUp(s, t, name)
  {
  }

  /** In every continuation the chunk stays on record, no other file is looked at, and nothing is archived but
      chunks that were on record with it. */
  lemma {:induction false} StuckForever(s: System, steps: seq<Step>, name: string)
    requires Stuck(s, name) && Run(s, steps).Some?
    ensures Stuck(Run(s, steps).value, name)
    ensures HeldUp(s, Run(s, steps).value, name)
  {
    hide Next;
    hide Stuck;
    hide HeldUp;
    if steps == [] {
      NothingHeldUp(s, name);
    } else {
      var n := |steps| - 1;
      var t := Run(s, steps[..n]).value;
      StuckForever(s, steps[..n], name);
      NextHoldsUp(t, steps[n], name);
      HeldUpComposes(s, t, Run(s, steps).value, name);
    }
  }

  lemma NothingHeldUp(s: System, name: string)
    requires Stuck(s, name)
    ensures HeldUp(s, s, name)
  {
  }

  /** In every run from the start, once a chunk the receiver refuses is on record, it stays there, no other file is
      looked at, and nothing is archived but chunks that were on record with it. */
  lemma RefusedChunksStopTheRest(start: System, steps: seq<Step>, more: seq<Step>, name: string)
    requires Initial(start) && Run(start, steps).Some? && Run(start, steps + more).Some?
    requires var c := Run(start, steps).value.checkpoint; name in c.pending && Unacceptable(c.pending[name])
    ensures var (t, u) := (Run(start, steps).value, Run(start, steps + more).value);
            HeldUp(t, u, name) && u.checkpoint.pending[name] == t.checkpoint.pending[name]
  {
    InitialIsWired(start);
    InitialIsFaithful(start);
    RunKeeps(start, steps);
    RunKeepsTidy(start, steps);
    RunsJoin(start, steps, more);
    hide Run;
    StuckForever(Run(start, steps).value, more, name);
  }

  // ---- a directory that is never archived ----

  /** The first look at a badly named file with anything in it puts such a chunk on record, and the receiver
      refuses the message. */
  lemma ABadNameIsRefused(s: System, name: string, stream: Stream) returns (steps: seq<Step>)
    requires Initial(s) && name in s.disk && s.disk[name].content != [] && !WellNamed(s.checkpoint.machine, name)
    ensures Run(s, steps).Some?
    ensures var t := Run(s, steps).value;
            && Stuck(t, name) && t.checkpoint.files.Keys == t.checkpoint.pending.Keys == {name} && t.archive == NOTHING
            && t.checkpoint.pending[name] in t.sent && Accepted(t.archive, t.checkpoint.pending[name]).Refused?
  {
    InitialIsWired(s);
    InitialIsFaithful(s);
    ScanIsRun(s, name, stream);
    ScanTakesTheNextBytes(s, name, stream);
    ScannedIs(s.checkpoint, name, s.disk[name], stream);
    var scanned := Run(s, ScanSteps(name, stream)).value;
    steps := ScanSteps(name, stream) + [Post(name)];
    RunSnoc(s, ScanSteps(name, stream), Post(name));
    hide Scanned;
    hide ScanSteps;
    assert name in scanned.checkpoint.pending;
    RunKeeps(s, steps);
    hide Wired;
    hide Faithful;
    UnacceptableIsRefused(NOTHING, scanned.checkpoint.pending[name]);
    hide Accepted;
    hide Run;
  }

  /** And nothing of that directory is ever archived. */
  lemma NothingIsEverArchived(t: System, more: seq<Step>, name: string)
    requires Stuck(t, name) && t.checkpoint.files.Keys == t.checkpoint.pending.Keys == {name} && t.archive == NOTHING
    requires Run(t, more).Some?
    ensures Run(t, more).value.checkpoint.files.Keys == {name} && Run(t, more).value.archive.chunks == []
  {
    StuckForever(t, more, name);
    var u := Run(t, more).value;
    hide Run;
    hide Wired;
    hide WellNamed;
    assert forall c :: c in u.archive.chunks ==> IsPendingChunk(t, c);
    assert forall c :: IsPendingChunk(t, c) ==> c !in u.archive.chunks;
    FirstIsThere(u.archive.chunks);
  }

  lemma FirstIsThere(chunks: seq<Chunk>)
    ensures chunks != [] ==> chunks[0] in chunks
  {
  }

  /** A directory with two logs, one of which has a backslash in its name. */
  function TwoLogs(machine: string): System {
    System(map["a\\b.log" := Entry(1, [NEWLINE]), "c.log" := Entry(2, [NEWLINE])], Checkpoint(machine, map[], map[]),
           NOTHING, Resting, {}, {}, map[], {})
  }

  /** The other log is one the receiver takes, and is never archived. */
  lemma OneBackslashStopsTheDirectory(machine: string) returns (steps: seq<Step>)
    requires 1 <= |machine| <= 100
    ensures Initial(TwoLogs(machine)) && Run(TwoLogs(machine), steps).Some?
    ensures Deliverable(machine, "c.log", TwoLogs(machine).disk["c.log"].content, 0)
    ensures forall more :: Run(TwoLogs(machine), steps + more).Some? ==>
              var u := Run(TwoLogs(machine), steps + more).value;
              "c.log" !in u.checkpoint.files && u.archive.chunks == []
  {
    var s, bad := TwoLogs(machine), "a\\b.log";
    assert bad[1] == '\\' && bad[1] in bad;
    GoodLogIsDeliverable(machine);
    steps := ABadNameIsRefused(s, bad, 0);
    var t := Run(s, steps).value;
    hide Stuck;
    hide Deliverable;
    forall more | Run(s, steps + more).Some?
      ensures var u := Run(s, steps + more).value; "c.log" !in u.checkpoint.files && u.archive.chunks == []
    {
      RunsJoin(s, steps, more);
      NothingIsEverArchived(t, more, bad);
    }
  }

  lemma GoodLogIsDeliverable(machine: string)
    requires 1 <= |machine| <= 100
    ensures Deliverable(machine, "c.log", [NEWLINE], 0)
  {
    assert EndsWith("c.log", ".log");
    assert |NextChunk([NEWLINE], 0)| == 1;
  }
}
