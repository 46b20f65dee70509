/** relay_collector.py poll: the collector as an object with its two tables, polling against the receiver.
    Each poll is a run of the protocol; with a receiver that answers, polling drains every file. */
module RelayPoll {
  import opened Wrappers
  import opened RelayStore
  import opened RelayCollector
  import opened RelayArchive

  type Disk = map<string, Entry>

  /** What becomes of one delivery. */
  datatype Fate = Through | RequestLost | AnswerLost

  // ---- looking at one file ----

  /** What is on record once one listed file has been looked at. */
  function Scanned(c: Checkpoint, name: string, entry: Entry, drawn: Stream): Checkpoint {
    var head := ReadAt(entry.content, 0, HeadLength(c, name));
    var tracked := Tracked(c, name, entry.identity, |entry.content|, head, drawn);
    var payload := WholeLines(ReadAt(entry.content, tracked.files[name].offset, CHUNK_BYTES));
    if payload == [] then tracked else Pended(tracked, name, head, payload)
  }

  function ScanSteps(name: string, drawn: Stream): seq<Step> {
    [Stat(name)] + [Open(drawn)] + [Read]
  }

  lemma ScanIsRun(w: System, name: string, drawn: Stream)
    requires w.phase.Resting? && w.checkpoint.pending == map[] && name in w.disk && drawn !in w.drawn
    ensures Run(w, ScanSteps(name, drawn)).Some?
    ensures var t := Run(w, ScanSteps(name, drawn)).value;
            t == w.(checkpoint := Scanned(w.checkpoint, name, w.disk[name], drawn), drawn := t.drawn)
            && t.drawn.Keys <= w.drawn.Keys + {drawn}
  {
    RunSnoc(w, [], Stat(name));
    assert [] + [Stat(name)] == [Stat(name)];
    RunSnoc(w, [Stat(name)], Open(drawn));
    RunSnoc(w, [Stat(name)] + [Open(drawn)], Read);
    hide ReadAt;
    hide WholeLines;
    hide Pended;
  }

  function Offset(files: map<string, File>, name: string): nat {
    if name in files then files[name].offset else 0
  }

  /** The bytes a look at a grown file puts on record: one to CHUNK_BYTES of them, none only at its end. */
  lemma ScanTakesTheNextBytes(w: System, name: string, drawn: Stream)
    requires Wired(w) && Faithful(w) && w.checkpoint.pending == map[] && name in w.disk && name !in w.rewritten
    ensures var c, entry := w.checkpoint, w.disk[name];
            var t, at := Scanned(c, name, entry, drawn), Offset(c.files, name);
            && name in t.files && t.files[name].offset == at <= |entry.content|
            && t.files.Keys == c.files.Keys + {name} && t.machine == c.machine
            && (forall other :: other in c.files && other != name ==> t.files[other] == c.files[other])
            && (if at == |entry.content| then t.pending == map[]
                else t.pending.Keys == {name} && t.pending[name].offset == at
                     && 1 <= |t.pending[name].payload| <= CHUNK_BYTES
                     && t.pending[name].stream == t.files[name].stream
                     && at + |t.pending[name].payload| <= |entry.content|)
  {
    if name in w.checkpoint.files {
      assert Copied(w, name);
    }
    hide WholeLines;
    hide FirstBytes;
  }

  // ---- one delivery ----

  lemma PostRun(w: System, name: string)
    requires w.phase.Resting? && name in w.checkpoint.pending
    ensures Run(w, [Post(name)]) == Some(w.(sent := w.sent + {w.checkpoint.pending[name]}))
  {
    RunSnoc(w, [], Post(name));
    assert [] + [Post(name)] == [Post(name)];
  }

  lemma ReceiveRun(w: System, name: string)
    requires w.phase.Resting? && name in w.checkpoint.pending
    ensures var m := w.checkpoint.pending[name];
            Run(w, [Post(name)] + [Receive(m)]) == Some(Receiving(w.(sent := w.sent + {m}), m))
  {
    hide Run;
    PostRun(w, name);
    RunSnoc(w, [Post(name)], Receive(w.checkpoint.pending[name]));
  }

  lemma SettleRun(w: System, name: string, ack: Ack)
    requires w.phase.Resting? && name in w.checkpoint.pending && Confirms(ack, w.checkpoint.pending[name])
    requires ack in Receiving(w.(sent := w.sent + {w.checkpoint.pending[name]}), w.checkpoint.pending[name]).acks
    ensures var m := w.checkpoint.pending[name];
            Run(w, [Post(name)] + [Receive(m)] + [Settle(name, ack)])
            == Some(Receiving(w.(sent := w.sent + {m}), m).(checkpoint := Checkpointed(w.checkpoint, name, m)))
  {
    hide Run;
    hide Confirms;
    ReceiveRun(w, name);
    RunSnoc(w, [Post(name)] + [Receive(w.checkpoint.pending[name])], Settle(name, ack));
  }

  // ---- the object ----

  class Collector {
    const machine: string
    var files: map<string, File>
    var pending: map<string, Message>

    function Snapshot(): Checkpoint
      reads this
    {
      Checkpoint(machine, files, pending)
    }

    constructor (machine: string)
      ensures Snapshot() == Checkpoint(machine, map[], map[])
    {
      this.machine := machine;
      files, pending := map[], map[];
    }

    /** The collector and the receiver stand where the protocol's state says. */
    ghost predicate At(w: System, store: RelayLogStore)
      reads this, store
    {
      w.checkpoint == Snapshot() && w.archive == store.Snapshot() && w.phase.Resting?
    }

    method DeliverPending(name: string, store: RelayLogStore, fate: Fate, ghost w: System)
      returns (ok: bool, ghost steps: seq<Step>, ghost t: System)
      requires At(w, store) && name in pending
      modifies this, store
      ensures Run(w, steps) == Some(t) && At(t, store)
      ensures t == w.(checkpoint := t.checkpoint, archive := t.archive, sent := t.sent, acks := t.acks)
      ensures Snapshot() == if ok then Checkpointed(old(Snapshot()), name, old(pending[name])) else old(Snapshot())
      ensures Unacceptable(old(pending[name])) ==> !ok
      ensures Wired(w) && fate == Through ==> (ok <==> !Unacceptable(old(pending[name])))
    {
      hide Wired;
      hide Accepted;
      hide WellNamed;
      hide Confirms;
      hide Next;
      hide Run;
      var m := pending[name];
      ok := false;
      if Wired(w) {
        PostedIsAccepted(w, name);
      }
      if Unacceptable(m) {
        UnacceptableIsRefused(store.Snapshot(), m);
      }
      hide Unacceptable;
      PostRun(w, name);
      steps, t := [Post(name)], w.(sent := w.sent + {m});
      if fate == RequestLost {
        return;
      }
      ReceiveRun(w, name);
      steps, t := steps + [Receive(m)], Receiving(t, m);
      var answer := store.Accept(m);
      if answer.Refused? || fate == AnswerLost || !Confirms(answer.value, m) {
        return;
      }
      SettleRun(w, name, answer.value);
      steps, t := steps + [Settle(name, answer.value)], t.(checkpoint := Checkpointed(t.checkpoint, name, m));
      if name in files && files[name].stream == m.stream && 0 <= m.offset {
        files := files[name := files[name].(offset := m.offset + |m.payload|)];
      }
      pending := pending - {name};
      ok := true;
    }

    /** Looking at one file, up to the chunk that goes on record. */
    method Scan(name: string, entry: Entry, drawn: Stream)
      requires pending == map[]
      modifies this
      ensures Snapshot() == Scanned(old(Snapshot()), name, entry, drawn)
    {
      var head := ReadAt(entry.content, 0, HeadLength(Snapshot(), name));
      if Reset(Snapshot(), name, entry.identity, |entry.content|, head) {
        files := files[name := File(drawn, entry.identity, 0, head)];
      }
      var payload := WholeLines(ReadAt(entry.content, files[name].offset, CHUNK_BYTES));
      if payload == [] {
        return;
      }
      pending := pending[name := Envelope(Snapshot(), name, payload)];
      if head == [] && files[name].offset == 0 {
        files := files[name := files[name].(prefix := FirstBytes(payload))];
      }
    }

    /** One file of a poll: what is put on record is delivered at once. */
    method Follow(disk: Disk, name: string, drawn: Stream, store: RelayLogStore, fate: Fate,
                  ghost w: System)
      returns (ok: bool, delivered: bool, ghost steps: seq<Step>, ghost t: System)
      requires At(w, store) && w.disk == disk && name in disk && pending == map[] && drawn !in w.drawn
      modifies this, store
      ensures Run(w, steps) == Some(t) && At(t, store) && t.disk == disk && t.rewritten == w.rewritten
      ensures t.drawn.Keys <= w.drawn.Keys + {drawn}
      ensures ok ==> pending == map[]
      ensures Wired(w) && Faithful(w) && name !in w.rewritten && fate == Through ==>
                && SameDrain(old(Snapshot()), Snapshot(), disk)
                && if ok then Followed(old(files), files, disk[name].content, name, delivered)
                   else !delivered && Halted(old(files), files, name) && IsStuckAt(Snapshot(), name)
    {
      hide Scanned;
      hide ScanSteps;
      hide Wired;
      hide Faithful;
      hide Next;
      hide Run;
      hide Unacceptable;
      hide SameDrain;
      ghost var good := Wired(w) && Faithful(w) && name !in w.rewritten;
      ghost var scanned := Scanned(Snapshot(), name, disk[name], drawn);
      if good {
        ScanTakesTheNextBytes(w, name, drawn);
        RunKeepsIf(w, ScanSteps(name, drawn));
        ScannedDrains(w, name, drawn);
      }
      ScanIsRun(w, name, drawn);
      Scan(name, disk[name], drawn);
      steps, t := ScanSteps(name, drawn), Run(w, ScanSteps(name, drawn)).value;
      ok, delivered := true, false;
      OnlyOwnPending(old(Snapshot()), name, disk[name], drawn);
      if name in pending {
        ghost var more, put := steps, t;
        if good && !Unacceptable(pending[name]) {
          CheckpointedDrains(put, name);
          SameDrainJoins(old(Snapshot()), scanned, Checkpointed(scanned, name, pending[name]), disk);
        }
        ok, more, t := DeliverPending(name, store, fate, t);
        RunsJoin(w, steps, more);
        steps := steps + more;
        delivered := ok;
      }
    }

    /** First, everything still on record. */
    method DeliverAll(store: RelayLogStore, fates: nat -> Fate, ghost w: System, ghost listing: seq<string>)
      returns (delivered: nat, failed: bool, ghost steps: seq<Step>, ghost t: System)
      requires At(w, store)
      modifies this, store
      ensures Run(w, steps) == Some(t) && At(t, store) && t.disk == w.disk && t.rewritten == w.rewritten
      ensures t.drawn == w.drawn
      ensures !failed ==> pending == map[]
      ensures BadStays(old(Snapshot()), Snapshot()) && OnlyPendingMoves(old(Snapshot()), Snapshot())
      ensures Smooth(w, listing, fates) ==>
                && Smooth(t, listing, fates) && Progress(old(files), files, w.disk, listing, delivered)
                && SameDrain(old(Snapshot()), Snapshot(), w.disk) && (failed ==> HasBad(Snapshot()))
    {
      hide Next;
      hide Run;
      delivered, failed, steps, t := 0, false, [], w;
      RunNothing(w);
      if Smooth(w, listing, fates) {
        NoProgressYet(w, listing);
      }
      hide Progress;
      hide Smooth;
      hide Unacceptable;
      hide SameDrain;
      while pending != map[]
        invariant Run(w, steps) == Some(t) && At(t, store) && t.disk == w.disk && t.rewritten == w.rewritten
        invariant t.drawn == w.drawn
        invariant BadStays(old(Snapshot()), Snapshot()) && OnlyPendingMoves(old(Snapshot()), Snapshot())
        invariant Smooth(w, listing, fates) ==>
                    && Smooth(t, listing, fates) && Progress(old(files), files, w.disk, listing, delivered)
                    && SameDrain(old(Snapshot()), Snapshot(), w.disk)
        decreases pending.Keys
      {
        var name :| name in pending;
        ghost var now, more, m, was := t, steps, pending[name], Snapshot();
        if Smooth(w, listing, fates) {
          SmoothDelivery(old(files), old(Snapshot()), t, name, listing, fates, delivered);
        }
        var ok;
        ok, more, t := DeliverPending(name, store, fates(delivered), t);
        RunsJoin(w, steps, more);
        steps := steps + more;
        if Smooth(w, listing, fates) {
          StaysSmooth(now, t, more, listing, fates);
        }
        if !ok {
          return delivered, true, steps, t;
        }
        DeliveredMoves(old(Snapshot()), was, name);
        delivered := delivered + 1;
      }
    }

    /** A poll: everything still on record, then every listed file; the first failed delivery ends it.
        disks(i) is what the i-th look sees: between two looks files may be appended to and new ones appear.
        New stream identities are drawn from `first` on. */
    method Poll(disks: nat -> Disk, listing: seq<string>, first: nat, store: RelayLogStore, fates: nat -> Fate,
                ghost w: System)
      returns (delivered: nat, failed: bool, ghost steps: seq<Step>, ghost t: System)
      requires At(w, store) && w.disk == disks(0) && OnlyGrow(disks)
      requires forall name :: name in listing ==> name in w.disk
      requires forall stream :: stream in w.drawn ==> stream < first
      modifies this, store
      ensures Run(w, steps) == Some(t) && At(t, store) && t.rewritten == w.rewritten
      ensures if failed then exists i :: 0 <= i < |listing| + 1 && t.disk == disks(i) else t.disk == disks(|listing|)
      ensures forall stream :: stream in t.drawn ==> stream < first + |listing|
      ensures HasBad(old(Snapshot())) ==>
                failed && BadStays(old(Snapshot()), Snapshot()) && OnlyPendingMoves(old(Snapshot()), Snapshot())
      ensures Smooth(w, listing, fates) ==>
                && Smooth(t, listing, fates) && Progress(old(files), files, t.disk, listing, delivered)
                && (if failed then HasBad(Snapshot())
                    else && pending == map[]
                         && forall i :: 0 <= i < |listing| ==> Reached(old(files), files, disks(i), listing[i]))
                && (Steady(disks) ==> SameDrain(old(Snapshot()), Snapshot(), w.disk))
    {
      hide Wired;
      hide Faithful;
      hide Next;
      hide Run;
      hide Unacceptable;
      delivered, failed, steps, t := DeliverAll(store, fates, w, listing);
      if failed {
        return;
      }
      ghost var smooth := Smooth(w, listing, fates);
      hide Smooth;
      hide Progress;
      hide Reached;
      hide Followed;
      hide Halted;
      hide SameDrain;
      hide BadStays;
      hide OnlyPendingMoves;
      hide Grew;
      hide OnlyGrow;
      hide HasBad;
      for i := 0 to |listing|
        invariant Run(w, steps) == Some(t) && At(t, store) && t.disk == disks(i) && t.rewritten == w.rewritten
        invariant forall stream :: stream in t.drawn ==> stream < first + i
        invariant pending == map[] && !HasBad(old(Snapshot()))
        invariant smooth ==>
                    && Smooth(t, listing, fates) && Progress(old(files), files, disks(i), listing, delivered)
                    && (forall k :: 0 <= k < i ==> Reached(old(files), files, disks(k), listing[k]))
                    && (Steady(disks) ==> SameDrain(old(Snapshot()), Snapshot(), w.disk))
      {
        var name := listing[i];
        ghost var now, more, was, c := t, steps, files, Snapshot();
        DisksGrow(disks, i, name);
        if smooth {
          SmoothLook(t, listing, i, fates, delivered);
        }
        var ok, sent;
        ok, sent, more, t := Follow(disks(i), name, first + i, store, fates(delivered), t);
        RunsJoin(w, steps, more);
        steps := steps + more;
        if smooth {
          LookedIsSmooth(now, t, more, name, listing, fates);
          if Steady(disks) {
            SameDrainJoins(old(Snapshot()), c, Snapshot(), w.disk);
          }
        }
        if !ok {
          if smooth {
            HaltedIsProgress(old(files), was, files, disks(i), listing, name, delivered);
          }
          return delivered, true, steps, t;
        }
        if smooth {
          FollowedIsProgress(old(files), was, files, disks, listing, i, delivered, sent);
          ProgressGrows(old(files), files, disks, i, listing, delivered + if sent then 1 else 0);
        }
        delivered := delivered + if sent then 1 else 0;
        ghost var growth := GrowthIsRun(t, disks(i + 1), disks(i + 1).Keys);
        RunsJoin(w, steps, growth);
        steps := steps + growth;
        if smooth {
          GrownIsSmooth(t, disks(i + 1), growth, listing, fates);
        }
        t := t.(disk := disks(i + 1));
      }
    }
  }

  // ---- chunks the receiver never takes ----

  /** A refused chunk on record stays there. */
  ghost predicate BadStays(before: Checkpoint, after: Checkpoint) {
    forall name :: name in before.pending && Unacceptable(before.pending[name]) ==>
      name in after.pending && after.pending[name] == before.pending[name]
  }

  /** Nothing new goes on record, and no file moves but those with a chunk on record. */
  ghost predicate OnlyPendingMoves(before: Checkpoint, after: Checkpoint) {
    && after.machine == before.machine && after.pending.Keys <= before.pending.Keys
    && after.files.Keys == before.files.Keys
    && forall name :: name in before.files && name !in before.pending ==> after.files[name] == before.files[name]
  }

  ghost predicate HasBad(c: Checkpoint) {
    exists name :: name in c.pending && Unacceptable(c.pending[name])
  }

  predicate IsStuckAt(c: Checkpoint, name: string) {
    c.pending.Keys == {name} && Unacceptable(c.pending[name])
  }

  lemma DeliveredMoves(start: Checkpoint, c: Checkpoint, name: string)
    requires BadStays(start, c) && OnlyPendingMoves(start, c) && name in c.pending && !Unacceptable(c.pending[name])
    ensures BadStays(start, Checkpointed(c, name, c.pending[name]))
    ensures OnlyPendingMoves(start, Checkpointed(c, name, c.pending[name]))
  {
    hide Unacceptable;
  }

  /** What a look at the file from `at` on would put on record next. */
  function NextChunk(content: Bytes, at: nat): (r: Bytes)
    ensures at < |content| ==> 1 <= |r| <= |content| - at
  {
    WholeLines(ReadAt(content, at, CHUNK_BYTES))
  }

  /** From `at` on, no chunk of the file is badly named or lies beyond the limit. */
  predicate Deliverable(machine: string, name: string, content: Bytes, at: nat)
    decreases if at < |content| then |content| - at else 0
  {
    at < |content| ==>
      && WellNamed(machine, name) && at <= OFFSET_LIMIT
      && Deliverable(machine, name, content, at + |NextChunk(content, at)|)
  }

  /** The chunk on record, if there is one, and all that follow are taken by the receiver. */
  predicate CanDrain(c: Checkpoint, name: string, content: Bytes) {
    if name in c.pending then
      var m := c.pending[name];
      !Unacceptable(m) && 0 <= m.offset && Deliverable(c.machine, name, content, m.offset + |m.payload|)
    else Deliverable(c.machine, name, content, Offset(c.files, name))
  }

  ghost predicate SameDrain(before: Checkpoint, after: Checkpoint, disk: Disk) {
    forall name :: name in disk ==>
      (CanDrain(after, name, disk[name].content) <==> CanDrain(before, name, disk[name].content))
  }

  lemma SameDrainJoins(a: Checkpoint, b: Checkpoint, c: Checkpoint, disk: Disk)
    requires SameDrain(a, b, disk) && SameDrain(b, c, disk)
    ensures SameDrain(a, c, disk)
  {
    hide CanDrain;
  }

  /** Two checkpoints that differ only in one file, which can be drained from either or from neither. */
  lemma DrainsAlike(c: Checkpoint, d: Checkpoint, disk: Disk, name: string)
    requires d.machine == c.machine
    requires forall other :: other != name ==> Offset(d.files, other) == Offset(c.files, other)
    requires forall other :: other != name ==>
               && (other in d.pending <==> other in c.pending)
               && (other in c.pending ==> d.pending[other] == c.pending[other])
    requires name in disk ==> (CanDrain(d, name, disk[name].content) <==> CanDrain(c, name, disk[name].content))
    ensures SameDrain(c, d, disk)
  {
    hide Deliverable;
    hide Unacceptable;
    hide Offset;
  }

  lemma ReadCanDrain(c: Checkpoint, d: Checkpoint, name: string, content: Bytes)
    requires name !in c.pending && name in d.files && d.machine == c.machine
    requires d.files[name].offset == Offset(c.files, name)
    requires name in d.pending <==> Offset(c.files, name) < |content|
    requires name in d.pending ==>
               && d.pending[name].payload == NextChunk(content, d.files[name].offset)
               && d.pending[name].machine == c.machine && d.pending[name].filename == name
               && d.pending[name].offset == d.files[name].offset
    ensures CanDrain(d, name, content) <==> CanDrain(c, name, content)
  {
    hide NextChunk;
    hide WellNamed;
  }

  /** Reading a file's next chunk does not change whether it can be drained. */
  lemma ScannedDrains(w: System, name: string, drawn: Stream)
    requires Wired(w) && Faithful(w) && w.checkpoint.pending == map[] && name in w.disk && name !in w.rewritten
    ensures SameDrain(w.checkpoint, Scanned(w.checkpoint, name, w.disk[name], drawn), w.disk)
  {
    hide SameDrain;
    hide CanDrain;
    hide NextChunk;
    var c, d := w.checkpoint, Scanned(w.checkpoint, name, w.disk[name], drawn);
    ScanTakesTheNextBytes(w, name, drawn);
    ScannedIs(c, name, w.disk[name], drawn);
    hide Scanned;
    hide Wired;
    hide Faithful;
    ReadCanDrain(c, d, name, w.disk[name].content);
    DrainsAlike(c, d, w.disk, name);
  }

  /** What a look puts on record. */
  lemma ScannedIs(c: Checkpoint, name: string, entry: Entry, drawn: Stream)
    requires c.pending == map[]
    ensures var d := Scanned(c, name, entry, drawn);
            && name in d.files && d.pending.Keys <= {name} && d.machine == c.machine
            && (forall other :: other != name ==> Offset(d.files, other) == Offset(c.files, other))
            && (name in d.pending ==>
                  && d.pending[name].payload == NextChunk(entry.content, d.files[name].offset)
                  && d.pending[name].machine == c.machine && d.pending[name].filename == name
                  && d.pending[name].offset == d.files[name].offset)
  {
    hide ReadAt;
    hide WholeLines;
    hide FirstBytes;
  }

  lemma CheckpointedCanDrain(c: Checkpoint, name: string, content: Bytes)
    requires name in c.pending && name in c.files && c.files[name].stream == c.pending[name].stream
    requires 0 <= c.pending[name].offset && !Unacceptable(c.pending[name])
    ensures CanDrain(Checkpointed(c, name, c.pending[name]), name, content) <==> CanDrain(c, name, content)
  {
    hide Deliverable;
    hide Unacceptable;
  }

  /** Neither does a delivery. */
  lemma CheckpointedDrains(w: System, name: string)
    requires Wired(w) && Faithful(w) && name in w.checkpoint.pending && name !in w.rewritten
    requires !Unacceptable(w.checkpoint.pending[name])
    ensures SameDrain(w.checkpoint, Checkpointed(w.checkpoint, name, w.checkpoint.pending[name]), w.disk)
  {
    hide SameDrain;
    hide CanDrain;
    hide Unacceptable;
    PendingIsNext(w, name);
    hide Wired;
    hide Faithful;
    CheckpointedCanDrain(w.checkpoint, name, w.disk[name].content);
    DrainsAlike(w.checkpoint, Checkpointed(w.checkpoint, name, w.checkpoint.pending[name]), w.disk, name);
  }

  /** The failed delivery moved no checkpoint. */
  ghost predicate Halted(before: map<string, File>, after: map<string, File>, name: string) {
    && (forall other :: Offset(after, other) == Offset(before, other))
    && after.Keys == before.Keys + {name}
  }

  lemma HaltedIsProgress(before: map<string, File>, now: map<string, File>, after: map<string, File>, disk: Disk,
                         listing: seq<string>, name: string, delivered: nat)
    requires Progress(before, now, disk, listing, delivered) && Halted(now, after, name)
    ensures Progress(before, after, disk, listing, delivered)
  {
  }

  // ---- files that grow while a poll goes through them ----

  ghost predicate Grew(before: Disk, after: Disk) {
    forall name :: name in before ==>
      name in after && after[name].identity == before[name].identity && before[name].content <= after[name].content
  }

  ghost predicate OnlyGrow(disks: nat -> Disk) {
    forall i: nat, j: nat :: i <= j ==> Grew(disks(i), disks(j))
  }

  lemma DisksGrow(disks: nat -> Disk, i: nat, name: string)
    requires OnlyGrow(disks) && name in disks(0)
    ensures name in disks(i) && Grew(disks(i), disks(i + 1))
  {
    assert Grew(disks(0), disks(i));
  }

  ghost predicate Steady(disks: nat -> Disk) {
    forall i: nat :: disks(i) == disks(0)
  }

  /** Growth is appending, one file after the other. */
  lemma {:induction false} GrowthIsRun(w: System, disk: Disk, names: set<string>) returns (steps: seq<Step>)
    requires Grew(w.disk, disk) && forall name :: name in disk && name !in names ==>
               name in w.disk && w.disk[name] == disk[name]
    ensures Run(w, steps) == Some(w.(disk := disk))
    decreases names
  {
    hide Run;
    if names == {} {
      RunNothing(w);
      assert w.disk == disk;
      steps := [];
    } else {
      var name :| name in names;
      if name in disk {
        var known := if name in w.disk then w.disk[name].content else [];
        var step := Append(name, disk[name].identity, disk[name].content[|known|..]);
        var next := Next(w, step).value;
        assert known + disk[name].content[|known|..] == disk[name].content;
        assert next == w.(disk := w.disk[name := disk[name]]);
        var rest := GrowthIsRun(next, disk, names - {name});
        RunSnoc(w, [], step);
        RunNothing(w);
        assert [] + [step] == [step];
        RunsJoin(w, [step], rest);
        steps := [step] + rest;
      } else {
        steps := GrowthIsRun(w, disk, names - {name});
      }
    }
  }

  lemma SmoothLook(w: System, listing: seq<string>, i: nat, fates: nat -> Fate, delivered: nat)
    requires Smooth(w, listing, fates) && i < |listing|
    ensures Wired(w) && Faithful(w) && listing[i] in w.disk && listing[i] !in w.rewritten
    ensures fates(delivered) == Through
  {
    hide Wired;
    hide Faithful;
    assert listing[i] in listing;
  }

  /** After a look at one listed file, delivered or not. */
  lemma LookedIsSmooth(w: System, t: System, steps: seq<Step>, name: string, listing: seq<string>, fates: nat -> Fate)
    requires Smooth(w, listing, fates) && Run(w, steps) == Some(t) && name in listing
    requires t.checkpoint.pending.Keys <= {name} && t.checkpoint.machine == w.checkpoint.machine
    requires t.disk == w.disk && t.rewritten == w.rewritten
    ensures Smooth(t, listing, fates)
  {
    hide Run;
    hide Wired;
    hide Faithful;
    RunKeepsIf(w, steps);
  }

  lemma GrownIsSmooth(w: System, disk: Disk, steps: seq<Step>, listing: seq<string>, fates: nat -> Fate)
    requires Smooth(w, listing, fates) && Run(w, steps) == Some(w.(disk := disk)) && Grew(w.disk, disk)
    ensures Smooth(w.(disk := disk), listing, fates)
  {
    hide Run;
    hide Wired;
    hide Faithful;
    RunKeepsIf(w, steps);
  }

  lemma ProgressGrows(before: map<string, File>, after: map<string, File>, disks: nat -> Disk, i: nat,
                      listing: seq<string>, delivered: nat)
    requires OnlyGrow(disks) && Progress(before, after, disks(i), listing, delivered)
    ensures Progress(before, after, disks(i + 1), listing, delivered)
  {
    assert Grew(disks(i), disks(i + 1));
  }

  /** Either the file was wholly on record before, or its checkpoint moved. */
  ghost predicate Reached(before: map<string, File>, after: map<string, File>, disk: Disk, name: string) {
    name in disk && name in after
      && (Offset(before, name) < |disk[name].content| ==> Offset(before, name) < Offset(after, name))
  }

  lemma FollowedIsProgress(before: map<string, File>, now: map<string, File>, after: map<string, File>,
                           disks: nat -> Disk, listing: seq<string>, i: nat, delivered: nat, sent: bool)
    requires i < |listing| && listing[i] in disks(i) && Progress(before, now, disks(i), listing, delivered)
    requires forall k :: 0 <= k < i ==> Reached(before, now, disks(k), listing[k])
    requires Followed(now, after, disks(i)[listing[i]].content, listing[i], sent)
    ensures Progress(before, after, disks(i), listing, delivered + if sent then 1 else 0)
    ensures forall k :: 0 <= k < i + 1 ==> Reached(before, after, disks(k), listing[k])
  {
    assert forall name :: name in listing ==> Offset(now, name) <= Offset(after, name);
    if sent {
      assert listing[i] in listing && Offset(before, listing[i]) < Offset(after, listing[i]);
    }
  }

  /** A receiver that answers, and listed files that were only appended to. */
  ghost predicate Smooth(w: System, listing: seq<string>, fates: nat -> Fate) {
    && Wired(w) && Faithful(w) && (forall k :: fates(k) == Through)
    && (forall name :: name in listing ==> name in w.disk && name !in w.rewritten)
    && (forall name :: name in w.checkpoint.pending ==> name in listing)
  }

  /** No checkpoint moves back or past the end of its file; something was delivered exactly if one moved. */
  ghost predicate Progress(
    before: map<string, File>, after: map<string, File>, disk: Disk, listing: seq<string>, delivered: nat)
  {
    && (forall name :: name in listing ==>
          name in disk && Offset(before, name) <= Offset(after, name) <= |disk[name].content|)
    && (delivered > 0 <==> exists name :: name in listing && Offset(before, name) < Offset(after, name))
  }

  lemma NoProgressYet(w: System, listing: seq<string>)
    requires Faithful(w)
    requires forall name :: name in listing ==> name in w.disk && name !in w.rewritten
    ensures Progress(w.checkpoint.files, w.checkpoint.files, w.disk, listing, 0)
  {
    forall name | name in listing ensures Offset(w.checkpoint.files, name) <= |w.disk[name].content| {
      if name in w.checkpoint.files {
        assert Copied(w, name);
      }
    }
  }

  /** What is on record for a grown file are its next bytes. */
  lemma PendingIsNext(w: System, name: string)
    requires Wired(w) && Faithful(w) && name in w.checkpoint.pending && name !in w.rewritten
    ensures name in w.checkpoint.files && name in w.disk
    ensures var f, m := w.checkpoint.files[name], w.checkpoint.pending[name];
            m.stream == f.stream && m.offset == f.offset && 1 <= |m.payload|
              && f.offset + |m.payload| <= |w.disk[name].content|
  {
    assert InStep(w, name) && Copied(w, name);
  }

  /** Whether one delivery of a smooth poll goes through, and the progress it then makes. */
  lemma SmoothDelivery(before: map<string, File>, start: Checkpoint, w: System, name: string, listing: seq<string>,
                       fates: nat -> Fate, delivered: nat)
    requires Smooth(w, listing, fates) && name in w.checkpoint.pending
    requires Progress(before, w.checkpoint.files, w.disk, listing, delivered)
    requires SameDrain(start, w.checkpoint, w.disk)
    ensures Wired(w) && fates(delivered) == Through
    ensures var after := Checkpointed(w.checkpoint, name, w.checkpoint.pending[name]);
            !Unacceptable(w.checkpoint.pending[name]) ==>
              && Progress(before, after.files, w.disk, listing, delivered + 1) && SameDrain(start, after, w.disk)
  {
    if !Unacceptable(w.checkpoint.pending[name]) {
      DeliveredIsProgress(before, w, name, listing, delivered);
      CheckpointedDrains(w, name);
      SameDrainJoins(start, w.checkpoint, Checkpointed(w.checkpoint, name, w.checkpoint.pending[name]), w.disk);
    }
    hide Wired;
    hide Faithful;
    hide Progress;
    hide SameDrain;
    hide Unacceptable;
  }

  lemma StaysSmooth(w: System, t: System, steps: seq<Step>, listing: seq<string>, fates: nat -> Fate)
    requires Smooth(w, listing, fates) && Run(w, steps) == Some(t)
    requires t == w.(checkpoint := t.checkpoint, archive := t.archive, sent := t.sent, acks := t.acks)
    requires t.checkpoint.pending.Keys <= w.checkpoint.pending.Keys && t.checkpoint.machine == w.checkpoint.machine
    ensures Smooth(t, listing, fates)
  {
    hide Run;
    hide Wired;
    hide Faithful;
    RunKeepsIf(w, steps);
  }

  lemma DeliveredIsProgress(before: map<string, File>, w: System, name: string, listing: seq<string>, delivered: nat)
    requires Wired(w) && Faithful(w) && name in w.checkpoint.pending && name !in w.rewritten && name in listing
    requires Progress(before, w.checkpoint.files, w.disk, listing, delivered)
    ensures Progress(before, Checkpointed(w.checkpoint, name, w.checkpoint.pending[name]).files, w.disk, listing,
                     delivered + 1)
  {
    PendingIsNext(w, name);
    hide Wired;
    hide Faithful;
    var after := Checkpointed(w.checkpoint, name, w.checkpoint.pending[name]).files;
    assert Offset(before, name) < Offset(after, name);
  }

  lemma RunNothing(w: System)
    ensures Run(w, []) == Some(w)
  {
  }

  /** Unread bytes moved the checkpoint on by one to CHUNK_BYTES; no other file's row changed. */
  ghost predicate Followed(before: map<string, File>, after: map<string, File>, content: Bytes, name: string,
                           delivered: bool)
  {
    && name in after && after.Keys == before.Keys + {name}
    && (forall other :: other in before && other != name ==> after[other] == before[other])
    && (delivered <==> Offset(before, name) < |content|)
    && (if delivered then Offset(before, name) < after[name].offset <= Offset(before, name) + CHUNK_BYTES
        else after[name].offset == Offset(before, name))
    && after[name].offset <= |content|
  }

  lemma OnlyOwnPending(c: Checkpoint, name: string, entry: Entry, drawn: Stream)
    requires c.pending == map[]
    ensures Scanned(c, name, entry, drawn).pending.Keys <= {name}
  {
    hide ReadAt;
    hide WholeLines;
  }

  // ---- polling until nothing is left ----

  function Unread(files: map<string, File>, disk: Disk, listing: seq<string>): nat
    requires forall name :: name in listing ==> name in disk && Offset(files, name) <= |disk[name].content|
  {
    if listing == [] then 0
    else |disk[listing[0]].content| - Offset(files, listing[0]) + Unread(files, disk, listing[1..])
  }

  lemma {:induction false} UnreadShrinks(
    before: map<string, File>, after: map<string, File>, disk: Disk, listing: seq<string>)
    requires forall name :: name in listing ==>
               name in disk && Offset(before, name) <= Offset(after, name) <= |disk[name].content|
    ensures Unread(after, disk, listing) <= Unread(before, disk, listing)
    ensures (exists name :: name in listing && Offset(before, name) < Offset(after, name)) ==>
              Unread(after, disk, listing) < Unread(before, disk, listing)
  {
    if listing != [] {
      UnreadShrinks(before, after, disk, listing[1..]);
    }
  }

  /** Every listed file can be drained. */
  ghost predicate AllDrain(c: Checkpoint, disk: Disk, listing: seq<string>) {
    forall name :: name in listing ==> name in disk && CanDrain(c, name, disk[name].content)
  }

  /** The archive holds every listed file, byte for byte. */
  ghost predicate Archived(t: System, listing: seq<string>) {
    forall name :: name in listing ==>
      && name in t.disk && name in t.checkpoint.files
      && Stored(t.archive.chunks, t.checkpoint.files[name].stream) == t.disk[name].content
  }

  /** A reader that pages a drained archive to its end puts together every listed file, byte for byte. */
  lemma DrainedFeedIsTheDirectory(t: System, listing: seq<string>, requests: seq<Request>)
    requires Archived(t, listing) && ReadToTheEnd(requests, t.archive)
    requires forall r :: r in requests ==> r.archive.chunks <= t.archive.chunks
    ensures forall name :: name in listing ==>
              name in t.disk && name in t.checkpoint.files
              && BytesOf(Paged(requests).records, t.checkpoint.files[name].stream) == t.disk[name].content
  {
    forall name | name in listing
      ensures name in t.disk && name in t.checkpoint.files
      ensures BytesOf(Paged(requests).records, t.checkpoint.files[name].stream) == t.disk[name].content
    {
      PagedToTheEndIsAll(requests, t.archive, t.checkpoint.files[name].stream);
    }
  }

  lemma SameAllDrain(before: Checkpoint, after: Checkpoint, disk: Disk, listing: seq<string>)
    requires SameDrain(before, after, disk)
    ensures AllDrain(after, disk, listing) <==> AllDrain(before, disk, listing)
  {
    hide CanDrain;
  }

  lemma ReadDrains(c: Checkpoint, disk: Disk, listing: seq<string>)
    requires c.pending == map[]
    requires forall name :: name in listing ==>
               name in disk && name in c.files && c.files[name].offset == |disk[name].content|
    ensures AllDrain(c, disk, listing)
  {
  }

  lemma BadDoesNotDrain(w: System, listing: seq<string>, fates: nat -> Fate)
    requires Smooth(w, listing, fates) && HasBad(w.checkpoint)
    ensures !AllDrain(w.checkpoint, w.disk, listing)
  {
    hide Wired;
    hide Faithful;
    var name :| name in w.checkpoint.pending && Unacceptable(w.checkpoint.pending[name]);
    assert name in listing;
  }

  /** With a receiver that answers and files that stopped growing, polling until a poll delivers nothing or
      fails ends. It drains the directory, so that the archive holds every file byte for byte, exactly if no
      unread chunk of it is badly named or lies beyond the limit; otherwise such a chunk is on record. */
  method Drain(collector: Collector, disk: Disk, listing: seq<string>, first: nat, store: RelayLogStore,
               fates: nat -> Fate, ghost w: System)
    returns (drained: bool, ghost t: System)
    requires collector.At(w, store) && w.disk == disk && Smooth(w, listing, fates)
    requires forall stream :: stream in w.drawn ==> stream < first
    modifies collector, store
    ensures collector.At(t, store) && Smooth(t, listing, fates) && t.disk == disk
    ensures drained <==> AllDrain(w.checkpoint, disk, listing)
    ensures drained ==> Archived(t, listing)
    ensures !drained ==> HasBad(collector.Snapshot())
  {
    hide Wired;
    hide Faithful;
    hide Next;
    hide Run;
    hide CanDrain;
    hide Unacceptable;
    NoProgressYet(w, listing);
    t := w;
    var next: nat, count: nat, failed := first, 1, false;
    while count > 0 && !failed
      invariant collector.At(t, store) && t.disk == disk && Smooth(t, listing, fates)
      invariant forall stream :: stream in t.drawn ==> stream < next
      invariant forall name :: name in listing ==> name in disk && Offset(collector.files, name) <= |disk[name].content|
      invariant SameDrain(w.checkpoint, t.checkpoint, disk)
      invariant failed ==> HasBad(t.checkpoint)
      invariant count == 0 && !failed ==> t.checkpoint.pending == map[]
      invariant count == 0 && !failed ==>
                  forall name :: name in listing ==>
                    name in collector.files && collector.files[name].offset == |disk[name].content|
      decreases Unread(collector.files, disk, listing), count, !failed
    {
      ghost var before, now, steps := collector.files, t, [];
      count, failed, steps, t := collector.Poll((i: nat) => disk, listing, next, store, fates, t);
      SameDrainJoins(w.checkpoint, now.checkpoint, t.checkpoint, disk);
      UnreadShrinks(before, collector.files, disk, listing);
      next := next + |listing|;
    }
    drained := !failed;
    SameAllDrain(w.checkpoint, t.checkpoint, disk, listing);
    if failed {
      BadDoesNotDrain(t, listing, fates);
    } else {
      ReadDrains(t.checkpoint, disk, listing);
      forall name | name in listing
        ensures Stored(t.archive.chunks, t.checkpoint.files[name].stream) == t.disk[name].content
      {
        ReadIsArchived(t, name);
      }
    }
  }

  /** A file read to its end, with nothing left on record, is in the archive. */
  lemma ReadIsArchived(w: System, name: string)
    requires Wired(w) && Faithful(w) && w.checkpoint.pending == map[] && name !in w.rewritten
    requires name in w.disk && name in w.checkpoint.files && w.checkpoint.files[name].offset == |w.disk[name].content|
    ensures Stored(w.archive.chunks, w.checkpoint.files[name].stream) == w.disk[name].content
  {
    assert InStep(w, name) && Copied(w, name);
    NextIsStored(w.archive, w.checkpoint.files[name].stream);
  }

  lemma PostedIsAccepted(w: System, name: string)
    requires Wired(w) && w.phase.Resting? && name in w.checkpoint.pending
    ensures var m := w.checkpoint.pending[name];
            && (Accepted(w.archive, m).Ok? <==> !Unacceptable(m))
            && (Accepted(w.archive, m).Ok? ==> Confirms(Accepted(w.archive, m).value.ack, m))
  {
    PostKeepsWired(w, name);
    assert InStep(w, name);
    OnlyNamesAndHugeOffsetsAreRefused(Next(w, Post(name)).value, w.checkpoint.pending[name]);
  }

  lemma RunKeepsIf(w: System, steps: seq<Step>)
    requires Wired(w) && Faithful(w)
    ensures Run(w, steps).Some? ==> Wired(Run(w, steps).value) && Faithful(Run(w, steps).value)
  {
    if Run(w, steps).Some? {
      RunKeeps(w, steps);
    }
  }

  lemma {:induction false} RunsJoin(w: System, steps: seq<Step>, more: seq<Step>)
    requires Run(w, steps).Some?
    ensures Run(w, steps + more) == Run(Run(w, steps).value, more)
  {
    if more == [] {
      assert steps + more == steps;
    } else {
      var n := |more| - 1;
      RunsJoin(w, steps, more[..n]);
      assert (steps + more)[..|steps| + n] == steps + more[..n];
    }
  }
}
