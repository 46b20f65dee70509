/** The relay archive is an exact copy: what every run of collector, network and receiver keeps. */
module RelayArchive {
  import opened Wrappers
  import opened RelayStore
  import opened RelayCollector

  // ---- the protocol: offsets, identities, messages ----

  /** What the receiver holds next for a file is its checkpoint, or the checkpoint and the pending payload. */
  ghost predicate InStep(s: System, name: string)
    requires name in s.checkpoint.files
  {
    var f, c := s.checkpoint.files[name], s.checkpoint;
    && f.stream in s.drawn && s.drawn[f.stream] == name
    && (name in c.pending ==>
        Proper(s, c.pending[name]) && c.pending[name] == Envelope(c, name, c.pending[name].payload))
    && (|| NextOffset(s.archive, f.stream) == f.offset
        || (name in c.pending && NextOffset(s.archive, f.stream) == f.offset + |c.pending[name].payload|
            && ChunkOf(c.pending[name]) in s.archive.chunks))
  }

  ghost predicate Proper(s: System, m: Message) {
    && m.version == VERSION && m.machine == s.checkpoint.machine && m.digest == Digest(m.payload)
    && 1 <= |m.payload| <= CHUNK_BYTES && 0 <= m.offset && m.stream in s.drawn && s.drawn[m.stream] == m.filename
  }

  /** A message on the network is in the archive, or it is the very next one its file has on record. */
  ghost predicate Expected(s: System, m: Message) {
    && Proper(s, m)
    && (|| ChunkOf(m) in s.archive.chunks
        || (m.filename in s.checkpoint.pending && s.checkpoint.pending[m.filename] == m
            && m.offset == NextOffset(s.archive, m.stream)))
  }

  ghost predicate Backed(a: Archive, ack: Ack) {
    exists k :: 0 <= k < |a.chunks| && a.chunks[k].stream == ack.stream && a.chunks[k].offset == ack.offset
                && a.chunks[k].digest == ack.digest
  }

  ghost predicate Owned(s: System, stream: Stream)
    requires stream in s.archive.streams
  {
    stream in s.drawn && s.archive.streams[stream].filename == s.drawn[stream]
    && s.archive.streams[stream].machine == s.checkpoint.machine
  }

  ghost predicate Wired(s: System) {
    && Sound(s.archive)
    && s.checkpoint.pending.Keys <= s.checkpoint.files.Keys
    && (s.phase.Resting? || s.checkpoint.pending == map[])
    && (s.phase.Opened? ==> s.phase.name in s.checkpoint.files)
    && (forall name :: name in s.checkpoint.files ==> InStep(s, name))
    && (forall m :: m in s.sent ==> Expected(s, m))
    && (forall ack :: ack in s.acks ==> Backed(s.archive, ack))
    && (forall stream :: stream in s.archive.streams ==> Owned(s, stream))
  }

  lemma InitialIsWired(s: System)
    requires Initial(s)
    ensures Wired(s)
  {
  }

  lemma OpenKeepsWired(s: System, drawn: Stream)
    requires Wired(s) && Next(s, Open(drawn)).Some?
    ensures Wired(Next(s, Open(drawn)).value)
  {
    var t := Next(s, Open(drawn)).value;
    forall stream | stream in s.archive.streams ensures stream != drawn {
      assert Owned(s, stream);
    }
    forall name | name in t.checkpoint.files ensures InStep(t, name) {
      if name in s.checkpoint.files {
        assert InStep(s, name);
      }
    }
    forall m | m in t.sent ensures Expected(t, m) {
      assert Expected(s, m);
    }
    forall stream | stream in t.archive.streams ensures Owned(t, stream) {
      assert Owned(s, stream);
    }
  }

  lemma ReadKeepsWired(s: System)
    requires Wired(s) && Next(s, Read).Some?
    ensures Wired(Next(s, Read).value)
  {
    hide ReadAt;
    hide WholeLines;
    hide FirstBytes;
    var t := Next(s, Read).value;
    assert InStep(s, s.phase.name);
    forall name | name in t.checkpoint.files ensures InStep(t, name) {
      assert InStep(s, name);
    }
    forall m | m in t.sent ensures Expected(t, m) {
      assert Expected(s, m);
    }
    forall stream | stream in t.archive.streams ensures Owned(t, stream) {
      assert Owned(s, stream);
    }
  }

  lemma PostKeepsWired(s: System, name: string)
    requires Wired(s) && Next(s, Post(name)).Some?
    ensures Wired(Next(s, Post(name)).value)
  {
    var t, m := Next(s, Post(name)).value, s.checkpoint.pending[name];
    assert InStep(s, name);
    PendingIsExpected(s, name);
    forall n | n in t.checkpoint.files ensures InStep(t, n) {
      assert InStep(s, n);
    }
    forall m | m in t.sent ensures Expected(t, m) {
      assert Expected(s, m);
    }
    forall stream | stream in t.archive.streams ensures Owned(t, stream) {
      assert Owned(s, stream);
    }
  }

  /** What is on record for a file is either archived already, or exactly what the receiver waits for. */
  lemma PendingIsExpected(s: System, name: string)
    requires Wired(s) && name in s.checkpoint.pending
    ensures Expected(s, s.checkpoint.pending[name])
  {
    assert InStep(s, name);
  }

  // ---- the receiver's answer ----

  /** A chunk already archived is answered again as a duplicate. */
  lemma ArchivedIsFound(a: Archive, m: Message)
    requires Sound(a) && ChunkOf(m) in a.chunks
    ensures Find(a.chunks, m.stream, m.offset) == Some(ChunkOf(m)) && m.stream in a.streams
    ensures m.offset + |m.payload| <= NextOffset(a, m.stream)
  {
    FindIs(a.chunks, m.stream, m.offset);
    var k :| 0 <= k < |a.chunks| && a.chunks[k] == ChunkOf(m);
    var found := Find(a.chunks, m.stream, m.offset);
    var j :| 0 <= j < |a.chunks| && a.chunks[j] == found.value && a.chunks[j].stream == m.stream
      && a.chunks[j].offset == m.offset;
    assert InPlace(a, k) && InPlace(a, j);
    if j < k {
      PlacesAreUnique(a, j, k);
    } else if k < j {
      PlacesAreUnique(a, k, j);
    }
    ChunkIsStored(a, k);
    NextIsStored(a, m.stream);
  }

  lemma NextIsFree(a: Archive, stream: Stream)
    requires Sound(a)
    ensures Find(a.chunks, stream, NextOffset(a, stream)).None?
  {
    FindIs(a.chunks, stream, NextOffset(a, stream));
    forall k | 0 <= k < |a.chunks| && a.chunks[k].stream == stream ensures a.chunks[k].offset < NextOffset(a, stream) {
      assert InPlace(a, k);
      ChunkIsStored(a, k);
      NextIsStored(a, stream);
    }
  }

  /** In no run can the receiver see a gap, a conflict, a wrong checksum or a wrong size: a message is
      refused exactly when the machine or file name is not one the archive takes, or the file is past 2^63 bytes. */
  lemma OnlyNamesAndHugeOffsetsAreRefused(s: System, m: Message)
    requires Wired(s) && m in s.sent
    ensures Accepted(s.archive, m).Ok? <==> WellNamed(m.machine, m.filename) && m.offset <= OFFSET_LIMIT
    ensures Accepted(s.archive, m).Ok? ==>
        Accepted(s.archive, m).value.ack.duplicate == (ChunkOf(m) in s.archive.chunks)
  {
    assert Expected(s, m);
    if ChunkOf(m) in s.archive.chunks {
      ArchivedIsFound(s.archive, m);
    } else {
      NextIsFree(s.archive, m.stream);
      if m.stream in s.archive.streams {
        assert Owned(s, m.stream);
      }
    }
  }

  lemma AcceptMoves(s: System, m: Message)
    requires Wired(s) && m in s.sent && Accepted(s.archive, m).Ok?
    ensures var a, ack := Accepted(s.archive, m).value.archive, Accepted(s.archive, m).value.ack;
            && Sound(a) && Backed(a, ack) && (forall c :: c in s.archive.chunks ==> c in a.chunks)
            && ChunkOf(m) in a.chunks
            && (ack.duplicate ==> a == s.archive)
            && NextOffset(a, m.stream) == NextOffset(s.archive, m.stream) + (if ack.duplicate then 0 else |m.payload|)
            && forall stream :: stream != m.stream ==> NextOffset(a, stream) == NextOffset(s.archive, stream)
  {
    var a := Accepted(s.archive, m).value.archive;
    AcceptKeepsSound(s.archive, m);
    NextIsStored(s.archive, m.stream);
    NextIsStored(a, m.stream);
    var k :| 0 <= k < |a.chunks| && a.chunks[k] == ChunkOf(m);
  }

  lemma BackedStays(a: Archive, b: Archive, ack: Ack)
    requires Backed(a, ack) && a.chunks <= b.chunks
    ensures Backed(b, ack)
  {
    var k :| 0 <= k < |a.chunks| && a.chunks[k].stream == ack.stream && a.chunks[k].offset == ack.offset
             && a.chunks[k].digest == ack.digest;
    assert b.chunks[k] == a.chunks[k];
  }

  lemma ReceiveKeepsInStep(s: System, m: Message, name: string)
    requires Wired(s) && m in s.sent && Accepted(s.archive, m).Ok? && name in s.checkpoint.files
    ensures InStep(Receiving(s, m), name)
  {
    AcceptMoves(s, m);
    OnlyNamesAndHugeOffsetsAreRefused(s, m);
    assert InStep(s, name) && Expected(s, m);
  }

  lemma ReceiveKeepsExpected(s: System, m: Message, other: Message)
    requires Wired(s) && m in s.sent && Accepted(s.archive, m).Ok? && other in s.sent
    ensures Expected(Receiving(s, m), other)
  {
    AcceptMoves(s, m);
    OnlyNamesAndHugeOffsetsAreRefused(s, m);
    assert Expected(s, m) && Expected(s, other);
  }

  lemma ReceiveKeepsWired(s: System, m: Message)
    requires Wired(s) && Next(s, Receive(m)).Some?
    ensures Wired(Next(s, Receive(m)).value)
  {
    var t := Next(s, Receive(m)).value;
    if Accepted(s.archive, m).Ok? {
      AcceptMoves(s, m);
      AcceptKeepsSound(s.archive, m);
      forall name | name in t.checkpoint.files ensures InStep(t, name) {
        ReceiveKeepsInStep(s, m, name);
      }
      forall other | other in t.sent ensures Expected(t, other) {
        ReceiveKeepsExpected(s, m, other);
      }
      forall ack | ack in t.acks ensures Backed(t.archive, ack) {
        if ack in s.acks {
          BackedStays(s.archive, t.archive, ack);
        }
      }
      assert Expected(s, m);
      forall stream | stream in t.archive.streams ensures Owned(t, stream) {
        if stream in s.archive.streams {
          assert Owned(s, stream);
        }
      }
    }
  }

  // ---- the checkpoint moves ----

  /** A confirmed chunk is in the archive, and the receiver stands right behind it. */
  lemma ConfirmedIsArchived(s: System, name: string, ack: Ack)
    requires Wired(s) && name in s.checkpoint.pending && ack in s.acks && Confirms(ack, s.checkpoint.pending[name])
    ensures var m := s.checkpoint.pending[name];
            ChunkOf(m) in s.archive.chunks && NextOffset(s.archive, m.stream) == m.offset + |m.payload|
  {
    var m := s.checkpoint.pending[name];
    assert InStep(s, name) && Backed(s.archive, ack);
    var k :| 0 <= k < |s.archive.chunks| && s.archive.chunks[k].stream == ack.stream
             && s.archive.chunks[k].offset == ack.offset && s.archive.chunks[k].digest == ack.digest;
    assert InPlace(s.archive, k);
    ChunkIsStored(s.archive, k);
    NextIsStored(s.archive, m.stream);
  }

  lemma SettleKeepsWired(s: System, name: string, ack: Ack)
    requires Wired(s) && Next(s, Settle(name, ack)).Some?
    ensures Wired(Next(s, Settle(name, ack)).value)
  {
    var t := Next(s, Settle(name, ack)).value;
    if Confirms(ack, s.checkpoint.pending[name]) {
      ConfirmedIsArchived(s, name, ack);
      assert InStep(s, name);
      forall n | n in t.checkpoint.files ensures InStep(t, n) {
        assert InStep(s, n);
      }
      forall m | m in t.sent ensures Expected(t, m) {
        assert Expected(s, m);
      }
      forall stream | stream in t.archive.streams ensures Owned(t, stream) {
        assert Owned(s, stream);
      }
    }
  }

  lemma NextKeepsWired(s: System, step: Step)
    requires Wired(s) && Next(s, step).Some?
    ensures Wired(Next(s, step).value)
  {
    match step
    case Open(drawn) => OpenKeepsWired(s, drawn);
    case Read => ReadKeepsWired(s);
    case Post(name) => PostKeepsWired(s, name);
    case Receive(m) => ReceiveKeepsWired(s, m);
    case Settle(name, ack) => SettleKeepsWired(s, name, ack);
    case _ => OtherStepsKeepWired(s, step);
  }

  lemma OtherStepsKeepWired(s: System, step: Step)
    requires Wired(s) && Next(s, step).Some?
    requires step.Append? || step.Rewrite? || step.Stat? || step.Crash?
    ensures Wired(Next(s, step).value)
  {
    var t := Next(s, step).value;
    forall name | name in t.checkpoint.files ensures InStep(t, name) {
      assert InStep(s, name);
    }
    forall m | m in t.sent ensures Expected(t, m) {
      assert Expected(s, m);
    }
    forall stream | stream in t.archive.streams ensures Owned(t, stream) {
      assert Owned(s, stream);
    }
  }

  // ---- the bytes of a file that only grows ----

  /** For a file that was only ever appended to: one stream, whose archived bytes are a prefix of the file. */
  ghost predicate Copied(s: System, name: string)
    requires name in s.checkpoint.files
  {
    var f := s.checkpoint.files[name];
    && name in s.disk && s.disk[name].identity == f.identity
    && f.prefix <= s.disk[name].content && f.offset <= |s.disk[name].content|
    && Stored(s.archive.chunks, f.stream) <= s.disk[name].content
    && (name in s.checkpoint.pending ==>
          Holds(s.disk[name].content, s.checkpoint.pending[name].offset, s.checkpoint.pending[name].payload))
  }

  ghost predicate Holds(content: Bytes, offset: int, payload: Bytes) {
    0 <= offset && offset + |payload| <= |content| && content[offset..offset + |payload|] == payload
  }

  /** What the collector saw of a file between looking at it and reading on is still true of it. */
  ghost predicate Seen(s: System) {
    match s.phase
    case Resting => true
    case Statted(name, identity, size) =>
      name !in s.rewritten ==>
        && name in s.disk && s.disk[name].identity == identity && size <= |s.disk[name].content|
        && (name in s.checkpoint.files ==> s.checkpoint.files[name].offset <= size)
    case Opened(name, head) => name !in s.rewritten ==> name in s.disk && head <= s.disk[name].content
  }

  ghost predicate Faithful(s: System) {
    && Seen(s)
    && (forall name :: name in s.checkpoint.files && name !in s.rewritten ==> Copied(s, name))
    && (forall stream :: stream in s.drawn && s.drawn[stream] !in s.rewritten ==>
          s.drawn[stream] in s.checkpoint.files && s.checkpoint.files[s.drawn[stream]].stream == stream)
  }

  lemma InitialIsFaithful(s: System)
    requires Initial(s)
    ensures Faithful(s)
  {
  }

  /** A file that only grew is never taken for another one. */
  lemma NoReset(s: System)
    requires Faithful(s) && s.phase.Statted? && s.phase.name in s.disk
    requires s.phase.name in s.checkpoint.files && s.phase.name !in s.rewritten
    ensures var c, name := s.checkpoint, s.phase.name;
            !Reset(c, name, s.phase.identity, s.phase.size, ReadAt(s.disk[name].content, 0, HeadLength(c, name)))
  {
    assert Copied(s, s.phase.name);
  }

  lemma NewStreamIsEmpty(s: System, stream: Stream)
    requires Wired(s) && stream !in s.drawn
    ensures Stored(s.archive.chunks, stream) == []
  {
    forall other | other in s.archive.streams ensures other != stream {
      assert Owned(s, other);
    }
    NextIsStored(s.archive, stream);
  }

  lemma OpenKeepsFaithful(s: System, drawn: Stream)
    requires Wired(s) && Faithful(s) && Next(s, Open(drawn)).Some?
    ensures Faithful(Next(s, Open(drawn)).value)
  {
    var t, here := Next(s, Open(drawn)).value, s.phase.name;
    NewStreamIsEmpty(s, drawn);
    if here in s.checkpoint.files && here !in s.rewritten {
      NoReset(s);
    }
    forall name | name in t.checkpoint.files && name !in t.rewritten ensures Copied(t, name) {
      if name in s.checkpoint.files {
        assert Copied(s, name);
      }
    }
  }

  lemma ReadKeepsFaithful(s: System)
    requires Wired(s) && Faithful(s) && Next(s, Read).Some?
    ensures Faithful(Next(s, Read).value)
  {
    hide WholeLines;
    var t, here := Next(s, Read).value, s.phase.name;
    forall name | name in t.checkpoint.files && name !in t.rewritten ensures Copied(t, name) {
      assert Copied(s, name);
      if name == here {
        var content, offset := s.disk[here].content, s.checkpoint.files[here].offset;
        var read := ReadAt(content, offset, CHUNK_BYTES);
        var payload := WholeLines(read);
        assert content[offset..offset + |payload|] == read[..|payload|];
      }
    }
  }

  lemma NextPayloadExtendsPrefix(content: Bytes, stored: Bytes, payload: Bytes)
    requires stored <= content && Holds(content, |stored|, payload)
    ensures stored + payload <= content
  {
    assert content[..|stored| + |payload|] == content[..|stored|] + content[|stored|..|stored| + |payload|];
  }

  lemma ReceiveKeepsCopied(s: System, m: Message, name: string)
    requires Wired(s) && m in s.sent && Accepted(s.archive, m).Ok?
    requires name in s.checkpoint.files && Copied(s, name)
    ensures Copied(Receiving(s, m), name)
  {
    var stream, ack := s.checkpoint.files[name].stream, Accepted(s.archive, m).value.ack;
    AcceptKeepsSound(s.archive, m);
    OnlyNamesAndHugeOffsetsAreRefused(s, m);
    hide Accepted;
    hide Sound;
    hide Stored;
    hide AckOf;
    if m.stream == stream && !ack.duplicate {
      assert InStep(s, name) && Expected(s, m);
      assert m == s.checkpoint.pending[name];
      NextIsStored(s.archive, stream);
      NextPayloadExtendsPrefix(s.disk[name].content, Stored(s.archive.chunks, stream), m.payload);
    } else {
      assert Stored(s.archive.chunks, stream) + [] == Stored(s.archive.chunks, stream);
    }
  }

  lemma ReceiveKeepsFaithful(s: System, m: Message)
    requires Wired(s) && Faithful(s) && Next(s, Receive(m)).Some?
    ensures Faithful(Next(s, Receive(m)).value)
  {
    var t := Next(s, Receive(m)).value;
    if Accepted(s.archive, m).Ok? {
      forall name | name in t.checkpoint.files && name !in t.rewritten ensures Copied(t, name) {
        ReceiveKeepsCopied(s, m, name);
      }
    }
  }

  /** Steps that change neither the archive nor which file is which. */
  lemma DiskGrows(s: System, t: System)
    requires Faithful(s) && t.checkpoint == s.checkpoint && t.archive == s.archive && t.drawn == s.drawn
    requires t.phase == s.phase
    requires s.rewritten <= t.rewritten && s.disk.Keys <= t.disk.Keys
    requires forall name :: name in s.disk && name !in t.rewritten ==>
               t.disk[name].identity == s.disk[name].identity && s.disk[name].content <= t.disk[name].content
    ensures Faithful(t)
  {
    hide Stored;
    forall name | name in t.checkpoint.files && name !in t.rewritten ensures Copied(t, name) {
      assert Copied(s, name);
      var before, after := s.disk[name].content, t.disk[name].content;
      if name in s.checkpoint.pending {
        HoldsStays(before, after, s.checkpoint.pending[name].offset, s.checkpoint.pending[name].payload);
      }
    }
  }

  lemma HoldsStays(before: Bytes, after: Bytes, offset: int, payload: Bytes)
    requires before <= after && Holds(before, offset, payload)
    ensures Holds(after, offset, payload)
  {
    assert after[..|before|] == before;
    assert after[offset..offset + |payload|] == after[..|before|][offset..offset + |payload|];
  }

  lemma StatKeepsFaithful(s: System, name: string)
    requires Wired(s) && Faithful(s) && Next(s, Stat(name)).Some?
    ensures Faithful(Next(s, Stat(name)).value)
  {
    hide Stored;
    var t := Next(s, Stat(name)).value;
    forall n | n in t.checkpoint.files && n !in t.rewritten ensures Copied(t, n) {
      assert Copied(s, n);
    }
  }

  lemma SettleKeepsFaithful(s: System, name: string, ack: Ack)
    requires Wired(s) && Faithful(s) && Next(s, Settle(name, ack)).Some?
    ensures Faithful(Next(s, Settle(name, ack)).value)
  {
    hide Stored;
    hide Sound;
    hide Expected;
    hide Backed;
    var t := Next(s, Settle(name, ack)).value;
    forall n | n in t.checkpoint.files && n !in t.rewritten ensures Copied(t, n) {
      assert Copied(s, n);
      assert InStep(s, n);
    }
  }

  lemma OtherStepsKeepFaithful(s: System, step: Step)
    requires Wired(s) && Faithful(s) && Next(s, step).Some?
    requires step.Append? || step.Rewrite? || step.Post? || step.Crash?
    ensures Faithful(Next(s, step).value)
  {
    hide Wired;
    if step.Crash? {
      hide Stored;
      var t := Next(s, step).value;
      forall n | n in t.checkpoint.files && n !in t.rewritten ensures Copied(t, n) {
        assert Copied(s, n);
      }
    } else {
      DiskGrows(s, Next(s, step).value);
      hide Faithful;
    }
  }

  lemma NextKeepsFaithful(s: System, step: Step)
    requires Wired(s) && Faithful(s) && Next(s, step).Some?
    ensures Faithful(Next(s, step).value)
  {
    match step
    case Open(drawn) => OpenKeepsFaithful(s, drawn);
    case Read => ReadKeepsFaithful(s);
    case Receive(m) => ReceiveKeepsFaithful(s, m);
    case Stat(name) => StatKeepsFaithful(s, name);
    case Settle(name, ack) => SettleKeepsFaithful(s, name, ack);
    case _ => OtherStepsKeepFaithful(s, step);
  }

  // ---- every run ----

  lemma {:induction false} RunKeeps(s: System, steps: seq<Step>)
    requires Wired(s) && Faithful(s) && Run(s, steps).Some?
    ensures Wired(Run(s, steps).value) && Faithful(Run(s, steps).value)
  {
    hide Next;
    if steps != [] {
      var n := |steps| - 1;
      RunKeeps(s, steps[..n]);
      NextKeepsWired(Run(s, steps[..n]).value, steps[n]);
      NextKeepsFaithful(Run(s, steps[..n]).value, steps[n]);
    }
  }

  /** In every run, through lost answers, repeats and crashes, for every file that was only appended to:
      the receiver's next offset is the checkpoint or the checkpoint plus the pending payload, the bytes
      archived are exactly the first bytes of the file, and the archive knows no other stream for it. */
  lemma ArchiveIsAPrefixOfTheFile(start: System, steps: seq<Step>, name: string)
    requires Initial(start) && Run(start, steps).Some?
    requires var s := Run(start, steps).value; name in s.checkpoint.files && name !in s.rewritten
    ensures var s := Run(start, steps).value;
            var f, next := s.checkpoint.files[name], NextOffset(s.archive, s.checkpoint.files[name].stream);
            && name in s.disk && 0 <= next <= |s.disk[name].content|
            && (next == f.offset
                || (name in s.checkpoint.pending && next == f.offset + |s.checkpoint.pending[name].payload|))
            && Stored(s.archive.chunks, f.stream) == s.disk[name].content[..next]
            && forall stream :: stream in s.archive.streams && s.archive.streams[stream].filename == name ==>
                  stream == f.stream
  {
    var s := Run(start, steps).value;
    InitialIsWired(start);
    InitialIsFaithful(start);
    RunKeeps(start, steps);
    assert InStep(s, name) && Copied(s, name);
    NextIsStored(s.archive, s.checkpoint.files[name].stream);
    forall stream | stream in s.archive.streams && s.archive.streams[stream].filename == name
      ensures stream == s.checkpoint.files[name].stream
    {
      assert Owned(s, stream);
    }
  }

  /** In every run the receiver refuses no message for its contents, its size or its offset. */
  lemma NothingSentIsEverRefused(start: System, steps: seq<Step>, m: Message)
    requires Initial(start) && Run(start, steps).Some? && m in Run(start, steps).value.sent
    ensures Accepted(Run(start, steps).value.archive, m).Ok? <==>
        WellNamed(m.machine, m.filename) && m.offset <= OFFSET_LIMIT
  {
    InitialIsWired(start);
    InitialIsFaithful(start);
    RunKeeps(start, steps);
    OnlyNamesAndHugeOffsetsAreRefused(Run(start, steps).value, m);
  }

  /** What a reader pages out of the feed of such a file is the file, as far as it was archived. */
  lemma FeedIsThePrefix(start: System, steps: seq<Step>, name: string, requests: seq<Request>)
    requires Initial(start) && Run(start, steps).Some?
    requires var s := Run(start, steps).value; name in s.checkpoint.files && name !in s.rewritten
    requires forall r :: r in requests ==> r.archive.chunks <= Run(start, steps).value.archive.chunks
    ensures var s := Run(start, steps).value;
            var read := Paged(requests);
            && 0 <= read.nextAfter <= |s.archive.chunks|
            && read.records == Numbered(s.archive.chunks, 0, read.nextAfter)
            && name in s.disk
            && Stored(s.archive.chunks[..read.nextAfter], s.checkpoint.files[name].stream) <= s.disk[name].content
  {
    var s := Run(start, steps).value;
    var stream := s.checkpoint.files[name].stream;
    ArchiveIsAPrefixOfTheFile(start, steps, name);
    PagingReadsEveryChunkOnce(requests, s.archive.chunks);
    StoredPrefix(s.archive.chunks, Paged(requests).nextAfter, stream);
  }
}
