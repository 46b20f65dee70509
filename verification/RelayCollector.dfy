/** relay_collector.py: following log files and mirroring them, chunk by chunk, to the relay archive.
    One step here is one thing the collector, the receiver, the network or another program does to the
    files, so any interleaving of lost answers, repeats, crashes and appends is a run. */
module RelayCollector {
  import opened Wrappers
  import opened RelayStore

  const PREFIX_BYTES := 32
  const NEWLINE := 10 as bv8

  /** Device and inode. */
  type Identity = nat

  datatype File = File(stream: Stream, identity: Identity, offset: nat, prefix: Bytes)

  /** The collector's two tables. */
  datatype Checkpoint = Checkpoint(machine: string, files: map<string, File>, pending: map<string, Message>)

  datatype Entry = Entry(identity: Identity, content: Bytes)

  // ---- one file ----

  function ReadAt(content: Bytes, from: nat, limit: nat): (r: Bytes)
    ensures |r| <= limit && (from <= |content| ==> from + |r| <= |content| && r == content[from..from + |r|])
    ensures r == [] <==> limit == 0 || |content| <= from
  {
    if |content| <= from then []
    else if |content| - from <= limit then content[from..]
    else content[from..from + limit]
  }

  /** Up to the last newline, or everything when there is none. */
  function WholeLines(payload: Bytes): (r: Bytes)
    ensures r <= payload && (payload != [] ==> r != [])
    decreases |payload|
  {
    if NEWLINE !in payload then payload
    else if payload[|payload| - 1] == NEWLINE then payload
    else WholeLines(payload[..|payload| - 1])
  }

  /** A chunk ends at the last newline that was read; only a stretch without one is sent as it is. */
  lemma {:induction false} WholeLinesEndInNewline(payload: Bytes)
    ensures var r := WholeLines(payload);
            if NEWLINE in payload
            then |r| > 0 && r[|r| - 1] == NEWLINE && NEWLINE !in payload[|r|..]
            else r == payload
  {
    if NEWLINE in payload && payload[|payload| - 1] != NEWLINE {
      var shorter := payload[..|payload| - 1];
      assert NEWLINE in shorter by {
        var i :| 0 <= i < |payload| && payload[i] == NEWLINE;
        assert shorter[i] == NEWLINE;
      }
      WholeLinesEndInNewline(shorter);
      var r := WholeLines(shorter);
      assert payload[|r|..] == shorter[|r|..] + [payload[|payload| - 1]];
    }
  }

  function HeadLength(c: Checkpoint, name: string): nat {
    if name in c.files then |c.files[name].prefix| else PREFIX_BYTES
  }

  predicate Reset(c: Checkpoint, name: string, identity: Identity, size: nat, head: Bytes) {
    || name !in c.files || c.files[name].identity != identity
    || size < c.files[name].offset || head != c.files[name].prefix
  }

  function Tracked(c: Checkpoint, name: string, identity: Identity, size: nat, head: Bytes, drawn: Stream): Checkpoint {
    if Reset(c, name, identity, size, head) then c.(files := c.files[name := File(drawn, identity, 0, head)]) else c
  }

  function Envelope(c: Checkpoint, name: string, payload: Bytes): Message
    requires name in c.files
  {
    Message(VERSION, c.files[name].stream, c.machine, name, c.files[name].offset, Digest(payload), payload)
  }

  function FirstBytes(payload: Bytes): Bytes {
    if |payload| <= PREFIX_BYTES then payload else payload[..PREFIX_BYTES]
  }

  /** The chunk goes on record before it is sent; an empty prefix is filled in with the first bytes. */
  function Pended(c: Checkpoint, name: string, head: Bytes, payload: Bytes): Checkpoint
    requires name in c.files
  {
    var f := c.files[name];
    c.(pending := c.pending[name := Envelope(c, name, payload)],
       files := if head == [] && f.offset == 0 then c.files[name := f.(prefix := FirstBytes(payload))] else c.files)
  }

  predicate Confirms(ack: Ack, m: Message) {
    && ack.durable && ack.version == m.version && ack.stream == m.stream && ack.offset == m.offset
    && ack.digest == m.digest && ack.nextOffset == m.offset + |m.payload|
  }

  /** The checkpoint moves only past what is durably acknowledged. */
  function Checkpointed(c: Checkpoint, name: string, m: Message): Checkpoint {
    c.(files := if name in c.files && c.files[name].stream == m.stream && 0 <= m.offset
                then c.files[name := c.files[name].(offset := m.offset + |m.payload|)] else c.files,
       pending := c.pending - {name})
  }

  // ---- the whole system ----

  datatype Phase =
    | Resting
    | Statted(name: string, identity: Identity, size: nat)
    | Opened(name: string, head: Bytes)

  /** `sent` and `acks` are all messages and answers ever on the network, any of which may still arrive;
      `drawn` says for which file each stream identity was drawn, `rewritten` which files were ever
      changed other than by appending. */
  datatype System = System(
    disk: map<string, Entry>, checkpoint: Checkpoint, archive: Archive, phase: Phase,
    sent: set<Message>, acks: set<Ack>, drawn: map<Stream, string>, rewritten: set<string>)

  datatype Step =
    | Append(name: string, identity: Identity, bytes: Bytes)
    | Rewrite(name: string, entry: Entry)
    | Stat(name: string)
    | Open(fresh_: Stream)
    | Read
    | Post(name: string)
    | Receive(message: Message)
    | Settle(name: string, ack: Ack)
    | Crash

  function Appended(s: System, name: string, identity: Identity, bytes: Bytes): System {
    s.(disk := s.disk[name := if name in s.disk then s.disk[name].(content := s.disk[name].content + bytes)
                              else Entry(identity, bytes)])
  }

  function Opening(s: System, drawn: Stream): System
    requires s.phase.Statted? && s.phase.name in s.disk
  {
    var c, name := s.checkpoint, s.phase.name;
    var head := ReadAt(s.disk[name].content, 0, HeadLength(c, name));
    s.(checkpoint := Tracked(c, name, s.phase.identity, s.phase.size, head, drawn), phase := Opened(name, head),
       drawn := if Reset(c, name, s.phase.identity, s.phase.size, head) then s.drawn[drawn := name] else s.drawn)
  }

  function Reading(s: System): System
    requires s.phase.Opened? && s.phase.name in s.disk && s.phase.name in s.checkpoint.files
  {
    var c, name := s.checkpoint, s.phase.name;
    var payload := WholeLines(ReadAt(s.disk[name].content, c.files[name].offset, CHUNK_BYTES));
    s.(phase := Resting, checkpoint := if payload == [] then c else Pended(c, name, s.phase.head, payload))
  }

  function Receiving(s: System, m: Message): System {
    match Accepted(s.archive, m)
    case Ok(receipt) => s.(archive := receipt.archive, acks := s.acks + {receipt.ack})
    case Refused(_) => s
  }

  /** None: the step cannot happen now. A file is looked at only after everything on record was delivered. */
  function Next(s: System, step: Step): Option<System> {
    match step
    case Append(name, identity, bytes) => Some(Appended(s, name, identity, bytes))
    case Rewrite(name, entry) => Some(s.(disk := s.disk[name := entry], rewritten := s.rewritten + {name}))
    case Stat(name) =>
      if s.phase.Resting? && s.checkpoint.pending == map[] && name in s.disk
      then Some(s.(phase := Statted(name, s.disk[name].identity, |s.disk[name].content|))) else None
    case Open(fresh_) =>
      if s.phase.Statted? && s.phase.name in s.disk && fresh_ !in s.drawn then Some(Opening(s, fresh_)) else None
    case Read =>
      if s.phase.Opened? && s.phase.name in s.disk && s.phase.name in s.checkpoint.files then Some(Reading(s)) else None
    case Post(name) =>
      if s.phase.Resting? && name in s.checkpoint.pending
      then Some(s.(sent := s.sent + {s.checkpoint.pending[name]})) else None
    case Receive(m) => if m in s.sent then Some(Receiving(s, m)) else None
    case Settle(name, ack) =>
      if s.phase.Resting? && name in s.checkpoint.pending && ack in s.acks
      then if Confirms(ack, s.checkpoint.pending[name])
           then Some(s.(checkpoint := Checkpointed(s.checkpoint, name, s.checkpoint.pending[name]))) else Some(s)
      else None
    case Crash => Some(s.(phase := Resting))
  }

  function Run(s: System, steps: seq<Step>): Option<System> {
    if steps == [] then Some(s)
    else
      match Run(s, steps[..|steps| - 1])
      case None => None
      case Some(t) => Next(t, steps[|steps| - 1])
  }

  predicate Initial(s: System) {
    && s.checkpoint.files == map[] && s.checkpoint.pending == map[] && s.archive == NOTHING && s.phase == Resting
    && s.sent == {} && s.acks == {} && s.drawn == map[] && s.rewritten == {}
  }

  lemma RunSnoc(s: System, steps: seq<Step>, step: Step)
    ensures Run(s, steps + [step]) == (if Run(s, steps).Some? then Next(Run(s, steps).value, step) else None)
  {
    assert (steps + [step])[..|steps|] == steps;
  }
}
