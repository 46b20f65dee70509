/** relay_store.py: the durable archive of relay log chunks, and the paged feed that reads it. */
module RelayStore {
  import opened Wrappers

  type Bytes = seq<bv8>

  /** A random UUID: fresh whenever one is drawn. */
  type Stream = nat

  const CHUNK_BYTES := 8192
  const OFFSET_LIMIT := 0x8000_0000_0000_0000 - CHUNK_BYTES
  const VERSION := "1.0.0"
  const PAGE_LIMIT := 100

  /** SHA-256 as an injective digest. */
  datatype Digest = Digest(data: Bytes)

  datatype Message = Message(
    version: string, stream: Stream, machine: string, filename: string, offset: int, digest: Digest, payload: Bytes)

  datatype Ack = Ack(
    version: string, stream: Stream, offset: int, nextOffset: int, digest: Digest, durable: bool, duplicate: bool)

  datatype Chunk = Chunk(stream: Stream, machine: string, filename: string, offset: int, digest: Digest, payload: Bytes)

  datatype StreamRow = StreamRow(machine: string, filename: string, nextOffset: int)

  /** The two tables; a chunk's seq is its index plus one. */
  datatype Archive = Archive(chunks: seq<Chunk>, streams: map<Stream, StreamRow>)

  const NOTHING := Archive([], map[])

  // ---- accept ----

  predicate EndsWith(s: string, suffix: string) {
    |suffix| <= |s| && s[|s| - |suffix|..] == suffix
  }

  predicate WellNamed(machine: string, filename: string) {
    && 1 <= |machine| <= 100
    && 1 <= |filename| <= 240 && '/' !in filename && '\\' !in filename
    && (EndsWith(filename, ".log") || EndsWith(filename, ".jsonl"))
  }

  predicate WellFormed(m: Message) {
    && m.version == VERSION && WellNamed(m.machine, m.filename) && 0 <= m.offset <= OFFSET_LIMIT
    && 1 <= |m.payload| <= CHUNK_BYTES && m.digest == Digest(m.payload)
  }

  /** Refused for its name or its offset, whatever the archive holds. */
  predicate Unacceptable(m: Message) {
    !WellNamed(m.machine, m.filename) || m.offset > OFFSET_LIMIT
  }

  lemma UnacceptableIsRefused(a: Archive, m: Message)
    requires Unacceptable(m)
    ensures Accepted(a, m).Refused?
  {
  }

  function ChunkOf(m: Message): Chunk {
    Chunk(m.stream, m.machine, m.filename, m.offset, m.digest, m.payload)
  }

  function Find(chunks: seq<Chunk>, stream: Stream, offset: int): Option<Chunk> {
    if chunks == [] then None
    else
      var last := chunks[|chunks| - 1];
      if last.stream == stream && last.offset == offset then Some(last)
      else Find(chunks[..|chunks| - 1], stream, offset)
  }

  function NextOffset(a: Archive, stream: Stream): int {
    if stream in a.streams then a.streams[stream].nextOffset else 0
  }

  function AckOf(m: Message, duplicate: bool): Ack {
    Ack(VERSION, m.stream, m.offset, m.offset + |m.payload|, m.digest, true, duplicate)
  }

  datatype Receipt = Receipt(archive: Archive, ack: Ack)

  function Accepted(a: Archive, m: Message): Result<Receipt> {
    if !WellFormed(m) then Refused("invalid envelope")
    else if Find(a.chunks, m.stream, m.offset).Some? then
      if Find(a.chunks, m.stream, m.offset).value != ChunkOf(m) then Refused("identity conflict")
      else Ok(Receipt(a, AckOf(m, true)))
    else if m.stream in a.streams
      && (a.streams[m.stream].machine, a.streams[m.stream].filename) != (m.machine, m.filename)
    then Refused("stream identity conflict")
    else if m.offset != NextOffset(a, m.stream) then Refused("gap")
    else Ok(Receipt(Archive(a.chunks + [ChunkOf(m)],
                            a.streams[m.stream := StreamRow(m.machine, m.filename, m.offset + |m.payload|)]),
                    AckOf(m, false)))
  }

  // ---- what the archive holds ----

  /** The bytes archived for one stream, in order of arrival. */
  function Stored(chunks: seq<Chunk>, stream: Stream): Bytes {
    if chunks == [] then []
    else
      var last := chunks[|chunks| - 1];
      Stored(chunks[..|chunks| - 1], stream) + (if last.stream == stream then last.payload else [])
  }

  /** Every chunk starts where its stream's bytes ended when it came: streams are contiguous from zero. */
  ghost predicate Sound(a: Archive) {
    && (forall k :: 0 <= k < |a.chunks| ==> InPlace(a, k))
    && (forall s :: s in a.streams ==> a.streams[s].nextOffset == |Stored(a.chunks, s)|)
  }

  ghost predicate InPlace(a: Archive, k: nat)
    requires k < |a.chunks|
  {
    var c := a.chunks[k];
    && c.offset == |Stored(a.chunks[..k], c.stream)| && 1 <= |c.payload| <= CHUNK_BYTES && c.digest == Digest(c.payload)
    && c.stream in a.streams && a.streams[c.stream].machine == c.machine && a.streams[c.stream].filename == c.filename
  }

  lemma StoredGrows(chunks: seq<Chunk>, c: Chunk, stream: Stream)
    ensures Stored(chunks + [c], stream) == Stored(chunks, stream) + (if c.stream == stream then c.payload else [])
  {
    assert (chunks + [c])[..|chunks|] == chunks;
  }

  lemma {:induction false} StoredPrefix(chunks: seq<Chunk>, k: nat, stream: Stream)
    requires k <= |chunks|
    ensures Stored(chunks[..k], stream) <= Stored(chunks, stream)
  {
    if k == |chunks| {
      assert chunks[..k] == chunks;
    } else {
      var n := |chunks| - 1;
      StoredPrefix(chunks[..n], k, stream);
      assert chunks[..n][..k] == chunks[..k];
    }
  }

  lemma {:induction false} FindIs(chunks: seq<Chunk>, stream: Stream, offset: int)
    ensures var f := Find(chunks, stream, offset);
            if f.Some?
            then exists k ::
                   && 0 <= k < |chunks| && chunks[k] == f.value
                   && chunks[k].stream == stream && chunks[k].offset == offset
            else forall k :: 0 <= k < |chunks| ==> !(chunks[k].stream == stream && chunks[k].offset == offset)
  {
    if chunks != [] {
      var n := |chunks| - 1;
      FindIs(chunks[..n], stream, offset);
      assert forall k :: 0 <= k < n ==> chunks[..n][k] == chunks[k];
    }
  }

  lemma {:induction false} UnknownStreamsAreEmpty(chunks: seq<Chunk>, stream: Stream)
    requires forall k :: 0 <= k < |chunks| ==> chunks[k].stream != stream
    ensures Stored(chunks, stream) == []
  {
    if chunks != [] {
      UnknownStreamsAreEmpty(chunks[..|chunks| - 1], stream);
    }
  }

  lemma NextIsStored(a: Archive, stream: Stream)
    requires Sound(a)
    ensures NextOffset(a, stream) == |Stored(a.chunks, stream)|
  {
    if stream !in a.streams {
      forall k | 0 <= k < |a.chunks| ensures a.chunks[k].stream != stream {
        assert InPlace(a, k);
      }
      UnknownStreamsAreEmpty(a.chunks, stream);
    }
  }

  /** In a sound archive a chunk's bytes stand at its offset. */
  lemma ChunkIsStored(a: Archive, k: nat)
    requires Sound(a) && k < |a.chunks|
    ensures var c, s := a.chunks[k], Stored(a.chunks, a.chunks[k].stream);
            0 <= c.offset && c.offset + |c.payload| <= |s| && s[c.offset..c.offset + |c.payload|] == c.payload
  {
    var c := a.chunks[k];
    assert InPlace(a, k);
    assert a.chunks[..k + 1] == a.chunks[..k] + [c];
    StoredGrows(a.chunks[..k], c, c.stream);
    StoredPrefix(a.chunks, k + 1, c.stream);
    var upTo, all := Stored(a.chunks[..k + 1], c.stream), Stored(a.chunks, c.stream);
    assert all[..|upTo|] == upTo;
    assert upTo[c.offset..] == c.payload;
    assert all[c.offset..|upTo|] == all[..|upTo|][c.offset..];
  }

  lemma InPlaceStays(a: Archive, m: Message, k: nat)
    requires Sound(a) && Accepted(a, m).Ok? && Find(a.chunks, m.stream, m.offset).None? && k < |a.chunks|
    ensures InPlace(Accepted(a, m).value.archive, k)
  {
    assert InPlace(a, k);
    assert (a.chunks + [ChunkOf(m)])[..k] == a.chunks[..k];
  }

  /** Whatever is sent, the archive stays contiguous, only grows, and an acknowledged message's bytes
      stand at its offset; a message it already holds changes nothing. */
  lemma AcceptKeepsSound(a: Archive, m: Message)
    requires Sound(a) && Accepted(a, m).Ok?
    ensures var b := Accepted(a, m).value.archive;
            && Sound(b) && a.chunks <= b.chunks && a.streams.Keys <= b.streams.Keys
            && b == (if Accepted(a, m).value.ack.duplicate then a else b)
            && ChunkOf(m) in b.chunks && m.stream in b.streams
            && Stored(b.chunks, m.stream)
               == Stored(a.chunks, m.stream) + (if Accepted(a, m).value.ack.duplicate then [] else m.payload)
            && forall s :: s != m.stream ==> Stored(b.chunks, s) == Stored(a.chunks, s)
  {
    var b := Accepted(a, m).value.archive;
    FindIs(a.chunks, m.stream, m.offset);
    if Find(a.chunks, m.stream, m.offset).Some? {
      var k :| 0 <= k < |a.chunks| && a.chunks[k] == ChunkOf(m);
      assert InPlace(a, k);
      assert Stored(a.chunks, m.stream) + [] == Stored(a.chunks, m.stream);
    } else {
      NextIsStored(a, m.stream);
      forall k | 0 <= k < |a.chunks| ensures InPlace(b, k) {
        InPlaceStays(a, m, k);
      }
      assert b.chunks[..|a.chunks|] == a.chunks;
      assert InPlace(b, |a.chunks|);
      forall s ensures Stored(b.chunks, s) == Stored(a.chunks, s) + (if s == m.stream then m.payload else []) {
        StoredGrows(a.chunks, ChunkOf(m), s);
      }
    }
  }

  /** A sound archive holds at most one chunk for a place. */
  lemma PlacesAreUnique(a: Archive, j: nat, k: nat)
    requires Sound(a) && j < k < |a.chunks| && a.chunks[j].stream == a.chunks[k].stream
    ensures a.chunks[j].offset + |a.chunks[j].payload| <= a.chunks[k].offset
  {
    var c := a.chunks[j];
    assert InPlace(a, j) && InPlace(a, k);
    assert a.chunks[..j + 1] == a.chunks[..j] + [c];
    StoredGrows(a.chunks[..j], c, c.stream);
    StoredPrefix(a.chunks[..k], j + 1, c.stream);
    assert a.chunks[..k][..j + 1] == a.chunks[..j + 1];
  }

  // ---- feed ----

  datatype Record = Record(number: nat, chunk: Chunk)

  datatype Page = Page(records: seq<Record>, nextAfter: int)

  function Numbered(chunks: seq<Chunk>, from: nat, upTo: nat): (r: seq<Record>)
    requires from <= upTo <= |chunks|
  {
    seq(upTo - from, i requires 0 <= i < upTo - from => Record(from + i + 1, chunks[from + i]))
  }

  function Feed(a: Archive, after: int, limit: int): Result<Page> {
    if after < 0 || !(1 <= limit <= PAGE_LIMIT) then Refused("invalid page")
    else if after >= |a.chunks| then Ok(Page([], after))
    else
      var upTo := if |a.chunks| - after <= limit then |a.chunks| else after + limit;
      Ok(Page(Numbered(a.chunks, after, upTo), upTo))
  }

  /** One request of a reader that starts at zero and always passes on the last next_after. */
  datatype Request = Request(archive: Archive, limit: int)

  function Paged(requests: seq<Request>): Page {
    if requests == [] then Page([], 0)
    else
      var before, last := Paged(requests[..|requests| - 1]), requests[|requests| - 1];
      match Feed(last.archive, before.nextAfter, last.limit)
      case Refused(_) => before
      case Ok(page) => Page(before.records + page.records, page.nextAfter)
  }

  lemma FeedExtends(a: Archive, chunks: seq<Chunk>, after: nat, limit: int)
    requires a.chunks <= chunks && after <= |chunks| && Feed(a, after, limit).Ok?
    ensures var page := Feed(a, after, limit).value;
            && after <= page.nextAfter <= |chunks|
            && Numbered(chunks, 0, after) + page.records == Numbered(chunks, 0, page.nextAfter)
            && (page.nextAfter == after ==> |a.chunks| <= after)
  {
    assert a.chunks == chunks[..|a.chunks|];
  }

  /** Paging a growing archive yields its chunks in order, each once, none skipped; after a page that
      brings nothing, that is every chunk the archive then had. */
  lemma {:induction false} PagingReadsEveryChunkOnce(requests: seq<Request>, chunks: seq<Chunk>)
    requires forall r :: r in requests ==> r.archive.chunks <= chunks
    ensures var read := Paged(requests);
            && 0 <= read.nextAfter <= |chunks| && read.records == Numbered(chunks, 0, read.nextAfter)
            && (|requests| > 0 ==>
                  var last, before := requests[|requests| - 1], Paged(requests[..|requests| - 1]).nextAfter;
                  before == read.nextAfter && 1 <= last.limit <= PAGE_LIMIT ==> |last.archive.chunks| <= before)
  {
    if requests != [] {
      var n := |requests| - 1;
      var last := requests[n];
      hide Numbered;
      PagingReadsEveryChunkOnce(requests[..n], chunks);
      var after := Paged(requests[..n]).nextAfter;
      if Feed(last.archive, after, last.limit).Ok? {
        FeedExtends(last.archive, chunks, after, last.limit);
      }
    }
  }

  /** What a reader puts together of one stream from the records it was given. */
  function BytesOf(records: seq<Record>, stream: Stream): Bytes {
    if records == [] then []
    else
      var last := records[|records| - 1].chunk;
      BytesOf(records[..|records| - 1], stream) + (if last.stream == stream then last.payload else [])
  }

  lemma {:induction false} NumberedBytes(chunks: seq<Chunk>, n: nat, stream: Stream)
    requires n <= |chunks|
    ensures BytesOf(Numbered(chunks, 0, n), stream) == Stored(chunks[..n], stream)
  {
    if n > 0 {
      NumberedBytes(chunks, n - 1, stream);
      assert Numbered(chunks, 0, n)[..n - 1] == Numbered(chunks, 0, n - 1);
      assert chunks[..n][..n - 1] == chunks[..n - 1];
    }
  }

  /** The last request brought nothing, and asked the archive as it is. */
  predicate ReadToTheEnd(requests: seq<Request>, a: Archive) {
    && requests != [] && requests[|requests| - 1].archive == a && 1 <= requests[|requests| - 1].limit <= PAGE_LIMIT
    && Paged(requests).nextAfter == Paged(requests[..|requests| - 1]).nextAfter
  }

  /** A reader that pages to the end, while the archive may grow, holds every stream whole. */
  lemma PagedToTheEndIsAll(requests: seq<Request>, a: Archive, stream: Stream)
    requires forall r :: r in requests ==> r.archive.chunks <= a.chunks
    requires ReadToTheEnd(requests, a)
    ensures BytesOf(Paged(requests).records, stream) == Stored(a.chunks, stream)
  {
    PagingReadsEveryChunkOnce(requests, a.chunks);
    NumberedBytes(a.chunks, |a.chunks|, stream);
    assert a.chunks[..|a.chunks|] == a.chunks;
  }

  // ---- the store the receiver holds ----

  class RelayLogStore {
    var chunks: seq<Chunk>
    var streams: map<Stream, StreamRow>

    function Snapshot(): Archive
      reads this
    {
      Archive(chunks, streams)
    }

    constructor ()
      ensures Snapshot() == NOTHING
    {
      chunks, streams := [], map[];
    }

    method Accept(m: Message) returns (r: Result<Ack>)
      modifies this
      ensures r.Ok? <==> Accepted(old(Snapshot()), m).Ok?
      ensures r.Ok? ==> r.value == Accepted(old(Snapshot()), m).value.ack
      ensures Snapshot() == if r.Ok? then Accepted(old(Snapshot()), m).value.archive else old(Snapshot())
    {
      if !WellFormed(m) {
        return Refused("invalid envelope");
      }
      var existing := Find(chunks, m.stream, m.offset);
      if existing.Some? {
        if existing.value != ChunkOf(m) {
          return Refused("identity conflict");
        }
      } else {
        if m.stream in streams && (streams[m.stream].machine, streams[m.stream].filename) != (m.machine, m.filename) {
          return Refused("stream identity conflict");
        }
        if m.offset != (if m.stream in streams then streams[m.stream].nextOffset else 0) {
          return Refused("gap");
        }
        chunks := chunks + [ChunkOf(m)];
        streams := streams[m.stream := StreamRow(m.machine, m.filename, m.offset + |m.payload|)];
      }
      r := Ok(AckOf(m, existing.Some?));
    }
  }
}
