/** stream.js: framing an event stream that arrives in arbitrary pieces. The connection stops at the first
    packet whose data the consumer does not accept. */
module EventStream {
  import opened Wrappers

  // ---- one packet ----

  /** What String.prototype.trimStart removes. */
  predicate IsBlank(c: char) {
    || '\t' <= c <= '\r' || c == ' ' || c == '\U{a0}' || c == '\U{1680}' || '\U{2000}' <= c <= '\U{200a}'
    || c == '\U{2028}' || c == '\U{2029}' || c == '\U{202f}' || c == '\U{205f}' || c == '\U{3000}' || c == '\U{feff}'
  }

  function TrimStart(s: string): string {
    if s != "" && IsBlank(s[0]) then TrimStart(s[1..]) else s
  }

  function Lines(s: string): seq<string> {
    if s == "" then [""]
    else if s[0] == '\n' then [""] + Lines(s[1..])
    else
      var rest := Lines(s[1..]);
      if rest == [] then [s] else [[s[0]] + rest[0]] + rest[1..]
  }

  function Joined(lines: seq<string>): string {
    if lines == [] then "" else if |lines| == 1 then lines[0] else lines[0] + "\n" + Joined(lines[1..])
  }

  const FIELD := "data:"

  function DataLines(lines: seq<string>): seq<string> {
    if lines == [] then []
    else (if FIELD <= lines[0] then [TrimStart(lines[0][|FIELD|..])] else []) + DataLines(lines[1..])
  }

  function DataOf(packet: string): string {
    Joined(DataLines(Lines(packet)))
  }

  // ---- the buffer ----

  predicate BlankLineAt(s: string, k: nat) {
    k + 2 <= |s| && s[k] == '\n' && s[k + 1] == '\n'
  }

  /** indexOf of the blank line: the first place it stands. */
  function Boundary(s: string): (k: Option<nat>)
    ensures k.Some? ==> BlankLineAt(s, k.value) && forall i: nat :: i < k.value ==> !BlankLineAt(s, i)
    ensures k.None? ==> forall i: nat :: !BlankLineAt(s, i)
  {
    if |s| < 2 then None
    else if s[0] == '\n' && s[1] == '\n' then Some(0)
    else
      var rest := Boundary(s[1..]);
      assert forall i: nat :: i > 0 ==> BlankLineAt(s, i) == BlankLineAt(s[1..], i - 1);
      match rest
      case None => None
      case Some(k) => Some(k + 1)
  }

  datatype Connection = Connection(buffer: string, delivered: seq<string>, failed: bool)

  const FRESH := Connection("", [], false)

  /** The first packet taken out of the buffer. */
  function Taken(c: Connection, valid: string -> bool): Connection
    requires Boundary(c.buffer).Some?
  {
    var k := Boundary(c.buffer).value;
    var data, rest := DataOf(c.buffer[..k]), c.(buffer := c.buffer[k + 2..]);
    if data == "" then rest
    else if valid(data) then rest.(delivered := c.delivered + [data])
    else rest.(failed := true)
  }

  /** Everything that can be taken out of the buffer now. */
  function Framed(c: Connection, valid: string -> bool): Connection
    decreases |c.buffer|
  {
    if Boundary(c.buffer).None? then c
    else
      var t := Taken(c, valid);
      if t.failed then t else Framed(t, valid)
  }

  /** One read. */
  function Arrived(c: Connection, text: string, valid: string -> bool): Connection {
    if c.failed then c else Framed(c.(buffer := c.buffer + text), valid)
  }

  function ArrivedAll(pieces: seq<string>, valid: string -> bool): Connection {
    if pieces == [] then FRESH else Arrived(ArrivedAll(pieces[..|pieces| - 1], valid), pieces[|pieces| - 1], valid)
  }

  function Text(pieces: seq<string>): string {
    if pieces == [] then "" else Text(pieces[..|pieces| - 1]) + pieces[|pieces| - 1]
  }

  // ---- cuts do not matter ----

  /** Equal, except that nobody looks at the buffer of a failed connection again. */
  ghost predicate Same(a: Connection, b: Connection) {
    a.failed == b.failed && a.delivered == b.delivered && (!a.failed ==> a.buffer == b.buffer)
  }

  lemma BoundaryStays(a: string, b: string)
    requires Boundary(a).Some?
    ensures Boundary(a + b) == Boundary(a)
  {
    var k, m := Boundary(a).value, Boundary(a + b);
    assert BlankLineAt(a + b, k);
    assert m.value <= k;
    assert BlankLineAt(a, m.value);
  }

  lemma {:induction false} LeftoverHasNoBlankLine(c: Connection, valid: string -> bool)
    ensures !c.failed && !Framed(c, valid).failed ==> Boundary(Framed(c, valid).buffer).None?
    decreases |c.buffer|
  {
    if Boundary(c.buffer).Some? {
      LeftoverHasNoBlankLine(Taken(c, valid), valid);
    }
  }

  lemma SamePacketIsTaken(c: Connection, more: string, valid: string -> bool)
    requires Boundary(c.buffer).Some?
    ensures Boundary(c.buffer + more).Some?
    ensures var t := Taken(c, valid);
            Taken(c.(buffer := c.buffer + more), valid) == t.(buffer := t.buffer + more)
  {
    hide DataOf;
    BoundaryStays(c.buffer, more);
    var k := Boundary(c.buffer).value;
    assert (c.buffer + more)[..k] == c.buffer[..k] && (c.buffer + more)[k + 2..] == c.buffer[k + 2..] + more;
  }

  /** Text that comes later never changes what earlier text was framed into. */
  lemma {:induction false} LaterTextOnlyAdds(c: Connection, more: string, valid: string -> bool)
    requires !c.failed
    ensures var now := Framed(c, valid);
            Same(Framed(c.(buffer := c.buffer + more), valid),
                 if now.failed then now else Framed(now.(buffer := now.buffer + more), valid))
    decreases |c.buffer|
  {
    if Boundary(c.buffer).Some? {
      var t := Taken(c, valid);
      SamePacketIsTaken(c, more, valid);
      Shorter(c, valid);
      hide Taken;
      if !t.failed {
        LaterTextOnlyAdds(t, more, valid);
      }
    }
  }

  lemma Shorter(c: Connection, valid: string -> bool)
    requires Boundary(c.buffer).Some?
    ensures |Taken(c, valid).buffer| < |c.buffer|
  {
    hide DataOf;
  }

  /** However a text is cut into reads, even inside a blank line, the same packets come out as from the
      text in one piece, the connection fails at the same packet, and no blank line is left behind. */
  lemma {:induction false} FramingIgnoresReadBoundaries(pieces: seq<string>, valid: string -> bool)
    ensures var c := ArrivedAll(pieces, valid);
            && Same(c, Framed(FRESH.(buffer := Text(pieces)), valid))
            && (!c.failed ==> Boundary(c.buffer).None?)
  {
    if pieces != [] {
      var n := |pieces| - 1;
      var whole := FRESH.(buffer := Text(pieces[..n]));
      FramingIgnoresReadBoundaries(pieces[..n], valid);
      LaterTextOnlyAdds(whole, pieces[n], valid);
      var c := ArrivedAll(pieces[..n], valid);
      LeftoverHasNoBlankLine(c.(buffer := c.buffer + pieces[n]), valid);
    }
  }

  // ---- what the server writes ----

  datatype Frame = Data(payload: string) | Heartbeat

  /** A payload as json.dumps writes it: one line, not empty, not starting in white space. */
  predicate IsLine(payload: string) {
    payload != "" && '\n' !in payload && !IsBlank(payload[0])
  }

  function Packet(f: Frame): string {
    match f
    case Data(payload) => "data: " + payload
    case Heartbeat => ": heartbeat"
  }

  function Written(frames: seq<Frame>): string {
    if frames == [] then "" else Packet(frames[0]) + "\n\n" + Written(frames[1..])
  }

  function Payloads(frames: seq<Frame>): seq<string> {
    if frames == [] then []
    else (if frames[0].Data? then [frames[0].payload] else []) + Payloads(frames[1..])
  }

  /** Up to the first one that is refused. */
  function UntilRefused(payloads: seq<string>, valid: string -> bool): seq<string> {
    if payloads == [] || !valid(payloads[0]) then [] else [payloads[0]] + UntilRefused(payloads[1..], valid)
  }

  lemma {:induction false} OneLine(s: string)
    requires '\n' !in s
    ensures Lines(s) == [s]
  {
    if s != "" {
      OneLine(s[1..]);
      assert [s[0]] + s[1..] == s;
    }
  }

  lemma PacketIs(f: Frame, rest: string)
    requires f.Data? ==> IsLine(f.payload)
    ensures var p := Packet(f);
            Boundary(p + "\n\n" + rest) == Some(|p|) && DataOf(p) == if f.Data? then f.payload else ""
  {
    var p := Packet(f);
    var s := p + "\n\n" + rest;
    assert '\n' !in p;
    forall i: nat | i < |p| ensures !BlankLineAt(s, i) {
      assert s[i] == p[i] && p[i] in p;
    }
    assert BlankLineAt(s, |p|);
    OneLine(p);
    if f.Data? {
      assert p[..|FIELD|] == FIELD;
      assert p[|FIELD|..] == " " + f.payload;
      assert (" " + f.payload)[1..] == f.payload;
      assert TrimStart(p[|FIELD|..]) == f.payload;
    } else {
      assert p[0] != FIELD[0];
      assert !(FIELD <= p);
      assert DataLines([p]) == [];
    }
  }

  lemma FrameIsTaken(c: Connection, f: Frame, rest: string, valid: string -> bool)
    requires !c.failed && c.buffer == Packet(f) + "\n\n" + rest && (f.Data? ==> IsLine(f.payload))
    ensures Boundary(c.buffer).Some?
    ensures Taken(c, valid) == if f.Heartbeat? then c.(buffer := rest)
                               else if valid(f.payload) then c.(buffer := rest, delivered := c.delivered + [f.payload])
                               else c.(buffer := rest, failed := true)
  {
    PacketIs(f, rest);
    var p := Packet(f);
    assert c.buffer[..|p|] == p && c.buffer[|p| + 2..] == rest;
    hide DataOf;
    hide Packet;
  }

  lemma {:induction false} WrittenIsFramed(c: Connection, frames: seq<Frame>, valid: string -> bool)
    requires !c.failed && c.buffer == Written(frames) && forall f :: f in frames && f.Data? ==> IsLine(f.payload)
    ensures var r := Framed(c, valid);
            && r.delivered == c.delivered + UntilRefused(Payloads(frames), valid)
            && (r.failed <==> exists p :: p in Payloads(frames) && !valid(p))
            && (!r.failed ==> r.buffer == "")
    decreases frames
  {
    if frames == [] {
      assert c.delivered + [] == c.delivered;
    } else {
      var f := frames[0];
      FrameIsTaken(c, f, Written(frames[1..]), valid);
      var t := Taken(c, valid);
      hide Taken;
      hide Packet;
      hide IsLine;
      if t.failed {
        assert Payloads(frames)[0] == f.payload;
        assert c.delivered + [] == c.delivered;
      } else {
        WrittenIsFramed(t, frames[1..], valid);
        PayloadsFollow(c.delivered, frames, valid);
      }
    }
  }

  lemma PayloadsFollow(delivered: seq<string>, frames: seq<Frame>, valid: string -> bool)
    requires frames != [] && (frames[0].Data? ==> valid(frames[0].payload))
    ensures delivered + UntilRefused(Payloads(frames), valid)
         == (if frames[0].Data? then delivered + [frames[0].payload] else delivered)
           + UntilRefused(Payloads(frames[1..]), valid)
    ensures (exists p :: p in Payloads(frames) && !valid(p)) <==> (exists p :: p in Payloads(frames[1..]) && !valid(p))
  {
    var rest := Payloads(frames[1..]);
    if frames[0].Data? {
      assert Payloads(frames)[1..] == rest;
      assert delivered + ([frames[0].payload] + UntilRefused(rest, valid))
          == delivered + [frames[0].payload] + UntilRefused(rest, valid);
    } else {
      assert Payloads(frames) == rest;
    }
  }

  /** Whatever the server wrote, cut anywhere: the consumer gets its payloads in order, each once, up to
      the first one it refuses; heartbeats leave no trace. */
  lemma PayloadsArrive(frames: seq<Frame>, pieces: seq<string>, valid: string -> bool)
    requires Text(pieces) == Written(frames) && forall f :: f in frames && f.Data? ==> IsLine(f.payload)
    ensures var c := ArrivedAll(pieces, valid);
            && c.delivered == UntilRefused(Payloads(frames), valid)
            && (c.failed <==> exists p :: p in Payloads(frames) && !valid(p))
            && (!c.failed ==> c.buffer == "")
  {
    FramingIgnoresReadBoundaries(pieces, valid);
    WrittenIsFramed(FRESH.(buffer := Written(frames)), frames, valid);
  }

  // ---- the reading loop ----

  class Follower {
    var buffer: string
    var failed: bool
    ghost var delivered: seq<string>
    var latest: Option<string>

    ghost function Snapshot(): Connection
      reads this
    {
      Connection(buffer, delivered, failed)
    }

    constructor ()
      ensures Snapshot() == FRESH && latest.None?
    {
      buffer, failed, delivered, latest := "", false, [], None;
    }

    /** One packet out of the buffer. */
    method TakePacket(boundary: nat, valid: string -> bool)
      requires !failed && Boundary(buffer) == Some(boundary)
      modifies this
      ensures Snapshot() == Taken(old(Snapshot()), valid)
      ensures if delivered == old(delivered) then latest == old(latest)
              else old(delivered) <= delivered && latest == Some(delivered[|delivered| - 1])
    {
      hide DataOf;
      var packet := buffer[..boundary];
      buffer := buffer[boundary + 2..];
      var data := DataOf(packet);
      if data != "" {
        if !valid(data) {
          failed := true;
          return;
        }
        delivered := delivered + [data];
        latest := Some(data);
      }
    }

    method Read(text: string, valid: string -> bool)
      requires !failed
      modifies this
      ensures old(delivered) <= delivered
      ensures Snapshot() == Arrived(old(Snapshot()), text, valid)
      ensures latest == if delivered == old(delivered) then old(latest) else Some(delivered[|delivered| - 1])
    {
      hide Taken;
      buffer := buffer + text;
      ghost var start := Snapshot();
      var boundary := Boundary(buffer);
      while boundary.Some?
        invariant boundary == Boundary(buffer) && !failed
        invariant Framed(start, valid) == Framed(Snapshot(), valid)
        invariant old(delivered) <= delivered
        invariant latest == if delivered == old(delivered) then old(latest) else Some(delivered[|delivered| - 1])
        decreases |buffer|
      {
        Shorter(Snapshot(), valid);
        TakePacket(boundary.value, valid);
        if failed {
          return;
        }
        boundary := Boundary(buffer);
      }
    }
  }
}
