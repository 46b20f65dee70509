/** transparent_proxy.py read_body: the body of a request, chunked (RFC 9112, section 7.1) or of stated
    length. Bytes are characters below 256, as the program's latin-1 decoding has them. */
module ChunkedBody {
  import opened Wrappers
  import O = Observations

  const LINE_LIMIT := 8192

  // ---- bytes and strings ----

  /** What bytes.strip removes; str.strip removes O.IsSpace. */
  predicate IsByteSpace(c: char) {
    c == ' ' || '\t' <= c <= '\r'
  }

  function TrimLeft(s: string, space: char -> bool): string {
    if s != "" && space(s[0]) then TrimLeft(s[1..], space) else s
  }

  function TrimRight(s: string, space: char -> bool): string {
    if s != "" && space(s[|s| - 1]) then TrimRight(s[..|s| - 1], space) else s
  }

  function Strip(s: string, space: char -> bool): string {
    TrimRight(TrimLeft(s, space), space)
  }

  /** s.index(c), or the length of s. */
  function IndexOf(s: string, c: char): (n: nat)
    ensures n <= |s| && c !in s[..n] && (n < |s| ==> s[n] == c)
  {
    if s == "" || s[0] == c then 0
    else
      var n := IndexOf(s[1..], c);
      assert s[..n + 1] == [s[0]] + s[1..][..n];
      n + 1
  }

  function HexDigit(c: char): Option<nat> {
    if '0' <= c <= '9' then Some(c as nat - '0' as nat)
    else if 'a' <= c <= 'f' then Some(c as nat - 'a' as nat + 10)
    else if 'A' <= c <= 'F' then Some(c as nat - 'A' as nat + 10)
    else None
  }

  /** Digits with single underscores between them. */
  function Digits(s: string): Option<nat> {
    if s == "" then None
    else
      var n := |s| - 1;
      match HexDigit(s[n])
      case None => None
      case Some(d) =>
        if n == 0 then Some(d)
        else
          match Digits(if s[n - 1] == '_' then s[..n - 1] else s[..n])
          case None => None
          case Some(m) => Some(16 * m + d)
  }

  function Unprefixed(s: string): string {
    if |s| >= 2 && s[0] == '0' && s[1] in {'x', 'X'} then if |s| > 2 && s[2] == '_' then s[3..] else s[2..] else s
  }

  /** int(s, 16), which also takes a sign, a prefix and underscores. */
  function HexInt(s: string): Option<int> {
    var t := Strip(s, IsByteSpace);
    var signed := t != "" && t[0] in {'+', '-'};
    match Digits(Unprefixed(if signed then t[1..] else t))
    case None => None
    case Some(n) =>
      var value: int := n;
      Some(if signed && t[0] == '-' then -value else value)
  }

  // ---- the decoder's meaning ----

  type Trailer = (string, string)

  datatype Decoded = Decoded(body: string, trailers: seq<Trailer>, rest: string)

  /** How much readline(limit) takes. */
  function LineEnd(rest: string, limit: nat): (n: nat)
    ensures n <= |rest| && n <= limit
    ensures rest != "" && limit > 0 ==> n > 0
  {
    if rest == "" || limit == 0 then 0
    else if rest[0] == '\n' then 1
    else 1 + LineEnd(rest[1..], limit - 1)
  }

  function TrailerOf(line: string): Trailer {
    var n := IndexOf(line, ':');
    (Strip(line[..n], O.IsSpace), Strip(if n < |line| then line[n + 1..] else "", O.IsSpace))
  }

  function Trailers(rest: string): Result<Decoded>
    decreases |rest|
  {
    var n := LineEnd(rest, LINE_LIMIT);
    var line := rest[..n];
    if line == "\r\n" then Ok(Decoded("", [], rest[n..]))
    else if line == "" then Refused("incomplete chunk trailers")
    else if ':' !in line then Refused("malformed trailer")
    else
      match Trailers(rest[n..])
      case Refused(reason) => Refused(reason)
      case Ok(d) => Ok(d.(trailers := [TrailerOf(line)] + d.trailers))
  }

  function SizeOf(line: string): Option<int> {
    HexInt(Strip(line[..IndexOf(line, ';')], IsByteSpace))
  }

  function Chunks(rest: string): Result<Decoded>
    decreases |rest|
  {
    var n := LineEnd(rest, LINE_LIMIT);
    var size := SizeOf(rest[..n]);
    if size.None? || size.value < 0 then Refused("invalid chunk size")
    else if size.value == 0 then Trailers(rest[n..])
    else
      var after, k := rest[n..], size.value;
      if |after| < k + 2 || after[k..k + 2] != "\r\n" then Refused("incomplete request chunk")
      else
        match Chunks(after[k + 2..])
        case Refused(reason) => Refused(reason)
        case Ok(d) => Ok(d.(body := after[..k] + d.body))
  }

  // ---- trimming ----

  predicate AllSpace(s: string, space: char -> bool) {
    forall c <- s :: space(c)
  }

  lemma {:induction false} TrimLeftDropsSpace(pre: string, s: string, space: char -> bool)
    requires AllSpace(pre, space)
    ensures TrimLeft(pre + s, space) == TrimLeft(s, space)
  {
    if pre == "" {
      assert pre + s == s;
    } else {
      TrimLeftDropsSpace(pre[1..], s, space);
      assert (pre + s)[1..] == pre[1..] + s;
    }
  }

  lemma {:induction false} TrimRightDropsSpace(s: string, post: string, space: char -> bool)
    requires AllSpace(post, space)
    ensures TrimRight(s + post, space) == TrimRight(s, space)
  {
    if post == "" {
      assert s + post == s;
    } else {
      var n := |post| - 1;
      TrimRightDropsSpace(s, post[..n], space);
      assert (s + post)[..|s| + n] == s + post[..n];
    }
  }

  lemma {:induction false} StripDropsSpaceBehind(s: string, post: string, space: char -> bool)
    requires AllSpace(post, space)
    ensures Strip(s + post, space) == Strip(s, space)
  {
    if s == "" {
      assert s + post == post && post == post + "";
      TrimLeftDropsSpace(post, "", space);
    } else if space(s[0]) {
      StripDropsSpaceBehind(s[1..], post, space);
      assert (s + post)[1..] == s[1..] + post;
    } else {
      TrimRightDropsSpace(s, post, space);
    }
  }

  lemma StripDropsSpaceAround(pre: string, s: string, post: string, space: char -> bool)
    requires AllSpace(pre, space) && AllSpace(post, space)
    ensures Strip(pre + s + post, space) == Strip(s, space)
  {
    assert pre + s + post == pre + (s + post);
    TrimLeftDropsSpace(pre, s + post, space);
    StripDropsSpaceBehind(s, post, space);
  }

  /** A text is kept whole exactly if it neither starts nor ends in white space. */
  lemma StripKeepsIff(s: string, space: char -> bool)
    ensures Strip(s, space) == s <==> s == "" || (!space(s[0]) && !space(s[|s| - 1]))
  {
    TrimLeftLength(s, space);
    TrimRightLength(TrimLeft(s, space), space);
  }

  lemma TrimLeftLength(s: string, space: char -> bool)
    ensures |TrimLeft(s, space)| <= |s| && (s != "" && space(s[0]) ==> |TrimLeft(s, space)| < |s|)
  {
  }

  lemma TrimRightLength(s: string, space: char -> bool)
    ensures |TrimRight(s, space)| <= |s| && (s != "" && space(s[|s| - 1]) ==> |TrimRight(s, space)| < |s|)
  {
  }

  // ---- what a sender writes ----

  predicate IsHexDigits(s: string) {
    s != "" && forall c <- s :: HexDigit(c).Some?
  }

  /** The number a string of hexadecimal digits stands for, in either case and with any leading zeros. */
  function HexValue(s: string): nat
    requires forall c <- s :: HexDigit(c).Some?
  {
    if s == "" then 0 else 16 * HexValue(s[..|s| - 1]) + HexDigit(s[|s| - 1]).value
  }

  predicate IsPadding(s: string) {
    forall c <- s :: c == ' ' || c == '\t'
  }

  /** One chunk: the size as it is spelled, white space, extensions, and the data. */
  datatype Chunk = Chunk(spelling: string, padding: string, extensions: string, data: string)

  datatype Field = Field(name: string, before: string, value: string, after: string)

  function SizeLine(c: Chunk): string {
    c.spelling + c.padding + c.extensions + "\r\n"
  }

  predicate WellSized(c: Chunk) {
    && IsHexDigits(c.spelling) && HexValue(c.spelling) == |c.data|
    && IsPadding(c.padding)
    && (c.extensions == "" || c.extensions[0] == ';') && '\n' !in c.extensions
    && |SizeLine(c)| <= LINE_LIMIT
  }

  function FieldLine(f: Field): string {
    f.name + ":" + f.before + f.value + f.after + "\r\n"
  }

  predicate WellMade(f: Field) {
    && ':' !in f.name && '\n' !in f.name && '\n' !in f.value && IsPadding(f.before) && IsPadding(f.after)
    && |FieldLine(f)| <= LINE_LIMIT
  }

  function EncodedFields(fields: seq<Field>): string {
    if fields == [] then "\r\n" else FieldLine(fields[0]) + EncodedFields(fields[1..])
  }

  /** The chunks, the last chunk, the trailer fields and the final line end. */
  function Encoded(chunks: seq<Chunk>, last: Chunk, fields: seq<Field>): string {
    if chunks == [] then SizeLine(last) + EncodedFields(fields)
    else SizeLine(chunks[0]) + chunks[0].data + "\r\n" + Encoded(chunks[1..], last, fields)
  }

  function Body(chunks: seq<Chunk>): string {
    if chunks == [] then "" else chunks[0].data + Body(chunks[1..])
  }

  function Trimmed(fields: seq<Field>): seq<Trailer> {
    seq(|fields|, i requires 0 <= i < |fields| => (Strip(fields[i].name, O.IsSpace), Strip(fields[i].value, O.IsSpace)))
  }

  // ---- lines ----

  lemma {:induction false} LineEndsAtNewline(line: string, rest: string, limit: nat)
    requires line != "" && line[|line| - 1] == '\n' && '\n' !in line[..|line| - 1] && |line| <= limit
    ensures LineEnd(line + rest, limit) == |line|
  {
    assert (line + rest)[0] == line[0];
    if |line| > 1 {
      assert line[0] in line[..|line| - 1];
      assert line[1..][..|line| - 2] == line[..|line| - 1][1..];
      LineEndsAtNewline(line[1..], rest, limit - 1);
      assert (line + rest)[1..] == line[1..] + rest;
    }
  }

  lemma LineIs(text: string, rest: string)
    requires '\n' !in text && |text| + 2 <= LINE_LIMIT
    ensures var all := text + "\r\n" + rest;
            LineEnd(all, LINE_LIMIT) == |text| + 2 && all[..|text| + 2] == text + "\r\n" && all[|text| + 2..] == rest
  {
    var line := text + "\r\n";
    assert line[..|line| - 1] == text + "\r";
    LineEndsAtNewline(line, rest, LINE_LIMIT);
  }

  lemma {:induction false} HexDigitsAreRead(s: string)
    requires IsHexDigits(s)
    ensures Digits(s) == Some(HexValue(s))
  {
    var n := |s| - 1;
    assert HexDigit(s[n]).Some?;
    if n > 0 {
      assert s[n - 1] in s;
      HexDigitsAreRead(s[..n]);
    }
  }

  lemma HexIntReadsDigits(s: string)
    requires IsHexDigits(s)
    ensures HexInt(s) == Some(HexValue(s))
  {
    assert s[0] in s && s[|s| - 1] in s && (|s| >= 2 ==> s[1] in s);
    StripKeepsIff(s, IsByteSpace);
    HexDigitsAreRead(s);
  }

  lemma IndexIs(a: string, b: string, c: char)
    requires c !in a && (b == "" || b[0] == c)
    ensures IndexOf(a + b, c) == |a| && (a + b)[..|a|] == a
  {
    var s, n := a + b, IndexOf(a + b, c);
    forall i | 0 <= i < |a| ensures s[i] != c {
      assert s[i] == a[i] && a[i] in a;
    }
    forall i | 0 <= i < n ensures s[i] != c {
      assert s[i] in s[..n];
    }
    assert b != "" ==> s[|a|] == c;
  }

  /** What stands before the first semicolon of a size line. */
  lemma SizeFieldIs(c: Chunk) returns (counted: string)
    requires WellSized(c)
    ensures AllSpace(counted, IsByteSpace)
    ensures SizeLine(c)[..IndexOf(SizeLine(c), ';')] == "" + c.spelling + counted
  {
    var head := c.spelling + c.padding;
    forall i | 0 <= i < |head| ensures head[i] != ';' {
      assert if i < |c.spelling| then head[i] in c.spelling else head[i] in c.padding;
    }
    if c.extensions == "" {
      counted := c.padding + "\r\n";
      assert SizeLine(c) == (head + "\r\n") + "";
      IndexIs(head + "\r\n", "", ';');
      assert head + "\r\n" == "" + c.spelling + counted;
    } else {
      counted := c.padding;
      assert SizeLine(c) == head + (c.extensions + "\r\n");
      IndexIs(head, c.extensions + "\r\n", ';');
      assert head == "" + c.spelling + counted;
    }
  }

  /** A size line gives its number, whatever the spelling and the extensions. */
  lemma SizeIsRead(c: Chunk)
    requires WellSized(c)
    ensures SizeOf(SizeLine(c)) == Some(|c.data|)
  {
    var counted := SizeFieldIs(c);
    hide IndexOf;
    hide SizeLine;
    hide HexInt;
    StripDropsSpaceAround("", c.spelling, counted, IsByteSpace);
    assert c.spelling[0] in c.spelling && c.spelling[|c.spelling| - 1] in c.spelling;
    StripKeepsIff(c.spelling, IsByteSpace);
    hide Strip;
    HexIntReadsDigits(c.spelling);
  }

  lemma SizeLineIsLine(c: Chunk, rest: string)
    requires WellSized(c)
    ensures var all := SizeLine(c) + rest;
            var n := LineEnd(all, LINE_LIMIT);
            n == |SizeLine(c)| && all[..n] == SizeLine(c) && all[n..] == rest
  {
    var text := c.spelling + c.padding + c.extensions;
    forall i | 0 <= i < |text| ensures text[i] != '\n' {
      assert text[i] in c.spelling || text[i] in c.padding || text[i] in c.extensions;
    }
    LineIs(text, rest);
  }

  lemma FieldLineIsLine(f: Field, rest: string)
    requires WellMade(f)
    ensures var all := FieldLine(f) + rest;
            var n := LineEnd(all, LINE_LIMIT);
            n == |FieldLine(f)| && all[..n] == FieldLine(f) && all[n..] == rest
  {
    var text := f.name + ":" + f.before + f.value + f.after;
    forall i | 0 <= i < |text| ensures text[i] != '\n' {
      assert text[i] in f.name || text[i] in ":" || text[i] in f.before || text[i] in f.value || text[i] in f.after;
    }
    LineIs(text, rest);
  }

  lemma FieldIsRead(f: Field)
    requires WellMade(f)
    ensures ':' in FieldLine(f) && FieldLine(f) != "\r\n" && FieldLine(f) != ""
    ensures TrailerOf(FieldLine(f)) == (Strip(f.name, O.IsSpace), Strip(f.value, O.IsSpace))
  {
    hide Strip;
    var line, value := FieldLine(f), f.before + f.value + (f.after + "\r\n");
    assert line[|f.name|] == ':';
    assert line == f.name + (":" + value);
    IndexIs(f.name, ":" + value, ':');
    assert line[|f.name| + 1..] == value;
    StripDropsSpaceAround(f.before, f.value, f.after + "\r\n", O.IsSpace);
  }

  // ---- decoding inverts encoding ----

  lemma {:induction false} TrailersInvert(fields: seq<Field>, rest: string)
    requires forall f :: f in fields ==> WellMade(f)
    ensures Trailers(EncodedFields(fields) + rest) == Ok(Decoded("", Trimmed(fields), rest))
    decreases fields
  {
    hide LineEnd;
    hide TrailerOf;
    hide FieldLine;
    hide WellMade;
    hide Strip;
    if fields == [] {
      LineIs("", rest);
      assert "" + "\r\n" + rest == "\r\n" + rest && "\r\n" == "" + "\r\n";
      TrailersFromLine("\r\n", rest);
    } else {
      var f, more := fields[0], EncodedFields(fields[1..]) + rest;
      assert EncodedFields(fields) + rest == FieldLine(f) + more;
      FieldLineIsLine(f, more);
      FieldIsRead(f);
      TrailersFromLine(FieldLine(f), more);
      TrailersInvert(fields[1..], rest);
      assert [(Strip(f.name, O.IsSpace), Strip(f.value, O.IsSpace))] + Trimmed(fields[1..]) == Trimmed(fields);
    }
  }

  /** For every way of cutting a body into chunks, every spelling of their sizes, all extensions and all
      trailer fields, as long as the lines fit: exactly the body, exactly the trimmed trailers in order,
      and nothing of what follows the message is consumed. */
  lemma {:induction false} DecodingInvertsEncoding(chunks: seq<Chunk>, last: Chunk, fields: seq<Field>, rest: string)
    requires forall c :: c in chunks ==> WellSized(c) && c.data != ""
    requires WellSized(last) && last.data == ""
    requires forall f :: f in fields ==> WellMade(f)
    ensures Chunks(Encoded(chunks, last, fields) + rest) == Ok(Decoded(Body(chunks), Trimmed(fields), rest))
    decreases chunks
  {
    if chunks == [] {
      var more := EncodedFields(fields) + rest;
      assert Encoded(chunks, last, fields) + rest == SizeLine(last) + more;
      SizeLineIsLine(last, more);
      SizeIsRead(last);
      TrailersInvert(fields, rest);
    } else {
      var c, more := chunks[0], Encoded(chunks[1..], last, fields) + rest;
      var after := c.data + "\r\n" + more;
      assert Encoded(chunks, last, fields) + rest == SizeLine(c) + after;
      SizeLineIsLine(c, after);
      SizeIsRead(c);
      DecodingInvertsEncoding(chunks[1..], last, fields, rest);
      assert after[..|c.data|] == c.data && after[|c.data|..|c.data| + 2] == "\r\n" && after[|c.data| + 2..] == more;
    }
  }

  const NO_BREAK_SPACE := '\U{a0}'

  /** A chunked message without data whose one trailer value ends in a no-break space: the value arrives without it. */
  lemma ATrailerLosesItsNoBreakSpace(rest: string)
    ensures var (last, f) := (Chunk("0", "", "", ""), Field("x", "", "b" + [NO_BREAK_SPACE], ""));
            && WellSized(last) && WellMade(f)
            && Chunks(Encoded([], last, [f]) + rest) == Ok(Decoded("", [("x", "b")], rest))
  {
    var last, f := Chunk("0", "", "", ""), Field("x", "", "b" + [NO_BREAK_SPACE], "");
    assert "0"[..0] == "" && HexValue("0") == 0;
    DecodingInvertsEncoding([], last, [f], rest);
    hide Chunks;
    StripDropsSpaceBehind("b", [NO_BREAK_SPACE], O.IsSpace);
    StripKeepsIff("b", O.IsSpace);
    StripKeepsIff("x", O.IsSpace);
    assert Trimmed([f]) == [("x", "b")];
  }

  // ---- nothing behind the message matters ----

  lemma {:induction false} LineEndIsLocal(input: string, other: string, limit: nat)
    requires var n := LineEnd(input, limit); n == limit || (n > 0 && input[n - 1] == '\n')
    ensures var n := LineEnd(input, limit); LineEnd(input[..n] + other, limit) == n
  {
    var n := LineEnd(input, limit);
    if limit > 0 && input[0] != '\n' {
      LineEndIsLocal(input[1..], other, limit - 1);
      assert (input[..n] + other)[1..] == input[1..][..n - 1] + other;
    }
  }

  /** A line cut short by the end of the input is the last one. */
  lemma {:induction false} ShortLineIsLast(input: string, limit: nat)
    ensures var n := LineEnd(input, limit); n == limit || (n > 0 && input[n - 1] == '\n') || n == |input|
  {
    if input != "" && limit > 0 && input[0] != '\n' {
      ShortLineIsLast(input[1..], limit - 1);
    }
  }

  /** A complete line is read as the same line whatever follows it. */
  lemma LineIsLocal(input: string, other: string)
    requires var n := LineEnd(input, LINE_LIMIT); n == LINE_LIMIT || (n > 0 && input[n - 1] == '\n')
    ensures var n := LineEnd(input, LINE_LIMIT);
            var again := input[..n] + other;
            LineEnd(again, LINE_LIMIT) == n && again[..n] == input[..n] && again[n..] == other
  {
    LineEndIsLocal(input, other, LINE_LIMIT);
  }

  lemma TrailersFromLine(line: string, rest: string)
    requires LineEnd(line + rest, LINE_LIMIT) == |line|
    ensures Trailers(line + rest)
         == (if line == "\r\n" then Ok(Decoded("", [], rest))
             else if line == "" then Refused("incomplete chunk trailers")
             else if ':' !in line then Refused("malformed trailer")
             else if Trailers(rest).Refused? then Trailers(rest)
             else Ok(Trailers(rest).value.(trailers := [TrailerOf(line)] + Trailers(rest).value.trailers)))
  {
    assert (line + rest)[..|line|] == line && (line + rest)[|line|..] == rest;
  }

  lemma NothingIsNoTrailer(rest: string)
    requires rest == ""
    ensures Trailers(rest).Refused?
  {
  }

  lemma {:induction false} TrailersReadOnlyTheMessage(input: string, other: string) returns (used: string)
    requires Trailers(input).Ok?
    ensures input == used + Trailers(input).value.rest
    ensures Trailers(used + other) == Ok(Trailers(input).value.(rest := other))
    decreases |input|
  {
    hide Trailers;
    hide LineEnd;
    hide TrailerOf;
    var n := LineEnd(input, LINE_LIMIT);
    var line, rest := input[..n], input[n..];
    ShortLineIsLast(input, LINE_LIMIT);
    assert input == line + rest;
    TrailersFromLine(line, rest);
    if rest == "" {
      NothingIsNoTrailer(rest);
    }
    if line == "\r\n" {
      LineIsLocal(input, other);
      TrailersFromLine(line, other);
      used := line;
    } else {
      var more := TrailersReadOnlyTheMessage(rest, other);
      LineIsLocal(input, more + other);
      TrailersFromLine(line, more + other);
      used := line + more;
      assert used + other == line + (more + other);
    }
  }

  lemma ChunksFromLine(line: string, rest: string)
    requires LineEnd(line + rest, LINE_LIMIT) == |line|
    ensures Chunks(line + rest) == FromLine(line, rest)
  {
    hide SizeOf;
    hide Trailers;
    assert (line + rest)[..|line|] == line && (line + rest)[|line|..] == rest;
  }

  function FirstChunk(after: string, k: nat): Result<Decoded> {
    if |after| < k + 2 || after[k..k + 2] != "\r\n" then Refused("incomplete request chunk")
    else if Chunks(after[k + 2..]).Refused? then Chunks(after[k + 2..])
    else Ok(Chunks(after[k + 2..]).value.(body := after[..k] + Chunks(after[k + 2..]).value.body))
  }

  lemma FirstChunkIsLocal(after: string, k: nat, more: string, other: string)
    requires FirstChunk(after, k).Ok?
    requires after[k + 2..] == more + FirstChunk(after, k).value.rest
    requires Chunks(more + other) == Ok(Chunks(after[k + 2..]).value.(rest := other))
    ensures var head := after[..k + 2] + more;
            && after == head + FirstChunk(after, k).value.rest
            && FirstChunk(head + other, k) == Ok(FirstChunk(after, k).value.(rest := other))
  {
    hide Chunks;
    var again := after[..k + 2] + more + other;
    assert again[..k] == after[..k] && again[k..k + 2] == after[k..k + 2] && again[k + 2..] == more + other;
  }

  /** A chunked body from its first line on. */
  function FromLine(line: string, rest: string): Result<Decoded> {
    var size := SizeOf(line);
    if size.None? || size.value < 0 then Refused("invalid chunk size")
    else if size.value == 0 then Trailers(rest)
    else FirstChunk(rest, size.value)
  }

  lemma FirstLineIsLocal(input: string, again: string, other: string)
    requires var n := LineEnd(input, LINE_LIMIT); n == LINE_LIMIT || (n > 0 && input[n - 1] == '\n')
    ensures var n := LineEnd(input, LINE_LIMIT);
            && Chunks(input) == FromLine(input[..n], input[n..])
            && Chunks(input[..n] + again + other) == FromLine(input[..n], again + other)
  {
    hide LineEnd;
    hide Chunks;
    hide SizeOf;
    var n := LineEnd(input, LINE_LIMIT);
    assert input[..n] + input[n..] == input;
    ChunksFromLine(input[..n], input[n..]);
    LineIsLocal(input, again + other);
    ChunksFromLine(input[..n], again + other);
    assert input[..n] + again + other == input[..n] + (again + other);
  }

  lemma CompleteFirstLine(input: string)
    requires Chunks(input).Ok?
    ensures var n := LineEnd(input, LINE_LIMIT);
            && n > 0 && (n == LINE_LIMIT || input[n - 1] == '\n')
            && Chunks(input) == FromLine(input[..n], input[n..])
  {
    hide LineEnd;
    hide Chunks;
    hide Trailers;
    hide SizeOf;
    var n := LineEnd(input, LINE_LIMIT);
    ShortLineIsLast(input, LINE_LIMIT);
    assert input[..n] + input[n..] == input;
    ChunksFromLine(input[..n], input[n..]);
    if input[n..] == "" {
      NothingIsNoTrailer(input[n..]);
    }
  }

  /** What is decoded, and how much is consumed, never depends on what comes behind the message. */
  lemma {:induction false} DecodingReadsOnlyTheMessage(input: string, other: string) returns (used: string)
    requires Chunks(input).Ok?
    ensures input == used + Chunks(input).value.rest
    ensures Chunks(used + other) == Ok(Chunks(input).value.(rest := other))
    decreases |input|
  {
    hide Trailers;
    hide LineEnd;
    hide Chunks;
    hide SizeOf;
    CompleteFirstLine(input);
    var n := LineEnd(input, LINE_LIMIT);
    var line, rest := input[..n], input[n..];
    var size := SizeOf(line).value;
    var again: string;
    if size == 0 {
      again := TrailersReadOnlyTheMessage(rest, other);
    } else {
      var more := DecodingReadsOnlyTheMessage(rest[size + 2..], other);
      FirstChunkIsLocal(rest, size, more, other);
      again := rest[..size + 2] + more;
    }
    hide FirstChunk;
    FirstLineIsLocal(input, again, other);
    used := line + again;
    assert input == line + rest;
  }

  // ---- the handler ----

  function Lower(s: string): string {
    seq(|s|, i requires 0 <= i < |s| => if 'A' <= s[i] <= 'Z' then s[i] - 'A' + 'a' else s[i])
  }

  /** The whole of read_body, given the Content-Length fields, the Transfer-Encoding field ("" when there
      is none) and how a length is parsed. */
  function Framed(rest: string, lengths: seq<string>, encoding: string, parse: string -> Option<int>): Result<Decoded> {
    if (encoding != "" && lengths != []) || |lengths| > 1 then Refused("ambiguous request framing")
    else if encoding != "" then
      if Lower(encoding) != "chunked" then Refused("unsupported transfer framing") else Chunks(rest)
    else
      var size := if lengths == [] then Some(0) else parse(lengths[0]);
      if size.None? || size.value < 0 then Refused("invalid content length")
      else if |rest| < size.value then Refused("incomplete request body")
      else Ok(Decoded(rest[..size.value], [], rest[size.value..]))
  }

  class Source {
    const input: string
    var at: nat

    predicate Valid()
      reads this
    {
      at <= |input|
    }

    function Rest(): string
      reads this
      requires Valid()
    {
      input[at..]
    }

    constructor (input: string)
      ensures Valid() && Rest() == input
    {
      this.input, at := input, 0;
    }

    method ReadLine(limit: nat) returns (line: string)
      requires Valid()
      modifies this
      ensures Valid() && line == old(Rest())[..LineEnd(old(Rest()), limit)]
      ensures Rest() == old(Rest())[LineEnd(old(Rest()), limit)..]
    {
      var n := LineEnd(Rest(), limit);
      line := Rest()[..n];
      at := at + n;
    }

    method Read(n: nat) returns (part: string)
      requires Valid()
      modifies this
      ensures Valid()
      ensures if |old(Rest())| < n then part == old(Rest()) && Rest() == ""
              else part == old(Rest())[..n] && Rest() == old(Rest())[n..]
    {
      var k := if |input| - at < n then |input| - at else n;
      part := input[at..at + k];
      at := at + k;
    }
  }

  /** What the rest of a chunked body gives behind what was read so far. */
  function After(body: string, trailers: seq<Trailer>, r: Result<Decoded>): Result<Decoded> {
    match r
    case Refused(reason) => Refused(reason)
    case Ok(d) => Ok(Decoded(body + d.body, trailers + d.trailers, d.rest))
  }

  lemma AfterTrailer(body: string, trailers: seq<Trailer>, rest: string, n: nat)
    requires n == LineEnd(rest, LINE_LIMIT) && rest[..n] != "\r\n" && rest[..n] != "" && ':' in rest[..n]
    ensures After(body, trailers, Trailers(rest)) == After(body, trailers + [TrailerOf(rest[..n])], Trailers(rest[n..]))
  {
    hide TrailerOf;
    if Trailers(rest[n..]).Ok? {
      var d := Trailers(rest[n..]).value;
      assert trailers + ([TrailerOf(rest[..n])] + d.trailers) == trailers + [TrailerOf(rest[..n])] + d.trailers;
    }
  }

  lemma AfterChunk(body: string, rest: string, n: nat, k: nat)
    requires n == LineEnd(rest, LINE_LIMIT) && k > 0 && SizeOf(rest[..n]) == Some(k)
    requires |rest[n..]| >= k + 2 && rest[n..][k..k + 2] == "\r\n"
    ensures After(body, [], Chunks(rest)) == After(body + rest[n..][..k], [], Chunks(rest[n..][k + 2..]))
  {
    hide SizeOf;
    if Chunks(rest[n..][k + 2..]).Ok? {
      var d := Chunks(rest[n..][k + 2..]).value;
      assert body + (rest[n..][..k] + d.body) == body + rest[n..][..k] + d.body;
    }
  }

  method ReadTrailers(source: Source) returns (r: Result<seq<Trailer>>)
    requires source.Valid()
    modifies source
    ensures source.Valid()
    ensures r.Ok? <==> Trailers(old(source.Rest())).Ok?
    ensures r.Ok? ==> Trailers(old(source.Rest())) == Ok(Decoded("", r.value, source.Rest()))
  {
    hide Trailers;
    hide TrailerOf;
    var trailers: seq<Trailer> := [];
    ghost var start := source.Rest();
    AfterNothing(Trailers(start));
    while true
      invariant source.Valid()
      invariant After("", [], Trailers(start)) == After("", trailers, Trailers(source.Rest()))
      decreases |source.Rest()|
    {
      ghost var rest := source.Rest();
      ghost var n := LineEnd(rest, LINE_LIMIT);
      assert rest[..n] + rest[n..] == rest;
      TrailersFromLine(rest[..n], rest[n..]);
      var line := source.ReadLine(LINE_LIMIT);
      if line == "\r\n" {
        assert trailers + [] == trailers && "" + "" == "";
        return Ok(trailers);
      }
      if line == "" || ':' !in line {
        return Refused("malformed trailers");
      }
      AfterTrailer("", trailers, rest, n);
      trailers := trailers + [TrailerOf(line)];
    }
  }

  lemma AfterNothing(r: Result<Decoded>)
    ensures After("", [], r) == r
  {
    if r.Ok? {
      assert "" + r.value.body == r.value.body && [] + r.value.trailers == r.value.trailers;
    }
  }

  method ReadChunks(source: Source) returns (r: Result<(string, seq<Trailer>)>)
    requires source.Valid()
    modifies source
    ensures source.Valid()
    ensures r.Ok? <==> Chunks(old(source.Rest())).Ok?
    ensures r.Ok? ==> Chunks(old(source.Rest())) == Ok(Decoded(r.value.0, r.value.1, source.Rest()))
  {
    hide Chunks;
    hide SizeOf;
    hide Trailers;
    var body := "";
    ghost var start := source.Rest();
    AfterNothing(Chunks(start));
    while true
      invariant source.Valid()
      invariant Chunks(start) == After(body, [], Chunks(source.Rest()))
      decreases |source.Rest()|
    {
      ghost var rest := source.Rest();
      ghost var n := LineEnd(rest, LINE_LIMIT);
      assert rest[..n] + rest[n..] == rest;
      ChunksFromLine(rest[..n], rest[n..]);
      var line := source.ReadLine(LINE_LIMIT);
      var size := SizeOf(line);
      if size.None? || size.value < 0 {
        return Refused("invalid chunk size");
      }
      if size.value == 0 {
        var trailers := ReadTrailers(source);
        if trailers.Refused? {
          return Refused(trailers.reason);
        }
        assert body + "" == body && [] + trailers.value == trailers.value;
        return Ok((body, trailers.value));
      }
      ghost var after := source.Rest();
      var part := source.Read(size.value);
      if |part| != size.value {
        return Refused("incomplete request chunk");
      }
      var end := source.Read(2);
      ChunkEnd(after, size.value);
      if end != "\r\n" {
        return Refused("incomplete request chunk");
      }
      AfterChunk(body, rest, n, size.value);
      body := body + part;
    }
  }

  lemma ChunkEnd(after: string, k: nat)
    requires |after| >= k
    ensures after[k..][..if |after[k..]| < 2 then |after[k..]| else 2] == "\r\n"
            <==> |after| >= k + 2 && after[k..k + 2] == "\r\n"
    ensures |after| >= k + 2 ==> after[k..][2..] == after[k + 2..]
  {
    if |after| >= k + 2 {
      assert after[k..][..2] == after[k..k + 2];
    }
  }

  method ReadBody(source: Source, lengths: seq<string>, encoding: string, parse: string -> Option<int>)
    returns (r: Result<(string, seq<Trailer>)>)
    requires source.Valid()
    modifies source
    ensures source.Valid()
    ensures r.Ok? <==> Framed(old(source.Rest()), lengths, encoding, parse).Ok?
    ensures r.Ok? ==>
              Framed(old(source.Rest()), lengths, encoding, parse) == Ok(Decoded(r.value.0, r.value.1, source.Rest()))
  {
    if (encoding != "" && lengths != []) || |lengths| > 1 {
      return Refused("ambiguous request framing");
    }
    if encoding != "" {
      if Lower(encoding) != "chunked" {
        return Refused("unsupported transfer framing");
      }
      r := ReadChunks(source);
      return;
    }
    var size := if lengths == [] then Some(0) else parse(lengths[0]);
    if size.None? || size.value < 0 {
      return Refused("invalid content length");
    }
    var body := source.Read(size.value);
    if |body| != size.value {
      return Refused("incomplete request body");
    }
    r := Ok((body, []));
  }
}
