/** verified.py: what the read-back rows on record prove about one trade's destination leg. */
module Verified {
  import opened Wrappers
  import opened Decimals
  import opened Identity
  import opened Observations
  import opened ClosedHistory

  datatype LinkView = LinkView(side: Side, kind: LinkKind, native: string, contributors: set<TradeId>)
  datatype RowView = RowView(key: RowKey, row: Row)
  datatype QuantityView = QuantityView(side: Side, requested: Option<Decimal>)

  /** The part of MappingLedger.snapshot() that classify reads. */
  datatype Snapshot = Snapshot(
    broker: string, account: string, symbol: string, side: string, inDoubt: bool,
    links: seq<LinkView>, rows: seq<RowView>, quantities: seq<QuantityView>)

  datatype Verdict = VerifiedClosed | VerifiedOpen | Guarded | Unattributed | ReadBackNoTime
                   | SentUnconfirmed | InDoubt | Candidate

  datatype Classification = Classification(
    state: Verdict, verified: bool, openTime: Option<string>, openMillis: Option<int>, readBack: Option<RowView>)

  predicate HasTime(r: RowView) {
    (r.row.openTime.Some? && !IsBlank(r.row.openTime.value)) || r.row.openMillis.Some?
  }

  predicate IsDestinationPosition(l: LinkView) {
    l.side == Destination && l.kind == PositionLink
  }

  function DestinationPositions(links: seq<LinkView>): seq<LinkView> {
    if links == [] then []
    else (if IsDestinationPosition(links[0]) then [links[0]] else []) + DestinationPositions(links[1..])
  }

  function FirstNamed(links: seq<LinkView>): Option<LinkView> {
    if links == [] then None else if links[0].native != "" then Some(links[0]) else FirstNamed(links[1..])
  }

  /** A genuine read-back of this very position, broker, account, symbol and side. */
  predicate Qualifies(s: Snapshot, native: string, r: RowView) {
    && r.key.position == native && r.row.reading.symbol == s.symbol && r.row.reading.side == s.side
    && !r.key.reader.OtherReader? && r.key.scope == [s.broker, s.account]
  }

  function Qualifying(s: Snapshot, native: string, rows: seq<RowView>): seq<RowView> {
    if rows == [] then []
    else (if Qualifies(s, native, rows[0]) then [rows[0]] else []) + Qualifying(s, native, rows[1..])
  }

  /** The sort key of max(): timed before timeless, closed before open, then most recently updated. */
  predicate Outranks(a: RowView, b: RowView) {
    if HasTime(a) != HasTime(b) then HasTime(a)
    else if a.key.reader.ClosedPositions? != b.key.reader.ClosedPositions? then a.key.reader.ClosedPositions?
    else a.row.updatedAt > b.row.updatedAt
  }

  function Best(rows: seq<RowView>): Option<RowView> {
    if rows == [] then None
    else
      var n := |rows| - 1;
      var before := Best(rows[..n]);
      if before.None? || Outranks(rows[n], before.value) then Some(rows[n]) else before
  }

  function ClosedVolume(rows: seq<RowView>): real {
    if rows == [] then 0.0
    else
      var first := if rows[0].key.reader.ClosedPositions? then Value(rows[0].row.reading.volume) else 0.0;
      first + ClosedVolume(rows[1..])
  }

  function Requested(quantities: seq<QuantityView>): Option<Decimal> {
    if quantities == [] then None
    else if quantities[0].side == Destination then quantities[0].requested
    else Requested(quantities[1..])
  }

  predicate HasSource(s: Snapshot) {
    exists l <- s.links :: l.side == Source
  }

  predicate Shared(s: Snapshot) {
    var positions := DestinationPositions(s.links);
    |positions| > 1 || exists l <- positions :: |l.contributors| > 1
  }

  predicate HasClosedRow(rows: seq<RowView>) {
    exists r <- rows :: r.key.reader.ClosedPositions?
  }

  function Classify(s: Snapshot): Classification {
    var link := FirstNamed(DestinationPositions(s.links));
    var rows := if link.Some? then Qualifying(s, link.value.native, s.rows) else [];
    var row := Best(rows);
    var timed := row.Some? && HasTime(row.value);
    var verified := link.Some? && timed && HasSource(s) && !Shared(s);
    var requested := Requested(s.quantities);
    var fullyClosed := HasClosedRow(rows) && requested.Some? && ClosedVolume(rows) >= Value(requested.value);
    var state :=
      if verified && fullyClosed then VerifiedClosed
      else if verified then VerifiedOpen
      else if Shared(s) then Guarded
      else if !HasSource(s) then Unattributed
      else if link.Some? && row.Some? then ReadBackNoTime
      else if link.Some? then SentUnconfirmed
      else if s.inDoubt then InDoubt
      else Candidate;
    Classification(state, verified,
                   if row.Some? && row.value.row.openTime.Some? && !IsBlank(row.value.row.openTime.value)
                     then row.value.row.openTime else None,
                   if row.Some? then row.value.row.openMillis else None,
                   row)
  }

  // ---- verified, exactly ----

  lemma {:induction false} DestinationPositionsAre(links: seq<LinkView>)
    ensures forall l :: l in DestinationPositions(links) <==> l in links && IsDestinationPosition(l)
  {
    if links != [] {
      DestinationPositionsAre(links[1..]);
    }
  }

  lemma {:induction false} FirstNamedIs(links: seq<LinkView>)
    ensures match FirstNamed(links)
            case Some(l) => l in links && l.native != ""
            case None => forall l :: l in links ==> l.native == ""
  {
    if links != [] {
      FirstNamedIs(links[1..]);
    }
  }

  lemma {:induction false} QualifyingAre(s: Snapshot, native: string, rows: seq<RowView>)
    ensures forall r :: r in Qualifying(s, native, rows) <==> r in rows && Qualifies(s, native, r)
  {
    if rows != [] {
      QualifyingAre(s, native, rows[1..]);
    }
  }

  lemma TimedOutranksUntimed(a: RowView, b: RowView)
    ensures if Outranks(a, b) then HasTime(b) ==> HasTime(a) else HasTime(a) ==> HasTime(b)
  {
  }

  /** The preferred row has a time exactly when some row has. */
  lemma {:induction false} BestIsTimed(rows: seq<RowView>)
    ensures Best(rows).Some? <==> rows != []
    ensures Best(rows).Some? ==> Best(rows).value in rows
    ensures (Best(rows).Some? && HasTime(Best(rows).value)) <==> exists r :: r in rows && HasTime(r)
  {
    if rows != [] {
      var n := |rows| - 1;
      BestIsTimed(rows[..n]);
      assert rows == rows[..n] + [rows[n]];
      if Best(rows[..n]).Some? {
        TimedOutranksUntimed(rows[n], Best(rows[..n]).value);
      }
      hide Outranks;
      hide HasTime;
    }
  }

  /** Verified means: a source link, one destination position shared with no other trade, and a timed
      read-back of that very position from this broker and account, with this symbol and side. */
  lemma VerifiedIff(s: Snapshot)
    ensures Classify(s).verified <==>
              && HasSource(s)
              && |DestinationPositions(s.links)| == 1
              && |DestinationPositions(s.links)[0].contributors| <= 1
              && DestinationPositions(s.links)[0].native != ""
              && exists r :: r in s.rows && Qualifies(s, DestinationPositions(s.links)[0].native, r) && HasTime(r)
    ensures Classify(s).verified ==>
              exists p :: p in s.links && IsDestinationPosition(p)
                       && forall l :: l in s.links && IsDestinationPosition(l) ==> l == p
    ensures Classify(s).verified <==> Classify(s).state in {VerifiedClosed, VerifiedOpen}
  {
    var positions := DestinationPositions(s.links);
    DestinationPositionsAre(s.links);
    FirstNamedIs(positions);
    if FirstNamed(positions).Some? {
      var native := FirstNamed(positions).value.native;
      QualifyingAre(s, native, s.rows);
      BestIsTimed(Qualifying(s, native, s.rows));
    }
    if |positions| == 1 {
      assert positions[0] in positions && forall l :: l in positions ==> l == positions[0];
    }
  }

  // ---- what can never change the verdict ----

  lemma {:induction false} QualifyingSplit(s: Snapshot, native: string, a: seq<RowView>, b: seq<RowView>)
    ensures Qualifying(s, native, a + b) == Qualifying(s, native, a) + Qualifying(s, native, b)
  {
    if a == [] {
      assert a + b == b;
    } else {
      assert (a + b)[1..] == a[1..] + b;
      QualifyingSplit(s, native, a[1..], b);
    }
  }

  /** A row from a write response or another reader, of another broker or account, another position, symbol
      or side: wherever it stands among the rows, the classification is the same without it. */
  lemma ForeignRowsNeverCount(s: Snapshot, before: seq<RowView>, foreign: RowView, after: seq<RowView>)
    requires s.rows == before + [foreign] + after
    requires var link := FirstNamed(DestinationPositions(s.links));
             link.Some? ==>
               || foreign.key.reader.OtherReader? || foreign.key.scope != [s.broker, s.account]
               || foreign.key.position != link.value.native
               || foreign.row.reading.symbol != s.symbol || foreign.row.reading.side != s.side
    ensures Classify(s) == Classify(s.(rows := before + after))
  {
    var link := FirstNamed(DestinationPositions(s.links));
    if link.Some? {
      var native := link.value.native;
      var t := s.(rows := before + after);
      QualifyingSplit(s, native, before + [foreign], after);
      QualifyingSplit(s, native, before, [foreign]);
      QualifyingSplit(s, native, before, after);
      assert [foreign][1..] == [];
      SameFilter(s, t, native, before + after);
      assert Qualifying(s, native, s.rows) == Qualifying(t, native, t.rows);
    }
  }

  lemma {:induction false} SameFilter(s: Snapshot, t: Snapshot, native: string, rows: seq<RowView>)
    requires s.broker == t.broker && s.account == t.account && s.symbol == t.symbol && s.side == t.side
    ensures Qualifying(s, native, rows) == Qualifying(t, native, rows)
  {
    if rows != [] {
      SameFilter(s, t, native, rows[1..]);
    }
  }

  /** A confirmed closure rests on read volume alone, never on the trade's state. */
  lemma ClosureIgnoresState(s: Snapshot, inDoubt: bool)
    ensures Classify(s).state == VerifiedClosed <==> Classify(s.(inDoubt := inDoubt)).state == VerifiedClosed
    ensures Classify(s).verified == Classify(s.(inDoubt := inDoubt)).verified
  {
    var link := FirstNamed(DestinationPositions(s.links));
    if link.Some? {
      SameFilter(s, s.(inDoubt := inDoubt), link.value.native, s.rows);
    }
  }

  // ---- a confirmed closure is a real one ----

  ghost predicate KeysDiffer(rows: seq<RowView>) {
    forall i, j :: 0 <= i < j < |rows| ==> rows[i].key != rows[j].key
  }

  /** The snapshot lists each row of the trade once. */
  ghost predicate Lists(s: Snapshot, table: Table, trade: TradeId) {
    && KeysDiffer(s.rows)
    && (forall r :: r in s.rows ==> r.key in table && table[r.key] == r.row && r.key.trade == trade)
  }

  function ClosedKeys(rows: seq<RowView>): set<RowKey> {
    set r | r in rows && r.key.reader.ClosedPositions? :: r.key
  }

  lemma {:induction false} ClosedVolumeIsRowTotal(table: Table, rows: seq<RowView>)
    requires KeysDiffer(rows)
    requires forall r :: r in rows ==> r.key in table && table[r.key] == r.row
    ensures ClosedVolume(rows) == RowTotal(table, ClosedKeys(rows))
  {
    if rows == [] {
      assert ClosedKeys(rows) == {};
    } else {
      var r, rest := rows[0], rows[1..];
      ClosedVolumeIsRowTotal(table, rest);
      assert r.key !in ClosedKeys(rest);
      if r.key.reader.ClosedPositions? {
        assert ClosedKeys(rows) == ClosedKeys(rest) + {r.key};
        RowTotalPick(table, ClosedKeys(rows), r.key);
        assert ClosedKeys(rows) - {r.key} == ClosedKeys(rest);
      } else {
        assert ClosedKeys(rows) == ClosedKeys(rest);
      }
    }
  }

  lemma {:induction false} QualifyingKeysDiffer(s: Snapshot, native: string, rows: seq<RowView>)
    requires KeysDiffer(rows)
    ensures KeysDiffer(Qualifying(s, native, rows))
  {
    if rows != [] {
      var rest := Qualifying(s, native, rows[1..]);
      QualifyingKeysDiffer(s, native, rows[1..]);
      QualifyingAre(s, native, rows[1..]);
      assert forall j :: 0 <= j < |rest| ==> rest[j] in rows[1..];
      assert forall r :: r in rows[1..] ==> r.key != rows[0].key;
    }
  }

  /** The read volume of one position is bounded by what the broker closed of it. */
  lemma ReadVolumeIsReal(s: Snapshot, native: string, writes: seq<Write>, trade: TradeId, broker: set<Execution>)
    requires Lists(s, Written(writes), trade)
    requires FromHistory(writes, trade, [s.broker, s.account], broker)
    requires forall x :: x in broker ==> x.volume >= 0.0
    ensures ClosedVolume(Qualifying(s, native, s.rows)) <= Traded(AtPosition(broker, native, s.symbol, s.side))
  {
    var rows := Qualifying(s, native, s.rows);
    QualifyingAre(s, native, s.rows);
    QualifyingKeysDiffer(s, native, s.rows);
    ClosedVolumeIsRowTotal(Written(writes), rows);
    var keys := ClosedKeys(rows);
    var stands := RowsAsExecutions(writes, trade, [s.broker, s.account], broker, keys);
    forall k | k in keys
      ensures stands[k] in AtPosition(broker, native, s.symbol, s.side)
    {
      assert StandsFor(writes, k, stands[k]);
    }
    TradedGrows(Images(keys, stands), AtPosition(broker, native, s.symbol, s.side));
  }

  /** End to end: "verified closed" means the broker really closed at least the requested quantity of
      the one position linked to this trade. */
  lemma VerifiedClosedMeansClosed(s: Snapshot, writes: seq<Write>, trade: TradeId, broker: set<Execution>)
    requires Lists(s, Written(writes), trade)
    requires FromHistory(writes, trade, [s.broker, s.account], broker)
    requires forall x :: x in broker ==> x.volume >= 0.0
    requires Classify(s).state == VerifiedClosed
    ensures Requested(s.quantities).Some? && |DestinationPositions(s.links)| == 1
    ensures Value(Requested(s.quantities).value)
         <= Traded(AtPosition(broker, DestinationPositions(s.links)[0].native, s.symbol, s.side))
  {
    VerifiedIff(s);
    ReadVolumeIsReal(s, DestinationPositions(s.links)[0].native, writes, trade, broker);
  }
}
