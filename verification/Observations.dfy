/** Broker read-back evidence: mapping.py observe_destination, store.py observe_positions and
    observe_closed. Rows are written under unreliable clocks, repeated reads and several spellings. */
module Observations {
  import opened Wrappers
  import opened Decimals
  import opened Events
  import opened Identity

  datatype Reader = OpenPositions | ClosedPositions | OtherReader(name: string)

  /** What tells one execution from another: a broker id, or else the close time and normalised volume. */
  datatype ExecutionKey = Native(id: string) | Composed(position: string, time: string, volume: Decimal)

  datatype RowKey = RowKey(trade: TradeId, scope: Scope, position: string, reader: Reader, execution: ExecutionKey)

  /** The snapshot fields a newer reading replaces as a whole. */
  datatype Reading = Reading(
    orderId: Option<string>, symbol: string, side: string, volume: Decimal, openPrice: Decimal,
      closeTime: Option<string>)

  datatype Delivery = Delivery(reading: Reading, openTime: Option<string>, openMillis: Option<int>, at: int)

  datatype Row = Row(reading: Reading, openTime: Option<string>, openMillis: Option<int>, firstSeen: int,
                     updatedAt: int)

  type Table = map<RowKey, Row>

  // ---- one write ----

  predicate IsSpace(c: char) {
    || '\t' <= c <= '\r' || '\U{1c}' <= c <= ' ' || c == '\U{85}' || c == '\U{a0}' || c == '\U{1680}'
    || '\U{2000}' <= c <= '\U{200a}' || c == '\U{2028}' || c == '\U{2029}' || c == '\U{202f}'
    || c == '\U{205f}' || c == '\U{3000}'
  }

  predicate IsBlank(s: string) {
    forall c <- s :: IsSpace(c)
  }

  function Cleaned(time: Option<string>): Option<string> {
    if time.Some? && IsBlank(time.value) then None else time
  }

  function Coalesce<T>(a: Option<T>, b: Option<T>): Option<T> {
    if a.Some? then a else b
  }

  /** The guarded upsert, then the unguarded fill of the still-empty time columns. */
  function Observed(table: Table, key: RowKey, d: Delivery): Table {
    var time := Cleaned(d.openTime);
    var stored :=
      if key !in table then Row(d.reading, time, d.openMillis, d.at, d.at)
      else if d.at >= table[key].updatedAt then table[key].(reading := d.reading, updatedAt := d.at)
      else table[key];
    table[key := stored.(openTime := Coalesce(stored.openTime, time),
                         openMillis := Coalesce(stored.openMillis, d.openMillis))]
  }

  // ---- the readers ----

  function OpenKey(trade: TradeId, scope: Scope, p: Position): RowKey {
    RowKey(trade, scope, p.id, OpenPositions, Native(p.id))
  }

  function OpenDelivery(p: Position, at: int): Delivery {
    Delivery(Reading(p.orderId, p.symbol, p.side, p.volume, p.openPrice, None), p.openTime, p.openMillis, at)
  }

  function Present(id: Option<string>): bool {
    id.Some? && id.value != ""
  }

  function ExecutionKeyOf(c: ClosedTrade): ExecutionKey {
    if Present(c.uid) then Native(c.uid.value)
    else if Present(c.closingOrderId) then Native(c.closingOrderId.value)
    else Composed(c.id, c.time, Normalized(c.volume))
  }

  function ClosedKey(trade: TradeId, scope: Scope, c: ClosedTrade): RowKey {
    RowKey(trade, scope, c.id, ClosedPositions, ExecutionKeyOf(c))
  }

  function ClosedDelivery(c: ClosedTrade, at: int): Delivery {
    Delivery(Reading(c.closingOrderId, c.symbol, c.side, c.volume, c.openPrice, Some(c.time)), c.openTime, None, at)
  }

  function PositionsObserved(table: Table, trade: TradeId, scope: Scope, positions: seq<Position>, at: int): Table {
    if positions == [] then table
    else
      var n := |positions| - 1;
      Observed(PositionsObserved(table, trade, scope, positions[..n], at), OpenKey(trade, scope, positions[n]),
               OpenDelivery(positions[n], at))
  }

  function ClosedObserved(table: Table, trade: TradeId, scope: Scope, closed: seq<ClosedTrade>, at: int): Table {
    if closed == [] then table
    else
      var n := |closed| - 1;
      Observed(ClosedObserved(table, trade, scope, closed[..n], at), ClosedKey(trade, scope, closed[n]),
               ClosedDelivery(closed[n], at))
  }

  // ---- any sequence of writes ----

  datatype Write = Write(key: RowKey, delivery: Delivery)

  function Written(writes: seq<Write>): Table {
    if writes == [] then map[]
    else
      var n := |writes| - 1;
      Observed(Written(writes[..n]), writes[n].key, writes[n].delivery)
  }

  /** The deliveries made under one key, in order. */
  function Under(writes: seq<Write>, key: RowKey): seq<Delivery> {
    if writes == [] then []
    else
      var n := |writes| - 1;
      Under(writes[..n], key) + (if writes[n].key == key then [writes[n].delivery] else [])
  }

  // What the stored row must be, said without replaying the writes.

  function FirstTime(ds: seq<Delivery>): Option<string> {
    if ds == [] then None else Coalesce(Cleaned(ds[0].openTime), FirstTime(ds[1..]))
  }

  function FirstMillis(ds: seq<Delivery>): Option<int> {
    if ds == [] then None else Coalesce(ds[0].openMillis, FirstMillis(ds[1..]))
  }

  /** The last delivery among those bearing the largest timestamp. */
  predicate LastOfLargest(ds: seq<Delivery>, i: nat) {
    i < |ds| && forall j :: 0 <= j < |ds| ==> ds[j].at <= ds[i].at && (j > i ==> ds[j].at < ds[i].at)
  }

  lemma {:induction false} FirstAppend(ds: seq<Delivery>, d: Delivery)
    ensures FirstTime(ds + [d]) == Coalesce(FirstTime(ds), Cleaned(d.openTime))
    ensures FirstMillis(ds + [d]) == Coalesce(FirstMillis(ds), d.openMillis)
  {
    if ds == [] {
      assert ds + [d] == [d];
      assert [d][1..] == [];
    } else {
      assert (ds + [d])[1..] == ds[1..] + [d];
      FirstAppend(ds[1..], d);
    }
  }

  /** Whatever the clocks did, the stored row is: the first time and millis the broker ever gave, and
      the reading of the last delivery bearing the largest timestamp. Other keys never matter. */
  lemma {:induction false} StoredRow(writes: seq<Write>, key: RowKey)
    ensures key in Written(writes) <==> Under(writes, key) != []
    ensures key in Written(writes) ==>
              var (ds, row) := (Under(writes, key), Written(writes)[key]);
              && row.openTime == FirstTime(ds) && row.openMillis == FirstMillis(ds) && row.firstSeen == ds[0].at
              && exists i: nat :: LastOfLargest(ds, i) && row.reading == ds[i].reading && row.updatedAt == ds[i].at
  {
    if writes != [] {
      var n := |writes| - 1;
      StoredRow(writes[..n], key);
      if writes[n].key == key {
        var before, d := Under(writes[..n], key), writes[n].delivery;
        FirstAppend(before, d);
        if before == [] {
          assert LastOfLargest(before + [d], 0);
        } else {
          var i: nat :| LastOfLargest(before, i) && Written(writes[..n])[key].updatedAt == before[i].at
                     && Written(writes[..n])[key].reading == before[i].reading;
          var now := if d.at >= before[i].at then |before| else i;
          assert LastOfLargest(before + [d], now);
        }
      } else {
        assert Under(writes, key) == Under(writes[..n], key);
      }
    }
  }

  /** A broker time once recorded is never lost, changed or blank, whatever is written later. */
  lemma {:induction false} RecordedTimeIsKept(earlier: seq<Write>, later: seq<Write>, key: RowKey)
    requires key in Written(earlier) && Written(earlier)[key].openTime.Some?
    ensures key in Written(earlier + later)
    ensures Written(earlier + later)[key].openTime == Written(earlier)[key].openTime
    ensures !IsBlank(Written(earlier)[key].openTime.value)
  {
    StoredRow(earlier, key);
    FirstTimeIsClean(Under(earlier, key));
    if later == [] {
      assert earlier + later == earlier;
    } else {
      var n := |later| - 1;
      assert (earlier + later)[..|earlier| + n] == earlier + later[..n];
      RecordedTimeIsKept(earlier, later[..n], key);
    }
  }

  lemma {:induction false} FirstTimeIsClean(ds: seq<Delivery>)
    ensures FirstTime(ds).Some? ==> !IsBlank(FirstTime(ds).value)
  {
    if ds != [] {
      FirstTimeIsClean(ds[1..]);
    }
  }
}
