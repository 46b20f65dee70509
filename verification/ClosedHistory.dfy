/** Why re-reading the broker's closed history never inflates a closed volume: the rows kept for a
    position stand for distinct executions, however often, in whatever order and in whichever decimal
    spelling the broker reported them. */
module ClosedHistory {
  import opened Wrappers
  import opened Decimals
  import opened Events
  import opened Identity
  import opened Observations

  /** A closing execution as it happened at the broker; `number` tells apart two that look the same to a reader. */
  datatype Execution = Execution(
    number: nat, position: string, symbol: string, side: string, uid: Option<string>, closingOrderId: Option<string>,
    time: string, volume: real)

  /** c is one of the ways the broker may report x: same ids, time and value, at most 28 digits. */
  predicate Reports(c: ClosedTrade, x: Execution) {
    && c.id == x.position && c.symbol == x.symbol && c.side == x.side
    && c.uid == x.uid && c.closingOrderId == x.closingOrderId && c.time == x.time
    && Value(c.volume) == x.volume
    && c.volume.coefficient < Pow10(PRECISION) && (IsZero(c.volume) ==> !c.volume.negative)
  }

  /** The write the store makes when it is shown x. */
  ghost predicate SightingOf(w: Write, x: Execution) {
    exists c :: Reports(c, x)
             && w.key == ClosedKey(w.key.trade, w.key.scope, c) && w.delivery == ClosedDelivery(c, w.delivery.at)
  }

  /** Every closed-history write under this trade and scope reports some execution of the broker's. */
  ghost predicate FromHistory(writes: seq<Write>, trade: TradeId, scope: Scope, broker: set<Execution>) {
    forall w :: w in writes && w.key.reader == ClosedPositions && w.key.trade == trade && w.key.scope == scope ==>
      exists x :: x in broker && SightingOf(w, x)
  }

  // ---- keys and executions ----

  function NativeId(x: Execution): Option<string> {
    if Present(x.uid) then x.uid else if Present(x.closingOrderId) then x.closingOrderId else None
  }

  predicate Identifies(k: ExecutionKey, x: Execution) {
    match NativeId(x)
    case Some(id) => k == Native(id)
    case None => && k.Composed? && k.position == x.position && k.time == x.time
                 && Canonical(k.volume) && Value(k.volume) == x.volume && (IsZero(k.volume) ==> !k.volume.negative)
  }

  /** Two executions the store cannot tell apart: one broker id, or no id and one close time and volume. */
  predicate SameKey(x: Execution, y: Execution) {
    NativeId(x) == NativeId(y) && (NativeId(x).None? ==> x.time == y.time && x.volume == y.volume)
  }

  ghost predicate KeysApart(xs: set<Execution>) {
    forall x, y :: x in xs && y in xs && x.position == y.position && SameKey(x, y) ==> x == y
  }

  lemma ReportIdentifies(c: ClosedTrade, x: Execution)
    requires Reports(c, x)
    ensures Identifies(ExecutionKeyOf(c), x)
  {
    StrippedKeepsValue(c.volume);
  }

  /** Every spelling of one execution gets one key. */
  lemma OneKeyPerExecution(j: ExecutionKey, k: ExecutionKey, x: Execution)
    requires Identifies(j, x) && Identifies(k, x)
    ensures j == k
  {
    if NativeId(x).None? {
      CanonicalIsUnique(j.volume, k.volume);
    }
  }

  lemma OneExecutionPerKey(k: ExecutionKey, x: Execution, y: Execution)
    requires Identifies(k, x) && Identifies(k, y)
    ensures SameKey(x, y)
  {
  }

  // ---- rows and executions ----

  /** The closed-history rows that count for one position of one trade. */
  function ClosedRows(table: Table, trade: TradeId, scope: Scope, position: string, symbol: string, side: string)
    : set<RowKey>
  {
    set k | k in table && k.trade == trade && k.scope == scope && k.reader == ClosedPositions && k.position == position
            && table[k].reading.symbol == symbol && table[k].reading.side == side
  }

  function Volume(table: Table, k: RowKey): real
    requires k in table
  {
    Value(table[k].reading.volume)
  }

  ghost function RowTotal(table: Table, keys: set<RowKey>): real
    requires keys <= table.Keys
  {
    if keys == {} then 0.0 else var k :| k in keys; Volume(table, k) + RowTotal(table, keys - {k})
  }

  lemma {:induction false} RowTotalPick(table: Table, keys: set<RowKey>, k: RowKey)
    requires keys <= table.Keys && k in keys
    ensures RowTotal(table, keys) == Volume(table, k) + RowTotal(table, keys - {k})
  {
    var p :| p in keys && RowTotal(table, keys) == Volume(table, p) + RowTotal(table, keys - {p});
    if p != k {
      RowTotalPick(table, keys - {p}, k);
      RowTotalPick(table, keys - {k}, p);
      assert keys - {p} - {k} == keys - {k} - {p};
    }
  }

  ghost function Traded(xs: set<Execution>): real {
    if xs == {} then 0.0 else var x :| x in xs; x.volume + Traded(xs - {x})
  }

  lemma {:induction false} TradedPick(xs: set<Execution>, x: Execution)
    requires x in xs
    ensures Traded(xs) == x.volume + Traded(xs - {x})
  {
    var p :| p in xs && Traded(xs) == p.volume + Traded(xs - {p});
    if p != x {
      TradedPick(xs - {p}, x);
      TradedPick(xs - {x}, p);
      assert xs - {p} - {x} == xs - {x} - {p};
    }
  }

  lemma {:induction false} TradedGrows(xs: set<Execution>, ys: set<Execution>)
    requires xs <= ys && forall y :: y in ys ==> y.volume >= 0.0
    ensures Traded(xs) <= Traded(ys)
    decreases ys
  {
    assert ys <= xs ==> xs == ys;
    if !(ys <= xs) {
      var y :| y in ys && y !in xs;
      TradedPick(ys, y);
      TradedGrows(xs, ys - {y});
    }
  }

  function Images(keys: set<RowKey>, stands: map<RowKey, Execution>): set<Execution>
    requires keys <= stands.Keys
  {
    set k | k in keys :: stands[k]
  }

  ghost predicate Distinct(keys: set<RowKey>, stands: map<RowKey, Execution>)
    requires keys <= stands.Keys
  {
    forall j, k :: j in keys && k in keys && stands[j] == stands[k] ==> j == k
  }

  lemma ImagesWithout(keys: set<RowKey>, stands: map<RowKey, Execution>, k: RowKey)
    requires keys <= stands.Keys && Distinct(keys, stands) && k in keys
    ensures Images(keys - {k}, stands) == Images(keys, stands) - {stands[k]}
  {
  }

  /** Summing rows is summing the executions they stand for, when no two stand for one. */
  lemma {:induction false} RowTotalIsTraded(table: Table, keys: set<RowKey>, stands: map<RowKey, Execution>)
    requires keys <= table.Keys && keys <= stands.Keys && Distinct(keys, stands)
    requires forall k :: k in keys ==> Volume(table, k) == stands[k].volume
    ensures RowTotal(table, keys) == Traded(Images(keys, stands))
    decreases keys
  {
    if keys != {} {
      var k :| k in keys;
      RowTotalPick(table, keys, k);
      assert stands[k] in Images(keys, stands);
      TradedPick(Images(keys, stands), stands[k]);
      ImagesWithout(keys, stands, k);
      RowTotalIsTraded(table, keys - {k}, stands);
    }
  }

  lemma {:induction false} DeliveredByWrite(writes: seq<Write>, key: RowKey, d: Delivery)
    requires d in Under(writes, key)
    ensures Write(key, d) in writes
  {
    var n := |writes| - 1;
    if d in Under(writes[..n], key) {
      DeliveredByWrite(writes[..n], key, d);
    } else {
      assert writes[n] == Write(key, d);
    }
  }

  /** The row kept under k stands for an execution of the broker's that was sighted under k. */
  ghost predicate StandsFor(writes: seq<Write>, k: RowKey, x: Execution)
    requires k in Written(writes)
  {
    && x.position == k.position && Identifies(k.execution, x)
    && Written(writes)[k].reading.symbol == x.symbol && Written(writes)[k].reading.side == x.side
    && Volume(Written(writes), k) == x.volume
    && exists w :: w in writes && w.key == k && SightingOf(w, x)
  }

  lemma RowStandsForExecution(writes: seq<Write>, broker: set<Execution>, k: RowKey)
    requires FromHistory(writes, k.trade, k.scope, broker)
    requires k in Written(writes) && k.reader == ClosedPositions
    ensures exists x :: x in broker && StandsFor(writes, k, x)
  {
    StoredRow(writes, k);
    var ds := Under(writes, k);
    var i: nat :| LastOfLargest(ds, i) && Written(writes)[k].reading == ds[i].reading;
    DeliveredByWrite(writes, k, ds[i]);
    var w := Write(k, ds[i]);
    var x :| x in broker && SightingOf(w, x);
    var c :| Reports(c, x) && w.key == ClosedKey(w.key.trade, w.key.scope, c)
      && w.delivery == ClosedDelivery(c, w.delivery.at);
    ReportIdentifies(c, x);
    assert StandsFor(writes, k, x);
  }

  // ---- the two results ----

  function AtPosition(broker: set<Execution>, position: string, symbol: string, side: string): set<Execution> {
    set x | x in broker && x.position == position && x.symbol == symbol && x.side == side
  }

  /** The executions that something read for the trade was a sighting of. */
  ghost function Sighted(writes: seq<Write>, trade: TradeId, scope: Scope, xs: set<Execution>): set<Execution> {
    set x | x in xs && exists w :: w in writes && w.key.trade == trade && w.key.scope == scope && SightingOf(w, x)
  }

  lemma RowsAsExecutions(writes: seq<Write>, trade: TradeId, scope: Scope, broker: set<Execution>, keys: set<RowKey>)
    returns (stands: map<RowKey, Execution>)
    requires FromHistory(writes, trade, scope, broker)
    requires forall k :: k in keys ==>
        k in Written(writes) && k.reader == ClosedPositions && k.trade == trade && k.scope == scope
    ensures stands.Keys == keys
    ensures forall k :: k in keys ==> stands[k] in broker && StandsFor(writes, k, stands[k])
    ensures Distinct(keys, stands)
    ensures RowTotal(Written(writes), keys) == Traded(Images(keys, stands))
  {
    forall k | k in keys
      ensures exists x :: x in broker && StandsFor(writes, k, x)
    {
      RowStandsForExecution(writes, broker, k);
    }
    stands := map k | k in keys :: var x :| x in broker && StandsFor(writes, k, x); x;
    forall j, k | j in keys && k in keys && stands[j] == stands[k]
      ensures j == k
    {
      OneKeyPerExecution(j.execution, k.execution, stands[k]);
    }
    RowTotalIsTraded(Written(writes), keys, stands);
  }

  /** The closed volume on record never exceeds what the broker closed of that position. */
  lemma ClosedVolumeNeverOverclaims(writes: seq<Write>, trade: TradeId, scope: Scope, broker: set<Execution>,
                                    position: string, symbol: string, side: string)
    requires FromHistory(writes, trade, scope, broker)
    requires forall x :: x in broker ==> x.volume >= 0.0
    ensures RowTotal(Written(writes), ClosedRows(Written(writes), trade, scope, position, symbol, side))
         <= Traded(AtPosition(broker, position, symbol, side))
  {
    var keys := ClosedRows(Written(writes), trade, scope, position, symbol, side);
    var stands := RowsAsExecutions(writes, trade, scope, broker, keys);
    TradedGrows(Images(keys, stands), AtPosition(broker, position, symbol, side));
  }

  /** The executions of a position that were ever read for the trade, whatever their symbol and side. */
  ghost function SightedAt(
    writes: seq<Write>, trade: TradeId, scope: Scope, broker: set<Execution>, position: string): set<Execution>
  {
    Sighted(writes, trade, scope, set x | x in broker && x.position == position)
  }

  /** The executions that the rows of one position stand for. */
  lemma RowsOfPosition(writes: seq<Write>, trade: TradeId, scope: Scope, broker: set<Execution>,
                       position: string, symbol: string, side: string)
    returns (keys: set<RowKey>, stands: map<RowKey, Execution>)
    requires FromHistory(writes, trade, scope, broker)
    ensures keys == ClosedRows(Written(writes), trade, scope, position, symbol, side) == stands.Keys
    ensures forall k :: k in keys ==> stands[k] in broker && StandsFor(writes, k, stands[k])
    ensures Distinct(keys, stands) && RowTotal(Written(writes), keys) == Traded(Images(keys, stands))
    ensures Images(keys, stands) <= Sighted(writes, trade, scope, AtPosition(broker, position, symbol, side))
  {
    keys := ClosedRows(Written(writes), trade, scope, position, symbol, side);
    stands := RowsAsExecutions(writes, trade, scope, broker, keys);
    forall k | k in keys
      ensures stands[k] in Sighted(writes, trade, scope, AtPosition(broker, position, symbol, side))
    {
      assert StandsFor(writes, k, stands[k]);
    }
  }

  /** When the store can tell the executions read at the position apart, the closed volume is exactly their
      sum: repeats, order and spelling do not matter. */
  lemma ClosedVolumeIsExact(writes: seq<Write>, trade: TradeId, scope: Scope, broker: set<Execution>,
                            position: string, symbol: string, side: string)
    requires FromHistory(writes, trade, scope, broker)
    requires KeysApart(SightedAt(writes, trade, scope, broker, position))
    ensures RowTotal(Written(writes), ClosedRows(Written(writes), trade, scope, position, symbol, side))
         == Traded(Sighted(writes, trade, scope, AtPosition(broker, position, symbol, side)))
  {
    var keys, stands := RowsOfPosition(writes, trade, scope, broker, position, symbol, side);
    var there := AtPosition(broker, position, symbol, side);
    forall x | x in Sighted(writes, trade, scope, there)
      ensures x in Images(keys, stands)
    {
      SightedIsCounted(writes, trade, scope, broker, keys, stands, x);
    }
    hide Sighted;
    hide RowTotal;
    assert Images(keys, stands) == Sighted(writes, trade, scope, there);
  }

  /** A sighting kept under its key makes its execution one of those that the rows stand for. */
  lemma SightedIsCounted(writes: seq<Write>, trade: TradeId, scope: Scope, broker: set<Execution>,
                         keys: set<RowKey>, stands: map<RowKey, Execution>, x: Execution)
    requires FromHistory(writes, trade, scope, broker) && KeysApart(SightedAt(writes, trade, scope, broker, x.position))
    requires keys == ClosedRows(Written(writes), trade, scope, x.position, x.symbol, x.side) == stands.Keys
    requires forall k :: k in keys ==> stands[k] in broker && StandsFor(writes, k, stands[k])
    requires x in Sighted(writes, trade, scope, broker)
    ensures x in Images(keys, stands)
  {
    var w :| w in writes && w.key.trade == trade && w.key.scope == scope && SightingOf(w, x);
    hide SightingOf;
    hide FromHistory;
    SightingIsKept(writes, broker, w, x);
    hide Written;
    hide StandsFor;
    hide Identifies;
    assert w.key in keys;
    SightedByRow(writes, broker, w.key, x, stands[w.key]);
  }

  /** One key, one row: of two executions with one key, the rows stand for one at most. */
  lemma OneRowPerKey(keys: set<RowKey>, stands: map<RowKey, Execution>, writes: seq<Write>, x: Execution, y: Execution)
    requires keys == stands.Keys && forall k :: k in keys ==> k in Written(writes) && StandsFor(writes, k, stands[k])
    requires forall j, k :: j in keys && k in keys && j.execution == k.execution ==> j == k
    requires x.position == y.position && SameKey(x, y) && x != y
    ensures x !in Images(keys, stands) || y !in Images(keys, stands)
  {
    if x in Images(keys, stands) && y in Images(keys, stands) {
      var j :| j in keys && stands[j] == x;
      var k :| k in keys && stands[k] == y;
      SameKeySameRow(j.execution, k.execution, x, y);
    }
  }

  lemma SameKeySameRow(j: ExecutionKey, k: ExecutionKey, x: Execution, y: Execution)
    requires Identifies(j, x) && Identifies(k, y) && SameKey(x, y) && x.position == y.position
    ensures j == k
  {
    if NativeId(x).None? {
      CanonicalIsUnique(j.volume, k.volume);
    }
  }

  lemma TradedMisses(xs: set<Execution>, ys: set<Execution>, missed: Execution)
    requires xs <= ys && missed in ys && missed !in xs && missed.volume > 0.0
    requires forall y :: y in ys ==> y.volume >= 0.0
    ensures Traded(xs) < Traded(ys)
  {
    TradedPick(ys, missed);
    TradedGrows(xs, ys - {missed});
  }

  /** Two executions of one key that were both read make the closed volume too small. */
  lemma SharedKeysAreLost(writes: seq<Write>, trade: TradeId, scope: Scope, broker: set<Execution>,
                          position: string, symbol: string, side: string, x: Execution, y: Execution)
    requires FromHistory(writes, trade, scope, broker)
    requires var read := Sighted(writes, trade, scope, AtPosition(broker, position, symbol, side));
             x in read && y in read && forall z :: z in read ==> z.volume >= 0.0
    requires x != y && SameKey(x, y) && x.volume > 0.0 && y.volume > 0.0
    ensures RowTotal(Written(writes), ClosedRows(Written(writes), trade, scope, position, symbol, side))
          < Traded(Sighted(writes, trade, scope, AtPosition(broker, position, symbol, side)))
  {
    var keys, stands := RowsOfPosition(writes, trade, scope, broker, position, symbol, side);
    OneRowPerKey(keys, stands, writes, x, y);
    var missed := if x in Images(keys, stands) then y else x;
    TradedMisses(Images(keys, stands), Sighted(writes, trade, scope, AtPosition(broker, position, symbol, side)),
                 missed);
  }

  /** One of two partial closes of one lot each, in the same second and without a broker id. */
  function LotClosed(number: nat): Execution {
    Execution(number, "9", "EURUSD", "BUY", None, None, "12:00:00", 1.0)
  }

  function LotReported(): ClosedTrade {
    var lot := Decimal(false, 1, 0);
    ClosedTrade("9", "EURUSD", "BUY", lot, lot, None, "12:00:00", None, None)
  }

  function LotRead(trade: TradeId, scope: Scope): Write {
    Write(ClosedKey(trade, scope, LotReported()), ClosedDelivery(LotReported(), 0))
  }

  lemma LotIsSighted(trade: TradeId, scope: Scope, number: nat)
    ensures SightingOf(LotRead(trade, scope), LotClosed(number))
  {
    assert Pow10(PRECISION) > 1;
    assert Reports(LotReported(), LotClosed(number));
    hide ExecutionKeyOf;
  }

  /** Both were read, and one is lost. */
  lemma TwoClosesLookLikeOne(trade: TradeId, scope: Scope) returns (writes: seq<Write>)
    ensures var (broker, rows) := ({LotClosed(1), LotClosed(2)}, Written(writes));
            && FromHistory(writes, trade, scope, broker)
            && Sighted(writes, trade, scope, broker) == broker == AtPosition(broker, "9", "EURUSD", "BUY")
            && RowTotal(rows, ClosedRows(rows, trade, scope, "9", "EURUSD", "BUY")) < Traded(broker)
  {
    hide SightingOf;
    hide Written;
    hide RowTotal;
    hide ClosedRows;
    var w, broker := LotRead(trade, scope), {LotClosed(1), LotClosed(2)};
    writes := [w, w];
    LotIsSighted(trade, scope, 1);
    LotIsSighted(trade, scope, 2);
    assert w in writes && w.key.trade == trade && w.key.scope == scope;
    assert AtPosition(broker, "9", "EURUSD", "BUY") == broker;
    hide LotRead;
    assert Sighted(writes, trade, scope, broker) == broker;
    SharedKeysAreLost(writes, trade, scope, broker, "9", "EURUSD", "BUY", LotClosed(1), LotClosed(2));
  }

  /** For a position of one symbol and side whose executions all close something, the closed volume is
      exact if and only if no two executions read share a key. */
  lemma ClosedVolumeExactIff(writes: seq<Write>, trade: TradeId, scope: Scope, broker: set<Execution>,
                             position: string, symbol: string, side: string)
    requires FromHistory(writes, trade, scope, broker)
    requires forall x :: x in SightedAt(writes, trade, scope, broker, position) ==>
               x.volume > 0.0 && x.symbol == symbol && x.side == side
    ensures RowTotal(Written(writes), ClosedRows(Written(writes), trade, scope, position, symbol, side))
         == Traded(SightedAt(writes, trade, scope, broker, position))
         <==> KeysApart(SightedAt(writes, trade, scope, broker, position))
  {
    var read := SightedAt(writes, trade, scope, broker, position);
    assert read == Sighted(writes, trade, scope, AtPosition(broker, position, symbol, side));
    if KeysApart(read) {
      ClosedVolumeIsExact(writes, trade, scope, broker, position, symbol, side);
    } else {
      var x, y :| x in read && y in read && x.position == y.position && SameKey(x, y) && x != y;
      SharedKeysAreLost(writes, trade, scope, broker, position, symbol, side, x, y);
    }
  }

  lemma SightedByRow(writes: seq<Write>, broker: set<Execution>, k: RowKey, x: Execution, y: Execution)
    requires var read := SightedAt(writes, k.trade, k.scope, broker, k.position); KeysApart(read) && x in read
    requires k in Written(writes) && Identifies(k.execution, x) && y in broker && StandsFor(writes, k, y)
    ensures x == y
  {
    OneExecutionPerKey(k.execution, x, y);
  }

  lemma SightingIsKept(writes: seq<Write>, broker: set<Execution>, w: Write, x: Execution)
    requires FromHistory(writes, w.key.trade, w.key.scope, broker)
    requires KeysApart(SightedAt(writes, w.key.trade, w.key.scope, broker, x.position))
    requires w in writes && x in broker && SightingOf(w, x)
    ensures w.key.reader == ClosedPositions && w.key.position == x.position && Identifies(w.key.execution, x)
    ensures w.key in Written(writes)
    ensures Written(writes)[w.key].reading.symbol == x.symbol && Written(writes)[w.key].reading.side == x.side
  {
    var c :| Reports(c, x) && w.key == ClosedKey(w.key.trade, w.key.scope, c);
    ReportIdentifies(c, x);
    WriteLeavesRow(writes, w);
    hide Written;
    RowStandsForExecution(writes, broker, w.key);
    var y :| y in broker && StandsFor(writes, w.key, y);
    SightedByRow(writes, broker, w.key, x, y);
    hide SightingOf;
  }

  lemma {:induction false} WriteLeavesRow(writes: seq<Write>, w: Write)
    requires w in writes
    ensures w.key in Written(writes)
  {
    var n := |writes| - 1;
    if writes[n] != w {
      WriteLeavesRow(writes[..n], w);
    }
  }
}
