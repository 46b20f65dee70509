/** mapping.py, fill and the sums in snapshot: execution evidence and what it adds up to. */
module Fills {
  import opened Wrappers
  import opened Decimals
  import opened Events
  import opened Identity

  datatype FillKey = FillKey(side: Side, scope: Scope, execution: string)

  /** One execution report, and the ledger row it becomes. */
  datatype Fill = Fill(
    key: FillKey, trade: TradeId, order: string, position: string,
    quantity: Decimal, price: Decimal, effect: Effect, emittedAt: int)

  type FillTable = map<FillKey, Fill>

  /** The report differs from the row only in decimal spelling or emission time. */
  predicate SameExecution(row: Fill, report: Fill) {
    && row.key == report.key && row.trade == report.trade && row.order == report.order
    && row.position == report.position && row.effect == report.effect
    && Value(row.quantity) == Value(report.quantity) && Value(row.price) == Value(report.price)
  }

  /** The fill and link tables together, as the one transaction leaves them. */
  datatype Evidence = Evidence(fills: FillTable, links: set<Link>)

  function Filled(e: Evidence, f: Fill): Result<Evidence> {
    if f.key in e.fills then
      if SameExecution(e.fills[f.key], f) then Ok(e) else Refused("Execution ID reused with conflicting fill data")
    else
      var k := f.key;
      Ok(Evidence(e.fills[k := f],
                  Linked(Linked(e.links, Link(f.trade, k.side, k.scope, OrderLink, f.order)),
                         Link(f.trade, k.side, k.scope, PositionLink, f.position))))
  }

  /** A refused report leaves both tables as they were. */
  function Delivered(e: Evidence, reports: seq<Fill>): Evidence {
    if reports == [] then e
    else
      var before := Delivered(e, reports[..|reports| - 1]);
      match Filled(before, reports[|reports| - 1])
      case Ok(after) => after
      case Refused(_) => before
  }

  const NOTHING := Evidence(map[], {})

  /** No two reports reuse an execution id for different data. */
  ghost predicate Consistent(reports: seq<Fill>) {
    forall i, j :: 0 <= i < |reports| && 0 <= j < |reports| && reports[i].key == reports[j].key ==>
      SameExecution(reports[i], reports[j])
  }

  // ---- sums over the table ----

  function Quantity(fills: FillTable, key: FillKey): real
    requires key in fills
  {
    Value(fills[key].quantity)
  }

  ghost function Total(fills: FillTable, keys: set<FillKey>): real
    requires keys <= fills.Keys
  {
    if keys == {} then 0.0
    else var k :| k in keys; Quantity(fills, k) + Total(fills, keys - {k})
  }

  lemma {:induction false} TotalPick(fills: FillTable, keys: set<FillKey>, k: FillKey)
    requires keys <= fills.Keys && k in keys
    ensures Total(fills, keys) == Quantity(fills, k) + Total(fills, keys - {k})
  {
    var p :| p in keys && Total(fills, keys) == Quantity(fills, p) + Total(fills, keys - {p});
    if p != k {
      TotalPick(fills, keys - {p}, k);
      TotalPick(fills, keys - {k}, p);
      assert keys - {p} - {k} == keys - {k} - {p};
    }
  }

  lemma {:induction false} TotalSplit(fills: FillTable, a: set<FillKey>, b: set<FillKey>)
    requires a <= fills.Keys && b <= fills.Keys && a !! b
    ensures Total(fills, a + b) == Total(fills, a) + Total(fills, b)
    decreases a
  {
    if a == {} {
      assert a + b == b;
    } else {
      var k :| k in a;
      TotalPick(fills, a, k);
      TotalPick(fills, a + b, k);
      assert a + b - {k} == (a - {k}) + b;
      TotalSplit(fills, a - {k}, b);
    }
  }

  /** Totals depend on values only: equal keys and equal quantities, equal totals. */
  lemma {:induction false} TotalByValue(f: FillTable, g: FillTable, keys: set<FillKey>)
    requires keys <= f.Keys && keys <= g.Keys
    requires forall k :: k in keys ==> Quantity(f, k) == Quantity(g, k)
    ensures Total(f, keys) == Total(g, keys)
    decreases keys
  {
    if keys != {} {
      var k :| k in keys;
      TotalPick(f, keys, k);
      TotalPick(g, keys, k);
      TotalByValue(f, g, keys - {k});
    }
  }

  // ---- what snapshot reports ----

  /** The fills counted into one trade's open_filled or close_filled on one side and scope. */
  function Matching(fills: FillTable, trade: TradeId, side: Side, scope: Scope, effect: Effect): set<FillKey> {
    set k | k in fills && fills[k].trade == trade && k.side == side && k.scope == scope && fills[k].effect == effect
  }

  /** The fills counted into one linked position's contribution. */
  function Contributing(fills: FillTable, trade: TradeId, side: Side, scope: Scope, effect: Effect, position: string)
    : set<FillKey>
  {
    set k | k in Matching(fills, trade, side, scope, effect) && fills[k].position == position
  }

  function LinkedPositions(links: set<Link>, trade: TradeId, side: Side, scope: Scope): set<string> {
    set l | l in PositionLinks(links, trade, side) && l.scope == scope :: l.native
  }

  ghost function Contributions(fills: FillTable, trade: TradeId, side: Side, scope: Scope, effect: Effect,
                               positions: set<string>)
    : real
  {
    if positions == {} then 0.0
    else var p :| p in positions;
         Total(fills, Contributing(fills, trade, side, scope, effect, p))
         + Contributions(fills, trade, side, scope, effect, positions - {p})
  }

  // ---- the ledger after any deliveries ----

  /** Every row's order and position, when it has them, are linked to the row's trade, and no link is blank. */
  ghost predicate Backed(e: Evidence) {
    && (forall k :: k in e.fills ==> e.fills[k].key == k)
    && (forall k :: k in e.fills && e.fills[k].order != "" ==>
          Link(e.fills[k].trade, k.side, k.scope, OrderLink, e.fills[k].order) in e.links)
    && (forall k :: k in e.fills && e.fills[k].position != "" ==>
          Link(e.fills[k].trade, k.side, k.scope, PositionLink, e.fills[k].position) in e.links)
    && (forall l :: l in e.links ==> l.native != "")
  }

  lemma {:induction false} DeliveredIsBacked(e: Evidence, reports: seq<Fill>)
    requires Backed(e)
    ensures Backed(Delivered(e, reports))
    ensures e.links <= Delivered(e, reports).links
    ensures e.fills.Keys <= Delivered(e, reports).fills.Keys
  {
    if reports != [] {
      var n := |reports| - 1;
      DeliveredIsBacked(e, reports[..n]);
      if Filled(Delivered(e, reports[..n]), reports[n]).Ok? {
        FilledKeepsBacked(Delivered(e, reports[..n]), reports[n]);
      }
      hide Backed;
      hide Filled;
    }
  }

  lemma FilledKeepsBacked(e: Evidence, f: Fill)
    requires Backed(e) && Filled(e, f).Ok?
    ensures var m := Filled(e, f).value; Backed(m) && e.links <= m.links && e.fills.Keys <= m.fills.Keys
  {
  }

  /** Conservation: a trade's total is its linked positions' contributions plus the fills reported without
      a position. */
  lemma TotalIsContributionsPlusUnplaced(e: Evidence, trade: TradeId, side: Side, scope: Scope, effect: Effect)
    requires Backed(e)
    ensures Total(e.fills, Matching(e.fills, trade, side, scope, effect))
         == Contributions(e.fills, trade, side, scope, effect, LinkedPositions(e.links, trade, side, scope))
            + Total(e.fills, Contributing(e.fills, trade, side, scope, effect, ""))
  {
    var positions := LinkedPositions(e.links, trade, side, scope);
    var all := Matching(e.fills, trade, side, scope, effect);
    var placed := set k | k in all && e.fills[k].position in positions;
    var unplaced := Contributing(e.fills, trade, side, scope, effect, "");
    forall k | k in all && e.fills[k].position != ""
      ensures e.fills[k].position in positions
    {
      assert Link(trade, side, scope, PositionLink, e.fills[k].position) in PositionLinks(e.links, trade, side);
    }
    assert all == placed + unplaced;
    TotalSplit(e.fills, placed, unplaced);
    PlacedByPosition(e.fills, trade, side, scope, effect, positions);
  }

  lemma {:induction false} PlacedByPosition(fills: FillTable, trade: TradeId, side: Side, scope: Scope, effect: Effect,
                                            positions: set<string>)
    ensures Contributions(fills, trade, side, scope, effect, positions)
         == Total(fills, set k | k in Matching(fills, trade, side, scope, effect) && fills[k].position in positions)
    decreases positions
  {
    var all := Matching(fills, trade, side, scope, effect);
    var placed := set k | k in all && fills[k].position in positions;
    if positions == {} {
      assert placed == {};
    } else {
      var p :| p in positions && Contributions(fills, trade, side, scope, effect, positions)
             == Total(fills, Contributing(fills, trade, side, scope, effect, p))
                + Contributions(fills, trade, side, scope, effect, positions - {p});
      var rest := set k | k in all && fills[k].position in positions - {p};
      var here := Contributing(fills, trade, side, scope, effect, p);
      PlacedByPosition(fills, trade, side, scope, effect, positions - {p});
      assert placed == here + rest;
      TotalSplit(fills, here, rest);
    }
  }

  /** A report already on record, however spelled, changes nothing; a conflicting one changes nothing either. */
  lemma RedeliveryChangesNothing(e: Evidence, f: Fill)
    requires f.key in e.fills
    ensures Delivered(e, [f]) == e
    ensures Filled(e, f).Ok? <==> SameExecution(e.fills[f.key], f)
  {
    assert [f][..0] == [];
    assert Delivered(e, [f][..0]) == e;
  }

  /** What one more report that contradicts nothing does to the table. */
  lemma FilledFits(e: Evidence, f: Fill)
    requires f.key in e.fills ==> SameExecution(e.fills[f.key], f)
    ensures Filled(e, f).Ok?
    ensures Filled(e, f).value.fills == if f.key in e.fills then e.fills else e.fills[f.key := f]
    ensures SameExecution(Filled(e, f).value.fills[f.key], f)
  {
  }

  lemma SameExecutionJoins(row: Fill, a: Fill, b: Fill)
    requires SameExecution(row, a) && SameExecution(a, b)
    ensures SameExecution(row, b)
  {
  }

  /** The table has one row for each report, with its data. */
  ghost predicate Tabulates(f: FillTable, reports: seq<Fill>) {
    && f.Keys == (set r | r in reports :: r.key)
    && forall r :: r in reports ==> SameExecution(f[r.key], r)
  }

  /** The last of consistent reports fits the row that the earlier ones left. */
  lemma RepeatFits(fills: FillTable, reports: seq<Fill>)
    requires reports != [] && Consistent(reports) && reports[|reports| - 1].key in fills
    requires Tabulates(fills, reports[..|reports| - 1])
    ensures SameExecution(fills[reports[|reports| - 1].key], reports[|reports| - 1])
  {
    hide SameExecution;
    var n := |reports| - 1;
    var i :| 0 <= i < n && reports[i].key == reports[n].key;
    assert reports[i] in reports[..n];
    SameExecutionJoins(fills[reports[n].key], reports[i], reports[n]);
  }

  lemma OneMoreTabulated(before: Evidence, reports: seq<Fill>)
    requires reports != [] && Consistent(reports) && Tabulates(before.fills, reports[..|reports| - 1])
    ensures var f := reports[|reports| - 1]; Filled(before, f).Ok? && Tabulates(Filled(before, f).value.fills, reports)
  {
    var n := |reports| - 1;
    if reports[n].key in before.fills {
      RepeatFits(before.fills, reports);
    }
    FilledFits(before, reports[n]);
    hide Filled;
    hide SameExecution;
    hide Consistent;
    assert reports == reports[..n] + [reports[n]];
  }

  /** After consistent deliveries the table holds one row for each distinct execution, with its data. */
  lemma {:induction false} ConsistentDeliveries(reports: seq<Fill>)
    requires Consistent(reports)
    ensures Tabulates(Delivered(NOTHING, reports).fills, reports)
  {
    if reports != [] {
      var n := |reports| - 1;
      assert Consistent(reports[..n]);
      ConsistentDeliveries(reports[..n]);
      OneMoreTabulated(Delivered(NOTHING, reports[..n]), reports);
      hide Tabulates;
      hide Filled;
    }
  }

  /** Each execution reported in a is reported in b, in whatever spelling. */
  ghost predicate Covers(b: seq<Fill>, a: seq<Fill>) {
    forall f :: f in a ==> exists g :: g in b && SameExecution(f, g)
  }

  ghost predicate SameExecutions(a: seq<Fill>, b: seq<Fill>) {
    Covers(a, b) && Covers(b, a)
  }

  lemma SameExecutionAcross(row: Fill, r: Fill, q: Fill, other: Fill)
    requires SameExecution(row, r) && SameExecution(r, q) && SameExecution(other, q)
    ensures SameExecution(row, other) && r.key == q.key
  {
  }

  lemma SameExecutionSameKey(r: Fill, q: Fill)
    requires SameExecution(r, q)
    ensures r.key == q.key
  {
  }

  lemma RowsAcross(f: FillTable, g: FillTable, a: seq<Fill>, b: seq<Fill>, k: FillKey)
    requires k in f && Tabulates(f, a) && Tabulates(g, b) && Covers(b, a)
    ensures k in g && SameExecution(f[k], g[k])
  {
    var r :| r in a && r.key == k;
    var q :| q in b && SameExecution(r, q);
    SameExecutionSameKey(r, q);
    SameExecutionAcross(f[k], r, q, g[k]);
  }

  lemma SameRows(a: seq<Fill>, b: seq<Fill>)
    requires Consistent(a) && Consistent(b) && SameExecutions(a, b)
    ensures var (f, g) := (Delivered(NOTHING, a).fills, Delivered(NOTHING, b).fills);
            && f.Keys == g.Keys && forall k :: k in f ==> SameExecution(f[k], g[k])
  {
    ConsistentDeliveries(a);
    ConsistentDeliveries(b);
    var f, g := Delivered(NOTHING, a).fills, Delivered(NOTHING, b).fills;
    assert Tabulates(f, a) && Tabulates(g, b);
    hide Covers;
    hide Tabulates;
    hide Delivered;
    hide SameExecution;
    forall k | k in f ensures k in g && SameExecution(f[k], g[k]) {
      RowsAcross(f, g, a, b, k);
    }
    forall k | k in g ensures k in f {
      RowsAcross(g, f, b, a, k);
    }
  }

  /** Order, repetition and spelling do not matter: two consistent delivery sequences that report the same
      executions give every trade the same totals. */
  lemma TotalsDependOnReportsOnly(a: seq<Fill>, b: seq<Fill>, trade: TradeId, side: Side, scope: Scope, effect: Effect)
    requires Consistent(a) && Consistent(b) && SameExecutions(a, b)
    ensures var (f, g) := (Delivered(NOTHING, a).fills, Delivered(NOTHING, b).fills);
            && Matching(f, trade, side, scope, effect) == Matching(g, trade, side, scope, effect)
            && Total(f, Matching(f, trade, side, scope, effect)) == Total(g, Matching(g, trade, side, scope, effect))
  {
    SameRows(a, b);
    var f, g := Delivered(NOTHING, a).fills, Delivered(NOTHING, b).fills;
    var keys := Matching(f, trade, side, scope, effect);
    assert keys == Matching(g, trade, side, scope, effect);
    TotalByValue(f, g, keys);
  }
}
