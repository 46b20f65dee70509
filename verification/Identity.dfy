/** mapping.py, identity links: which native orders and positions belong to which trade.
    A link is only ever added, so a position seen under two trades stays shared for good. */
module Identity {
  import opened Events

  type TradeId = string

  datatype Side = Source | Destination
  datatype LinkKind = OrderLink | PositionLink
  datatype Link = Link(trade: TradeId, side: Side, scope: Scope, kind: LinkKind, native: string)

  /** A blank native id links nothing; a link already on record is left as it is. */
  function Linked(links: set<Link>, l: Link): set<Link> {
    if l.native == "" then links else links + {l}
  }

  function PositionLinks(links: set<Link>, trade: TradeId, side: Side): set<Link> {
    set l | l in links && l.trade == trade && l.side == side && l.kind == PositionLink
  }

  function Owners(links: set<Link>, side: Side, scope: Scope, position: string): set<TradeId> {
    set l | l in links && l.side == side && l.scope == scope && l.kind == PositionLink
      && l.native == position :: l.trade
  }

  /** guard_position: at most one position a side, and no other trade linked to it. */
  predicate Unshared(links: set<Link>, trade: TradeId) {
    forall side <- {Source, Destination} ::
      && |PositionLinks(links, trade, side)| <= 1
      && forall l <- PositionLinks(links, trade, side) :: |Owners(links, side, l.scope, l.native)| <= 1
  }

  lemma AtMostOne<T>(s: set<T>, a: T, b: T)
    requires |s| <= 1 && a in s && b in s
    ensures a == b
  {
    if a != b {
      assert {a, b} <= s;
      SubsetSize({a, b}, s);
    }
  }

  lemma SubsetSize<T>(a: set<T>, b: set<T>)
    requires a <= b
    ensures |a| <= |b|
  {
    assert b == a + (b - a);
  }

  /** A trade that passes the guard is the only trade linked to each of its positions. */
  lemma UnsharedMeansSoleOwner(links: set<Link>, mine: Link, other: Link)
    requires Unshared(links, mine.trade)
    requires mine in links && other in links && mine.kind == other.kind == PositionLink
    requires mine.side == other.side && mine.scope == other.scope && mine.native == other.native
    ensures mine.trade == other.trade
  {
    assert mine in PositionLinks(links, mine.trade, mine.side);
    var owners := Owners(links, mine.side, mine.scope, mine.native);
    assert mine.trade in owners && other.trade in owners;
    AtMostOne(owners, mine.trade, other.trade);
  }

  /** A trade that passes the guard would have passed it before any link was added. */
  lemma UnsharedWasUnshared(before: set<Link>, after: set<Link>, trade: TradeId)
    requires before <= after && Unshared(after, trade)
    ensures Unshared(before, trade)
  {
    forall side | side in {Source, Destination}
      ensures |PositionLinks(before, trade, side)| <= 1
      ensures forall l <- PositionLinks(before, trade, side) :: |Owners(before, side, l.scope, l.native)| <= 1
    {
      SubsetSize(PositionLinks(before, trade, side), PositionLinks(after, trade, side));
      forall l | l in PositionLinks(before, trade, side) ensures |Owners(before, side, l.scope, l.native)| <= 1 {
        assert l in PositionLinks(after, trade, side);
        assert Owners(before, side, l.scope, l.native) <= Owners(after, side, l.scope, l.native);
        SubsetSize(Owners(before, side, l.scope, l.native), Owners(after, side, l.scope, l.native));
      }
    }
  }
}
