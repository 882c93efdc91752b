/** The tile vocabulary every component shares.  A tile is a suit and a
    rank plus a red-bonus flag; the flag never takes part in comparing two
    tiles.  A decomposition group is a kind, a suit and a rank: the rank of
    its lowest tile (for a sequence) or of every tile (otherwise). */
module Tiles {

  datatype Suit = Manzu | Pinzu | Souzu | Jihai

  datatype Tile = Tile(suit: Suit, rank: int, red: bool)

  /** Honor tiles: winds are ranks 1-4, dragons ranks 5-7. */
  predicate IsHonor(s: Suit)
  {
    s == Jihai
  }

  /** A terminal is a number tile of rank 1 or 9. */
  predicate IsTerminal(s: Suit, r: int)
  {
    s != Jihai && (r == 1 || r == 9)
  }

  predicate IsTerminalOrHonor(s: Suit, r: int)
  {
    IsTerminal(s, r) || IsHonor(s)
  }

  predicate IsWindRank(r: int)
  {
    1 <= r <= 4
  }

  predicate IsDragonRank(r: int)
  {
    5 <= r <= 7
  }

  /** Tile equality as the engine uses it: suit and rank, red flag ignored. */
  predicate SameKind(a: Tile, b: Tile)
  {
    a.suit == b.suit && a.rank == b.rank
  }

  datatype GroupKind = Pair | Sequence | Triplet | Kan

  datatype Group = Group(kind: GroupKind, suit: Suit, rank: int)

  /** The member tiles of a group, lowest first. */
  function GroupTiles(g: Group): (ts: seq<Tile>)
    ensures |ts| == match g.kind
                    case Pair => 2
                    case Sequence => 3
                    case Triplet => 3
                    case Kan => 4
    ensures forall i :: 0 <= i < |ts| ==> ts[i].suit == g.suit && !ts[i].red
    ensures g.kind == Sequence ==> forall i :: 0 <= i < |ts| ==> ts[i].rank == g.rank + i
    ensures g.kind != Sequence ==> forall i :: 0 <= i < |ts| ==> ts[i].rank == g.rank
  {
    var t := Tile(g.suit, g.rank, false);
    match g.kind
    case Pair => [t, t]
    case Sequence => [t, Tile(g.suit, g.rank + 1, false), Tile(g.suit, g.rank + 2, false)]
    case Triplet => [t, t, t]
    case Kan => [t, t, t, t]
  }

  /** A tile belongs to a group when some member has its suit and rank. */
  predicate InGroup(t: Tile, g: Group)
  {
    t.suit == g.suit &&
    if g.kind == Sequence then g.rank <= t.rank <= g.rank + 2 else t.rank == g.rank
  }

  lemma {:induction false} InGroupMeansMember(t: Tile, g: Group)
    ensures InGroup(t, g) <==> exists i :: 0 <= i < |GroupTiles(g)| && SameKind(GroupTiles(g)[i], t)
  {
    var ts := GroupTiles(g);
    if InGroup(t, g) {
      var i := if g.kind == Sequence then t.rank - g.rank else 0;
      assert SameKind(ts[i], t);
    }
  }
}
