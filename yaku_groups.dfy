/** The pattern checks that read a decomposition of the winning hand into
    groups (pairs, sequences, triplets, quads).  For each check there is a
    declarative specification over the group list and a method that scans
    the list the way the checker does, proved to agree with it. */
module YakuGroups {
  import opened Tiles
  import opened Wrappers
  import opened GameState
  import opened Config
  import opened YakuTypes

  // ---------------------------------------------------------------------
  // Waiting shape as the pattern checker classifies it

  /** The winning tile lies in the span of a sequence of its suit. */
  predicate SequenceHolds(g: Group, t: Tile)
  {
    g.kind == Sequence && g.suit == t.suit && g.rank <= t.rank <= g.rank + 2
  }

  /** Index of the first sequence whose span holds t. */
  function FirstSequenceHolding(c: seq<Group>, t: Tile): (r: Option<nat>)
    ensures r.Some? ==> r.value < |c| && SequenceHolds(c[r.value], t)
    ensures r.Some? ==> forall j :: 0 <= j < r.value ==> !SequenceHolds(c[j], t)
    ensures r.None? <==> forall j :: 0 <= j < |c| ==> !SequenceHolds(c[j], t)
  {
    if c == [] then None
    else if SequenceHolds(c[0], t) then Some(0)
    else
      var rest := FirstSequenceHolding(c[1..], t);
      if rest.Some? then Some(rest.value + 1) else None
  }

  predicate PairOf(g: Group, t: Tile)
  {
    g.kind == Pair && g.suit == t.suit && g.rank == t.rank
  }

  /** The checker's wait classification: the first sequence holding the
      winning tile decides (edge of 1-2-3 or 7-8-9 is an edge wait, every
      other position a closed wait); otherwise a pair of the winning tile
      is a single wait; otherwise a two-sided wait. */
  function YakuWait(t: Tile, c: seq<Group>): WaitingType
  {
    if c == [] then Ryanmen
    else
      var f := FirstSequenceHolding(c, t);
      if f.Some? then
        var r := c[f.value].rank;
        if (t.rank == r && r == 1) || (t.rank == r + 2 && r == 7) then Penchan else Kanchan
      else if exists j :: 0 <= j < |c| && PairOf(c[j], t) then Tanki
      else Ryanmen
  }

  method DetermineWaitingType(t: Tile, c: seq<Group>) returns (w: WaitingType)
    ensures w == YakuWait(t, c)
  {
    if c == [] {
      return Ryanmen;
    }
    var i := 0;
    while i < |c|
      invariant 0 <= i <= |c|
      invariant forall j :: 0 <= j < i ==> !SequenceHolds(c[j], t)
    {
      var g := c[i];
      if g.kind == Sequence && g.suit == t.suit && g.rank <= t.rank <= g.rank + 2 {
        if (t.rank == g.rank && g.rank == 1)
          || (t.rank != g.rank && t.rank != g.rank + 1 && t.rank == g.rank + 2 && g.rank == 7)
        {
          return Penchan;
        } else if t.rank == g.rank
          || (t.rank != g.rank + 1 && t.rank == g.rank + 2)
          || t.rank == g.rank + 1
        {
          return Kanchan;
        }
        assert false;
      }
      i := i + 1;
    }
    i := 0;
    while i < |c|
      invariant 0 <= i <= |c|
      invariant forall j :: 0 <= j < i ==> !PairOf(c[j], t)
    {
      if c[i].kind == Pair && c[i].suit == t.suit && c[i].rank == t.rank {
        return Tanki;
      }
      i := i + 1;
    }
    return Ryanmen;
  }

  /** A winning tile inside a sequence is never read as a two-sided wait. */
  lemma YakuWaitInSequence(t: Tile, c: seq<Group>, i: nat)
    requires i < |c| && SequenceHolds(c[i], t)
    ensures YakuWait(t, c) == Penchan || YakuWait(t, c) == Kanchan
  {
  }

  // ---------------------------------------------------------------------
  // All-simples

  /** The tiles the all-simples check inspects: those of every pair,
      sequence and triplet (quads are not looked at). */
  function InspectedTiles(c: seq<Group>): (ts: seq<Tile>)
  {
    if c == [] then []
    else
      var g := c[|c| - 1];
      InspectedTiles(c[..|c| - 1]) + (if g.kind == Kan then [] else GroupTiles(g))
  }

  predicate NoTerminalOrHonor(ts: seq<Tile>)
  {
    forall k :: 0 <= k < |ts| ==> !IsTerminalOrHonor(ts[k].suit, ts[k].rank)
  }

  function TanyaoSpec(c: seq<Group>): Option<YakuResult>
  {
    if c != [] && NoTerminalOrHonor(InspectedTiles(c)) then Some(YakuResult(Tanyao, 1, false)) else None
  }

  method CheckTanyao(c: seq<Group>) returns (r: Option<YakuResult>)
    ensures r == TanyaoSpec(c)
  {
    if c == [] {
      return None;
    }
    var tiles: seq<Tile> := [];
    var i := 0;
    while i < |c|
      invariant 0 <= i <= |c|
      invariant tiles == InspectedTiles(c[..i])
    {
      var g := c[i];
      assert c[..i + 1][..i] == c[..i];
      if g.kind == Pair || g.kind == Triplet || g.kind == Sequence {
        tiles := tiles + GroupTiles(g);
      }
      i := i + 1;
    }
    assert c[..|c|] == c;
    var k := 0;
    while k < |tiles|
      invariant 0 <= k <= |tiles|
      invariant forall j :: 0 <= j < k ==> !IsTerminalOrHonor(tiles[j].suit, tiles[j].rank)
    {
      if IsHonor(tiles[k].suit) || IsTerminal(tiles[k].suit, tiles[k].rank) {
        return None;
      }
      k := k + 1;
    }
    return Some(YakuResult(Tanyao, 1, false));
  }

  /** A group every one of whose inspected tiles is a simple (2-8). */
  predicate SimpleGroup(g: Group)
  {
    g.kind == Kan || NoTerminalOrHonor(GroupTiles(g))
  }

  lemma NoTerminalOrHonorConcat(a: seq<Tile>, b: seq<Tile>)
    ensures NoTerminalOrHonor(a + b) <==> NoTerminalOrHonor(a) && NoTerminalOrHonor(b)
  {
    if NoTerminalOrHonor(a + b) {
      forall k | 0 <= k < |b|
        ensures !IsTerminalOrHonor(b[k].suit, b[k].rank)
      {
        assert (a + b)[|a| + k] == b[k];
      }
      forall k | 0 <= k < |a|
        ensures !IsTerminalOrHonor(a[k].suit, a[k].rank)
      {
        assert (a + b)[k] == a[k];
      }
    }
  }

  lemma {:induction false} InspectedTilesSimple(c: seq<Group>)
    ensures NoTerminalOrHonor(InspectedTiles(c)) <==> forall i :: 0 <= i < |c| ==> SimpleGroup(c[i])
  {
    if c != [] {
      var init := c[..|c| - 1];
      var g := c[|c| - 1];
      InspectedTilesSimple(init);
      var extra := if g.kind == Kan then [] else GroupTiles(g);
      assert InspectedTiles(c) == InspectedTiles(init) + extra;
      NoTerminalOrHonorConcat(InspectedTiles(init), extra);
      assert forall i :: 0 <= i < |init| ==> init[i] == c[i];
      assert NoTerminalOrHonor(extra) <==> SimpleGroup(g);
    }
  }

  /** All-simples holds exactly when no pair, sequence or triplet touches a
      terminal or an honor. */
  lemma TanyaoByGroups(c: seq<Group>)
    ensures TanyaoSpec(c).Some? <==> c != [] && forall i :: 0 <= i < |c| ==> SimpleGroup(c[i])
  {
    InspectedTilesSimple(c);
  }

  // ---------------------------------------------------------------------
  // All-sequences (pinfu)

  /** The last pair of c: the scan keeps overwriting the pair it saw. */
  function LastPair(c: seq<Group>): (r: Option<Group>)
    ensures r.Some? ==> r.value.kind == Pair && r.value in c
    ensures r.None? <==> forall i :: 0 <= i < |c| ==> c[i].kind != Pair
  {
    if c == [] then None
    else if c[|c| - 1].kind == Pair then Some(c[|c| - 1])
    else LastPair(c[..|c| - 1])
  }

  /** All-sequences as written, with the checker's own wait classification. */
  function PinfuSpec(h: HandView, c: seq<Group>, gs: State, t: Tile): Option<YakuResult>
  {
    PinfuGiven(h, c, gs, YakuWait(t, c))
  }

  /** The all-sequences verdict once the wait has been classified as w. */
  function PinfuGiven(h: HandView, c: seq<Group>, gs: State, w: WaitingType): Option<YakuResult>
  {
    if !h.concealed || c == [] then None
    else if Any(c, IsTriplet) then None
    else if CountWhere(c, IsSequence) != 4 || LastPair(c).None? then None
    else
      var p := LastPair(c).value;
      if p.suit == Jihai && IsDragonRank(p.rank) then None
      else if p.suit == Jihai && IsWindRank(p.rank) && WindRank(gs.roundWind) == p.rank then None
      else if gs.ruleset.pinfuRequireRyanmen && w != Ryanmen then None
      else Some(YakuResult(Pinfu, 1, false))
  }

  /** The all-sequences check, with the wait read by the intended
      classification (see IntendedYakuWait). */
  method CheckPinfu(h: HandView, c: seq<Group>, gs: State, t: Tile) returns (r: Option<YakuResult>)
    ensures r == IntendedPinfuSpec(h, c, gs, t)
  {
    if !h.concealed || c == [] {
      return None;
    }
    var noTriplet, sequences, pair := ScanSequencesAndPair(c);
    if !noTriplet {
      return None;
    }
    if sequences != 4 || pair.None? {
      return None;
    }
    var p := pair.value;
    if p.suit == Jihai {
      if p.rank == 5 || p.rank == 6 || p.rank == 7 {
        return None;
      }
      if 1 <= p.rank <= 4 && WindRank(gs.roundWind) == p.rank {
        return None;
      }
    }
    if gs.ruleset.pinfuRequireRyanmen {
      var w := DetermineIntendedWait(t, c);
      if w != Ryanmen {
        return None;
      }
    }
    return Some(YakuResult(Pinfu, 1, false));
  }

  /** The all-sequences scan: stops (noTriplet false) at the first
      triplet, and otherwise counts the sequences and keeps the last pair. */
  method ScanSequencesAndPair(c: seq<Group>) returns (noTriplet: bool, sequences: nat, pair: Option<Group>)
    ensures noTriplet <==> !Any(c, IsTriplet)
    ensures noTriplet ==> sequences == CountWhere(c, IsSequence) && pair == LastPair(c)
  {
    sequences := 0;
    pair := None;
    var i := 0;
    while i < |c|
      invariant 0 <= i <= |c|
      invariant sequences == CountWhere(c[..i], IsSequence)
      invariant pair == LastPair(c[..i])
      invariant forall j :: 0 <= j < i ==> c[j].kind != Triplet
    {
      CountWhereStep(c, i, IsSequence);
      assert c[..i + 1][..i] == c[..i];
      var g := c[i];
      if g.kind == Pair {
        pair := Some(g);
      } else if g.kind == Sequence {
        sequences := sequences + 1;
      } else if g.kind == Triplet {
        return false, sequences, pair;
      }
      i := i + 1;
    }
    assert c[..|c|] == c;
    noTriplet := true;
  }

  /** With the two-sided-wait rule on, pinfu is awarded only when the
      winning tile lies in no sequence of the decomposition. */
  lemma PinfuNeedsTileOutsideSequences(h: HandView, c: seq<Group>, gs: State, t: Tile, i: nat)
    requires gs.ruleset.pinfuRequireRyanmen
    requires i < |c| && SequenceHolds(c[i], t)
    ensures PinfuSpec(h, c, gs, t).None?
  {
    YakuWaitInSequence(t, c, i);
  }

  // ---------------------------------------------------------------------
  // The wait classification as evidently intended

  /** Standard reading of a win inside a sequence: the middle tile is a
      closed wait, the 3 of 1-2-3 and the 7 of 7-8-9 are edge waits, and any
      other end tile leaves the sequence undecided (the scan's `break`),
      so the pair test and the two-sided default follow. */
  function IntendedYakuWait(t: Tile, c: seq<Group>): (w: WaitingType)
    ensures w == Kanchan ==> FirstSequenceHolding(c, t).Some?
    ensures w != Shabo
  {
    if c == [] then Ryanmen
    else
      var f := FirstSequenceHolding(c, t);
      if f.Some? && t.rank == c[f.value].rank + 1 then Kanchan
      else if f.Some? && ((t.rank == c[f.value].rank + 2 && c[f.value].rank == 1)
                          || (t.rank == c[f.value].rank && c[f.value].rank == 7)) then Penchan
      else if exists j :: 0 <= j < |c| && PairOf(c[j], t) then Tanki
      else Ryanmen
  }

  /** The classifier's scan with the intended ends: the first sequence
      holding the tile decides a closed or an edge wait, or else stops the
      search; then a pair of the tile is a single wait; otherwise the wait
      is two-sided. */
  method DetermineIntendedWait(t: Tile, c: seq<Group>) returns (w: WaitingType)
    ensures w == IntendedYakuWait(t, c)
  {
    if c == [] {
      return Ryanmen;
    }
    var i := 0;
    while i < |c|
      invariant 0 <= i <= |c|
      invariant forall j :: 0 <= j < i ==> !SequenceHolds(c[j], t)
    {
      var g := c[i];
      if g.kind == Sequence && g.suit == t.suit && g.rank <= t.rank <= g.rank + 2 {
        assert FirstSequenceHolding(c, t) == Some(i);
        if t.rank == g.rank + 1 {
          return Kanchan;
        } else if (t.rank == g.rank + 2 && g.rank == 1) || (t.rank == g.rank && g.rank == 7) {
          return Penchan;
        }
        break;
      }
      i := i + 1;
    }
    i := 0;
    while i < |c|
      invariant 0 <= i <= |c|
      invariant forall j :: 0 <= j < i ==> !PairOf(c[j], t)
    {
      if c[i].kind == Pair && c[i].suit == t.suit && c[i].rank == t.rank {
        return Tanki;
      }
      i := i + 1;
    }
    return Ryanmen;
  }

  /** All-sequences with the intended wait classification. */
  function IntendedPinfuSpec(h: HandView, c: seq<Group>, gs: State, t: Tile): Option<YakuResult>
  {
    PinfuGiven(h, c, gs, IntendedYakuWait(t, c))
  }

  /** Under the intended classification a win on the outer end of a
      sequence that is not an edge, with no pair of that tile, is two-sided,
      and the two readings agree everywhere else outside sequences. */
  lemma IntendedWaitOuterEnd(t: Tile, c: seq<Group>, i: nat)
    requires FirstSequenceHolding(c, t) == Some(i)
    requires (t.rank == c[i].rank && c[i].rank != 7) || (t.rank == c[i].rank + 2 && c[i].rank != 1)
    requires forall j :: 0 <= j < |c| ==> !PairOf(c[j], t)
    ensures IntendedYakuWait(t, c) == Ryanmen
    ensures YakuWait(t, c) != Ryanmen
  {
  }

  lemma WaitsAgreeOutsideSequences(t: Tile, c: seq<Group>)
    requires FirstSequenceHolding(c, t).None?
    ensures IntendedYakuWait(t, c) == YakuWait(t, c)
  {
  }

  /** 234m 567m 234p 567p 55s won on 2m: the two-sided wait 3-4m read as
      a closed wait, so the concealed all-sequences hand loses pinfu when
      the rules demand a two-sided wait; the intended reading keeps it. */
  lemma PinfuLostOnTwoSidedWin(gs: State)
    requires gs.ruleset.pinfuRequireRyanmen
    ensures var h := HandView([], true, false);
            var c := [Group(Sequence, Manzu, 2), Group(Sequence, Manzu, 5), Group(Sequence, Pinzu, 2),
                      Group(Sequence, Pinzu, 5), Group(Pair, Souzu, 5)];
            var t := Tile(Manzu, 2, false);
            YakuWait(t, c) == Kanchan && PinfuSpec(h, c, gs, t).None?
            && IntendedYakuWait(t, c) == Ryanmen && IntendedPinfuSpec(h, c, gs, t) == Some(YakuResult(Pinfu, 1, false))
  {
    var h := HandView([], true, false);
    var c := [Group(Sequence, Manzu, 2), Group(Sequence, Manzu, 5), Group(Sequence, Pinzu, 2),
              Group(Sequence, Pinzu, 5), Group(Pair, Souzu, 5)];
    var t := Tile(Manzu, 2, false);
    assert FirstSequenceHolding(c, t) == Some(0);
    assert !PairOf(c[4], t);
    assert CountWhere(c, IsSequence) == 4 by {
      assert c[..4] == [c[0], c[1], c[2], c[3]];
      assert c[..4][..3] == [c[0], c[1], c[2]];
      assert c[..4][..3][..2] == [c[0], c[1]];
      assert c[..4][..3][..2][..1] == [c[0]];
      assert CountWhere([c[0]], IsSequence) == 1;
      assert CountWhere([c[0], c[1]], IsSequence) == 2;
      assert CountWhere([c[0], c[1], c[2]], IsSequence) == 3;
      assert CountWhere(c[..4], IsSequence) == 4;
    }
    assert LastPair(c) == Some(Group(Pair, Souzu, 5));
    assert !Any(c, IsTriplet);
  }

  // ---------------------------------------------------------------------
  // Sequence lists

  /** The (suit, rank) keys of the sequences of c, in order. */
  function SequencesOf(c: seq<Group>): (s: seq<(Suit, int)>)
    ensures |s| == CountWhere(c, IsSequence)
  {
    if c == [] then []
    else
      var g := c[|c| - 1];
      SequencesOf(c[..|c| - 1]) + (if g.kind == Sequence then [(g.suit, g.rank)] else [])
  }

  lemma {:induction false} SequencesOfMember(c: seq<Group>, s: Suit, r: int)
    ensures (s, r) in SequencesOf(c) <==> HasSequence(c, s, r)
  {
    if c != [] {
      var init := c[..|c| - 1];
      SequencesOfMember(init, s, r);
      assert forall i :: 0 <= i < |init| ==> init[i] == c[i];
      if HasSequence(c, s, r) && !HasSequence(init, s, r) {
        assert c[|c| - 1] == Group(Sequence, s, r);
      }
    }
  }

  method CollectSequences(c: seq<Group>) returns (s: seq<(Suit, int)>)
    ensures s == SequencesOf(c)
  {
    s := [];
    var i := 0;
    while i < |c|
      invariant 0 <= i <= |c|
      invariant s == SequencesOf(c[..i])
    {
      assert c[..i + 1][..i] == c[..i];
      if c[i].kind == Sequence {
        s := s + [(c[i].suit, c[i].rank)];
      }
      i := i + 1;
    }
    assert c[..|c|] == c;
  }

  // ---------------------------------------------------------------------
  // Pure double sequence (iipeikou)

  predicate HasTwin<K(==,!new)>(s: seq<K>)
  {
    exists i, j :: 0 <= i < j < |s| && s[i] == s[j]
  }

  function IipeikouSpec(h: HandView, c: seq<Group>): Option<YakuResult>
  {
    if h.concealed && c != [] && HasTwin(SequencesOf(c)) then Some(YakuResult(Iipeikou, 1, false)) else None
  }

  method CheckIipeikou(h: HandView, c: seq<Group>) returns (r: Option<YakuResult>)
    ensures r == IipeikouSpec(h, c)
  {
    if !h.concealed || c == [] {
      return None;
    }
    var s := CollectSequences(c);
    if |s| >= 2 {
      var i := 0;
      while i < |s|
        invariant 0 <= i <= |s|
        invariant forall a, b :: 0 <= a < i && a < b < |s| ==> s[a] != s[b]
      {
        var j := i + 1;
        while j < |s|
          invariant i < j <= |s|
          invariant forall b :: i < b < j ==> s[i] != s[b]
        {
          if s[i] == s[j] {
            return Some(YakuResult(Iipeikou, 1, false));
          }
          j := j + 1;
        }
        i := i + 1;
      }
    }
    return None;
  }

  // ---------------------------------------------------------------------
  // All triplets, three quads

  function ToitoiSpec(c: seq<Group>): Option<YakuResult>
  {
    if c != [] && !Any(c, IsSequence) && CountWhere(c, IsTriplet) == 4 && Any(c, IsPair)
    then Some(YakuResult(Toitoi, 2, false)) else None
  }

  method CheckToitoi(c: seq<Group>) returns (r: Option<YakuResult>)
    ensures r == ToitoiSpec(c)
  {
    if c == [] {
      return None;
    }
    var noSequence, triplets, pair := ScanTripletsAndPair(c);
    if !noSequence {
      return None;
    }
    if triplets == 4 && pair {
      return Some(YakuResult(Toitoi, 2, false));
    }
    return None;
  }

  /** The all-triplets scan: stops (noSequence false) at the first
      sequence, and otherwise counts the triplets and notes a pair. */
  method ScanTripletsAndPair(c: seq<Group>) returns (noSequence: bool, triplets: nat, pair: bool)
    ensures noSequence <==> !Any(c, IsSequence)
    ensures noSequence ==> triplets == CountWhere(c, IsTriplet) && (pair <==> Any(c, IsPair))
  {
    triplets := 0;
    pair := false;
    var i := 0;
    while i < |c|
      invariant 0 <= i <= |c|
      invariant triplets == CountWhere(c[..i], IsTriplet)
      invariant pair <==> Any(c[..i], IsPair)
      invariant forall j :: 0 <= j < i ==> c[j].kind != Sequence
    {
      CountWhereStep(c, i, IsTriplet);
      AnyStep(c, i, IsPair);
      var g := c[i];
      if g.kind == Pair {
        pair := true;
      } else if g.kind == Sequence {
        return false, triplets, pair;
      } else if g.kind == Triplet {
        triplets := triplets + 1;
      }
      i := i + 1;
    }
    assert c[..|c|] == c;
    noSequence := true;
  }

  /** Counts the groups of c satisfying p, one group at a time. */
  method CountGroups(c: seq<Group>, p: Group -> bool) returns (n: nat)
    ensures n == CountWhere(c, p)
  {
    n := 0;
    var i := 0;
    while i < |c|
      invariant 0 <= i <= |c|
      invariant n == CountWhere(c[..i], p)
    {
      CountWhereStep(c, i, p);
      if p(c[i]) {
        n := n + 1;
      }
      i := i + 1;
    }
    assert c[..|c|] == c;
  }

  function SankantsuSpec(c: seq<Group>): Option<YakuResult>
  {
    if CountWhere(c, IsKan) == 3 then Some(YakuResult(Sankantsu, 2, false)) else None
  }

  method CheckSankantsu(c: seq<Group>) returns (r: Option<YakuResult>)
    ensures r == SankantsuSpec(c)
  {
    if c == [] {
      return None;
    }
    var kans := CountGroups(c, IsKan);
    r := if kans == 3 then Some(YakuResult(Sankantsu, 2, false)) else None;
  }

  // ---------------------------------------------------------------------
  // Value honors (yakuhai)

  function RoundWindYaku(rank: int): Yaku
    requires IsWindRank(rank)
  {
    if rank == 1 then RoundWindEast else if rank == 2 then RoundWindSouth
    else if rank == 3 then RoundWindWest else RoundWindNorth
  }

  function SeatWindYaku(rank: int): Yaku
    requires IsWindRank(rank)
  {
    if rank == 1 then SeatWindEast else if rank == 2 then SeatWindSouth
    else if rank == 3 then SeatWindWest else SeatWindNorth
  }

  /** The value-honor verdicts one group earns: a dragon set earns its
      dragon, a wind set earns the round wind and the seat wind it matches. */
  function GroupYakuhai(g: Group, gs: State, position: nat): (rs: seq<YakuResult>)
    ensures |rs| <= 2
    ensures rs != [] ==> IsSet(g) && g.suit == Jihai
    ensures forall k :: 0 <= k < |rs| ==> rs[k].han == 1 && !rs[k].isYakuman
  {
    if IsSet(g) && g.suit == Jihai then
      (if g.rank == 5 then [YakuResult(Haku, 1, false)]
       else if g.rank == 6 then [YakuResult(Hatsu, 1, false)]
       else if g.rank == 7 then [YakuResult(Chun, 1, false)]
       else [])
      + (if IsWindRank(g.rank) && WindRank(gs.roundWind) == g.rank
         then [YakuResult(RoundWindYaku(g.rank), 1, false)] else [])
      + (if position < |gs.playerWinds| && IsWindRank(g.rank) && WindRank(gs.playerWinds[position]) == g.rank
         then [YakuResult(SeatWindYaku(g.rank), 1, false)] else [])
    else []
  }

  function Yakuhai(c: seq<Group>, gs: State, position: nat): (rs: seq<YakuResult>)
  {
    if c == [] then []
    else Yakuhai(c[..|c| - 1], gs, position) + GroupYakuhai(c[|c| - 1], gs, position)
  }

  method CheckYakuhai(c: seq<Group>, gs: State, position: nat) returns (rs: seq<YakuResult>)
    ensures rs == Yakuhai(c, gs, position)
  {
    rs := [];
    if c == [] {
      return;
    }
    var i := 0;
    while i < |c|
      invariant 0 <= i <= |c|
      invariant rs == Yakuhai(c[..i], gs, position)
    {
      assert c[..i + 1][..i] == c[..i];
      var found := CheckGroupYakuhai(c[i], gs, position);
      rs := rs + found;
      i := i + 1;
    }
    assert c[..|c|] == c;
  }

  /** The value-honor tests the scan applies to one group. */
  method CheckGroupYakuhai(g: Group, gs: State, position: nat) returns (rs: seq<YakuResult>)
    ensures rs == GroupYakuhai(g, gs, position)
  {
    rs := [];
    if (g.kind == Triplet || g.kind == Kan) && g.suit == Jihai {
      if g.rank == 5 {
        rs := rs + [YakuResult(Haku, 1, false)];
      } else if g.rank == 6 {
        rs := rs + [YakuResult(Hatsu, 1, false)];
      } else if g.rank == 7 {
        rs := rs + [YakuResult(Chun, 1, false)];
      }
      if 1 <= g.rank <= 4 && WindRank(gs.roundWind) == g.rank {
        rs := rs + [YakuResult(RoundWindYaku(g.rank), 1, false)];
      }
      if position < |gs.playerWinds| {
        if 1 <= g.rank <= 4 && WindRank(gs.playerWinds[position]) == g.rank {
          rs := rs + [YakuResult(SeatWindYaku(g.rank), 1, false)];
        }
      }
    }
  }

  /** Each value-honor verdict is one han and comes from an honor set, at
      most two per set. */
  lemma {:induction false} YakuhaiBound(c: seq<Group>, gs: State, position: nat)
    ensures |Yakuhai(c, gs, position)| <= 2 * CountWhere(c, IsSet)
    ensures forall k :: 0 <= k < |Yakuhai(c, gs, position)| ==>
              Yakuhai(c, gs, position)[k].han == 1 && !Yakuhai(c, gs, position)[k].isYakuman
  {
    if c != [] {
      var init := c[..|c| - 1];
      YakuhaiBound(init, gs, position);
      var a := Yakuhai(init, gs, position);
      var b := GroupYakuhai(c[|c| - 1], gs, position);
      assert Yakuhai(c, gs, position) == a + b;
      assert forall k :: |a| <= k < |a| + |b| ==> (a + b)[k] == b[k - |a|];
    }
  }

  // ---------------------------------------------------------------------
  // Three-colour sequences, pure straight

  function SanshokuDoujunSpec(c: seq<Group>): Option<YakuResult>
  {
    if exists r :: 1 <= r <= 7 && HasSequence(c, Manzu, r) && HasSequence(c, Pinzu, r) && HasSequence(c, Souzu, r)
    then Some(YakuResult(SanshokuDoujun, 2, false)) else None
  }

  /** The ranks of the sequences of suit s in c. */
  method SequenceRanks(c: seq<Group>, s: Suit) returns (ranks: seq<int>)
    ensures forall r :: r in ranks <==> HasSequence(c, s, r)
  {
    ranks := [];
    var i := 0;
    while i < |c|
      invariant 0 <= i <= |c|
      invariant forall r :: r in ranks <==> exists j :: 0 <= j < i && c[j] == Group(Sequence, s, r)
    {
      if c[i].kind == Sequence && c[i].suit == s {
        ranks := ranks + [c[i].rank];
      }
      i := i + 1;
    }
  }

  method CheckSanshokuDoujun(c: seq<Group>) returns (res: Option<YakuResult>)
    ensures res == SanshokuDoujunSpec(c)
  {
    if c == [] {
      return None;
    }
    var m := SequenceRanks(c, Manzu);
    var p := SequenceRanks(c, Pinzu);
    var s := SequenceRanks(c, Souzu);
    var r := 1;
    while r < 8
      invariant 1 <= r <= 8
      invariant forall q :: 1 <= q < r ==> !(HasSequence(c, Manzu, q) && HasSequence(c, Pinzu, q) && HasSequence(c, Souzu, q))
    {
      if r in m && r in p && r in s {
        return Some(YakuResult(SanshokuDoujun, 2, false));
      }
      r := r + 1;
    }
    return None;
  }

  function IttsuSpec(c: seq<Group>): Option<YakuResult>
  {
    if exists s :: s != Jihai && HasSequence(c, s, 1) && HasSequence(c, s, 4) && HasSequence(c, s, 7)
    then Some(YakuResult(Ittsu, 2, false)) else None
  }

  method CheckIttsu(c: seq<Group>) returns (res: Option<YakuResult>)
    ensures res == IttsuSpec(c)
  {
    if c == [] {
      return None;
    }
    var suits := [Manzu, Pinzu, Souzu];
    var k := 0;
    while k < 3
      invariant 0 <= k <= 3
      invariant forall j :: 0 <= j < k ==> !(HasSequence(c, suits[j], 1) && HasSequence(c, suits[j], 4) && HasSequence(c, suits[j], 7))
    {
      var ranks := SequenceRanks(c, suits[k]);
      if 1 in ranks && 4 in ranks && 7 in ranks {
        return Some(YakuResult(Ittsu, 2, false));
      }
      k := k + 1;
    }
    forall s | s != Jihai
      ensures !(HasSequence(c, s, 1) && HasSequence(c, s, 4) && HasSequence(c, s, 7))
    {
      assert s == suits[0] || s == suits[1] || s == suits[2];
    }
    return None;
  }

  // ---------------------------------------------------------------------
  // Three concealed triplets

  function SanankouSpec(h: HandView, c: seq<Group>): Option<YakuResult>
  {
    if h.concealed && CountWhere(c, IsTriplet) >= 3 then Some(YakuResult(Sanankou, 2, false)) else None
  }

  method CheckSanankou(h: HandView, c: seq<Group>) returns (r: Option<YakuResult>)
    ensures r == SanankouSpec(h, c)
  {
    if !h.concealed || c == [] {
      return None;
    }
    var triplets := CountGroups(c, IsTriplet);
    r := if triplets >= 3 then Some(YakuResult(Sanankou, 2, false)) else None;
  }

  // ---------------------------------------------------------------------
  // Flushes

  predicate IsHonorGroup(g: Group) { g.suit == Jihai }

  function ChinitsuSpec(c: seq<Group>): Option<YakuResult>
  {
    if !Any(c, IsHonorGroup) && |NumberSuits(c)| == 1 then Some(YakuResult(Chinitsu, 6, false)) else None
  }

  lemma NumberSuitsStep(c: seq<Group>, i: nat)
    requires i < |c|
    ensures NumberSuits(c[..i + 1]) == NumberSuits(c[..i]) + (if c[i].suit != Jihai then {c[i].suit} else {})
  {
    var a := c[..i + 1];
    assert forall j :: 0 <= j < i ==> a[j] == c[..i][j];
    assert a[i] == c[i];
  }

  method CheckChinitsu(c: seq<Group>) returns (r: Option<YakuResult>)
    ensures r == ChinitsuSpec(c)
  {
    if c == [] {
      return None;
    }
    var suits: set<Suit> := {};
    var i := 0;
    while i < |c|
      invariant 0 <= i <= |c|
      invariant suits == NumberSuits(c[..i])
      invariant forall j :: 0 <= j < i ==> c[j].suit != Jihai
    {
      NumberSuitsStep(c, i);
      if c[i].suit != Jihai {
        suits := suits + {c[i].suit};
      } else {
        return None;
      }
      i := i + 1;
    }
    assert c[..|c|] == c;
    r := if |suits| == 1 then Some(YakuResult(Chinitsu, 6, false)) else None;
  }

  function HonitsuSpec(c: seq<Group>): Option<YakuResult>
  {
    if |NumberSuits(c)| == 1 && Any(c, IsHonorGroup) then Some(YakuResult(Honitsu, 3, false)) else None
  }

  method CheckHonitsu(c: seq<Group>) returns (r: Option<YakuResult>)
    ensures r == HonitsuSpec(c)
  {
    if c == [] {
      return None;
    }
    var suits: set<Suit> := {};
    var hasHonor := false;
    var i := 0;
    while i < |c|
      invariant 0 <= i <= |c|
      invariant suits == NumberSuits(c[..i])
      invariant hasHonor <==> exists j :: 0 <= j < i && c[j].suit == Jihai
    {
      NumberSuitsStep(c, i);
      if c[i].suit == Jihai {
        hasHonor := true;
      } else {
        suits := suits + {c[i].suit};
      }
      i := i + 1;
    }
    assert c[..|c|] == c;
    r := if |suits| == 1 && hasHonor then Some(YakuResult(Honitsu, 3, false)) else None;
  }

  /** The full flush and the half flush never both hold. */
  lemma FlushesExclusive(c: seq<Group>)
    ensures !(ChinitsuSpec(c).Some? && HonitsuSpec(c).Some?)
  {
  }

  // ---------------------------------------------------------------------
  // Terminal-in-every-group patterns

  predicate JunchanGroup(g: Group)
  {
    g.suit != Jihai && g.kind != Triplet && (g.kind == Sequence ==> g.rank == 1 || g.rank == 7)
  }

  function JunchanSpec(h: HandView, c: seq<Group>, cfg: RulesConfig): Option<YakuResult>
  {
    if (forall i :: 0 <= i < |c| ==> JunchanGroup(c[i])) && CountWhere(c, IsSequence) == 4
    then Some(YakuResult(Junchan, if h.concealed then cfg.junchanClosedHan else cfg.junchanOpenHan, false))
    else None
  }

  method CheckJunchan(h: HandView, c: seq<Group>, cfg: RulesConfig) returns (r: Option<YakuResult>)
    ensures r == JunchanSpec(h, c, cfg)
  {
    if c == [] {
      return None;
    }
    var sequences := 0;
    var i := 0;
    while i < |c|
      invariant 0 <= i <= |c|
      invariant sequences == CountWhere(c[..i], IsSequence)
      invariant forall j :: 0 <= j < i ==> JunchanGroup(c[j])
    {
      CountWhereStep(c, i, IsSequence);
      var g := c[i];
      if IsHonor(g.suit) {
        return None;
      }
      if g.kind == Sequence {
        sequences := sequences + 1;
        if g.rank != 1 && g.rank != 7 {
          return None;
        }
      } else if g.kind == Triplet {
        return None;
      }
      i := i + 1;
    }
    assert c[..|c|] == c;
    if sequences == 4 {
      var han := if h.concealed then cfg.junchanClosedHan else cfg.junchanOpenHan;
      return Some(YakuResult(Junchan, han, false));
    }
    return None;
  }

  /** A number group that breaks the outside-hand pattern. */
  predicate ChantaBreaker(g: Group)
  {
    (g.kind == Sequence && g.rank != 1 && g.rank != 7)
    || ((g.kind == Triplet || g.kind == Pair) && g.rank != 1 && g.rank != 9)
  }

  function ChantaSpec(h: HandView, c: seq<Group>, cfg: RulesConfig): Option<YakuResult>
  {
    if cfg.chantaEnabled && Any(c, IsHonorGroup)
       && (forall i :: 0 <= i < |c| ==> c[i].suit == Jihai || !ChantaBreaker(c[i]))
    then Some(YakuResult(Chanta, if h.concealed then cfg.chantaClosedHan else cfg.chantaOpenHan, false))
    else None
  }

  method CheckChanta(h: HandView, c: seq<Group>, cfg: RulesConfig) returns (r: Option<YakuResult>)
    ensures r == ChantaSpec(h, c, cfg)
  {
    if !cfg.chantaEnabled || c == [] {
      return None;
    }
    var hasHonor := false;
    var allTerminals := true;
    var i := 0;
    while i < |c|
      invariant 0 <= i <= |c|
      invariant hasHonor <==> exists j :: 0 <= j < i && c[j].suit == Jihai
      invariant allTerminals
      invariant forall j :: 0 <= j < i ==> c[j].suit == Jihai || !ChantaBreaker(c[j])
    {
      var g := c[i];
      if IsHonor(g.suit) {
        hasHonor := true;
      } else if (g.kind == Sequence && g.rank != 1 && g.rank != 7)
             || (g.kind != Sequence && (g.kind == Triplet || g.kind == Pair) && g.rank != 1 && g.rank != 9)
      {
        allTerminals := false;
        break;
      }
      i := i + 1;
    }
    if hasHonor && allTerminals {
      var han := if h.concealed then cfg.chantaClosedHan else cfg.chantaOpenHan;
      return Some(YakuResult(Chanta, han, false));
    }
    return None;
  }

  function HonroutouSpec(c: seq<Group>): Option<YakuResult>
  {
    if c != [] && forall i :: 0 <= i < |c| ==> IsTerminalOrHonor(c[i].suit, c[i].rank)
    then Some(YakuResult(Honroutou, 2, false)) else None
  }

  method CheckHonroutou(c: seq<Group>) returns (r: Option<YakuResult>)
    ensures r == HonroutouSpec(c)
  {
    if c == [] {
      return None;
    }
    var i := 0;
    while i < |c|
      invariant 0 <= i <= |c|
      invariant forall j :: 0 <= j < i ==> IsTerminalOrHonor(c[j].suit, c[j].rank)
    {
      if !(IsTerminal(c[i].suit, c[i].rank) || IsHonor(c[i].suit)) {
        return None;
      }
      i := i + 1;
    }
    return Some(YakuResult(Honroutou, 2, false));
  }

  // ---------------------------------------------------------------------
  // Twice pure double sequence (ryanpeikou)

  function RyanpeikouSpec(h: HandView, c: seq<Group>): Option<YakuResult>
  {
    var s := SequencesOf(c);
    if h.concealed && |s| == 4 && |Repeated(s)| == 2 && (forall k :: k in Repeated(s) ==> Occurrences(s, k) == 2)
    then Some(YakuResult(Ryanpeikou, 3, false)) else None
  }

  method CheckRyanpeikou(h: HandView, c: seq<Group>) returns (r: Option<YakuResult>)
    ensures r == RyanpeikouSpec(h, c)
  {
    if !h.concealed || c == [] {
      return None;
    }
    var s := CollectSequences(c);
    if |s| != 4 {
      return None;
    }
    var counts := TallyOf(s);
    TallyMeaning(s);
    var paired := set k | k in counts && counts[k] >= 2;
    assert paired == Repeated(s);
    if |paired| == 2 {
      var rest := paired;
      while rest != {}
        invariant rest <= paired
        invariant forall k :: k in paired - rest ==> counts[k] == 2
        decreases |rest|
      {
        var k :| k in rest;
        if counts[k] != 2 {
          return None;
        }
        rest := rest - {k};
      }
      return Some(YakuResult(Ryanpeikou, 3, false));
    }
    return None;
  }

  // ---------------------------------------------------------------------
  // Three-colour triplets, dragons

  function SanshokuDoukouSpec(c: seq<Group>): Option<YakuResult>
  {
    if exists r :: 1 <= r <= 9 && HasTriplet(c, Manzu, r) && HasTriplet(c, Pinzu, r) && HasTriplet(c, Souzu, r)
    then Some(YakuResult(SanshokuDoukou, 2, false)) else None
  }

  method TripletRanks(c: seq<Group>, s: Suit) returns (ranks: seq<int>)
    ensures forall r :: r in ranks <==> HasTriplet(c, s, r)
  {
    ranks := [];
    var i := 0;
    while i < |c|
      invariant 0 <= i <= |c|
      invariant forall r :: r in ranks <==> exists j :: 0 <= j < i && c[j] == Group(Triplet, s, r)
    {
      if c[i].kind == Triplet && c[i].suit == s {
        ranks := ranks + [c[i].rank];
      }
      i := i + 1;
    }
  }

  method CheckSanshokuDoukou(c: seq<Group>) returns (res: Option<YakuResult>)
    ensures res == SanshokuDoukouSpec(c)
  {
    if c == [] {
      return None;
    }
    var m := TripletRanks(c, Manzu);
    var p := TripletRanks(c, Pinzu);
    var s := TripletRanks(c, Souzu);
    var r := 1;
    while r < 10
      invariant 1 <= r <= 10
      invariant forall q :: 1 <= q < r ==> !(HasTriplet(c, Manzu, q) && HasTriplet(c, Pinzu, q) && HasTriplet(c, Souzu, q))
    {
      if r in m && r in p && r in s {
        return Some(YakuResult(SanshokuDoukou, 2, false));
      }
      r := r + 1;
    }
    return None;
  }

  function ShousangenSpec(c: seq<Group>): Option<YakuResult>
  {
    if CountWhere(c, IsDragonSet) == 2 && Any(c, IsDragonPair) then Some(YakuResult(Shousangen, 2, false)) else None
  }

  method CheckShousangen(c: seq<Group>) returns (r: Option<YakuResult>)
    ensures r == ShousangenSpec(c)
  {
    if c == [] {
      return None;
    }
    var sets := 0;
    var pair := false;
    var i := 0;
    while i < |c|
      invariant 0 <= i <= |c|
      invariant sets == CountWhere(c[..i], IsDragonSet)
      invariant pair <==> exists j :: 0 <= j < i && IsDragonPair(c[j])
    {
      CountWhereStep(c, i, IsDragonSet);
      var g := c[i];
      if g.suit == Jihai && 5 <= g.rank <= 7 {
        if g.kind == Triplet || g.kind == Kan {
          sets := sets + 1;
        } else if g.kind == Pair {
          pair := true;
        }
      }
      i := i + 1;
    }
    assert c[..|c|] == c;
    r := if sets == 2 && pair then Some(YakuResult(Shousangen, 2, false)) else None;
  }

  function DaisangenSpec(c: seq<Group>): Option<YakuResult>
  {
    if CountWhere(c, IsDragonSet) == 3 then Some(YakuResult(Daisangen, 13, true)) else None
  }

  method CheckDaisangen(c: seq<Group>) returns (r: Option<YakuResult>)
    ensures r == DaisangenSpec(c)
  {
    if c == [] {
      return None;
    }
    var sets := CountGroups(c, IsDragonSet);
    r := if sets == 3 then Some(YakuResult(Daisangen, 13, true)) else None;
  }

  function SuukantsuSpec(c: seq<Group>): Option<YakuResult>
  {
    if CountWhere(c, IsKan) == 4 then Some(YakuResult(Suukantsu, 13, true)) else None
  }

  method CheckSuukantsu(c: seq<Group>) returns (r: Option<YakuResult>)
    ensures r == SuukantsuSpec(c)
  {
    if c == [] {
      return None;
    }
    var kans := CountGroups(c, IsKan);
    r := if kans == 4 then Some(YakuResult(Suukantsu, 13, true)) else None;
  }

  // ---------------------------------------------------------------------
  // Four concealed triplets

  function SuuankouSpec(h: HandView, c: seq<Group>, t: Tile, cfg: RulesConfig): Option<YakuResult>
  {
    if h.concealed && CountWhere(c, IsTriplet) == 4 then
      if cfg.suuankouTankiDouble && exists j :: 0 <= j < |c| && PairOf(c[j], t)
      then Some(YakuResult(SuuankouTanki, 26, true))
      else Some(YakuResult(Suuankou, 13, true))
    else None
  }

  method CheckSuuankou(h: HandView, c: seq<Group>, t: Tile, cfg: RulesConfig) returns (r: Option<YakuResult>)
    ensures r == SuuankouSpec(h, c, t, cfg)
  {
    if !h.concealed || c == [] {
      return None;
    }
    var triplets := 0;
    var tanki := false;
    var i := 0;
    while i < |c|
      invariant 0 <= i <= |c|
      invariant triplets == CountWhere(c[..i], IsTriplet)
      invariant tanki <==> exists j :: 0 <= j < i && PairOf(c[j], t)
    {
      CountWhereStep(c, i, IsTriplet);
      var g := c[i];
      if g.kind == Triplet {
        triplets := triplets + 1;
      } else if g.kind == Pair {
        if g.suit == t.suit && g.rank == t.rank {
          tanki := true;
        }
      }
      i := i + 1;
    }
    assert c[..|c|] == c;
    if triplets == 4 {
      if cfg.suuankouTankiDouble && tanki {
        return Some(YakuResult(SuuankouTanki, 26, true));
      }
      return Some(YakuResult(Suuankou, 13, true));
    }
    return None;
  }

  // ---------------------------------------------------------------------
  // Winds

  function ShousuushiSpec(c: seq<Group>): Option<YakuResult>
  {
    if CountWhere(c, IsWindSet) == 3 && Any(c, IsWindPair) then Some(YakuResult(Shousuushi, 13, true)) else None
  }

  method CheckShousuushi(c: seq<Group>) returns (r: Option<YakuResult>)
    ensures r == ShousuushiSpec(c)
  {
    if c == [] {
      return None;
    }
    var sets := 0;
    var pair := false;
    var i := 0;
    while i < |c|
      invariant 0 <= i <= |c|
      invariant sets == CountWhere(c[..i], IsWindSet)
      invariant pair <==> exists j :: 0 <= j < i && IsWindPair(c[j])
    {
      CountWhereStep(c, i, IsWindSet);
      var g := c[i];
      if g.suit == Jihai && 1 <= g.rank <= 4 {
        if g.kind == Triplet || g.kind == Kan {
          sets := sets + 1;
        } else if g.kind == Pair {
          pair := true;
        }
      }
      i := i + 1;
    }
    assert c[..|c|] == c;
    r := if sets == 3 && pair then Some(YakuResult(Shousuushi, 13, true)) else None;
  }

  function DaisuushiSpec(c: seq<Group>): Option<YakuResult>
  {
    if CountWhere(c, IsWindSet) == 4 then Some(YakuResult(Daisuushi, 13, true)) else None
  }

  method CheckDaisuushi(c: seq<Group>) returns (r: Option<YakuResult>)
    ensures r == DaisuushiSpec(c)
  {
    if c == [] {
      return None;
    }
    var sets := CountGroups(c, IsWindSet);
    r := if sets == 4 then Some(YakuResult(Daisuushi, 13, true)) else None;
  }

  // ---------------------------------------------------------------------
  // All terminals, all honors, all green

  predicate ChinroutouGroup(g: Group)
  {
    g.suit != Jihai && g.kind != Sequence && IsTerminal(g.suit, g.rank)
  }

  function ChinroutouSpec(c: seq<Group>): Option<YakuResult>
  {
    if c != [] && forall i :: 0 <= i < |c| ==> ChinroutouGroup(c[i])
    then Some(YakuResult(Chinroutou, 13, true)) else None
  }

  method CheckChinroutou(c: seq<Group>) returns (r: Option<YakuResult>)
    ensures r == ChinroutouSpec(c)
  {
    if c == [] {
      return None;
    }
    var i := 0;
    while i < |c|
      invariant 0 <= i <= |c|
      invariant forall j :: 0 <= j < i ==> ChinroutouGroup(c[j])
    {
      var g := c[i];
      if IsHonor(g.suit) {
        return None;
      }
      if ((g.kind == Triplet || g.kind == Kan || g.kind == Pair) && !IsTerminal(g.suit, g.rank))
         || (!(g.kind == Triplet || g.kind == Kan || g.kind == Pair) && g.kind == Sequence)
      {
        return None;
      }
      i := i + 1;
    }
    return Some(YakuResult(Chinroutou, 13, true));
  }

  function TsuuiisouSpec(c: seq<Group>): Option<YakuResult>
  {
    if c != [] && forall i :: 0 <= i < |c| ==> c[i].suit == Jihai
    then Some(YakuResult(Tsuuiisou, 13, true)) else None
  }

  method CheckTsuuiisou(c: seq<Group>) returns (r: Option<YakuResult>)
    ensures r == TsuuiisouSpec(c)
  {
    if c == [] {
      return None;
    }
    var i := 0;
    while i < |c|
      invariant 0 <= i <= |c|
      invariant forall j :: 0 <= j < i ==> c[j].suit == Jihai
    {
      if !IsHonor(c[i].suit) {
        return None;
      }
      i := i + 1;
    }
    return Some(YakuResult(Tsuuiisou, 13, true));
  }

  /** The green tiles: 2, 3, 4, 6, 8 of bamboo and the green dragon. */
  predicate Green(s: Suit, r: int)
  {
    (s == Souzu && (r == 2 || r == 3 || r == 4 || r == 6 || r == 8)) || (s == Jihai && r == 6)
  }

  predicate GreenGroup(g: Group)
  {
    if g.kind == Sequence then Green(g.suit, g.rank) && Green(g.suit, g.rank + 1) && Green(g.suit, g.rank + 2)
    else Green(g.suit, g.rank)
  }

  function RyuuiisouSpec(c: seq<Group>): Option<YakuResult>
  {
    if c != [] && forall i :: 0 <= i < |c| ==> GreenGroup(c[i])
    then Some(YakuResult(Ryuuiisou, 13, true)) else None
  }

  method CheckRyuuiisou(c: seq<Group>) returns (r: Option<YakuResult>)
    ensures r == RyuuiisouSpec(c)
  {
    if c == [] {
      return None;
    }
    var i := 0;
    while i < |c|
      invariant 0 <= i <= |c|
      invariant forall j :: 0 <= j < i ==> GreenGroup(c[j])
    {
      var g := c[i];
      if g.kind == Sequence {
        var k := 0;
        while k < 3
          invariant 0 <= k <= 3
          invariant forall q :: g.rank <= q < g.rank + k ==> Green(g.suit, q)
        {
          if !Green(g.suit, g.rank + k) {
            return None;
          }
          k := k + 1;
        }
      } else if g.kind == Triplet || g.kind == Kan || g.kind == Pair {
        if !Green(g.suit, g.rank) {
          return None;
        }
      }
      i := i + 1;
    }
    return Some(YakuResult(Ryuuiisou, 13, true));
  }

  /** The only green sequence is 2-3-4 of bamboo. */
  lemma GreenSequence(g: Group)
    requires g.kind == Sequence && GreenGroup(g)
    ensures g == Group(Sequence, Souzu, 2)
  {
  }
}
