/** The pattern checks that read the fourteen tiles of a winning hand
    rather than a group decomposition: seven pairs, thirteen orphans and
    nine gates.  Tiles are tallied by kind (suit and rank). */
module YakuTiles {
  import opened Tiles
  import opened Wrappers
  import opened Config
  import opened YakuTypes

  type Kind = (Suit, int)

  function KindOf(t: Tile): Kind
  {
    (t.suit, t.rank)
  }

  /** The kinds of the tiles, in order. */
  function KindsOf(ts: seq<Tile>): (ks: seq<Kind>)
    ensures |ks| == |ts|
    ensures forall i :: 0 <= i < |ts| ==> ks[i] == KindOf(ts[i])
  {
    seq(|ts|, i requires 0 <= i < |ts| => KindOf(ts[i]))
  }

  /** The tiles the tile-count checks read: the hand plus the winning tile
      when the hand holds thirteen, the hand alone otherwise. */
  function AllTiles(h: HandView, t: Tile): (ts: seq<Tile>)
    ensures |h.tiles| == 13 ==> |ts| == 14 && ts[13] == t
    ensures |h.tiles| != 13 ==> ts == h.tiles
  {
    if |h.tiles| == 13 then h.tiles + [t] else h.tiles
  }

  /** Tallies the kinds of ts one tile at a time. */
  method KindTally(ts: seq<Tile>) returns (counts: map<Kind, nat>)
    ensures counts == Tally(KindsOf(ts))
  {
    var ks := KindsOf(ts);
    counts := map[];
    var i := 0;
    while i < |ts|
      invariant 0 <= i <= |ts|
      invariant counts == Tally(ks[..i])
    {
      TallyStep(ks, i);
      var key := (ts[i].suit, ts[i].rank);
      assert ks[i] == key;
      counts := counts[key := (if key in counts then counts[key] else 0) + 1];
      i := i + 1;
    }
    assert ks[..|ts|] == ks;
  }

  // ---------------------------------------------------------------------
  // Seven pairs

  /** The kinds occurring exactly twice. */
  function Doubled(ks: seq<Kind>): set<Kind>
  {
    set k | k in ks && Occurrences(ks, k) == 2
  }

  function ChiitoitsuSpec(h: HandView, ts: seq<Tile>): Option<YakuResult>
  {
    var ks := KindsOf(ts);
    if h.concealed && |ts| == 14 && (forall k :: k in ks ==> Occurrences(ks, k) <= 2) && |Doubled(ks)| == 7
    then Some(YakuResult(Chiitoitsu, 2, false)) else None
  }

  method CheckChiitoitsu(h: HandView, ts: seq<Tile>) returns (r: Option<YakuResult>)
    ensures r == ChiitoitsuSpec(h, ts)
  {
    if !h.concealed || |ts| != 14 {
      return None;
    }
    var ok, counts := TallyAtMostPairs(ts);
    if !ok {
      return None;
    }
    var pairs := set k | k in counts && counts[k] == 2;
    DoubledOfTally(KindsOf(ts));
    r := if |pairs| != 7 then None else Some(YakuResult(Chiitoitsu, 2, false));
  }

  /** The seven-pairs scan over the kinds ks, in order: the tally so far,
      or None once some kind is seen a third time. */
  function ScanPairs(ks: seq<Kind>): Option<map<Kind, nat>>
  {
    if ks == [] then Some(map[])
    else
      match ScanPairs(ks[..|ks| - 1])
      case None => None
      case Some(m) =>
        var x := ks[|ks| - 1];
        var n := (if x in m then m[x] else 0) + 1;
        if n > 2 then None else Some(m[x := n])
  }

  /** The scan succeeds exactly when no kind occurs more than twice, and
      then it yields the tally. */
  lemma {:induction false} ScanPairsMeaning(ks: seq<Kind>)
    ensures ScanPairs(ks).Some? <==> forall k :: k in ks ==> Occurrences(ks, k) <= 2
    ensures ScanPairs(ks).Some? ==> ScanPairs(ks).value == Tally(ks)
  {
    if ks != [] {
      var init := ks[..|ks| - 1];
      var x := ks[|ks| - 1];
      ScanPairsMeaning(init);
      assert ks == init + [x];
      if ScanPairs(init).Some? {
        var m := ScanPairs(init).value;
        var n := (if x in m then m[x] else 0) + 1;
        TallyMembers(init, x);
        assert n == Occurrences(ks, x);
        if n <= 2 {
          assert Tally(ks) == m[x := n];
          forall k | k in ks
            ensures Occurrences(ks, k) <= 2
          {
            if k != x {
              assert k in init;
            }
          }
        }
      } else {
        var k :| k in init && Occurrences(init, k) > 2;
        assert k in ks && Occurrences(ks, k) > 2;
      }
    }
  }

  /** Once the scan has failed on a prefix it fails on the whole. */
  lemma {:induction false} ScanPairsFailureStays(ks: seq<Kind>, j: nat)
    requires j <= |ks| && ScanPairs(ks[..j]).None?
    ensures ScanPairs(ks).None?
    decreases |ks| - j
  {
    if j < |ks| {
      assert ks[..j + 1][..j] == ks[..j];
      ScanPairsFailureStays(ks, j + 1);
    } else {
      assert ks[..j] == ks;
    }
  }

  /** The seven-pairs tally: the kinds of ts counted one tile at a time,
      stopping (ok false) at the first kind seen a third time. */
  method TallyAtMostPairs(ts: seq<Tile>) returns (ok: bool, counts: map<Kind, nat>)
    ensures ok <==> forall k :: k in KindsOf(ts) ==> Occurrences(KindsOf(ts), k) <= 2
    ensures ok ==> counts == Tally(KindsOf(ts))
  {
    ghost var ks := KindsOf(ts);
    counts := map[];
    var i := 0;
    while i < |ts|
      invariant 0 <= i <= |ts|
      invariant ScanPairs(ks[..i]) == Some(counts)
    {
      var key := (ts[i].suit, ts[i].rank);
      assert ks[..i + 1][..i] == ks[..i];
      assert ks[..i + 1][i] == key;
      var n := (if key in counts then counts[key] else 0) + 1;
      if n > 2 {
        ScanPairsFailureStays(ks, i + 1);
        ScanPairsMeaning(ks);
        return false, counts;
      }
      counts := counts[key := n];
      i := i + 1;
    }
    assert ks[..|ts|] == ks;
    ScanPairsMeaning(ks);
    return true, counts;
  }

  /** The kinds the tally counts twice are the doubled kinds. */
  lemma DoubledOfTally(ks: seq<Kind>)
    ensures (set k | k in Tally(ks) && Tally(ks)[k] == 2) == Doubled(ks)
  {
    TallyMeaning(ks);
  }

  // ---------------------------------------------------------------------
  // Thirteen orphans

  /** The thirteen terminal and honor kinds. */
  const RequiredKinds: seq<Kind> :=
    [(Manzu, 1), (Manzu, 9), (Pinzu, 1), (Pinzu, 9), (Souzu, 1), (Souzu, 9),
     (Jihai, 1), (Jihai, 2), (Jihai, 3), (Jihai, 4), (Jihai, 5), (Jihai, 6), (Jihai, 7)]

  lemma RequiredKindsAreTerminalOrHonor(k: Kind)
    ensures k in RequiredKinds <==> IsTerminalOrHonor(k.0, k.1) && (k.0 == Jihai ==> 1 <= k.1 <= 7)
  {
  }

  /** Kinds present that are required and doubled. */
  function DoubledRequired(ks: seq<Kind>): set<Kind>
  {
    set k | k in ks && k in RequiredKinds && Occurrences(ks, k) == 2
  }

  /** Every required kind present, nothing else present, exactly one
      required kind held twice. */
  predicate KokushiShape(h: HandView, ts: seq<Tile>)
  {
    var ks := KindsOf(ts);
    h.concealed && |ts| == 14
    && (forall k :: k in RequiredKinds ==> k in ks)
    && (forall k :: k in ks ==> k in RequiredKinds)
    && |DoubledRequired(ks)| == 1
  }

  /** The scan over the tallied kinds: fails on a kind outside the
      thirteen, otherwise counts the required kinds held twice. */
  method ScanKokushiKinds(counts: map<Kind, nat>) returns (onlyRequired: bool, pairs: nat)
    ensures onlyRequired <==> forall k :: k in counts ==> k in RequiredKinds
    ensures onlyRequired ==> pairs == |set k | k in counts && k in RequiredKinds && counts[k] == 2|
  {
    pairs := 0;
    var keys := counts.Keys;
    ghost var found: set<Kind> := {};
    while keys != {}
      invariant keys <= counts.Keys
      invariant found <= counts.Keys - keys
      invariant forall k :: k in counts.Keys - keys ==> k in RequiredKinds
      invariant forall k :: k in counts.Keys - keys ==> (k in found <==> counts[k] == 2)
      invariant pairs == |found|
      decreases |keys|
    {
      var k :| k in keys;
      if k in RequiredKinds && counts[k] == 2 {
        pairs := pairs + 1;
        found := found + {k};
      } else if k !in RequiredKinds {
        return false, pairs;
      }
      keys := keys - {k};
    }
    assert found == set k | k in counts && k in RequiredKinds && counts[k] == 2;
    return true, pairs;
  }

  method CheckKokushiShape(h: HandView, ts: seq<Tile>) returns (b: bool)
    ensures b == KokushiShape(h, ts)
  {
    if !h.concealed || |ts| != 14 {
      return false;
    }
    ghost var ks := KindsOf(ts);
    var counts := KindTally(ts);
    TallyMeaning(ks);
    var hasAll := true;
    var q := 0;
    while q < |RequiredKinds|
      invariant 0 <= q <= |RequiredKinds|
      invariant forall j :: 0 <= j < q ==> RequiredKinds[j] in counts
    {
      if RequiredKinds[q] !in counts || counts[RequiredKinds[q]] == 0 {
        hasAll := false;
        break;
      }
      q := q + 1;
    }
    if !hasAll {
      return false;
    }
    var onlyRequired, pairs := ScanKokushiKinds(counts);
    if !onlyRequired {
      return false;
    }
    assert (set k | k in counts && k in RequiredKinds && counts[k] == 2) == DoubledRequired(ks);
    return pairs == 1;
  }

  function KokushiSpec(h: HandView, ts: seq<Tile>): Option<YakuResult>
  {
    if KokushiShape(h, ts) then Some(YakuResult(KokushiMusou, 13, true)) else None
  }

  // ---------------------------------------------------------------------
  // Nine gates

  lemma SingletonSet<T>(s: set<T>, x: T)
    requires |s| == 1 && x in s
    ensures s == {x}
  {
    assert |s - {x}| == 0;
  }

  /** The ranks of the tiles, in order. */
  function RanksOf(ts: seq<Tile>): (rs: seq<int>)
    ensures |rs| == |ts|
    ensures forall i :: 0 <= i < |ts| ==> rs[i] == ts[i].rank
  {
    seq(|ts|, i requires 0 <= i < |ts| => ts[i].rank)
  }

  function SuitsOf(ts: seq<Tile>): set<Suit>
  {
    set i | 0 <= i < |ts| :: ts[i].suit
  }

  /** One number suit throughout, at least three 1s and three 9s, at least
      one of each of 2..8. */
  predicate ChuurenShape(h: HandView, ts: seq<Tile>)
  {
    h.concealed && |ts| == 14 && SingleNumberSuited(ts) && NineGatesMinimum(RanksOf(ts))
  }

  predicate SingleNumberSuited(ts: seq<Tile>)
  {
    (forall i :: 0 <= i < |ts| ==> ts[i].suit != Jihai) && |SuitsOf(ts)| == 1
  }

  predicate NineGatesMinimum(rs: seq<int>)
  {
    Occurrences(rs, 1) >= 3 && Occurrences(rs, 9) >= 3 && (forall r :: 2 <= r <= 8 ==> Occurrences(rs, r) >= 1)
  }

  /** Some rank 1..9 is held four times. */
  predicate HasQuadRank(rs: seq<int>)
  {
    exists r :: 1 <= r <= 9 && Occurrences(rs, r) == 4
  }

  function ChuurenSpec(h: HandView, ts: seq<Tile>, cfg: RulesConfig): Option<YakuResult>
  {
    if !ChuurenShape(h, ts) then None
    else if HasQuadRank(RanksOf(ts))
    then Some(YakuResult(ChuurenPoutouPure, if cfg.chuurenPureDouble then 26 else 13, true))
    else Some(YakuResult(ChuurenPoutou, 13, true))
  }

  /** The suit check: no honor tile, and a single number suit. */
  method SingleNumberSuit(ts: seq<Tile>) returns (o: Option<Suit>)
    ensures o.Some? <==> SingleNumberSuited(ts)
    ensures o.Some? ==> forall i :: 0 <= i < |ts| ==> ts[i].suit == o.value
  {
    var suits: set<Suit> := {};
    var i := 0;
    while i < |ts|
      invariant 0 <= i <= |ts|
      invariant suits == set j | 0 <= j < i :: ts[j].suit
      invariant forall j :: 0 <= j < i ==> ts[j].suit != Jihai
    {
      if ts[i].suit != Jihai {
        suits := suits + {ts[i].suit};
      } else {
        return None;
      }
      i := i + 1;
    }
    if |suits| != 1 {
      return None;
    }
    var suit :| suit in suits;
    SingletonSet(suits, suit);
    assert forall j :: 0 <= j < |ts| ==> ts[j].suit in suits;
    return Some(suit);
  }

  method CheckChuuren(h: HandView, ts: seq<Tile>, cfg: RulesConfig) returns (res: Option<YakuResult>)
    ensures res == ChuurenSpec(h, ts, cfg)
  {
    if !h.concealed || |ts| != 14 {
      return None;
    }
    var suit := SingleNumberSuit(ts);
    if suit.None? {
      return None;
    }
    // Every tile has the single suit, so the per-suit rank tally is the
    // tally of all ranks and its total is the number of tiles.
    var rs := RanksOf(ts);
    var counts := TallyOf(rs);
    var total := |ts|;
    var hasMinimum := HasNineGatesMinimum(counts);
    MinimumByOccurrences(rs);
    if !hasMinimum {
      return None;
    }
    if total != 14 {
      return None;
    }
    assert ChuurenShape(h, ts);
    var quad := FindQuadRank(rs, counts);
    if quad {
      if cfg.chuurenPureDouble {
        return Some(YakuResult(ChuurenPoutouPure, 26, true));
      } else {
        return Some(YakuResult(ChuurenPoutouPure, 13, true));
      }
    }
    return Some(YakuResult(ChuurenPoutou, 13, true));
  }

  /** The scan of ranks 1..9 for one held four times. */
  method FindQuadRank(rs: seq<int>, counts: map<int, nat>) returns (found: bool)
    requires counts == Tally(rs)
    ensures found == HasQuadRank(rs)
  {
    var r := 1;
    while r <= 9
      invariant 1 <= r <= 10
      invariant forall q :: 1 <= q < r ==> Occurrences(rs, q) != 4
    {
      TallyLookup(rs, r);
      if (if r in counts then counts[r] else 0) == 4 {
        return true;
      }
      r := r + 1;
    }
    return false;
  }

  /** At least three 1s and three 9s and one each of 2..8 in a rank tally. */
  method HasNineGatesMinimum(counts: map<int, nat>) returns (ok: bool)
    ensures ok <==> (forall q :: 1 <= q <= 9 ==> q in counts && counts[q] >= MinimumCount(q))
  {
    var r := 1;
    while r <= 9
      invariant 1 <= r <= 10
      invariant forall q :: 1 <= q < r ==> q in counts && counts[q] >= MinimumCount(q)
    {
      var need := if r == 1 || r == 9 then 3 else 1;
      if r !in counts || counts[r] < need {
        return false;
      }
      r := r + 1;
    }
    return true;
  }

  function MinimumCount(q: int): nat
  {
    if q == 1 || q == 9 then 3 else 1
  }

  lemma TallyLookup(rs: seq<int>, r: int)
    ensures (if r in Tally(rs) then Tally(rs)[r] else 0) == Occurrences(rs, r)
  {
    TallyMembers(rs, r);
  }

  lemma MinimumByOccurrences(rs: seq<int>)
    ensures (forall q :: 1 <= q <= 9 ==> q in Tally(rs) && Tally(rs)[q] >= MinimumCount(q))
        <==> NineGatesMinimum(rs)
  {
    var m := Tally(rs);
    forall q | 1 <= q <= 9
      ensures (q in m && m[q] >= MinimumCount(q)) <==> Occurrences(rs, q) >= MinimumCount(q)
    {
      TallyLookup(rs, q);
    }
  }
}
