/** Scoring patterns (yaku), their verdicts, wait shapes, and the counting
    vocabulary the pattern checks share. */
module YakuTypes {
  import opened Tiles
  import opened Wrappers

  datatype Yaku =
    | Riichi | Ippatsu | MenzenTsumo | Tanyao | Pinfu | Iipeikou | Ryanpeikou
    | Toitoi | Sanankou | Sankantsu | SanshokuDoujun | SanshokuDoukou | Ittsu
    | Honitsu | Chinitsu | Junchan | Chanta | Honroutou | Shousangen
    | Daisangen | Suuankou | SuuankouTanki | Suukantsu | Shousuushi | Daisuushi
    | Chinroutou | Tsuuiisou | Ryuuiisou | ChuurenPoutou | ChuurenPoutouPure
    | KokushiMusou | KokushiMusouJuusanmen | Tenhou | Chihou | Renhou
    | Haitei | Houtei | Rinshan | Chiitoitsu | Haku | Hatsu | Chun
    | RoundWindEast | RoundWindSouth | RoundWindWest | RoundWindNorth
    | SeatWindEast | SeatWindSouth | SeatWindWest | SeatWindNorth

  /** A pattern verdict: which pattern, its weight, and whether it is a
      maximal (yakuman) pattern. */
  datatype YakuResult = YakuResult(yaku: Yaku, han: nat, isYakuman: bool)

  datatype WaitingType = Ryanmen | Penchan | Kanchan | Tanki | Shabo

  /** What the pattern checks read from a hand: its concealed tiles and two
      flags.  The hand's own decomposition logic is not part of this model;
      decompositions arrive as group lists. */
  datatype HandView = HandView(tiles: seq<Tile>, concealed: bool, riichi: bool)

  /** The zero-or-one element list of an optional verdict. */
  function Listed(o: Option<YakuResult>): (s: seq<YakuResult>)
    ensures |s| <= 1
    ensures o.Some? ==> s == [o.value]
    ensures o.None? <==> s == []
  {
    if o.Some? then [o.value] else []
  }

  /** Number of groups of c satisfying p. */
  function CountWhere(c: seq<Group>, p: Group -> bool): (n: nat)
    ensures n <= |c|
    ensures n == 0 <==> forall i :: 0 <= i < |c| ==> !p(c[i])
  {
    if c == [] then 0
    else CountWhere(c[..|c| - 1], p) + (if p(c[|c| - 1]) then 1 else 0)
  }

  lemma CountWhereStep(c: seq<Group>, i: nat, p: Group -> bool)
    requires i < |c|
    ensures CountWhere(c[..i + 1], p) == CountWhere(c[..i], p) + (if p(c[i]) then 1 else 0)
  {
    assert c[..i + 1][..i] == c[..i];
  }

  predicate IsKan(g: Group) { g.kind == Kan }
  predicate IsTriplet(g: Group) { g.kind == Triplet }
  predicate IsSequence(g: Group) { g.kind == Sequence }
  predicate IsPair(g: Group) { g.kind == Pair }

  /** A triplet or a quad, the group kinds that carry a set bonus. */
  predicate IsSet(g: Group) { g.kind == Triplet || g.kind == Kan }

  predicate IsDragonSet(g: Group) { IsSet(g) && g.suit == Jihai && IsDragonRank(g.rank) }
  predicate IsDragonPair(g: Group) { g.kind == Pair && g.suit == Jihai && IsDragonRank(g.rank) }
  predicate IsWindSet(g: Group) { IsSet(g) && g.suit == Jihai && IsWindRank(g.rank) }
  predicate IsWindPair(g: Group) { g.kind == Pair && g.suit == Jihai && IsWindRank(g.rank) }

  /** Some group of c satisfies p. */
  predicate Any(c: seq<Group>, p: Group -> bool)
  {
    exists i :: 0 <= i < |c| && p(c[i])
  }

  lemma AnyStep(c: seq<Group>, i: nat, p: Group -> bool)
    requires i < |c|
    ensures Any(c[..i + 1], p) <==> Any(c[..i], p) || p(c[i])
  {
    var next := c[..i + 1];
    assert next[i] == c[i];
    if Any(c[..i], p) {
      var j :| 0 <= j < i && p(c[..i][j]);
      assert next[j] == c[..i][j];
    }
    if Any(next, p) {
      var j :| 0 <= j < i + 1 && p(next[j]);
      if j < i {
        assert c[..i][j] == next[j];
      }
    }
  }

  /** A sequence of suit s starting at rank r occurs in c. */
  predicate HasSequence(c: seq<Group>, s: Suit, r: int)
  {
    exists i :: 0 <= i < |c| && c[i] == Group(Sequence, s, r)
  }

  /** A triplet of suit s and rank r occurs in c. */
  predicate HasTriplet(c: seq<Group>, s: Suit, r: int)
  {
    exists i :: 0 <= i < |c| && c[i] == Group(Triplet, s, r)
  }

  /** The number suits used by the groups of c. */
  function NumberSuits(c: seq<Group>): (ss: set<Suit>)
    ensures Jihai !in ss
    ensures forall s :: s in ss <==> s != Jihai && exists i :: 0 <= i < |c| && c[i].suit == s
  {
    set i | 0 <= i < |c| && c[i].suit != Jihai :: c[i].suit
  }

  /** Number of occurrences of k in s. */
  function Occurrences<K(==,!new)>(s: seq<K>, k: K): (n: nat)
    ensures n <= |s|
    ensures n > 0 <==> k in s
  {
    if s == [] then 0 else Occurrences(s[..|s| - 1], k) + (if s[|s| - 1] == k then 1 else 0)
  }

  /** The occurrence tally of s as a map from element to count. */
  function Tally<K(==,!new)>(s: seq<K>): (m: map<K, nat>)
  {
    if s == [] then map[]
    else
      var m := Tally(s[..|s| - 1]);
      var x := s[|s| - 1];
      m[x := (if x in m then m[x] else 0) + 1]
  }

  /** The tally holds exactly the elements of s, each with its number of
      occurrences. */
  lemma {:induction false} TallyMembers<K(!new)>(s: seq<K>, k: K)
    ensures k in Tally(s) <==> k in s
    ensures k in Tally(s) ==> Tally(s)[k] == Occurrences(s, k)
  {
    if s != [] {
      var init := s[..|s| - 1];
      TallyMembers(init, k);
      assert s == init + [s[|s| - 1]];
      assert k in s <==> k in init || k == s[|s| - 1];
    }
  }

  lemma TallyMeaning<K(!new)>(s: seq<K>)
    ensures forall k :: k in Tally(s) <==> k in s
    ensures forall k :: k in Tally(s) ==> Tally(s)[k] == Occurrences(s, k)
  {
    forall k {
      TallyMembers(s, k);
    }
  }

  /** Builds the tally of s one element at a time. */
  method TallyOf<K(==,!new)>(s: seq<K>) returns (counts: map<K, nat>)
    ensures counts == Tally(s)
  {
    counts := map[];
    var i := 0;
    while i < |s|
      invariant 0 <= i <= |s|
      invariant counts == Tally(s[..i])
    {
      assert s[..i + 1][..i] == s[..i];
      var x := s[i];
      counts := counts[x := (if x in counts then counts[x] else 0) + 1];
      i := i + 1;
    }
    assert s[..|s|] == s;
  }

  /** The keys that occur at least twice. */
  function Repeated<K(==,!new)>(s: seq<K>): set<K>
  {
    set k | k in s && Occurrences(s, k) >= 2
  }

  lemma {:induction false} OccurrencesPrefix<K(!new)>(s: seq<K>, i: nat, k: K)
    requires i <= |s|
    ensures Occurrences(s[..i], k) <= Occurrences(s, k)
    decreases |s| - i
  {
    if i < |s| {
      OccurrencesPrefix(s, i + 1, k);
      assert s[..i + 1][..i] == s[..i];
    } else {
      assert s[..i] == s;
    }
  }

  lemma TallyStep<K(!new)>(s: seq<K>, i: nat)
    requires i < |s|
    ensures Tally(s[..i + 1]) == Tally(s[..i])[s[i] := (if s[i] in Tally(s[..i]) then Tally(s[..i])[s[i]] else 0) + 1]
  {
    assert s[..i + 1][..i] == s[..i];
    assert s[..i + 1][i] == s[i];
  }
}
