/** The point calculator: structural points (fu), pattern weight (han),
    the tier table that turns them into a base value, and the split of
    that value between the paying seats. */
module Scoring {
  import opened Tiles
  import opened Wrappers
  import opened GameState
  import opened Config
  import opened YakuTypes
  import opened YakuGroups

  // ---------------------------------------------------------------------
  // Arithmetic

  function Pow2(n: nat): (p: nat)
    ensures p >= 1
  {
    if n == 0 then 1 else 2 * Pow2(n - 1)
  }

  lemma {:induction false} Pow2Monotone(m: nat, n: nat)
    requires m <= n
    ensures Pow2(m) <= Pow2(n)
  {
    if m < n {
      Pow2Monotone(m, n - 1);
    }
  }

  /** x rounded up to the next multiple of ten. */
  function RoundUp10(x: nat): (r: nat)
    ensures r % 10 == 0
    ensures x <= r < x + 10
  {
    (x + 9) / 10 * 10
  }

  lemma RoundUp10Monotone(x: nat, y: nat)
    requires x <= y
    ensures RoundUp10(x) <= RoundUp10(y)
  {
  }

  // ---------------------------------------------------------------------
  // Tier table

  /** The (han, fu) pairs promoted to a full hand by the round-up rule. */
  predicate KiriageCase(han: nat, fu: nat)
  {
    (han == 4 && fu == 30) || (han == 3 && fu == 60)
  }

  /** The tiers pay a fixed value; outside them the value is computed. */
  predicate Computed(han: nat, fu: nat, isYakuman: bool, kiriage: bool)
  {
    !isYakuman && han < 5 && !(han == 4 && fu >= 40) && !(kiriage && KiriageCase(han, fu))
  }

  /** fu times 2 to the power han + 2. */
  function FuBase(han: nat, fu: nat): nat
  {
    fu * Pow2(han + 2)
  }

  function TierTotal(han: nat, fu: nat, isYakuman: bool, yakumanCount: nat, kiriage: bool): nat
  {
    if isYakuman then 8000 * yakumanCount
    else if han >= 13 then 8000
    else if han >= 11 then 6000
    else if han >= 8 then 4000
    else if han >= 6 then 3000
    else if han >= 5 || (han == 4 && fu >= 40) then 2000
    else if kiriage && KiriageCase(han, fu) then 2000
    else RoundUp10(FuBase(han, fu))
  }

  /** The tier table row by row. */
  lemma TierTable(han: nat, fu: nat, yakumanCount: nat, kiriage: bool)
    ensures TierTotal(han, fu, true, yakumanCount, kiriage) == 8000 * yakumanCount
    ensures han >= 13 ==> TierTotal(han, fu, false, yakumanCount, kiriage) == 8000
    ensures 11 <= han < 13 ==> TierTotal(han, fu, false, yakumanCount, kiriage) == 6000
    ensures 8 <= han < 11 ==> TierTotal(han, fu, false, yakumanCount, kiriage) == 4000
    ensures 6 <= han < 8 ==> TierTotal(han, fu, false, yakumanCount, kiriage) == 3000
    ensures (han == 5 || (han == 4 && fu >= 40)) ==> TierTotal(han, fu, false, yakumanCount, kiriage) == 2000
  {
  }

  /** The round-up rule decides the two borderline rows. */
  lemma KiriageRows(yakumanCount: nat)
    ensures TierTotal(4, 30, false, yakumanCount, true) == 2000
    ensures TierTotal(3, 60, false, yakumanCount, true) == 2000
    ensures TierTotal(4, 30, false, yakumanCount, false) == 1920
    ensures TierTotal(3, 60, false, yakumanCount, false) == 1920
  {
  }

  /** Outside the tiers the value is fu * 2^(han+2) rounded up to ten;
      every value the table yields is a multiple of ten. */
  lemma TierTotalComputed(han: nat, fu: nat, isYakuman: bool, yakumanCount: nat, kiriage: bool)
    ensures TierTotal(han, fu, isYakuman, yakumanCount, kiriage) % 10 == 0
    ensures Computed(han, fu, isYakuman, kiriage) ==>
              FuBase(han, fu) <= TierTotal(han, fu, isYakuman, yakumanCount, kiriage) < FuBase(han, fu) + 10
    ensures TierTotal(3, 30, false, yakumanCount, kiriage) == 960
  {
    if isYakuman {
      assert 8000 * yakumanCount == 10 * (800 * yakumanCount);
    } else if Computed(han, fu, isYakuman, kiriage) {
      assert TierTotal(han, fu, isYakuman, yakumanCount, kiriage) == RoundUp10(FuBase(han, fu));
    }
    assert FuBase(3, 30) == 960 by {
      assert Pow2(5) == 32;
    }
  }

  // ---------------------------------------------------------------------
  // Payments

  /** The payment fields as the split sets them. */
  datatype Split = Split(dealerPayment: int, nonDealerPayment: int, totalPoints: int, honbaBonus: int, riichiSticksBonus: int)

  /** The split of a base value: 300 per counter, 1000 per deposit stick to
      the winner; on a self-draw each seat pays the base plus the counters,
      the dealer twice that when a non-dealer wins; on a discard win the
      discarder's payment is the whole value. */
  function Payments(base: int, isTsumo: bool, paymentTo: int, gs: State): Split
  {
    var honba := gs.honba * 300;
    var sticks := gs.riichiSticks * 1000;
    if isTsumo then
      var perPerson := base + honba;
      if paymentTo == gs.dealer then Split(perPerson, 0, perPerson * 3 + sticks, honba, sticks)
      else Split(2 * perPerson, perPerson, 2 * perPerson + perPerson * 2 + sticks, honba, sticks)
    else Split(0, 0, base + honba + sticks, honba, sticks)
  }

  /** What the winner collects, in terms of the base value and the table
      bonuses: from the discarder alone, from three seats on a dealer
      self-draw, and from a dealer paying double and two seats on a
      non-dealer self-draw. */
  lemma PaymentTotals(base: int, isTsumo: bool, paymentTo: int, gs: State)
    ensures var p := Payments(base, isTsumo, paymentTo, gs);
            p.honbaBonus == 300 * gs.honba && p.riichiSticksBonus == 1000 * gs.riichiSticks
            && (!isTsumo ==> p.dealerPayment == 0 && p.nonDealerPayment == 0
                             && p.totalPoints == base + 300 * gs.honba + 1000 * gs.riichiSticks)
            && (isTsumo && paymentTo == gs.dealer ==>
                  p.nonDealerPayment == 0 && p.dealerPayment == base + 300 * gs.honba
                  && p.totalPoints == 3 * p.dealerPayment + p.riichiSticksBonus)
            && (isTsumo && paymentTo != gs.dealer ==>
                  p.dealerPayment == 2 * p.nonDealerPayment && p.nonDealerPayment == base + 300 * gs.honba
                  && p.totalPoints == p.dealerPayment + 2 * p.nonDealerPayment + p.riichiSticksBonus)
  {
  }

  /** A non-dealer's self-draw collects four times what a discard win on
      the same base collects from the discarder, less the sticks. */
  lemma TsumoCollectsFourfold(base: int, paymentTo: int, gs: State)
    requires paymentTo != gs.dealer
    ensures Payments(base, true, paymentTo, gs).totalPoints - 1000 * gs.riichiSticks
            == 4 * (Payments(base, false, paymentTo, gs).totalPoints - 1000 * gs.riichiSticks)
  {
  }

  // ---------------------------------------------------------------------
  // The result record

  class ScoreResult {
    var han: nat
    var fu: nat
    var basePoints: int
    var totalPoints: int
    var paymentFrom: int
    var paymentTo: int
    var isYakuman: bool
    var yakumanCount: nat
    var isTsumo: bool
    var dealerPayment: int
    var nonDealerPayment: int
    var honbaBonus: int
    var riichiSticksBonus: int
    var kiriageManganEnabled: bool

    /** The record's fields, then the tier table assigns the total (and,
        outside the tiers, the base).  The computed value is capped at a
        full hand (see CappedTierTotal). */
    constructor (han: nat, fu: nat, basePoints: int, totalPoints: int, paymentFrom: int, paymentTo: int,
                 isYakuman: bool, yakumanCount: nat, isTsumo: bool, kiriageManganEnabled: bool)
      ensures this.han == han && this.fu == fu && this.paymentFrom == paymentFrom && this.paymentTo == paymentTo
      ensures this.isYakuman == isYakuman && this.yakumanCount == yakumanCount && this.isTsumo == isTsumo
      ensures this.kiriageManganEnabled == kiriageManganEnabled
      ensures this.dealerPayment == 0 && this.nonDealerPayment == 0
      ensures this.honbaBonus == 0 && this.riichiSticksBonus == 0
      ensures this.totalPoints == CappedTierTotal(han, fu, isYakuman, yakumanCount, kiriageManganEnabled)
      ensures this.basePoints == if Computed(han, fu, isYakuman, kiriageManganEnabled) then FuBase(han, fu) else basePoints
    {
      this.han := han;
      this.fu := fu;
      this.basePoints := basePoints;
      this.paymentFrom := paymentFrom;
      this.paymentTo := paymentTo;
      this.isYakuman := isYakuman;
      this.yakumanCount := yakumanCount;
      this.isTsumo := isTsumo;
      this.dealerPayment := 0;
      this.nonDealerPayment := 0;
      this.honbaBonus := 0;
      this.riichiSticksBonus := 0;
      this.kiriageManganEnabled := kiriageManganEnabled;
      new;
      if isYakuman {
        this.totalPoints := 8000 * yakumanCount;
      } else if han >= 13 {
        this.totalPoints := 8000;
      } else if han >= 11 {
        this.totalPoints := 6000;
      } else if han >= 8 {
        this.totalPoints := 4000;
      } else if han >= 6 {
        this.totalPoints := 3000;
      } else if han >= 5 || (han == 4 && fu >= 40) {
        this.totalPoints := 2000;
      } else if kiriageManganEnabled && ((han == 4 && fu == 30) || (han == 3 && fu == 60)) {
        this.totalPoints := 2000;
      } else {
        var base := fu * Pow2(han + 2);
        this.basePoints := base;
        var rounded := (base + 9) / 10 * 10;
        this.totalPoints := if rounded > 2000 then 2000 else rounded;
      }
    }

    /** Splits the total between the paying seats for the recorded payee. */
    method CalculatePayments(gs: State)
      modifies this
      ensures var p := Payments(old(totalPoints), isTsumo, paymentTo, gs);
              dealerPayment == p.dealerPayment && nonDealerPayment == p.nonDealerPayment
              && totalPoints == p.totalPoints && honbaBonus == p.honbaBonus && riichiSticksBonus == p.riichiSticksBonus
      ensures han == old(han) && fu == old(fu) && basePoints == old(basePoints)
      ensures paymentFrom == old(paymentFrom) && paymentTo == old(paymentTo)
      ensures isYakuman == old(isYakuman) && yakumanCount == old(yakumanCount) && isTsumo == old(isTsumo)
      ensures kiriageManganEnabled == old(kiriageManganEnabled)
    {
      honbaBonus := gs.honba * 300;
      riichiSticksBonus := gs.riichiSticks * 1000;
      var basePayment := totalPoints;
      if isTsumo {
        var perPerson := basePayment + honbaBonus;
        if paymentTo == gs.dealer {
          dealerPayment := perPerson;
          nonDealerPayment := 0;
          totalPoints := perPerson * 3 + riichiSticksBonus;
        } else {
          dealerPayment := 2 * perPerson;
          nonDealerPayment := perPerson;
          totalPoints := dealerPayment + nonDealerPayment * 2 + riichiSticksBonus;
        }
      } else {
        dealerPayment := 0;
        nonDealerPayment := 0;
        totalPoints := basePayment + honbaBonus + riichiSticksBonus;
      }
    }
  }

  // ---------------------------------------------------------------------
  // Pattern weight

  /** Sum of the han of the results. */
  function HanSum(rs: seq<YakuResult>): nat
  {
    if rs == [] then 0 else HanSum(rs[..|rs| - 1]) + rs[|rs| - 1].han
  }

  lemma {:induction false} HanSumConcat(a: seq<YakuResult>, b: seq<YakuResult>)
    ensures HanSum(a + b) == HanSum(a) + HanSum(b)
  {
    if b != [] {
      assert (a + b)[..|a + b| - 1] == a + b[..|b| - 1];
      assert (a + b)[|a + b| - 1] == b[|b| - 1];
      HanSumConcat(a, b[..|b| - 1]);
    } else {
      assert a + b == a;
    }
  }

  /** The han of the results plus one per bonus tile. */
  function CalculateHan(rs: seq<YakuResult>, doraCount: nat): (han: nat)
    ensures han >= doraCount
    ensures forall i :: 0 <= i < |rs| ==> han >= rs[i].han + doraCount
  {
    HanSumBound(rs);
    HanSum(rs) + doraCount
  }

  lemma {:induction false} HanSumBound(rs: seq<YakuResult>)
    ensures forall i :: 0 <= i < |rs| ==> HanSum(rs) >= rs[i].han
  {
    if rs != [] {
      HanSumBound(rs[..|rs| - 1]);
      assert forall i :: 0 <= i < |rs| - 1 ==> rs[..|rs| - 1][i] == rs[i];
    }
  }

  /** Number of maximal-flagged results (not their han). */
  function YakumanCount(rs: seq<YakuResult>): (n: nat)
    ensures n <= |rs|
    ensures n == 0 <==> forall i :: 0 <= i < |rs| ==> !rs[i].isYakuman
  {
    if rs == [] then 0 else YakumanCount(rs[..|rs| - 1]) + (if rs[|rs| - 1].isYakuman then 1 else 0)
  }

  predicate HasYakuman(rs: seq<YakuResult>)
  {
    exists i :: 0 <= i < |rs| && rs[i].isYakuman
  }

  predicate HasYaku(rs: seq<YakuResult>, y: Yaku)
  {
    exists i :: 0 <= i < |rs| && rs[i].yaku == y
  }

  // ---------------------------------------------------------------------
  // Wait shape and pair as the calculator reads them

  /** The first pair of the decomposition. */
  function ExtractPair(c: seq<Group>): (r: Option<Group>)
    ensures r.Some? ==> r.value.kind == Pair && r.value in c
    ensures r.Some? ==> exists i :: 0 <= i < |c| && c[i] == r.value && forall j :: 0 <= j < i ==> c[j].kind != Pair
    ensures r.None? <==> forall i :: 0 <= i < |c| ==> c[i].kind != Pair
  {
    if c == [] then None
    else if c[0].kind == Pair then Some(c[0])
    else
      var rest := ExtractPair(c[1..]);
      if rest.Some? then
        assert forall j :: 1 <= j < |c| ==> c[1..][j - 1] == c[j];
        rest
      else None
  }

  /** The calculator's wait classification: a first pair of the winning
      tile is a single wait; otherwise the first sequence holding the tile
      decides: its middle is a closed wait, its ends an edge wait when the
      sequence starts at 1 or ends at 9 and a two-sided wait otherwise. */
  function ScoringWait(t: Tile, c: seq<Group>): (w: WaitingType)
    ensures w != Shabo
  {
    if c == [] then Ryanmen
    else if ExtractPair(c).Some? && PairOf(ExtractPair(c).value, t) then Tanki
    else
      var f := FirstSequenceHolding(c, t);
      if f.None? then Ryanmen
      else
        var g := c[f.value];
        if t.rank - g.rank == 1 then Kanchan
        else if g.rank == 1 || g.rank + 2 == 9 then Penchan
        else Ryanmen
  }

  /** The cases of the classification, pair first. */
  lemma ScoringWaitCases(t: Tile, c: seq<Group>)
    ensures c != [] && ExtractPair(c).Some? && PairOf(ExtractPair(c).value, t) ==> ScoringWait(t, c) == Tanki
    ensures (c == [] || ExtractPair(c).None? || !PairOf(ExtractPair(c).value, t)) && FirstSequenceHolding(c, t).None?
            ==> ScoringWait(t, c) == Ryanmen
    ensures forall i :: (c != [] && (ExtractPair(c).None? || !PairOf(ExtractPair(c).value, t))
                         && FirstSequenceHolding(c, t) == Some(i)) ==>
              (ScoringWait(t, c) == Kanchan <==> t.rank == c[i].rank + 1)
              && (ScoringWait(t, c) == Penchan <==> t.rank != c[i].rank + 1 && (c[i].rank == 1 || c[i].rank == 7))
  {
  }

  /** On the middle tile of the first sequence holding it, with no pair of
      that tile, the calculator and the pattern checker both read a closed
      wait. */
  lemma WaitClassifiersOnMiddle(t: Tile, c: seq<Group>, i: nat)
    requires FirstSequenceHolding(c, t) == Some(i) && t.rank == c[i].rank + 1
    requires forall j :: 0 <= j < |c| ==> !PairOf(c[j], t)
    ensures ScoringWait(t, c) == Kanchan && YakuWait(t, c) == Kanchan
  {
  }

  // ---------------------------------------------------------------------
  // Structural points

  /** Set points of one group: triplets 8 or 4, quads 32 or 16, by whether
      the tile is a terminal or honor. */
  function GroupFu(g: Group): (f: nat)
    ensures f <= 32
    ensures f > 0 <==> IsSet(g)
  {
    if g.kind == Triplet then (if IsTerminalOrHonor(g.suit, g.rank) then 8 else 4)
    else if g.kind == Kan then (if IsTerminalOrHonor(g.suit, g.rank) then 32 else 16)
    else 0
  }

  function SetFu(c: seq<Group>): (f: nat)
    ensures f <= 32 * |c|
  {
    if c == [] then 0 else SetFu(c[..|c| - 1]) + GroupFu(c[|c| - 1])
  }

  /** Pair points: honor pairs earn 2 for a dragon, 2 for the round wind,
      2 for the seat wind. */
  function PairFu(p: Option<Group>, gs: State, position: nat): (f: nat)
    ensures f <= 6
    ensures f > 0 ==> p.Some? && p.value.suit == Jihai
  {
    if p.None? || p.value.suit != Jihai then 0
    else
      var r := p.value.rank;
      (if r == 5 || r == 6 || r == 7 then 2 else 0)
      + (if WindRank(gs.roundWind) == r then 2 else 0)
      + (if position < |gs.playerWinds| && WindRank(gs.playerWinds[position]) == r then 2 else 0)
  }

  function WaitFu(w: WaitingType): nat
  {
    if w == Tanki || w == Penchan || w == Kanchan then 2 else 0
  }

  /** The points before rounding on the general path. */
  function RawFu(h: HandView, t: Tile, c: seq<Group>, gs: State, isTsumo: bool, position: nat): nat
  {
    20
    + (if h.concealed && !isTsumo then 10 else if isTsumo then 2 else 0)
    + SetFu(c)
    + PairFu(ExtractPair(c), gs, position)
    + WaitFu(ScoringWait(t, c))
  }

  function FuSpec(h: HandView, t: Tile, c: seq<Group>, rs: seq<YakuResult>, gs: State, isTsumo: bool, position: nat): nat
  {
    if HasYaku(rs, Chiitoitsu) then 25
    else if HasYaku(rs, Pinfu) then (if isTsumo then 30 else 20)
    else RoundUp10(RawFu(h, t, c, gs, isTsumo, position))
  }

  method CalculateFu(h: HandView, t: Tile, c: seq<Group>, rs: seq<YakuResult>, gs: State, isTsumo: bool, position: nat)
    returns (fu: nat)
    ensures fu == FuSpec(h, t, c, rs, gs, isTsumo, position)
  {
    if HasYaku(rs, Chiitoitsu) {
      return 25;
    }
    if HasYaku(rs, Pinfu) {
      return if isTsumo then 30 else 20;
    }
    fu := 20;
    if h.concealed && !isTsumo {
      fu := fu + 10;
    } else if isTsumo {
      fu := fu + 2;
    }
    ghost var start := fu;
    var i := 0;
    while i < |c|
      invariant 0 <= i <= |c|
      invariant fu == start + SetFu(c[..i])
    {
      assert c[..i + 1][..i] == c[..i];
      var g := c[i];
      if g.kind == Triplet {
        fu := fu + if IsTerminalOrHonor(g.suit, g.rank) then 8 else 4;
      } else if g.kind == Kan {
        fu := fu + if IsTerminalOrHonor(g.suit, g.rank) then 32 else 16;
      }
      i := i + 1;
    }
    assert c[..|c|] == c;
    ghost var beforePair := fu;
    var pair := ExtractPair(c);
    if pair.Some? {
      var p := pair.value;
      if p.suit == Jihai {
        if p.rank == 5 || p.rank == 6 || p.rank == 7 {
          fu := fu + 2;
        }
        if WindRank(gs.roundWind) == p.rank {
          fu := fu + 2;
        }
        if position < |gs.playerWinds| && WindRank(gs.playerWinds[position]) == p.rank {
          fu := fu + 2;
        }
      }
    }
    assert fu == beforePair + PairFu(pair, gs, position);
    var wait := ScoringWait(t, c);
    if wait == Tanki || wait == Penchan || wait == Kanchan {
      fu := fu + 2;
    }
    assert fu == RawFu(h, t, c, gs, isTsumo, position);
    fu := RoundUp10(fu);
  }

  /** The fixed values of the two special shapes. */
  lemma FuSpecialShapes(h: HandView, t: Tile, c: seq<Group>, rs: seq<YakuResult>, gs: State, isTsumo: bool, position: nat)
    ensures HasYaku(rs, Chiitoitsu) ==> FuSpec(h, t, c, rs, gs, isTsumo, position) == 25
    ensures !HasYaku(rs, Chiitoitsu) && HasYaku(rs, Pinfu) ==> FuSpec(h, t, c, rs, gs, isTsumo, position) == (if isTsumo then 30 else 20)
  {
  }

  /** On the general path the points are a multiple of ten, at least 20,
      and bounded by the number of groups. */
  lemma FuGeneralPath(h: HandView, t: Tile, c: seq<Group>, rs: seq<YakuResult>, gs: State, isTsumo: bool, position: nat)
    requires !HasYaku(rs, Chiitoitsu) && !HasYaku(rs, Pinfu)
    ensures FuSpec(h, t, c, rs, gs, isTsumo, position) % 10 == 0
    ensures FuSpec(h, t, c, rs, gs, isTsumo, position) >= 20
    ensures FuSpec(h, t, c, rs, gs, isTsumo, position) <= 50 + 32 * |c|
  {
  }

  /** A set of a terminal or honor is worth twice the same set of simples. */
  lemma {:induction false} SetFuEven(c: seq<Group>)
    ensures SetFu(c) % 4 == 0
  {
    if c != [] {
      SetFuEven(c[..|c| - 1]);
    }
  }

  // ---------------------------------------------------------------------
  // The calculation

  /** Points, weight and payments for a win.  The record is split for the
      payee it holds when the split runs, which is seat 0: the caller sets
      the winner afterwards. */
  method Calculate(h: HandView, t: Tile, c: seq<Group>, rs: seq<YakuResult>, doraCount: nat, gs: State,
                   isTsumo: bool, position: nat) returns (r: ScoreResult)
    ensures fresh(r)
    ensures r.fu == FuSpec(h, t, c, rs, gs, isTsumo, position)
    ensures r.han == CalculateHan(rs, doraCount)
    ensures r.isYakuman == HasYakuman(rs) && r.yakumanCount == YakumanCount(rs) && r.isTsumo == isTsumo
    ensures r.paymentTo == 0 && r.paymentFrom == 0
    ensures var p := Payments(CappedTierTotal(r.han, r.fu, r.isYakuman, r.yakumanCount, gs.ruleset.kiriageMangan), isTsumo, 0, gs);
            r.totalPoints == p.totalPoints && r.dealerPayment == p.dealerPayment && r.nonDealerPayment == p.nonDealerPayment
  {
    var fu := CalculateFu(h, t, c, rs, gs, isTsumo, position);
    var han := CalculateHan(rs, doraCount);
    var isYakuman := HasYakuman(rs);
    var yakumanCount := YakumanCount(rs);
    r := new ScoreResult(han, fu, 0, 0, 0, 0, isYakuman, yakumanCount, isTsumo, gs.ruleset.kiriageMangan);
    r.CalculatePayments(gs);
  }

  // ---------------------------------------------------------------------
  // Corrections

  /** The calculation with the winner recorded as payee before the split. */
  method CalculateForWinner(h: HandView, t: Tile, c: seq<Group>, rs: seq<YakuResult>, doraCount: nat, gs: State,
                            isTsumo: bool, position: nat) returns (r: ScoreResult)
    ensures fresh(r)
    ensures r.fu == FuSpec(h, t, c, rs, gs, isTsumo, position)
    ensures r.han == CalculateHan(rs, doraCount)
    ensures r.paymentTo == position
    ensures var p := Payments(CappedTierTotal(r.han, r.fu, r.isYakuman, r.yakumanCount, gs.ruleset.kiriageMangan), isTsumo, position, gs);
            r.totalPoints == p.totalPoints && r.dealerPayment == p.dealerPayment && r.nonDealerPayment == p.nonDealerPayment
  {
    var fu := CalculateFu(h, t, c, rs, gs, isTsumo, position);
    var han := CalculateHan(rs, doraCount);
    var isYakuman := HasYakuman(rs);
    var yakumanCount := YakumanCount(rs);
    r := new ScoreResult(han, fu, 0, 0, 0, position, isYakuman, yakumanCount, isTsumo, gs.ruleset.kiriageMangan);
    r.CalculatePayments(gs);
  }

  /** With the dealer in seat 0, a self-draw by seat 1 at 30 fu 1 han is
      split as a dealer win (three payments of 240) instead of the dealer
      paying 480 and the others 240 each. */
  lemma SplitUsesSeatZero(gs: State)
    requires gs.dealer == 0 && gs.honba == 0 && gs.riichiSticks == 0
    ensures CappedTierTotal(1, 30, false, 0, gs.ruleset.kiriageMangan) == 240
    ensures Payments(240, true, 0, gs) == Split(240, 0, 720, 0, 0)
    ensures Payments(240, true, 1, gs) == Split(480, 240, 960, 0, 0)
  {
  }

  /** A non-dealer self-draw split for the winner collects four times the
      per-seat share, the dealer paying two of them. */
  lemma WinnerSplitNonDealer(base: int, winner: int, gs: State)
    requires winner != gs.dealer
    ensures var p := Payments(base, true, winner, gs);
            p.totalPoints == 4 * (base + 300 * gs.honba) + 1000 * gs.riichiSticks
            && p.dealerPayment == 2 * (base + 300 * gs.honba)
  {
  }

  /** Outside the tiers no cap applies: 3 han 70 fu is worth more than
      4 han 70 fu, which is a full hand. */
  lemma ThreeHanOutscoresFour(kiriage: bool)
    ensures TierTotal(3, 70, false, 0, kiriage) == 2240
    ensures TierTotal(4, 70, false, 0, kiriage) == 2000
  {
  }

  /** The tier table with the computed value capped at a full hand. */
  function CappedTierTotal(han: nat, fu: nat, isYakuman: bool, yakumanCount: nat, kiriage: bool): (total: nat)
    ensures total % 10 == 0
    ensures !isYakuman && han <= 5 ==> total <= 2000
  {
    TierTotalComputed(han, fu, isYakuman, yakumanCount, kiriage);
    var t := TierTotal(han, fu, isYakuman, yakumanCount, kiriage);
    if Computed(han, fu, isYakuman, kiriage) && t > 2000 then 2000 else t
  }

  /** The cap changes only computed values above a full hand. */
  lemma CapOnlyAboveFullHand(han: nat, fu: nat, isYakuman: bool, yakumanCount: nat, kiriage: bool)
    ensures !Computed(han, fu, isYakuman, kiriage) ==>
              CappedTierTotal(han, fu, isYakuman, yakumanCount, kiriage) == TierTotal(han, fu, isYakuman, yakumanCount, kiriage)
    ensures TierTotal(han, fu, isYakuman, yakumanCount, kiriage) <= 2000 ==>
              CappedTierTotal(han, fu, isYakuman, yakumanCount, kiriage) == TierTotal(han, fu, isYakuman, yakumanCount, kiriage)
    ensures Computed(han, fu, isYakuman, kiriage) && TierTotal(han, fu, isYakuman, yakumanCount, kiriage) > 2000 ==>
              CappedTierTotal(han, fu, isYakuman, yakumanCount, kiriage) == 2000
  {
  }

  /** Without a maximal pattern, a computed value is capped at a full
      hand and every tier value is at least a full hand. */
  lemma CappedShape(han: nat, fu: nat, kiriage: bool)
    ensures Computed(han, fu, false, kiriage) ==>
              CappedTierTotal(han, fu, false, 0, kiriage) == if RoundUp10(FuBase(han, fu)) > 2000 then 2000 else RoundUp10(FuBase(han, fu))
    ensures !Computed(han, fu, false, kiriage) ==>
              2000 <= CappedTierTotal(han, fu, false, 0, kiriage) == TierTotal(han, fu, false, 0, kiriage)
  {
  }

  /** More han doubles the base value at least as often. */
  lemma FuBaseMonotone(h1: nat, h2: nat, fu: nat)
    requires h1 <= h2
    ensures FuBase(h1, fu) <= FuBase(h2, fu)
  {
    Pow2Monotone(h1 + 2, h2 + 2);
    MulMonotone(fu, Pow2(h1 + 2), Pow2(h2 + 2));
  }

  lemma MulMonotone(a: nat, b: nat, c: nat)
    requires b <= c
    ensures a * b <= a * c
  {
  }

  /** With the cap, more han never pays less on the same fu. */
  lemma {:induction false} CappedTierMonotone(h1: nat, h2: nat, fu: nat, kiriage: bool)
    requires h1 <= h2
    ensures CappedTierTotal(h1, fu, false, 0, kiriage) <= CappedTierTotal(h2, fu, false, 0, kiriage)
  {
    CappedShape(h1, fu, kiriage);
    CappedShape(h2, fu, kiriage);
    if Computed(h1, fu, false, kiriage) && Computed(h2, fu, false, kiriage) {
      FuBaseMonotone(h1, h2, fu);
      RoundUp10Monotone(FuBase(h1, fu), FuBase(h2, fu));
    } else if !Computed(h1, fu, false, kiriage) {
      assert !Computed(h2, fu, false, kiriage);
      assert TierTotal(h1, fu, false, 0, kiriage) <= TierTotal(h2, fu, false, 0, kiriage);
    }
  }
}
