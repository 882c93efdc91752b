/** The pattern checker's entry point: the context flags, the order in
    which the checks run and override each other, and the removal of
    conflicting patterns. */
module YakuChecker {
  import opened Tiles
  import opened Wrappers
  import opened GameState
  import opened Config
  import opened YakuTypes
  import opened YakuGroups
  import opened YakuTiles

  /** The circumstances of a win that the hand itself does not record. */
  datatype WinContext = WinContext(
    isTsumo: bool,
    turnsAfterRiichi: int,  // -1 when not tracked
    isFirstTurn: bool,
    isLastTile: bool,
    position: nat,
    isRinshan: bool)

  // ---------------------------------------------------------------------
  // Flag patterns

  function RiichiYaku(h: HandView): (r: Option<YakuResult>)
    ensures r.Some? <==> h.riichi
    ensures r.Some? ==> r.value == YakuResult(Riichi, 1, false)
  {
    if h.riichi then Some(YakuResult(Riichi, 1, false)) else None
  }

  /** One-shot: declared riichi and a win within the first go-around; an
      untracked (negative) count never qualifies. */
  function IppatsuYaku(h: HandView, turnsAfterRiichi: int): (r: Option<YakuResult>)
    ensures r.Some? <==> h.riichi && turnsAfterRiichi == 0
    ensures r.Some? ==> r.value == YakuResult(Ippatsu, 1, false)
  {
    if !h.riichi then None
    else if turnsAfterRiichi < 0 then None
    else if turnsAfterRiichi == 0 then Some(YakuResult(Ippatsu, 1, false))
    else None
  }

  function MenzenTsumoYaku(h: HandView, isTsumo: bool): (r: Option<YakuResult>)
    ensures r.Some? <==> h.concealed && isTsumo
    ensures r.Some? ==> r.value == YakuResult(MenzenTsumo, 1, false)
  {
    if !h.concealed then None
    else if isTsumo then Some(YakuResult(MenzenTsumo, 1, false)) else None
  }

  /** Last-tile win: by self-draw from the wall, or on the last discard. */
  function HaiteiYaku(isTsumo: bool, isLastTile: bool): (r: Option<YakuResult>)
    ensures r.Some? <==> isLastTile
    ensures r.Some? ==> r.value == YakuResult(if isTsumo then Haitei else Houtei, 1, false)
  {
    if !isLastTile then None
    else if isTsumo then Some(YakuResult(Haitei, 1, false))
    else Some(YakuResult(Houtei, 1, false))
  }

  function RinshanYaku(isRinshan: bool): (r: Option<YakuResult>)
    ensures r.Some? <==> isRinshan
    ensures r.Some? ==> r.value == YakuResult(Rinshan, 1, false)
  {
    if isRinshan then Some(YakuResult(Rinshan, 1, false)) else None
  }

  /** Dealer's concealed self-draw win on the first turn. */
  function TenhouYaku(h: HandView, isTsumo: bool, isFirstTurn: bool, position: int, gs: State): (r: Option<YakuResult>)
    ensures r.Some? <==> position == gs.dealer && isFirstTurn && isTsumo && h.concealed
    ensures r.Some? ==> r.value == YakuResult(Tenhou, 13, true)
  {
    if position != gs.dealer then None
    else if !isFirstTurn then None
    else if !isTsumo then None
    else if h.concealed then Some(YakuResult(Tenhou, 13, true)) else None
  }

  /** A non-dealer's concealed self-draw win on the first turn. */
  function ChihouYaku(h: HandView, isTsumo: bool, isFirstTurn: bool, position: int, gs: State): (r: Option<YakuResult>)
    ensures r.Some? <==> position != gs.dealer && isFirstTurn && isTsumo && h.concealed
    ensures r.Some? ==> r.value == YakuResult(Chihou, 13, true)
  {
    if position == gs.dealer then None
    else if !isFirstTurn then None
    else if !isTsumo then None
    else if h.concealed then Some(YakuResult(Chihou, 13, true)) else None
  }

  /** A non-dealer's concealed win on a discard in the first turn, weighted
      by the configured policy. */
  function RenhouYaku(h: HandView, isTsumo: bool, isFirstTurn: bool, position: int, gs: State): (r: Option<YakuResult>)
    ensures r.Some? <==> gs.ruleset.renhouPolicy != RenhouOff && position != gs.dealer
                         && isFirstTurn && !isTsumo && h.concealed
    ensures r.Some? && gs.ruleset.renhouPolicy == RenhouYakuman ==> r.value == YakuResult(Renhou, 13, true)
    ensures r.Some? && gs.ruleset.renhouPolicy == RenhouTwoHan ==> r.value == YakuResult(Renhou, 2, false)
  {
    var policy := gs.ruleset.renhouPolicy;
    if policy == RenhouOff then None
    else if position == gs.dealer then None
    else if !isFirstTurn then None
    else if isTsumo then None
    else if !h.concealed then None
    else if policy == RenhouYakuman then Some(YakuResult(Renhou, 13, true))
    else Some(YakuResult(Renhou, 2, false))
  }

  /** At most one of the three first-turn wins can fire. */
  lemma FirstTurnWinsExclusive(h: HandView, isTsumo: bool, isFirstTurn: bool, position: int, gs: State)
    ensures !(TenhouYaku(h, isTsumo, isFirstTurn, position, gs).Some? && ChihouYaku(h, isTsumo, isFirstTurn, position, gs).Some?)
    ensures !(TenhouYaku(h, isTsumo, isFirstTurn, position, gs).Some? && RenhouYaku(h, isTsumo, isFirstTurn, position, gs).Some?)
    ensures !(ChihouYaku(h, isTsumo, isFirstTurn, position, gs).Some? && RenhouYaku(h, isTsumo, isFirstTurn, position, gs).Some?)
  {
  }

  // ---------------------------------------------------------------------
  // Conflict removal

  /** The set of patterns named in a result list. */
  function YakuSet(rs: seq<YakuResult>): (ys: set<Yaku>)
    ensures forall i :: 0 <= i < |rs| ==> rs[i].yaku in ys
    ensures forall y :: y in ys ==> exists i :: 0 <= i < |rs| && rs[i].yaku == y
  {
    set i | 0 <= i < |rs| :: rs[i].yaku
  }

  /** Pattern y is dropped when the patterns of `present` occur beside it. */
  predicate Conflicts(y: Yaku, present: set<Yaku>)
  {
    (y == Toitoi && (SanshokuDoujun in present || Ittsu in present || Iipeikou in present || Ryanpeikou in present))
    || (y == Pinfu && (Haku in present || Hatsu in present || Chun in present || RoundWindEast in present
                       || RoundWindSouth in present || RoundWindWest in present || RoundWindNorth in present))
    || (y == Tanyao && (Ittsu in present || Junchan in present || Chanta in present
                        || Honroutou in present || Chinroutou in present))
    || (y == Iipeikou && Ryanpeikou in present)
    || (y == Chinitsu && Honitsu in present)
    || (y == Honitsu && Chinitsu in present)
    || (y == Junchan && Chanta in present)
    || (y == Chanta && Junchan in present)
    || (y == Pinfu && Toitoi in present)
    || (y == Toitoi && Pinfu in present)
    || (y == Pinfu && (Iipeikou in present || Ryanpeikou in present))
  }

  /** The entries of rs, in order, whose pattern does not conflict with
      `present`. */
  function KeepFree(rs: seq<YakuResult>, present: set<Yaku>): (kept: seq<YakuResult>)
    ensures |kept| <= |rs|
  {
    if rs == [] then []
    else
      KeepFree(rs[..|rs| - 1], present)
      + (if Conflicts(rs[|rs| - 1].yaku, present) then [] else [rs[|rs| - 1]])
  }

  /** An entry is kept exactly when it is one of rs and its pattern does
      not conflict with `present`. */
  lemma {:induction false} KeepFreeMembers(rs: seq<YakuResult>, present: set<Yaku>, r: YakuResult)
    ensures r in KeepFree(rs, present) <==> r in rs && !Conflicts(r.yaku, present)
  {
    if rs != [] {
      var init := rs[..|rs| - 1];
      var last := rs[|rs| - 1];
      KeepFreeMembers(init, present, r);
      assert rs == init + [last];
      assert r in rs <==> r in init || r == last;
    }
  }

  function Filter(rs: seq<YakuResult>): seq<YakuResult>
  {
    KeepFree(rs, YakuSet(rs))
  }

  method FilterConflicting(results: seq<YakuResult>) returns (filtered: seq<YakuResult>)
    ensures filtered == Filter(results)
  {
    filtered := [];
    var yakuSet := set i | 0 <= i < |results| :: results[i].yaku;
    var i := 0;
    while i < |results|
      invariant 0 <= i <= |results|
      invariant filtered == KeepFree(results[..i], yakuSet)
    {
      assert results[..i + 1][..i] == results[..i];
      var shouldInclude := ShouldInclude(results[i].yaku, yakuSet);
      if shouldInclude {
        filtered := filtered + [results[i]];
      }
      i := i + 1;
    }
    assert results[..|results|] == results;
  }

  /** The filter's tests for one pattern, in the source's order. */
  method ShouldInclude(y: Yaku, yakuSet: set<Yaku>) returns (shouldInclude: bool)
    ensures shouldInclude <==> !Conflicts(y, yakuSet)
  {
    shouldInclude := true;
    if y == Toitoi {
      if SanshokuDoujun in yakuSet || Ittsu in yakuSet || Iipeikou in yakuSet || Ryanpeikou in yakuSet {
        shouldInclude := false;
      }
    } else if y == Pinfu {
      if Haku in yakuSet || Hatsu in yakuSet || Chun in yakuSet || RoundWindEast in yakuSet
         || RoundWindSouth in yakuSet || RoundWindWest in yakuSet || RoundWindNorth in yakuSet
      {
        shouldInclude := false;
      }
    } else if y == Tanyao {
      if Ittsu in yakuSet || Junchan in yakuSet || Chanta in yakuSet || Honroutou in yakuSet || Chinroutou in yakuSet {
        shouldInclude := false;
      }
    }
    if y == Iipeikou && Ryanpeikou in yakuSet { shouldInclude := false; }
    if y == Chinitsu && Honitsu in yakuSet { shouldInclude := false; }
    if y == Honitsu && Chinitsu in yakuSet { shouldInclude := false; }
    if y == Junchan && Chanta in yakuSet { shouldInclude := false; }
    if y == Chanta && Junchan in yakuSet { shouldInclude := false; }
    if y == Pinfu && Toitoi in yakuSet { shouldInclude := false; }
    if y == Toitoi && Pinfu in yakuSet { shouldInclude := false; }
    if y == Pinfu && (Iipeikou in yakuSet || Ryanpeikou in yakuSet) { shouldInclude := false; }
  }

  /** idx embeds xs into ys in order. */
  predicate Embeds(idx: seq<nat>, xs: seq<YakuResult>, ys: seq<YakuResult>)
  {
    |idx| == |xs|
    && (forall k :: 0 <= k < |idx| ==> idx[k] < |ys| && xs[k] == ys[idx[k]])
    && (forall k, m :: 0 <= k < m < |idx| ==> idx[k] < idx[m])
  }

  /** The positions of rs that KeepFree retains. */
  function KeptPositions(rs: seq<YakuResult>, present: set<Yaku>): (idx: seq<nat>)
    ensures Embeds(idx, KeepFree(rs, present), rs)
  {
    if rs == [] then []
    else
      var init := rs[..|rs| - 1];
      var before := KeptPositions(init, present);
      EmbedsExtend(before, KeepFree(init, present), init, rs[|rs| - 1]);
      assert init + [rs[|rs| - 1]] == rs;
      if Conflicts(rs[|rs| - 1].yaku, present) then before
      else before + [|rs| - 1]
  }

  /** An embedding into ys stays one into ys + [y], and extends by y. */
  lemma EmbedsExtend(idx: seq<nat>, xs: seq<YakuResult>, ys: seq<YakuResult>, y: YakuResult)
    requires Embeds(idx, xs, ys)
    ensures Embeds(idx, xs, ys + [y])
    ensures Embeds(idx + [|ys|], xs + [y], ys + [y])
  {
    var zs := ys + [y];
    assert forall k :: 0 <= k < |idx| ==> zs[idx[k]] == ys[idx[k]];
  }

  /** The filter returns an order-preserving subsequence of its input. */
  lemma FilterSubsequence(rs: seq<YakuResult>)
    ensures exists idx :: Embeds(idx, Filter(rs), rs)
  {
    var idx := KeptPositions(rs, YakuSet(rs));
    assert Embeds(idx, Filter(rs), rs);
  }

  /** An entry survives exactly when nothing in the whole input conflicts
      with its pattern. */
  lemma FilterMembership(rs: seq<YakuResult>, r: YakuResult)
    ensures r in Filter(rs) <==> r in rs && !Conflicts(r.yaku, YakuSet(rs))
  {
    KeepFreeMembers(rs, YakuSet(rs), r);
  }

  /** Conflicts only grow with the set of patterns present. */
  lemma ConflictsMonotone(y: Yaku, small: set<Yaku>, large: set<Yaku>)
    requires small <= large
    ensures Conflicts(y, small) ==> Conflicts(y, large)
  {
  }

  /** Entries already free of conflicts with a larger set are all kept. */
  lemma {:induction false} KeepFreeKeepsAll(rs: seq<YakuResult>, present: set<Yaku>)
    requires forall i :: 0 <= i < |rs| ==> !Conflicts(rs[i].yaku, present)
    ensures KeepFree(rs, present) == rs
  {
    if rs != [] {
      var init := rs[..|rs| - 1];
      var last := rs[|rs| - 1];
      forall i | 0 <= i < |init|
        ensures !Conflicts(init[i].yaku, present)
      {
        assert init[i] == rs[i];
      }
      KeepFreeKeepsAll(init, present);
      assert !Conflicts(last.yaku, present);
      assert KeepFree(rs, present) == KeepFree(init, present) + [last];
      assert init + [last] == rs;
    }
  }

  /** Filtering twice removes nothing more. */
  lemma FilterIdempotent(rs: seq<YakuResult>)
    ensures Filter(Filter(rs)) == Filter(rs)
  {
    var f := Filter(rs);
    forall y | y in YakuSet(f)
      ensures y in YakuSet(rs)
    {
      var j :| 0 <= j < |f| && f[j].yaku == y;
      FilterMembership(rs, f[j]);
      var k :| 0 <= k < |rs| && rs[k] == f[j];
    }
    forall i | 0 <= i < |f|
      ensures !Conflicts(f[i].yaku, YakuSet(f))
    {
      assert f[i] in f;
      FilterMembership(rs, f[i]);
      ConflictsMonotone(f[i].yaku, YakuSet(f), YakuSet(rs));
    }
    KeepFreeKeepsAll(f, YakuSet(f));
  }

  /** Full and half flush, both listed, are both removed. */
  lemma FlushesBothDropped(rs: seq<YakuResult>)
    requires Chinitsu in YakuSet(rs) && Honitsu in YakuSet(rs)
    ensures forall r :: r in Filter(rs) ==> r.yaku != Chinitsu && r.yaku != Honitsu
  {
    forall r | r in Filter(rs)
      ensures r.yaku != Chinitsu && r.yaku != Honitsu
    {
      FilterMembership(rs, r);
    }
  }

  /** The exclusions the filter guarantees on its output. */
  lemma FilterExclusions(rs: seq<YakuResult>)
    ensures Ryanpeikou in YakuSet(rs) ==> forall r :: r in Filter(rs) ==> r.yaku != Iipeikou
    ensures (Haku in YakuSet(rs) || Hatsu in YakuSet(rs) || Chun in YakuSet(rs) || RoundWindEast in YakuSet(rs)
             || RoundWindSouth in YakuSet(rs) || RoundWindWest in YakuSet(rs) || RoundWindNorth in YakuSet(rs))
            ==> forall r :: r in Filter(rs) ==> r.yaku != Pinfu
    ensures (Ittsu in YakuSet(rs) || Junchan in YakuSet(rs) || Chanta in YakuSet(rs)
             || Honroutou in YakuSet(rs) || Chinroutou in YakuSet(rs))
            ==> forall r :: r in Filter(rs) ==> r.yaku != Tanyao
  {
    forall r | r in Filter(rs)
      ensures Ryanpeikou in YakuSet(rs) ==> r.yaku != Iipeikou
      ensures (Haku in YakuSet(rs) || Hatsu in YakuSet(rs) || Chun in YakuSet(rs) || RoundWindEast in YakuSet(rs)
               || RoundWindSouth in YakuSet(rs) || RoundWindWest in YakuSet(rs) || RoundWindNorth in YakuSet(rs))
              ==> r.yaku != Pinfu
      ensures (Ittsu in YakuSet(rs) || Junchan in YakuSet(rs) || Chanta in YakuSet(rs)
               || Honroutou in YakuSet(rs) || Chinroutou in YakuSet(rs))
              ==> r.yaku != Tanyao
    {
      FilterMembership(rs, r);
    }
  }

  // ---------------------------------------------------------------------
  // Composition

  /** The first-turn win, if any, in the order the checker tries them. */
  function FirstTurnWin(h: HandView, gs: State, ctx: WinContext): Option<YakuResult>
  {
    var tenhou := TenhouYaku(h, ctx.isTsumo, ctx.isFirstTurn, ctx.position, gs);
    var chihou := ChihouYaku(h, ctx.isTsumo, ctx.isFirstTurn, ctx.position, gs);
    var renhou := RenhouYaku(h, ctx.isTsumo, ctx.isFirstTurn, ctx.position, gs);
    if tenhou.Some? then tenhou else if chihou.Some? then chihou else renhou
  }

  /** The ordinary patterns in the order the checker lists them: the
      basic patterns, the value honors, the two- and three-han patterns,
      then the outside hands and the double double sequence. */
  function OrdinaryList(h: HandView, t: Tile, c: seq<Group>, gs: State, ctx: WinContext): seq<YakuResult>
  {
    BasicList(h, t, c, gs, ctx) + Yakuhai(c, gs, ctx.position) + MiddleList(h, c) + UpperList(h, c, gs.ruleset)
  }

  function BasicList(h: HandView, t: Tile, c: seq<Group>, gs: State, ctx: WinContext): seq<YakuResult>
  {
    Listed(RiichiYaku(h)) + Listed(IppatsuYaku(h, ctx.turnsAfterRiichi))
    + Listed(MenzenTsumoYaku(h, ctx.isTsumo)) + Listed(HaiteiYaku(ctx.isTsumo, ctx.isLastTile))
    + Listed(RinshanYaku(ctx.isRinshan)) + Listed(TanyaoSpec(c)) + Listed(IntendedPinfuSpec(h, c, gs, t))
    + Listed(IipeikouSpec(h, c)) + Listed(ToitoiSpec(c)) + Listed(SankantsuSpec(c))
  }

  function MiddleList(h: HandView, c: seq<Group>): seq<YakuResult>
  {
    Listed(SanshokuDoujunSpec(c)) + Listed(IttsuSpec(c)) + Listed(SanankouSpec(h, c))
    + Listed(ChinitsuSpec(c)) + Listed(HonitsuSpec(c)) + Listed(SanshokuDoukouSpec(c))
    + Listed(ShousangenSpec(c)) + Listed(HonroutouSpec(c))
  }

  function UpperList(h: HandView, c: seq<Group>, cfg: RulesConfig): seq<YakuResult>
  {
    Listed(JunchanSpec(h, c, cfg)) + Listed(ChantaSpec(h, c, cfg)) + Listed(RyanpeikouSpec(h, c))
  }

  /** The maximal patterns found on the decomposition and the tile multiset. */
  function YakumanList(h: HandView, t: Tile, c: seq<Group>, ts: seq<Tile>, cfg: RulesConfig): seq<YakuResult>
  {
    Listed(DaisangenSpec(c)) + Listed(SuukantsuSpec(c)) + Listed(SuuankouSpec(h, c, t, cfg))
    + Listed(ShousuushiSpec(c)) + Listed(DaisuushiSpec(c)) + Listed(ChinroutouSpec(c))
    + Listed(TsuuiisouSpec(c)) + Listed(RyuuiisouSpec(c)) + Listed(ChuurenSpec(h, ts, cfg))
  }

  /** Everything the checker reports for a win on tile t with decomposition c. */
  function CheckAllSpec(h: HandView, t: Tile, c: seq<Group>, gs: State, ctx: WinContext): seq<YakuResult>
  {
    var ts := AllTiles(h, t);
    var first := FirstTurnWin(h, gs, ctx);
    if first.Some? then [first.value]
    else if KokushiSpec(h, ts).Some? then
      var top := if KokushiShape(h, ts) then YakuResult(KokushiMusouJuusanmen, 26, true) else KokushiSpec(h, ts).value;
      Listed(RiichiYaku(h)) + [top]
    else if ChiitoitsuSpec(h, ts).Some? then
      Listed(RiichiYaku(h)) + [ChiitoitsuSpec(h, ts).value]
    else
      var yakuman := YakumanList(h, t, c, ts, gs.ruleset);
      if yakuman != [] then Listed(RiichiYaku(h)) + yakuman
      else Filter(OrdinaryList(h, t, c, gs, ctx))
  }

  method OrdinaryYaku(h: HandView, t: Tile, c: seq<Group>, gs: State, ctx: WinContext) returns (results: seq<YakuResult>)
    ensures results == OrdinaryList(h, t, c, gs, ctx)
  {
    var basic := BasicYaku(h, t, c, gs, ctx);
    var honors := CheckYakuhai(c, gs, ctx.position);
    var middle := MiddleYaku(h, c);
    var upper := UpperYaku(h, c, gs.ruleset);
    results := basic + honors + middle + upper;
  }

  method BasicYaku(h: HandView, t: Tile, c: seq<Group>, gs: State, ctx: WinContext) returns (results: seq<YakuResult>)
    ensures results == BasicList(h, t, c, gs, ctx)
  {
    results := Listed(RiichiYaku(h)) + Listed(IppatsuYaku(h, ctx.turnsAfterRiichi));
    results := results + Listed(MenzenTsumoYaku(h, ctx.isTsumo)) + Listed(HaiteiYaku(ctx.isTsumo, ctx.isLastTile));
    results := results + Listed(RinshanYaku(ctx.isRinshan));
    var r := CheckTanyao(c);
    results := results + Listed(r);
    r := CheckPinfu(h, c, gs, t);
    results := results + Listed(r);
    r := CheckIipeikou(h, c);
    results := results + Listed(r);
    r := CheckToitoi(c);
    results := results + Listed(r);
    r := CheckSankantsu(c);
    results := results + Listed(r);
  }

  method MiddleYaku(h: HandView, c: seq<Group>) returns (results: seq<YakuResult>)
    ensures results == MiddleList(h, c)
  {
    var r := CheckSanshokuDoujun(c);
    results := Listed(r);
    r := CheckIttsu(c);
    results := results + Listed(r);
    r := CheckSanankou(h, c);
    results := results + Listed(r);
    r := CheckChinitsu(c);
    results := results + Listed(r);
    r := CheckHonitsu(c);
    results := results + Listed(r);
    r := CheckSanshokuDoukou(c);
    results := results + Listed(r);
    r := CheckShousangen(c);
    results := results + Listed(r);
    r := CheckHonroutou(c);
    results := results + Listed(r);
  }

  method UpperYaku(h: HandView, c: seq<Group>, cfg: RulesConfig) returns (results: seq<YakuResult>)
    ensures results == UpperList(h, c, cfg)
  {
    var r := CheckJunchan(h, c, cfg);
    results := Listed(r);
    r := CheckChanta(h, c, cfg);
    results := results + Listed(r);
    r := CheckRyanpeikou(h, c);
    results := results + Listed(r);
  }

  method YakumanYaku(h: HandView, t: Tile, c: seq<Group>, ts: seq<Tile>, cfg: RulesConfig) returns (results: seq<YakuResult>)
    ensures results == YakumanList(h, t, c, ts, cfg)
  {
    var r := CheckDaisangen(c);
    results := Listed(r);
    r := CheckSuukantsu(c);
    results := results + Listed(r);
    r := CheckSuuankou(h, c, t, cfg);
    results := results + Listed(r);
    r := CheckShousuushi(c);
    results := results + Listed(r);
    r := CheckDaisuushi(c);
    results := results + Listed(r);
    r := CheckChinroutou(c);
    results := results + Listed(r);
    r := CheckTsuuiisou(c);
    results := results + Listed(r);
    r := CheckRyuuiisou(c);
    results := results + Listed(r);
    r := CheckChuuren(h, ts, cfg);
    results := results + Listed(r);
  }

  method CheckAll(h: HandView, t: Tile, c: seq<Group>, gs: State, ctx: WinContext) returns (results: seq<YakuResult>)
    ensures results == CheckAllSpec(h, t, c, gs, ctx)
  {
    var ts := AllTiles(h, t);
    var first := TenhouYaku(h, ctx.isTsumo, ctx.isFirstTurn, ctx.position, gs);
    if first.Some? {
      return [first.value];
    }
    first := ChihouYaku(h, ctx.isTsumo, ctx.isFirstTurn, ctx.position, gs);
    if first.Some? {
      return [first.value];
    }
    first := RenhouYaku(h, ctx.isTsumo, ctx.isFirstTurn, ctx.position, gs);
    if first.Some? {
      return [first.value];
    }
    var kokushi := CheckKokushiShape(h, ts);
    if kokushi {
      results := [YakuResult(KokushiMusou, 13, true)];
      var juusanmen := CheckKokushiShape(h, ts);
      if juusanmen {
        results := [YakuResult(KokushiMusouJuusanmen, 26, true)];
      }
      if h.riichi {
        results := [YakuResult(Riichi, 1, false)] + results;
      }
      return;
    }
    var seven := CheckChiitoitsu(h, ts);
    if seven.Some? {
      results := [seven.value];
      if h.riichi {
        results := [YakuResult(Riichi, 1, false)] + results;
      }
      return;
    }
    results := PatternYaku(h, t, c, ts, gs, ctx);
    PatternTail(h, t, c, gs, ctx);
  }

  /** The checker's tail once no special shape applies: the maximal
      patterns, after riichi when declared, win over the filtered ordinary
      ones. */
  method PatternYaku(h: HandView, t: Tile, c: seq<Group>, ts: seq<Tile>, gs: State, ctx: WinContext)
    returns (results: seq<YakuResult>)
    ensures results == PatternSpec(h, t, c, ts, gs, ctx)
  {
    var ordinary := OrdinaryYaku(h, t, c, gs, ctx);
    var yakuman := YakumanYaku(h, t, c, ts, gs.ruleset);
    if yakuman != [] {
      if h.riichi {
        yakuman := [YakuResult(Riichi, 1, false)] + yakuman;
      }
      return yakuman;
    }
    results := FilterConflicting(ordinary);
  }

  /** The maximal patterns, after riichi when declared, or else the
      filtered ordinary patterns. */
  function PatternSpec(h: HandView, t: Tile, c: seq<Group>, ts: seq<Tile>, gs: State, ctx: WinContext): seq<YakuResult>
  {
    var y := YakumanList(h, t, c, ts, gs.ruleset);
    if y != [] then Listed(RiichiYaku(h)) + y else Filter(OrdinaryList(h, t, c, gs, ctx))
  }

  /** Without a first-turn win, thirteen orphans or seven pairs, the
      report is decided by the maximal patterns alone. */
  lemma PatternTail(h: HandView, t: Tile, c: seq<Group>, gs: State, ctx: WinContext)
    requires FirstTurnWin(h, gs, ctx).None?
    requires !KokushiShape(h, AllTiles(h, t))
    requires ChiitoitsuSpec(h, AllTiles(h, t)).None?
    ensures var y := YakumanList(h, t, c, AllTiles(h, t), gs.ruleset);
            CheckAllSpec(h, t, c, gs, ctx) == if y != [] then Listed(RiichiYaku(h)) + y else Filter(OrdinaryList(h, t, c, gs, ctx))
    ensures CheckAllSpec(h, t, c, gs, ctx) == PatternSpec(h, t, c, AllTiles(h, t), gs, ctx)
  {
  }

  // ---------------------------------------------------------------------
  // Override order

  /** A first-turn win is reported alone. */
  lemma FirstTurnWinAlone(h: HandView, t: Tile, c: seq<Group>, gs: State, ctx: WinContext)
    requires TenhouYaku(h, ctx.isTsumo, ctx.isFirstTurn, ctx.position, gs).Some?
             || ChihouYaku(h, ctx.isTsumo, ctx.isFirstTurn, ctx.position, gs).Some?
             || RenhouYaku(h, ctx.isTsumo, ctx.isFirstTurn, ctx.position, gs).Some?
    ensures |CheckAllSpec(h, t, c, gs, ctx)| == 1
    ensures CheckAllSpec(h, t, c, gs, ctx)[0].yaku in {Tenhou, Chihou, Renhou}
  {
  }

  /** Thirteen orphans is always reported as its thirteen-sided form, after
      riichi when declared, because the thirteen-sided test repeats the
      shape test. */
  lemma KokushiAlwaysJuusanmen(h: HandView, t: Tile, c: seq<Group>, gs: State, ctx: WinContext)
    requires FirstTurnWin(h, gs, ctx).None?
    requires KokushiShape(h, AllTiles(h, t))
    ensures CheckAllSpec(h, t, c, gs, ctx)
            == (if h.riichi then [YakuResult(Riichi, 1, false)] else []) + [YakuResult(KokushiMusouJuusanmen, 26, true)]
  {
  }

  /** Seven pairs stands alone beside riichi. */
  lemma ChiitoitsuAlone(h: HandView, t: Tile, c: seq<Group>, gs: State, ctx: WinContext)
    requires FirstTurnWin(h, gs, ctx).None?
    requires !KokushiShape(h, AllTiles(h, t))
    requires ChiitoitsuSpec(h, AllTiles(h, t)).Some?
    ensures CheckAllSpec(h, t, c, gs, ctx)
            == (if h.riichi then [YakuResult(Riichi, 1, false)] else []) + [YakuResult(Chiitoitsu, 2, false)]
  {
  }

  /** Every entry of s carries the maximal flag f. */
  predicate Flagged(s: seq<YakuResult>, f: bool)
  {
    forall i :: 0 <= i < |s| ==> s[i].isYakuman == f
  }

  lemma FlaggedConcat(a: seq<YakuResult>, b: seq<YakuResult>, f: bool)
    requires Flagged(a, f) && Flagged(b, f)
    ensures Flagged(a + b, f)
  {
  }

  /** An optional result is absent or flagged f. */
  predicate FlaggedOption(o: Option<YakuResult>, f: bool)
  {
    o.Some? ==> o.value.isYakuman == f
  }

  /** Nine optional results, each absent or flagged f, list as flagged f. */
  lemma ListedNineFlagged(o1: Option<YakuResult>, o2: Option<YakuResult>, o3: Option<YakuResult>,
                          o4: Option<YakuResult>, o5: Option<YakuResult>, o6: Option<YakuResult>,
                          o7: Option<YakuResult>, o8: Option<YakuResult>, o9: Option<YakuResult>, f: bool)
    requires FlaggedOption(o1, f) && FlaggedOption(o2, f) && FlaggedOption(o3, f)
    requires FlaggedOption(o4, f) && FlaggedOption(o5, f) && FlaggedOption(o6, f)
    requires FlaggedOption(o7, f) && FlaggedOption(o8, f) && FlaggedOption(o9, f)
    ensures Flagged(Listed(o1) + Listed(o2) + Listed(o3) + Listed(o4) + Listed(o5)
                    + Listed(o6) + Listed(o7) + Listed(o8) + Listed(o9), f)
  {
    var a1, a2, a3 := Listed(o1), Listed(o2), Listed(o3);
    var a4, a5, a6 := Listed(o4), Listed(o5), Listed(o6);
    var a7, a8, a9 := Listed(o7), Listed(o8), Listed(o9);
    FlaggedConcat(a1, a2, f);
    FlaggedConcat(a1 + a2, a3, f);
    FlaggedConcat(a1 + a2 + a3, a4, f);
    FlaggedConcat(a1 + a2 + a3 + a4, a5, f);
    FlaggedConcat(a1 + a2 + a3 + a4 + a5, a6, f);
    FlaggedConcat(a1 + a2 + a3 + a4 + a5 + a6, a7, f);
    FlaggedConcat(a1 + a2 + a3 + a4 + a5 + a6 + a7, a8, f);
    FlaggedConcat(a1 + a2 + a3 + a4 + a5 + a6 + a7 + a8, a9, f);
  }

  /** Every maximal pattern found is flagged as such. */
  lemma YakumanListFlagged(h: HandView, t: Tile, c: seq<Group>, ts: seq<Tile>, cfg: RulesConfig)
    ensures Flagged(YakumanList(h, t, c, ts, cfg), true)
  {
    ListedNineFlagged(DaisangenSpec(c), SuukantsuSpec(c), SuuankouSpec(h, c, t, cfg),
                      ShousuushiSpec(c), DaisuushiSpec(c), ChinroutouSpec(c),
                      TsuuiisouSpec(c), RyuuiisouSpec(c), ChuurenSpec(h, ts, cfg), true);
  }

  /** No ordinary pattern is flagged as maximal. */
  lemma OrdinaryListUnflagged(h: HandView, t: Tile, c: seq<Group>, gs: State, ctx: WinContext)
    ensures Flagged(OrdinaryList(h, t, c, gs, ctx), false)
  {
    YakuhaiBound(c, gs, ctx.position);
    var basic := BasicList(h, t, c, gs, ctx);
    var honors := Yakuhai(c, gs, ctx.position);
    var middle := MiddleList(h, c);
    var upper := UpperList(h, c, gs.ruleset);
    BasicListUnflagged(h, t, c, gs, ctx);
    MiddleListUnflagged(h, c);
    UpperListUnflagged(h, c, gs.ruleset);
    FlaggedConcat(basic, honors, false);
    FlaggedConcat(basic + honors, middle, false);
    FlaggedConcat(basic + honors + middle, upper, false);
  }

  lemma BasicListUnflaggedPieces(h: HandView, t: Tile, c: seq<Group>, gs: State, ctx: WinContext)
    ensures Flagged(Listed(RiichiYaku(h)), false)
    ensures Flagged(Listed(IppatsuYaku(h, ctx.turnsAfterRiichi)), false)
    ensures Flagged(Listed(MenzenTsumoYaku(h, ctx.isTsumo)), false)
    ensures Flagged(Listed(HaiteiYaku(ctx.isTsumo, ctx.isLastTile)), false)
    ensures Flagged(Listed(RinshanYaku(ctx.isRinshan)), false)
    ensures Flagged(Listed(TanyaoSpec(c)), false)
    ensures Flagged(Listed(IntendedPinfuSpec(h, c, gs, t)), false)
    ensures Flagged(Listed(IipeikouSpec(h, c)), false)
    ensures Flagged(Listed(ToitoiSpec(c)), false)
    ensures Flagged(Listed(SankantsuSpec(c)), false)
  {
    ContextYakuUnflagged(h, ctx);
    PinfuUnflagged(h, c, gs, IntendedYakuWait(t, c));
    GroupYakuUnflagged(h, c);
  }

  lemma ContextYakuUnflagged(h: HandView, ctx: WinContext)
    ensures Flagged(Listed(RiichiYaku(h)), false)
    ensures Flagged(Listed(IppatsuYaku(h, ctx.turnsAfterRiichi)), false)
    ensures Flagged(Listed(MenzenTsumoYaku(h, ctx.isTsumo)), false)
    ensures Flagged(Listed(HaiteiYaku(ctx.isTsumo, ctx.isLastTile)), false)
    ensures Flagged(Listed(RinshanYaku(ctx.isRinshan)), false)
  {
  }

  lemma PinfuUnflagged(h: HandView, c: seq<Group>, gs: State, w: WaitingType)
    ensures Flagged(Listed(PinfuGiven(h, c, gs, w)), false)
  {
  }

  lemma GroupYakuUnflagged(h: HandView, c: seq<Group>)
    ensures Flagged(Listed(TanyaoSpec(c)), false)
    ensures Flagged(Listed(IipeikouSpec(h, c)), false)
    ensures Flagged(Listed(ToitoiSpec(c)), false)
    ensures Flagged(Listed(SankantsuSpec(c)), false)
  {
  }

  lemma BasicListUnflagged(h: HandView, t: Tile, c: seq<Group>, gs: State, ctx: WinContext)
    ensures Flagged(BasicList(h, t, c, gs, ctx), false)
  {
    BasicListUnflaggedPieces(h, t, c, gs, ctx);
    var s := Listed(RiichiYaku(h));
    FlaggedConcat(s, Listed(IppatsuYaku(h, ctx.turnsAfterRiichi)), false);
    s := s + Listed(IppatsuYaku(h, ctx.turnsAfterRiichi));
    FlaggedConcat(s, Listed(MenzenTsumoYaku(h, ctx.isTsumo)), false);
    s := s + Listed(MenzenTsumoYaku(h, ctx.isTsumo));
    FlaggedConcat(s, Listed(HaiteiYaku(ctx.isTsumo, ctx.isLastTile)), false);
    s := s + Listed(HaiteiYaku(ctx.isTsumo, ctx.isLastTile));
    FlaggedConcat(s, Listed(RinshanYaku(ctx.isRinshan)), false);
    s := s + Listed(RinshanYaku(ctx.isRinshan));
    FlaggedConcat(s, Listed(TanyaoSpec(c)), false);
    s := s + Listed(TanyaoSpec(c));
    FlaggedConcat(s, Listed(IntendedPinfuSpec(h, c, gs, t)), false);
    s := s + Listed(IntendedPinfuSpec(h, c, gs, t));
    FlaggedConcat(s, Listed(IipeikouSpec(h, c)), false);
    s := s + Listed(IipeikouSpec(h, c));
    FlaggedConcat(s, Listed(ToitoiSpec(c)), false);
    s := s + Listed(ToitoiSpec(c));
    FlaggedConcat(s, Listed(SankantsuSpec(c)), false);
    s := s + Listed(SankantsuSpec(c));
  }

  lemma MiddleListUnflaggedPieces(h: HandView, c: seq<Group>)
    ensures Flagged(Listed(SanshokuDoujunSpec(c)), false)
    ensures Flagged(Listed(IttsuSpec(c)), false)
    ensures Flagged(Listed(SanankouSpec(h, c)), false)
    ensures Flagged(Listed(ChinitsuSpec(c)), false)
    ensures Flagged(Listed(HonitsuSpec(c)), false)
    ensures Flagged(Listed(SanshokuDoukouSpec(c)), false)
    ensures Flagged(Listed(ShousangenSpec(c)), false)
    ensures Flagged(Listed(HonroutouSpec(c)), false)
  {
  }

  lemma MiddleListUnflagged(h: HandView, c: seq<Group>)
    ensures Flagged(MiddleList(h, c), false)
  {
    MiddleListUnflaggedPieces(h, c);
    var s := Listed(SanshokuDoujunSpec(c));
    FlaggedConcat(s, Listed(IttsuSpec(c)), false);
    s := s + Listed(IttsuSpec(c));
    FlaggedConcat(s, Listed(SanankouSpec(h, c)), false);
    s := s + Listed(SanankouSpec(h, c));
    FlaggedConcat(s, Listed(ChinitsuSpec(c)), false);
    s := s + Listed(ChinitsuSpec(c));
    FlaggedConcat(s, Listed(HonitsuSpec(c)), false);
    s := s + Listed(HonitsuSpec(c));
    FlaggedConcat(s, Listed(SanshokuDoukouSpec(c)), false);
    s := s + Listed(SanshokuDoukouSpec(c));
    FlaggedConcat(s, Listed(ShousangenSpec(c)), false);
    s := s + Listed(ShousangenSpec(c));
    FlaggedConcat(s, Listed(HonroutouSpec(c)), false);
    s := s + Listed(HonroutouSpec(c));
  }

  lemma UpperListUnflaggedPieces(h: HandView, c: seq<Group>, cfg: RulesConfig)
    ensures Flagged(Listed(JunchanSpec(h, c, cfg)), false)
    ensures Flagged(Listed(ChantaSpec(h, c, cfg)), false)
    ensures Flagged(Listed(RyanpeikouSpec(h, c)), false)
  {
  }

  lemma UpperListUnflagged(h: HandView, c: seq<Group>, cfg: RulesConfig)
    ensures Flagged(UpperList(h, c, cfg), false)
  {
    UpperListUnflaggedPieces(h, c, cfg);
    var s := Listed(JunchanSpec(h, c, cfg));
    FlaggedConcat(s, Listed(ChantaSpec(h, c, cfg)), false);
    s := s + Listed(ChantaSpec(h, c, cfg));
    FlaggedConcat(s, Listed(RyanpeikouSpec(h, c)), false);
    s := s + Listed(RyanpeikouSpec(h, c));
  }


  /** Every result is maximal or is the declared riichi. */
  predicate MaximalOrRiichi(s: seq<YakuResult>)
  {
    forall i :: 0 <= i < |s| ==> s[i].isYakuman || s[i] == YakuResult(Riichi, 1, false)
  }

  /** A riichi lead followed by maximal results keeps only those two kinds. */
  lemma {:induction false} RiichiLeadMaximal(lead: seq<YakuResult>, y: seq<YakuResult>)
    requires lead == [] || lead == [YakuResult(Riichi, 1, false)]
    requires Flagged(y, true)
    ensures MaximalOrRiichi(lead + y)
  {
    forall i | 0 <= i < |lead + y|
      ensures (lead + y)[i].isYakuman || (lead + y)[i] == YakuResult(Riichi, 1, false)
    {
      if i >= |lead| {
        assert (lead + y)[i] == y[i - |lead|];
      }
    }
  }

  /** Maximal patterns from the decomposition exclude every ordinary
      pattern except a declared riichi. */
  lemma YakumanExcludesOrdinary(h: HandView, t: Tile, c: seq<Group>, gs: State, ctx: WinContext)
    requires FirstTurnWin(h, gs, ctx).None?
    requires !KokushiShape(h, AllTiles(h, t))
    requires ChiitoitsuSpec(h, AllTiles(h, t)).None?
    requires YakumanList(h, t, c, AllTiles(h, t), gs.ruleset) != []
    ensures MaximalOrRiichi(CheckAllSpec(h, t, c, gs, ctx))
  {
    var y := YakumanList(h, t, c, AllTiles(h, t), gs.ruleset);
    var lead := Listed(RiichiYaku(h));
    YakumanListFlagged(h, t, c, AllTiles(h, t), gs.ruleset);
    RiichiLeadMaximal(lead, y);
    PatternTail(h, t, c, gs, ctx);
  }

  /** Without a maximal pattern the report is the filtered ordinary list,
      and nothing in it is flagged as maximal. */
  lemma OrdinaryReport(h: HandView, t: Tile, c: seq<Group>, gs: State, ctx: WinContext)
    requires FirstTurnWin(h, gs, ctx).None?
    requires !KokushiShape(h, AllTiles(h, t))
    requires ChiitoitsuSpec(h, AllTiles(h, t)).None?
    requires YakumanList(h, t, c, AllTiles(h, t), gs.ruleset) == []
    ensures CheckAllSpec(h, t, c, gs, ctx) == Filter(OrdinaryList(h, t, c, gs, ctx))
    ensures forall r :: r in CheckAllSpec(h, t, c, gs, ctx) ==> !r.isYakuman
  {
    OrdinaryListUnflagged(h, t, c, gs, ctx);
    FilterUnflagged(OrdinaryList(h, t, c, gs, ctx));
    assert CheckAllSpec(h, t, c, gs, ctx) == Filter(OrdinaryList(h, t, c, gs, ctx));
  }

  lemma FilterUnflagged(rs: seq<YakuResult>)
    requires Flagged(rs, false)
    ensures forall r :: r in Filter(rs) ==> !r.isYakuman
  {
    forall r | r in Filter(rs)
      ensures !r.isYakuman
    {
      FilterMembership(rs, r);
      var k :| 0 <= k < |rs| && rs[k] == r;
    }
  }
}
