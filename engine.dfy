/** The rule engine as the object the game drives: its bookkeeping lives in
    fields that the action handlers update in place.  Every method is
    proved to leave the object in the state, and to return the result,
    that the corresponding function of the Rules module prescribes; what
    those functions guarantee is proved there.

    The engine's scalar fields are kept in four records by concern (the
    table, the one-shot windows, the round log, the furiten marks); each
    handler updates a record in place, field by field, as the engine
    assigns its attributes. */
module Engine {
  import opened Tiles
  import opened Wrappers
  import opened GameState
  import opened Config
  import YakuChecker
  import YakuTypes
  import Rules

  class RuleEngine {
    const numPlayers: int
    var table: Rules.Table
    var oneShot: Rules.OneShot
    var log: Rules.RoundLog
    var furiten: Rules.FuritenMarks
    var gs: State
    var scores: seq<int>

    /** The engine's fields as one value. */
    function Snapshot(): Rules.EngineState
      reads this
    {
      Rules.EngineState(numPlayers, table, oneShot, log, furiten, gs, scores)
    }

    predicate Valid()
      reads this
    {
      Rules.Valid(Snapshot())
    }

    constructor (n: int, gs: State, scores: seq<int>)
      ensures Snapshot() == Rules.Initial(n, gs, scores)
      ensures n > 0 && |scores| == n ==> Valid()
    {
      numPlayers := n;
      table := Rules.Table(false, 0, Rules.Init, None, None, None);
      oneShot := Rules.OneShot(map[], map[]);
      log := Rules.RoundLog(true, [], 0, 0, true, None, false, false);
      furiten := Rules.FuritenMarks(map[], map[], map[]);
      this.gs := gs;
      this.scores := scores;
    }

    // -------------------------------------------------------------------
    // Round set-up

    method StartRound()
      modifies this
      ensures Snapshot() == Rules.RoundStart(old(Snapshot()))
    {
      table := table.(wallReady := true);
      table := table.(phase := Rules.Dealing);
      table := table.(currentPlayer := gs.dealer);
      table := table.(lastDiscardedTile := None);
      table := table.(lastDiscardedPlayer := None);
      oneShot := oneShot.(riichiIppatsu := map[]);
      oneShot := oneShot.(riichiIppatsuDiscard := map[]);
      log := log.(isFirstRound := true);
      log := log.(discardHistory := []);
      log := log.(kanCount := 0);
      log := log.(turnCount := 0);
      log := log.(isFirstTurnAfterDeal := true);
      log := log.(pendingKanTile := None);
      log := log.(ignoreSuukantsu := false);
      log := log.(lastDiscardRecorded := false);
      table := table.(lastDrawnTile := None);
      furiten := furiten.(furitenPermanent := map[]);
      furiten := furiten.(furitenTemp := map[]);
      furiten := furiten.(furitenTempRound := map[]);
    }

    method Deal() returns (err: Option<Rules.ActionError>)
      modifies this
      ensures var r := Rules.DealSpec(old(Snapshot()));
              (r.Ok? ==> err.None? && Snapshot() == r.value)
              && (r.Err? ==> err == Some(r.error) && Snapshot() == old(Snapshot()))
    {
      if table.phase != Rules.Dealing {
        return Some(Rules.NotDealing);
      }
      if !table.wallReady {
        return Some(Rules.NoWall);
      }
      table := table.(phase := Rules.Playing);
      log := log.(isFirstTurnAfterDeal := true);
      return None;
    }

    // -------------------------------------------------------------------
    // Action availability and dispatch

    method GetAvailableActions(hands: seq<Rules.HandFacts>, p: int) returns (actions: seq<Rules.GameAction>)
      requires numPlayers > 0
      ensures actions == Rules.Available(Snapshot(), hands, p)
    {
      if table.phase != Rules.Playing || !(0 <= p < |hands|) {
        return [];
      }
      var e := Snapshot();
      var order := Rules.ListingOrder();
      actions := [];
      var i := 0;
      while i < |order|
        invariant 0 <= i <= |order|
        invariant actions + Rules.AllowedAmong(e, hands, p, order[i..]) == Rules.AllowedAmong(e, hands, p, order)
      {
        assert order[i..][1..] == order[i + 1..];
        if Rules.Allowed(e, hands, p, order[i]) {
          actions := actions + [order[i]];
        }
        i := i + 1;
      }
    }

    /** Refuses an action the seat may not take, then runs its handler. */
    method ExecuteAction(hands: seq<Rules.HandFacts>, p: int, a: Rules.GameAction, tile: Option<Tile>, o: Rules.Outside)
      returns (r: Result<Rules.ActionResult, Rules.ActionError>)
      requires Valid() && |hands| == numPlayers
      modifies this
      ensures Valid()
      ensures var x := Rules.Execute(old(Snapshot()), hands, p, a, tile, o);
              r == Rules.OutcomeOf(x) && Snapshot() == Rules.StateAfter(old(Snapshot()), x)
    {
      var available := GetAvailableActions(hands, p);
      if a !in available {
        return Err(Rules.NotAvailable);
      }
      match a
      case Draw => r := HandleDraw(hands, p, o);
      case Discard => r := HandleDiscard(p, tile, o);
      case Pon => r := HandlePon(hands, p);
      case Chi => r := HandleChi(hands, p, o);
      case Riichi =>
        var res := HandleRiichi(p);
        r := Ok(res);
      case Kan => r := HandleKan(p, tile, o);
      case Ankan => r := HandleAnkan(hands, p, o);
      case Tsumo => r := Err(Rules.NotImplemented);
      case Ron => r := Err(Rules.NotImplemented);
    }

    // -------------------------------------------------------------------
    // Handlers

    method HandleDraw(hands: seq<Rules.HandFacts>, p: int, o: Rules.Outside)
      returns (r: Result<Rules.ActionResult, Rules.ActionError>)
      requires Valid() && 0 <= p < |hands|
      modifies this
      ensures var x := Rules.HandleDraw(old(Snapshot()), hands, p, o);
              r == Rules.OutcomeOf(x) && Snapshot() == Rules.StateAfter(old(Snapshot()), x)
    {
      var result := Rules.EmptyResult();
      if !table.wallReady {
        return Err(Rules.NoWall);
      }
      if hands[p].totalTiles >= 14 {
        return Err(Rules.HandFull);
      }
      if o.wallTile.Some? {
        result := result.(drawnTile := o.wallTile);
        table := table.(lastDrawnTile := Some(Rules.Seated(p, o.wallTile.value)));
        if o.wallExhausted {
          result := result.(isLastTile := true);
        }
      } else {
        table := table.(phase := Rules.Ryuukyoku);
        result := result.(ryuukyoku := Some(Rules.Exhausted));
      }
      return Ok(result);
    }

    method HandleDiscard(p: int, tile: Option<Tile>, o: Rules.Outside)
      returns (r: Result<Rules.ActionResult, Rules.ActionError>)
      requires Valid()
      modifies this
      ensures var x := Rules.HandleDiscard(old(Snapshot()), p, tile, o);
              r == Rules.OutcomeOf(x) && Snapshot() == Rules.StateAfter(old(Snapshot()), x)
    {
      var result := Rules.EmptyResult();
      if tile.None? {
        return Err(Rules.MissingTile);
      }
      if !table.wallReady {
        return Err(Rules.NoWall);
      }
      if o.discardAccepted {
        result := ApplyDiscardEffects(p, tile.value, o.wallExhausted);
        table := table.(lastDrawnTile := None);
      }
      return Ok(result);
    }

    /** The bookkeeping of a discard of t by seat p. */
    method ApplyDiscardEffects(p: int, t: Tile, exhausted: bool) returns (result: Rules.ActionResult)
      requires Valid()
      modifies this
      ensures var s := Rules.DiscardEffects(old(Snapshot()), p, t, exhausted);
              result == s.outcome && Snapshot() == s.next
    {
      result := Rules.EmptyResult();
      table := table.(lastDiscardedTile := Some(t));
      table := table.(lastDiscardedPlayer := Some(p));
      log := log.(lastDiscardRecorded := |log.discardHistory| < 4);
      if |log.discardHistory| < 4 {
        log := log.(discardHistory := log.discardHistory + [Rules.Seated(p, t)]);
      }
      CountIppatsuDiscard(p);
      if table.wallReady && exhausted {
        result := result.(isLastTile := true);
      }
      table := table.(currentPlayer := (p + 1) % numPlayers);
      log := log.(turnCount := log.turnCount + 1);
      log := log.(isFirstTurnAfterDeal := false);
      log := log.(isFirstRound := false);
      result := result.(discarded := true);
    }

    /** Counts a discard by seat p against its one-shot window; the window
        closes on the second discard after the declaration. */
    method CountIppatsuDiscard(p: int)
      requires oneShot.riichiIppatsu.Keys == oneShot.riichiIppatsuDiscard.Keys
      modifies this
      ensures Snapshot() == old(Snapshot()).(oneShot := Rules.IppatsuAfterDiscard(old(oneShot), p))
    {
      if |oneShot.riichiIppatsu| > 0 && p in oneShot.riichiIppatsu {
        if p in oneShot.riichiIppatsuDiscard && oneShot.riichiIppatsuDiscard[p] == 1 {
          oneShot := oneShot.(riichiIppatsu := oneShot.riichiIppatsu[p := false]);
        }
        oneShot := oneShot.(riichiIppatsuDiscard := oneShot.riichiIppatsuDiscard[p := oneShot.riichiIppatsuDiscard[p] + 1]);
      }
    }

    /** Drops the claimed tile from the history when it is the newest entry. */
    method RemoveLastDiscard(d: int, t: Tile)
      modifies this
      ensures Snapshot() == old(Snapshot()).(log := old(log).(discardHistory := Rules.RemoveLastDiscard(old(log.discardHistory), d, t)))
    {
      if |log.discardHistory| > 0 && log.discardHistory[|log.discardHistory| - 1].player == d
         && SameKind(log.discardHistory[|log.discardHistory| - 1].tile, t) {
        log := log.(discardHistory := log.discardHistory[..|log.discardHistory| - 1]);
      }
    }

    /** Closes every one-shot window after a call or a quad, when the rule
        set says so. */
    method InterruptIppatsu(a: Rules.GameAction)
      requires Valid()
      modifies this
      ensures Snapshot() == Rules.InterruptIppatsu(old(Snapshot()), a)
    {
      if |oneShot.riichiIppatsu| == 0 {
        return;
      }
      if !Rules.IsCall(a) {
        return;
      }
      if !gs.ruleset.ippatsuInterruptOnMeldOrKan {
        return;
      }
      CloseWindows();
    }

    /** Closes the one-shot window of every seat that has one. */
    method CloseWindows()
      requires oneShot.riichiIppatsu.Keys == oneShot.riichiIppatsuDiscard.Keys
      modifies this
      ensures Snapshot() == old(Snapshot()).(oneShot := Rules.ClosedWindows(old(oneShot)))
    {
      var flags, counts := oneShot.riichiIppatsu, oneShot.riichiIppatsuDiscard;
      var todo := flags.Keys;
      while todo != {}
        invariant todo <= flags.Keys == old(oneShot.riichiIppatsu.Keys) == counts.Keys
        invariant forall q :: q in flags && q !in todo ==> !flags[q] && counts[q] == 0
        invariant Snapshot() == old(Snapshot())
        decreases |todo|
      {
        HasMember(todo);
        var q :| q in todo;
        flags := flags[q := false];
        counts := counts[q := 0];
        todo := todo - {q};
      }
      assert forall q :: q in flags ==> !flags[q] && counts[q] == 0;
      assert flags == Rules.ClosedWindows(old(oneShot)).riichiIppatsu;
      assert counts == Rules.ClosedWindows(old(oneShot)).riichiIppatsuDiscard;
      assert Rules.OneShot(flags, counts) == Rules.ClosedWindows(old(oneShot));
      oneShot := Rules.OneShot(flags, counts);
    }

    /** The engine side of a completed call: the tile leaves the table and,
        when it was recorded there, the history; the one-shot windows may
        close, and the caller acts next. */
    method CompleteCall(p: int, a: Rules.GameAction) returns (result: Rules.ActionResult)
      requires Valid() && table.lastDiscardedTile.Some? && table.lastDiscardedPlayer.Some?
      modifies this
      ensures var s := Rules.AfterCall(old(Snapshot()), p, a);
              result == s.outcome && Snapshot() == s.next
    {
      var t := table.lastDiscardedTile.value;
      ghost var e0 := Snapshot();
      if log.lastDiscardRecorded {
        RemoveLastDiscard(table.lastDiscardedPlayer.value, t);
      }
      ghost var e1 := e0.(log := e0.log.(discardHistory := Rules.ClaimedHistory(e0.log, e0.table.lastDiscardedPlayer.value, t)));
      assert Snapshot() == e1;
      result := Rules.EmptyResult().(calledAction := Some(a), calledTile := Some(t));
      InterruptIppatsu(a);
      ghost var e2 := Snapshot();
      table := table.(currentPlayer := p);
      table := table.(lastDiscardedTile := None);
      table := table.(lastDiscardedPlayer := None);
      log := log.(isFirstTurnAfterDeal := false);
      table := table.(lastDrawnTile := None);
      assert Snapshot() == e2.(table := e2.table.(currentPlayer := p, lastDiscardedTile := None, lastDiscardedPlayer := None,
                                                  lastDrawnTile := None),
                               log := e2.log.(isFirstTurnAfterDeal := false));
    }

    method HandlePon(hands: seq<Rules.HandFacts>, p: int) returns (r: Result<Rules.ActionResult, Rules.ActionError>)
      requires Valid() && 0 <= p < |hands|
      modifies this
      ensures var x := Rules.HandlePon(old(Snapshot()), hands, p);
              r == Rules.OutcomeOf(x) && Snapshot() == Rules.StateAfter(old(Snapshot()), x)
    {
      if table.lastDiscardedTile.None? || table.lastDiscardedPlayer.None? {
        return Err(Rules.NothingToClaim);
      }
      if p == table.lastDiscardedPlayer.value {
        return Err(Rules.OwnDiscard);
      }
      if !hands[p].canPon {
        return Err(Rules.CannotClaim);
      }
      var result := CompleteCall(p, Rules.Pon);
      return Ok(result);
    }

    method HandleChi(hands: seq<Rules.HandFacts>, p: int, o: Rules.Outside)
      returns (r: Result<Rules.ActionResult, Rules.ActionError>)
      requires Valid() && 0 <= p < |hands|
      modifies this
      ensures var x := Rules.HandleChi(old(Snapshot()), hands, p, o);
              r == Rules.OutcomeOf(x) && Snapshot() == Rules.StateAfter(old(Snapshot()), x)
    {
      if table.lastDiscardedTile.None? || table.lastDiscardedPlayer.None? {
        return Err(Rules.NothingToClaim);
      }
      if (p - table.lastDiscardedPlayer.value) % numPlayers != 1 {
        return Err(Rules.NotFromLeft);
      }
      if hands[p].chiSequences == 0 {
        return Err(Rules.CannotClaim);
      }
      if o.chiChoice == Some(false) {
        return Err(Rules.InvalidSequence);
      }
      var result := CompleteCall(p, Rules.Chi);
      return Ok(result);
    }

    method HandleRiichi(p: int) returns (result: Rules.ActionResult)
      requires Valid() && 0 <= p < numPlayers
      modifies this
      ensures var s := Rules.HandleRiichi(old(Snapshot()), p);
              result == s.outcome && Snapshot() == s.next
    {
      result := Rules.EmptyResult();
      gs := gs.(riichiSticks := gs.riichiSticks + 1);
      scores := scores[p := scores[p] - 1000];
      oneShot := oneShot.(riichiIppatsu := oneShot.riichiIppatsu[p := true]);
      oneShot := oneShot.(riichiIppatsuDiscard := oneShot.riichiIppatsuDiscard[p := 0]);
      result := result.(riichi := true);
    }

    /** The replacement draw after a quad; reports whether a tile came. */
    method DrawRinshanTile(p: int, res: Rules.ActionResult, open: bool, o: Rules.Outside)
      returns (drew: bool, result: Rules.ActionResult)
      requires Valid()
      modifies this
      ensures var x := Rules.DrawRinshan(old(Snapshot()), p, res, open, o);
              drew == x.0 && result == x.1.outcome && Snapshot() == x.1.next
    {
      result := res;
      if !table.wallReady {
        return false, result;
      }
      if o.wallTile.Some? {
        result := result.(rinshanTile := o.wallTile);
        table := table.(lastDrawnTile := Some(Rules.Seated(p, o.wallTile.value)));
        if open {
          result := result.(kan := true);
        } else {
          result := result.(ankan := true);
        }
        if o.rinshanWin {
          result := result.(rinshanWin := true);
          log := log.(ignoreSuukantsu := true);
          table := table.(phase := Rules.Winning);
        }
        return true, result;
      }
      table := table.(phase := Rules.Ryuukyoku);
      result := result.(ryuukyoku := Some(Rules.Exhausted));
      return false, result;
    }

    method HandleKan(p: int, tile: Option<Tile>, o: Rules.Outside)
      returns (r: Result<Rules.ActionResult, Rules.ActionError>)
      requires Valid()
      modifies this
      ensures var x := Rules.HandleKan(old(Snapshot()), p, tile, o);
              r == Rules.OutcomeOf(x) && Snapshot() == Rules.StateAfter(old(Snapshot()), x)
    {
      if tile.None? {
        return Err(Rules.MissingTile);
      }
      log := log.(kanCount := log.kanCount + 1);
      table := table.(lastDrawnTile := None);
      InterruptIppatsu(Rules.GameAction.Kan);
      var drew, result := DrawRinshanTile(p, Rules.EmptyResult(), true, o);
      if drew {
        log := log.(pendingKanTile := None);
      }
      return Ok(result);
    }

    method HandleAnkan(hands: seq<Rules.HandFacts>, p: int, o: Rules.Outside)
      returns (r: Result<Rules.ActionResult, Rules.ActionError>)
      requires Valid() && 0 <= p < |hands|
      modifies this
      ensures var x := Rules.HandleAnkan(old(Snapshot()), hands, p, o);
              r == Rules.OutcomeOf(x) && Snapshot() == Rules.StateAfter(old(Snapshot()), x)
    {
      var candidates := hands[p].kanCandidates;
      if |candidates| == 0 {
        return Err(Rules.NoQuad);
      }
      var selected := candidates[0];
      if selected.addKan {
        log := log.(pendingKanTile := Some(Rules.Seated(p, selected.tile)));
        if |o.chankanWinners| > 0 {
          // the robbing seats' win checks record an accepted win
          if log.kanCount >= 4 {
            log := log.(ignoreSuukantsu := true);
          }
          log := log.(pendingKanTile := None);
          return Ok(Rules.EmptyResult().(chankan := true, winners := o.chankanWinners));
        }
      }
      if o.quadMade {
        log := log.(kanCount := log.kanCount + 1);
      }
      ghost var e1 := Snapshot();
      InterruptIppatsu(Rules.Ankan);
      var _, result := DrawRinshanTile(p, Rules.EmptyResult(), o.quadMade && selected.addKan, o);
      log := log.(pendingKanTile := None);
      table := table.(lastDrawnTile := None);
      assert Rules.QuadAftermath(e1, p, o.quadMade && selected.addKan, o) == Rules.Step(result, Snapshot());
      return Ok(result);
    }

    // -------------------------------------------------------------------
    // Furiten

    method CheckFuritenDiscards(h: Rules.HandFacts) returns (b: bool)
      ensures b == Rules.FuritenByDiscards(h)
    {
      if !h.tenpai || |h.waiting| == 0 {
        return false;
      }
      var i := 0;
      while i < |h.discards|
        invariant 0 <= i <= |h.discards|
        invariant forall i', j :: 0 <= i' < i && 0 <= j < |h.waiting| ==>
                    !(h.discards[i'].suit == h.waiting[j].suit && h.discards[i'].rank == h.waiting[j].rank)
      {
        var j := 0;
        while j < |h.waiting|
          invariant 0 <= j <= |h.waiting|
          invariant forall j' :: 0 <= j' < j ==>
                      !(h.discards[i].suit == h.waiting[j'].suit && h.discards[i].rank == h.waiting[j'].rank)
        {
          if h.discards[i].suit == h.waiting[j].suit && h.discards[i].rank == h.waiting[j].rank {
            return true;
          }
          j := j + 1;
        }
        i := i + 1;
      }
      return false;
    }

    method CheckFuritenTemp(p: int) returns (b: bool)
      ensures b == Rules.FuritenTemp(Snapshot(), p)
    {
      if !(p in furiten.furitenTemp && furiten.furitenTemp[p]) {
        return false;
      }
      var round := if p in furiten.furitenTempRound then furiten.furitenTempRound[p] else -1;
      return round == log.turnCount;
    }

    method CheckFuritenRiichi(p: int) returns (b: bool)
      ensures b == Rules.FuritenRiichi(Snapshot(), p)
    {
      return p in furiten.furitenPermanent && furiten.furitenPermanent[p];
    }

    method IsFuriten(hands: seq<Rules.HandFacts>, p: int) returns (b: bool)
      requires 0 <= p < |hands|
      ensures b == Rules.IsFuriten(Snapshot(), hands, p)
    {
      b := CheckFuritenDiscards(hands[p]);
      if !b {
        b := CheckFuritenTemp(p);
      }
      if !b {
        b := CheckFuritenRiichi(p);
      }
    }

    // -------------------------------------------------------------------
    // Winning

    /** The win check for seat p on tile t.  An accepted win with four
        quads on the table cancels the four-quad abort. */
    method CheckWin(hands: seq<Rules.HandFacts>, p: nat, t: Tile, isChankan: bool, isRinshan: bool,
                    facts: Rules.WinFacts, exhausted: bool) returns (r: Option<Rules.WinVerdict>)
      requires p < |hands|
      modifies this
      ensures r == Rules.WinSpec(old(Snapshot()), hands, p, t, isChankan, isRinshan, facts, exhausted)
      ensures Snapshot() == Rules.AfterWinCheck(old(Snapshot()), r.Some?)
    {
      ghost var e0 := Snapshot();
      var tsumo := isRinshan;
      if !tsumo && table.lastDrawnTile.Some? {
        if table.lastDrawnTile.value.player == p && SameKind(table.lastDrawnTile.value.tile, t) {
          tsumo := true;
        }
      }
      assert tsumo == Rules.IsTsumo(e0, p, t, isRinshan);
      if !facts.winning(tsumo) {
        return None;
      }
      var combinations := facts.combinations(tsumo);
      if |combinations| == 0 {
        return None;
      }
      if !tsumo {
        var furiten := IsFuriten(hands, p);
        if furiten {
          return None;
        }
      }
      var yaku := WinPatterns(hands, p, t, tsumo, isRinshan, combinations[0], exhausted);
      if |yaku| == 0 {
        return None;
      }
      var paymentFrom := 0;
      if !tsumo && table.lastDiscardedPlayer.Some? {
        paymentFrom := table.lastDiscardedPlayer.value;
      } else if isChankan && log.pendingKanTile.Some? {
        paymentFrom := log.pendingKanTile.value.player;
      }
      assert paymentFrom == Rules.Payer(e0, tsumo, isChankan);
      if log.kanCount >= 4 {
        log := log.(ignoreSuukantsu := true);
      }
      return Some(Rules.WinVerdict(p, yaku, tsumo, paymentFrom, p, isChankan, isRinshan));
    }

    /** The patterns the checker finds for seat p's win on t with the
        decomposition c, in the context the engine's state gives it. */
    method WinPatterns(hands: seq<Rules.HandFacts>, p: nat, t: Tile, tsumo: bool, isRinshan: bool,
                       c: seq<Group>, exhausted: bool) returns (yaku: seq<YakuTypes.YakuResult>)
      requires p < |hands|
      ensures yaku == YakuChecker.CheckAllSpec(Rules.View(hands[p]), t, c, gs,
                                               Rules.WinContextOf(Snapshot(), p, tsumo, isRinshan, exhausted))
    {
      var ippatsu := p in oneShot.riichiIppatsu && oneShot.riichiIppatsu[p];
      var ctx := YakuChecker.WinContext(tsumo, Rules.IntendedIppatsuTurns(ippatsu), log.isFirstTurnAfterDeal,
                                        table.wallReady && exhausted, p, isRinshan);
      yaku := YakuChecker.CheckAll(Rules.View(hands[p]), t, c, gs, ctx);
    }

    /** The seats that win on discarder d's tile t, nearest first, under
        the multiple-ron rules.  facts[s] is what seat s's hand says about
        winning on t. */
    method CheckMultipleRon(hands: seq<Rules.HandFacts>, t: Tile, d: int, facts: seq<Rules.WinFacts>, exhausted: bool)
      returns (winners: seq<int>)
      requires |hands| == numPlayers && |facts| == numPlayers && 0 <= d < numPlayers
      modifies this
      ensures var c := Rules.RonCandidates(Rules.RonVerdicts(old(Snapshot()), hands, t, facts, exhausted), d, numPlayers - 1);
              winners == Rules.SelectRon(c, old(gs).ruleset)
              && Snapshot() == Rules.AfterWinCheck(old(Snapshot()), |c| > 0)
    {
      ghost var e0 := Snapshot();
      ghost var wins := Rules.RonVerdicts(e0, hands, t, facts, exhausted);
      var potential: seq<int> := [];
      var offset := 1;
      while offset < numPlayers
        invariant 1 <= offset <= numPlayers
        invariant potential == Rules.RonCandidates(wins, d, offset - 1)
        invariant Snapshot() == Rules.AfterWinCheck(e0, |potential| > 0)
      {
        var player := (d + offset) % numPlayers;
        Rules.RonVerdictsIgnoreQuadFlag(e0, hands, t, facts, exhausted, log.ignoreSuukantsu);
        assert Snapshot() == Rules.WithQuadFlag(e0, log.ignoreSuukantsu);
        assert Rules.RonVerdicts(Snapshot(), hands, t, facts, exhausted) == wins;
        var win := RonVerdict(hands, player, t, facts, exhausted);
        assert win == wins[player];
        assert player == Rules.SeatAfter(d, offset, |wins|);
        assert Rules.RonCandidates(wins, d, offset)
            == Rules.RonCandidates(wins, d, offset - 1) + (if wins[player] then [player] else []);
        Rules.AfterWinCheckTwice(e0, |potential| > 0, win);
        if win {
          potential := potential + [player];
        }
        offset := offset + 1;
      }
      assert potential == Rules.RonCandidates(wins, d, numPlayers - 1);
      assert gs == e0.gs;
      winners := SelectWinners(potential);
    }

    /** The win check of seat s on discarded tile t, as a verdict. */
    method RonVerdict(hands: seq<Rules.HandFacts>, s: nat, t: Tile, facts: seq<Rules.WinFacts>, exhausted: bool)
      returns (win: bool)
      requires s < |hands| && |facts| == |hands|
      modifies this
      ensures win == Rules.RonVerdicts(old(Snapshot()), hands, t, facts, exhausted)[s]
      ensures Snapshot() == Rules.AfterWinCheck(old(Snapshot()), win)
    {
      Rules.RonVerdictAt(Snapshot(), hands, t, facts, exhausted, s);
      var r := CheckWin(hands, s, t, false, false, facts[s], exhausted);
      win := r.Some?;
    }

    /** Applies the multiple-ron rules to the candidates, nearest first. */
    method SelectWinners(potential: seq<int>) returns (winners: seq<int>)
      ensures winners == Rules.SelectRon(potential, gs.ruleset)
    {
      if |potential| == 0 {
        return [];
      }
      if |potential| == 1 {
        return potential;
      }
      var ruleset := gs.ruleset;
      if |potential| >= 3 {
        if !ruleset.allowTripleRon {
          return [];
        }
        return potential[..3];
      }
      if ruleset.headBumpOnly {
        return [potential[0]];
      }
      if |potential| == 2 {
        if ruleset.allowDoubleRon {
          return potential;
        } else {
          return [potential[0]];
        }
      }
      return potential;
    }

    // -------------------------------------------------------------------
    // Abortive and exhaustive draws

    method CheckSuufonRenda() returns (b: bool)
      ensures b == Rules.SuufonRendaOn(log.discardHistory)
    {
      if |log.discardHistory| < 4 {
        return false;
      }
      var first := log.discardHistory[0].tile;
      if first.suit != Jihai || !(1 <= first.rank <= 4) {
        return false;
      }
      var i := 0;
      while i < 4
        invariant 0 <= i <= 4
        invariant forall k :: 0 <= k < i ==> log.discardHistory[k].tile.suit == Jihai && log.discardHistory[k].tile.rank == first.rank
      {
        if log.discardHistory[i].tile.suit != Jihai || log.discardHistory[i].tile.rank != first.rank {
          return false;
        }
        i := i + 1;
      }
      return true;
    }

    /** Three or more seats able to ron the tile on the table.  Each seat's
        win check runs in full, with its effect on the four-quad abort. */
    method CheckSanchaRon(hands: seq<Rules.HandFacts>, facts: seq<Rules.WinFacts>, exhausted: bool) returns (b: bool)
      requires |hands| == numPlayers && |facts| == numPlayers
      modifies this
      ensures var wins := Rules.TableVerdicts(old(Snapshot()), hands, facts, exhausted);
              b == Rules.SanchaRonOn(old(Snapshot()), wins)
              && Snapshot() == Rules.AfterWinCheck(old(Snapshot()), Rules.TableTileWinnable(old(Snapshot()), wins))
    {
      if table.lastDiscardedTile.None? || table.lastDiscardedPlayer.None? {
        return false;
      }
      ghost var e0 := Snapshot();
      var t := table.lastDiscardedTile.value;
      var d := table.lastDiscardedPlayer.value;
      ghost var wins := Rules.TableVerdicts(e0, hands, facts, exhausted);
      assert wins == Rules.RonVerdicts(e0, hands, t, facts, exhausted);
      var count := CountRons(hands, t, d, facts, exhausted);
      return count >= 3;
    }

    /** How many seats other than the discarder d can win on tile t; each
        seat's win check runs, with its bookkeeping. */
    method CountRons(hands: seq<Rules.HandFacts>, t: Tile, d: int, facts: seq<Rules.WinFacts>, exhausted: bool)
      returns (count: nat)
      requires |hands| == numPlayers && |facts| == numPlayers
      modifies this
      ensures count == Rules.SanchaCount(Rules.RonVerdicts(old(Snapshot()), hands, t, facts, exhausted), d, numPlayers)
      ensures Snapshot() == Rules.AfterWinCheck(old(Snapshot()), count > 0)
    {
      ghost var e0 := Snapshot();
      ghost var wins := Rules.RonVerdicts(e0, hands, t, facts, exhausted);
      count := 0;
      var player := 0;
      while player < |hands|
        invariant player <= |hands|
        invariant count == Rules.SanchaCount(wins, d, player)
        invariant Snapshot() == Rules.AfterWinCheck(e0, count > 0)
      {
        count := CountRonStep(hands, player, t, d, facts, exhausted, e0, count);
        player := player + 1;
      }
    }

    /** One seat of the count: seat s's verdict is added to the count of
        the seats before it, and its win check's bookkeeping is kept. */
    method CountRonStep(hands: seq<Rules.HandFacts>, s: nat, t: Tile, d: int, facts: seq<Rules.WinFacts>,
                        exhausted: bool, ghost e0: Rules.EngineState, count: nat) returns (count': nat)
      requires s < |hands| && |facts| == |hands|
      requires count == Rules.SanchaCount(Rules.RonVerdicts(e0, hands, t, facts, exhausted), d, s)
      requires Snapshot() == Rules.AfterWinCheck(e0, count > 0)
      modifies this
      ensures count' == Rules.SanchaCount(Rules.RonVerdicts(e0, hands, t, facts, exhausted), d, s + 1)
      ensures Snapshot() == Rules.AfterWinCheck(e0, count' > 0)
    {
      ghost var before := Snapshot();
      Rules.RonVerdictsIgnoreQuadFlag(e0, hands, t, facts, exhausted, before.log.ignoreSuukantsu);
      var win := OtherSeatVerdict(hands, s, t, d, facts, exhausted);
      Rules.AfterWinCheckTwice(e0, count > 0, win);
      count' := count + (if win then 1 else 0);
    }

    /** The ron verdict of seat s on discarder d's tile t; the discarder's
        own seat is skipped and touches nothing. */
    method OtherSeatVerdict(hands: seq<Rules.HandFacts>, s: nat, t: Tile, d: int, facts: seq<Rules.WinFacts>,
                            exhausted: bool) returns (win: bool)
      requires s < |hands| && |facts| == |hands|
      modifies this
      ensures win == (s != d && Rules.RonVerdicts(old(Snapshot()), hands, t, facts, exhausted)[s])
      ensures Snapshot() == Rules.AfterWinCheck(old(Snapshot()), win)
    {
      win := false;
      if s != d {
        win := RonVerdict(hands, s, t, facts, exhausted);
      }
    }

    method CheckAllRiichi(hands: seq<Rules.HandFacts>) returns (b: bool)
      ensures b == Rules.AllRiichi(Snapshot(), hands)
    {
      if table.phase != Rules.Playing {
        return false;
      }
      var i := 0;
      while i < |hands|
        invariant 0 <= i <= |hands|
        invariant forall k :: 0 <= k < i ==> hands[k].riichi
      {
        if !hands[i].riichi {
          return false;
        }
        i := i + 1;
      }
      return true;
    }

    /** The draw checks in order: four winds, three rons, four quads, an
        exhausted wall, four riichi declarations. */
    method CheckRyuukyoku(hands: seq<Rules.HandFacts>, facts: seq<Rules.WinFacts>, exhausted: bool)
      returns (r: Option<Rules.RyuukyokuType>)
      requires |hands| == numPlayers && |facts| == numPlayers
      modifies this
      ensures var x := Rules.RyuukyokuSpec(old(Snapshot()), hands, Rules.TableVerdicts(old(Snapshot()), hands, facts, exhausted), exhausted);
              r == x.0 && Snapshot() == x.1
    {
      var suufon := CheckSuufonRenda();
      if suufon {
        return Some(Rules.SuufonRenda);
      }
      var sancha := CheckSanchaRon(hands, facts, exhausted);
      if sancha {
        return Some(Rules.SanchaRon);
      }
      if log.kanCount >= 4 && !log.ignoreSuukantsu {
        return Some(Rules.Suukantsu);
      }
      if table.wallReady && exhausted {
        return Some(Rules.Exhausted);
      }
      var allRiichi := CheckAllRiichi(hands);
      return if allRiichi then Some(Rules.SuuchaRiichi) else None;
    }

    /** Nine terminals and honors for the seat whose hand is h. */
    method CheckKyuushuKyuuhai(h: Rules.HandFacts) returns (b: bool)
      ensures b == Rules.Kyuushu(Snapshot(), h)
    {
      if !log.isFirstTurnAfterDeal {
        return false;
      }
      if |h.tiles| != 13 {
        return false;
      }
      var kinds: set<(Suit, int)> := {};
      var i := 0;
      while i < |h.tiles|
        invariant 0 <= i <= |h.tiles|
        invariant kinds == Rules.TerminalKinds(h.tiles[..i])
      {
        TerminalKindsStep(h.tiles, i);
        if IsTerminalOrHonor(h.tiles[i].suit, h.tiles[i].rank) {
          kinds := kinds + {(h.tiles[i].suit, h.tiles[i].rank)};
        }
        i := i + 1;
      }
      assert h.tiles[..i] == h.tiles;
      return |kinds| >= 9;
    }

    // -------------------------------------------------------------------
    // Exhaustive-draw penalty and the bust check

    /** The tenpai seats, in seat order. */
    method TenpaiPlayers(hands: seq<Rules.HandFacts>) returns (seats: seq<int>)
      requires |hands| == numPlayers
      ensures seats == Rules.TenpaiSeats(TenpaiFlags(hands), |hands|)
    {
      seats := [];
      var i := 0;
      while i < numPlayers
        invariant 0 <= i <= numPlayers
        invariant seats == Rules.TenpaiSeats(TenpaiFlags(hands), i)
      {
        if hands[i].tenpai {
          seats := seats + [i];
        }
        i := i + 1;
      }
    }

    /** The penalty payments at an exhaustive draw, applied to the scores.
        None is the failing lookup of a non-tenpai seat when every seat is
        tenpai on a three-seat table; the scores are then left alone. */
    method NotenBappu(hands: seq<Rules.HandFacts>) returns (changes: Option<map<int, int>>)
      requires Valid() && |hands| == numPlayers
      modifies this
      ensures changes == Rules.BappuChanges(TenpaiFlags(hands))
      ensures changes.Some? ==> Snapshot() == old(Snapshot()).(scores := Rules.ApplyChanges(old(scores), changes.value))
      ensures changes.None? ==> Snapshot() == old(Snapshot())
    {
      ghost var tenpai := TenpaiFlags(hands);
      var seats := TenpaiPlayers(hands);
      var n := |seats|;
      var ch: map<int, int> := map[];
      if n == 0 || n == 4 {
        assert Rules.ApplyChanges(scores, map[]) == scores;
        return Some(map[]);
      }
      if n == 1 {
        ch := OneTenpaiPayments(seats[0]);
      } else if n == 2 {
        ch := TwoTenpaiPayments(seats, tenpai);
      } else if n == 3 {
        var loser := FirstNotenSeat(seats, tenpai);
        if loser.None? {
          return None;
        }
        ch := ThreeTenpaiPayments(seats, loser.value, tenpai);
      }
      changes := Some(ch);
      ApplyScoreChanges(ch);
    }

    /** One tenpai seat: the winner receives 3000, every other seat pays 1000. */
    method OneTenpaiPayments(winner: int) returns (ch: map<int, int>)
      requires 0 <= winner < numPlayers
      ensures ch == Rules.OneTenpaiChanges(numPlayers, winner)
    {
      ch := map[winner := 3000];
      var i := 0;
      while i < numPlayers
        invariant 0 <= i <= numPlayers
        invariant forall k :: k in ch <==> k == winner || (0 <= k < i)
        invariant forall k :: k in ch ==> ch[k] == if k == winner then 3000 else -1000
      {
        if i != winner {
          ch := ch[i := -1000];
        }
        i := i + 1;
      }
      assert ch == Rules.OneTenpaiChanges(numPlayers, winner);
    }

    /** Two tenpai seats: each receives 1500, each other seat pays 1500. */
    method TwoTenpaiPayments(seats: seq<int>, ghost tenpai: seq<bool>) returns (ch: map<int, int>)
      requires |tenpai| == numPlayers && forall i :: 0 <= i < |tenpai| ==> (i in seats <==> tenpai[i])
      ensures ch == Rules.TwoTenpaiChanges(tenpai)
    {
      ch := map[];
      var i := 0;
      while i < numPlayers
        invariant 0 <= i <= numPlayers
        invariant forall k :: k in ch <==> 0 <= k < i
        invariant forall k :: k in ch ==> ch[k] == if tenpai[k] then 1500 else -1500
      {
        if i in seats {
          ch := ch[i := 1500];
        } else {
          ch := ch[i := -1500];
        }
        i := i + 1;
      }
      assert ch == Rules.TwoTenpaiChanges(tenpai);
    }

    /** Three tenpai seats: each receives 1000 and the non-tenpai seat
        loser pays 3000. */
    method ThreeTenpaiPayments(seats: seq<int>, loser: int, ghost tenpai: seq<bool>) returns (ch: map<int, int>)
      requires forall i :: 0 <= i < |seats| ==> 0 <= seats[i] < |tenpai| && tenpai[seats[i]]
      requires forall i :: 0 <= i < |tenpai| && tenpai[i] ==> i in seats
      requires 0 <= loser < |tenpai| && !tenpai[loser]
      ensures ch == Rules.ThreeTenpaiChanges(tenpai, loser)
    {
      ch := map[loser := -3000];
      var j := 0;
      while j < |seats|
        invariant 0 <= j <= |seats|
        invariant forall k :: k in ch <==> k == loser || k in seats[..j]
        invariant forall k :: k in ch ==> ch[k] == if k == loser then -3000 else 1000
      {
        ch := ch[seats[j] := 1000];
        j := j + 1;
      }
      assert seats[..j] == seats;
      assert ch == Rules.ThreeTenpaiChanges(tenpai, loser);
    }

    /** The lowest seat outside the tenpai list. */
    method FirstNotenSeat(seats: seq<int>, ghost tenpai: seq<bool>) returns (r: Option<int>)
      requires |tenpai| == numPlayers && forall i :: 0 <= i < |tenpai| ==> (i in seats <==> tenpai[i])
      ensures r == Rules.FirstNoten(tenpai, 0)
    {
      var i := 0;
      while i < numPlayers
        invariant 0 <= i <= numPlayers
        invariant Rules.FirstNoten(tenpai, i) == Rules.FirstNoten(tenpai, 0)
      {
        if i !in seats {
          return Some(i);
        }
        i := i + 1;
      }
      return None;
    }

    /** Adds each change to its seat's score. */
    method ApplyScoreChanges(ch: map<int, int>)
      requires forall k :: k in ch ==> 0 <= k < |scores|
      modifies this
      ensures Snapshot() == old(Snapshot()).(scores := Rules.ApplyChanges(old(scores), ch))
    {
      ghost var s0 := scores;
      var todo := ch.Keys;
      while todo != {}
        invariant todo <= ch.Keys
        invariant |scores| == |s0|
        invariant forall i :: 0 <= i < |s0| ==> scores[i] == s0[i] + (if i in ch && i !in todo then ch[i] else 0)
        invariant Snapshot() == old(Snapshot()).(scores := scores)
        decreases |todo|
      {
        HasMember(todo);
        var q :| q in todo;
        scores := scores[q := scores[q] + ch[q]];
        todo := todo - {q};
      }
      assert scores == Rules.ApplyChanges(s0, ch);
    }

    method CheckTobi() returns (b: bool)
      ensures b == Rules.Tobi(Snapshot())
    {
      if !gs.ruleset.tobiEnabled {
        return false;
      }
      var i := 0;
      while i < |scores|
        invariant 0 <= i <= |scores|
        invariant forall k :: 0 <= k < i ==> scores[k] >= 0
      {
        if scores[i] < 0 {
          return true;
        }
        i := i + 1;
      }
      return false;
    }
  }

  /** Which seats are tenpai. */
  function TenpaiFlags(hands: seq<Rules.HandFacts>): (t: seq<bool>)
    ensures |t| == |hands| && forall i :: 0 <= i < |hands| ==> t[i] == hands[i].tenpai
  {
    seq(|hands|, i requires 0 <= i < |hands| => hands[i].tenpai)
  }

  /** A non-empty set of seats has a member to pick. */
  lemma HasMember(s: set<int>)
    requires s != {}
    ensures exists x :: x in s
  {
    if forall x :: x !in s {
      assert false;
    }
  }

  lemma TerminalKindsStep(ts: seq<Tile>, i: nat)
    requires i < |ts|
    ensures Rules.TerminalKinds(ts[..i + 1])
            == Rules.TerminalKinds(ts[..i])
               + (if IsTerminalOrHonor(ts[i].suit, ts[i].rank) then {(ts[i].suit, ts[i].rank)} else {})
  {
    var a := ts[..i + 1];
    var b := ts[..i];
    assert forall k :: 0 <= k < i ==> a[k] == b[k];
    assert a[i] == ts[i];
  }
}
