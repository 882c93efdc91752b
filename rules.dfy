/** The turn and claim rules of one round, on a value snapshot of the rule
    engine's own bookkeeping: which actions a seat may take, what each
    action does to that bookkeeping, winner selection on a multiple ron,
    abortive and exhaustive draws, furiten and the bust check.

    Hands, the wall and the match record are collaborators: what the engine
    asks them arrives as data (HandFacts, Outside, WinFacts, per-seat ron
    verdicts).  Their own state changes are not part of this model. */
module Rules {
  import opened Tiles
  import opened Wrappers
  import opened GameState
  import opened Config
  import YakuTypes
  import YakuChecker

  datatype GameAction = Draw | Discard | Chi | Pon | Kan | Ankan | Riichi | Tsumo | Ron

  datatype GamePhase = Init | Dealing | Playing | Winning | Ryuukyoku | Ended

  datatype RyuukyokuType =
    SuufonRenda | SanchaRon | Suukantsu | Exhausted | SuuchaRiichi | KyuushuKyuuhai

  /** A tile with the seat it belongs to: a discard-history entry, the last
      draw, a pending added quad. */
  datatype Seated = Seated(player: int, tile: Tile)

  /** One entry of a hand's "quads possible without a discard" list. */
  datatype KanCandidate = KanCandidate(addKan: bool, tile: Tile)

  /** What the engine asks a seat's hand.  The claim answers (canPon,
      chiSequences, canKan) are about the tile currently on the table. */
  datatype HandFacts = HandFacts(
    tiles: seq<Tile>,
    totalTiles: nat,
    concealed: bool,
    riichi: bool,
    tenpai: bool,
    waiting: seq<Tile>,
    discards: seq<Tile>,
    canPon: bool,
    chiSequences: nat,
    canKan: bool,
    kanCandidates: seq<KanCandidate>)

  /** The answers of the collaborators one action consults: the wall's next
      tile (the live wall for a draw, the dead wall after a quad), whether
      the wall is exhausted afterwards, whether the hand accepts the discard,
      the sequence a chi caller named (None: none named; Some(ok): named,
      and whether the hand offers it), the verdict on a replacement-tile win,
      the seats that rob an added quad, and whether the hand formed a quad. */
  datatype Outside = Outside(
    wallTile: Option<Tile>,
    wallExhausted: bool,
    discardAccepted: bool,
    chiChoice: Option<bool>,
    rinshanWin: bool,
    chankanWinners: seq<int>,
    quadMade: bool)

  /** Whose turn it is and what lies on the table. */
  datatype Table = Table(
    wallReady: bool,
    currentPlayer: int,
    phase: GamePhase,
    lastDiscardedTile: Option<Tile>,
    lastDiscardedPlayer: Option<int>,
    lastDrawnTile: Option<Seated>)

  /** The one-shot windows of the seats that declared riichi, with the
      number of discards each seat made since its declaration. */
  datatype OneShot = OneShot(riichiIppatsu: map<int, bool>, riichiIppatsuDiscard: map<int, int>)

  /** The round's running record.  The last field belongs to the corrected
      opening history: whether the newest discard entered the history,
      so that a call takes off the history only a discard recorded there. */
  datatype RoundLog = RoundLog(
    isFirstRound: bool,
    discardHistory: seq<Seated>,
    kanCount: nat,
    turnCount: nat,
    isFirstTurnAfterDeal: bool,
    pendingKanTile: Option<Seated>,
    ignoreSuukantsu: bool,
    lastDiscardRecorded: bool)

  /** The furiten marks: permanent (after riichi), temporary, and the turn
      each temporary mark was set in. */
  datatype FuritenMarks = FuritenMarks(
    furitenPermanent: map<int, bool>,
    furitenTemp: map<int, bool>,
    furitenTempRound: map<int, int>)

  /** The rule engine's own fields, grouped by concern, with the match
      record and the scores. */
  datatype EngineState = EngineState(
    numPlayers: int,
    table: Table,
    oneShot: OneShot,
    log: RoundLog,
    furiten: FuritenMarks,
    gs: State,
    scores: seq<int>)

  /** The invariant every operation keeps: a positive seat count, one score
      per seat, the one-shot flags and their discard counters kept for the
      same seats, and at most four history entries. */
  predicate Valid(e: EngineState)
  {
    e.numPlayers > 0 && |e.scores| == e.numPlayers
    && e.oneShot.riichiIppatsu.Keys == e.oneShot.riichiIppatsuDiscard.Keys
    && |e.log.discardHistory| <= 4
  }

  datatype ActionError =
    NotAvailable | NotImplemented | MissingTile | NoWall | HandFull
    | NothingToClaim | OwnDiscard | NotFromLeft | CannotClaim | InvalidSequence | NoQuad | NotDealing

  /** What an action reports back. */
  datatype ActionResult = ActionResult(
    drawnTile: Option<Tile>,
    isLastTile: bool,
    ryuukyoku: Option<RyuukyokuType>,
    discarded: bool,
    riichi: bool,
    chankan: bool,
    winners: seq<int>,
    rinshanTile: Option<Tile>,
    kan: bool,
    ankan: bool,
    rinshanWin: bool,
    calledAction: Option<GameAction>,
    calledTile: Option<Tile>)

  function EmptyResult(): ActionResult
  {
    ActionResult(None, false, None, false, false, false, [], None, false, false, false, None, None)
  }

  /** An accepted action: its report and the engine's new state. */
  datatype Step = Step(outcome: ActionResult, next: EngineState)

  // ---------------------------------------------------------------------
  // Round set-up

  /** A fresh engine for n seats over a match record and its scores. */
  function Initial(n: int, gs: State, scores: seq<int>): (e: EngineState)
    ensures e.table.phase == Init && e.numPlayers == n && e.scores == scores
    ensures !e.table.wallReady && e.log.discardHistory == [] && e.oneShot.riichiIppatsu == map[]
    ensures n > 0 && |scores| == n ==> Valid(e)
  {
    EngineState(n, Table(false, 0, Init, None, None, None), OneShot(map[], map[]),
                RoundLog(true, [], 0, 0, true, None, false, false), FuritenMarks(map[], map[], map[]), gs, scores)
  }

  /** Starting a round: a shuffled wall, the dealer to act, every per-round
      record cleared. */
  function RoundStart(e: EngineState): (r: EngineState)
    ensures r.table.phase == Dealing && r.table.wallReady && r.table.currentPlayer == e.gs.dealer
    ensures r.log.discardHistory == [] && r.log.kanCount == 0 && r.log.turnCount == 0
    ensures r.oneShot.riichiIppatsu == map[] && r.furiten.furitenPermanent == map[] && r.furiten.furitenTemp == map[]
    ensures r.log.isFirstTurnAfterDeal && r.log.isFirstRound && !r.log.ignoreSuukantsu
    ensures r.scores == e.scores && r.gs == e.gs && r.numPlayers == e.numPlayers
    ensures Valid(e) ==> Valid(r)
  {
    e.(table := Table(true, e.gs.dealer, Dealing, None, None, None),
       oneShot := OneShot(map[], map[]),
       log := RoundLog(true, [], 0, 0, true, None, false, false),
       furiten := FuritenMarks(map[], map[], map[]))
  }

  /** Dealing is allowed only in the dealing phase with a wall; it starts play. */
  function DealSpec(e: EngineState): (r: Result<EngineState, ActionError>)
    ensures r.Ok? <==> e.table.phase == Dealing && e.table.wallReady
    ensures r.Ok? ==> r.value == e.(table := e.table.(phase := Playing), log := e.log.(isFirstTurnAfterDeal := true))
  {
    if e.table.phase != Dealing then Err(NotDealing)
    else if !e.table.wallReady then Err(NoWall)
    else Ok(e.(table := e.table.(phase := Playing), log := e.log.(isFirstTurnAfterDeal := true)))
  }

  // ---------------------------------------------------------------------
  // Action availability

  predicate CanDraw(e: EngineState, hands: seq<HandFacts>, p: int)
    requires 0 <= p < |hands|
  {
    p == e.table.currentPlayer && hands[p].totalTiles < 14
  }

  predicate CanDiscard(e: EngineState, hands: seq<HandFacts>, p: int)
    requires 0 <= p < |hands|
  {
    p == e.table.currentPlayer && hands[p].totalTiles > 0
  }

  predicate CanPon(e: EngineState, hands: seq<HandFacts>, p: int)
    requires 0 <= p < |hands|
  {
    e.table.lastDiscardedTile.Some? && e.table.lastDiscardedPlayer.Some?
    && p != e.table.lastDiscardedPlayer.value && hands[p].canPon
  }

  /** Chi is open only to the seat right after the discarder. */
  predicate CanChi(e: EngineState, hands: seq<HandFacts>, p: int)
    requires 0 <= p < |hands| && e.numPlayers > 0
  {
    e.table.lastDiscardedTile.Some? && e.table.lastDiscardedPlayer.Some?
    && (p - e.table.lastDiscardedPlayer.value) % e.numPlayers == 1 && hands[p].chiSequences > 0
  }

  predicate CanRiichi(hands: seq<HandFacts>, p: int)
    requires 0 <= p < |hands|
  {
    hands[p].concealed && !hands[p].riichi && hands[p].tenpai
  }

  /** An open quad on another seat's discard, or, for the seat to act, an
      added quad upgrading one of its own triplet calls. */
  predicate CanKan(e: EngineState, hands: seq<HandFacts>, p: int)
    requires 0 <= p < |hands|
  {
    (e.table.lastDiscardedTile.Some? && e.table.lastDiscardedPlayer.Some?
     && e.table.lastDiscardedPlayer.value != p && hands[p].canKan)
    || (p == e.table.currentPlayer
        && exists i :: 0 <= i < |hands[p].kanCandidates| && hands[p].kanCandidates[i].addKan)
  }

  predicate CanAnkan(hands: seq<HandFacts>, p: int)
    requires 0 <= p < |hands|
  {
    |hands[p].kanCandidates| > 0
  }

  /** Whether seat p may take action a; self-draw and ron wins have no
      handler and are never offered. */
  predicate Allowed(e: EngineState, hands: seq<HandFacts>, p: int, a: GameAction)
    requires 0 <= p < |hands| && e.numPlayers > 0
  {
    match a
    case Draw => CanDraw(e, hands, p)
    case Discard => CanDiscard(e, hands, p)
    case Pon => CanPon(e, hands, p)
    case Chi => CanChi(e, hands, p)
    case Riichi => CanRiichi(hands, p)
    case Kan => CanKan(e, hands, p)
    case Ankan => CanAnkan(hands, p)
    case Tsumo => false
    case Ron => false
  }

  /** The order in which the engine lists the actions it offers. */
  function ListingOrder(): (r: seq<GameAction>)
    ensures |r| == 7 && Tsumo !in r && Ron !in r
  {
    [Draw, Discard, Pon, Chi, Riichi, GameAction.Kan, Ankan]
  }

  /** The members of xs that seat p may take, in the order of xs. */
  function AllowedAmong(e: EngineState, hands: seq<HandFacts>, p: int, xs: seq<GameAction>): (r: seq<GameAction>)
    requires 0 <= p < |hands| && e.numPlayers > 0
    ensures |r| <= |xs|
  {
    if xs == [] then []
    else
      var rest := AllowedAmong(e, hands, p, xs[1..]);
      if Allowed(e, hands, p, xs[0]) then [xs[0]] + rest else rest
  }

  /** The filter keeps exactly the allowed members. */
  lemma {:induction false} AllowedAmongMembers(e: EngineState, hands: seq<HandFacts>, p: int, xs: seq<GameAction>)
    requires 0 <= p < |hands| && e.numPlayers > 0
    ensures forall a :: a in AllowedAmong(e, hands, p, xs) <==> a in xs && Allowed(e, hands, p, a)
  {
    if xs != [] {
      AllowedAmongMembers(e, hands, p, xs[1..]);
      assert forall a :: a in xs <==> a == xs[0] || a in xs[1..];
    }
  }

  /** The actions seat p may take, in the engine's listing order. */
  function Available(e: EngineState, hands: seq<HandFacts>, p: int): (r: seq<GameAction>)
    requires e.numPlayers > 0
    ensures e.table.phase != Playing || !(0 <= p < |hands|) ==> r == []
    ensures forall a :: a in r <==> e.table.phase == Playing && 0 <= p < |hands| && Allowed(e, hands, p, a)
    ensures Tsumo !in r && Ron !in r
    ensures Draw in r ==> p == e.table.currentPlayer && hands[p].totalTiles < 14
    ensures Pon in r ==> e.table.lastDiscardedPlayer.Some? && e.table.lastDiscardedPlayer.value != p
    ensures Chi in r ==> e.table.lastDiscardedPlayer.Some? && (p - e.table.lastDiscardedPlayer.value) % e.numPlayers == 1
    ensures |r| <= 7
  {
    if e.table.phase != Playing || !(0 <= p < |hands|) then []
    else
      AllowedAmongMembers(e, hands, p, ListingOrder());
      AllowedAmong(e, hands, p, ListingOrder())
  }

  // ---------------------------------------------------------------------
  // Discards

  /** The discard history as written: append, then drop the oldest
      entry once there are more than four. */
  function RecordDiscard(h: seq<Seated>, x: Seated): (r: seq<Seated>)
    ensures |h| <= 4 ==> |r| <= 4
    ensures |r| > 0 && r[|r| - 1] == x
    ensures |h| < 4 ==> r == h + [x]
  {
    var appended := h + [x];
    if |appended| > 4 then appended[1..] else appended
  }

  /** The as-written history left by recording the discards ds one after
      another. */
  function HistoryOf(ds: seq<Seated>): seq<Seated>
  {
    if ds == [] then [] else RecordDiscard(HistoryOf(ds[..|ds| - 1]), ds[|ds| - 1])
  }

  /** The newest four entries of ds (all of them when fewer). */
  function Newest(ds: seq<Seated>): (r: seq<Seated>)
    ensures |r| == if |ds| <= 4 then |ds| else 4
  {
    if |ds| <= 4 then ds else ds[|ds| - 4..]
  }

  lemma RecordFull(h: seq<Seated>, x: Seated)
    requires |h| == 4
    ensures RecordDiscard(h, x) == h[1..] + [x]
  {
    assert (h + [x])[1..] == h[1..] + [x];
  }

  lemma NewestStep(ds: seq<Seated>)
    requires |ds| > 4
    ensures Newest(ds) == Newest(ds[..|ds| - 1])[1..] + [ds[|ds| - 1]]
  {
    var init := ds[..|ds| - 1];
    assert Newest(init) == ds[|ds| - 5..|ds| - 1];
    assert ds[|ds| - 5..|ds| - 1][1..] == ds[|ds| - 4..|ds| - 1];
    assert ds[|ds| - 4..] == ds[|ds| - 4..|ds| - 1] + [ds[|ds| - 1]];
  }

  /** The as-written history holds exactly the newest four discards. */
  lemma {:induction false} HistoryKeepsNewest(ds: seq<Seated>)
    ensures HistoryOf(ds) == Newest(ds)
  {
    if ds != [] {
      var init := ds[..|ds| - 1];
      var x := ds[|ds| - 1];
      HistoryKeepsNewest(init);
      assert HistoryOf(ds) == RecordDiscard(Newest(init), x);
      if |ds| <= 4 {
        assert Newest(init) == init;
        assert init + [x] == ds;
      } else {
        RecordFull(Newest(init), x);
        NewestStep(ds);
      }
    }
  }

  /** Records one discard in the history as the four-winds check means
      to read it: the round's opening four discards.  Entries already
      recorded are never displaced; a discard is added only while there
      are fewer than four. */
  function RecordOpening(h: seq<Seated>, x: Seated): (r: seq<Seated>)
    ensures |h| <= 4 ==> |r| <= 4
    ensures |h| <= |r| && r[..|h|] == h
    ensures |h| < 4 <==> |r| == |h| + 1
    ensures |h| < 4 ==> r[|h|] == x
  {
    if |h| < 4 then h + [x] else h
  }

  /** The history left by recording the discards ds one after another. */
  function OpeningOf(ds: seq<Seated>): seq<Seated>
  {
    if ds == [] then [] else RecordOpening(OpeningOf(ds[..|ds| - 1]), ds[|ds| - 1])
  }

  /** The history holds exactly the round's first four discards. */
  lemma {:induction false} OpeningKeepsFirstFour(ds: seq<Seated>)
    ensures OpeningOf(ds) == if |ds| <= 4 then ds else ds[..4]
  {
    if ds != [] {
      var init := ds[..|ds| - 1];
      var x := ds[|ds| - 1];
      OpeningKeepsFirstFour(init);
      var h := OpeningOf(init);
      assert OpeningOf(ds) == RecordOpening(h, x);
      if |ds| <= 4 {
        assert h == init;
        assert init + [x] == ds;
      } else {
        assert |h| == 4 && h == init[..4];
        assert init[..4] == ds[..4];
      }
    }
  }

  /** The one-shot bookkeeping on a discard by seat p: a seat that declared
      riichi loses its one-shot chance on its second discard after the
      declaration, and its discard counter goes up by one. */
  function IppatsuAfterDiscard(w: OneShot, p: int): (r: OneShot)
    requires w.riichiIppatsu.Keys == w.riichiIppatsuDiscard.Keys
    ensures r.riichiIppatsu.Keys == w.riichiIppatsu.Keys && r.riichiIppatsuDiscard.Keys == w.riichiIppatsuDiscard.Keys
    ensures p !in w.riichiIppatsu ==> r == w
    ensures p in w.riichiIppatsu ==>
              r.riichiIppatsuDiscard[p] == w.riichiIppatsuDiscard[p] + 1
              && r.riichiIppatsu[p] == (if w.riichiIppatsuDiscard[p] == 1 then false else w.riichiIppatsu[p])
    ensures forall q :: q in w.riichiIppatsu && q != p ==>
              r.riichiIppatsu[q] == w.riichiIppatsu[q] && r.riichiIppatsuDiscard[q] == w.riichiIppatsuDiscard[q]
  {
    if |w.riichiIppatsu| > 0 && p in w.riichiIppatsu then
      var flags := if w.riichiIppatsuDiscard[p] == 1 then w.riichiIppatsu[p := false] else w.riichiIppatsu;
      OneShot(flags, w.riichiIppatsuDiscard[p := w.riichiIppatsuDiscard[p] + 1])
    else w
  }

  /** Everything a discard of t by seat p changes in the engine. */
  function DiscardEffects(e: EngineState, p: int, t: Tile, exhausted: bool): (s: Step)
    requires Valid(e)
    ensures Valid(s.next)
    ensures s.next.table.lastDiscardedTile == Some(t) && s.next.table.lastDiscardedPlayer == Some(p)
    ensures s.next.log.discardHistory == RecordOpening(e.log.discardHistory, Seated(p, t))
    ensures s.next.log.lastDiscardRecorded <==> |e.log.discardHistory| < 4
    ensures s.next.table.currentPlayer == (p + 1) % e.numPlayers
    ensures 0 <= s.next.table.currentPlayer < e.numPlayers
    ensures s.next.log.turnCount == e.log.turnCount + 1
    ensures !s.next.log.isFirstTurnAfterDeal && !s.next.log.isFirstRound
    ensures s.next.oneShot == IppatsuAfterDiscard(e.oneShot, p)
    ensures s.next == e.(table := e.table.(lastDiscardedTile := Some(t), lastDiscardedPlayer := Some(p),
                                           currentPlayer := s.next.table.currentPlayer),
                         oneShot := s.next.oneShot,
                         log := e.log.(discardHistory := s.next.log.discardHistory, turnCount := e.log.turnCount + 1,
                                       isFirstTurnAfterDeal := false, isFirstRound := false,
                                       lastDiscardRecorded := |e.log.discardHistory| < 4))
    ensures s.outcome == EmptyResult().(isLastTile := e.table.wallReady && exhausted, discarded := true)
  {
    Step(EmptyResult().(isLastTile := e.table.wallReady && exhausted, discarded := true),
         e.(table := e.table.(lastDiscardedTile := Some(t), lastDiscardedPlayer := Some(p),
                              currentPlayer := (p + 1) % e.numPlayers),
            oneShot := IppatsuAfterDiscard(e.oneShot, p),
            log := e.log.(discardHistory := RecordOpening(e.log.discardHistory, Seated(p, t)),
                          turnCount := e.log.turnCount + 1, isFirstTurnAfterDeal := false, isFirstRound := false,
                          lastDiscardRecorded := |e.log.discardHistory| < 4)))
  }

  /** A riichi declaration keeps its one-shot chance through the declaring
      discard and loses it on the next one. */
  lemma {:induction false} IppatsuSurvivesOneGoAround(e: EngineState, p: int, t1: Tile, t2: Tile, x: bool, y: bool)
    requires Valid(e) && p in e.oneShot.riichiIppatsu && e.oneShot.riichiIppatsu[p] && e.oneShot.riichiIppatsuDiscard[p] == 0
    ensures DiscardEffects(e, p, t1, x).next.oneShot.riichiIppatsu[p]
    ensures !DiscardEffects(DiscardEffects(e, p, t1, x).next, p, t2, y).next.oneShot.riichiIppatsu[p]
  {
    var e1 := DiscardEffects(e, p, t1, x).next;
    assert e1.oneShot.riichiIppatsuDiscard[p] == 1;
  }

  /** The engine with no freshly drawn tile recorded. */
  function ClearDrawn(e: EngineState): EngineState
  {
    e.(table := e.table.(lastDrawnTile := None))
  }

  function HandleDiscard(e: EngineState, p: int, tile: Option<Tile>, o: Outside): (r: Result<Step, ActionError>)
    requires Valid(e)
    ensures r.Err? <==> tile.None? || !e.table.wallReady
    ensures r.Ok? ==> Valid(r.value.next)
    ensures r.Ok? && !o.discardAccepted ==> r.value == Step(EmptyResult(), e)
    ensures r.Ok? && o.discardAccepted ==>
              r.value.next == ClearDrawn(DiscardEffects(e, p, tile.value, o.wallExhausted).next)
              && r.value.outcome.discarded
  {
    if tile.None? then Err(MissingTile)
    else if !e.table.wallReady then Err(NoWall)
    else if o.discardAccepted then
      var s := DiscardEffects(e, p, tile.value, o.wallExhausted);
      Ok(Step(s.outcome, ClearDrawn(s.next)))
    else Ok(Step(EmptyResult(), e))
  }

  // ---------------------------------------------------------------------
  // Draws

  function HandleDraw(e: EngineState, hands: seq<HandFacts>, p: int, o: Outside): (r: Result<Step, ActionError>)
    requires Valid(e) && 0 <= p < |hands|
    ensures r.Err? <==> !e.table.wallReady || hands[p].totalTiles >= 14
    ensures r.Ok? ==> Valid(r.value.next)
    ensures r.Ok? && o.wallTile.Some? ==>
              r.value.next == e.(table := e.table.(lastDrawnTile := Some(Seated(p, o.wallTile.value))))
              && r.value.outcome.drawnTile == o.wallTile && r.value.outcome.isLastTile == o.wallExhausted
    ensures r.Ok? && o.wallTile.None? ==>
              r.value.next == e.(table := e.table.(phase := Ryuukyoku)) && r.value.outcome.ryuukyoku == Some(Exhausted)
  {
    if !e.table.wallReady then Err(NoWall)
    else if hands[p].totalTiles >= 14 then Err(HandFull)
    else if o.wallTile.Some? then
      Ok(Step(EmptyResult().(drawnTile := o.wallTile, isLastTile := o.wallExhausted),
              e.(table := e.table.(lastDrawnTile := Some(Seated(p, o.wallTile.value))))))
    else Ok(Step(EmptyResult().(ryuukyoku := Some(Exhausted)), e.(table := e.table.(phase := Ryuukyoku))))
  }

  // ---------------------------------------------------------------------
  // Riichi and the one-shot window

  /** Declaring riichi: a deposit stick from the seat's score, and an open
      one-shot window with its discard counter at zero. */
  function HandleRiichi(e: EngineState, p: int): (s: Step)
    requires Valid(e) && 0 <= p < e.numPlayers
    ensures Valid(s.next)
    ensures s.next.scores == e.scores[p := e.scores[p] - 1000]
    ensures s.next.gs == e.gs.(riichiSticks := e.gs.riichiSticks + 1)
    ensures s.next.oneShot.riichiIppatsu == e.oneShot.riichiIppatsu[p := true]
    ensures s.next.oneShot.riichiIppatsuDiscard == e.oneShot.riichiIppatsuDiscard[p := 0]
    ensures s.next == e.(scores := s.next.scores, gs := s.next.gs, oneShot := s.next.oneShot)
    ensures s.outcome == EmptyResult().(riichi := true)
  {
    Step(EmptyResult().(riichi := true),
         e.(gs := e.gs.(riichiSticks := e.gs.riichiSticks + 1),
            scores := e.scores[p := e.scores[p] - 1000],
            oneShot := OneShot(e.oneShot.riichiIppatsu[p := true], e.oneShot.riichiIppatsuDiscard[p := 0])))
  }

  /** The sum of the seats' scores. */
  function Total(s: seq<int>): int
  {
    if s == [] then 0 else Total(s[..|s| - 1]) + s[|s| - 1]
  }

  lemma {:induction false} TotalUpdate(s: seq<int>, i: int, v: int)
    requires 0 <= i < |s|
    ensures Total(s[i := v]) == Total(s) - s[i] + v
  {
    if i < |s| - 1 {
      TotalUpdate(s[..|s| - 1], i, v);
      assert s[i := v][..|s| - 1] == s[..|s| - 1][i := v];
    } else {
      assert s[i := v][..|s| - 1] == s[..|s| - 1];
    }
  }

  /** A riichi deposit moves 1000 points from the scores onto the table:
      scores plus deposited sticks stay balanced. */
  lemma RiichiConservesPoints(e: EngineState, p: int)
    requires Valid(e) && 0 <= p < e.numPlayers
    ensures Total(HandleRiichi(e, p).next.scores) + 1000 * HandleRiichi(e, p).next.gs.riichiSticks
            == Total(e.scores) + 1000 * e.gs.riichiSticks
  {
    TotalUpdate(e.scores, p, e.scores[p] - 1000);
  }

  predicate IsCall(a: GameAction)
  {
    a == Chi || a == Pon || a == GameAction.Kan || a == Ankan
  }

  /** Every one-shot window closed and its discard counter reset, for the
      same seats. */
  function ClosedWindows(w: OneShot): (r: OneShot)
    ensures r.riichiIppatsu.Keys == w.riichiIppatsu.Keys && r.riichiIppatsuDiscard.Keys == w.riichiIppatsu.Keys
    ensures forall q :: q in r.riichiIppatsu ==> !r.riichiIppatsu[q] && r.riichiIppatsuDiscard[q] == 0
  {
    OneShot(map q | q in w.riichiIppatsu :: false, map q | q in w.riichiIppatsu :: 0)
  }

  /** A call or a quad ends every seat's one-shot window when the rule set
      says so; anything else leaves the window alone. */
  function InterruptIppatsu(e: EngineState, a: GameAction): (r: EngineState)
    requires Valid(e)
    ensures Valid(r)
    ensures r.oneShot.riichiIppatsu.Keys == e.oneShot.riichiIppatsu.Keys
    ensures r == e.(oneShot := r.oneShot)
    ensures IsCall(a) && e.gs.ruleset.ippatsuInterruptOnMeldOrKan ==>
              (forall q :: q in r.oneShot.riichiIppatsu ==> !r.oneShot.riichiIppatsu[q] && r.oneShot.riichiIppatsuDiscard[q] == 0)
    ensures !IsCall(a) || !e.gs.ruleset.ippatsuInterruptOnMeldOrKan ==> r == e
  {
    if |e.oneShot.riichiIppatsu| == 0 then e
    else if !IsCall(a) then e
    else if !e.gs.ruleset.ippatsuInterruptOnMeldOrKan then e
    else e.(oneShot := ClosedWindows(e.oneShot))
  }

  // ---------------------------------------------------------------------
  // Calls

  /** Taking the claimed tile off the history when it is its newest entry. */
  function RemoveLastDiscard(h: seq<Seated>, d: int, t: Tile): (r: seq<Seated>)
    ensures r == h || (|h| > 0 && r == h[..|h| - 1] && h[|h| - 1].player == d && SameKind(h[|h| - 1].tile, t))
  {
    if |h| > 0 && h[|h| - 1].player == d && SameKind(h[|h| - 1].tile, t) then h[..|h| - 1] else h
  }

  /** The history after a call on the table tile: the claimed tile leaves
      it as rules.py:489-492 says, but only when that discard was recorded
      there, since the corrected history stops recording after four. */
  function ClaimedHistory(g: RoundLog, d: int, t: Tile): (r: seq<Seated>)
    ensures g.lastDiscardRecorded ==> r == RemoveLastDiscard(g.discardHistory, d, t)
    ensures !g.lastDiscardRecorded ==> r == g.discardHistory
  {
    if g.lastDiscardRecorded then RemoveLastDiscard(g.discardHistory, d, t) else g.discardHistory
  }

  /** The engine side of a completed call by seat p: the tile leaves the
      table and the history, the one-shot windows may close, and p acts. */
  function AfterCall(e: EngineState, p: int, a: GameAction): (s: Step)
    requires Valid(e) && e.table.lastDiscardedTile.Some? && e.table.lastDiscardedPlayer.Some?
    ensures Valid(s.next)
    ensures s.next.table.currentPlayer == p && s.next.table.lastDiscardedTile.None? && s.next.table.lastDiscardedPlayer.None?
    ensures !s.next.log.isFirstTurnAfterDeal && s.next.table.lastDrawnTile.None?
    ensures s.next.log.discardHistory
            == ClaimedHistory(e.log, e.table.lastDiscardedPlayer.value, e.table.lastDiscardedTile.value)
    ensures s.next.oneShot == InterruptIppatsu(e, a).oneShot
    ensures s.next == e.(table := e.table.(currentPlayer := p, lastDiscardedTile := None, lastDiscardedPlayer := None,
                                           lastDrawnTile := None),
                         oneShot := s.next.oneShot,
                         log := e.log.(discardHistory := s.next.log.discardHistory, isFirstTurnAfterDeal := false))
    ensures s.outcome.calledAction == Some(a) && s.outcome.calledTile == e.table.lastDiscardedTile
  {
    var t := e.table.lastDiscardedTile.value;
    var e1 := e.(log := e.log.(discardHistory := ClaimedHistory(e.log, e.table.lastDiscardedPlayer.value, t)));
    var e2 := InterruptIppatsu(e1, a);
    Step(EmptyResult().(calledAction := Some(a), calledTile := Some(t)),
         e2.(table := e2.table.(currentPlayer := p, lastDiscardedTile := None, lastDiscardedPlayer := None,
                                lastDrawnTile := None),
             log := e2.log.(isFirstTurnAfterDeal := false)))
  }

  /** A call on a discard takes the history back to what it was before
      that discard, whether or not the discard was recorded. */
  lemma {:induction false} CallUndoesDiscard(e: EngineState, p: int, t: Tile, x: bool, q: int, a: GameAction)
    requires Valid(e)
    ensures var e1 := DiscardEffects(e, p, t, x).next;
            AfterCall(e1, q, a).next.log.discardHistory == e.log.discardHistory
  {
    var e1 := DiscardEffects(e, p, t, x).next;
    var h := e.log.discardHistory;
    if |h| < 4 {
      assert e1.log.discardHistory == h + [Seated(p, t)];
      assert (h + [Seated(p, t)])[..|h|] == h;
    }
  }

  function HandlePon(e: EngineState, hands: seq<HandFacts>, p: int): (r: Result<Step, ActionError>)
    requires Valid(e) && 0 <= p < |hands|
    ensures r.Ok? <==> CanPon(e, hands, p)
    ensures r.Ok? ==> r.value == AfterCall(e, p, Pon)
  {
    if e.table.lastDiscardedTile.None? || e.table.lastDiscardedPlayer.None? then Err(NothingToClaim)
    else if p == e.table.lastDiscardedPlayer.value then Err(OwnDiscard)
    else if !hands[p].canPon then Err(CannotClaim)
    else Ok(AfterCall(e, p, Pon))
  }

  function HandleChi(e: EngineState, hands: seq<HandFacts>, p: int, o: Outside): (r: Result<Step, ActionError>)
    requires Valid(e) && 0 <= p < |hands|
    ensures r.Ok? <==> CanChi(e, hands, p) && o.chiChoice != Some(false)
    ensures r.Ok? ==> r.value == AfterCall(e, p, Chi)
    ensures CanChi(e, hands, p) && o.chiChoice == Some(false) ==> r == Err(InvalidSequence)
  {
    if e.table.lastDiscardedTile.None? || e.table.lastDiscardedPlayer.None? then Err(NothingToClaim)
    else if (p - e.table.lastDiscardedPlayer.value) % e.numPlayers != 1 then Err(NotFromLeft)
    else if hands[p].chiSequences == 0 then Err(CannotClaim)
    else if o.chiChoice == Some(false) then Err(InvalidSequence)
    else Ok(AfterCall(e, p, Chi))
  }

  // ---------------------------------------------------------------------
  // Quads

  /** The replacement draw after a quad: the dead wall's tile (an exhausted
      draw when there is none), and a win on it ends the round. */
  function DrawRinshan(e: EngineState, p: int, res: ActionResult, open: bool, o: Outside): (r: (bool, Step))
    requires Valid(e)
    ensures Valid(r.1.next)
    ensures r.0 <==> e.table.wallReady && o.wallTile.Some?
    ensures !e.table.wallReady ==> r.1 == Step(res, e)
    ensures r.0 ==> r.1.next.table.lastDrawnTile == Some(Seated(p, o.wallTile.value)) && r.1.outcome.rinshanTile == o.wallTile
    ensures r.0 && o.rinshanWin ==> r.1.next.table.phase == Winning && r.1.next.log.ignoreSuukantsu
    ensures e.table.wallReady && o.wallTile.None? ==> r.1.next == e.(table := e.table.(phase := Ryuukyoku))
  {
    if !e.table.wallReady then (false, Step(res, e))
    else if o.wallTile.Some? then
      var res0 := res.(rinshanTile := o.wallTile);
      var res1 := if open then res0.(kan := true) else res0.(ankan := true);
      var e1 := e.(table := e.table.(lastDrawnTile := Some(Seated(p, o.wallTile.value))));
      if o.rinshanWin then
        (true, Step(res1.(rinshanWin := true), e1.(table := e1.table.(phase := Winning), log := e1.log.(ignoreSuukantsu := true))))
      else (true, Step(res1, e1))
    else (false, Step(res.(ryuukyoku := Some(Exhausted)), e.(table := e.table.(phase := Ryuukyoku))))
  }

  /** An open quad on tile: count it, close the one-shot windows, draw a
      replacement tile. */
  function HandleKan(e: EngineState, p: int, tile: Option<Tile>, o: Outside): (r: Result<Step, ActionError>)
    requires Valid(e)
    ensures r.Err? <==> tile.None?
    ensures r.Ok? ==> Valid(r.value.next) && r.value.next.log.kanCount == e.log.kanCount + 1
    ensures r.Ok? && e.gs.ruleset.ippatsuInterruptOnMeldOrKan ==>
              forall q :: q in r.value.next.oneShot.riichiIppatsu ==> !r.value.next.oneShot.riichiIppatsu[q]
  {
    if tile.None? then Err(MissingTile)
    else
      var e1 := ClearDrawn(e.(log := e.log.(kanCount := e.log.kanCount + 1)));
      var e2 := InterruptIppatsu(e1, GameAction.Kan);
      var (drew, s) := DrawRinshan(e2, p, EmptyResult(), true, o);
      Ok(if drew then Step(s.outcome, s.next.(log := s.next.log.(pendingKanTile := None))) else s)
  }

  /** A quad without a discard, on the hand's first candidate.  An added
      quad may first be robbed: then the quad is not made and the robbing
      seats are reported. */
  function HandleAnkan(e: EngineState, hands: seq<HandFacts>, p: int, o: Outside): (r: Result<Step, ActionError>)
    requires Valid(e) && 0 <= p < |hands|
    ensures r.Err? <==> |hands[p].kanCandidates| == 0
    ensures r.Ok? ==> Valid(r.value.next) && r.value.next.log.pendingKanTile.None?
    ensures r.Ok? && hands[p].kanCandidates[0].addKan && |o.chankanWinners| > 0 ==>
              r.value.outcome.chankan && r.value.outcome.winners == o.chankanWinners
              && r.value.next.log.kanCount == e.log.kanCount
    ensures r.Ok? && !(hands[p].kanCandidates[0].addKan && |o.chankanWinners| > 0) ==>
              r.value.next.log.kanCount == (if o.quadMade then e.log.kanCount + 1 else e.log.kanCount)
              && r.value.next.table.lastDrawnTile.None?
  {
    var cands := hands[p].kanCandidates;
    if |cands| == 0 then Err(NoQuad)
    else if cands[0].addKan && |o.chankanWinners| > 0 then
      Ok(Step(EmptyResult().(chankan := true, winners := o.chankanWinners),
              e.(log := e.log.(pendingKanTile := None, ignoreSuukantsu := e.log.ignoreSuukantsu || e.log.kanCount >= 4))))
    else
      var e0 := if cands[0].addKan then e.(log := e.log.(pendingKanTile := Some(Seated(p, cands[0].tile)))) else e;
      var e1 := if o.quadMade then e0.(log := e0.log.(kanCount := e0.log.kanCount + 1)) else e0;
      Ok(QuadAftermath(e1, p, o.quadMade && cands[0].addKan, o))
  }

  /** What follows a closed or added quad once it is counted: the one-shot
      windows close, a replacement tile is drawn, and neither a pending
      added quad nor a drawn tile stays recorded. */
  function QuadAftermath(e: EngineState, p: int, open: bool, o: Outside): (s: Step)
    requires Valid(e)
    ensures Valid(s.next) && s.next.log.pendingKanTile.None? && s.next.table.lastDrawnTile.None?
    ensures s.next.log.kanCount == e.log.kanCount
  {
    var e2 := InterruptIppatsu(e, Ankan);
    var (_, s) := DrawRinshan(e2, p, EmptyResult(), open, o);
    Step(s.outcome, ClearDrawn(s.next.(log := s.next.log.(pendingKanTile := None))))
  }

  // ---------------------------------------------------------------------
  // Dispatch

  /** The guard runs before any handler: an action that is not available,
      or one without a handler, is refused and changes nothing. */
  function Execute(e: EngineState, hands: seq<HandFacts>, p: int, a: GameAction, tile: Option<Tile>, o: Outside)
    : (r: Result<Step, ActionError>)
    requires Valid(e) && |hands| == e.numPlayers
    ensures a !in Available(e, hands, p) ==> r == Err(NotAvailable)
    ensures a == Tsumo || a == Ron ==> r.Err?
    ensures e.table.phase != Playing ==> r == Err(NotAvailable)
    ensures r.Ok? ==> Valid(r.value.next)
  {
    if a !in Available(e, hands, p) then Err(NotAvailable)
    else
      match a
      case Draw => HandleDraw(e, hands, p, o)
      case Discard => HandleDiscard(e, p, tile, o)
      case Pon => HandlePon(e, hands, p)
      case Chi => HandleChi(e, hands, p, o)
      case Riichi => Ok(HandleRiichi(e, p))
      case Kan => HandleKan(e, p, tile, o)
      case Ankan => HandleAnkan(e, hands, p, o)
      case Tsumo => Err(NotImplemented)
      case Ron => Err(NotImplemented)
  }

  /** The outcome reported for a dispatch result. */
  function OutcomeOf(r: Result<Step, ActionError>): Result<ActionResult, ActionError>
  {
    if r.Ok? then Ok(r.value.outcome) else Err(r.error)
  }

  /** The state after a dispatch result: unchanged on refusal. */
  function StateAfter(e: EngineState, r: Result<Step, ActionError>): (n: EngineState)
    ensures r.Err? ==> n == e
  {
    if r.Ok? then r.value.next else e
  }

  // ---------------------------------------------------------------------
  // Furiten

  /** Discard furiten: a tenpai hand whose waits include a tile it has
      discarded (by suit and rank). */
  predicate FuritenByDiscards(h: HandFacts)
  {
    h.tenpai && |h.waiting| > 0
    && exists i, j :: 0 <= i < |h.discards| && 0 <= j < |h.waiting|
                      && h.discards[i].suit == h.waiting[j].suit && h.discards[i].rank == h.waiting[j].rank
  }

  /** Temporary furiten holds only in the turn it was recorded in. */
  predicate FuritenTemp(e: EngineState, p: int)
  {
    p in e.furiten.furitenTemp && e.furiten.furitenTemp[p]
    && (if p in e.furiten.furitenTempRound then e.furiten.furitenTempRound[p] else -1) == e.log.turnCount
  }

  predicate FuritenRiichi(e: EngineState, p: int)
  {
    p in e.furiten.furitenPermanent && e.furiten.furitenPermanent[p]
  }

  predicate IsFuriten(e: EngineState, hands: seq<HandFacts>, p: int)
    requires 0 <= p < |hands|
  {
    FuritenByDiscards(hands[p]) || FuritenTemp(e, p) || FuritenRiichi(e, p)
  }

  /** A temporary mark from an earlier turn no longer counts. */
  lemma StaleTempFuritenExpires(e: EngineState, p: int)
    requires p in e.furiten.furitenTempRound && e.furiten.furitenTempRound[p] != e.log.turnCount
    ensures !FuritenTemp(e, p)
  {
  }

  // ---------------------------------------------------------------------
  // Winning

  /** What the engine asks a hand about a win on one tile: whether it is
      a winning hand, and its decompositions, both by self-draw or not. */
  datatype WinFacts = WinFacts(winning: bool -> bool, combinations: bool -> seq<seq<Group>>)

  /** A win the engine accepts: who, with which patterns, how, and the
      seats paying and receiving. */
  datatype WinVerdict = WinVerdict(
    player: int,
    yaku: seq<YakuTypes.YakuResult>,
    isTsumo: bool,
    paymentFrom: int,
    paymentTo: int,
    chankan: bool,
    rinshan: bool)

  /** A win is by self-draw on a replacement tile, or when the tile is the
      one this seat drew last. */
  predicate IsTsumo(e: EngineState, p: int, t: Tile, isRinshan: bool)
  {
    isRinshan || (e.table.lastDrawnTile.Some? && e.table.lastDrawnTile.value.player == p && SameKind(e.table.lastDrawnTile.value.tile, t))
  }

  /** The seat's one-shot flag as the engine reads it. */
  function IppatsuFlag(e: EngineState, p: int): bool
  {
    p in e.oneShot.riichiIppatsu && e.oneShot.riichiIppatsu[p]
  }

  /** The turn count the engine hands to the pattern checker: its one-shot
      flag, a boolean, whose integer value is 1 for true and 0 for false. */
  function AsWrittenIppatsuTurns(flag: bool): (n: int)
    ensures n == if flag then 1 else 0
  {
    if flag then 1 else 0
  }

  /** As written, the one-shot pattern fires exactly when the window is
      closed: false reads as "zero turns after riichi". */
  lemma IppatsuInverted(h: YakuTypes.HandView, flag: bool)
    ensures YakuChecker.IppatsuYaku(h, AsWrittenIppatsuTurns(flag)).Some? <==> h.riichi && !flag
  {
  }

  /** The turn count matching the flag's meaning: zero turns inside the
      window, untracked outside it. */
  function IntendedIppatsuTurns(flag: bool): (n: int)
    ensures flag <==> n == 0
    ensures !flag ==> n < 0
  {
    if flag then 0 else -1
  }

  lemma IppatsuAsIntended(h: YakuTypes.HandView, flag: bool)
    ensures YakuChecker.IppatsuYaku(h, IntendedIppatsuTurns(flag)).Some? <==> h.riichi && flag
  {
  }

  function View(h: HandFacts): YakuTypes.HandView
  {
    YakuTypes.HandView(h.tiles, h.concealed, h.riichi)
  }

  /** The context the engine gives the pattern checker for a win by p. */
  function WinContextOf(e: EngineState, p: nat, tsumo: bool, isRinshan: bool, exhausted: bool): YakuChecker.WinContext
  {
    YakuChecker.WinContext(tsumo, IntendedIppatsuTurns(IppatsuFlag(e, p)), e.log.isFirstTurnAfterDeal,
                           e.table.wallReady && exhausted, p, isRinshan)
  }

  /** The seat that pays: the discarder on a ron, the quad's owner on a
      robbed quad, otherwise the point calculator's default seat 0. */
  function Payer(e: EngineState, tsumo: bool, isChankan: bool): int
  {
    if !tsumo && e.table.lastDiscardedPlayer.Some? then e.table.lastDiscardedPlayer.value
    else if isChankan && e.log.pendingKanTile.Some? then e.log.pendingKanTile.value.player
    else 0
  }

  /** The engine's verdict on seat p winning on tile t: a winning hand with
      a decomposition, not a furiten ron, and at least one pattern on the
      first decomposition. */
  function WinSpec(e: EngineState, hands: seq<HandFacts>, p: nat, t: Tile, isChankan: bool, isRinshan: bool,
                   facts: WinFacts, exhausted: bool): (r: Option<WinVerdict>)
    requires p < |hands|
    ensures r.Some? ==> r.value.player == p && r.value.paymentTo == p && |r.value.yaku| > 0
    ensures r.Some? ==> r.value.isTsumo == IsTsumo(e, p, t, isRinshan)
    ensures r.Some? ==> facts.winning(r.value.isTsumo) && |facts.combinations(r.value.isTsumo)| > 0
    ensures !IsTsumo(e, p, t, isRinshan) && IsFuriten(e, hands, p) ==> r.None?
    ensures !facts.winning(IsTsumo(e, p, t, isRinshan)) ==> r.None?
    ensures r.Some? && !r.value.isTsumo ==> !IsFuriten(e, hands, p)
    ensures r.Some? ==> r.value.yaku == YakuChecker.CheckAllSpec(View(hands[p]), t, facts.combinations(r.value.isTsumo)[0],
                                                                  e.gs, WinContextOf(e, p, r.value.isTsumo, isRinshan, exhausted))
  {
    var tsumo := IsTsumo(e, p, t, isRinshan);
    if !facts.winning(tsumo) then None
    else
      var combos := facts.combinations(tsumo);
      if |combos| == 0 then None
      else if !tsumo && IsFuriten(e, hands, p) then None
      else
        var yaku := YakuChecker.CheckAllSpec(View(hands[p]), t, combos[0], e.gs,
                                             WinContextOf(e, p, tsumo, isRinshan, exhausted));
        if |yaku| == 0 then None
        else Some(WinVerdict(p, yaku, tsumo, Payer(e, tsumo, isChankan), p, isChankan, isRinshan))
  }

  /** Furiten never blocks a self-draw: a self-drawn winning hand with a
      pattern is accepted whatever the furiten marks say. */
  lemma TsumoIgnoresFuriten(e: EngineState, hands: seq<HandFacts>, p: nat, t: Tile, isChankan: bool, isRinshan: bool,
                            facts: WinFacts, exhausted: bool)
    requires p < |hands| && IsTsumo(e, p, t, isRinshan)
    requires facts.winning(true) && |facts.combinations(true)| > 0
    requires |YakuChecker.CheckAllSpec(View(hands[p]), t, facts.combinations(true)[0], e.gs,
                                       WinContextOf(e, p, true, isRinshan, exhausted))| > 0
    ensures WinSpec(e, hands, p, t, isChankan, isRinshan, facts, exhausted).Some?
    ensures WinSpec(e.(furiten := e.furiten.(furitenPermanent := map[p := true])), hands, p, t, isChankan, isRinshan, facts, exhausted)
            == WinSpec(e, hands, p, t, isChankan, isRinshan, facts, exhausted)
  {
  }

  /** The engine with the four-quad abort flag set to b. */
  function WithQuadFlag(e: EngineState, b: bool): EngineState
  {
    e.(log := e.log.(ignoreSuukantsu := b))
  }

  /** An accepted win with four quads on the table cancels the four-quad
      abort. */
  function AfterWinCheck(e: EngineState, accepted: bool): (r: EngineState)
    ensures r == WithQuadFlag(e, r.log.ignoreSuukantsu)
    ensures r.log.ignoreSuukantsu <==> e.log.ignoreSuukantsu || (accepted && e.log.kanCount >= 4)
  {
    if accepted && e.log.kanCount >= 4 then WithQuadFlag(e, true) else e
  }

  /** The win check reads neither the four-quad flag nor anything the
      flag's update touches. */
  lemma WinSpecIgnoresQuadFlag(e: EngineState, hands: seq<HandFacts>, p: nat, t: Tile, isChankan: bool,
                               isRinshan: bool, facts: WinFacts, exhausted: bool, b: bool)
    requires p < |hands|
    ensures WinSpec(WithQuadFlag(e, b), hands, p, t, isChankan, isRinshan, facts, exhausted)
            == WinSpec(e, hands, p, t, isChankan, isRinshan, facts, exhausted)
  {
    var e1 := WithQuadFlag(e, b);
    assert IsTsumo(e1, p, t, isRinshan) == IsTsumo(e, p, t, isRinshan);
    assert IsFuriten(e1, hands, p) == IsFuriten(e, hands, p);
    assert WinContextOf(e1, p, true, isRinshan, exhausted) == WinContextOf(e, p, true, isRinshan, exhausted);
    assert WinContextOf(e1, p, false, isRinshan, exhausted) == WinContextOf(e, p, false, isRinshan, exhausted);
    assert Payer(e1, true, isChankan) == Payer(e, true, isChankan);
    assert Payer(e1, false, isChankan) == Payer(e, false, isChankan);
  }

  /** Two win checks leave the flag as one check accepting either would. */
  lemma AfterWinCheckTwice(e: EngineState, a: bool, b: bool)
    ensures AfterWinCheck(AfterWinCheck(e, a), b) == AfterWinCheck(e, a || b)
  {
  }

  /** Each seat's verdict on a ron of tile t (no robbed quad, no
      replacement tile), given what each hand says about winning on it. */
  function RonVerdicts(e: EngineState, hands: seq<HandFacts>, t: Tile, facts: seq<WinFacts>, exhausted: bool)
    : (r: seq<bool>)
    requires |facts| == |hands|
    ensures |r| == |hands|
  {
    Tabulate(SeatAccepts(e, hands, t, facts, exhausted), |hands|)
  }

  /** Whether the win check accepts seat s's hand on a ron of tile t. */
  function SeatAccepts(e: EngineState, hands: seq<HandFacts>, t: Tile, facts: seq<WinFacts>, exhausted: bool)
    : nat -> bool
    requires |facts| == |hands|
  {
    (s: nat) => s < |hands| && WinSpec(e, hands, s, t, false, false, facts[s], exhausted).Some?
  }

  /** The values of f on 0..k-1, in order. */
  function Tabulate(f: nat -> bool, k: nat): (r: seq<bool>)
    ensures |r| == k
  {
    if k == 0 then [] else Tabulate(f, k - 1) + [f(k - 1)]
  }

  lemma {:induction false} TabulateAt(f: nat -> bool, k: nat, s: nat)
    requires s < k
    ensures Tabulate(f, k)[s] == f(s)
  {
    if s < k - 1 {
      TabulateAt(f, k - 1, s);
    }
  }

  /** Seat s's ron verdict is whether the win check accepts its hand. */
  lemma RonVerdictAt(e: EngineState, hands: seq<HandFacts>, t: Tile, facts: seq<WinFacts>, exhausted: bool, s: nat)
    requires |facts| == |hands| && s < |hands|
    ensures RonVerdicts(e, hands, t, facts, exhausted)[s] <==> WinSpec(e, hands, s, t, false, false, facts[s], exhausted).Some?
  {
    TabulateAt(SeatAccepts(e, hands, t, facts, exhausted), |hands|, s);
  }

  /** The ron verdicts do not depend on the four-quad abort flag. */
  lemma RonVerdictsIgnoreQuadFlag(e: EngineState, hands: seq<HandFacts>, t: Tile, facts: seq<WinFacts>,
                                  exhausted: bool, b: bool)
    requires |facts| == |hands|
    ensures RonVerdicts(WithQuadFlag(e, b), hands, t, facts, exhausted) == RonVerdicts(e, hands, t, facts, exhausted)
  {
    forall s | 0 <= s < |hands|
      ensures RonVerdicts(WithQuadFlag(e, b), hands, t, facts, exhausted)[s] == RonVerdicts(e, hands, t, facts, exhausted)[s]
    {
      WinSpecIgnoresQuadFlag(e, hands, s, t, false, false, facts[s], exhausted, b);
      RonVerdictAt(e, hands, t, facts, exhausted, s);
      RonVerdictAt(WithQuadFlag(e, b), hands, t, facts, exhausted, s);
    }
  }

  /** The verdicts on the tile on the table; none when there is none. */
  function TableVerdicts(e: EngineState, hands: seq<HandFacts>, facts: seq<WinFacts>, exhausted: bool)
    : (r: seq<bool>)
    requires |facts| == |hands|
    ensures |r| == |hands|
    ensures e.table.lastDiscardedTile.Some? ==> r == RonVerdicts(e, hands, e.table.lastDiscardedTile.value, facts, exhausted)
  {
    if e.table.lastDiscardedTile.None? then seq(|hands|, _ => false)
    else RonVerdicts(e, hands, e.table.lastDiscardedTile.value, facts, exhausted)
  }

  // ---------------------------------------------------------------------
  // Multiple ron

  /** The seat offset steps after seat d. */
  function SeatAfter(d: int, offset: int, n: int): (s: int)
    requires n > 0
    ensures 0 <= s < n
  {
    (d + offset) % n
  }

  /** The ron candidates among the first k seats after the discarder, in
      seat order; wins[s] is the engine's win verdict for seat s on the
      discarded tile. */
  function RonCandidates(wins: seq<bool>, d: int, k: nat): (c: seq<int>)
    requires |wins| > 0
    ensures |c| <= k
    ensures forall i :: 0 <= i < |c| ==> 0 <= c[i] < |wins| && wins[c[i]]
  {
    if k == 0 then []
    else
      var s := SeatAfter(d, k, |wins|);
      RonCandidates(wins, d, k - 1) + (if wins[s] then [s] else [])
  }

  /** Offset of seat s after seat d. */
  function OffsetOf(d: int, s: int, n: int): int
    requires n > 0
  {
    (s - d) % n
  }

  lemma ModLow(x: int, n: int)
    requires n > 0 && 0 <= x < n
    ensures x % n == x
  {
  }

  lemma ModHigh(x: int, n: int)
    requires n > 0 && n <= x < 2 * n
    ensures x % n == x - n
  {
  }

  lemma ModNegative(x: int, n: int)
    requires n > 0 && -n <= x < 0
    ensures x % n == x + n
  {
  }

  /** Stepping k seats on from d and measuring the distance back gives k. */
  lemma SeatOffsetRoundTrip(d: int, k: int, n: int)
    requires 0 <= d < n && 0 <= k < n
    ensures OffsetOf(d, SeatAfter(d, k, n), n) == k
  {
    ModLow(k, n);
    if d + k < n {
      ModLow(d + k, n);
    } else {
      ModHigh(d + k, n);
      ModNegative(k - n, n);
    }
  }

  /** The candidates are exactly the seats after the discarder (never the
      discarder itself) whose win is accepted, listed with strictly
      increasing offset from the discarder. */
  lemma {:induction false} RonCandidatesOrdered(wins: seq<bool>, d: int, k: nat)
    requires 0 <= d < |wins| && k < |wins|
    ensures forall i :: 0 <= i < |RonCandidates(wins, d, k)| ==>
              1 <= OffsetOf(d, RonCandidates(wins, d, k)[i], |wins|) <= k
    ensures forall i, j :: 0 <= i < j < |RonCandidates(wins, d, k)| ==>
              OffsetOf(d, RonCandidates(wins, d, k)[i], |wins|) < OffsetOf(d, RonCandidates(wins, d, k)[j], |wins|)
    ensures forall off :: 1 <= off <= k && wins[SeatAfter(d, off, |wins|)] ==>
              SeatAfter(d, off, |wins|) in RonCandidates(wins, d, k)
  {
    if k > 0 {
      RonCandidatesOrdered(wins, d, k - 1);
      SeatOffsetRoundTrip(d, k, |wins|);
      var prev := RonCandidates(wins, d, k - 1);
      var c := RonCandidates(wins, d, k);
      var s := SeatAfter(d, k, |wins|);
      assert c == prev + (if wins[s] then [s] else []);
      assert forall i :: 0 <= i < |prev| ==> c[i] == prev[i];
    }
  }

  /** The discarder's own seat is never a candidate. */
  lemma DiscarderNeverCandidate(wins: seq<bool>, d: int)
    requires 0 <= d < |wins|
    ensures d !in RonCandidates(wins, d, |wins| - 1)
  {
    RonCandidatesOrdered(wins, d, |wins| - 1);
    assert OffsetOf(d, d, |wins|) == 0;
  }

  /** Winner selection from the candidates under the multiple-ron rules. */
  function SelectRon(c: seq<int>, cfg: RulesConfig): (w: seq<int>)
    ensures |w| <= 3 && |w| <= |c| && w == c[..|w|]
    ensures w == [] <==> c == [] || (|c| >= 3 && !cfg.allowTripleRon)
    ensures |c| == 1 ==> w == c
    ensures |c| >= 3 && cfg.allowTripleRon ==> w == c[..3]
    ensures |c| == 2 && cfg.headBumpOnly ==> w == [c[0]]
    ensures |c| == 2 && !cfg.headBumpOnly ==> (w == c <==> cfg.allowDoubleRon)
  {
    if c == [] then []
    else if |c| == 1 then c
    else if |c| >= 3 then (if !cfg.allowTripleRon then [] else c[..3])
    else if cfg.headBumpOnly then [c[0]]
    else if |c| == 2 then (if cfg.allowDoubleRon then c else [c[0]])
    else c
  }

  /** Under head-bump-only the nearest candidate after the discarder always
      wins alone unless three or more can ron. */
  lemma HeadBumpTakesNearest(c: seq<int>, cfg: RulesConfig)
    requires cfg.headBumpOnly && 1 <= |c| <= 2
    ensures SelectRon(c, cfg) == [c[0]]
  {
  }

  // ---------------------------------------------------------------------
  // Abortive and exhaustive draws

  /** Four winds: the history's first four entries are one and the same
      wind tile. */
  predicate SuufonRendaOn(h: seq<Seated>)
  {
    |h| >= 4 && h[0].tile.suit == Jihai && 1 <= h[0].tile.rank <= 4
    && forall i :: 0 <= i < 4 ==> h[i].tile.suit == Jihai && h[i].tile.rank == h[0].tile.rank
  }

  /** As written the four-winds abort reads the newest four discards, so
      it fires on the fifth discard of a round that opened with a number
      tile followed by four East tiles. */
  lemma SuufonRendaOnLaterDiscards()
    ensures var east := Tile(Jihai, 1, false);
            var ds := [Seated(0, Tile(Manzu, 1, false)), Seated(1, east), Seated(2, east), Seated(3, east), Seated(0, east)];
            SuufonRendaOn(HistoryOf(ds)) && !SuufonRendaOn(ds)
  {
    var east := Tile(Jihai, 1, false);
    var ds := [Seated(0, Tile(Manzu, 1, false)), Seated(1, east), Seated(2, east), Seated(3, east), Seated(0, east)];
    HistoryKeepsNewest(ds);
    assert HistoryOf(ds) == ds[1..];
  }

  /** With the opening history the abort fires exactly when the round's
      first four discards are one and the same wind. */
  lemma SuufonRendaAsIntended(ds: seq<Seated>)
    ensures SuufonRendaOn(OpeningOf(ds)) <==> SuufonRendaOn(ds)
  {
    OpeningKeepsFirstFour(ds);
  }

  /** The corrected history after a round's discards, each paired with
      whether a call claimed it before the next discard. */
  function HistoryWithCalls(evs: seq<(Seated, bool)>): seq<Seated>
  {
    if evs == [] then []
    else
      var h := HistoryWithCalls(evs[..|evs| - 1]);
      if evs[|evs| - 1].1 then h else RecordOpening(h, evs[|evs| - 1].0)
  }

  /** The discards of evs that no call claimed, in order. */
  function Unclaimed(evs: seq<(Seated, bool)>): seq<Seated>
  {
    if evs == [] then []
    else (if evs[0].1 then [] else [evs[0].0]) + Unclaimed(evs[1..])
  }

  /** Unclaimed read from the end: a discard added last is kept exactly
      when no call claimed it. */
  lemma {:induction false} UnclaimedSnoc(evs: seq<(Seated, bool)>, x: (Seated, bool))
    ensures Unclaimed(evs + [x]) == Unclaimed(evs) + (if x.1 then [] else [x.0])
  {
    if evs != [] {
      assert (evs + [x])[1..] == evs[1..] + [x];
      UnclaimedSnoc(evs[1..], x);
    } else {
      assert [x][1..] == [];
    }
  }

  /** When no call claims the first k discards, they open the unclaimed
      discards. */
  lemma {:induction false} UnclaimedPrefix(evs: seq<(Seated, bool)>, k: nat)
    requires k <= |evs| && forall i :: 0 <= i < k ==> !evs[i].1
    ensures |Unclaimed(evs)| >= k && forall i :: 0 <= i < k ==> Unclaimed(evs)[i] == evs[i].0
  {
    if k > 0 {
      UnclaimedPrefix(evs[1..], k - 1);
      assert Unclaimed(evs) == [evs[0].0] + Unclaimed(evs[1..]);
    }
  }

  /** One more discard, claimed or not, moves the engine's history as
      HistoryWithCalls says. */
  lemma {:induction false} HistoryStep(e: EngineState, evs: seq<(Seated, bool)>, p: int, t: Tile, x: bool, q: int, a: GameAction)
    requires Valid(e) && e.log.discardHistory == HistoryWithCalls(evs)
    ensures var e1 := DiscardEffects(e, p, t, x).next;
            && e1.log.discardHistory == HistoryWithCalls(evs + [(Seated(p, t), false)])
            && AfterCall(e1, q, a).next.log.discardHistory == HistoryWithCalls(evs + [(Seated(p, t), true)])
  {
    var evs' := evs + [(Seated(p, t), false)];
    var evs'' := evs + [(Seated(p, t), true)];
    assert evs'[..|evs'| - 1] == evs && evs''[..|evs''| - 1] == evs;
    CallUndoesDiscard(e, p, t, x, q, a);
  }

  /** The corrected history is the opening of the discards no call claimed. */
  lemma {:induction false} HistoryWithCallsOpening(evs: seq<(Seated, bool)>)
    ensures HistoryWithCalls(evs) == OpeningOf(Unclaimed(evs))
  {
    if evs != [] {
      var init := evs[..|evs| - 1];
      HistoryWithCallsOpening(init);
      assert init + [evs[|evs| - 1]] == evs;
      UnclaimedSnoc(init, evs[|evs| - 1]);
      if !evs[|evs| - 1].1 {
        var u := Unclaimed(init) + [evs[|evs| - 1].0];
        assert u[..|u| - 1] == Unclaimed(init);
        assert OpeningOf(u) == RecordOpening(OpeningOf(Unclaimed(init)), evs[|evs| - 1].0);
      } else {
        assert Unclaimed(evs) == Unclaimed(init) + [] == Unclaimed(init);
        assert HistoryWithCalls(evs) == HistoryWithCalls(init);
      }
    }
  }

  /** With calls as well, four winds fires exactly when the first four
      discards left on the table are one and the same wind. */
  lemma SuufonRendaWithCalls(evs: seq<(Seated, bool)>)
    ensures SuufonRendaOn(HistoryWithCalls(evs)) <==> SuufonRendaOn(Unclaimed(evs))
  {
    HistoryWithCallsOpening(evs);
    SuufonRendaAsIntended(Unclaimed(evs));
  }

  /** A call on a later discard leaves the recorded opening alone: after
      E, E, E, S, 1m, 2m, 3m, a claimed S and an E, the history is still
      the opening E, E, E, S and four winds does not fire. */
  lemma CallKeepsFrozenOpening()
    ensures var east, south := Tile(Jihai, 1, false), Tile(Jihai, 2, false);
            var evs := [(Seated(0, east), false), (Seated(1, east), false), (Seated(2, east), false),
                        (Seated(3, south), false), (Seated(0, Tile(Manzu, 1, false)), false),
                        (Seated(1, Tile(Manzu, 2, false)), false), (Seated(2, Tile(Manzu, 3, false)), false),
                        (Seated(3, south), true), (Seated(1, east), false)];
            HistoryWithCalls(evs) == [Seated(0, east), Seated(1, east), Seated(2, east), Seated(3, south)]
            && !SuufonRendaOn(HistoryWithCalls(evs))
  {
    var east, south := Tile(Jihai, 1, false), Tile(Jihai, 2, false);
    var evs := [(Seated(0, east), false), (Seated(1, east), false), (Seated(2, east), false),
                (Seated(3, south), false), (Seated(0, Tile(Manzu, 1, false)), false),
                (Seated(1, Tile(Manzu, 2, false)), false), (Seated(2, Tile(Manzu, 3, false)), false),
                (Seated(3, south), true), (Seated(1, east), false)];
    HistoryWithCallsOpening(evs);
    UnclaimedPrefix(evs, 4);
    OpeningKeepsFirstFour(Unclaimed(evs));
    assert Unclaimed(evs)[..4] == [Seated(0, east), Seated(1, east), Seated(2, east), Seated(3, south)];
    assert HistoryWithCalls(evs)[3].tile != HistoryWithCalls(evs)[0].tile;
  }

  /** The number of seats other than d whose win is accepted, among seats
      0..k-1. */
  function SanchaCount(wins: seq<bool>, d: int, k: nat): (n: nat)
    requires k <= |wins|
    ensures n <= k
  {
    if k == 0 then 0
    else SanchaCount(wins, d, k - 1) + (if k - 1 != d && wins[k - 1] then 1 else 0)
  }

  /** Three accepted wins on the table tile abort the round. */
  predicate SanchaRonOn(e: EngineState, wins: seq<bool>)
  {
    e.table.lastDiscardedTile.Some? && e.table.lastDiscardedPlayer.Some?
    && |wins| == e.numPlayers && SanchaCount(wins, e.table.lastDiscardedPlayer.value, |wins|) >= 3
  }

  predicate AllRiichi(e: EngineState, hands: seq<HandFacts>)
  {
    e.table.phase == Playing && forall i :: 0 <= i < |hands| ==> hands[i].riichi
  }

  /** The precedence of the draw checks: four winds, three rons, four
      quads, an exhausted wall, four riichi declarations. */
  function DrawKind(suufon: bool, sancha: bool, quads: bool, exhausted: bool, allRiichi: bool)
    : (r: Option<RyuukyokuType>)
    ensures r == Some(SuufonRenda) <==> suufon
    ensures r == Some(SanchaRon) <==> !suufon && sancha
    ensures r == Some(Suukantsu) <==> !suufon && !sancha && quads
    ensures r == Some(Exhausted) <==> !suufon && !sancha && !quads && exhausted
    ensures r == Some(SuuchaRiichi) <==> !suufon && !sancha && !quads && !exhausted && allRiichi
    ensures r.None? <==> !suufon && !sancha && !quads && !exhausted && !allRiichi
  {
    if suufon then Some(SuufonRenda)
    else if sancha then Some(SanchaRon)
    else if quads then Some(Suukantsu)
    else if exhausted then Some(Exhausted)
    else if allRiichi then Some(SuuchaRiichi)
    else None
  }

  /** Some seat other than the discarder can win on the table tile. */
  predicate TableTileWinnable(e: EngineState, wins: seq<bool>)
  {
    e.table.lastDiscardedTile.Some? && e.table.lastDiscardedPlayer.Some?
    && |wins| == e.numPlayers && SanchaCount(wins, e.table.lastDiscardedPlayer.value, |wins|) > 0
  }

  /** The abortive and exhaustive draw checks in the engine's order.  The
      win checks the three-ron test runs leave their bookkeeping behind, so
      the four-quad test reads the state after them. */
  function RyuukyokuSpec(e: EngineState, hands: seq<HandFacts>, wins: seq<bool>, exhausted: bool)
    : (r: (Option<RyuukyokuType>, EngineState))
    requires |wins| == e.numPlayers
    ensures r.1 == if SuufonRendaOn(e.log.discardHistory) then e else AfterWinCheck(e, TableTileWinnable(e, wins))
    ensures r.0 == DrawKind(SuufonRendaOn(e.log.discardHistory), SanchaRonOn(e, wins),
                            r.1.log.kanCount >= 4 && !r.1.log.ignoreSuukantsu, e.table.wallReady && exhausted, AllRiichi(e, hands))
  {
    if SuufonRendaOn(e.log.discardHistory) then (Some(SuufonRenda), e)
    else
      var e1 := AfterWinCheck(e, TableTileWinnable(e, wins));
      (DrawKind(false, SanchaRonOn(e, wins), e1.log.kanCount >= 4 && !e1.log.ignoreSuukantsu,
                e1.table.wallReady && exhausted, AllRiichi(e1, hands)), e1)
  }

  /** The three-ron test's win checks have a side effect: with four quads
      on the table, one seat able to ron the last discard is enough to
      cancel the four-quad abort, even though nobody declares the ron. */
  lemma RonChanceCancelsSuukantsu(e: EngineState, hands: seq<HandFacts>, wins: seq<bool>, exhausted: bool)
    requires |wins| == e.numPlayers && !SuufonRendaOn(e.log.discardHistory)
    requires e.log.kanCount >= 4 && e.table.lastDiscardedTile.Some? && e.table.lastDiscardedPlayer.Some?
    requires SanchaCount(wins, e.table.lastDiscardedPlayer.value, |wins|) == 1
    ensures RyuukyokuSpec(e, hands, wins, exhausted).0 != Some(Suukantsu)
    ensures RyuukyokuSpec(e, hands, wins, exhausted).1.log.ignoreSuukantsu
  {
  }

  /** The bust check: with the rule on, some seat below zero. */
  predicate Tobi(e: EngineState)
  {
    e.gs.ruleset.tobiEnabled && exists i :: 0 <= i < |e.scores| && e.scores[i] < 0
  }

  /** The terminal and honor kinds among the tiles. */
  function TerminalKinds(ts: seq<Tile>): set<(Suit, int)>
  {
    set i | 0 <= i < |ts| && IsTerminalOrHonor(ts[i].suit, ts[i].rank) :: (ts[i].suit, ts[i].rank)
  }

  /** Nine terminals and honors: on the first turn, thirteen concealed
      tiles covering at least nine terminal or honor kinds. */
  function Kyuushu(e: EngineState, h: HandFacts): (r: bool)
    ensures r <==> e.log.isFirstTurnAfterDeal && |h.tiles| == 13 && |TerminalKinds(h.tiles)| >= 9
  {
    if !e.log.isFirstTurnAfterDeal then false
    else if |h.tiles| != 13 then false
    else |TerminalKinds(h.tiles)| >= 9
  }

  /** The number of terminal or honor tiles among ts. */
  function TerminalCount(ts: seq<Tile>): (n: nat)
    ensures n <= |ts|
  {
    if ts == [] then 0
    else TerminalCount(ts[..|ts| - 1]) + (if IsTerminalOrHonor(ts[|ts| - 1].suit, ts[|ts| - 1].rank) then 1 else 0)
  }

  lemma {:induction false} KindsAtMostTiles(ts: seq<Tile>)
    ensures |TerminalKinds(ts)| <= TerminalCount(ts)
  {
    if ts != [] {
      var init := ts[..|ts| - 1];
      var x := ts[|ts| - 1];
      KindsAtMostTiles(init);
      if IsTerminalOrHonor(x.suit, x.rank) {
        assert TerminalKinds(ts) <= TerminalKinds(init) + {(x.suit, x.rank)} by {
          forall k | k in TerminalKinds(ts)
            ensures k in TerminalKinds(init) + {(x.suit, x.rank)}
          {
            var i :| 0 <= i < |ts| && IsTerminalOrHonor(ts[i].suit, ts[i].rank) && k == (ts[i].suit, ts[i].rank);
            if i < |ts| - 1 {
              assert ts[i] == init[i];
            }
          }
        }
        SetSizeUnion(TerminalKinds(init), (x.suit, x.rank));
        SubsetSize(TerminalKinds(ts), TerminalKinds(init) + {(x.suit, x.rank)});
      } else {
        assert TerminalKinds(ts) <= TerminalKinds(init) by {
          forall k | k in TerminalKinds(ts)
            ensures k in TerminalKinds(init)
          {
            var i :| 0 <= i < |ts| && IsTerminalOrHonor(ts[i].suit, ts[i].rank) && k == (ts[i].suit, ts[i].rank);
            assert i < |ts| - 1;
            assert ts[i] == init[i];
          }
        }
        SubsetSize(TerminalKinds(ts), TerminalKinds(init));
      }
    }
  }

  lemma SetSizeUnion<T>(s: set<T>, x: T)
    ensures |s + {x}| <= |s| + 1
  {
    if x !in s {
      assert |s + {x}| == |s| + 1;
    } else {
      assert s + {x} == s;
    }
  }

  lemma SubsetSize<T>(a: set<T>, b: set<T>)
    requires a <= b
    ensures |a| <= |b|
  {
    assert b == a + (b - a);
  }

  /** Declaring nine terminals needs at least nine terminal or honor tiles. */
  lemma KyuushuNeedsNineTiles(e: EngineState, h: HandFacts)
    requires Kyuushu(e, h)
    ensures TerminalCount(h.tiles) >= 9
  {
    KindsAtMostTiles(h.tiles);
  }

  // ---------------------------------------------------------------------
  // Exhaustive-draw penalty

  /** The tenpai seats, in seat order. */
  function TenpaiSeats(tenpai: seq<bool>, k: nat): (s: seq<int>)
    requires k <= |tenpai|
    ensures |s| <= k
    ensures forall i :: 0 <= i < |s| ==> 0 <= s[i] < k && tenpai[s[i]]
    ensures forall i :: 0 <= i < k && tenpai[i] ==> i in s
  {
    if k == 0 then [] else TenpaiSeats(tenpai, k - 1) + (if tenpai[k - 1] then [k - 1] else [])
  }

  /** The lowest seat that is not tenpai, if any. */
  function FirstNoten(tenpai: seq<bool>, k: nat): (r: Option<int>)
    requires k <= |tenpai|
    ensures r.Some? ==> 0 <= r.value < |tenpai| && !tenpai[r.value]
                        && forall i :: k <= i < r.value ==> tenpai[i]
    ensures r.None? ==> forall i :: k <= i < |tenpai| ==> tenpai[i]
    decreases |tenpai| - k
  {
    if k == |tenpai| then None
    else if !tenpai[k] then Some(k)
    else FirstNoten(tenpai, k + 1)
  }

  /** The seats 0 .. n-1. */
  function SeatSet(n: nat): (s: set<int>)
    ensures forall i :: i in s <==> 0 <= i < n
  {
    if n == 0 then {} else SeatSet(n - 1) + {n - 1}
  }

  /** One tenpai seat w: it receives 3000, every other seat pays 1000. */
  function OneTenpaiChanges(n: nat, w: int): (m: map<int, int>)
    ensures forall i :: i in m <==> 0 <= i < n
    ensures forall i :: i in m ==> m[i] == if i == w then 3000 else -1000
  {
    map i | i in SeatSet(n) :: if i == w then 3000 else -1000
  }

  /** Two tenpai seats: each receives 1500, each other seat pays 1500. */
  function TwoTenpaiChanges(tenpai: seq<bool>): (m: map<int, int>)
    ensures forall i :: i in m <==> 0 <= i < |tenpai|
    ensures forall i :: i in m ==> m[i] == if tenpai[i] then 1500 else -1500
  {
    map i | 0 <= i < |tenpai| :: if tenpai[i] then 1500 else -1500
  }

  /** Three tenpai seats: each receives 1000, the non-tenpai seat l pays 3000. */
  function ThreeTenpaiChanges(tenpai: seq<bool>, l: int): (m: map<int, int>)
    ensures forall i :: i in m <==> i == l || (0 <= i < |tenpai| && tenpai[i])
    ensures forall i :: i in m ==> m[i] == if i == l then -3000 else 1000
  {
    var keys := (set i | 0 <= i < |tenpai| && tenpai[i]) + {l};
    map i | i in keys :: if i == l then -3000 else 1000
  }

  /** The point changes of the exhaustive-draw penalty.  None stands for the
      failing lookup of a non-tenpai seat when three seats are tenpai and
      none is not, which only a three-seat table can reach. */
  function BappuChanges(tenpai: seq<bool>): (r: Option<map<int, int>>)
    ensures var n := |TenpaiSeats(tenpai, |tenpai|)|;
            (n == 0 || n == 4 || n > 4) ==> r == Some(map[])
    ensures r.None? <==> |TenpaiSeats(tenpai, |tenpai|)| == 3 && forall i :: 0 <= i < |tenpai| ==> tenpai[i]
    ensures r.Some? ==> forall k :: k in r.value ==> 0 <= k < |tenpai|
  {
    var n := |TenpaiSeats(tenpai, |tenpai|)|;
    if n == 0 || n == 4 then Some(map[])
    else if n == 1 then Some(OneTenpaiChanges(|tenpai|, TenpaiSeats(tenpai, |tenpai|)[0]))
    else if n == 2 then Some(TwoTenpaiChanges(tenpai))
    else if n == 3 then
      var loser := FirstNoten(tenpai, 0);
      if loser.None? then None else Some(ThreeTenpaiChanges(tenpai, loser.value))
    else Some(map[])
  }

  /** The score sequence after applying changes seat by seat. */
  function ApplyChanges(s: seq<int>, ch: map<int, int>): (r: seq<int>)
    ensures |r| == |s|
    ensures forall i :: 0 <= i < |s| ==> r[i] == s[i] + (if i in ch then ch[i] else 0)
  {
    seq(|s|, i requires 0 <= i < |s| => s[i] + (if i in ch then ch[i] else 0))
  }

  /** The sum of the changes for seats 0..k-1. */
  function DeltaSum(ch: map<int, int>, k: nat): int
  {
    if k == 0 then 0 else DeltaSum(ch, k - 1) + (if k - 1 in ch then ch[k - 1] else 0)
  }

  lemma {:induction false} TotalApply(s: seq<int>, ch: map<int, int>)
    ensures Total(ApplyChanges(s, ch)) == Total(s) + DeltaSum(ch, |s|)
  {
    if s != [] {
      var init := s[..|s| - 1];
      TotalApply(init, ch);
      assert ApplyChanges(s, ch)[..|s| - 1] == ApplyChanges(init, ch);
    }
  }

  function ChangeAt(m: map<int, int>, i: int): int
  {
    if i in m then m[i] else 0
  }

  lemma DeltaSumFour(m: map<int, int>)
    ensures DeltaSum(m, 4) == ChangeAt(m, 0) + ChangeAt(m, 1) + ChangeAt(m, 2) + ChangeAt(m, 3)
  {
    assert DeltaSum(m, 1) == ChangeAt(m, 0);
    assert DeltaSum(m, 2) == DeltaSum(m, 1) + ChangeAt(m, 1);
    assert DeltaSum(m, 3) == DeltaSum(m, 2) + ChangeAt(m, 2);
  }

  /** One for true, zero for false. */
  function Indicator(b: bool): nat { if b then 1 else 0 }

  lemma TenpaiSeatsFour(t: seq<bool>)
    requires |t| == 4
    ensures |TenpaiSeats(t, 4)| == Indicator(t[0]) + Indicator(t[1]) + Indicator(t[2]) + Indicator(t[3])
    ensures |TenpaiSeats(t, 4)| == 1 ==> TenpaiSeats(t, 4)[0] in {0, 1, 2, 3}
  {
    assert TenpaiSeats(t, 1) == (if t[0] then [0] else []);
    assert TenpaiSeats(t, 2) == TenpaiSeats(t, 1) + (if t[1] then [1] else []);
    assert TenpaiSeats(t, 3) == TenpaiSeats(t, 2) + (if t[2] then [2] else []);
  }

  lemma OneTenpaiZeroSum(tenpai: seq<bool>, w: int)
    requires |tenpai| == 4 && 0 <= w < 4 && tenpai[w]
    requires forall i :: 0 <= i < 4 && i != w ==> !tenpai[i]
    ensures DeltaSum(OneTenpaiChanges(4, w), 4) == 0
    ensures forall i :: 0 <= i < 4 ==>
              i in OneTenpaiChanges(4, w) && (OneTenpaiChanges(4, w)[i] > 0 <==> tenpai[i])
  {
    DeltaSumFour(OneTenpaiChanges(4, w));
  }

  lemma TwoTenpaiZeroSum(tenpai: seq<bool>)
    requires |tenpai| == 4 && Indicator(tenpai[0]) + Indicator(tenpai[1]) + Indicator(tenpai[2]) + Indicator(tenpai[3]) == 2
    ensures DeltaSum(TwoTenpaiChanges(tenpai), 4) == 0
  {
    DeltaSumFour(TwoTenpaiChanges(tenpai));
  }

  lemma ThreeTenpaiZeroSum(tenpai: seq<bool>, l: int)
    requires |tenpai| == 4 && 0 <= l < 4 && !tenpai[l]
    requires forall i :: 0 <= i < 4 && i != l ==> tenpai[i]
    ensures DeltaSum(ThreeTenpaiChanges(tenpai, l), 4) == 0
    ensures forall i :: 0 <= i < 4 ==>
              i in ThreeTenpaiChanges(tenpai, l) && (ThreeTenpaiChanges(tenpai, l)[i] > 0 <==> tenpai[i])
  {
    DeltaSumFour(ThreeTenpaiChanges(tenpai, l));
  }

  /** On a four-seat table the penalty always applies and moves points
      only between seats: tenpai seats receive, the others pay, and the
      changes sum to zero. */
  lemma BappuZeroSum(tenpai: seq<bool>)
    requires |tenpai| == 4
    ensures BappuChanges(tenpai).Some?
    ensures DeltaSum(BappuChanges(tenpai).value, 4) == 0
    ensures var n := |TenpaiSeats(tenpai, 4)|;
            1 <= n <= 3 ==> forall i :: 0 <= i < 4 ==>
              i in BappuChanges(tenpai).value && (BappuChanges(tenpai).value[i] > 0 <==> tenpai[i])
  {
    TenpaiSeatsFour(tenpai);
    var n := |TenpaiSeats(tenpai, 4)|;
    if n == 0 || n == 4 {
      assert BappuChanges(tenpai) == Some(map[]);
      DeltaSumFour(map[]);
    } else if n == 1 {
      var w := TenpaiSeats(tenpai, 4)[0];
      assert forall i :: 0 <= i < 4 && i != w ==> !tenpai[i];
      OneTenpaiZeroSum(tenpai, w);
      assert BappuChanges(tenpai) == Some(OneTenpaiChanges(4, w));
    } else if n == 2 {
      TwoTenpaiZeroSum(tenpai);
      assert BappuChanges(tenpai) == Some(TwoTenpaiChanges(tenpai));
    } else {
      assert !tenpai[0] || !tenpai[1] || !tenpai[2] || !tenpai[3];
      var l := FirstNoten(tenpai, 0).value;
      assert forall i :: 0 <= i < 4 && i != l ==> tenpai[i];
      ThreeTenpaiZeroSum(tenpai, l);
      assert BappuChanges(tenpai) == Some(ThreeTenpaiChanges(tenpai, l));
    }
  }
}
