# pyriichi core in Dafny

A model of the core of pyriichi, a Japanese (riichi) mahjong engine, with
proofs about it. The model covers four parts of the library:

- **Pattern checker** (`yaku.py`): each scoring pattern (yaku) has a
  declarative specification over a hand's decomposition into groups or
  over its fourteen tiles. A method scans the groups the way the checker
  does and is proved equal to that specification. The entry point is
  modelled with its precedence: the first-turn wins, then thirteen
  orphans, seven pairs, the maximal patterns, and finally the ordinary
  patterns followed by the conflict filter.
  Modules: `YakuTypes`, `YakuGroups`, `YakuTiles`, `YakuChecker`.
- **Point calculator** (`scoring.py`): structural points (fu), pattern
  weight (han), the tier table and the split between paying seats. The
  score record is a class: its constructor runs the tier table, with
  computed values capped at a full hand (the correction of the third
  row under "## Findings"), and a method assigns the split.
  Module: `Scoring`.
- **Rule engine** (`rules.py`): the turn, claim and draw rules of one
  round.
  - `Rules` defines the engine's bookkeeping as a value (`EngineState`).
    Every action and check is a function on that value, and the rules'
    properties are lemmas about those functions.
  - `Engine.RuleEngine` is the engine as a class whose fields the handler
    methods update in place. Every method is proved to leave its fields
    in exactly the state the matching `Rules` function prescribes.
- **Tile text** (`utils.py`): `parse_tiles` as a loop proved equal to a
  recursive reading of the string, and `format_tiles`, with the round
  trip between them.
  Module: `TileStrings`.

Where the source is evidently wrong (see "## Findings"), the model keeps
the as-written definition beside a corrected one. For four of the five
findings, the as-written one serves only the lemma that exhibits the
discrepancy, and the rest of the model uses the corrected definition. The
exception is the payee of the point split: `Scoring.Calculate` keeps seat 0
as written, and the corrected `Scoring.CalculateForWinner` is used by no
other member.

The shared vocabulary lives in small modules:
- `Tiles`: suits, tiles, groups;
- `Config`: the rule switches;
- `GameState`: the slice of the match state the core reads;
- `Wrappers`: `Option`, `Result`.

The rule engine consults collaborators: the player's hand, the wall, and
the match record. They are not modelled. Their answers arrive as data:
- `HandFacts`: what a hand says about itself;
- `Outside`: what the wall and the hand answer during one action;
- `WinFacts`: whether a hand wins on a tile, and its decompositions.

## Model

| member | source | states |
|---|---|---|
| YakuChecker.RiichiYaku | pyriichi/yaku.py:332-334 | the riichi pattern (1 han) is reported exactly when the hand has declared riichi |
| YakuChecker.IppatsuYaku | pyriichi/yaku.py:336-350 | the one-shot pattern (1 han) is reported exactly when the hand is in riichi and zero turns have passed since the declaration; an untracked (negative) count never qualifies |
| YakuChecker.MenzenTsumoYaku | pyriichi/yaku.py:352-361 | concealed self-draw (1 han) exactly when the hand is concealed and won by self-draw |
| YakuChecker.HaiteiYaku | pyriichi/yaku.py:1430-1443 | a win on the last tile earns 1 han: haitei on a self-draw, houtei on a discard, nothing otherwise |
| YakuChecker.RinshanYaku | pyriichi/yaku.py:1445-1451 | a win on a replacement tile earns rinshan (1 han), and only then |
| YakuChecker.TenhouYaku | pyriichi/yaku.py:1326-1352 | heavenly hand (13 han, maximal) exactly for the dealer's concealed self-draw on the first turn |
| YakuChecker.ChihouYaku | pyriichi/yaku.py:1354-1380 | earthly hand (13 han, maximal) exactly for a non-dealer's concealed self-draw on the first turn |
| YakuChecker.RenhouYaku | pyriichi/yaku.py:1382-1428 | hand of man exactly for a non-dealer's concealed first-turn win on a discard when the policy is not off; 13 han maximal or 2 han by policy |
| YakuChecker.FirstTurnWinsExclusive | pyriichi/yaku.py:1326-1428 | no win qualifies for two of the three first-turn patterns |
| YakuChecker.YakuSet | pyriichi/yaku.py:260 | the set of patterns present is exactly the patterns of the results |
| YakuChecker.KeepFreeMembers | pyriichi/yaku.py:262-328 | a result is kept exactly when it is in the input and its pattern does not conflict with the patterns present |
| YakuChecker.ShouldInclude | pyriichi/yaku.py:263-325 | the chain of exclusion rules keeps a pattern exactly when none of the patterns it clashes with is present |
| YakuChecker.FilterUnflagged | pyriichi/yaku.py:245-330 | filtering a list without maximal results yields none |
| YakuChecker.FilterConflicting | pyriichi/yaku.py:245-330 | the filter's loop returns exactly the specification of the conflict filter over the patterns present in its input |
| YakuChecker.KeptPositions | pyriichi/yaku.py:262-328 | the kept results occur in the input at strictly increasing positions |
| YakuChecker.FilterSubsequence | pyriichi/yaku.py:259-330 | the filtered list is a subsequence of the input: order is kept and nothing is added |
| YakuChecker.FilterMembership | pyriichi/yaku.py:259-330 | a result survives the filter exactly when it was in the input and its pattern is free of conflicts with every pattern in the input |
| YakuChecker.ConflictsMonotone | pyriichi/yaku.py:266-325 | more patterns present never remove a conflict |
| YakuChecker.KeepFreeKeepsAll | pyriichi/yaku.py:327-328 | a list without conflicting patterns passes the filter unchanged |
| YakuChecker.FilterIdempotent | pyriichi/yaku.py:259-330 | filtering a filtered list changes nothing |
| YakuChecker.FlushesBothDropped | pyriichi/yaku.py:306-309 | when both flushes are present, neither survives the filter |
| YakuChecker.FilterExclusions | pyriichi/yaku.py:266-303 | with two double sequences present no single double sequence survives; with a value honor present no all-sequences pattern survives; with a terminal-bearing pattern present no all-simples pattern survives |
| YakuChecker.BasicYaku | pyriichi/yaku.py:159-179 | collects the basic patterns (riichi, one-shot, concealed self-draw, last tile, replacement tile, all simples, all sequences, double sequence, all triplets, three quads) in source order, each exactly when its specification holds |
| YakuChecker.MiddleYaku | pyriichi/yaku.py:185-201 | collects the two- and three-han patterns in source order, each exactly when its specification holds |
| YakuChecker.UpperYaku | pyriichi/yaku.py:203-209 | collects the pure outside hand, the mixed outside hand and the two double sequences, in that order |
| YakuChecker.OrdinaryYaku | pyriichi/yaku.py:157-209 | the ordinary patterns: the basic ones, the value honors, then the two- and three-han and the upper ones, in source order |
| YakuChecker.YakumanYaku | pyriichi/yaku.py:211-231 | collects the maximal patterns of the decomposition and of the nine gates in source order |
| YakuChecker.CheckAll | pyriichi/yaku.py:103-243 | the checker's entry point equals its specification with the source's precedence of first-turn wins, orphans, seven pairs, maximal and ordinary patterns |
| YakuChecker.PatternYaku | pyriichi/yaku.py:211-243 | the checker's last steps report the maximal patterns, after riichi when declared, when any is found, and otherwise the filtered ordinary patterns |
| YakuChecker.PatternTail | pyriichi/yaku.py:233-243 | once no first-turn win, thirteen orphans or seven pairs applies, the checker's report is exactly what those last steps give |
| YakuChecker.FirstTurnWinAlone | pyriichi/yaku.py:131-137 | a first-turn win is reported as the only pattern |
| YakuChecker.KokushiAlwaysJuusanmen | pyriichi/yaku.py:139-148 | a thirteen-orphans hand is always reported as the thirteen-sided form (26 han), preceded by riichi exactly when declared |
| YakuChecker.ChiitoitsuAlone | pyriichi/yaku.py:150-155 | seven pairs is reported alone, preceded by riichi exactly when declared |
| YakuChecker.YakumanListFlagged | pyriichi/yaku.py:213-231 | every maximal-pattern result carries the maximal flag |
| YakuChecker.OrdinaryListUnflagged | pyriichi/yaku.py:157-209 | no ordinary-pattern result carries the maximal flag |
| YakuChecker.YakumanExcludesOrdinary | pyriichi/yaku.py:233-238 | once a maximal pattern is found, the report holds only maximal patterns and a declared riichi |
| YakuChecker.OrdinaryReport | pyriichi/yaku.py:240-243 | without special shapes or maximal patterns, the report is the conflict filter applied to the ordinary patterns, and nothing in it is maximal |
| YakuGroups.FirstSequenceHolding | pyriichi/yaku.py:1526-1544 | the index of the first sequence containing the tile, or None exactly when no sequence contains it |
| YakuGroups.DetermineWaitingType | pyriichi/yaku.py:1506-1554 | as written, the classification scan equals its specification: the first sequence holding the tile gives an edge wait on the 1 of 1-2-3 or the 9 of 7-8-9 and a closed wait anywhere else in it; failing that, a pair of the tile gives a single wait, else a two-sided wait |
| YakuGroups.YakuWaitInSequence | pyriichi/yaku.py:1526-1544 | as written, a tile lying in any sequence is never classified as a two-sided wait |
| YakuGroups.CheckTanyao | pyriichi/yaku.py:363-388 | all simples (1 han) exactly when the decomposition is non-empty and no pair, sequence or triplet tile is a terminal or an honor; quads are not inspected |
| YakuGroups.InspectedTilesSimple | pyriichi/yaku.py:375-387 | the inspected tiles are free of terminals and honors exactly when every inspected group is |
| YakuGroups.TanyaoByGroups | pyriichi/yaku.py:363-388 | all simples holds exactly for a non-empty decomposition whose inspected groups are all simple |
| YakuGroups.LastPair | pyriichi/yaku.py:423-427 | the pair the all-sequences check reads is a pair of the decomposition, absent exactly when there is none |
| YakuGroups.CheckPinfu | pyriichi/yaku.py:390-458 | all sequences (1 han) exactly for a concealed non-empty decomposition without triplets, with four sequences, a last pair that is neither a dragon nor the round wind, and, when the rules require one, a two-sided wait under the corrected classification |
| YakuGroups.ScanSequencesAndPair | pyriichi/yaku.py:410-422 | the scan gives up exactly when a triplet is present; otherwise it has counted the sequences and kept the last pair |
| YakuGroups.PinfuNeedsTileOutsideSequences | pyriichi/yaku.py:448-456 | as written, when a two-sided wait is required, a winning tile inside any sequence rules all sequences out |
| YakuGroups.IntendedYakuWait | pyriichi/yaku.py:1506-1554 | the corrected classification: closed only on the middle of a sequence holding the tile, never a double pair wait |
| YakuGroups.DetermineIntendedWait | pyriichi/yaku.py:1506-1554 | the scan with the corrected ends equals the corrected classification: the middle of the first sequence holding the tile is closed, the 3 of 1-2-3 and the 7 of 7-8-9 are edges, any other end stops the search; then a pair of the tile is a single wait, else two-sided |
| YakuGroups.IntendedWaitOuterEnd | pyriichi/yaku.py:1526-1544 | on the outer end of a non-edge sequence, with no pair of the tile, the corrected reading is two-sided while the as-written one is not |
| YakuGroups.WaitsAgreeOutsideSequences | pyriichi/yaku.py:1545-1554 | when no sequence holds the tile, both readings agree |
| YakuGroups.PinfuLostOnTwoSidedWin | pyriichi/yaku.py:448-456 | 234m 567m 234p 567p 55s won on 2m is read as a closed wait and loses all sequences; the corrected reading keeps it at 1 han |
| YakuGroups.SequencesOfMember | pyriichi/yaku.py:471-476 | a sequence (suit, start) is collected exactly when the decomposition holds it |
| YakuGroups.CollectSequences | pyriichi/yaku.py:471-476 | the scan collects the decomposition's sequences in order |
| YakuGroups.CheckIipeikou | pyriichi/yaku.py:460-487 | double sequence (1 han) exactly for a concealed decomposition holding some sequence twice |
| YakuGroups.CheckToitoi | pyriichi/yaku.py:489-516 | all triplets (2 han) exactly for a decomposition with no sequence, four triplets and a pair |
| YakuGroups.ScanTripletsAndPair | pyriichi/yaku.py:497-511 | the scan gives up exactly when a sequence is present; otherwise it has counted the triplets and noted whether a pair occurs |
| YakuGroups.CountGroups | pyriichi/yaku.py:518-535 | the counting loop returns the number of groups satisfying the test |
| YakuGroups.CheckSankantsu | pyriichi/yaku.py:518-535 | three quads (2 han) exactly when the decomposition has exactly three quads |
| YakuGroups.GroupYakuhai | pyriichi/yaku.py:556-587 | a group earns at most two value-honor results, only when it is an honor set, each worth 1 han and not maximal |
| YakuGroups.CheckYakuhai | pyriichi/yaku.py:537-589 | the scan equals the specification: dragon sets earn their dragon, wind sets earn the round wind and the seat wind they match |
| YakuGroups.CheckGroupYakuhai | pyriichi/yaku.py:564-587 | one group's verdicts: its dragon for a dragon set, the round and seat winds a wind set matches, nothing for any other group |
| YakuGroups.YakuhaiBound | pyriichi/yaku.py:537-589 | at most two value-honor results per set, each 1 han and not maximal |
| YakuGroups.SequenceRanks | pyriichi/yaku.py:604-611 | collects exactly the start ranks of the sequences of one suit |
| YakuGroups.CheckSanshokuDoujun | pyriichi/yaku.py:591-618 | three-colour sequences (2 han) exactly when some start rank has a sequence in each number suit |
| YakuGroups.CheckIttsu | pyriichi/yaku.py:620-649 | straight (2 han) exactly when one number suit holds the sequences from 1, 4 and 7 |
| YakuGroups.CheckSanankou | pyriichi/yaku.py:651-672 | three concealed triplets (2 han) exactly for a concealed hand with at least three triplets |
| YakuGroups.CheckChinitsu | pyriichi/yaku.py:674-696 | full flush (6 han) exactly when there is no honor group and one number suit |
| YakuGroups.CheckHonitsu | pyriichi/yaku.py:698-723 | half flush (3 han) exactly when there is one number suit and some honor group |
| YakuGroups.FlushesExclusive | pyriichi/yaku.py:674-723 | no decomposition earns both flushes |
| YakuGroups.CheckJunchan | pyriichi/yaku.py:745-790 | pure outside hand exactly when no group is an honor or a triplet, there are four sequences and each starts at 1 or 7; pairs and quads of any rank are not checked; han by configuration and concealment |
| YakuGroups.CheckChanta | pyriichi/yaku.py:792-839 | mixed outside hand exactly when enabled, some group is an honor, every number sequence starts at 1 or 7 and every number triplet or pair has rank 1 or 9; quads are not checked; han by configuration and concealment |
| YakuGroups.CheckHonroutou | pyriichi/yaku.py:941-960 | all terminals and honors (2 han) exactly for a non-empty decomposition whose every group is a terminal or honor |
| YakuGroups.CheckRyanpeikou | pyriichi/yaku.py:841-882 | two double sequences (3 han) exactly for a concealed hand whose four sequences form two distinct twins |
| YakuGroups.TripletRanks | pyriichi/yaku.py:897-904 | collects exactly the ranks of the triplets of one suit |
| YakuGroups.CheckSanshokuDoukou | pyriichi/yaku.py:884-911 | three-colour triplets (2 han) exactly when some rank has a triplet in each number suit |
| YakuGroups.CheckShousangen | pyriichi/yaku.py:913-939 | little three dragons (2 han) exactly with two dragon sets and a dragon pair |
| YakuGroups.CheckDaisangen | pyriichi/yaku.py:962-988 | big three dragons (maximal) exactly with three dragon sets |
| YakuGroups.CheckSuukantsu | pyriichi/yaku.py:990-1007 | four quads (maximal) exactly with four quads |
| YakuGroups.CheckSuuankou | pyriichi/yaku.py:1009-1048 | four concealed triplets (maximal) for a concealed hand with four triplets; the single-wait form (26 han) when enabled and the pair is of the winning tile |
| YakuGroups.CheckShousuushi | pyriichi/yaku.py:1107-1133 | little four winds (maximal) exactly with three wind sets and a wind pair |
| YakuGroups.CheckDaisuushi | pyriichi/yaku.py:1135-1157 | big four winds (maximal) exactly with four wind sets |
| YakuGroups.CheckChinroutou | pyriichi/yaku.py:1159-1186 | all terminals (maximal) exactly when every group is a terminal pair or set |
| YakuGroups.CheckTsuuiisou | pyriichi/yaku.py:1188-1207 | all honors (maximal) exactly for a non-empty all-honor decomposition |
| YakuGroups.CheckRyuuiisou | pyriichi/yaku.py:1209-1247 | all green (maximal) exactly when every group uses only green tiles |
| YakuGroups.GreenSequence | pyriichi/yaku.py:1225-1245 | the only all-green sequence is 2-3-4 of bamboo |
| YakuTiles.KindsOf | pyriichi/yaku.py:733-736 | the kinds (suit, rank) of the tiles, position by position |
| YakuTiles.AllTiles | pyriichi/yaku.py:129 | with thirteen tiles in hand the winning tile is appended; otherwise the hand is used as is |
| YakuTiles.KindTally | pyriichi/yaku.py:733-736 | the counting loop tallies each kind's occurrences |
| YakuTiles.CheckChiitoitsu | pyriichi/yaku.py:725-743 | seven pairs (2 han) exactly for a concealed fourteen-tile hand of seven distinct kinds, each held twice |
| YakuTiles.TallyAtMostPairs | pyriichi/yaku.py:735-740 | the counting loop runs to the end exactly when no kind occurs more than twice, and then holds each kind's number of occurrences |
| YakuTiles.ScanPairsMeaning | pyriichi/yaku.py:735-740 | the early-exit count fails exactly when some kind occurs three times or more, and otherwise equals the tally |
| YakuTiles.DoubledOfTally | pyriichi/yaku.py:742 | the kinds counted twice in the tally are exactly the kinds the hand holds twice |
| YakuTiles.RequiredKindsAreTerminalOrHonor | pyriichi/yaku.py:1062-1078 | the thirteen required kinds are exactly the terminals and the seven honors |
| YakuTiles.ScanKokushiKinds | pyriichi/yaku.py:1083-1103 | the scan reports whether only required kinds occur and, if so, how many of them are held twice |
| YakuTiles.CheckKokushiShape | pyriichi/yaku.py:1050-1105 | thirteen orphans exactly for a concealed fourteen-tile hand holding every required kind, nothing else, and exactly one kind twice |
| YakuTiles.SingleNumberSuit | pyriichi/yaku.py:1265-1275 | the suit is found exactly when every tile is of one number suit |
| YakuTiles.CheckChuuren | pyriichi/yaku.py:1249-1324 | nine gates (maximal) for a concealed fourteen-tile single-suit hand holding 1 and 9 three times and every 2-8; the pure form when some rank is held four times, 26 han when configured |
| YakuTiles.FindQuadRank | pyriichi/yaku.py:1300-1310 | the search finds a rank held four times exactly when one exists |
| YakuTiles.HasNineGatesMinimum | pyriichi/yaku.py:1285-1298 | the check holds exactly when every rank 1-9 meets its minimum count |
| YakuTiles.MinimumByOccurrences | pyriichi/yaku.py:1285-1298 | the tally-based minimum check is equivalent to the occurrence-based one |
| Scoring.RoundUp10 | pyriichi/scoring.py:55 | the result is the least multiple of ten not below the input |
| Scoring.TierTable | pyriichi/scoring.py:36-47 | maximal hands pay 8000 per maximal pattern; 13+, 11-12, 8-10, 6-7 han pay 8000, 6000, 4000, 3000; 5 han or 4 han at 40+ fu pay 2000 |
| Scoring.KiriageRows | pyriichi/scoring.py:48-50 | with the round-up rule, 4 han 30 fu and 3 han 60 fu pay a full hand; without it they pay 1920 |
| Scoring.TierTotalComputed | pyriichi/scoring.py:51-55 | outside the tiers the value is fu times 2 to the han+2, rounded up to ten; every value is a multiple of ten |
| Scoring.PaymentTotals | pyriichi/scoring.py:74-104 | 300 per counter and 1000 per stick go to the winner; a discard win is paid in full by the discarder; a dealer self-draw is paid equally by three seats; a non-dealer self-draw is paid double by the dealer |
| Scoring.TsumoCollectsFourfold | pyriichi/scoring.py:83-104 | a non-dealer self-draw collects four times what a discard win on the same base collects, bonuses for sticks aside |
| Scoring.ScoreResult.constructor | pyriichi/scoring.py:16-55 | the record holds its arguments, the tallies start at zero, and the total is the tier table's value for han, fu and the maximal count, capped at a full hand |
| Scoring.ScoreResult.CalculatePayments | pyriichi/scoring.py:57-104 | the payment fields become the split of the recorded total for the recorded payee; no other field changes |
| Scoring.HanSumConcat | pyriichi/scoring.py:343 | han sums add over concatenation |
| Scoring.CalculateHan | pyriichi/scoring.py:332-345 | the han total is at least the bonus-tile count, and at least any one pattern's han plus that count |
| Scoring.YakumanCount | pyriichi/scoring.py:173-174 | the number of maximal results; zero exactly when none is maximal |
| Scoring.ExtractPair | pyriichi/scoring.py:128-135 | the first pair of the decomposition, None exactly when it has none |
| Scoring.ScoringWaitCases | pyriichi/scoring.py:291-330 | a first pair of the winning tile is a single wait; otherwise the first sequence holding it gives a closed wait on its middle, an edge wait at either end of a 1- or 7-start sequence, and a two-sided wait elsewhere; with no such sequence, two-sided |
| Scoring.WaitClassifiersOnMiddle | pyriichi/scoring.py:320-321 | on the middle tile of a sequence, the calculator and the pattern checker both read a closed wait |
| Scoring.GroupFu | pyriichi/scoring.py:243-248 | only sets earn points, at most 32 |
| Scoring.SetFu | pyriichi/scoring.py:236-248 | the set points are bounded by 32 per group |
| Scoring.SetFuEven | pyriichi/scoring.py:245-248 | set points are always a multiple of four |
| Scoring.PairFu | pyriichi/scoring.py:252-269 | only an honor pair earns points, at most 6 |
| Scoring.CalculateFu | pyriichi/scoring.py:196-278 | the computation equals the fu specification: special shapes first, then 20 base, concealed-ron and self-draw points, set, pair and wait points, rounded up to ten |
| Scoring.FuSpecialShapes | pyriichi/scoring.py:221-225 | seven pairs is always 25 fu; all sequences is 30 fu on a self-draw and 20 otherwise |
| Scoring.FuGeneralPath | pyriichi/scoring.py:227-278 | outside the special shapes fu is a multiple of ten, at least 20, and bounded by the number of groups |
| Scoring.Calculate | pyriichi/scoring.py:137-194 | fu and han from their specifications, the maximal data from the results, and the total, capped at a full hand as corrected, split for payee seat 0 as written |
| Scoring.SplitUsesSeatZero | pyriichi/scoring.py:182-192 | with the dealer in seat 0, a 30 fu 1 han self-draw by seat 1 is split as a dealer win: three seats pay 240, instead of the dealer paying 480 |
| Scoring.CalculateForWinner | pyriichi/scoring.py:137-194 | the corrected calculation: the winner is recorded as payee before the split, which then follows the winner's seat |
| Scoring.WinnerSplitNonDealer | pyriichi/scoring.py:93-98 | a non-dealer self-draw split for the winner collects four shares, the dealer paying two of them |
| Scoring.ThreeHanOutscoresFour | pyriichi/scoring.py:46-55 | as written, 3 han 70 fu pays 2240, more than the 2000 of 4 han 70 fu |
| Scoring.CappedTierTotal | pyriichi/scoring.py:36-55 | the corrected tier table caps computed values at a full hand: values up to 5 han never exceed 2000 |
| Scoring.CapOnlyAboveFullHand | pyriichi/scoring.py:36-55 | the cap leaves every tier and every computed value up to 2000 as the table gives it, and turns larger computed values into 2000 |
| Scoring.CappedTierMonotone | pyriichi/scoring.py:36-55 | with the cap, more han never pays less on the same fu |
| TileStrings.ScanAt | pyriichi/utils.py:29-60 | each scanning step moves forward and yields at most one tile |
| TileStrings.ScanStep | pyriichi/utils.py:31-60 | one pass of the loop body returns what the step specification yields: a bracketed tile, a digit-and-suit tile with an optional closing bracket, or a skipped character |
| TileStrings.ParseTiles | pyriichi/utils.py:11-61 | the index loop yields exactly the recursive left-to-right reading of the string |
| TileStrings.ParseFromBound | pyriichi/utils.py:34-50 | a suffix never yields more tiles than it holds digits |
| TileStrings.ParseBound | pyriichi/utils.py:34-50 | a string never yields more tiles than it holds digits |
| TileStrings.ParseFromRanks | pyriichi/utils.py:35-48 | every rank read is a single decimal digit |
| TileStrings.TileText | pyriichi/utils.py:78 | a plain tile prints as two characters, a red one as four in brackets; no text starts with a closing bracket |
| TileStrings.FormatTiles | pyriichi/utils.py:64-78 | the text is empty exactly for no tiles and never starts with a closing bracket |
| TileStrings.FormatConcat | pyriichi/utils.py:78 | formatting distributes over concatenation |
| TileStrings.ParseFromFormat | pyriichi/utils.py:11-78 | reading the formatted text after any prefix gives the tiles back |
| TileStrings.ParseFormat | pyriichi/utils.py:11-78 | parsing formatted tiles gives the same tiles |
| TileStrings.FormatParseFixpoint | pyriichi/utils.py:11-78 | for any text, formatting what it parses to and parsing again gives the same tiles |
| Rules.Initial | pyriichi/rules.py:102-150 | a fresh engine is in the initial phase with no wall, no history and no one-shot windows, keeps its seat count and scores, and satisfies the invariant when there is one score per seat |
| Rules.RoundStart | pyriichi/rules.py:157-184 | a round starts in the dealing phase with a wall, the dealer to act, every per-round record cleared and the first-turn flags set; scores and match record kept; the invariant is preserved |
| Rules.DealSpec | pyriichi/rules.py:186-204 | dealing succeeds exactly in the dealing phase with a wall, and then starts play on the first turn, changing nothing else |
| Rules.AllowedAmongMembers | pyriichi/rules.py:214-253 | the offered actions are exactly the listed actions the seat may take |
| Rules.Available | pyriichi/rules.py:214-253 | nothing is offered outside play or to an unknown seat; an action is offered exactly when allowed; self-draw and ron wins are never offered; draw only to the seat to act under 14 tiles; pon only off another seat's discard; chi only off the left neighbour |
| Rules.RecordDiscard | pyriichi/rules.py:520-522 | as written, the discard is appended as the newest entry, and a history of at most four stays at most four |
| Rules.HistoryKeepsNewest | pyriichi/rules.py:520-522 | as written, after any sequence of discards the history is exactly the newest four |
| Rules.RecordOpening | pyriichi/rules.py:520-522 | the corrected history never displaces a recorded entry and gains the discard exactly while it holds fewer than four |
| Rules.IppatsuAfterDiscard | pyriichi/rules.py:524-527 | a declaring seat's discard counter goes up by one and its window closes on its second discard after the declaration; other seats and seats without a window are untouched |
| Rules.DiscardEffects | pyriichi/rules.py:517-535 | a discard puts the tile on the table, records it in the (corrected) opening history, passes the turn on, counts the turn, clears the first-turn flags and updates the one-shot windows, changing nothing else; the invariant is preserved |
| Rules.IppatsuSurvivesOneGoAround | pyriichi/rules.py:524-527 | a fresh declaration keeps its window through the declaring discard and loses it on the next one |
| Rules.HandleDiscard | pyriichi/rules.py:354-363 | refused exactly without a tile or a wall; a discard the hand refuses changes nothing; an accepted one applies the discard effects and forgets the drawn tile |
| Rules.HandleDraw | pyriichi/rules.py:336-352 | refused exactly without a wall or with 14 tiles in hand; a drawn tile is recorded as the seat's last draw; no tile ends the round as an exhausted draw |
| Rules.HandleRiichi | pyriichi/rules.py:430-438 | riichi takes 1000 from the seat, adds a stick and opens the seat's one-shot window with its counter at zero, changing nothing else |
| Rules.RiichiConservesPoints | pyriichi/rules.py:433-434 | scores plus 1000 per deposited stick are the same before and after a declaration |
| Rules.ClosedWindows | pyriichi/rules.py:1109-1111 | every one-shot window is closed with its counter at zero, for the same seats |
| Rules.InterruptIppatsu | pyriichi/rules.py:1098-1111 | a call or a quad closes every window when the rules say so; anything else changes nothing; only the windows ever change |
| Rules.RemoveLastDiscard | pyriichi/rules.py:489-492 | the history loses its newest entry only when that entry is the claimed tile from the discarder; otherwise it is unchanged |
| Rules.ClaimedHistory | pyriichi/rules.py:489-492 | the corrected claim removal: the claimed tile leaves the history as the source says when that discard was recorded there, and the history is untouched otherwise |
| Rules.AfterCall | pyriichi/rules.py:377-392 | after a call the caller acts next, the table and the drawn tile are cleared, the first turn is over, the history follows the corrected claim removal, the one-shot windows close as the call rule says, nothing else changes, and the report names the call and the tile |
| Rules.CallUndoesDiscard | pyriichi/rules.py:377-392 | a call on a discard leaves the history exactly as it was before that discard, recorded or not |
| Rules.HistoryStep | pyriichi/rules.py:517-522 | a discard, and a discard followed by a call, move the engine's history as the call-aware history of the round's discards says |
| Rules.HandlePon | pyriichi/rules.py:365-392 | pon succeeds exactly when the seat may pon, and then does what every call does |
| Rules.HandleChi | pyriichi/rules.py:394-428 | chi succeeds exactly when the seat may chi and the named sequence, if any, is offered; a sequence the hand does not offer is an invalid-sequence error |
| Rules.DrawRinshan | pyriichi/rules.py:494-515 | a replacement tile comes exactly when there is a wall and a dead-wall tile; it is recorded as the last draw; a win on it ends the round and cancels the four-quad abort; no tile is an exhausted draw |
| Rules.HandleKan | pyriichi/rules.py:440-453 | refused exactly without a tile; an open quad is counted and closes every window when the rules say so |
| Rules.HandleAnkan | pyriichi/rules.py:455-487 | refused exactly without a candidate; a robbed added quad is reported with its robbers and not counted, otherwise the quad is counted when made and no drawn tile stays recorded |
| Rules.QuadAftermath | pyriichi/rules.py:481-487 | after a quad, no pending quad and no drawn tile stay recorded and the quad count is not changed again |
| Rules.Execute | pyriichi/rules.py:314-334 | an action that is not available, or a win without a handler, is refused; outside play everything is refused; an accepted action preserves the invariant |
| Rules.StateAfter | pyriichi/rules.py:327-334 | a refused action leaves the engine unchanged |
| Rules.StaleTempFuritenExpires | pyriichi/rules.py:1236-1242 | a temporary furiten mark from an earlier turn no longer counts |
| Rules.WinSpec | pyriichi/rules.py:537-650 | an accepted win is the seat's own, by self-draw exactly as the engine decides, with a winning hand, a decomposition and at least one pattern found on the first decomposition; a furiten ron is never accepted |
| Rules.TsumoIgnoresFuriten | pyriichi/rules.py:569-571 | a self-drawn winning hand with a pattern is accepted whatever the furiten marks say |
| Rules.AsWrittenIppatsuTurns | pyriichi/rules.py:579-590 | as written, the one-shot flag itself is passed as the turn count: 1 for an open window and 0 for a closed one |
| Rules.IppatsuInverted | pyriichi/rules.py:579-590 | as written, the one-shot pattern fires exactly when the window is closed |
| Rules.IntendedIppatsuTurns | pyriichi/rules.py:579-590 | the corrected count is zero exactly while the window is open, and untracked otherwise |
| Rules.IppatsuAsIntended | pyriichi/rules.py:579-590 | with the corrected count the one-shot pattern fires exactly while the window is open |
| Rules.AfterWinCheck | pyriichi/rules.py:637-638 | an accepted win with four quads down sets the four-quad abort flag; nothing else changes |
| Rules.WinSpecIgnoresQuadFlag | pyriichi/rules.py:552-598 | the win check does not read the four-quad flag |
| Rules.AfterWinCheckTwice | pyriichi/rules.py:637-638 | two win checks leave the flag as one check accepting either would |
| Rules.RonVerdictAt | pyriichi/rules.py:676-678 | a seat's ron verdict is whether the win check accepts its hand on the discarded tile |
| Rules.RonVerdictsIgnoreQuadFlag | pyriichi/rules.py:672-678 | the ron verdicts do not depend on the four-quad flag, so the checks run in order see the same verdicts |
| Rules.TableVerdicts | pyriichi/rules.py:1122-1132 | with a tile on the table, the verdicts are the ron verdicts on it |
| Rules.SeatAfter | pyriichi/rules.py:673 | a seat offset from the discarder is a valid seat |
| Rules.RonCandidates | pyriichi/rules.py:670-678 | at most one candidate per seat checked, each a valid seat whose win is accepted |
| Rules.RonCandidatesOrdered | pyriichi/rules.py:672-678 | the candidates are exactly the accepted seats after the discarder, nearest first and without repeats |
| Rules.DiscarderNeverCandidate | pyriichi/rules.py:672 | the discarder can never ron its own tile |
| Rules.SelectRon | pyriichi/rules.py:680-712 | at most three winners, a prefix of the candidates; none exactly when there are no candidates or three with triple ron off; one candidate wins alone; three with triple ron on take the first three; two give the nearest alone under head bump, and both exactly when double ron is on |
| Rules.HeadBumpTakesNearest | pyriichi/rules.py:699-702 | under head bump with one or two candidates the nearest wins alone |
| Rules.SuufonRendaOnLaterDiscards | pyriichi/rules.py:771-789 | as written, a round opening 1m then four East tiles triggers four winds on its fifth discard, although its first four discards are not four winds |
| Rules.OpeningKeepsFirstFour | pyriichi/rules.py:520-522 | over discards with no call, the corrected history is the round's first four discards |
| Rules.HistoryWithCallsOpening | pyriichi/rules.py:489-492 | with calls, the corrected history is the opening of the discards that no call claimed |
| Rules.SuufonRendaAsIntended | pyriichi/rules.py:771-789 | over discards with no call, four winds fires on the corrected history exactly when the round's first four discards are one and the same wind |
| Rules.SuufonRendaWithCalls | pyriichi/rules.py:771-789 | with calls, four winds fires on the corrected history exactly when the first four discards no call claimed are one and the same wind |
| Rules.CallKeepsFrozenOpening | pyriichi/rules.py:771-789 | after E, E, E, S, 1m, 2m, 3m, a claimed S and an E, the history is still E, E, E, S and four winds does not fire |
| Rules.SanchaCount | pyriichi/rules.py:1126-1132 | the number of seats other than the discarder whose win is accepted, at most the seats counted |
| Rules.DrawKind | pyriichi/rules.py:714-738 | four winds before three rons before four quads before an exhausted wall before four riichi, each exactly when the earlier ones fail; nothing exactly when all fail |
| Rules.RyuukyokuSpec | pyriichi/rules.py:714-738 | the draw checks in the engine's order; the four-quad test reads the state left by the three-ron test's win checks |
| Rules.RonChanceCancelsSuukantsu | pyriichi/rules.py:726-731 | with four quads down, one seat able to ron the last discard cancels the four-quad abort without any ron being declared |
| Rules.Kyuushu | pyriichi/rules.py:747-769 | nine terminals exactly on the first turn with thirteen tiles covering at least nine terminal or honor kinds |
| Rules.KindsAtMostTiles | pyriichi/rules.py:767 | the terminal kinds are no more than the terminal tiles |
| Rules.KyuushuNeedsNineTiles | pyriichi/rules.py:747-769 | nine terminals needs at least nine terminal or honor tiles |
| Rules.TenpaiSeats | pyriichi/rules.py:1157-1160 | the tenpai seats are exactly the seats whose hand is tenpai |
| Rules.FirstNoten | pyriichi/rules.py:1186 | the lowest non-tenpai seat, or none exactly when every seat is tenpai |
| Rules.OneTenpaiChanges | pyriichi/rules.py:1168-1174 | every seat gets a change: the tenpai seat +3000, the others -1000 |
| Rules.TwoTenpaiChanges | pyriichi/rules.py:1176-1182 | every seat gets a change: tenpai seats +1500, the others -1500 |
| Rules.ThreeTenpaiChanges | pyriichi/rules.py:1184-1189 | the tenpai seats get +1000 and the non-tenpai seat -3000; no other seat appears |
| Rules.BappuChanges | pyriichi/rules.py:1150-1195 | no changes with zero or four tenpai seats; the lookup of a non-tenpai seat fails exactly when three seats are tenpai and none is not; changes only name real seats |
| Rules.ApplyChanges | pyriichi/rules.py:1191-1193 | each seat's score moves by its change, if any |
| Rules.TotalApply | pyriichi/rules.py:1191-1193 | the score total moves by the sum of the changes |
| Rules.OneTenpaiZeroSum | pyriichi/rules.py:1168-1174 | on four seats one tenpai seat's penalty sums to zero, and exactly the tenpai seat gains |
| Rules.TwoTenpaiZeroSum | pyriichi/rules.py:1176-1182 | on four seats two tenpai seats' penalty sums to zero |
| Rules.ThreeTenpaiZeroSum | pyriichi/rules.py:1184-1189 | on four seats three tenpai seats' penalty sums to zero, and exactly the tenpai seats gain |
| Rules.BappuZeroSum | pyriichi/rules.py:1150-1195 | on four seats the penalty always applies, sums to zero, and with one to three tenpai seats exactly the tenpai seats gain |
| Engine.RuleEngine.constructor | pyriichi/rules.py:102-150 | the new engine's fields are the initial engine state |
| Engine.RuleEngine.StartRound | pyriichi/rules.py:157-184 | the fields become the round-start state |
| Engine.RuleEngine.Deal | pyriichi/rules.py:186-204 | on success the fields become the dealt state; on refusal the error is returned and nothing changes |
| Engine.RuleEngine.GetAvailableActions | pyriichi/rules.py:214-253 | the listing loop returns exactly the available actions, in listing order |
| Engine.RuleEngine.ExecuteAction | pyriichi/rules.py:314-334 | after the guard, the handler leaves the fields and the report exactly as the dispatch prescribes; the invariant holds |
| Engine.RuleEngine.HandleDraw | pyriichi/rules.py:336-352 | the fields and the report become exactly those of the draw rule |
| Engine.RuleEngine.HandleDiscard | pyriichi/rules.py:354-363 | the fields and the report become exactly those of the discard rule |
| Engine.RuleEngine.ApplyDiscardEffects | pyriichi/rules.py:517-535 | the fields become exactly the discard effects |
| Engine.RuleEngine.CountIppatsuDiscard | pyriichi/rules.py:524-527 | only the one-shot windows change, as the discard rule for windows says |
| Engine.RuleEngine.RemoveLastDiscard | pyriichi/rules.py:489-492 | only the history changes, as the claimed-tile removal says |
| Engine.RuleEngine.InterruptIppatsu | pyriichi/rules.py:1098-1111 | the fields become exactly the interrupted state |
| Engine.RuleEngine.CloseWindows | pyriichi/rules.py:1109-1111 | only the windows change, all closed with counters at zero |
| Engine.RuleEngine.CompleteCall | pyriichi/rules.py:377-392 | the fields and the report become exactly those of a completed call, the claimed tile leaving the history only when it was recorded there |
| Engine.RuleEngine.HandlePon | pyriichi/rules.py:365-392 | the fields and the report become exactly those of the pon rule |
| Engine.RuleEngine.HandleChi | pyriichi/rules.py:394-428 | the fields and the report become exactly those of the chi rule |
| Engine.RuleEngine.HandleRiichi | pyriichi/rules.py:430-438 | the fields and the report become exactly those of a riichi declaration |
| Engine.RuleEngine.DrawRinshanTile | pyriichi/rules.py:494-515 | the fields, the report and the success flag become exactly those of the replacement draw |
| Engine.RuleEngine.HandleKan | pyriichi/rules.py:440-453 | the fields and the report become exactly those of the open-quad rule |
| Engine.RuleEngine.HandleAnkan | pyriichi/rules.py:455-487 | the fields and the report become exactly those of the concealed or added quad rule |
| Engine.RuleEngine.CheckFuritenDiscards | pyriichi/rules.py:1197-1224 | the scan reports discard furiten: the hand is tenpai and some discard matches a wait by suit and rank |
| Engine.RuleEngine.CheckFuritenTemp | pyriichi/rules.py:1226-1242 | temporary furiten holds exactly when marked in the current turn |
| Engine.RuleEngine.CheckFuritenRiichi | pyriichi/rules.py:1244-1254 | riichi furiten is the permanent mark |
| Engine.RuleEngine.IsFuriten | pyriichi/rules.py:1256-1270 | furiten is any of the three kinds |
| Engine.RuleEngine.CheckWin | pyriichi/rules.py:537-650 | returns exactly the win verdict, and the fields change only by the four-quad flag an accepted win may set |
| Engine.RuleEngine.WinPatterns | pyriichi/rules.py:579-595 | the patterns are the checker's report in the context the engine's fields give, with the one-shot window passed as the corrected turn count |
| Engine.RuleEngine.CheckMultipleRon | pyriichi/rules.py:652-712 | the winners are the multiple-ron selection from the ordered candidates; the fields change only by the four-quad flag |
| Engine.RuleEngine.RonVerdict | pyriichi/rules.py:676-678 | one seat's ron verdict, with the win check's effect on the flag |
| Engine.RuleEngine.SelectWinners | pyriichi/rules.py:680-712 | the if-chain returns the multiple-ron selection |
| Engine.RuleEngine.CheckSuufonRenda | pyriichi/rules.py:771-789 | four winds exactly when the history's first four entries are one and the same wind; on the corrected history these are the first four discards no call claimed |
| Engine.RuleEngine.CheckSanchaRon | pyriichi/rules.py:1113-1135 | three rons exactly when three seats other than the discarder win on the table tile; the checks' effect on the flag is kept |
| Engine.RuleEngine.CountRons | pyriichi/rules.py:1126-1132 | the loop counts the seats other than the discarder whose win is accepted |
| Engine.RuleEngine.CountRonStep | pyriichi/rules.py:1128-1132 | one seat of the count: it adds that seat when it is not the discarder and its win is accepted, and the engine state is what the win checks so far leave: the four-quad abort cancelled once any seat has won with four quads on the table |
| Engine.RuleEngine.OtherSeatVerdict | pyriichi/rules.py:1128-1132 | the discarder's seat is skipped and touches nothing; any other seat gets its ron verdict |
| Engine.RuleEngine.CheckAllRiichi | pyriichi/rules.py:740-745 | four riichi exactly during play with every hand in riichi |
| Engine.RuleEngine.CheckRyuukyoku | pyriichi/rules.py:714-738 | the result and the new fields are exactly those of the ordered draw checks |
| Engine.RuleEngine.CheckKyuushuKyuuhai | pyriichi/rules.py:747-769 | the scan decides nine terminals exactly as specified |
| Engine.RuleEngine.TenpaiPlayers | pyriichi/rules.py:1157-1160 | the loop collects exactly the tenpai seats, in order |
| Engine.RuleEngine.NotenBappu | pyriichi/rules.py:1150-1195 | returns the penalty changes and applies them to the scores, changing nothing else; a failed lookup leaves everything unchanged |
| Engine.RuleEngine.OneTenpaiPayments | pyriichi/rules.py:1168-1174 | the loop builds the one-tenpai changes |
| Engine.RuleEngine.TwoTenpaiPayments | pyriichi/rules.py:1176-1182 | the loop builds the two-tenpai changes |
| Engine.RuleEngine.ThreeTenpaiPayments | pyriichi/rules.py:1184-1189 | the loop builds the three-tenpai changes |
| Engine.RuleEngine.FirstNotenSeat | pyriichi/rules.py:1186 | the search finds the lowest non-tenpai seat |
| Engine.RuleEngine.ApplyScoreChanges | pyriichi/rules.py:1191-1193 | only the scores change, each by its seat's change |
| Engine.RuleEngine.CheckTobi | pyriichi/rules.py:1271-1285 | bust exactly when the rule is on and some seat is below zero |

## Left out

- Hand, wall and match-record internals are not part of this model.
  - Hands arrive as `HandFacts`: their tiles, melds, tenpai waits, and their answers to pon, chi and quad queries.
  - What a hand or the wall answers during one action arrives as `Outside`: the drawn tile, exhaustion, whether a discard is accepted, the chi choice, the robbed-quad winners, the replacement-tile win, and whether a quad was made.
  - A hand's winning test and its decompositions arrive as `WinFacts`. `hand.py`, `tiles.py` and `game_state.py` are not part of this model.
- Tiles compare by suit and rank only (`SameKind`), whatever the tile module's own equality does with the red flag.
- Bonus-tile counting (`_count_dora`) and the pao lookups are left out; `check_win` uses them only for its score record, which the model does not build. The score itself is modelled separately in `Scoring`. Passing the pao argument makes that call fail as written; see the paragraph on `pao_player` below.
- `apply_win_score`, `handle_ryuukyoku`, `end_round`, `check_flow_mangan`, `start_game` and the property getters are left out. They are match-level flow built on the match record's score and dealer updates, which are outside the model.
- The internals of `_check_chankan` and `_check_rinshan_win` are left out. Their verdicts are parameters (`chankanWinners`, `rinshanWin`).
- The furiten marks are cleared at round start but never set anywhere in the modelled core. They are read as they stand.
- `update_score` is assumed to add the change to the seat's score (`ApplyChanges`).
- On a three-seat table with every seat tenpai, `_calculate_noten_bappu` fails with an index error. The model returns `None` and leaves the scores alone (`Rules.BappuChanges`, `Engine.RuleEngine.NotenBappu`).
- The engine's scalar fields are grouped into four records by concern. Each handler still updates them field by field.
- The round record has one field the source does not: `lastDiscardRecorded`, whether the newest discard entered the history. Only the corrected history needs it; the source records every discard.
- Some source bodies are split into helper methods that each carry their own contract:
  - `CountIppatsuDiscard`, `CloseWindows` and `CompleteCall` for the discard and call handlers;
  - `WinPatterns`, `RonVerdict`, `SelectWinners`, `CountRons` and `OtherSeatVerdict` for the win and ron checks;
  - the three `*TenpaiPayments` methods and `FirstNotenSeat` for the penalty;
  - `ScanStep` for the tile parser.
- Python's `isdigit` also accepts non-ASCII digits. The parser model accepts only `0`-`9`.
- `format_tiles` prints each tile with `str(tile)`. The model takes that text to be digit plus suit letter, in brackets for a red tile.
- The parser hands its arguments to the tile constructor, which is not modelled. It yields `TileSpec` values: the suit letter, the rank and the red flag.
- han is a natural number.
- Scoring.ScoringWait: its own contract only excludes the double-pair wait; its cases are stated in `Scoring.ScoringWaitCases`.
- YakuChecker.CheckAll and the pattern checks do not model the checker's unused arguments (the game state where a check does not read it).
- Concurrency, I/O and timing: none in the modelled core.

The members below use a corrected definition from "## Findings" where the
source does otherwise; each line says what they do not reproduce.

- CheckPinfu (YakuGroups.CheckPinfu): with the two-sided-wait rule on, the wait is read with the corrected `IntendedYakuWait`, not with yaku.py's own classifier (modelled as written as `YakuGroups.YakuWait` and `YakuGroups.DetermineWaitingType`, whose pinfu is `YakuGroups.PinfuSpec`). A win on the outer end of a sequence, such as 2m in 234m 567m 234p 567p 55s, earns all sequences here and not in the source. The two readings agree whenever no sequence holds the winning tile (`YakuGroups.WaitsAgreeOutsideSequences`).
- BasicYaku (YakuChecker.BasicYaku): its all-sequences entry is the corrected one of CheckPinfu above.
- OrdinaryYaku (YakuChecker.OrdinaryYaku): contains the corrected all-sequences entry of CheckPinfu above.
- CheckAll (YakuChecker.CheckAll): its ordinary list contains the corrected all-sequences entry of CheckPinfu above.
- PatternYaku (YakuChecker.PatternYaku): its filtered ordinary list contains the corrected all-sequences entry of CheckPinfu above.
- WinSpec (Rules.WinSpec): its pattern list is the checker's report with the corrected all-sequences entry and the corrected one-shot count, so a concealed ron whose only pattern is all sequences, won on the outer end of a sequence, is accepted here where the source's `check_win` refuses it.
- CheckWin (Engine.RuleEngine.CheckWin): returns the verdict of WinSpec above, with the same corrected all-sequences entry.
- WinPatterns (Engine.RuleEngine.WinPatterns): runs the checker with the corrected all-sequences entry of CheckPinfu above.
- constructor (Scoring.ScoreResult.constructor): a computed total above 2000 becomes 2000; scoring.py:51-55 leaves it uncapped, so 3 han 70 fu gives 2240 there and 2000 here. The uncapped table is `Scoring.TierTotal`, whose rows are `Scoring.TierTable` and `Scoring.TierTotalComputed`.
- Calculate (Scoring.Calculate): its total is capped as in the constructor above; the payee is seat 0 as written.
- CalculateForWinner (Scoring.CalculateForWinner): its total is capped as in the constructor above.
- DiscardEffects (Rules.DiscardEffects): the discard is recorded with the corrected `Rules.RecordOpening`, which keeps the round's first four discards, not with the source's append-and-drop-oldest (modelled as written as `Rules.RecordDiscard`, whose newest-four property is `Rules.HistoryKeepsNewest`). After discards 1m, E, E, E, E the history is [1m, E, E, E] here and [E, E, E, E] in the source. It also notes whether the discard was recorded, for AfterCall below.
- HandleDiscard (Rules.HandleDiscard): applies DiscardEffects above, with its corrected history.
- HandleDiscard (Engine.RuleEngine.HandleDiscard): applies ApplyDiscardEffects below, with its corrected history.
- ApplyDiscardEffects (Engine.RuleEngine.ApplyDiscardEffects): appends the discard only while the history holds fewer than four entries, the corrected history of DiscardEffects above; rules.py:520-522 appends and then drops the oldest.
- AfterCall (Rules.AfterCall): the claimed tile leaves the history only when its discard was recorded there (`Rules.ClaimedHistory`). The source always records, so its removal at rules.py:489-492 pops any matching newest entry. Without the guard, a call on a later discard matching the fourth recorded entry would reopen that slot. With it, the history is the opening of the discards no call claimed (`Rules.HistoryWithCallsOpening`).
- HandlePon (Rules.HandlePon), HandleChi (Rules.HandleChi): complete the call with AfterCall above.
- CompleteCall (Engine.RuleEngine.CompleteCall): calls RemoveLastDiscard only when the discard was recorded, as AfterCall above; HandlePon (Engine.RuleEngine.HandlePon) and HandleChi (Engine.RuleEngine.HandleChi) use it.
- CheckSuufonRenda (Engine.RuleEngine.CheckSuufonRenda): reads the corrected history, so its first four entries are the first four discards that no call claimed (`Rules.SuufonRendaWithCalls`); with no call, the round's opening discards.
- Execute (Rules.Execute), ExecuteAction (Engine.RuleEngine.ExecuteAction): dispatch to the discard and call handlers above, so they inherit the corrected history, and to the win check, so they inherit the corrected all-sequences wait and one-shot count.
- RonVerdicts (Rules.RonVerdicts), TableVerdicts (Rules.TableVerdicts), RonVerdictAt (Rules.RonVerdictAt), RyuukyokuSpec (Rules.RyuukyokuSpec), RonVerdict (Engine.RuleEngine.RonVerdict), CheckMultipleRon (Engine.RuleEngine.CheckMultipleRon), CheckSanchaRon (Engine.RuleEngine.CheckSanchaRon), CountRons (Engine.RuleEngine.CountRons), CountRonStep (Engine.RuleEngine.CountRonStep), OtherSeatVerdict (Engine.RuleEngine.OtherSeatVerdict), CheckRyuukyoku (Engine.RuleEngine.CheckRyuukyoku): their verdicts come from WinSpec above, so they inherit its corrected all-sequences wait and one-shot count.

As written, `check_win` passes a `pao_player` argument (rules.py:616-626) that `ScoreCalculator.calculate` does not accept (scoring.py:137-147). Every win that passes the pattern check (rules.py:597-598) therefore raises a TypeError, and nothing after the call runs: not the payer, not the four-quad flag at rules.py:637-638, not the win result. The same failure reaches `check_multiple_ron`, `_check_sancha_ron`, `_check_chankan` and `_check_rinshan_win` whenever some seat can win. The model builds no score record in the win check and has no pao lookups, so it leaves that failing call out. An accepted win therefore returns a verdict, and may set the four-quad flag, where the source raises. The members that state behaviour past that call:

- AfterWinCheck (Rules.AfterWinCheck): the four-quad flag an accepted win sets; as written that line is never reached.
- RonChanceCancelsSuukantsu (Rules.RonChanceCancelsSuukantsu): one seat able to win cancels the four-quad abort; as written, the sancha check that precedes the abort (rules.py:726-731) raises instead.
- DrawRinshan (Rules.DrawRinshan): its replacement-tile win branch; as written `_check_rinshan_win` raises once the win check accepts.
- HandleAnkan (Rules.HandleAnkan): its robbed-quad branch; as written `_check_chankan` raises once the win check accepts. It also reaches DrawRinshan's win branch through `Rules.QuadAftermath`.
- HandleKan (Rules.HandleKan): reaches DrawRinshan's replacement-tile win branch, where the source raises.
- QuadAftermath (Rules.QuadAftermath): reaches DrawRinshan's replacement-tile win branch, where the source raises.
- DrawRinshanTile (Engine.RuleEngine.DrawRinshanTile): its replacement-tile win branch, as DrawRinshan above.
- HandleKan (Engine.RuleEngine.HandleKan): reaches DrawRinshanTile's win branch, where the source raises.
- HandleAnkan (Engine.RuleEngine.HandleAnkan): its robbed-quad branch, where `_check_chankan` raises, and DrawRinshanTile's win branch, where the source raises.
- CheckWin (Engine.RuleEngine.CheckWin): returns the accepted verdict and sets the flag where the source raises.
- CountRonStep (Engine.RuleEngine.CountRonStep): counts an accepted seat and keeps the flag effect where the source raises.

## Findings

| source | as written | input that shows it | evidently intended | confidence | as-written member | corrected member |
|---|---|---|---|---|---|---|
| pyriichi/yaku.py:1526-1544 | every tile that lies in a sequence is classified as an edge or closed wait, so the outer end of a two-sided sequence is never two-sided | 234m 567m 234p 567p 55s won on 2m, concealed, with a two-sided wait required: all sequences is lost | the outer end of a sequence that does not start at 1 or 7 is a two-sided wait, and all sequences holds at 1 han | not executed | YakuGroups.PinfuLostOnTwoSidedWin | YakuGroups.IntendedWaitOuterEnd |
| pyriichi/scoring.py:182-192 | the payee is seat 0 when the payments are split; the caller sets the winner only afterwards | dealer in seat 0, seat 1 self-draws at 30 fu 1 han: three seats pay 240 each instead of the dealer 480 and the others 240 | the split follows the winner's seat | not executed | Scoring.SplitUsesSeatZero | Scoring.WinnerSplitNonDealer |
| pyriichi/scoring.py:51-55 | computed values outside the tiers are not capped at a full hand | 3 han 70 fu pays 2240, more than the 2000 of 4 han 70 fu | values are capped at 2000, so more han never pays less | not executed | Scoring.ThreeHanOutscoresFour | Scoring.CappedTierMonotone |
| pyriichi/rules.py:520-522 | the history keeps the newest four discards, while the four-winds check at rules.py:771-789 reads them as the round's first four | discards 1m, E, E, E, E: four winds fires on the fifth discard | four winds fires only when the round's first four discards that no call claimed are one and the same wind | not executed | Rules.SuufonRendaOnLaterDiscards | Rules.SuufonRendaWithCalls |
| pyriichi/rules.py:579-590 | the one-shot flag (a boolean) is passed where the checker expects the number of turns since riichi | a riichi hand with an open window gets no one-shot pattern, and one with a closed window gets it | the pattern fires exactly while the window is open | not executed | Rules.IppatsuInverted | Rules.IppatsuAsIntended |
