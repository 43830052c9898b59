# Terminal bot turn engine, modelled in Dafny

This project models the per-turn decision engine of a rule-based bot for a
two-player tower-defence game played on a 28 × 28 diamond arena. The model
covers two variants of the bot.

The main variant (`python-2l-md/algo_strategy.py`) works in four phases each turn:

1. It reads the board: whether each flank of the opponent's edge is blocked (from a probe path), whether our own flanks are walled off, and how strongly the opponent defends each flank.
2. It builds: it closes flanks with temporary walls, refunds damaged structures, and walks a grouped build order while keeping a reserve of structure points (SP).
3. It deploys mobile units for the current mode (`defend`, `attack_left`, `attack_right`).
4. It picks next turn's mode, opening the chosen flank by removing its walls.

The earlier variant (`python-v1/algo_strategy.py`) has three parts:

- It patches the two entries into its base with "cover-up" walls when the opponent can afford a rush.
- It walks a flat build order that keeps one point per unpatched side.
- It records where the opponent scored.

The engine library the bot calls is not part of this model. Its queries and orders are given assumed contracts on an abstract board (`Board.GameState`):

- `units` is a map from cells to structures (kind, health, max health, upgraded).
- `sp` and `mp` are the bot's resources, as exact reals.
- `log` is the append-only list of orders the bot issued (`Build`, `Upgrade`, `Remove`, `Deploy`).

A build succeeds only on a free cell of our half with enough SP, and deducts the price. An upgrade charges the price of the structure actually upgraded. A removal is only recorded, because the engine carries it out after the turn.

Files and modules:

- `board.dfy` (`Board`): cells, structures, orders, the arena shape, the engine contracts.
- `edges.dfy` (`Edges`): the edge-blocked, misdirecting and edge-strength analyses.
- `deploy.dfy` (`Deploy`): the unit-count formulas and scout cells.
- `modes.dfy` (`Modes`): the mode decision and the removals that open a flank.
- `defense.dfy` (`Defense`): the friendly-side enumeration, the refunds, the build-order executor and the edge-closing plan.
- `turn.dfy` (`Turn`): the deployment orders of a turn as pure functions.
- `bot.dfy` (`Strategy`): the main variant as a class whose methods update its fields and the board.
- `v1.dfy` (`StrategyV1`): the earlier variant.

## Model

| member | source | states |
|---|---|---|
| Edges.IsEnemyEdgeBlocked | python-2l-md/algo_strategy.py:121-140 | the early-return scan answers exactly PathBlocked: the probe path has fewer than 10 steps or one of its first 10 steps lies below row 12 |
| Edges.PathBlockedReadsHorizonOnly | python-2l-md/algo_strategy.py:121-140 | two paths that agree on their first 10 steps get the same verdict: steps after index 9 are never read |
| Edges.MisdirectingMeansOpenPath | python-2l-md/algo_strategy.py:143-147 | a flank misdirects iff its probe path is long and never dips in its first 10 steps, and the corner cell holds a structure; so misdirecting implies not blocked |
| Edges.IsMyEdgeBlocked | python-2l-md/algo_strategy.py:150-161 | the early-return scan answers exactly EdgeClosed: every block cell of the flank holds a structure |
| Edges.EdgeClosedIsConjunction | python-2l-md/algo_strategy.py:150-161 | a flank is closed iff both of its two block cells are occupied, and adding structures never reopens it |
| Edges.ContributionRules | python-2l-md/algo_strategy.py:166-181 | a support adds 0, a wall off row 14 adds 0, a row-14 wall adds exactly 3 if upgraded and 1 if not, an upgraded turret adds 5 times what a plain one adds at the same cell, and a cell adds something iff it holds a turret or a row-14 wall |
| Edges.ComputeEdgeStrength | python-2l-md/algo_strategy.py:164-203 | the accumulating loop over the 8 sample cells returns the recursive sum EdgeStrength |
| Edges.StrengthNonNegative | python-2l-md/algo_strategy.py:164-182 | with positive distances the strength is at least 0 on every board |
| Edges.SampleCellsAwayFromAnchor | python-2l-md/algo_strategy.py:167-188 | no sample cell sits on its flank's anchor point, so every distance the strength divides by is positive |
| Edges.StrengthZeroIff | python-2l-md/algo_strategy.py:164-182 | the strength is 0 iff no sample cell holds a turret or a row-14 wall |
| Edges.StrengthReadsSamplesOnly | python-2l-md/algo_strategy.py:166-170 | boards that agree on the sample cells have the same strength |
| Edges.UpgradeNeverWeakens | python-2l-md/algo_strategy.py:171-180 | upgrading structures on sample cells never lowers the strength |
| Edges.EdgeStrengthReadsEnemyHalfOnly | python-2l-md/algo_strategy.py:68-69 | both flanks' sample cells lie on the opponent's half, so boards with the same opponent half have the same strengths |
| Deploy.InterceptorCountBounds | python-2l-md/algo_strategy.py:366-367 | the floored interceptor count is at least 3; it is the floor of enemy MP / 4 from 12 MP up and exactly 3 below 16 MP |
| Deploy.InterceptorCountExamples | python-2l-md/algo_strategy.py:366-367 | enemy MP 0, 4, 8 and 20 give 3, 3, 3 and 5 interceptors |
| Deploy.SiegeCountBounds | python-2l-md/algo_strategy.py:369-373 | for strength ≥ 0 the tank and demolisher counts lie in [2, 5], equal each other, and reach 5 from strength 30 |
| Deploy.SiegeCountExamples | python-2l-md/algo_strategy.py:369-373 | strengths 0, 10, 35 and 100 give 2, 3, 5 and 5 tanks and demolishers |
| Deploy.FirstScoutGroupBounds | python-2l-md/algo_strategy.py:375-376 | for strength ≥ 0 the first scout group lies in [5, 10]; it is 5 below strength 7 and 10 from 35 |
| Deploy.CountsMonotone | python-2l-md/algo_strategy.py:366-376 | every count formula is monotone in its input |
| Deploy.ScoutCellsOnOwnEdge | python-2l-md/algo_strategy.py:349-356 | both scout cells lie on our own deployment edge, and the mirrored cells are the left-right reflections of the plain ones |
| Modes.NextStrategyAttacksWeakerFlank | python-2l-md/algo_strategy.py:379-393 | the next mode attacks iff MP ≥ 10 and (MP > 20 or MP > enemy MP); it attacks left only when the left strength is at most the right, and attacks right only when the left is strictly stronger |
| Modes.NextStrategyMirrors | python-2l-md/algo_strategy.py:383-391 | swapping the two strengths swaps the attacked flank, except that ties go left |
| Modes.NextStrategyExamples | python-2l-md/algo_strategy.py:379-393 | concrete cases: 9 MP defends whatever the strengths; 25 against 30 MP attacks (more than 20); 15 against 12 attacks the weaker flank; 15 against 15 defends |
| Modes.RemoveOrders | python-2l-md/algo_strategy.py:386-391 | one removal order per cell, in the cells' order |
| Modes.OpeningOrdersStayOnTarget | python-2l-md/algo_strategy.py:383-391 | defending removes nothing; an attack removes only block cells of the attacked flank, none of the other flank's |
| Board.Place | python-2l-md/algo_strategy.py:357-364 | a deployment places between 0 and the requested count, never raises MP, and stops short only when the remaining MP no longer covers one unit |
| Board.PlaceSpendsPrice | python-2l-md/algo_strategy.py:357-364 | the MP left is the MP held minus the price of the units placed |
| Board.PlaceAffordable | python-2l-md/algo_strategy.py:357-364 | the units placed are affordable, and one more would not have been unless the request was met |
| Board.DeployOutcome | python-2l-md/algo_strategy.py:357-364 | a deployment at a cell off our edge or on a structure places nothing and spends nothing |
| Board.GameState.AttemptBuild | python-2l-md/algo_strategy.py:239 | the order is logged; it succeeds iff the cell is a free arena cell of our half and SP covers the price, placing a fresh unupgraded structure and deducting the price; the new board and SP are OrderEffect of the order; MP and the opponent's half are unchanged |
| Board.GameState.AttemptUpgrade | python-2l-md/algo_strategy.py:241 | the order is logged; it succeeds iff our structure there is not yet upgraded and SP covers its upgrade price, which is then deducted; the new board and SP are OrderEffect of the order |
| Board.GameState.AttemptRemove | python-2l-md/algo_strategy.py:242 | the order is logged and nothing else changes during the turn, as OrderEffect of a removal says |
| Board.GameState.AttemptDeploy | python-2l-md/algo_strategy.py:361 | the order is logged and MP and the count placed follow DeployOutcome; the board and SP are unchanged |
| Board.OrderEffectBounds | python-2l-md/algo_strategy.py:239-241 | the engine's effect of one order never raises SP or takes it below 0, keeps the board well-formed and leaves the opponent's half alone |
| Board.ReplayAppend | python-2l-md/algo_strategy.py:206-209 | the engine's effect of two order lists issued one after the other is the effect of the second from the board and SP the first left |
| Board.ReplayBounds | python-2l-md/algo_strategy.py:206-209 | a whole list of orders never raises SP or takes it below 0, keeps the board well-formed and leaves the opponent's half alone |
| Defense.FriendlySideIsLowerArena | python-2l-md/algo_strategy.py:253-264 | the diamond described column by column is exactly the arena cells below row 14 |
| Defense.EnumerateFriendlySideLocations | python-2l-md/algo_strategy.py:253-264 | the nested loops list exactly the friendly-side cells, each once, column by column and bottom to top |
| Defense.RefundOrdersSound | python-2l-md/algo_strategy.py:267-276 | every refund order removes a listed, occupied cell whose structure is a turret below 0.3 of its health or a wall below 0.5 |
| Defense.RefundOrdersComplete | python-2l-md/algo_strategy.py:267-276 | every listed cell holding such a structure is removed |
| Defense.RefundOrdersOrdered | python-2l-md/algo_strategy.py:267-276 | refunds follow the enumeration order |
| Defense.RefundCell | python-2l-md/algo_strategy.py:269-276 | one cell: a removal is ordered iff it holds a structure that needs a refund; supports and free cells are untouched |
| Defense.RefundLowHealthStructures | python-2l-md/algo_strategy.py:267-276 | the orders issued are RefundsOf the board: removals, on friendly-side cells only, of exactly the structures needing a refund, in enumeration order; board, SP and MP are unchanged |
| Defense.SortedRemovalsUnique | python-2l-md/algo_strategy.py:267-276 | two removal lists in strictly increasing board order with the same members are the same list |
| Defense.RefundsOfUnique | python-2l-md/algo_strategy.py:267-276 | the refund orders are determined by the board: two lists meeting RefundsOf are equal |
| Defense.JobOrdersPointwise | python-2l-md/algo_strategy.py:290-304 | job i of the walk becomes order i: a spawn job a build, an upgrade job an upgrade |
| Defense.FlattenAt | python-2l-md/algo_strategy.py:285-289 | the groups are walked in order: job j of group g comes right after every job of the groups before g |
| Defense.TryJob | python-2l-md/algo_strategy.py:290-304 | a job is issued iff SP minus its price is at least the reserve; an issued job logs its order and leaves the board and SP that the engine's effect of that order gives; an unissued job changes nothing |
| Defense.BuildWalkChecks | python-2l-md/algo_strategy.py:290-304 | in the reference walk every issued job passed its check against the SP the jobs before it left, the job after the last issued one failed against the final SP, and with nothing issued nothing changed |
| Defense.WalkStopsAtFirstShortfall | python-2l-md/algo_strategy.py:293-303 | from 10 SP with no reserve, walls at 6 then a turret at 2 issue one wall and leave 4 SP: the turret is never tried |
| Defense.BuildWalkAppend | python-2l-md/algo_strategy.py:279-304 | walking a + b is walking a and then, only when all of a was issued, b from the board and SP a left |
| Defense.BuildWalkBounds | python-2l-md/algo_strategy.py:290-304 | the walk never raises SP or takes it below 0, keeps the board well-formed and builds only on our half |
| Defense.BuildWalkReplays | python-2l-md/algo_strategy.py:290-304 | the board and SP the walk ends with are the engine's effect of the orders it issued |
| Defense.ChargedAsCheckedCases | python-2l-md/algo_strategy.py:298-303 | a spawn job, and an upgrade of a structure of the kind the job names, are charged no more than the price they were checked against |
| Defense.BuildWalkKeepsReserve | python-2l-md/algo_strategy.py:290-304 | starting at or above the reserve, the walk ends at or above it when every issued job was charged no more than its checked price |
| Defense.RunGroup | python-2l-md/algo_strategy.py:289-304 | one group, exactly as BuildWalk walks it: the same number of jobs issued, leaving the same board and SP; it reports a stop iff a job failed its check; the log gains those jobs' orders |
| Defense.BuildDefaultDefences | python-2l-md/algo_strategy.py:279-304 | the group-by-group walk ends exactly where BuildWalk over the flattened order ends (the same jobs issued, the same board and SP), so a group that stops short ends every later group; the log gains the orders of those jobs |
| Defense.CloseCell | python-2l-md/algo_strategy.py:238-242 | one block cell gets a build order, then an upgrade order only if enemy MP > 15, then a removal order; the board and SP are the engine's effect of those orders |
| Defense.CellCloseOrdersShape | python-2l-md/algo_strategy.py:238-242 | a cell's orders start with the wall and end with its removal; they hold an upgrade iff enemy MP > 15; all are on that cell |
| Defense.CloseOrdersPerCell | python-2l-md/algo_strategy.py:237-251 | closing a flank issues its two block cells' orders in list order |
| Defense.ClosePlanTurnZero | python-2l-md/algo_strategy.py:213-215 | on turn 0 both flanks are closed first, left then right |
| Defense.ClosePlanOrders | python-2l-md/algo_strategy.py:212-235 | the flank plan's orders equal TurnCloseOrders; a flank is closed iff it is turn 0 or ClosesFlank picks it |
| Defense.GuardedPlanCases | python-2l-md/algo_strategy.py:217-235 | after turn 0 a flank is closed iff, under a rush threat, it is the tossed one, or otherwise its guard holds |
| Defense.ClosePlanGuards | python-2l-md/algo_strategy.py:217-235 | after turn 0 a closed flank was open on both sides and not the attacked one; under a rush threat exactly the tossed flank is closed; defending against enemy MP ≥ 12 closes at most one flank; no flank is closed twice |
| Defense.ClosePlanMarks | python-2l-md/algo_strategy.py:212-251 | turn 0 closes both flanks; after it a flank is closed only if our flag said it was open |
| Turn.DeployCellsOnOwnEdge | python-2l-md/algo_strategy.py:307-346 | the interceptor, tank and demolisher cells lie on our edge, on the side of their flank |
| Turn.DeployStep | python-2l-md/algo_strategy.py:360-364 | a deployment never raises MP; a non-deployment, an empty count or an unusable cell spends nothing |
| Turn.DefendOrdersCoverOpenFlanks | python-2l-md/algo_strategy.py:308-314 | defending deploys only interceptors, at least 3 at a time, and deploys at a flank's interceptor cell iff that flank is open on both sides |
| Turn.TurnOrdersDeployOnOwnEdge | python-2l-md/algo_strategy.py:307-346 | every order of the deployment phase is a deployment on our own edge |
| Turn.AttackOrdersShape | python-2l-md/algo_strategy.py:315-346 | an attack ends with two scout waves on the far side from the attacked flank's name (attack_left scouts from the right half); the escort before them has demolishers iff the flank misdirects and is empty iff the flank is blocked; the two waves together use the floored MP pool |
| Turn.ScoutWavesSplitThePool | python-2l-md/algo_strategy.py:328-329 | the first wave gets its chosen size and the two waves add up to the floored pool |
| Strategy.AlgoStrategy.constructor | python-2l-md/algo_strategy.py:76-86 | at game start every flank is assumed blocked, both strengths are 100, both MP pools are 0, the mode is defend and no SP is held back |
| Strategy.AlgoStrategy.ParseGameState | python-2l-md/algo_strategy.py:110-118 | the fields hold both MP pools, the two path verdicts, the two strengths and the two own-flank checks of the current board |
| Strategy.AlgoStrategy.BlockFlank | python-2l-md/algo_strategy.py:237-251 | the flank's close orders are issued, the board and SP are the engine's effect of them, and the flank's flag is set; the other flag is unchanged |
| Strategy.AlgoStrategy.BlockEdge | python-2l-md/algo_strategy.py:212-235 | the orders are TurnCloseOrders of the state at entry, the board and SP are the engine's effect of them, and each flag ends set iff it was set, it is turn 0, or ClosesFlank picks the flank |
| Strategy.AlgoStrategy.CloseOpenFlanks | python-2l-md/algo_strategy.py:217-235 | after turn-0 closing: the orders are GuardedOrders, the board and SP are the engine's effect of them, and the flags follow ClosesFlank, with the guards reading the flags as turn 0 left them |
| Strategy.AlgoStrategy.CloseFlankWhen | python-2l-md/algo_strategy.py:228-235 | a flank is closed exactly when its guard holds, with the board and SP the engine's effect of its orders |
| Strategy.AlgoStrategy.BuildDefences | python-2l-md/algo_strategy.py:206-209 | the log gains the closing orders, then the refund orders of the board the closing left, then the orders of the jobs BuildWalk issues from there down to the reserve; the board and SP are where that walk ends; the flags follow ViewAfterClosing; no MP is spent |
| Strategy.AlgoStrategy.SpawnInterceptor | python-2l-md/algo_strategy.py:360-361 | one interceptor deployment of the floored count; MP follows DeployStep |
| Strategy.AlgoStrategy.SpawnDemolisher | python-2l-md/algo_strategy.py:363-364 | one demolisher deployment of the floored count; MP follows DeployStep |
| Strategy.AlgoStrategy.PingScouts | python-2l-md/algo_strategy.py:349-358 | two scout deployments at the scout cells, mirrored in attack_left, with floored counts; MP follows Spend |
| Strategy.AlgoStrategy.DefendOpenFlanks | python-2l-md/algo_strategy.py:308-314 | the defend branch issues DefendOrders |
| Strategy.AlgoStrategy.SendEscort | python-2l-md/algo_strategy.py:316-325 | the escort of the attacked flank is issued; the recorded MP is re-read only when the flank was open |
| Strategy.AlgoStrategy.LaunchAttack | python-2l-md/algo_strategy.py:315-346 | an attack issues AttackOrders, with the recorded MP re-read after the escort only when the flank was open |
| Strategy.AlgoStrategy.ExecuteTurnStrategy | python-2l-md/algo_strategy.py:307-346 | the deployment phase issues TurnOrders of the mode, and MP follows Spend over them |
| Strategy.AlgoStrategy.OrderRemovals | python-2l-md/algo_strategy.py:386-391 | one removal order per block cell, in order; the board and the resources are unchanged |
| Strategy.AlgoStrategy.EvaluateNextTurnStrategy | python-2l-md/algo_strategy.py:379-393 | the recorded MP is re-read; the mode is NextStrategy of the strengths recomputed from the current board; the opening removals are issued |
| Strategy.AlgoStrategy.PrepareTurn | python-2l-md/algo_strategy.py:104-105 | the board is read, then the building phase of BuildDefences runs on the view parsed from the entry board: closing orders, refunds, build walk, with the board and SP fixed by BuildPhase; MP is recorded and untouched |
| Strategy.AlgoStrategy.FinishTurn | python-2l-md/algo_strategy.py:106-107 | the log gains TurnOrders of the mode and view at entry, then the opening removals of the new mode; MP follows Spend over the deployment orders; the new mode is NextStrategy of the recomputed strengths; the board and SP are unchanged |
| Strategy.AlgoStrategy.StarterStrategy | python-2l-md/algo_strategy.py:103-107 | one turn: the strengths are those of the entry board; the log is the closing orders, the refunds, the build walk's orders, the TurnOrders of the mode and the view after closing, and the opening removals of the next mode; the board and SP follow BuildPhase; MP follows Spend over the deployment; the next mode is NextStrategy of MP after deploying |
| StrategyV1.NeedToPatchWindow | python-v1/algo_strategy.py:94-98 | patching is needed iff enemy MP ≥ 7 and own MP < 14; more enemy MP or less own MP never switches it off |
| StrategyV1.LeftScanStop | python-v1/algo_strategy.py:106-107 | the left scan stops at the first column, from its start rightwards, where [x, 11] or [x − 2, 13] is free; every column passed had both filled |
| StrategyV1.RightScanStop | python-v1/algo_strategy.py:119-120 | the mirrored scan stops at the first column, from its start leftwards, where [x, 11] or [x + 2, 13] is free |
| StrategyV1.LeftCoverMeaning | python-v1/algo_strategy.py:104-115 | a left patch wall is ordered iff the scan moved off column 4 and [x − 2, 12] is free; that cell is on our half, below a filled column pair |
| StrategyV1.RightCoverMeaning | python-v1/algo_strategy.py:117-128 | the mirror image from column 23, with the wall at [x + 2, 12] |
| StrategyV1.LeftScanIgnoresCoverRow | python-v1/algo_strategy.py:106-107 | a structure placed on row 12 does not move the left scan |
| StrategyV1.RightScanIgnoresCoverRow | python-v1/algo_strategy.py:119-120 | a structure placed on row 12 does not move the right scan, so the left wall cannot change the right side's decision |
| StrategyV1.CountFalse | python-v1/algo_strategy.py:90 | the count of open sides is between 0 and the number of sides, 0 iff all are covered, and the maximum iff none is |
| StrategyV1.CoverPassShape | python-v1/algo_strategy.py:100-132 | a pass orders only walls, and the walls it orders plus the sides still open after it equal the sides open before it |
| StrategyV1.CoverPass | python-v1/algo_strategy.py:100-132 | a cover-up pass as a value: two flags, the left one set iff the side was covered or its scan finds a free patch cell; only walls are ordered; the walls ordered plus the sides still open equal the sides open before |
| StrategyV1.OpponentBreachesAppend | python-v1/algo_strategy.py:166-172 | filtering two frames' breaches one after the other gives the filter of both, so the breaches keep their order |
| StrategyV1.OpponentBreachesExactly | python-v1/algo_strategy.py:166-172 | every kept location comes from a breach whose owner is not 1; every such breach is kept; nothing is kept iff every breach is ours |
| StrategyV1.AlgoStrategy.constructor | python-v1/algo_strategy.py:50 | the scored-on list starts empty |
| StrategyV1.AlgoStrategy.CoverLeft | python-v1/algo_strategy.py:104-115 | the while loop stops where LeftScanStop does; the result is whether a wall was ordered; the board and SP are the engine's effect of that order, so the wall stands iff SP covered it; the right scan is unaffected |
| StrategyV1.AlgoStrategy.CoverRight | python-v1/algo_strategy.py:117-128 | the mirrored loop stops where RightScanStop does; the result is whether a wall was ordered; the board and SP are the engine's effect of that order |
| StrategyV1.AlgoStrategy.CoverUp | python-v1/algo_strategy.py:100-132 | the result and orders are CoverPass of the entry board, the right side scanned on the board the left order left; the board and SP are the engine's effect of the orders; orders plus open sides afterwards equal open sides before |
| StrategyV1.AlgoStrategy.BuildDefaultDefences | python-v1/algo_strategy.py:134-153 | exactly BuildWalk over the build order with the patch cost as reserve: the same jobs issued, the same board and SP left, the first failing job ending the walk; the log gains those jobs' orders; SP never rises |
| StrategyV1.AlgoStrategy.BuildDefences | python-v1/algo_strategy.py:83-92 | with no patch needed the first pass is skipped as [true, true]; otherwise it is CoverPass of the entry board; the build walk is BuildWalk from the board the first pass left, reserving one point per side left open; the second pass is CoverPass of the board the walk left, and the final board and SP are the engine's effect of its orders, at most one wall per side left open |
| StrategyV1.AlgoStrategy.OnActionFrame | python-v1/algo_strategy.py:166-172 | the scored-on list grows by exactly the opponent's breach locations, in frame order |

## Left out

- Engine I/O: loading the configuration and the build-order file, `on_turn`, `submit_turn`, debug output and the program entry point. The build order and the unit prices are constructor and state parameters.
- The engine's path finder: each flank's probe path is an input sequence.
- Randomness: the coin toss of the rush branch is the `closeLeft` parameter.
- `math.dist`: each flank's eight distances are a given table of positive reals, taken as the Euclidean distances from the flank's anchor point, because the exact square roots are irrational. `Edges.SampleCellsAwayFromAnchor` shows that no distance is 0.
- `eval` of unit names: build jobs use a closed datatype of spawn and upgrade jobs over three structure kinds.
- Floating point: SP, MP, health and strengths are exact reals. `math.floor` is Dafny's `Floor`.
- JSON decoding of action frames: the filter takes an already-decoded list of breaches. It keeps only the location and the owner field.
- What the engine does with spawn-then-remove: the three orders are recorded literally. A removal does not change the board during the turn.
- The unused constant `DEMOLISHER_ENEMY_EDGE_STRENGTH_THRESHOLD` (python-2l-md/algo_strategy.py:71) has no counterpart.
- The earlier variant's `else if` (python-v1/algo_strategy.py:147) is a Python syntax error. It is modelled as the evident `elif`.
- The earlier variant's upgrade call passes two arguments, which the engine's signature does not accept (python-v1/algo_strategy.py:152). It is modelled as an upgrade of the job's cell.
- The earlier variant's `starter_strategy` only prints the SP held and calls `build_defences`, so it has no separate member.
- Defense.BuildWalkKeepsReserve: SP staying at or above the reserve is proved only when no upgrade met a structure dearer than the job names. The engine charges an upgrade at the price of the structure actually on the cell, while the executor's guard prices the job by its declared kind.
- StrategyV1.AlgoStrategy.BuildDefences: the reserve is one structure point per open side. It covers the patch walls only when a wall costs at most one point. The model proves the count bound on the walls, not an SP bound.
- `block_left_edge` and `block_right_edge` are one member, `BlockFlank`, parameterised by flank. The same holds for the paired edge checks, strengths and cover-up sides, which share one definition per flank.
- These methods only group the source's statements so that each proof stays small: `Strategy.AlgoStrategy.PrepareTurn`, `FinishTurn`, `LaunchAttack`, `SendEscort`, `DefendOpenFlanks`, `CloseOpenFlanks`, `CloseFlankWhen`, `Defense.CloseCell`, `Defense.RefundCell`, `Defense.TryJob`, `Defense.RunGroup`, `StrategyV1.AlgoStrategy.CoverLeft` and `CoverRight`. Each keeps the source's statement order.
