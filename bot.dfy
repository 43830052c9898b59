/** The bot itself: what it remembers between turns, and the four phases of
    its turn (read the board, build, deploy, choose next turn's mode). */
module Strategy {
  import opened Board
  import opened Edges
  import opened Deploy
  import opened Modes
  import opened Defense
  import opened Turn

  /** The four flank flags as read from the board and the probe paths at
      the start of a turn. */
  function ParsedView(units: map<Cell, Structure>, leftPath: seq<Cell>, rightPath: seq<Cell>): EdgeView {
    EdgeView(EdgeClosed(units, Left), EdgeClosed(units, Right), PathBlocked(leftPath), PathBlocked(rightPath))
  }

  /** Where the building phase leaves the board: the closing orders take
      the board from `units0` and `sp0` to the one Replay gives, `refunds`
      are the refund orders for that board, and the build order is walked
      from there as BuildWalk says, issuing `attempted` jobs and ending on
      `units` and `sp`. */
  ghost predicate BuildPhase(costs: Costs, units0: map<Cell, Structure>, sp0: real, closing: seq<Action>,
                             refunds: seq<Action>, jobs: seq<BuildJob>, minSpToSave: real, attempted: nat,
                             units: map<Cell, Structure>, sp: real) {
    var (closed, closedSp) := Replay(costs, units0, sp0, closing);
    && BoardValid(closed) && RefundsOf(closed, refunds)
    && BuildWalk(costs, closed, closedSp, jobs, minSpToSave) == Walk(attempted, units, sp)
    && attempted <= |jobs|
  }

  class AlgoStrategy {
    /** The mode chosen at the end of the previous turn. */
    var turnStrategy: TurnStrategy
    var myMP: real
    var enemyMP: real
    var myLeftEdgeBlocked: bool
    var myRightEdgeBlocked: bool
    var enemyLeftEdgeBlocked: bool
    var enemyRightEdgeBlocked: bool
    var enemyLeftEdgeStrength: real
    var enemyRightEdgeStrength: real
    /** Structure points the build order must leave for next turn's repairs. */
    const minSpToSave: real
    /** The configured build order, group by group. */
    const buildOrder: seq<seq<BuildJob>>
    /** Distances from each flank's anchor to its sample cells, one positive
        entry per sample cell. */
    const leftDistances: seq<real>
    const rightDistances: seq<real>

    ghost predicate Valid()
      reads this
    {
      DistanceTable(Left, leftDistances) && DistanceTable(Right, rightDistances)
    }

    /** The four flank flags as the edge-closing rule reads them. */
    function View(): EdgeView
      reads this
    {
      EdgeView(myLeftEdgeBlocked, myRightEdgeBlocked, enemyLeftEdgeBlocked, enemyRightEdgeBlocked)
    }

    /** Set up at game start: every flank assumed blocked, both flanks of the
        opponent assumed strongly defended, no mobile points, defending, and
        no structure points held back. */
    constructor (buildOrder: seq<seq<BuildJob>>, leftDistances: seq<real>, rightDistances: seq<real>)
      requires DistanceTable(Left, leftDistances) && DistanceTable(Right, rightDistances)
      ensures Valid()
      ensures this.buildOrder == buildOrder && this.leftDistances == leftDistances && this.rightDistances == rightDistances
      ensures View() == EdgeView(true, true, true, true)
      ensures enemyLeftEdgeStrength == 100.0 && enemyRightEdgeStrength == 100.0
      ensures myMP == 0.0 && enemyMP == 0.0 && turnStrategy == Defend && minSpToSave == 0.0
    {
      this.buildOrder := buildOrder;
      this.leftDistances := leftDistances;
      this.rightDistances := rightDistances;
      myLeftEdgeBlocked := true;
      myRightEdgeBlocked := true;
      enemyLeftEdgeBlocked := true;
      enemyRightEdgeBlocked := true;
      enemyLeftEdgeStrength := 100.0;
      enemyRightEdgeStrength := 100.0;
      myMP := 0.0;
      enemyMP := 0.0;
      turnStrategy := Defend;
      minSpToSave := 0.0;
    }

    /** Read the turn's facts: both mobile-point pools, whether each flank
        of the opponent's edge is blocked (from the engine's probe paths,
        which start at (1, 12) and (26, 12)), the opponent's defence strength on each flank, and whether each flank of
        our edge is walled off. */
    method ParseGameState(gs: GameState, leftPath: seq<Cell>, rightPath: seq<Cell>)
      requires Valid() && gs.Valid()
      modifies this`myMP, this`enemyMP, this`enemyLeftEdgeBlocked, this`enemyRightEdgeBlocked,
               this`enemyLeftEdgeStrength, this`enemyRightEdgeStrength, this`myLeftEdgeBlocked, this`myRightEdgeBlocked
      ensures Valid()
      ensures myMP == gs.mp && enemyMP == gs.enemyMP
      ensures enemyLeftEdgeBlocked == PathBlocked(leftPath) && enemyRightEdgeBlocked == PathBlocked(rightPath)
      ensures enemyLeftEdgeStrength == EdgeStrength(gs.units, Left, leftDistances)
      ensures enemyRightEdgeStrength == EdgeStrength(gs.units, Right, rightDistances)
      ensures myLeftEdgeBlocked == EdgeClosed(gs.units, Left) && myRightEdgeBlocked == EdgeClosed(gs.units, Right)
    {
      myMP := gs.mp;
      enemyMP := gs.enemyMP;
      enemyLeftEdgeBlocked := IsEnemyEdgeBlocked(leftPath);
      enemyRightEdgeBlocked := IsEnemyEdgeBlocked(rightPath);
      enemyLeftEdgeStrength := ComputeEdgeStrength(gs.units, Left, leftDistances);
      enemyRightEdgeStrength := ComputeEdgeStrength(gs.units, Right, rightDistances);
      myLeftEdgeBlocked := IsMyEdgeBlocked(gs.units, Left);
      myRightEdgeBlocked := IsMyEdgeBlocked(gs.units, Right);
    }

    /** Close one flank of our edge: on each block cell a wall, upgraded when
        the opponent holds more than UPGRADE_EDGE_WALL_THRESHOLD mobile
        points, then its removal order; the flank is marked closed. */
    method BlockFlank(gs: GameState, f: Flank)
      requires gs.Valid()
      modifies this`myLeftEdgeBlocked, this`myRightEdgeBlocked, gs
      ensures gs.Valid()
      ensures gs.log == old(gs.log) + CloseOrders(f, enemyMP)
      ensures (gs.units, gs.sp) == Replay(gs.costs, old(gs.units), old(gs.sp), CloseOrders(f, enemyMP))
      ensures myLeftEdgeBlocked == (old(myLeftEdgeBlocked) || f == Left)
      ensures myRightEdgeBlocked == (old(myRightEdgeBlocked) || f == Right)
      ensures gs.mp == old(gs.mp) && EnemyHalf(gs.units) == EnemyHalf(old(gs.units))
    {
      var cells := BlockCells(f);
      for i := 0 to |cells|
        invariant gs.Valid()
        invariant gs.log == old(gs.log) + CellsCloseOrders(cells[..i], enemyMP)
        invariant (gs.units, gs.sp) == Replay(gs.costs, old(gs.units), old(gs.sp), CellsCloseOrders(cells[..i], enemyMP))
        invariant gs.mp == old(gs.mp) && EnemyHalf(gs.units) == EnemyHalf(old(gs.units))
        invariant myLeftEdgeBlocked == old(myLeftEdgeBlocked) && myRightEdgeBlocked == old(myRightEdgeBlocked)
      {
        CloseCell(gs, cells[i], enemyMP);
        assert cells[..i + 1][..i] == cells[..i];
        ConcatAssoc(old(gs.log), CellsCloseOrders(cells[..i], enemyMP), CellCloseOrders(cells[i], enemyMP));
        ReplayAppend(gs.costs, old(gs.units), old(gs.sp), CellsCloseOrders(cells[..i], enemyMP),
                     CellCloseOrders(cells[i], enemyMP));
      }
      assert cells[..|cells|] == cells;
      if f == Left {
        myLeftEdgeBlocked := true;
      } else {
        myRightEdgeBlocked := true;
      }
    }

    /** Close the flanks of our edge that ClosePlan picks, in its order;
        `closeLeft` is the coin toss that picks one flank under a rush
        threat. */
    method BlockEdge(gs: GameState, closeLeft: bool)
      requires gs.Valid()
      modifies this`myLeftEdgeBlocked, this`myRightEdgeBlocked, gs
      ensures gs.Valid()
      ensures gs.log == old(gs.log) + old(TurnCloseOrders(gs.turnNumber, turnStrategy, enemyMP, View(), closeLeft))
      ensures (gs.units, gs.sp) == Replay(gs.costs, old(gs.units), old(gs.sp),
                                          old(TurnCloseOrders(gs.turnNumber, turnStrategy, enemyMP, View(), closeLeft)))
      ensures myLeftEdgeBlocked == old(myLeftEdgeBlocked || gs.turnNumber == 0
                                       || ClosesFlank(Left, turnStrategy, enemyMP, View(), closeLeft))
      ensures myRightEdgeBlocked == old(myRightEdgeBlocked || gs.turnNumber == 0
                                        || ClosesFlank(Right, turnStrategy, enemyMP, View(), closeLeft))
      ensures gs.mp == old(gs.mp) && EnemyHalf(gs.units) == EnemyHalf(old(gs.units))
    {
      if gs.turnNumber == 0 {
        BlockFlank(gs, Left);
        BlockFlank(gs, Right);
        ConcatAssoc(old(gs.log), CloseOrders(Left, enemyMP), CloseOrders(Right, enemyMP));
        ReplayAppend(gs.costs, old(gs.units), old(gs.sp), CloseOrders(Left, enemyMP), CloseOrders(Right, enemyMP));
        ghost var log1, units1, sp1 := gs.log, gs.units, gs.sp;
        CloseOpenFlanks(gs, closeLeft);
        assert gs.log == log1 + [] && (gs.units, gs.sp) == (units1, sp1);
      } else {
        CloseOpenFlanks(gs, closeLeft);
      }
    }

    /** After the turn-0 opening: under a rush threat close the flank the
        coin toss picks and nothing else; otherwise close each flank that is
        open on both sides, not attacked through, and either the opponent is
        short of BLOCK_EDGE_ENEMY_MP_THRESHOLD mobile points or the bot
        attacks the other flank. */
    method CloseOpenFlanks(gs: GameState, closeLeft: bool)
      requires gs.Valid()
      modifies this`myLeftEdgeBlocked, this`myRightEdgeBlocked, gs
      ensures gs.Valid()
      ensures gs.log == old(gs.log) + old(GuardedOrders(turnStrategy, enemyMP, View(), closeLeft))
      ensures (gs.units, gs.sp) == Replay(gs.costs, old(gs.units), old(gs.sp), old(GuardedOrders(turnStrategy, enemyMP, View(), closeLeft)))
      ensures myLeftEdgeBlocked == (old(myLeftEdgeBlocked) || old(ClosesFlank(Left, turnStrategy, enemyMP, View(), closeLeft)))
      ensures myRightEdgeBlocked == (old(myRightEdgeBlocked) || old(ClosesFlank(Right, turnStrategy, enemyMP, View(), closeLeft)))
      ensures gs.mp == old(gs.mp) && EnemyHalf(gs.units) == EnemyHalf(old(gs.units))
    {
      if turnStrategy == Defend && enemyMP >= BLOCK_EDGE_ENEMY_MP_THRESHOLD && !myLeftEdgeBlocked
         && !enemyLeftEdgeBlocked && !myRightEdgeBlocked && !enemyRightEdgeBlocked {
        BlockFlank(gs, if closeLeft then Left else Right);
        return;
      }
      var left := !enemyLeftEdgeBlocked && !myLeftEdgeBlocked && turnStrategy != AttackLeft
                  && (enemyMP < BLOCK_EDGE_ENEMY_MP_THRESHOLD || turnStrategy == AttackRight);
      var right := !enemyRightEdgeBlocked && !myRightEdgeBlocked && turnStrategy != AttackRight
                   && (enemyMP < BLOCK_EDGE_ENEMY_MP_THRESHOLD || turnStrategy == AttackLeft);
      CloseFlankWhen(gs, Left, left);
      CloseFlankWhen(gs, Right, right);
      ConcatAssoc(old(gs.log), if left then CloseOrders(Left, enemyMP) else [],
                  if right then CloseOrders(Right, enemyMP) else []);
      ReplayAppend(gs.costs, old(gs.units), old(gs.sp), if left then CloseOrders(Left, enemyMP) else [],
                   if right then CloseOrders(Right, enemyMP) else []);
    }

    /** Close flank `f` when `guard` holds, and do nothing otherwise. */
    method CloseFlankWhen(gs: GameState, f: Flank, guard: bool)
      requires gs.Valid()
      modifies this`myLeftEdgeBlocked, this`myRightEdgeBlocked, gs
      ensures gs.Valid()
      ensures gs.log == old(gs.log) + (if guard then CloseOrders(f, enemyMP) else [])
      ensures (gs.units, gs.sp) == Replay(gs.costs, old(gs.units), old(gs.sp), if guard then CloseOrders(f, enemyMP) else [])
      ensures myLeftEdgeBlocked == (old(myLeftEdgeBlocked) || (guard && f == Left))
      ensures myRightEdgeBlocked == (old(myRightEdgeBlocked) || (guard && f == Right))
      ensures gs.mp == old(gs.mp) && EnemyHalf(gs.units) == EnemyHalf(old(gs.units))
    {
      if guard {
        BlockFlank(gs, f);
      } else {
        assert gs.log + [] == gs.log;
      }
    }

    /** The building phase: close flanks, refund damaged structures on the
        board the closing left, then walk the build order down to the
        reserve from there. Structures are only ever placed or upgraded on
        our half, and no mobile points are spent. */
    method BuildDefences(gs: GameState, closeLeft: bool) returns (ghost refunds: seq<Action>, ghost attempted: nat)
      requires gs.Valid()
      modifies this`myLeftEdgeBlocked, this`myRightEdgeBlocked, gs
      ensures gs.Valid()
      ensures View() == old(ViewAfterClosing(gs.turnNumber, turnStrategy, enemyMP, View(), closeLeft))
      ensures var closing := old(TurnCloseOrders(gs.turnNumber, turnStrategy, enemyMP, View(), closeLeft));
              && BuildPhase(gs.costs, old(gs.units), old(gs.sp), closing, refunds, Flatten(buildOrder), minSpToSave,
                            attempted, gs.units, gs.sp)
              && gs.log == old(gs.log) + closing + refunds + JobOrders(Flatten(buildOrder)[..attempted])
      ensures gs.mp == old(gs.mp) && EnemyHalf(gs.units) == EnemyHalf(old(gs.units))
    {
      ghost var closing := TurnCloseOrders(gs.turnNumber, turnStrategy, enemyMP, View(), closeLeft);
      BlockEdge(gs, closeLeft);
      ghost var log1 := gs.log;
      refunds := RefundLowHealthStructures(gs);
      ghost var log2 := gs.log;
      attempted := BuildDefaultDefences(gs, buildOrder, minSpToSave);
      assert gs.log == log2 + JobOrders(Flatten(buildOrder)[..attempted]);
    }

    /** Deploy `number` interceptors, floored, at `c`. */
    method SpawnInterceptor(gs: GameState, c: Cell, number: real)
      requires gs.Valid()
      modifies gs
      ensures gs.Valid()
      ensures gs.log == old(gs.log) + [Deploy(Interceptor, c, number.Floor)]
      ensures gs.mp == DeployStep(old(gs.units), old(gs.mp), gs.costs, Deploy(Interceptor, c, number.Floor))
      ensures gs.units == old(gs.units) && gs.sp == old(gs.sp)
    {
      var _ := gs.AttemptDeploy(Interceptor, c, number.Floor);
    }

    /** Deploy `number` demolishers, floored, at `c`. */
    method SpawnDemolisher(gs: GameState, c: Cell, number: real)
      requires gs.Valid()
      modifies gs
      ensures gs.Valid()
      ensures gs.log == old(gs.log) + [Deploy(Demolisher, c, number.Floor)]
      ensures gs.mp == DeployStep(old(gs.units), old(gs.mp), gs.costs, Deploy(Demolisher, c, number.Floor))
      ensures gs.units == old(gs.units) && gs.sp == old(gs.sp)
    {
      var _ := gs.AttemptDeploy(Demolisher, c, number.Floor);
    }

    /** Two scout waves; attacking left reflects them onto the bottom-right
        edge. */
    method PingScouts(gs: GameState, largerX: int, gap: int, largerSize: real, smallerSize: real)
      requires gs.Valid()
      modifies gs
      ensures gs.Valid()
      ensures var orders := ScoutOrders(turnStrategy == AttackLeft, largerX, gap, largerSize, smallerSize);
              gs.log == old(gs.log) + orders && gs.mp == Spend(old(gs.units), old(gs.mp), gs.costs, orders)
      ensures gs.units == old(gs.units) && gs.sp == old(gs.sp)
    {
      var cells := ScoutCells(turnStrategy == AttackLeft, largerX, gap);
      ghost var first, second := Deploy(Scout, cells.0, largerSize.Floor), Deploy(Scout, cells.1, smallerSize.Floor);
      var _ := gs.AttemptDeploy(Scout, cells.0, largerSize.Floor);
      assert gs.mp == DeployStep(old(gs.units), old(gs.mp), gs.costs, first);
      ghost var mid := gs.mp;
      var _ := gs.AttemptDeploy(Scout, cells.1, smallerSize.Floor);
      assert gs.mp == DeployStep(old(gs.units), mid, gs.costs, second);
      SpendPair(old(gs.units), old(gs.mp), gs.costs, first, second);
      assert ScoutOrders(turnStrategy == AttackLeft, largerX, gap, largerSize, smallerSize) == [first, second];
    }

    /** The deployment phase: the orders TurnOrders gives for the current
        mode and flags. Once an escort was sent, the recorded mobile points
        are refreshed from the pool before the scouts are sized. */
    method ExecuteTurnStrategy(gs: GameState)
      requires gs.Valid()
      modifies this`myMP, gs
      ensures gs.Valid()
      ensures var orders := TurnOrders(turnStrategy, View(), enemyLeftEdgeStrength, enemyRightEdgeStrength, enemyMP,
                                       old(gs.units), old(gs.mp), gs.costs, old(myMP));
              gs.log == old(gs.log) + orders && gs.mp == Spend(old(gs.units), old(gs.mp), gs.costs, orders)
      ensures turnStrategy == Defend || TargetBlocked(turnStrategy, View()) ==> myMP == old(myMP)
      ensures turnStrategy != Defend && !TargetBlocked(turnStrategy, View()) ==>
                myMP == Spend(old(gs.units), old(gs.mp), gs.costs,
                              EscortOrders(Target(turnStrategy), false, old(gs.units),
                                           TargetStrength(turnStrategy, enemyLeftEdgeStrength, enemyRightEdgeStrength), enemyMP))
      ensures gs.units == old(gs.units) && gs.sp == old(gs.sp)
    {
      if turnStrategy == Defend {
        DefendOpenFlanks(gs);
      } else {
        LaunchAttack(gs);
      }
    }

    /** Attacking: the escort, then the two scout waves sized from the
        recorded mobile points. */
    method LaunchAttack(gs: GameState)
      requires gs.Valid() && turnStrategy != Defend
      modifies this`myMP, gs
      ensures gs.Valid()
      ensures var orders := AttackOrders(turnStrategy, View(), enemyLeftEdgeStrength, enemyRightEdgeStrength, enemyMP,
                                         old(gs.units), old(gs.mp), gs.costs, old(myMP));
              gs.log == old(gs.log) + orders && gs.mp == Spend(old(gs.units), old(gs.mp), gs.costs, orders)
      ensures TargetBlocked(turnStrategy, View()) ==> myMP == old(myMP)
      ensures !TargetBlocked(turnStrategy, View()) ==>
                myMP == Spend(old(gs.units), old(gs.mp), gs.costs,
                              EscortOrders(Target(turnStrategy), false, old(gs.units),
                                           TargetStrength(turnStrategy, enemyLeftEdgeStrength, enemyRightEdgeStrength), enemyMP))
      ensures gs.units == old(gs.units) && gs.sp == old(gs.sp)
    {
      ghost var units0, mp0, log0, v := gs.units, gs.mp, gs.log, View();
      SendEscort(gs);
      ghost var log1, mp1 := gs.log, gs.mp;
      var first := FirstScoutGroup(TargetStrength(turnStrategy, enemyLeftEdgeStrength, enemyRightEdgeStrength));
      var larger, smaller := first as real, myMP - first as real;
      PingScouts(gs, SCOUT_COLUMN, SCOUT_GAP, larger, smaller);
      AttackOrdersSplit(turnStrategy, v, enemyLeftEdgeStrength, enemyRightEdgeStrength, enemyMP,
                        units0, mp0, gs.costs, old(myMP), myMP, log0, log1, gs.log, mp1, gs.mp);
      assert View() == v;
    }

    /** Defending: interceptors to each flank open on both sides. */
    method DefendOpenFlanks(gs: GameState)
      requires gs.Valid()
      modifies gs
      ensures gs.Valid()
      ensures var orders := DefendOrders(View(), enemyMP);
              gs.log == old(gs.log) + orders && gs.mp == Spend(old(gs.units), old(gs.mp), gs.costs, orders)
      ensures gs.units == old(gs.units) && gs.sp == old(gs.sp)
    {
      ghost var issued: seq<Action> := [];
      if !enemyLeftEdgeBlocked && !myLeftEdgeBlocked {
        ghost var a := Deploy(Interceptor, DefenseInterceptorCell(Left), InterceptorCount(enemyMP).Floor);
        SpawnInterceptor(gs, DefenseInterceptorCell(Left), InterceptorCount(enemyMP));
        SpendSnoc(old(gs.units), old(gs.mp), gs.costs, [], a);
        issued := [a];
      }
      if !enemyRightEdgeBlocked && !myRightEdgeBlocked {
        ghost var a := Deploy(Interceptor, DefenseInterceptorCell(Right), InterceptorCount(enemyMP).Floor);
        SpawnInterceptor(gs, DefenseInterceptorCell(Right), InterceptorCount(enemyMP));
        SpendSnoc(old(gs.units), old(gs.mp), gs.costs, issued, a);
        issued := issued + [a];
      }
      assert issued == DefendOrders(View(), enemyMP);
    }

    /** Attacking: the escort for the target flank; the recorded mobile
        points are refreshed from the pool when one was sent. */
    method SendEscort(gs: GameState)
      requires gs.Valid() && turnStrategy != Defend
      modifies this`myMP, gs
      ensures gs.Valid()
      ensures var escort := EscortOrders(Target(turnStrategy), TargetBlocked(turnStrategy, View()), old(gs.units),
                                         TargetStrength(turnStrategy, enemyLeftEdgeStrength, enemyRightEdgeStrength), enemyMP);
              gs.log == old(gs.log) + escort && gs.mp == Spend(old(gs.units), old(gs.mp), gs.costs, escort)
      ensures myMP == if TargetBlocked(turnStrategy, View()) then old(myMP) else gs.mp
      ensures gs.units == old(gs.units) && gs.sp == old(gs.sp)
    {
      var f := Target(turnStrategy);
      var blocked := TargetBlocked(turnStrategy, View());
      var strength := TargetStrength(turnStrategy, enemyLeftEdgeStrength, enemyRightEdgeStrength);
      if IsMisdirecting(blocked, gs.units, f) {
        ghost var tank, siege := Deploy(Interceptor, TankCell(f), TankCount(strength)),
                                 Deploy(Demolisher, SiegeCell(f), DemolisherCount(strength));
        SpawnInterceptor(gs, TankCell(f), TankCount(strength) as real);
        ghost var mid := gs.mp;
        SpawnDemolisher(gs, SiegeCell(f), DemolisherCount(strength) as real);
        SpendPair(old(gs.units), old(gs.mp), gs.costs, tank, siege);
        myMP := gs.mp;
      } else if !blocked {
        SpawnInterceptor(gs, DefenseInterceptorCell(f), InterceptorCount(enemyMP));
        SpendPair(old(gs.units), old(gs.mp), gs.costs,
                  Deploy(Interceptor, DefenseInterceptorCell(f), InterceptorCount(enemyMP).Floor),
                  Deploy(Interceptor, DefenseInterceptorCell(f), InterceptorCount(enemyMP).Floor));
        myMP := gs.mp;
      }
    }

    /** Order the removal of each listed cell in turn. */
    method OrderRemovals(gs: GameState, cells: seq<Cell>)
      requires gs.Valid()
      modifies gs
      ensures gs.Valid()
      ensures gs.log == old(gs.log) + RemoveOrders(cells)
      ensures gs.units == old(gs.units) && gs.sp == old(gs.sp) && gs.mp == old(gs.mp)
    {
      ghost var orders := RemoveOrders(cells);
      for i := 0 to |cells|
        invariant gs.Valid()
        invariant gs.log == old(gs.log) + orders[..i]
        invariant gs.units == old(gs.units) && gs.sp == old(gs.sp) && gs.mp == old(gs.mp)
      {
        var _ := gs.AttemptRemove(cells[i]);
        assert orders[..i + 1] == orders[..i] + [orders[i]];
      }
      assert orders[..|cells|] == orders;
    }

    /** Choose next turn's mode from the mobile points left now and the
        opponent's strength recomputed on the current board; an attacking
        mode opens its flank at once. */
    method EvaluateNextTurnStrategy(gs: GameState)
      requires Valid() && gs.Valid()
      modifies this`myMP, this`turnStrategy, gs
      ensures gs.Valid()
      ensures myMP == gs.mp
      ensures turnStrategy == NextStrategy(gs.mp, enemyMP, EdgeStrength(gs.units, Left, leftDistances),
                                           EdgeStrength(gs.units, Right, rightDistances))
      ensures gs.log == old(gs.log) + OpeningOrders(turnStrategy)
      ensures gs.units == old(gs.units) && gs.sp == old(gs.sp) && gs.mp == old(gs.mp)
    {
      myMP := gs.mp;
      if myMP < ATTACK_MIN_MP {
        turnStrategy := Defend;
      } else if myMP > ATTACK_ANYWAY_MP || myMP > enemyMP {
        var left := ComputeEdgeStrength(gs.units, Left, leftDistances);
        var right := ComputeEdgeStrength(gs.units, Right, rightDistances);
        if left > right {
          turnStrategy := AttackRight;
          OrderRemovals(gs, BlockCells(Right));
        } else {
          turnStrategy := AttackLeft;
          OrderRemovals(gs, BlockCells(Left));
        }
      } else {
        turnStrategy := Defend;
      }
    }

    /** One turn: read the board, build, deploy, then choose next turn's
        mode. The closing orders follow from the board and flags as read at
        the start of the turn; deployment sees the flags as the closing left
        them and the board as the build order left it; the mode for next
        turn is decided on the opponent's defence as read at the start of
        the turn (the bot only builds on its own half, so the strengths
        recomputed at the end are the ones parsed at the start). */
    method StarterStrategy(gs: GameState, leftPath: seq<Cell>, rightPath: seq<Cell>, closeLeft: bool)
      returns (ghost refunds: seq<Action>, ghost attempted: nat)
      requires Valid() && gs.Valid()
      modifies this`myMP, this`enemyMP, this`enemyLeftEdgeBlocked, this`enemyRightEdgeBlocked,
               this`enemyLeftEdgeStrength, this`enemyRightEdgeStrength, this`myLeftEdgeBlocked, this`myRightEdgeBlocked,
               this`turnStrategy, gs
      ensures gs.Valid()
      ensures enemyLeftEdgeStrength == EdgeStrength(old(gs.units), Left, leftDistances)
      ensures enemyRightEdgeStrength == EdgeStrength(old(gs.units), Right, rightDistances)
      ensures var v := ParsedView(old(gs.units), leftPath, rightPath);
              var closing := TurnCloseOrders(gs.turnNumber, old(turnStrategy), gs.enemyMP, v, closeLeft);
              var deploy := TurnOrders(old(turnStrategy), ViewAfterClosing(gs.turnNumber, old(turnStrategy), gs.enemyMP, v, closeLeft),
                                       enemyLeftEdgeStrength, enemyRightEdgeStrength, gs.enemyMP,
                                       gs.units, old(gs.mp), gs.costs, old(gs.mp));
              && BuildPhase(gs.costs, old(gs.units), old(gs.sp), closing, refunds, Flatten(buildOrder), minSpToSave,
                            attempted, gs.units, gs.sp)
              && gs.log == old(gs.log) + closing + refunds + JobOrders(Flatten(buildOrder)[..attempted])
                           + deploy + OpeningOrders(turnStrategy)
              && gs.mp == Spend(gs.units, old(gs.mp), gs.costs, deploy)
      ensures myMP == gs.mp
      ensures turnStrategy == NextStrategy(gs.mp, gs.enemyMP, enemyLeftEdgeStrength, enemyRightEdgeStrength)
    {
      ghost var units0, strategy0 := gs.units, turnStrategy;
      refunds, attempted := PrepareTurn(gs, leftPath, rightPath, closeLeft);
      ghost var log1 := gs.log;
      ghost var deploy := TurnOrders(strategy0, View(), enemyLeftEdgeStrength, enemyRightEdgeStrength, enemyMP,
                                     gs.units, gs.mp, gs.costs, myMP);
      FinishTurn(gs);
      assert gs.log == log1 + deploy + OpeningOrders(turnStrategy);
      EdgeStrengthReadsEnemyHalfOnly(units0, gs.units, Left, leftDistances);
      EdgeStrengthReadsEnemyHalfOnly(units0, gs.units, Right, rightDistances);
    }

    /** The first half of a turn: read the board, then build. */
    method PrepareTurn(gs: GameState, leftPath: seq<Cell>, rightPath: seq<Cell>, closeLeft: bool)
      returns (ghost refunds: seq<Action>, ghost attempted: nat)
      requires Valid() && gs.Valid()
      modifies this`myMP, this`enemyMP, this`enemyLeftEdgeBlocked, this`enemyRightEdgeBlocked,
               this`enemyLeftEdgeStrength, this`enemyRightEdgeStrength, this`myLeftEdgeBlocked, this`myRightEdgeBlocked, gs
      ensures gs.Valid()
      ensures myMP == old(gs.mp) && enemyMP == gs.enemyMP && gs.mp == old(gs.mp)
      ensures enemyLeftEdgeStrength == EdgeStrength(old(gs.units), Left, leftDistances)
      ensures enemyRightEdgeStrength == EdgeStrength(old(gs.units), Right, rightDistances)
      ensures var v := ParsedView(old(gs.units), leftPath, rightPath);
              var closing := TurnCloseOrders(gs.turnNumber, turnStrategy, gs.enemyMP, v, closeLeft);
              && View() == ViewAfterClosing(gs.turnNumber, turnStrategy, gs.enemyMP, v, closeLeft)
              && BuildPhase(gs.costs, old(gs.units), old(gs.sp), closing, refunds, Flatten(buildOrder), minSpToSave,
                            attempted, gs.units, gs.sp)
              && gs.log == old(gs.log) + closing + refunds + JobOrders(Flatten(buildOrder)[..attempted])
      ensures EnemyHalf(gs.units) == EnemyHalf(old(gs.units))
    {
      ParseGameState(gs, leftPath, rightPath);
      refunds, attempted := BuildDefences(gs, closeLeft);
    }

    /** The second half of a turn: deploy, then choose next turn's mode. */
    method FinishTurn(gs: GameState)
      requires Valid() && gs.Valid()
      modifies this`myMP, this`turnStrategy, gs
      ensures gs.Valid()
      ensures var deploy := old(TurnOrders(turnStrategy, View(), enemyLeftEdgeStrength, enemyRightEdgeStrength, enemyMP,
                                           gs.units, gs.mp, gs.costs, myMP));
              && gs.log == old(gs.log) + deploy + OpeningOrders(turnStrategy)
              && gs.mp == Spend(old(gs.units), old(gs.mp), gs.costs, deploy)
      ensures myMP == gs.mp
      ensures turnStrategy == NextStrategy(gs.mp, enemyMP, EdgeStrength(gs.units, Left, leftDistances),
                                           EdgeStrength(gs.units, Right, rightDistances))
      ensures gs.units == old(gs.units) && gs.sp == old(gs.sp)
    {
      ExecuteTurnStrategy(gs);
      EvaluateNextTurnStrategy(gs);
    }
  }
}
