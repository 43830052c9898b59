/** The mobile units deployed during a turn, as pure functions of what the
    bot knows: interceptors on open flanks while defending, and an escort
    plus two scout waves while attacking. */
module Turn {
  import opened Board
  import opened Edges
  import opened Deploy
  import opened Modes
  import opened Defense

  /** Where interceptors wait to meet a rush through an open flank. */
  function DefenseInterceptorCell(f: Flank): Cell {
    if f == Left then (4, 9) else (23, 9)
  }

  /** Where interceptors start when they tank for demolishers. */
  function TankCell(f: Flank): Cell {
    if f == Left then (1, 12) else (26, 12)
  }

  /** Where demolishers start against a misdirecting corner. */
  function SiegeCell(f: Flank): Cell {
    if f == Left then (2, 11) else (25, 11)
  }

  /** Every fixed deployment cell lies on our edge, on the side of its flank. */
  lemma DeployCellsOnOwnEdge(f: Flank)
    ensures OnOwnEdge(DefenseInterceptorCell(f)) && OnOwnEdge(TankCell(f)) && OnOwnEdge(SiegeCell(f))
    ensures f == Left <==> DefenseInterceptorCell(f).0 < HALF_ARENA
    ensures f == Left <==> TankCell(f).0 < HALF_ARENA
    ensures f == Left <==> SiegeCell(f).0 < HALF_ARENA
  {
  }

  // ---------------------------------------------------------------------
  // What deployments cost

  /** The mobile points left after the engine carries out one order. */
  function DeployStep(units: map<Cell, Structure>, mp: real, costs: Costs, a: Action): (left: real)
    requires mp >= 0.0 && CostsValid(costs)
    ensures 0.0 <= left <= mp
    ensures !a.Deploy? || a.count <= 0 || !CanDeployAt(units, a.cell) ==> left == mp
  {
    if a.Deploy? then DeployOutcome(units, mp, costs.deploy(a.unit), a.cell, a.count).1 else mp
  }

  /** The mobile points left after the engine carries out `orders` in turn. */
  function Spend(units: map<Cell, Structure>, mp: real, costs: Costs, orders: seq<Action>): (left: real)
    requires mp >= 0.0 && CostsValid(costs)
    ensures 0.0 <= left <= mp
    decreases |orders|
  {
    if orders == [] then mp
    else DeployStep(units, Spend(units, mp, costs, orders[..|orders| - 1]), costs, orders[|orders| - 1])
  }

  /** Orders that deploy nothing leave the mobile points untouched. */
  lemma {:induction false} SpendWithoutDeploys(units: map<Cell, Structure>, mp: real, costs: Costs, orders: seq<Action>)
    requires mp >= 0.0 && CostsValid(costs)
    requires forall a :: a in orders ==> !a.Deploy?
    ensures Spend(units, mp, costs, orders) == mp
    decreases |orders|
  {
    if orders != [] {
      assert forall a :: a in orders[..|orders| - 1] ==> a in orders;
      SpendWithoutDeploys(units, mp, costs, orders[..|orders| - 1]);
      assert orders[|orders| - 1] in orders;
    }
  }

  lemma SpendSnoc(units: map<Cell, Structure>, mp: real, costs: Costs, orders: seq<Action>, a: Action)
    requires mp >= 0.0 && CostsValid(costs)
    ensures Spend(units, mp, costs, orders + [a]) == DeployStep(units, Spend(units, mp, costs, orders), costs, a)
  {
    assert (orders + [a])[..|orders|] == orders;
  }

  /** Spending over one and over two orders, step by step. */
  lemma SpendPair(units: map<Cell, Structure>, mp: real, costs: Costs, a: Action, b: Action)
    requires mp >= 0.0 && CostsValid(costs)
    ensures Spend(units, mp, costs, [a]) == DeployStep(units, mp, costs, a)
    ensures Spend(units, mp, costs, [a, b]) == DeployStep(units, DeployStep(units, mp, costs, a), costs, b)
  {
    assert [a][..0] == [];
    assert [a, b][..1] == [a];
  }

  /** Spending over two batches of orders is spending over the first, then
      over the second from what is left. */
  lemma {:induction false} SpendAppend(units: map<Cell, Structure>, mp: real, costs: Costs, a: seq<Action>, b: seq<Action>)
    requires mp >= 0.0 && CostsValid(costs)
    ensures Spend(units, mp, costs, a + b) == Spend(units, Spend(units, mp, costs, a), costs, b)
    decreases |b|
  {
    if b == [] {
      assert a + b == a;
    } else {
      var init, last := b[..|b| - 1], b[|b| - 1];
      assert a + b == (a + init) + [last];
      SpendSnoc(units, mp, costs, a + init, last);
      SpendSnoc(units, Spend(units, mp, costs, a), costs, init, last);
      assert b == init + [last];
      SpendAppend(units, mp, costs, a, init);
    }
  }

  // ---------------------------------------------------------------------
  // The orders

  /** Defending: interceptors on each flank that is open on both sides, a
      quarter of the opponent's mobile points each but at least three. */
  function DefendOrders(v: EdgeView, enemyMP: real): seq<Action> {
    var n := InterceptorCount(enemyMP).Floor;
    (if !v.enemyLeft && !v.myLeft then [Deploy(Interceptor, DefenseInterceptorCell(Left), n)] else [])
    + (if !v.enemyRight && !v.myRight then [Deploy(Interceptor, DefenseInterceptorCell(Right), n)] else [])
  }

  /** Interceptors go exactly to the flanks open on both sides, never fewer
      than three at a time, and nothing else is deployed. */
  lemma DefendOrdersCoverOpenFlanks(v: EdgeView, enemyMP: real)
    ensures forall a :: a in DefendOrders(v, enemyMP) ==> a.Deploy? && a.unit == Interceptor && a.count >= 3
    ensures (exists a :: a in DefendOrders(v, enemyMP) && a.cell == DefenseInterceptorCell(Left)) <==> !v.enemyLeft && !v.myLeft
    ensures (exists a :: a in DefendOrders(v, enemyMP) && a.cell == DefenseInterceptorCell(Right)) <==> !v.enemyRight && !v.myRight
  {
    InterceptorCountBounds(enemyMP);
    var o, n := DefendOrders(v, enemyMP), InterceptorCount(enemyMP).Floor;
    if !v.enemyLeft && !v.myLeft {
      assert o[0] == Deploy(Interceptor, DefenseInterceptorCell(Left), n) && o[0] in o;
    }
    if !v.enemyRight && !v.myRight {
      assert o[|o| - 1] == Deploy(Interceptor, DefenseInterceptorCell(Right), n) && o[|o| - 1] in o;
    }
  }

  /** Attacking through `f`: when the opponent misdirects there, interceptors
      tank for demolishers, both sized by the flank's strength; otherwise,
      when the flank is open, interceptors defend it; a blocked flank gets
      no escort. */
  function EscortOrders(f: Flank, enemyBlocked: bool, units: map<Cell, Structure>, strength: real, enemyMP: real): seq<Action> {
    if IsMisdirecting(enemyBlocked, units, f) then
      [Deploy(Interceptor, TankCell(f), TankCount(strength)), Deploy(Demolisher, SiegeCell(f), DemolisherCount(strength))]
    else if !enemyBlocked then [Deploy(Interceptor, DefenseInterceptorCell(f), InterceptorCount(enemyMP).Floor)]
    else []
  }

  /** Two scout waves from columns `largerX` and `largerX - gap` of our
      bottom-left edge, or of its reflection when `mirrored`, each floored. */
  function ScoutOrders(mirrored: bool, largerX: int, gap: int, largerSize: real, smallerSize: real): seq<Action> {
    var cells := ScoutCells(mirrored, largerX, gap);
    [Deploy(Scout, cells.0, largerSize.Floor), Deploy(Scout, cells.1, smallerSize.Floor)]
  }

  /** Whether the opponent's edge is blocked on the attacked flank. */
  function TargetBlocked(t: TurnStrategy, v: EdgeView): bool
    requires t != Defend
  {
    if Target(t) == Left then v.enemyLeft else v.enemyRight
  }

  /** The opponent's defence strength on the attacked flank. */
  function TargetStrength(t: TurnStrategy, leftStrength: real, rightStrength: real): real
    requires t != Defend
  {
    if Target(t) == Left then leftStrength else rightStrength
  }

  /** The column the scouts start from and the distance to the second wave. */
  const SCOUT_COLUMN: int := 4
  const SCOUT_GAP: int := 1

  /** Attacking in mode `t`: the escort for the target flank, then the first
      wave sized by the flank's strength and the second wave from the mobile
      points the bot has recorded, refreshed from the pool once an escort
      was sent. Attacking left mirrors the waves onto the bottom-right edge. */
  function AttackOrders(t: TurnStrategy, v: EdgeView, leftStrength: real, rightStrength: real, enemyMP: real,
                        units: map<Cell, Structure>, mp: real, costs: Costs, myMP: real): seq<Action>
    requires t != Defend && mp >= 0.0 && CostsValid(costs)
  {
    var f := Target(t);
    var blocked := TargetBlocked(t, v);
    var strength := TargetStrength(t, leftStrength, rightStrength);
    var escort := EscortOrders(f, blocked, units, strength, enemyMP);
    var recorded := if blocked then myMP else Spend(units, mp, costs, escort);
    var first := FirstScoutGroup(strength);
    escort + ScoutOrders(t == AttackLeft, SCOUT_COLUMN, SCOUT_GAP, first as real, recorded - first as real)
  }

  /** An attack is its escort followed by scout waves sized from the
      recorded mobile points `recorded`, which are the pool after the escort
      unless the target edge is blocked: carrying out the escort and then the
      waves logs and spends exactly as carrying out AttackOrders does. */
  lemma AttackOrdersSplit(t: TurnStrategy, v: EdgeView, leftStrength: real, rightStrength: real, enemyMP: real,
                          units: map<Cell, Structure>, mp: real, costs: Costs, myMP: real, recorded: real,
                          log0: seq<Action>, log1: seq<Action>, log2: seq<Action>, mp1: real, mp2: real)
    requires t != Defend && mp >= 0.0 && CostsValid(costs)
    requires var escort := EscortOrders(Target(t), TargetBlocked(t, v), units, TargetStrength(t, leftStrength, rightStrength), enemyMP);
             log1 == log0 + escort && mp1 == Spend(units, mp, costs, escort)
             && recorded == if TargetBlocked(t, v) then myMP else mp1
    requires var first := FirstScoutGroup(TargetStrength(t, leftStrength, rightStrength));
             var scouts := ScoutOrders(t == AttackLeft, SCOUT_COLUMN, SCOUT_GAP, first as real, recorded - first as real);
             log2 == log1 + scouts && mp2 == Spend(units, mp1, costs, scouts)
    ensures var orders := AttackOrders(t, v, leftStrength, rightStrength, enemyMP, units, mp, costs, myMP);
            log2 == log0 + orders && mp2 == Spend(units, mp, costs, orders)
  {
    var escort := EscortOrders(Target(t), TargetBlocked(t, v), units, TargetStrength(t, leftStrength, rightStrength), enemyMP);
    var first := FirstScoutGroup(TargetStrength(t, leftStrength, rightStrength));
    var scouts := ScoutOrders(t == AttackLeft, SCOUT_COLUMN, SCOUT_GAP, first as real, recorded - first as real);
    assert AttackOrders(t, v, leftStrength, rightStrength, enemyMP, units, mp, costs, myMP) == escort + scouts;
    assert log2 == log0 + (escort + scouts);
    SpendAppend(units, mp, costs, escort, scouts);
  }

  /** The deployments of a turn played in mode `t`. */
  function TurnOrders(t: TurnStrategy, v: EdgeView, leftStrength: real, rightStrength: real, enemyMP: real,
                      units: map<Cell, Structure>, mp: real, costs: Costs, myMP: real): seq<Action>
    requires mp >= 0.0 && CostsValid(costs)
  {
    if t == Defend then DefendOrders(v, enemyMP)
    else AttackOrders(t, v, leftStrength, rightStrength, enemyMP, units, mp, costs, myMP)
  }

  /** Every order of a turn is a deployment on a cell of our own edge. */
  lemma TurnOrdersDeployOnOwnEdge(t: TurnStrategy, v: EdgeView, leftStrength: real, rightStrength: real, enemyMP: real,
                                  units: map<Cell, Structure>, mp: real, costs: Costs, myMP: real)
    requires mp >= 0.0 && CostsValid(costs)
    ensures forall a :: a in TurnOrders(t, v, leftStrength, rightStrength, enemyMP, units, mp, costs, myMP) ==>
              a.Deploy? && OnOwnEdge(a.cell)
  {
    DeployCellsOnOwnEdge(Left);
    DeployCellsOnOwnEdge(Right);
    ScoutCellsOnOwnEdge(t == AttackLeft, SCOUT_COLUMN, SCOUT_GAP);
  }

  /** Attacking ends with two scout waves launched from the edge opposite
      the target (they cross the arena diagonally); demolishers are sent
      exactly when the opponent misdirects on the target flank; and the two
      waves together ask for the mobile points the bot has recorded,
      floored. */
  lemma AttackOrdersShape(t: TurnStrategy, v: EdgeView, leftStrength: real, rightStrength: real, enemyMP: real,
                          units: map<Cell, Structure>, mp: real, costs: Costs, myMP: real)
    requires t != Defend && mp >= 0.0 && CostsValid(costs)
    ensures var o := AttackOrders(t, v, leftStrength, rightStrength, enemyMP, units, mp, costs, myMP);
            var f := Target(t);
            var blocked := TargetBlocked(t, v);
            var escort := o[..|o| - 2];
            && |o| >= 2
            && o[|o| - 2].unit == Scout && o[|o| - 1].unit == Scout
            && (forall a :: a in escort ==> a.unit != Scout)
            && (t == AttackLeft ==> o[|o| - 2].cell.0 >= HALF_ARENA && o[|o| - 1].cell.0 >= HALF_ARENA)
            && (t == AttackRight ==> o[|o| - 2].cell.0 < HALF_ARENA && o[|o| - 1].cell.0 < HALF_ARENA)
            && ((exists a :: a in escort && a.unit == Demolisher) <==> IsMisdirecting(blocked, units, f))
            && (blocked <==> escort == [])
            && o[|o| - 2].count + o[|o| - 1].count == (if blocked then myMP else Spend(units, mp, costs, escort)).Floor
  {
    var f := Target(t);
    var blocked := TargetBlocked(t, v);
    var strength := TargetStrength(t, leftStrength, rightStrength);
    var escort := EscortOrders(f, blocked, units, strength, enemyMP);
    var o := AttackOrders(t, v, leftStrength, rightStrength, enemyMP, units, mp, costs, myMP);
    assert o[..|o| - 2] == escort;
    var recorded := if blocked then myMP else Spend(units, mp, costs, escort);
    var first := FirstScoutGroup(strength);
    assert (recorded - first as real).Floor == recorded.Floor - first;
  }

  /** Two waves floored separately ask for the floor of their sum when the
      first is a whole number: no point is lost to rounding. */
  lemma ScoutWavesSplitThePool(mirrored: bool, largerX: int, gap: int, first: int, pool: real)
    ensures var o := ScoutOrders(mirrored, largerX, gap, first as real, pool - first as real);
            o[0].count == first && o[0].count + o[1].count == pool.Floor
  {
    assert (pool - first as real).Floor == pool.Floor - first;
  }
}
