/** The game board as the strategy sees it, and the engine calls it makes.
    The engine (its map, its resource bookkeeping, its spawn/upgrade/remove
    rules) is a library outside this model; GameState gives each of its calls
    an explicit contract and a body that meets it. */
module Board {

  datatype Option<T> = None | Some(value: T)

  /** Concatenation regroups freely; stated once so that proofs can name the
      regrouping they need instead of rediscovering it element by element. */
  lemma ConcatAssoc<T>(a: seq<T>, b: seq<T>, c: seq<T>)
    ensures (a + b) + c == a + (b + c)
  {
  }

  /** A grid cell (x, y). */
  type Cell = (int, int)

  const ARENA_SIZE: int := 28
  const HALF_ARENA: int := 14

  datatype StructureKind = Wall | Support | Turret
  datatype MobileKind = Scout | Demolisher | Interceptor

  /** A stationary unit standing on a cell. */
  datatype Structure = Structure(kind: StructureKind, health: real, maxHealth: real, upgraded: bool)

  /** One order issued to the engine during a turn, in the order issued. */
  datatype Action =
    | Build(kind: StructureKind, cell: Cell)
    | Deploy(unit: MobileKind, cell: Cell, count: int)
    | Upgrade(cell: Cell)
    | Remove(cell: Cell)

  /** Unit prices from the game configuration: structure points to build or
      upgrade a structure, mobile points to deploy one mobile unit. */
  datatype Costs = Costs(build: StructureKind -> real, upgrade: StructureKind -> real, deploy: MobileKind -> real)

  predicate CostsValid(costs: Costs) {
    && (forall k :: costs.build(k) >= 0.0 && costs.upgrade(k) >= 0.0)
    && (forall m :: costs.deploy(m) > 0.0)
  }

  /** The diamond-shaped arena: row y is y + 1 cells wide on each side of the
      centre line in the lower half, and mirrored in the upper half. */
  predicate InArena(c: Cell) {
    && 0 <= c.1 < ARENA_SIZE
    && var rowSize := if c.1 < HALF_ARENA then c.1 + 1 else ARENA_SIZE - c.1;
       HALF_ARENA - rowSize <= c.0 <= HALF_ARENA + rowSize - 1
  }

  /** Our two deployment edges: bottom-left and bottom-right. */
  predicate OnOwnEdge(c: Cell) {
    || (0 <= c.0 < HALF_ARENA && c.1 == HALF_ARENA - 1 - c.0)
    || (HALF_ARENA <= c.0 < ARENA_SIZE && c.1 == c.0 - HALF_ARENA)
  }

  predicate StructureValid(s: Structure) {
    s.maxHealth > 0.0 && s.health >= 0.0
  }

  predicate BoardValid(units: map<Cell, Structure>) {
    forall c :: c in units ==> InArena(c) && StructureValid(units[c])
  }

  function Lookup(units: map<Cell, Structure>, c: Cell): Option<Structure> {
    if c in units then Some(units[c]) else None
  }

  /** The structures on the opponent's half: rows HALF_ARENA and up. */
  function EnemyHalf(units: map<Cell, Structure>): map<Cell, Structure> {
    map c | c in units && c.1 >= HALF_ARENA :: units[c]
  }

  /** Placing or replacing a structure on our half leaves the opponent's
      half as it was. */
  lemma OwnHalfUpdateKeepsEnemyHalf(units: map<Cell, Structure>, c: Cell, s: Structure)
    requires c.1 < HALF_ARENA
    ensures EnemyHalf(units[c := s]) == EnemyHalf(units)
  {
    assert EnemyHalf(units[c := s]).Keys == EnemyHalf(units).Keys;
  }

  predicate CanBuild(units: map<Cell, Structure>, sp: real, cost: real, c: Cell) {
    InArena(c) && c.1 < HALF_ARENA && c !in units && sp >= cost
  }

  predicate CanUpgrade(units: map<Cell, Structure>, sp: real, costs: Costs, c: Cell) {
    c.1 < HALF_ARENA && c in units && !units[c].upgraded && sp >= costs.upgrade(units[c].kind)
  }

  /** What one order does to the board and the structure points during the
      turn: a build or an upgrade takes effect at once where the engine
      allows it, charging the price of the kind built or of the kind that
      stands on the cell; a removal takes effect only after the turn, and a
      deployment spends only mobile points. */
  function OrderEffect(costs: Costs, units: map<Cell, Structure>, sp: real, a: Action): (map<Cell, Structure>, real) {
    match a
    case Build(k, c) =>
      if CanBuild(units, sp, costs.build(k), c) then (units[c := Structure(k, 1.0, 1.0, false)], sp - costs.build(k))
      else (units, sp)
    case Upgrade(c) =>
      if CanUpgrade(units, sp, costs, c) then (units[c := units[c].(upgraded := true)], sp - costs.upgrade(units[c].kind))
      else (units, sp)
    case Remove(_) => (units, sp)
    case Deploy(_, _, _) => (units, sp)
  }

  /** An order never adds structure points, keeps the board valid, and
      touches only our half. */
  lemma OrderEffectBounds(costs: Costs, units: map<Cell, Structure>, sp: real, a: Action)
    requires CostsValid(costs) && sp >= 0.0 && BoardValid(units)
    ensures var (u, s) := OrderEffect(costs, units, sp, a);
            0.0 <= s <= sp && BoardValid(u) && EnemyHalf(u) == EnemyHalf(units)
  {
    match a
    case Build(k, c) =>
      if CanBuild(units, sp, costs.build(k), c) {
        OwnHalfUpdateKeepsEnemyHalf(units, c, Structure(k, 1.0, 1.0, false));
      }
    case Upgrade(c) =>
      if CanUpgrade(units, sp, costs, c) {
        OwnHalfUpdateKeepsEnemyHalf(units, c, units[c].(upgraded := true));
      }
    case Remove(_) =>
    case Deploy(_, _, _) =>
  }

  /** The board and structure points after the orders, one after the other. */
  function Replay(costs: Costs, units: map<Cell, Structure>, sp: real, orders: seq<Action>): (map<Cell, Structure>, real)
    decreases |orders|
  {
    if orders == [] then (units, sp)
    else
      var (u, s) := Replay(costs, units, sp, orders[..|orders| - 1]);
      OrderEffect(costs, u, s, orders[|orders| - 1])
  }

  /** Replaying one more order applies its effect where the others left
      the board. */
  lemma ReplaySnoc(costs: Costs, units: map<Cell, Structure>, sp: real, orders: seq<Action>, a: Action)
    ensures Replay(costs, units, sp, orders + [a]) ==
              var (u, s) := Replay(costs, units, sp, orders); OrderEffect(costs, u, s, a)
  {
    assert (orders + [a])[..|orders|] == orders;
  }

  /** Replaying `a + b` is replaying `b` from where `a` left the board. */
  lemma {:induction false} ReplayAppend(costs: Costs, units: map<Cell, Structure>, sp: real, a: seq<Action>, b: seq<Action>)
    ensures Replay(costs, units, sp, a + b) ==
              var (u, s) := Replay(costs, units, sp, a); Replay(costs, u, s, b)
    decreases |b|
  {
    if b == [] {
      assert a + b == a;
    } else {
      var n := |b| - 1;
      ReplayAppend(costs, units, sp, a, b[..n]);
      assert (a + b)[..|a| + n] == a + b[..n] && (a + b)[|a| + n] == b[n];
    }
  }

  /** Replaying orders never adds structure points, keeps the board valid,
      and touches only our half. */
  lemma {:induction false} ReplayBounds(costs: Costs, units: map<Cell, Structure>, sp: real, orders: seq<Action>)
    requires CostsValid(costs) && sp >= 0.0 && BoardValid(units)
    ensures var (u, s) := Replay(costs, units, sp, orders);
            0.0 <= s <= sp && BoardValid(u) && EnemyHalf(u) == EnemyHalf(units)
    decreases |orders|
  {
    if orders != [] {
      var n := |orders| - 1;
      ReplayBounds(costs, units, sp, orders[..n]);
      var (u, s) := Replay(costs, units, sp, orders[..n]);
      OrderEffectBounds(costs, u, s, orders[n]);
    }
  }

  /** The engine places mobile units one at a time, each while the pool
      still covers its price, until `count` are placed: how many were placed,
      and the points left. */
  function Place(mp: real, cost: real, count: int): (r: (int, real))
    requires mp >= 0.0 && cost > 0.0
    ensures 0 <= r.0 && (count <= 0 ==> r.0 == 0) && (count > 0 ==> r.0 <= count)
    ensures 0.0 <= r.1 <= mp
    ensures count > 0 ==> r.1 < cost || r.0 == count
    decreases count
  {
    if count <= 0 then (0, mp)
    else if mp < cost then (0, mp)
    else
      var rest := Place(mp - cost, cost, count - 1);
      (rest.0 + 1, rest.1)
  }

  /** The points spent are the units placed times the price. */
  lemma {:induction false} PlaceSpendsPrice(mp: real, cost: real, count: int)
    requires mp >= 0.0 && cost > 0.0
    ensures Place(mp, cost, count).1 == mp - Place(mp, cost, count).0 as real * cost
    decreases count
  {
    if count > 0 && mp >= cost {
      PlaceSpendsPrice(mp - cost, cost, count - 1);
    }
  }

  /** As many units are placed as were asked for and the pool affords:
      their price fits the pool, and either all `count` were placed or one
      more would not have fitted. */
  lemma PlaceAffordable(mp: real, cost: real, count: int)
    requires mp >= 0.0 && cost > 0.0 && count >= 0
    ensures var n := Place(mp, cost, count).0;
            && n as real * cost <= mp
            && (n == count || mp < (n + 1) as real * cost)
  {
    PlaceSpendsPrice(mp, cost, count);
  }

  /** Mobile units can start only on our edge, on a cell free of structures. */
  predicate CanDeployAt(units: map<Cell, Structure>, c: Cell) {
    OnOwnEdge(c) && c !in units
  }

  /** How many of `count` units the engine places at `c`, and the points left. */
  function DeployOutcome(units: map<Cell, Structure>, mp: real, cost: real, c: Cell, count: int): (r: (int, real))
    requires mp >= 0.0 && cost > 0.0
    ensures !CanDeployAt(units, c) ==> r == (0, mp)
    ensures 0 <= r.0 && 0.0 <= r.1 <= mp
  {
    if CanDeployAt(units, c) then Place(mp, cost, count) else (0, mp)
  }

  /** The engine's view of one turn: the board, our resource pools, the
      opponent's mobile points, and every order issued so far this turn. */
  class GameState {
    var units: map<Cell, Structure>
    var sp: real
    var mp: real
    const enemyMP: real
    const turnNumber: nat
    const costs: Costs
    var log: seq<Action>

    ghost predicate Valid()
      reads this
    {
      CostsValid(costs) && sp >= 0.0 && mp >= 0.0 && BoardValid(units)
    }

    constructor (units: map<Cell, Structure>, sp: real, mp: real, enemyMP: real, turnNumber: nat, costs: Costs)
      requires CostsValid(costs) && sp >= 0.0 && mp >= 0.0 && BoardValid(units)
      ensures Valid()
      ensures this.units == units && this.sp == sp && this.mp == mp && this.enemyMP == enemyMP
      ensures this.turnNumber == turnNumber && this.costs == costs && log == []
    {
      this.units := units;
      this.sp := sp;
      this.mp := mp;
      this.enemyMP := enemyMP;
      this.turnNumber := turnNumber;
      this.costs := costs;
      this.log := [];
    }

    /** Place one structure: only on an empty in-arena cell of our half that
        the structure points cover; the price is deducted at once. */
    method AttemptBuild(kind: StructureKind, c: Cell) returns (ok: bool)
      requires Valid()
      modifies this
      ensures Valid()
      ensures log == old(log) + [Build(kind, c)]
      ensures (units, sp) == OrderEffect(costs, old(units), old(sp), Build(kind, c))
      ensures ok == CanBuild(old(units), old(sp), costs.build(kind), c)
      ensures ok ==> units == old(units)[c := Structure(kind, 1.0, 1.0, false)] && sp == old(sp) - costs.build(kind)
      ensures !ok ==> units == old(units) && sp == old(sp)
      ensures mp == old(mp) && EnemyHalf(units) == EnemyHalf(old(units))
    {
      ok := CanBuild(units, sp, costs.build(kind), c);
      if ok {
        OwnHalfUpdateKeepsEnemyHalf(units, c, Structure(kind, 1.0, 1.0, false));
        units := units[c := Structure(kind, 1.0, 1.0, false)];
        sp := sp - costs.build(kind);
      }
      log := log + [Build(kind, c)];
    }

    /** Upgrade the structure at `c`, charging the upgrade price of the kind
        that actually stands there. */
    method AttemptUpgrade(c: Cell) returns (ok: bool)
      requires Valid()
      modifies this
      ensures Valid()
      ensures log == old(log) + [Upgrade(c)]
      ensures (units, sp) == OrderEffect(costs, old(units), old(sp), Upgrade(c))
      ensures ok == CanUpgrade(old(units), old(sp), costs, c)
      ensures ok ==> units == old(units)[c := old(units)[c].(upgraded := true)]
                     && sp == old(sp) - costs.upgrade(old(units)[c].kind)
      ensures !ok ==> units == old(units) && sp == old(sp)
      ensures mp == old(mp) && EnemyHalf(units) == EnemyHalf(old(units))
    {
      ok := CanUpgrade(units, sp, costs, c);
      if ok {
        OwnHalfUpdateKeepsEnemyHalf(units, c, units[c].(upgraded := true));
        sp := sp - costs.upgrade(units[c].kind);
        units := units[c := units[c].(upgraded := true)];
      }
      log := log + [Upgrade(c)];
    }

    /** Order the removal of our structure at `c`. The engine carries out
        removals after the turn, so the board seen during the turn is unchanged. */
    method AttemptRemove(c: Cell) returns (ok: bool)
      requires Valid()
      modifies this
      ensures Valid()
      ensures log == old(log) + [Remove(c)]
      ensures (units, sp) == OrderEffect(costs, old(units), old(sp), Remove(c))
      ensures ok == (c in units && c.1 < HALF_ARENA)
      ensures units == old(units) && sp == old(sp) && mp == old(mp)
    {
      ok := c in units && c.1 < HALF_ARENA;
      log := log + [Remove(c)];
    }

    /** Deploy up to `count` mobile units at `c`; returns how many were placed. */
    method AttemptDeploy(unit: MobileKind, c: Cell, count: int) returns (placed: int)
      requires Valid()
      modifies this
      ensures Valid()
      ensures log == old(log) + [Deploy(unit, c, count)]
      ensures (units, sp) == OrderEffect(costs, old(units), old(sp), Deploy(unit, c, count))
      ensures (placed, mp) == DeployOutcome(old(units), old(mp), costs.deploy(unit), c, count)
      ensures units == old(units) && sp == old(sp)
    {
      var outcome := DeployOutcome(units, mp, costs.deploy(unit), c, count);
      placed, mp := outcome.0, outcome.1;
      log := log + [Deploy(unit, c, count)];
    }
  }
}
