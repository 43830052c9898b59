/** Deployment heuristics: how many mobile units to send, and where the two
    scout waves start. */
module Deploy {
  import opened Board

  /** Interceptors sent to cover an open flank: a quarter of the opponent's
      mobile points, and never fewer than three. Floored when deployed. */
  function InterceptorCount(enemyMP: real): real {
    if enemyMP / 4.0 >= 3.0 then enemyMP / 4.0 else 3.0
  }

  lemma InterceptorCountBounds(enemyMP: real)
    ensures InterceptorCount(enemyMP).Floor >= 3
    ensures enemyMP >= 12.0 ==> InterceptorCount(enemyMP).Floor == (enemyMP / 4.0).Floor
    ensures enemyMP < 16.0 ==> InterceptorCount(enemyMP).Floor == 3
  {
  }

  lemma InterceptorCountExamples()
    ensures InterceptorCount(0.0).Floor == 3 && InterceptorCount(4.0).Floor == 3
    ensures InterceptorCount(8.0).Floor == 3 && InterceptorCount(20.0).Floor == 5
  {
  }

  /** Interceptors sent ahead of demolishers to draw fire: two plus one per
      ten points of the opponent's edge strength, at most five. */
  function TankCount(strength: real): int {
    var n := 2 + (strength / 10.0).Floor;
    if n < 5 then n else 5
  }

  /** Demolishers sent against a baited flank, by the same rule. */
  function DemolisherCount(strength: real): int {
    var n := 2 + (strength / 10.0).Floor;
    if n < 5 then n else 5
  }

  lemma SiegeCountBounds(strength: real)
    requires strength >= 0.0
    ensures 2 <= TankCount(strength) <= 5 && 2 <= DemolisherCount(strength) <= 5
    ensures strength >= 30.0 ==> TankCount(strength) == 5 && DemolisherCount(strength) == 5
    ensures TankCount(strength) == DemolisherCount(strength)
  {
  }

  lemma SiegeCountExamples()
    ensures TankCount(0.0) == 2 && TankCount(10.0) == 3 && TankCount(35.0) == 5 && TankCount(100.0) == 5
    ensures DemolisherCount(0.0) == 2 && DemolisherCount(10.0) == 3
    ensures DemolisherCount(35.0) == 5 && DemolisherCount(100.0) == 5
  {
  }

  /** Size of the first scout wave: five plus one per seven points of the
      opponent's edge strength, at most ten. */
  function FirstScoutGroup(strength: real): int {
    var n := 5 + (strength / 7.0).Floor;
    if n < 10 then n else 10
  }

  lemma FirstScoutGroupBounds(strength: real)
    requires strength >= 0.0
    ensures 5 <= FirstScoutGroup(strength) <= 10
    ensures strength < 7.0 ==> FirstScoutGroup(strength) == 5
    ensures strength >= 35.0 ==> FirstScoutGroup(strength) == 10
  {
  }

  /** Stronger opposition never means fewer units. */
  lemma CountsMonotone(s: real, t: real, m: real, n: real)
    requires s <= t && m <= n
    ensures TankCount(s) <= TankCount(t) && DemolisherCount(s) <= DemolisherCount(t)
    ensures FirstScoutGroup(s) <= FirstScoutGroup(t)
    ensures InterceptorCount(m) <= InterceptorCount(n)
  {
    assert s / 10.0 <= t / 10.0 && s / 7.0 <= t / 7.0;
  }

  /** The two scout spawn cells: column `largerX` and column `largerX - gap`
      on our bottom-left edge, reflected to the bottom-right edge
      (x becomes ARENA_SIZE - 1 - x) when `mirrored`. */
  function ScoutCells(mirrored: bool, largerX: int, gap: int): (Cell, Cell) {
    var larger := (largerX, HALF_ARENA - largerX - 1);
    var smaller := (largerX - gap, HALF_ARENA - (largerX - gap) - 1);
    if mirrored then ((ARENA_SIZE - larger.0 - 1, larger.1), (ARENA_SIZE - smaller.0 - 1, smaller.1))
    else (larger, smaller)
  }

  /** For columns of the left half both cells lie on one of our edges, on
      either side, and the mirrored cells are reflections of the plain ones. */
  lemma ScoutCellsOnOwnEdge(mirrored: bool, largerX: int, gap: int)
    requires 0 <= gap && 0 <= largerX - gap && largerX < HALF_ARENA
    ensures OnOwnEdge(ScoutCells(mirrored, largerX, gap).0) && OnOwnEdge(ScoutCells(mirrored, largerX, gap).1)
    ensures ScoutCells(true, largerX, gap).0 == (ARENA_SIZE - 1 - ScoutCells(false, largerX, gap).0.0, ScoutCells(false, largerX, gap).0.1)
    ensures ScoutCells(true, largerX, gap).1 == (ARENA_SIZE - 1 - ScoutCells(false, largerX, gap).1.0, ScoutCells(false, largerX, gap).1.1)
  {
  }
}
