/** Edge analysis: is a flank of the opponent's edge blocked, is our own flank
    walled off, is the opponent baiting us on a flank, and how strongly the
    opponent's corner is defended. */
module Edges {
  import opened Board

  datatype Flank = Left | Right

  function Other(f: Flank): Flank {
    if f == Left then Right else Left
  }

  /** Only this many leading steps of a probe path are inspected. */
  const PATH_HORIZON: int := 10
  /** A probe step below this row means the path was turned back toward us. */
  const PROBE_ROW: int := 12

  /** The opponent's flank counts as blocked when the probe path is shorter
      than the horizon or one of its first PATH_HORIZON steps lies below
      PROBE_ROW. */
  predicate PathBlocked(path: seq<Cell>) {
    |path| < PATH_HORIZON || exists i :: 0 <= i < PATH_HORIZON && path[i].1 < PROBE_ROW
  }

  /** The early-return scan over the first PATH_HORIZON steps. */
  method IsEnemyEdgeBlocked(path: seq<Cell>) returns (blocked: bool)
    ensures blocked == PathBlocked(path)
  {
    if |path| < PATH_HORIZON {
      return true;
    }
    for i := 0 to PATH_HORIZON
      invariant forall j :: 0 <= j < i ==> path[j].1 >= PROBE_ROW
    {
      if path[i].1 < PROBE_ROW {
        return true;
      }
    }
    return false;
  }

  /** Steps after the horizon are never read: two paths that agree on their
      first PATH_HORIZON steps get the same verdict. */
  lemma PathBlockedReadsHorizonOnly(p: seq<Cell>, q: seq<Cell>)
    requires |p| >= PATH_HORIZON && |q| >= PATH_HORIZON
    requires p[..PATH_HORIZON] == q[..PATH_HORIZON]
    ensures PathBlocked(p) == PathBlocked(q)
  {
    forall i | 0 <= i < PATH_HORIZON
      ensures p[i] == q[i]
    {
      assert p[i] == p[..PATH_HORIZON][i];
    }
  }

  /** The deep corner cell whose occupation, with the flank open, is a trap. */
  function TrapCell(f: Flank): Cell {
    if f == Left then (0, 14) else (27, 14)
  }

  /** The opponent keeps the flank open yet holds its deep corner cell. */
  predicate IsMisdirecting(enemyEdgeBlocked: bool, units: map<Cell, Structure>, f: Flank) {
    !enemyEdgeBlocked && TrapCell(f) in units
  }

  /** With the verdict taken from the probe path, misdirection means a long
      path that never dips in its first PATH_HORIZON steps plus an occupied
      corner. */
  lemma MisdirectingMeansOpenPath(path: seq<Cell>, units: map<Cell, Structure>, f: Flank)
    ensures IsMisdirecting(PathBlocked(path), units, f) <==>
              && |path| >= PATH_HORIZON
              && (forall i :: 0 <= i < PATH_HORIZON ==> path[i].1 >= PROBE_ROW)
              && TrapCell(f) in units
  {
  }

  /** The two cells our walls use to close a flank of our own edge. */
  function BlockCells(f: Flank): seq<Cell> {
    if f == Left then [(0, 13), (1, 13)] else [(27, 13), (26, 13)]
  }

  /** Our flank is closed when every one of its block cells holds a structure. */
  predicate EdgeClosed(units: map<Cell, Structure>, f: Flank) {
    forall c :: c in BlockCells(f) ==> c in units
  }

  /** The early-return scan over the block cells. */
  method IsMyEdgeBlocked(units: map<Cell, Structure>, f: Flank) returns (blocked: bool)
    ensures blocked == EdgeClosed(units, f)
  {
    var cells := BlockCells(f);
    for i := 0 to |cells|
      invariant forall j :: 0 <= j < i ==> cells[j] in units
    {
      if cells[i] !in units {
        return false;
      }
    }
    return true;
  }

  /** Closed means both cells, not one; and adding structures never reopens. */
  lemma EdgeClosedIsConjunction(units: map<Cell, Structure>, more: map<Cell, Structure>, f: Flank)
    requires units.Keys <= more.Keys
    ensures EdgeClosed(units, f) <==> BlockCells(f)[0] in units && BlockCells(f)[1] in units
    ensures EdgeClosed(units, f) ==> EdgeClosed(more, f)
  {
  }

  /** The cells sampled for the opponent's defence strength on each flank. */
  function SampleCells(f: Flank): seq<Cell> {
    if f == Left then [(0, 14), (1, 14), (2, 14), (3, 14), (1, 15), (2, 15), (3, 15), (2, 16)]
    else [(27, 14), (26, 14), (25, 14), (24, 14), (26, 15), (25, 15), (24, 15), (25, 16)]
  }

  /** The point distances are measured from: half a cell inside the corner. */
  function Anchor(f: Flank): (real, real) {
    if f == Left then (0.5, 13.0) else (26.5, 13.0)
  }

  function SquaredDistance(a: (real, real), c: Cell): real {
    (c.0 as real - a.0) * (c.0 as real - a.0) + (c.1 as real - a.1) * (c.1 as real - a.1)
  }

  /** One positive distance per sample cell. The configured table holds the
      Euclidean distance from Anchor(f) to each sample cell, whose square is
      SquaredDistance; reals have no square root here, so the table is taken
      as given, and SampleCellsAwayFromAnchor shows the true distances are
      positive. */
  predicate PositiveDistances(cells: seq<Cell>, dist: seq<real>) {
    |cells| == |dist| && forall i :: 0 <= i < |dist| ==> dist[i] > 0.0
  }

  /** The distance table a flank's strength is computed with. */
  ghost predicate DistanceTable(f: Flank, dist: seq<real>) {
    PositiveDistances(SampleCells(f), dist)
  }

  /** No sample cell sits on its flank's anchor, so every distance in a true
      distance table is positive and the divisions in Contribution are
      defined. */
  lemma SampleCellsAwayFromAnchor(f: Flank)
    ensures forall c :: c in SampleCells(f) ==> SquaredDistance(Anchor(f), c) > 0.0
  {
  }

  /** The row on which walls count toward strength. */
  const WALL_ROW: int := 14

  /** Does this cell's occupant add anything to the strength? */
  predicate Scores(unit: Option<Structure>, c: Cell) {
    unit.Some? && (unit.value.kind == Turret || (unit.value.kind == Wall && c.1 == WALL_ROW))
  }

  /** What one sample cell adds: a turret 25 or 5 over its distance, a wall on
      WALL_ROW a flat 3 or 1, anything else nothing. */
  function Contribution(unit: Option<Structure>, c: Cell, d: real): real
    requires d > 0.0
  {
    match unit
    case None => 0.0
    case Some(s) =>
      if s.kind == Turret then (if s.upgraded then 25.0 else 5.0) / d
      else if c.1 == WALL_ROW && s.kind == Wall then (if s.upgraded then 3.0 else 1.0)
      else 0.0
  }

  /** The per-cell rules, stated one by one. */
  lemma ContributionRules(s: Structure, c: Cell, d: real)
    requires d > 0.0
    ensures s.kind == Support ==> Contribution(Some(s), c, d) == 0.0
    ensures s.kind == Wall && c.1 != WALL_ROW ==> Contribution(Some(s), c, d) == 0.0
    ensures s.kind == Wall && c.1 == WALL_ROW ==> Contribution(Some(s), c, d) == (if s.upgraded then 3.0 else 1.0)
    ensures s.kind == Turret ==>
              Contribution(Some(s.(upgraded := true)), c, d) == 5.0 * Contribution(Some(s.(upgraded := false)), c, d)
    ensures Contribution(Some(s), c, d) > 0.0 <==> Scores(Some(s), c)
  {
  }

  /** The sum of the contributions of the sample cells. */
  function Strength(units: map<Cell, Structure>, cells: seq<Cell>, dist: seq<real>): real
    requires PositiveDistances(cells, dist)
    decreases |cells|
  {
    if cells == [] then 0.0
    else Contribution(Lookup(units, cells[0]), cells[0], dist[0]) + Strength(units, cells[1..], dist[1..])
  }

  /** The opponent's defence strength on one flank. */
  function EdgeStrength(units: map<Cell, Structure>, f: Flank, dist: seq<real>): real
    requires PositiveDistances(SampleCells(f), dist)
  {
    Strength(units, SampleCells(f), dist)
  }

  /** Appending one sample cell adds its contribution. */
  lemma {:induction false} StrengthSnoc(units: map<Cell, Structure>, cells: seq<Cell>, dist: seq<real>, c: Cell, d: real)
    requires PositiveDistances(cells, dist) && d > 0.0
    ensures PositiveDistances(cells + [c], dist + [d])
    ensures Strength(units, cells + [c], dist + [d]) == Strength(units, cells, dist) + Contribution(Lookup(units, c), c, d)
    decreases |cells|
  {
    if cells == [] {
      assert ([c] + [])[1..] == [] && ([d] + [])[1..] == [];
    } else {
      assert (cells + [c])[1..] == cells[1..] + [c];
      assert (dist + [d])[1..] == dist[1..] + [d];
      StrengthSnoc(units, cells[1..], dist[1..], c, d);
    }
  }

  /** The accumulating scan over the sample cells of one flank. */
  method ComputeEdgeStrength(units: map<Cell, Structure>, f: Flank, dist: seq<real>) returns (strength: real)
    requires PositiveDistances(SampleCells(f), dist)
    ensures strength == EdgeStrength(units, f, dist)
  {
    var cells := SampleCells(f);
    strength := 0.0;
    for i := 0 to |cells|
      invariant strength == Strength(units, cells[..i], dist[..i])
    {
      var c := cells[i];
      var unitStrength := 0.0;
      if c in units && units[c].kind == Turret {
        if units[c].upgraded {
          unitStrength := 25.0 / dist[i];
        } else {
          unitStrength := 5.0 / dist[i];
        }
      } else if c.1 == WALL_ROW && c in units && units[c].kind == Wall {
        if units[c].upgraded {
          unitStrength := 3.0;
        } else {
          unitStrength := 1.0;
        }
      }
      StrengthSnoc(units, cells[..i], dist[..i], c, dist[i]);
      assert cells[..i + 1] == cells[..i] + [c] && dist[..i + 1] == dist[..i] + [dist[i]];
      strength := strength + unitStrength;
    }
    assert cells[..|cells|] == cells && dist[..|dist|] == dist;
  }

  lemma {:induction false} StrengthNonNegative(units: map<Cell, Structure>, cells: seq<Cell>, dist: seq<real>)
    requires PositiveDistances(cells, dist)
    ensures Strength(units, cells, dist) >= 0.0
    decreases |cells|
  {
    if cells != [] {
      StrengthNonNegative(units, cells[1..], dist[1..]);
    }
  }

  /** Zero strength means exactly that no sample cell holds a turret or a
      wall on WALL_ROW. */
  lemma {:induction false} StrengthZeroIff(units: map<Cell, Structure>, cells: seq<Cell>, dist: seq<real>)
    requires PositiveDistances(cells, dist)
    ensures Strength(units, cells, dist) == 0.0 <==>
              forall i :: 0 <= i < |cells| ==> !Scores(Lookup(units, cells[i]), cells[i])
    decreases |cells|
  {
    if cells != [] {
      StrengthZeroIff(units, cells[1..], dist[1..]);
      StrengthNonNegative(units, cells[1..], dist[1..]);
      var u := Lookup(units, cells[0]);
      if u.Some? {
        ContributionRules(u.value, cells[0], dist[0]);
      }
      if forall i :: 1 <= i < |cells| ==> !Scores(Lookup(units, cells[i]), cells[i]) {
        forall i | 0 <= i < |cells| - 1
          ensures !Scores(Lookup(units, cells[1..][i]), cells[1..][i])
        {
          assert cells[1..][i] == cells[i + 1];
        }
      }
      forall i | 0 <= i < |cells| - 1
        ensures cells[1..][i] == cells[i + 1]
      {
      }
    }
  }

  /** Strength reads the board only at the sample cells. */
  lemma {:induction false} StrengthReadsSamplesOnly(a: map<Cell, Structure>, b: map<Cell, Structure>, cells: seq<Cell>, dist: seq<real>)
    requires PositiveDistances(cells, dist)
    requires forall i :: 0 <= i < |cells| ==> Lookup(a, cells[i]) == Lookup(b, cells[i])
    ensures Strength(a, cells, dist) == Strength(b, cells, dist)
    decreases |cells|
  {
    if cells != [] {
      assert forall i :: 0 <= i < |cells| - 1 ==> cells[1..][i] == cells[i + 1];
      StrengthReadsSamplesOnly(a, b, cells[1..], dist[1..]);
    }
  }

  /** Upgrading structures in place (same kinds on the same cells) never
      lowers the strength. */
  lemma {:induction false} UpgradeNeverWeakens(a: map<Cell, Structure>, b: map<Cell, Structure>, cells: seq<Cell>, dist: seq<real>)
    requires PositiveDistances(cells, dist)
    requires forall i :: 0 <= i < |cells| ==>
               (cells[i] in a <==> cells[i] in b) &&
               (cells[i] in a ==> b[cells[i]].kind == a[cells[i]].kind && (a[cells[i]].upgraded ==> b[cells[i]].upgraded))
    ensures Strength(a, cells, dist) <= Strength(b, cells, dist)
    decreases |cells|
  {
    if cells != [] {
      assert forall i :: 0 <= i < |cells| - 1 ==> cells[1..][i] == cells[i + 1];
      UpgradeNeverWeakens(a, b, cells[1..], dist[1..]);
      var c := cells[0];
      if c in a && a[c].kind == Turret && !a[c].upgraded && b[c].upgraded {
        assert 5.0 / dist[0] < 25.0 / dist[0];
      }
    }
  }

  /** Every sample cell lies on the opponent's half, so a board that differs
      only on our half has the same strength on both flanks. */
  lemma EdgeStrengthReadsEnemyHalfOnly(a: map<Cell, Structure>, b: map<Cell, Structure>, f: Flank, dist: seq<real>)
    requires PositiveDistances(SampleCells(f), dist)
    requires EnemyHalf(a) == EnemyHalf(b)
    ensures EdgeStrength(a, f, dist) == EdgeStrength(b, f, dist)
  {
    var cells := SampleCells(f);
    forall i | 0 <= i < |cells|
      ensures Lookup(a, cells[i]) == Lookup(b, cells[i])
    {
      var c := cells[i];
      assert c.1 >= HALF_ARENA;
      assert c in a <==> c in EnemyHalf(a);
      assert c in b <==> c in EnemyHalf(b);
      if c in a {
        assert a[c] == EnemyHalf(a)[c];
      }
      if c in b {
        assert b[c] == EnemyHalf(b)[c];
      }
    }
    StrengthReadsSamplesOnly(a, b, cells, dist);
  }
}
