/** The earlier variant of the bot: a fixed build order spent down to a
    reserve that keeps room for patch walls, and "cover-up" walls that seal
    the two entries into our base when the opponent can afford a rush. */
module StrategyV1 {
  import opened Board
  import opened Defense

  /** The opponent is likely to attack once it holds this many mobile points. */
  const ENEMY_ATTACK_MP: real := 7.0
  /** We count as attacking once we hold this many mobile points. */
  const ATTACKING_MP: real := 14.0

  /** The left scan starts at this column and moves right; the right scan
      starts at RIGHT_SCAN_START and moves left. */
  const LEFT_SCAN_START: int := 4
  const RIGHT_SCAN_START: int := 23
  /** The scans read rows SCAN_ROW_LOW and SCAN_ROW_HIGH; the patch wall goes
      on COVER_ROW between them. */
  const SCAN_ROW_LOW: int := 11
  const COVER_ROW: int := 12
  const SCAN_ROW_HIGH: int := 13

  predicate IsEnemyLikelyToAttack(enemyMP: real) {
    enemyMP >= ENEMY_ATTACK_MP
  }

  predicate IsAttacking(mp: real) {
    mp >= ATTACKING_MP
  }

  /** Patch walls are needed when the opponent can rush and we are not
      attacking ourselves. */
  predicate NeedToPatch(enemyMP: real, mp: real) {
    IsEnemyLikelyToAttack(enemyMP) && !IsAttacking(mp)
  }

  /** Patching is needed exactly in the window where the opponent holds at
      least 7 mobile points and we hold fewer than 14; more opponent points or
      fewer of our own never switch it off. */
  lemma NeedToPatchWindow(enemyMP: real, mp: real, enemyMP': real, mp': real)
    ensures NeedToPatch(enemyMP, mp) <==> 7.0 <= enemyMP && mp < 14.0
    ensures NeedToPatch(enemyMP, mp) && enemyMP <= enemyMP' && mp' <= mp ==> NeedToPatch(enemyMP', mp')
    ensures !NeedToPatch(6.0, 0.0) && NeedToPatch(7.0, 13.0) && !NeedToPatch(7.0, 14.0)
  {
  }

  // ---------------------------------------------------------------------
  // The two cover-up scans

  /** Column x stops the left scan unless both [x, SCAN_ROW_LOW] and
      [x - 2, SCAN_ROW_HIGH] hold a structure. */
  predicate LeftPairFilled(units: map<Cell, Structure>, x: int) {
    (x, SCAN_ROW_LOW) in units && (x - 2, SCAN_ROW_HIGH) in units
  }

  /** The mirror image: [x, SCAN_ROW_LOW] and [x + 2, SCAN_ROW_HIGH]. */
  predicate RightPairFilled(units: map<Cell, Structure>, x: int) {
    (x, SCAN_ROW_LOW) in units && (x + 2, SCAN_ROW_HIGH) in units
  }

  /** A filled pair lies inside the arena, so a scan ends within it. */
  lemma PairFilledInArena(units: map<Cell, Structure>, x: int)
    requires BoardValid(units) && (x, SCAN_ROW_LOW) in units
    ensures 2 <= x <= 25
  {
    assert InArena((x, SCAN_ROW_LOW));
  }

  /** The left scan from column x: the first column, moving right, whose
      pair is not filled. */
  function LeftScanStop(units: map<Cell, Structure>, x: int): (r: int)
    requires BoardValid(units)
    ensures x <= r && !LeftPairFilled(units, r)
    ensures forall y :: x <= y < r ==> LeftPairFilled(units, y)
    decreases ARENA_SIZE - x
  {
    if LeftPairFilled(units, x) then
      PairFilledInArena(units, x);
      LeftScanStop(units, x + 1)
    else x
  }

  /** The right scan from column x: the first column, moving left, whose
      pair is not filled. */
  function RightScanStop(units: map<Cell, Structure>, x: int): (r: int)
    requires BoardValid(units)
    ensures r <= x && !RightPairFilled(units, r)
    ensures forall y :: r < y <= x ==> RightPairFilled(units, y)
    decreases x
  {
    if RightPairFilled(units, x) then
      PairFilledInArena(units, x);
      RightScanStop(units, x - 1)
    else x
  }

  /** The patch wall of the left side, if one is placed: two columns left of
      where the scan stopped, on COVER_ROW, provided the scan moved at all
      and that cell is free. */
  function LeftCover(units: map<Cell, Structure>): Option<Cell>
    requires BoardValid(units)
  {
    var x := LeftScanStop(units, LEFT_SCAN_START);
    if x != LEFT_SCAN_START && (x - 2, COVER_ROW) !in units then Some((x - 2, COVER_ROW)) else None
  }

  /** The patch wall of the right side, mirrored: two columns right of where
      the scan stopped. */
  function RightCover(units: map<Cell, Structure>): Option<Cell>
    requires BoardValid(units)
  {
    var x := RightScanStop(units, RIGHT_SCAN_START);
    if x != RIGHT_SCAN_START && (x + 2, COVER_ROW) !in units then Some((x + 2, COVER_ROW)) else None
  }

  /** A left patch wall closes the gap the scan found: the free cell lies
      below a column pair that is occupied, on our half, and it is placed
      exactly when the scan moved and the cell is free. */
  lemma LeftCoverMeaning(units: map<Cell, Structure>)
    requires BoardValid(units)
    ensures var x := LeftScanStop(units, LEFT_SCAN_START);
            && (LeftCover(units).Some? <==> x > LEFT_SCAN_START && (x - 2, COVER_ROW) !in units)
            && (LeftCover(units).Some? ==>
                  var c := LeftCover(units).value;
                  && c == (x - 2, COVER_ROW) && c !in units
                  && InArena(c) && c.1 < HALF_ARENA
                  && LeftPairFilled(units, x - 1))
  {
    var x := LeftScanStop(units, LEFT_SCAN_START);
    if x > LEFT_SCAN_START {
      assert LeftPairFilled(units, x - 1);
      PairFilledInArena(units, x - 1);
    }
  }

  /** The mirror image for the right side. */
  lemma RightCoverMeaning(units: map<Cell, Structure>)
    requires BoardValid(units)
    ensures var x := RightScanStop(units, RIGHT_SCAN_START);
            && (RightCover(units).Some? <==> x < RIGHT_SCAN_START && (x + 2, COVER_ROW) !in units)
            && (RightCover(units).Some? ==>
                  var c := RightCover(units).value;
                  && c == (x + 2, COVER_ROW) && c !in units
                  && InArena(c) && c.1 < HALF_ARENA
                  && RightPairFilled(units, x + 1))
  {
    var x := RightScanStop(units, RIGHT_SCAN_START);
    if x < RIGHT_SCAN_START {
      assert RightPairFilled(units, x + 1);
      PairFilledInArena(units, x + 1);
    }
  }

  /** A wall placed on COVER_ROW does not move either scan: they read only
      the rows above and below it. */
  lemma {:induction false} LeftScanIgnoresCoverRow(units: map<Cell, Structure>, c: Cell, s: Structure, x: int)
    requires BoardValid(units) && BoardValid(units[c := s]) && c.1 == COVER_ROW
    ensures LeftScanStop(units[c := s], x) == LeftScanStop(units, x)
    decreases ARENA_SIZE - x
  {
    if LeftPairFilled(units, x) {
      PairFilledInArena(units, x);
      LeftScanIgnoresCoverRow(units, c, s, x + 1);
    }
  }

  lemma {:induction false} RightScanIgnoresCoverRow(units: map<Cell, Structure>, c: Cell, s: Structure, x: int)
    requires BoardValid(units) && BoardValid(units[c := s]) && c.1 == COVER_ROW
    ensures RightScanStop(units[c := s], x) == RightScanStop(units, x)
    decreases x
  {
    if RightPairFilled(units, x) {
      PairFilledInArena(units, x);
      RightScanIgnoresCoverRow(units, c, s, x - 1);
    }
  }

  /** The order a side's pass issues: none for a side already covered or
      when no patch wall is placed. */
  function CoverOrders(covered: bool, cover: Option<Cell>): seq<Action> {
    if !covered && cover.Some? then [Build(Wall, cover.value)] else []
  }

  /** The number of sides still open, which is the structure-point reserve
      the build walk keeps for the patch walls. */
  function CountFalse(flags: seq<bool>): (n: nat)
    ensures n <= |flags|
    ensures n == 0 <==> forall i :: 0 <= i < |flags| ==> flags[i]
    ensures n == |flags| <==> forall i :: 0 <= i < |flags| ==> !flags[i]
    decreases |flags|
  {
    if flags == [] then 0
    else CountFalse(flags[..|flags| - 1]) + (if flags[|flags| - 1] then 0 else 1)
  }

  lemma CountFalsePair(a: bool, b: bool)
    ensures CountFalse([a, b]) == (if a then 0 else 1) + (if b then 0 else 1)
  {
    assert [a, b][..1] == [a] && [a][..0] == [];
  }

  /** One cover-up pass only orders walls, one per side it newly covers:
      the orders it issues plus the sides still open afterwards equal the
      sides open before, so a reserve of one wall per open side suffices. */
  lemma CoverPassShape(covered0: bool, covered1: bool, left: Option<Cell>, right: Option<Cell>)
    ensures var orders := CoverOrders(covered0, left) + CoverOrders(covered1, right);
            && |orders| + CountFalse([covered0 || left.Some?, covered1 || right.Some?]) == CountFalse([covered0, covered1])
            && forall a :: a in orders ==> a.Build? && a.kind == Wall
  {
    CountFalsePair(covered0, covered1);
    CountFalsePair(covered0 || left.Some?, covered1 || right.Some?);
  }

  /** One cover-up pass on a board, as a value: for each side not yet
      covered the side's patch wall is ordered when its scan finds one; the
      right side is scanned on the board the left side's order left. The
      result is the per-side flags and the orders issued. */
  function CoverPass(costs: Costs, units: map<Cell, Structure>, sp: real, covered: seq<bool>): (p: (seq<bool>, seq<Action>))
    requires CostsValid(costs) && sp >= 0.0 && BoardValid(units) && |covered| == 2
    ensures |p.0| == 2 && |p.1| + CountFalse(p.0) == CountFalse(covered)
    ensures forall a :: a in p.1 ==> a.Build? && a.kind == Wall
    ensures p.0[0] == (covered[0] || LeftCover(units).Some?)
  {
    var leftOrders := CoverOrders(covered[0], LeftCover(units));
    ReplayBounds(costs, units, sp, leftOrders);
    var between := Replay(costs, units, sp, leftOrders).0;
    CoverPassShape(covered[0], covered[1], LeftCover(units), RightCover(between));
    assert covered == [covered[0], covered[1]];
    ([covered[0] || LeftCover(units).Some?, covered[1] || RightCover(between).Some?],
     leftOrders + CoverOrders(covered[1], RightCover(between)))
  }

  // ---------------------------------------------------------------------
  // Breaches

  /** A breach event from an action frame: where a mobile unit scored, and
      the owner of that unit as the frame encodes it (1 for ourselves). */
  datatype Breach = Breach(location: Cell, owner: int)

  /** The locations at which the opponent scored on us, in frame order. */
  function OpponentBreaches(breaches: seq<Breach>): seq<Cell>
    decreases |breaches|
  {
    if breaches == [] then []
    else
      var b := breaches[|breaches| - 1];
      OpponentBreaches(breaches[..|breaches| - 1]) + (if b.owner != 1 then [b.location] else [])
  }

  /** Filtering distributes over frames read one after another, so the
      filter keeps the breaches in their original order. */
  lemma {:induction false} OpponentBreachesAppend(a: seq<Breach>, b: seq<Breach>)
    ensures OpponentBreaches(a + b) == OpponentBreaches(a) + OpponentBreaches(b)
    decreases |b|
  {
    if b == [] {
      assert a + b == a;
    } else {
      var n := |b| - 1;
      OpponentBreachesAppend(a, b[..n]);
      assert (a + b)[..|a| + n] == a + b[..n] && (a + b)[|a| + n] == b[n];
      ConcatAssoc(OpponentBreaches(a), OpponentBreaches(b[..n]),
                  if b[n].owner != 1 then [b[n].location] else []);
    }
  }

  /** Exactly the opponent's breaches are kept: every kept location comes
      from a breach not owned by us, every such breach is kept, and nothing
      is kept when all breaches are ours. */
  lemma {:induction false} OpponentBreachesExactly(breaches: seq<Breach>)
    ensures forall c :: c in OpponentBreaches(breaches) ==> exists b :: b in breaches && b.owner != 1 && b.location == c
    ensures forall b :: b in breaches && b.owner != 1 ==> b.location in OpponentBreaches(breaches)
    ensures (forall b :: b in breaches ==> b.owner == 1) <==> OpponentBreaches(breaches) == []
    decreases |breaches|
  {
    if breaches != [] {
      var n := |breaches| - 1;
      OpponentBreachesExactly(breaches[..n]);
      assert breaches == breaches[..n] + [breaches[n]];
    }
  }

  /** The v1 bot: its configured build order, and the places where the
      opponent has scored on it so far. */
  class AlgoStrategy {
    const buildOrder: seq<BuildJob>
    var scoredOnLocations: seq<Cell>

    constructor (buildOrder: seq<BuildJob>)
      ensures this.buildOrder == buildOrder && scoredOnLocations == []
    {
      this.buildOrder := buildOrder;
      scoredOnLocations := [];
    }

    /** Decide whether to patch, order the patch walls of the first pass,
        spend the build order down to a reserve of one wall's worth per side
        still open, then retry the open sides. Each step is stated on the
        board the step before it left: the first pass by CoverPass on the
        starting board, the walk by BuildWalk after the first pass's walls,
        the second pass by CoverPass where the walk ended. */
    method BuildDefences(gs: GameState)
      returns (ghost firstPass: seq<bool>, ghost firstOrders: seq<Action>, ghost attempted: nat,
               ghost secondPass: seq<bool>, ghost secondOrders: seq<Action>)
      requires gs.Valid()
      modifies gs
      ensures gs.Valid()
      ensures |firstPass| == 2 && attempted <= |buildOrder|
      ensures gs.log == old(gs.log) + firstOrders + JobOrders(buildOrder[..attempted]) + secondOrders
      ensures !NeedToPatch(gs.enemyMP, old(gs.mp)) ==> firstPass == [true, true] && firstOrders == [] && secondOrders == []
      ensures NeedToPatch(gs.enemyMP, old(gs.mp)) ==>
                (firstPass, firstOrders) == CoverPass(gs.costs, old(gs.units), old(gs.sp), [false, false])
      ensures var (units1, sp1) := Replay(gs.costs, old(gs.units), old(gs.sp), firstOrders);
              var w := BuildWalk(gs.costs, units1, sp1, buildOrder, CountFalse(firstPass) as real);
              && w.attempted == attempted
              && BoardValid(w.units) && w.sp >= 0.0
              && (secondPass, secondOrders) == CoverPass(gs.costs, w.units, w.sp, firstPass)
              && (gs.units, gs.sp) == Replay(gs.costs, w.units, w.sp, secondOrders)
      ensures NeedToPatch(gs.enemyMP, old(gs.mp)) ==>
                firstPass[0] == LeftCover(old(gs.units)).Some? && |firstOrders| + CountFalse(firstPass) == 2
      ensures |secondOrders| <= CountFalse(firstPass)
      ensures forall a :: a in firstOrders + secondOrders ==> a.Build? && a.kind == Wall
      ensures gs.mp == old(gs.mp) && EnemyHalf(gs.units) == EnemyHalf(old(gs.units))
    {
      var needToPatch := IsEnemyLikelyToAttack(gs.enemyMP) && !IsAttacking(gs.mp);
      var isCoveredUp := [true, true];
      firstOrders := [];
      if needToPatch {
        ghost var between;
        isCoveredUp, between, firstOrders := CoverUp(gs, [false, false]);
        CountFalsePair(false, false);
      } else {
        assert gs.log + [] == gs.log;
      }
      firstPass := isCoveredUp;
      ghost var log1, units1, sp1 := gs.log, gs.units, gs.sp;
      attempted := BuildDefaultDefences(gs, CountFalse(isCoveredUp));
      ghost var log2 := gs.log;
      var isCoveredAfter; ghost var between;
      isCoveredAfter, between, secondOrders := CoverUp(gs, isCoveredUp);
      secondPass := isCoveredAfter;
      assert gs.log == log2 + secondOrders;
      assert log2 == log1 + JobOrders(buildOrder[..attempted]);
      assert log1 == old(gs.log) + firstOrders;
      ConcatAssoc(old(gs.log), firstOrders, JobOrders(buildOrder[..attempted]));
      ConcatAssoc(old(gs.log) + firstOrders, JobOrders(buildOrder[..attempted]), secondOrders);
    }

    /** One cover-up pass over the sides not yet covered, as CoverPass
        says. For each such side the scan finds the first gap, and a wall is
        ordered at the patch cell when the scan moved and the cell is free;
        the side reports whether a wall was ordered. A covered side reports
        true and orders nothing. `between` is the board after the left side. */
    method CoverUp(gs: GameState, covered: seq<bool>)
      returns (result: seq<bool>, ghost between: map<Cell, Structure>, ghost orders: seq<Action>)
      requires gs.Valid() && |covered| == 2
      modifies gs
      ensures gs.Valid() && BoardValid(between)
      ensures (result, orders) == CoverPass(gs.costs, old(gs.units), old(gs.sp), covered)
      ensures (gs.units, gs.sp) == Replay(gs.costs, old(gs.units), old(gs.sp), orders)
      ensures between == Replay(gs.costs, old(gs.units), old(gs.sp), CoverOrders(covered[0], LeftCover(old(gs.units)))).0
      ensures result == [covered[0] || LeftCover(old(gs.units)).Some?, covered[1] || RightCover(between).Some?]
      ensures orders == CoverOrders(covered[0], LeftCover(old(gs.units))) + CoverOrders(covered[1], RightCover(between))
      ensures gs.log == old(gs.log) + orders
      ensures |orders| + CountFalse(result) == CountFalse(covered)
      ensures forall a :: a in orders ==> a.Build? && a.kind == Wall
      ensures RightScanStop(between, RIGHT_SCAN_START) == RightScanStop(old(gs.units), RIGHT_SCAN_START)
      ensures gs.sp <= old(gs.sp) && gs.mp == old(gs.mp) && EnemyHalf(gs.units) == EnemyHalf(old(gs.units))
    {
      ghost var leftOrders := CoverOrders(covered[0], LeftCover(old(gs.units)));
      var left := true;
      if !covered[0] {
        left := CoverLeft(gs);
      } else {
        assert gs.log + [] == gs.log;
      }
      between := gs.units;
      ghost var log1, sp1 := gs.log, gs.sp;
      var right := true;
      if !covered[1] {
        right := CoverRight(gs);
      } else {
        assert gs.log + [] == gs.log;
      }
      result := [left, right];
      orders := leftOrders + CoverOrders(covered[1], RightCover(between));
      ConcatAssoc(old(gs.log), leftOrders, CoverOrders(covered[1], RightCover(between)));
      ReplayAppend(gs.costs, old(gs.units), old(gs.sp), leftOrders, CoverOrders(covered[1], RightCover(between)));
      CoverPassShape(covered[0], covered[1], LeftCover(old(gs.units)), RightCover(between));
      assert covered == [covered[0], covered[1]];
    }

    /** The left side of a cover-up pass: scan right from LEFT_SCAN_START
        while both cells of the column pair are occupied, then order a wall
        two columns left of the stop when the scan moved and that cell is
        free. The wall stands when the points suffice; the right scan does
        not see it. */
    method CoverLeft(gs: GameState) returns (canSpawn: bool)
      requires gs.Valid()
      modifies gs
      ensures gs.Valid()
      ensures canSpawn == LeftCover(old(gs.units)).Some?
      ensures gs.log == old(gs.log) + CoverOrders(false, LeftCover(old(gs.units)))
      ensures (gs.units, gs.sp) == Replay(gs.costs, old(gs.units), old(gs.sp), CoverOrders(false, LeftCover(old(gs.units))))
      ensures if canSpawn && old(gs.sp) >= gs.costs.build(Wall)
              then gs.units == old(gs.units)[LeftCover(old(gs.units)).value := Structure(Wall, 1.0, 1.0, false)]
                   && gs.sp == old(gs.sp) - gs.costs.build(Wall)
              else gs.units == old(gs.units) && gs.sp == old(gs.sp)
      ensures RightScanStop(gs.units, RIGHT_SCAN_START) == RightScanStop(old(gs.units), RIGHT_SCAN_START)
      ensures gs.mp == old(gs.mp) && EnemyHalf(gs.units) == EnemyHalf(old(gs.units))
    {
      var x := LEFT_SCAN_START;
      while (x, SCAN_ROW_LOW) in gs.units && (x - 2, SCAN_ROW_HIGH) in gs.units
        invariant LEFT_SCAN_START <= x && LeftScanStop(gs.units, x) == LeftScanStop(gs.units, LEFT_SCAN_START)
        decreases ARENA_SIZE - x
      {
        assert InArena((x, SCAN_ROW_LOW));
        x := x + 1;
      }
      var spawnPosition := (x - 2, COVER_ROW);
      canSpawn := x != LEFT_SCAN_START && spawnPosition !in gs.units;
      if canSpawn {
        LeftCoverMeaning(gs.units);
        var built := gs.AttemptBuild(Wall, spawnPosition);
        ReplaySnoc(gs.costs, old(gs.units), old(gs.sp), [], Build(Wall, spawnPosition));
        if built {
          RightScanIgnoresCoverRow(old(gs.units), spawnPosition, Structure(Wall, 1.0, 1.0, false), RIGHT_SCAN_START);
        }
      } else {
        assert gs.log + [] == gs.log;
      }
    }

    /** The right side, mirrored: scan left from RIGHT_SCAN_START and order
        the wall two columns right of the stop. */
    method CoverRight(gs: GameState) returns (canSpawn: bool)
      requires gs.Valid()
      modifies gs
      ensures gs.Valid()
      ensures canSpawn == RightCover(old(gs.units)).Some?
      ensures gs.log == old(gs.log) + CoverOrders(false, RightCover(old(gs.units)))
      ensures (gs.units, gs.sp) == Replay(gs.costs, old(gs.units), old(gs.sp), CoverOrders(false, RightCover(old(gs.units))))
      ensures if canSpawn && old(gs.sp) >= gs.costs.build(Wall)
              then gs.units == old(gs.units)[RightCover(old(gs.units)).value := Structure(Wall, 1.0, 1.0, false)]
                   && gs.sp == old(gs.sp) - gs.costs.build(Wall)
              else gs.units == old(gs.units) && gs.sp == old(gs.sp)
      ensures gs.mp == old(gs.mp) && EnemyHalf(gs.units) == EnemyHalf(old(gs.units))
    {
      var x := RIGHT_SCAN_START;
      while (x, SCAN_ROW_LOW) in gs.units && (x + 2, SCAN_ROW_HIGH) in gs.units
        invariant x <= RIGHT_SCAN_START && RightScanStop(gs.units, x) == RightScanStop(gs.units, RIGHT_SCAN_START)
        decreases x
      {
        assert InArena((x, SCAN_ROW_LOW));
        x := x - 1;
      }
      var spawnPosition := (x + 2, COVER_ROW);
      canSpawn := x != RIGHT_SCAN_START && spawnPosition !in gs.units;
      if canSpawn {
        RightCoverMeaning(gs.units);
        var _ := gs.AttemptBuild(Wall, spawnPosition);
        ReplaySnoc(gs.costs, old(gs.units), old(gs.sp), [], Build(Wall, spawnPosition));
      } else {
        assert gs.log + [] == gs.log;
      }
    }

    /** Walk the build order in order, exactly as BuildWalk does with
        `patchCost` as the reserve: the check "points held below price plus
        `patchCost`" is BuildWalk's "points left after the price below the
        reserve", and the first job failing it ends the walk. */
    method BuildDefaultDefences(gs: GameState, patchCost: nat) returns (ghost attempted: nat)
      requires gs.Valid()
      modifies gs
      ensures gs.Valid()
      ensures BuildWalk(gs.costs, old(gs.units), old(gs.sp), buildOrder, patchCost as real) == Walk(attempted, gs.units, gs.sp)
      ensures gs.log == old(gs.log) + JobOrders(buildOrder[..attempted])
      ensures gs.sp <= old(gs.sp) && gs.mp == old(gs.mp) && EnemyHalf(gs.units) == EnemyHalf(old(gs.units))
    {
      var done, stopped := RunGroup(gs, buildOrder, patchCost as real);
      BuildWalkBounds(gs.costs, old(gs.units), old(gs.sp), buildOrder, patchCost as real);
      attempted := done;
    }

    /** Record the locations of the breaches the opponent's units made, in
        the order the frame lists them. */
    method OnActionFrame(breaches: seq<Breach>)
      modifies this`scoredOnLocations
      ensures scoredOnLocations == old(scoredOnLocations) + OpponentBreaches(breaches)
    {
      for i := 0 to |breaches|
        invariant scoredOnLocations == old(scoredOnLocations) + OpponentBreaches(breaches[..i])
      {
        var breach := breaches[i];
        var location := breach.location;
        var unitOwnerSelf := breach.owner == 1;
        assert breaches[..i + 1][..i] == breaches[..i];
        if !unitOwnerSelf {
          scoredOnLocations := scoredOnLocations + [location];
        }
        ConcatAssoc(old(scoredOnLocations), OpponentBreaches(breaches[..i]),
                    if !unitOwnerSelf then [location] else []);
      }
      assert breaches[..|breaches|] == breaches;
    }
  }
}
