/** The defence builder: which cells are ours, which damaged structures are
    refunded, how the configured build order is spent, and which flanks of our
    edge are walled off this turn. */
module Defense {
  import opened Board
  import opened Edges
  import opened Modes

  // ---------------------------------------------------------------------
  // Our side of the board

  /** Our half of the diamond: in column x left of centre the rows from
      HALF_ARENA - x - 1 up, right of centre the rows from x - HALF_ARENA up,
      in both cases below HALF_ARENA. */
  predicate FriendlySide(c: Cell) {
    && 0 <= c.0 < ARENA_SIZE
    && (if c.0 < HALF_ARENA then HALF_ARENA - c.0 - 1 <= c.1 else c.0 - HALF_ARENA <= c.1)
    && c.1 < HALF_ARENA
  }

  /** The column-by-column rule describes exactly the cells of the arena below
      the centre line. */
  lemma FriendlySideIsLowerArena(c: Cell)
    ensures FriendlySide(c) <==> InArena(c) && c.1 < HALF_ARENA
  {
  }

  /** Column-major order: by column, then by row. */
  predicate Before(a: Cell, b: Cell) {
    a.0 < b.0 || (a.0 == b.0 && a.1 < b.1)
  }

  /** Every cell of our side, once each, column by column and upward within
      a column. */
  method EnumerateFriendlySideLocations() returns (locs: seq<Cell>)
    ensures forall c :: c in locs <==> FriendlySide(c)
    ensures forall i, j :: 0 <= i < j < |locs| ==> Before(locs[i], locs[j])
  {
    locs := [];
    for x := 0 to ARENA_SIZE
      invariant forall c :: c in locs <==> FriendlySide(c) && c.0 < x
      invariant forall i, j :: 0 <= i < j < |locs| ==> Before(locs[i], locs[j])
      invariant forall i :: 0 <= i < |locs| ==> locs[i].0 < x
    {
      var low := if x < HALF_ARENA then HALF_ARENA - x - 1 else x - 14;
      for y := low to HALF_ARENA
        invariant forall c :: c in locs <==> FriendlySide(c) && (c.0 < x || (c.0 == x && c.1 < y))
        invariant forall i, j :: 0 <= i < j < |locs| ==> Before(locs[i], locs[j])
        invariant forall i :: 0 <= i < |locs| ==> Before(locs[i], (x, y))
      {
        locs := locs + [(x, y)];
      }
    }
  }

  // ---------------------------------------------------------------------
  // Refunds

  const REFUND_THRESHOLD_WALL: real := 0.5
  const REFUND_THRESHOLD_TURRET: real := 0.3

  /** A turret below 30% or a wall below 50% of its maximum health is
      refunded; a support never is. */
  predicate NeedsRefund(s: Structure)
    requires StructureValid(s)
  {
    match s.kind
    case Turret => s.health / s.maxHealth < REFUND_THRESHOLD_TURRET
    case Wall => s.health / s.maxHealth < REFUND_THRESHOLD_WALL
    case Support => false
  }

  /** The Remove orders issued while visiting `locs` in order. */
  function RefundOrders(units: map<Cell, Structure>, locs: seq<Cell>): seq<Action>
    requires BoardValid(units)
  {
    if locs == [] then []
    else
      var c := locs[|locs| - 1];
      RefundOrders(units, locs[..|locs| - 1]) + (if c in units && NeedsRefund(units[c]) then [Remove(c)] else [])
  }

  /** Every refund order is a Remove order for a visited cell whose
      structure needs a refund. */
  lemma {:induction false} RefundOrdersSound(units: map<Cell, Structure>, locs: seq<Cell>)
    requires BoardValid(units)
    ensures forall a :: a in RefundOrders(units, locs) ==>
              a.Remove? && a.cell in locs && a.cell in units && NeedsRefund(units[a.cell])
    decreases |locs|
  {
    if locs != [] {
      var init := locs[..|locs| - 1];
      RefundOrdersSound(units, init);
      assert locs == init + [locs[|locs| - 1]];
    }
  }

  /** Every visited cell whose structure needs a refund gets a Remove
      order. */
  lemma {:induction false} RefundOrdersComplete(units: map<Cell, Structure>, locs: seq<Cell>)
    requires BoardValid(units)
    ensures forall c :: c in locs && c in units && NeedsRefund(units[c]) ==> Remove(c) in RefundOrders(units, locs)
    decreases |locs|
  {
    if locs != [] {
      var init := locs[..|locs| - 1];
      RefundOrdersComplete(units, init);
      assert locs == init + [locs[|locs| - 1]];
    }
  }

  /** Cells visited in board order give Remove orders in board order. */
  lemma {:induction false} RefundOrdersOrdered(units: map<Cell, Structure>, locs: seq<Cell>)
    requires BoardValid(units)
    requires forall i, j :: 0 <= i < j < |locs| ==> Before(locs[i], locs[j])
    ensures forall i, j :: 0 <= i < j < |RefundOrders(units, locs)| ==>
              Before(RefundOrders(units, locs)[i].cell, RefundOrders(units, locs)[j].cell)
    decreases |locs|
  {
    if locs != [] {
      var init, c := locs[..|locs| - 1], locs[|locs| - 1];
      forall i, j | 0 <= i < j < |init| ensures Before(init[i], init[j]) {
        assert init[i] == locs[i] && init[j] == locs[j];
      }
      RefundOrdersOrdered(units, init);
      RefundOrdersSound(units, init);
      var r := RefundOrders(units, init);
      forall k | 0 <= k < |r| ensures Before(r[k].cell, c) {
        assert r[k] in r;
        var m :| 0 <= m < |init| && init[m] == r[k].cell;
        assert locs[m] == init[m];
      }
    }
  }

  /** `refunds` are the refund orders for the board: a Remove order for
      each cell of our side whose structure needs a refund, nothing else, in
      board order. RefundsOfUnique shows this leaves one sequence. */
  ghost predicate RefundsOf(units: map<Cell, Structure>, refunds: seq<Action>)
    requires BoardValid(units)
  {
    && (forall a :: a in refunds ==>
          a.Remove? && FriendlySide(a.cell) && a.cell in units && NeedsRefund(units[a.cell]))
    && (forall c :: FriendlySide(c) && c in units && NeedsRefund(units[c]) ==> Remove(c) in refunds)
    && (forall i, j :: 0 <= i < j < |refunds| ==> Before(refunds[i].cell, refunds[j].cell))
  }

  /** A sequence that is not empty has its first element among its members. */
  lemma HeadIsMember(s: seq<Action>)
    ensures s == [] || s[0] in s
  {
  }

  /** Two removal sequences in strictly increasing board order with the same
      members are the same sequence. */
  lemma {:induction false} SortedRemovalsUnique(r1: seq<Action>, r2: seq<Action>)
    requires forall a :: a in r1 ==> a.Remove?
    requires forall a :: a in r1 <==> a in r2
    requires forall i, j :: 0 <= i < j < |r1| ==> Before(r1[i].cell, r1[j].cell)
    requires forall i, j :: 0 <= i < j < |r2| ==> Before(r2[i].cell, r2[j].cell)
    ensures r1 == r2
    decreases |r1|
  {
    if r1 == [] {
      HeadIsMember(r2);
    } else {
      assert r1[0] in r2;
      var a, b := r1[0], r2[0];
      assert b in r1;
      var k :| 0 <= k < |r1| && r1[k] == b;
      var m :| 0 <= m < |r2| && r2[m] == a;
      assert a == b;
      var t1, t2 := r1[1..], r2[1..];
      forall x ensures x in t1 <==> x in t2 {
        if x in t1 {
          var i :| 0 <= i < |t1| && t1[i] == x;
          assert Before(a.cell, r1[i + 1].cell);
          assert x in r2 && x != r2[0];
        }
        if x in t2 {
          var i :| 0 <= i < |t2| && t2[i] == x;
          assert Before(b.cell, r2[i + 1].cell);
          assert x in r1 && x != r1[0];
        }
      }
      forall i, j | 0 <= i < j < |t1| ensures Before(t1[i].cell, t1[j].cell) {
        assert t1[i] == r1[i + 1] && t1[j] == r1[j + 1];
      }
      forall i, j | 0 <= i < j < |t2| ensures Before(t2[i].cell, t2[j].cell) {
        assert t2[i] == r2[i + 1] && t2[j] == r2[j + 1];
      }
      SortedRemovalsUnique(t1, t2);
      assert r1 == [a] + t1 && r2 == [b] + t2;
    }
  }

  /** The refund orders of a board are determined by it. */
  lemma RefundsOfUnique(units: map<Cell, Structure>, r1: seq<Action>, r2: seq<Action>)
    requires BoardValid(units) && RefundsOf(units, r1) && RefundsOf(units, r2)
    ensures r1 == r2
  {
    forall a ensures a in r1 <==> a in r2 {
      if a in r1 {
        assert Remove(a.cell) in r2;
      }
      if a in r2 {
        assert Remove(a.cell) in r1;
      }
    }
    SortedRemovalsUnique(r1, r2);
  }

  /** Visit every cell of our side and order the removal of each structure
      that needs a refund; the board and the resource pools are unchanged. */
  method RefundLowHealthStructures(gs: GameState) returns (ghost refunds: seq<Action>)
    requires gs.Valid()
    modifies gs
    ensures gs.Valid()
    ensures gs.units == old(gs.units) && gs.sp == old(gs.sp) && gs.mp == old(gs.mp)
    ensures gs.log == old(gs.log) + refunds
    ensures RefundsOf(gs.units, refunds)
  {
    var locs := EnumerateFriendlySideLocations();
    for i := 0 to |locs|
      invariant gs.Valid()
      invariant gs.units == old(gs.units) && gs.sp == old(gs.sp) && gs.mp == old(gs.mp)
      invariant gs.log == old(gs.log) + RefundOrders(gs.units, locs[..i])
    {
      RefundCell(gs, locs[i]);
      assert locs[..i + 1][..i] == locs[..i];
      ConcatAssoc(old(gs.log), RefundOrders(gs.units, locs[..i]),
                  if locs[i] in gs.units && NeedsRefund(gs.units[locs[i]]) then [Remove(locs[i])] else []);
    }
    assert locs[..|locs|] == locs;
    RefundOrdersSound(gs.units, locs);
    RefundOrdersComplete(gs.units, locs);
    RefundOrdersOrdered(gs.units, locs);
    refunds := RefundOrders(gs.units, locs);
  }

  /** Order the removal of the structure at `c` when it is damaged below
      its kind's refund threshold. */
  method RefundCell(gs: GameState, c: Cell)
    requires gs.Valid()
    modifies gs
    ensures gs.Valid()
    ensures gs.units == old(gs.units) && gs.sp == old(gs.sp) && gs.mp == old(gs.mp)
    ensures gs.log == old(gs.log) + if c in gs.units && NeedsRefund(gs.units[c]) then [Remove(c)] else []
  {
    if c in gs.units {
      var s := gs.units[c];
      if s.kind == Turret {
        if s.health / s.maxHealth < REFUND_THRESHOLD_TURRET {
          var _ := gs.AttemptRemove(c);
        }
      } else if s.kind == Wall {
        if s.health / s.maxHealth < REFUND_THRESHOLD_WALL {
          var _ := gs.AttemptRemove(c);
        }
      }
    }
    if gs.log == old(gs.log) {
      assert gs.log + [] == gs.log;
    }
  }

  // ---------------------------------------------------------------------
  // The configured build order

  /** One step of the build order; the kind replaces the configuration's
      textual unit name. */
  datatype BuildJob = SpawnJob(kind: StructureKind, cell: Cell) | UpgradeJob(kind: StructureKind, cell: Cell)

  /** The structure-point price the executor checks a job against. */
  function JobCost(costs: Costs, job: BuildJob): real {
    if job.SpawnJob? then costs.build(job.kind) else costs.upgrade(job.kind)
  }

  function JobOrder(job: BuildJob): Action {
    match job
    case SpawnJob(k, c) => Build(k, c)
    case UpgradeJob(_, c) => Upgrade(c)
  }

  /** The orders the jobs issue, in job order. */
  function JobOrders(jobs: seq<BuildJob>): seq<Action>
    decreases |jobs|
  {
    if jobs == [] then [] else JobOrders(jobs[..|jobs| - 1]) + [JobOrder(jobs[|jobs| - 1])]
  }

  /** One order per job, in the same position. */
  lemma {:induction false} JobOrdersPointwise(jobs: seq<BuildJob>)
    ensures |JobOrders(jobs)| == |jobs|
    ensures forall i :: 0 <= i < |jobs| ==> JobOrders(jobs)[i] == JobOrder(jobs[i])
    decreases |jobs|
  {
    if jobs != [] {
      JobOrdersPointwise(jobs[..|jobs| - 1]);
    }
  }

  /** The groups of the build order, one after the other. */
  function Flatten(groups: seq<seq<BuildJob>>): seq<BuildJob> {
    if groups == [] then [] else Flatten(groups[..|groups| - 1]) + groups[|groups| - 1]
  }

  lemma {:induction false} FlattenAppend(a: seq<seq<BuildJob>>, b: seq<seq<BuildJob>>)
    ensures Flatten(a + b) == Flatten(a) + Flatten(b)
    decreases |b|
  {
    if b == [] {
      assert a + b == a;
    } else {
      var init := b[..|b| - 1];
      assert (a + b)[..|a + b| - 1] == a + init;
      assert (a + b)[|a + b| - 1] == b[|b| - 1];
      FlattenAppend(a, init);
      ConcatAssoc(Flatten(a), Flatten(init), b[|b| - 1]);
    }
  }

  /** Job j of group g sits in the flat order right after all jobs of the
      groups before g. */
  lemma FlattenAt(groups: seq<seq<BuildJob>>, g: nat, j: nat)
    requires g < |groups| && j < |groups[g]|
    ensures |Flatten(groups[..g])| + j < |Flatten(groups)|
    ensures Flatten(groups)[|Flatten(groups[..g])| + j] == groups[g][j]
  {
    assert groups == groups[..g + 1] + groups[g + 1..];
    FlattenAppend(groups[..g + 1], groups[g + 1..]);
    assert groups[..g + 1][..g] == groups[..g];
  }

  /** What the engine does with a job once it is issued: what it does with
      the job's order. */
  function JobEffect(costs: Costs, units: map<Cell, Structure>, sp: real, job: BuildJob): (map<Cell, Structure>, real) {
    OrderEffect(costs, units, sp, JobOrder(job))
  }

  /** The job is charged no more than the price it was checked against: it
      failed on the board, or it is a spawn, or the structure it upgrades is
      of a kind whose upgrade costs no more than the kind the job names. */
  predicate ChargedAsChecked(costs: Costs, units: map<Cell, Structure>, sp: real, job: BuildJob) {
    JobEffect(costs, units, sp, job).1 >= sp - JobCost(costs, job)
  }

  /** A spawn is always charged its checked price, and so is an upgrade of a
      structure of the kind the job names. */
  lemma ChargedAsCheckedCases(costs: Costs, units: map<Cell, Structure>, sp: real, job: BuildJob)
    requires CostsValid(costs)
    requires job.SpawnJob? || (job.cell in units && units[job.cell].kind == job.kind)
    ensures ChargedAsChecked(costs, units, sp, job)
  {
  }

  /** Where a walk over the build order ends: how many jobs were issued, and
      the board and structure-point balance they left. */
  datatype Walk = Walk(attempted: nat, units: map<Cell, Structure>, sp: real)

  /** The reference walk: the jobs in order from board `units` and balance
      `sp`, each checked against the balance the jobs before it left; the
      first job whose price would take the balance below `minSpToSave` ends
      the walk, and no later job is looked at. */
  function BuildWalk(costs: Costs, units: map<Cell, Structure>, sp: real, jobs: seq<BuildJob>, minSpToSave: real): (w: Walk)
    ensures w.attempted <= |jobs|
    decreases |jobs|
  {
    if jobs == [] then Walk(0, units, sp)
    else
      var n := |jobs| - 1;
      var w := BuildWalk(costs, units, sp, jobs[..n], minSpToSave);
      if w.attempted < n || w.sp - JobCost(costs, jobs[n]) < minSpToSave then w
      else
        var (u, s) := JobEffect(costs, w.units, w.sp, jobs[n]);
        Walk(n + 1, u, s)
  }

  /** The walk job by job: every issued job i was checked against the
      balance the first i jobs left and passed; the job after the last
      issued one failed its check against the final balance. */
  lemma {:induction false} BuildWalkChecks(costs: Costs, units: map<Cell, Structure>, sp: real, jobs: seq<BuildJob>,
                                           minSpToSave: real)
    ensures var w := BuildWalk(costs, units, sp, jobs, minSpToSave);
            && (forall i :: 0 <= i < w.attempted ==>
                  var before := BuildWalk(costs, units, sp, jobs[..i], minSpToSave);
                  before.attempted == i && before.sp - JobCost(costs, jobs[i]) >= minSpToSave)
            && (w.attempted < |jobs| ==> w.sp - JobCost(costs, jobs[w.attempted]) < minSpToSave)
            && (w.attempted == 0 ==> w.units == units && w.sp == sp)
    decreases |jobs|
  {
    if jobs != [] {
      var n := |jobs| - 1;
      BuildWalkChecks(costs, units, sp, jobs[..n], minSpToSave);
      var w := BuildWalk(costs, units, sp, jobs[..n], minSpToSave);
      forall i | 0 <= i < BuildWalk(costs, units, sp, jobs, minSpToSave).attempted
        ensures BuildWalk(costs, units, sp, jobs[..i], minSpToSave).attempted == i
        ensures BuildWalk(costs, units, sp, jobs[..i], minSpToSave).sp - JobCost(costs, jobs[i]) >= minSpToSave
      {
        assert jobs[..n][..i] == jobs[..i];
        if i < n {
          assert jobs[..n][i] == jobs[i];
        }
      }
      if w.attempted < n {
        assert jobs[..n][w.attempted] == jobs[w.attempted];
      }
    }
  }

  /** The walk stops at the first job the balance cannot carry, even when a
      cheaper job comes after it: from 10 points with no reserve, walls at 6
      then a turret at 2 issue one wall and leave 4 points. */
  lemma WalkStopsAtFirstShortfall()
    ensures var costs := Costs(k => if k == Wall then 6.0 else 2.0, k => 1.0, m => 1.0);
            var jobs := [SpawnJob(Wall, (13, 1)), SpawnJob(Wall, (14, 1)), SpawnJob(Turret, (13, 2))];
            BuildWalk(costs, map[], 10.0, jobs, 0.0) == Walk(1, map[(13, 1) := Structure(Wall, 1.0, 1.0, false)], 4.0)
  {
    var costs := Costs(k => if k == Wall then 6.0 else 2.0, k => 1.0, m => 1.0);
    var jobs := [SpawnJob(Wall, (13, 1)), SpawnJob(Wall, (14, 1)), SpawnJob(Turret, (13, 2))];
    var m1 := map[(13, 1) := Structure(Wall, 1.0, 1.0, false)];
    assert jobs[..1][..0] == [] && jobs[..2][..1] == jobs[..1] && jobs[..3] == jobs && jobs[..3][..2] == jobs[..2];
    assert InArena((13, 1));
    assert JobEffect(costs, map[], 10.0, jobs[0]) == (m1, 4.0);
    assert BuildWalk(costs, map[], 10.0, jobs[..1], 0.0) == Walk(1, m1, 4.0);
    assert BuildWalk(costs, map[], 10.0, jobs[..2], 0.0) == Walk(1, m1, 4.0);
  }

  /** Walking `a + b` is walking `a` and, when all of `a` was issued, going
      on with `b` from the board and balance `a` left. */
  lemma {:induction false} BuildWalkAppend(costs: Costs, units: map<Cell, Structure>, sp: real, a: seq<BuildJob>,
                                           b: seq<BuildJob>, minSpToSave: real)
    ensures var w := BuildWalk(costs, units, sp, a, minSpToSave);
            BuildWalk(costs, units, sp, a + b, minSpToSave) ==
              if w.attempted < |a| then w
              else
                var v := BuildWalk(costs, w.units, w.sp, b, minSpToSave);
                Walk(|a| + v.attempted, v.units, v.sp)
    decreases |b|
  {
    if b == [] {
      assert a + b == a;
    } else {
      var n := |b| - 1;
      BuildWalkAppend(costs, units, sp, a, b[..n], minSpToSave);
      assert (a + b)[..|a| + n] == a + b[..n] && (a + b)[|a| + n] == b[n];
    }
  }

  /** The walk spends structure points, never creates them, and builds only
      on our half. */
  lemma {:induction false} BuildWalkBounds(costs: Costs, units: map<Cell, Structure>, sp: real, jobs: seq<BuildJob>,
                                           minSpToSave: real)
    requires CostsValid(costs) && sp >= 0.0 && BoardValid(units)
    ensures var w := BuildWalk(costs, units, sp, jobs, minSpToSave);
            0.0 <= w.sp <= sp && BoardValid(w.units) && EnemyHalf(w.units) == EnemyHalf(units)
    decreases |jobs|
  {
    if jobs != [] {
      var n := |jobs| - 1;
      BuildWalkBounds(costs, units, sp, jobs[..n], minSpToSave);
      var w := BuildWalk(costs, units, sp, jobs[..n], minSpToSave);
      OrderEffectBounds(costs, w.units, w.sp, JobOrder(jobs[n]));
    }
  }

  /** The board and balance the walk ends with are what the engine makes of
      the orders the walk issued. */
  lemma {:induction false} BuildWalkReplays(costs: Costs, units: map<Cell, Structure>, sp: real, jobs: seq<BuildJob>,
                                            minSpToSave: real)
    ensures var w := BuildWalk(costs, units, sp, jobs, minSpToSave);
            Replay(costs, units, sp, JobOrders(jobs[..w.attempted])) == (w.units, w.sp)
    decreases |jobs|
  {
    if jobs != [] {
      var n := |jobs| - 1;
      BuildWalkReplays(costs, units, sp, jobs[..n], minSpToSave);
      var w := BuildWalk(costs, units, sp, jobs[..n], minSpToSave);
      assert jobs[..n][..w.attempted] == jobs[..w.attempted];
      if w.attempted == n && w.sp - JobCost(costs, jobs[n]) >= minSpToSave {
        assert jobs[..n + 1] == jobs;
        ReplaySnoc(costs, units, sp, JobOrders(jobs[..n]), JobOrder(jobs[n]));
      }
    }
  }

  /** Every issued job was charged no more than its checked price. */
  ghost predicate WalkChargedAsChecked(costs: Costs, units: map<Cell, Structure>, sp: real, jobs: seq<BuildJob>,
                                       minSpToSave: real) {
    forall i :: 0 <= i < BuildWalk(costs, units, sp, jobs, minSpToSave).attempted ==>
      var before := BuildWalk(costs, units, sp, jobs[..i], minSpToSave);
      ChargedAsChecked(costs, before.units, before.sp, jobs[i])
  }

  /** The reserve holds at the end of the walk when it held at the start and
      no upgrade was charged more than its checked price. */
  lemma {:induction false} BuildWalkKeepsReserve(costs: Costs, units: map<Cell, Structure>, sp: real, jobs: seq<BuildJob>,
                                                 minSpToSave: real)
    requires sp >= minSpToSave
    requires WalkChargedAsChecked(costs, units, sp, jobs, minSpToSave)
    ensures BuildWalk(costs, units, sp, jobs, minSpToSave).sp >= minSpToSave
    decreases |jobs|
  {
    if jobs != [] {
      var n := |jobs| - 1;
      var w := BuildWalk(costs, units, sp, jobs[..n], minSpToSave);
      if w.attempted == n && w.sp - JobCost(costs, jobs[n]) >= minSpToSave {
        assert jobs[..n][..n] == jobs[..n];
        assert ChargedAsChecked(costs, w.units, w.sp, jobs[n]);
      } else {
        forall i | 0 <= i < w.attempted
          ensures ChargedAsChecked(costs, BuildWalk(costs, units, sp, jobs[..n][..i], minSpToSave).units,
                                   BuildWalk(costs, units, sp, jobs[..n][..i], minSpToSave).sp, jobs[..n][i])
        {
          assert jobs[..n][..i] == jobs[..i] && jobs[..n][i] == jobs[i];
        }
        BuildWalkKeepsReserve(costs, units, sp, jobs[..n], minSpToSave);
      }
    }
  }

  /** Check one job against the reserve and, when it passes, issue it:
      the engine then does what JobEffect says. */
  method TryJob(gs: GameState, job: BuildJob, minSpToSave: real) returns (issued: bool)
    requires gs.Valid()
    modifies gs
    ensures gs.Valid()
    ensures issued == (old(gs.sp) - JobCost(gs.costs, job) >= minSpToSave)
    ensures gs.log == old(gs.log) + (if issued then [JobOrder(job)] else [])
    ensures issued ==> (gs.units, gs.sp) == JobEffect(gs.costs, old(gs.units), old(gs.sp), job)
    ensures !issued ==> gs.units == old(gs.units) && gs.sp == old(gs.sp)
    ensures gs.mp == old(gs.mp) && EnemyHalf(gs.units) == EnemyHalf(old(gs.units))
  {
    issued := gs.sp - JobCost(gs.costs, job) >= minSpToSave;
    if !issued {
      return;
    }
    if job.SpawnJob? {
      var _ := gs.AttemptBuild(job.kind, job.cell);
    } else {
      var _ := gs.AttemptUpgrade(job.cell);
    }
  }

  lemma {:induction false} JobOrdersAppend(a: seq<BuildJob>, b: seq<BuildJob>)
    ensures JobOrders(a + b) == JobOrders(a) + JobOrders(b)
    decreases |b|
  {
    if b == [] {
      assert a + b == a;
    } else {
      var n := |b| - 1;
      JobOrdersAppend(a, b[..n]);
      assert (a + b)[..|a| + n] == a + b[..n] && (a + b)[|a| + n] == b[n];
      ConcatAssoc(JobOrders(a), JobOrders(b[..n]), [JobOrder(b[n])]);
    }
  }

  /** The first `done` jobs of group g follow, in the flat order, all jobs of
      the groups before g. */
  lemma FlattenGroupPrefix(groups: seq<seq<BuildJob>>, g: nat, done: nat)
    requires g < |groups| && done <= |groups[g]|
    ensures var p := |Flatten(groups[..g])|;
            && p + |groups[g]| <= |Flatten(groups)|
            && Flatten(groups)[..p + done] == Flatten(groups)[..p] + groups[g][..done]
            && (done < |groups[g]| ==> Flatten(groups)[p + done] == groups[g][done])
            && |Flatten(groups[..g + 1])| == p + |groups[g]|
  {
    var before, rest := Flatten(groups[..g]), Flatten(groups[g + 1..]);
    assert groups[..g + 1][..g] == groups[..g];
    assert groups == groups[..g + 1] + groups[g + 1..];
    FlattenAppend(groups[..g + 1], groups[g + 1..]);
    PrefixOfConcat(before, groups[g], rest, done);
    PrefixOfConcat(before, groups[g], rest, 0);
  }

  /** Cutting `(a + b) + c` inside `b`. */
  lemma PrefixOfConcat<T>(a: seq<T>, b: seq<T>, c: seq<T>, k: nat)
    requires k <= |b|
    ensures ((a + b) + c)[..|a| + k] == a + b[..k]
    ensures k < |b| ==> ((a + b) + c)[|a| + k] == b[k]
    ensures k == 0 ==> ((a + b) + c)[..|a|] == a
  {
  }

  /** The jobs of one group in order, exactly as BuildWalk walks them from
      the current board and balance; `stopped` when a job failed its check
      and ended the group. */
  method RunGroup(gs: GameState, jobs: seq<BuildJob>, minSpToSave: real) returns (done: nat, stopped: bool)
    requires gs.Valid()
    modifies gs
    ensures gs.Valid()
    ensures BuildWalk(gs.costs, old(gs.units), old(gs.sp), jobs, minSpToSave) == Walk(done, gs.units, gs.sp)
    ensures stopped <==> done < |jobs|
    ensures gs.log == old(gs.log) + JobOrders(jobs[..done])
    ensures gs.mp == old(gs.mp) && EnemyHalf(gs.units) == EnemyHalf(old(gs.units))
  {
    done, stopped := 0, false;
    for j := 0 to |jobs|
      invariant gs.Valid()
      invariant done == j
      invariant BuildWalk(gs.costs, old(gs.units), old(gs.sp), jobs[..j], minSpToSave) == Walk(j, gs.units, gs.sp)
      invariant gs.log == old(gs.log) + JobOrders(jobs[..j])
      invariant gs.mp == old(gs.mp) && EnemyHalf(gs.units) == EnemyHalf(old(gs.units))
    {
      ghost var before := gs.log;
      var issued := TryJob(gs, jobs[j], minSpToSave);
      assert jobs[..j + 1][..j] == jobs[..j] && jobs[..j + 1][j] == jobs[j];
      if !issued {
        BuildWalkAppend(gs.costs, old(gs.units), old(gs.sp), jobs[..j + 1], jobs[j + 1..], minSpToSave);
        assert jobs[..j + 1] + jobs[j + 1..] == jobs;
        stopped := true;
        break;
      }
      ConcatAssoc(old(gs.log), JobOrders(jobs[..j]), [JobOrder(jobs[j])]);
      done := done + 1;
    }
    if !stopped {
      assert jobs[..|jobs|] == jobs;
    }
  }

  /** Where the walk over the groups stands after the first g groups: either
      it went through all of them, and BuildWalk over them ends where the
      game state is, or it stopped and BuildWalk over the whole order does. */
  ghost predicate Progress(costs: Costs, order: seq<seq<BuildJob>>, g: nat, stopped: bool, attempted: nat,
                           minSpToSave: real, units0: map<Cell, Structure>, sp0: real,
                           units: map<Cell, Structure>, sp: real, log0: seq<Action>, log: seq<Action>) {
    && attempted <= |Flatten(order)|
    && log == log0 + JobOrders(Flatten(order)[..attempted])
    && (!stopped ==> && g <= |order| && attempted == |Flatten(order[..g])|
                     && BuildWalk(costs, units0, sp0, Flatten(order[..g]), minSpToSave) == Walk(attempted, units, sp))
    && (stopped ==> BuildWalk(costs, units0, sp0, Flatten(order), minSpToSave) == Walk(attempted, units, sp))
  }

  /** The orders of group g's first `done` jobs extend the orders of the
      jobs before group g to the orders of the flat prefix. */
  lemma ProgressStepLog(order: seq<seq<BuildJob>>, g: nat, attempted: nat, done: nat,
                        log0: seq<Action>, log1: seq<Action>, log2: seq<Action>)
    requires g < |order| && done <= |order[g]| && attempted == |Flatten(order[..g])| <= |Flatten(order)|
    requires log1 == log0 + JobOrders(Flatten(order)[..attempted])
    requires log2 == log1 + JobOrders(order[g][..done])
    ensures attempted + done <= |Flatten(order)|
    ensures log2 == log0 + JobOrders(Flatten(order)[..attempted + done])
  {
    var flat := Flatten(order);
    FlattenGroupPrefix(order, g, done);
    JobOrdersAppend(flat[..attempted], order[g][..done]);
    ConcatAssoc(log0, JobOrders(flat[..attempted]), JobOrders(order[g][..done]));
  }

  /** Running group g after the walk went through groups 0 to g - 1. */
  lemma ProgressStep(costs: Costs, order: seq<seq<BuildJob>>, g: nat, attempted: nat, done: nat, minSpToSave: real,
                     units0: map<Cell, Structure>, sp0: real, units1: map<Cell, Structure>, sp1: real,
                     units2: map<Cell, Structure>, sp2: real, log0: seq<Action>, log1: seq<Action>, log2: seq<Action>)
    requires g < |order| && done <= |order[g]|
    requires Progress(costs, order, g, false, attempted, minSpToSave, units0, sp0, units1, sp1, log0, log1)
    requires BuildWalk(costs, units1, sp1, order[g], minSpToSave) == Walk(done, units2, sp2)
    requires log2 == log1 + JobOrders(order[g][..done])
    ensures Progress(costs, order, g + 1, done < |order[g]|, attempted + done, minSpToSave,
                     units0, sp0, units2, sp2, log0, log2)
  {
    ProgressStepLog(order, g, attempted, done, log0, log1, log2);
    GroupWalkAppend(costs, order, g, done, minSpToSave, units0, sp0, units1, sp1, units2, sp2);
    if done < |order[g]| {
      WalkStopsInPrefix(costs, order, g + 1, minSpToSave, units0, sp0);
    }
  }

  /** Going through group g after the groups before it is walking the
      first g + 1 groups. */
  lemma GroupWalkAppend(costs: Costs, order: seq<seq<BuildJob>>, g: nat, done: nat, minSpToSave: real,
                        units0: map<Cell, Structure>, sp0: real, units1: map<Cell, Structure>, sp1: real,
                        units2: map<Cell, Structure>, sp2: real)
    requires g < |order|
    requires BuildWalk(costs, units0, sp0, Flatten(order[..g]), minSpToSave) == Walk(|Flatten(order[..g])|, units1, sp1)
    requires BuildWalk(costs, units1, sp1, order[g], minSpToSave) == Walk(done, units2, sp2)
    ensures |Flatten(order[..g + 1])| == |Flatten(order[..g])| + |order[g]|
    ensures BuildWalk(costs, units0, sp0, Flatten(order[..g + 1]), minSpToSave)
            == Walk(|Flatten(order[..g])| + done, units2, sp2)
  {
    assert order[..g + 1] == order[..g] + [order[g]];
    FlattenAppend(order[..g], [order[g]]);
    assert Flatten([order[g]]) == order[g] by {
      assert [order[g]][..0] == [];
    }
    BuildWalkAppend(costs, units0, sp0, Flatten(order[..g]), order[g], minSpToSave);
  }

  /** A walk that stops inside the first k groups ends the same over the
      whole order. */
  lemma WalkStopsInPrefix(costs: Costs, order: seq<seq<BuildJob>>, k: nat, minSpToSave: real,
                          units0: map<Cell, Structure>, sp0: real)
    requires k <= |order|
    requires BuildWalk(costs, units0, sp0, Flatten(order[..k]), minSpToSave).attempted < |Flatten(order[..k])|
    ensures BuildWalk(costs, units0, sp0, Flatten(order), minSpToSave)
            == BuildWalk(costs, units0, sp0, Flatten(order[..k]), minSpToSave)
  {
    assert order == order[..k] + order[k..];
    FlattenAppend(order[..k], order[k..]);
    BuildWalkAppend(costs, units0, sp0, Flatten(order[..k]), Flatten(order[k..]), minSpToSave);
  }

  /** Walk the build order group by group: once a group stops short, no
      later group is started. Over the flat order this is exactly BuildWalk:
      the same jobs issued, leaving the same board and balance. */
  method BuildDefaultDefences(gs: GameState, order: seq<seq<BuildJob>>, minSpToSave: real) returns (ghost attempted: nat)
    requires gs.Valid()
    modifies gs
    ensures gs.Valid()
    ensures BuildWalk(gs.costs, old(gs.units), old(gs.sp), Flatten(order), minSpToSave) == Walk(attempted, gs.units, gs.sp)
    ensures gs.log == old(gs.log) + JobOrders(Flatten(order)[..attempted])
    ensures gs.mp == old(gs.mp) && EnemyHalf(gs.units) == EnemyHalf(old(gs.units))
  {
    attempted := 0;
    var stopFlag := false;
    assert order[..0] == [];
    for g := 0 to |order|
      invariant gs.Valid()
      invariant Progress(gs.costs, order, g, stopFlag, attempted, minSpToSave,
                         old(gs.units), old(gs.sp), gs.units, gs.sp, old(gs.log), gs.log)
      invariant gs.mp == old(gs.mp) && EnemyHalf(gs.units) == EnemyHalf(old(gs.units))
    {
      if stopFlag {
        break;
      }
      ghost var units1, sp1, log1 := gs.units, gs.sp, gs.log;
      var done, stopped := RunGroup(gs, order[g], minSpToSave);
      ProgressStep(gs.costs, order, g, attempted, done, minSpToSave, old(gs.units), old(gs.sp), units1, sp1,
                   gs.units, gs.sp, old(gs.log), log1, gs.log);
      attempted := attempted + done;
      stopFlag := stopped;
    }
    if !stopFlag {
      assert order[..|order|] == order;
    }
  }

  // ---------------------------------------------------------------------
  // Closing our own edge

  /** Below this many opponent mobile points a single open flank is closed. */
  const BLOCK_EDGE_ENEMY_MP_THRESHOLD: real := 12.0
  /** Above this many opponent mobile points the closing walls are upgraded. */
  const UPGRADE_EDGE_WALL_THRESHOLD: real := 15.0

  /** The orders for one block cell: a wall, an upgrade when the opponent
      holds more than UPGRADE_EDGE_WALL_THRESHOLD, then a removal. */
  function CellCloseOrders(c: Cell, enemyMP: real): seq<Action> {
    [Build(Wall, c)] + (if enemyMP > UPGRADE_EDGE_WALL_THRESHOLD then [Upgrade(c)] else []) + [Remove(c)]
  }

  /** Close one block cell: a wall, its upgrade when the opponent holds more
      than UPGRADE_EDGE_WALL_THRESHOLD mobile points, then its removal order. */
  method CloseCell(gs: GameState, c: Cell, enemyMP: real)
    requires gs.Valid()
    modifies gs
    ensures gs.Valid()
    ensures gs.log == old(gs.log) + CellCloseOrders(c, enemyMP)
    ensures (gs.units, gs.sp) == Replay(gs.costs, old(gs.units), old(gs.sp), CellCloseOrders(c, enemyMP))
    ensures gs.mp == old(gs.mp) && EnemyHalf(gs.units) == EnemyHalf(old(gs.units))
  {
    ghost var placed := [Build(Wall, c)] + (if enemyMP > UPGRADE_EDGE_WALL_THRESHOLD then [Upgrade(c)] else []);
    var _ := gs.AttemptBuild(Wall, c);
    ReplaySnoc(gs.costs, old(gs.units), old(gs.sp), [], Build(Wall, c));
    if enemyMP > UPGRADE_EDGE_WALL_THRESHOLD {
      var _ := gs.AttemptUpgrade(c);
      ConcatAssoc(old(gs.log), [Build(Wall, c)], [Upgrade(c)]);
      ReplaySnoc(gs.costs, old(gs.units), old(gs.sp), [Build(Wall, c)], Upgrade(c));
    }
    var _ := gs.AttemptRemove(c);
    ConcatAssoc(old(gs.log), placed, [Remove(c)]);
    ReplaySnoc(gs.costs, old(gs.units), old(gs.sp), placed, Remove(c));
  }

  lemma CellCloseOrdersShape(c: Cell, enemyMP: real)
    ensures var o := CellCloseOrders(c, enemyMP);
            && o[0] == Build(Wall, c) && o[|o| - 1] == Remove(c)
            && (Upgrade(c) in o <==> enemyMP > UPGRADE_EDGE_WALL_THRESHOLD)
            && |o| == (if enemyMP > UPGRADE_EDGE_WALL_THRESHOLD then 3 else 2)
            && forall a :: a in o ==> a.cell == c
  {
  }

  function CellsCloseOrders(cells: seq<Cell>, enemyMP: real): seq<Action> {
    if cells == [] then []
    else CellsCloseOrders(cells[..|cells| - 1], enemyMP) + CellCloseOrders(cells[|cells| - 1], enemyMP)
  }

  /** The orders that close a flank: each of its block cells in turn. */
  function CloseOrders(f: Flank, enemyMP: real): seq<Action> {
    CellsCloseOrders(BlockCells(f), enemyMP)
  }

  lemma CloseOrdersPerCell(f: Flank, enemyMP: real)
    ensures CloseOrders(f, enemyMP) ==
              CellCloseOrders(BlockCells(f)[0], enemyMP) + CellCloseOrders(BlockCells(f)[1], enemyMP)
  {
    var cells := BlockCells(f);
    assert cells[..1][..0] == [];
    assert CellsCloseOrders(cells[..1], enemyMP) == CellCloseOrders(cells[0], enemyMP);
    assert cells[..|cells| - 1] == cells[..1];
  }

  /** The orders for closing the listed flanks in order. */
  function PlanOrders(plan: seq<Flank>, enemyMP: real): seq<Action> {
    if plan == [] then [] else PlanOrders(plan[..|plan| - 1], enemyMP) + CloseOrders(plan[|plan| - 1], enemyMP)
  }

  lemma {:induction false} PlanOrdersAppend(a: seq<Flank>, b: seq<Flank>, enemyMP: real)
    ensures PlanOrders(a + b, enemyMP) == PlanOrders(a, enemyMP) + PlanOrders(b, enemyMP)
    decreases |b|
  {
    if b == [] {
      assert a + b == a;
    } else {
      var init := b[..|b| - 1];
      assert (a + b)[..|a + b| - 1] == a + init;
      assert (a + b)[|a + b| - 1] == b[|b| - 1];
      PlanOrdersAppend(a, init, enemyMP);
      ConcatAssoc(PlanOrders(a, enemyMP), PlanOrders(init, enemyMP), CloseOrders(b[|b| - 1], enemyMP));
    }
  }

  /** What the bot knows about the four flanks when it decides which of its
      own flanks to close. */
  datatype EdgeView = EdgeView(myLeft: bool, myRight: bool, enemyLeft: bool, enemyRight: bool)

  /** Both flanks open on both sides, the opponent rich enough to rush, and
      the bot defending. */
  predicate RushThreat(t: TurnStrategy, enemyMP: real, v: EdgeView) {
    t == Defend && enemyMP >= BLOCK_EDGE_ENEMY_MP_THRESHOLD
    && !v.myLeft && !v.enemyLeft && !v.myRight && !v.enemyRight
  }

  /** The flanks of our edge closed this turn, in order. On turn 0 both are
      closed, which marks them closed for the guards that follow. Then, under
      a rush threat, exactly one flank (`closeLeft` stands for the coin toss)
      is closed and nothing else. Otherwise each flank is closed when it is
      open on both sides, the bot is not attacking through it, and the
      opponent is short of BLOCK_EDGE_ENEMY_MP_THRESHOLD or the bot is
      attacking the other flank. */
  function ClosePlan(turnNumber: nat, t: TurnStrategy, enemyMP: real, v: EdgeView, closeLeft: bool): seq<Flank> {
    if turnNumber == 0 then [Left, Right] + GuardedPlan(t, enemyMP, v.(myLeft := true, myRight := true), closeLeft)
    else GuardedPlan(t, enemyMP, v, closeLeft)
  }

  /** The flanks closed after the turn-0 opening, from the flags as they
      stand then. */
  function GuardedPlan(t: TurnStrategy, enemyMP: real, w: EdgeView, closeLeft: bool): seq<Flank> {
    if RushThreat(t, enemyMP, w) then [if closeLeft then Left else Right]
    else (if FlankGuard(Left, t, enemyMP, w) then [Left] else [])
         + (if FlankGuard(Right, t, enemyMP, w) then [Right] else [])
  }

  /** Outside a rush threat, flank `f` is closed when it is open on both
      sides, the bot is not attacking through it, and the opponent is short
      of BLOCK_EDGE_ENEMY_MP_THRESHOLD or the bot attacks the other flank. */
  predicate FlankGuard(f: Flank, t: TurnStrategy, enemyMP: real, w: EdgeView) {
    if f == Left then
      !w.enemyLeft && !w.myLeft && t != AttackLeft && (enemyMP < BLOCK_EDGE_ENEMY_MP_THRESHOLD || t == AttackRight)
    else
      !w.enemyRight && !w.myRight && t != AttackRight && (enemyMP < BLOCK_EDGE_ENEMY_MP_THRESHOLD || t == AttackLeft)
  }

  /** The orders that carry out ClosePlan: on turn 0 both flanks' orders;
      later, the guarded flanks' orders. */
  function TurnCloseOrders(turnNumber: nat, t: TurnStrategy, enemyMP: real, v: EdgeView, closeLeft: bool): seq<Action> {
    if turnNumber == 0 then CloseOrders(Left, enemyMP) + CloseOrders(Right, enemyMP)
    else GuardedOrders(t, enemyMP, v, closeLeft)
  }

  /** ClosePlan's orders are TurnCloseOrders, and a flank is in the plan
      exactly on turn 0 or when ClosesFlank picks it. */
  lemma ClosePlanOrders(turnNumber: nat, t: TurnStrategy, enemyMP: real, v: EdgeView, closeLeft: bool)
    ensures var plan := ClosePlan(turnNumber, t, enemyMP, v, closeLeft);
            && PlanOrders(plan, enemyMP) == TurnCloseOrders(turnNumber, t, enemyMP, v, closeLeft)
            && (Left in plan <==> turnNumber == 0 || ClosesFlank(Left, t, enemyMP, v, closeLeft))
            && (Right in plan <==> turnNumber == 0 || ClosesFlank(Right, t, enemyMP, v, closeLeft))
  {
    if turnNumber == 0 {
      ClosePlanTurnZero(t, enemyMP, v, closeLeft);
      PlanOrdersPair(enemyMP);
    } else {
      GuardedPlanCases(t, enemyMP, v, closeLeft);
    }
  }

  /** Whether flank `f` is closed after the opening: under a rush threat
      exactly the tossed flank, otherwise each flank whose guard holds. */
  predicate ClosesFlank(f: Flank, t: TurnStrategy, enemyMP: real, w: EdgeView, closeLeft: bool) {
    if RushThreat(t, enemyMP, w) then f == (if closeLeft then Left else Right)
    else FlankGuard(f, t, enemyMP, w)
  }

  /** The four flags once the flanks are closed: a flank of our edge is
      marked closed when it already was, on turn 0, or when ClosesFlank
      picks it; the opponent's flags are as read. */
  function ViewAfterClosing(turnNumber: nat, t: TurnStrategy, enemyMP: real, v: EdgeView, closeLeft: bool): EdgeView {
    v.(myLeft := v.myLeft || turnNumber == 0 || ClosesFlank(Left, t, enemyMP, v, closeLeft),
       myRight := v.myRight || turnNumber == 0 || ClosesFlank(Right, t, enemyMP, v, closeLeft))
  }

  /** The orders issued after the opening, flank by flank, left before
      right. */
  function GuardedOrders(t: TurnStrategy, enemyMP: real, w: EdgeView, closeLeft: bool): seq<Action> {
    if RushThreat(t, enemyMP, w) then CloseOrders(if closeLeft then Left else Right, enemyMP)
    else (if FlankGuard(Left, t, enemyMP, w) then CloseOrders(Left, enemyMP) else [])
         + (if FlankGuard(Right, t, enemyMP, w) then CloseOrders(Right, enemyMP) else [])
  }

  /** The guarded plan closes exactly the flanks ClosesFlank picks, and its
      orders are GuardedOrders. */
  lemma GuardedPlanCases(t: TurnStrategy, enemyMP: real, w: EdgeView, closeLeft: bool)
    ensures var plan := GuardedPlan(t, enemyMP, w, closeLeft);
            && (Left in plan <==> ClosesFlank(Left, t, enemyMP, w, closeLeft))
            && (Right in plan <==> ClosesFlank(Right, t, enemyMP, w, closeLeft))
            && PlanOrders(plan, enemyMP) == GuardedOrders(t, enemyMP, w, closeLeft)
  {
    var plan := GuardedPlan(t, enemyMP, w, closeLeft);
    var left, right := FlankGuard(Left, t, enemyMP, w), FlankGuard(Right, t, enemyMP, w);
    if RushThreat(t, enemyMP, w) {
      PlanOrdersSingle(if closeLeft then Left else Right, enemyMP);
    } else if left && right {
      assert plan == [Left, Right];
      PlanOrdersPair(enemyMP);
    } else if left {
      assert plan == [Left];
      PlanOrdersSingle(Left, enemyMP);
    } else if right {
      assert plan == [Right];
      PlanOrdersSingle(Right, enemyMP);
    } else {
      assert plan == [];
    }
  }

  lemma PlanOrdersSingle(f: Flank, enemyMP: real)
    ensures PlanOrders([f], enemyMP) == CloseOrders(f, enemyMP)
  {
    assert [f][..0] == [];
  }

  lemma PlanOrdersPair(enemyMP: real)
    ensures PlanOrders([Left, Right], enemyMP) == CloseOrders(Left, enemyMP) + CloseOrders(Right, enemyMP)
  {
    assert [Left, Right][..1] == [Left];
    PlanOrdersSingle(Left, enemyMP);
  }

  lemma ClosePlanTurnZero(t: TurnStrategy, enemyMP: real, v: EdgeView, closeLeft: bool)
    ensures ClosePlan(0, t, enemyMP, v, closeLeft) == [Left, Right]
  {
  }

  /** After turn 0: a flank is closed only if it is open on both sides and
      the bot is not attacking through it; under a rush threat exactly the
      tossed flank is closed; while defending against a rich opponent never
      more than one flank is closed; no flank is closed twice. */
  lemma ClosePlanGuards(turnNumber: nat, t: TurnStrategy, enemyMP: real, v: EdgeView, closeLeft: bool)
    requires turnNumber != 0
    ensures var plan := ClosePlan(turnNumber, t, enemyMP, v, closeLeft);
            && (Left in plan ==> !v.myLeft && !v.enemyLeft && t != AttackLeft)
            && (Right in plan ==> !v.myRight && !v.enemyRight && t != AttackRight)
            && (RushThreat(t, enemyMP, v) ==> plan == [if closeLeft then Left else Right])
            && (t == Defend && enemyMP >= BLOCK_EDGE_ENEMY_MP_THRESHOLD ==> |plan| <= 1)
            && (|plan| == 2 ==> plan == [Left, Right])
            && |plan| <= 2
  {
  }

  /** The flank flags after closing: a flank is marked closed when it was or
      when it was closed now. */
  lemma ClosePlanMarks(turnNumber: nat, t: TurnStrategy, enemyMP: real, v: EdgeView, closeLeft: bool)
    ensures var plan := ClosePlan(turnNumber, t, enemyMP, v, closeLeft);
            && (turnNumber == 0 ==> Left in plan && Right in plan)
            && (Left in plan ==> turnNumber == 0 || !v.myLeft)
            && (Right in plan ==> turnNumber == 0 || !v.myRight)
  {
  }
}
