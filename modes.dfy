/** The turn-strategy state machine: the mode the bot plays next turn. */
module Modes {
  import opened Board
  import opened Edges

  datatype TurnStrategy = Defend | AttackLeft | AttackRight

  /** Below this many mobile points the bot always defends. */
  const ATTACK_MIN_MP: real := 10.0
  /** Above this many mobile points the bot attacks whatever the opponent holds. */
  const ATTACK_ANYWAY_MP: real := 20.0

  /** Next turn's mode from our and the opponent's mobile points and the
      opponent's defence strength on each flank. */
  function NextStrategy(myMP: real, enemyMP: real, leftStrength: real, rightStrength: real): TurnStrategy {
    if myMP < ATTACK_MIN_MP then Defend
    else if myMP > ATTACK_ANYWAY_MP || myMP > enemyMP then
      (if leftStrength > rightStrength then AttackRight else AttackLeft)
    else Defend
  }

  /** The flank an attacking mode goes through. */
  function Target(t: TurnStrategy): Flank
    requires t != Defend
  {
    if t == AttackLeft then Left else Right
  }

  /** When does the bot attack, and where: only with at least ATTACK_MIN_MP
      points and more than the opponent or more than ATTACK_ANYWAY_MP, and
      always through the flank whose defence is not the stronger one. */
  lemma NextStrategyAttacksWeakerFlank(myMP: real, enemyMP: real, l: real, r: real)
    ensures NextStrategy(myMP, enemyMP, l, r) != Defend <==>
              myMP >= ATTACK_MIN_MP && (myMP > ATTACK_ANYWAY_MP || myMP > enemyMP)
    ensures NextStrategy(myMP, enemyMP, l, r) == AttackLeft ==> l <= r
    ensures NextStrategy(myMP, enemyMP, l, r) == AttackRight ==> r < l
  {
  }

  /** Swapping the two strengths swaps the attacked flank, except that a tie
      goes left either way. */
  lemma NextStrategyMirrors(myMP: real, enemyMP: real, l: real, r: real)
    ensures l != r && NextStrategy(myMP, enemyMP, l, r) == AttackLeft ==> NextStrategy(myMP, enemyMP, r, l) == AttackRight
    ensures NextStrategy(myMP, enemyMP, l, r) == AttackRight ==> NextStrategy(myMP, enemyMP, r, l) == AttackLeft
    ensures l == r && NextStrategy(myMP, enemyMP, l, r) != Defend ==> NextStrategy(myMP, enemyMP, l, r) == AttackLeft
  {
  }

  lemma NextStrategyExamples()
    ensures NextStrategy(9.0, 0.0, 5.0, 20.0) == Defend && NextStrategy(9.0, 0.0, 20.0, 5.0) == Defend
    ensures NextStrategy(25.0, 30.0, 5.0, 20.0) == AttackLeft
    ensures NextStrategy(15.0, 12.0, 20.0, 5.0) == AttackRight
    ensures NextStrategy(15.0, 15.0, 20.0, 5.0) == Defend
  {
  }

  /** One Remove order per cell, in order. */
  function RemoveOrders(cells: seq<Cell>): (orders: seq<Action>)
    ensures |orders| == |cells|
    ensures forall i :: 0 <= i < |cells| ==> orders[i] == Remove(cells[i])
  {
    if cells == [] then [] else [Remove(cells[0])] + RemoveOrders(cells[1..])
  }

  /** Orders issued together with the new mode: an attacking mode opens its
      own flank by removing our block walls there; defending issues none. */
  function OpeningOrders(t: TurnStrategy): seq<Action> {
    if t == Defend then [] else RemoveOrders(BlockCells(Target(t)))
  }

  /** Opening touches only the attacked flank's block cells, never the other
      flank's. */
  lemma OpeningOrdersStayOnTarget(t: TurnStrategy)
    ensures t == Defend <==> OpeningOrders(t) == []
    ensures t != Defend ==>
              forall a :: a in OpeningOrders(t) ==>
                a.Remove? && a.cell in BlockCells(Target(t)) && a.cell !in BlockCells(Other(Target(t)))
  {
  }
}
