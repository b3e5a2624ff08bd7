/**
 * The simpler player used by the trading rules: a hand of resource counts
 * listed lumber first, the buildings built so far, and a single current goal.
 */
module Player {
  import opened Wrappers
  import opened Resources

  class Player {
    var name: string
    var resources: Hand
    var buildings: seq<Building>
    var currentGoal: Building

    /** A new player holds nothing, has built nothing and aims for a settlement. */
    constructor (name0: string)
      ensures name == name0
      ensures forall r :: Count(resources, r) == 0
      ensures buildings == []
      ensures currentGoal == Settlement
    {
      name := name0;
      resources := EmptyHand;
      buildings := [];
      currentGoal := Settlement;
    }

    /** Raises the count of `r` by `count`; every other count is unchanged. */
    method AddResource(r: Resource, count: nat)
      modifies this`resources
      ensures Count(resources, r) == Count(old(resources), r) + count
      ensures forall s :: s != r ==> Count(resources, s) == Count(old(resources), s)
      ensures resources == old(resources)[r := Count(old(resources), r) + count]
    {
      resources := resources[r := Count(resources, r) + count];
    }

    /** Lowers the count of `r` by `count`, stopping at zero; every other count is unchanged. */
    method RemoveResource(r: Resource, count: nat)
      modifies this`resources
      ensures Count(resources, r) == if Count(old(resources), r) >= count then Count(old(resources), r) - count else 0
      ensures forall s :: s != r ==> Count(resources, s) == Count(old(resources), s)
      ensures resources == old(resources)[r := Clamp(Count(old(resources), r) - count)]
    {
      resources := resources[r := Clamp(Count(resources, r) - count)];
    }

    /** The player's shortage and surplus for its goal, in the hand's (lumber-first) order. */
    function Delta(): (Dict, Dict)
      reads this
    {
      (ShortageOf(resources, Cost(currentGoal), LumberFirstOrder),
       SurplusOf(resources, Cost(currentGoal), LumberFirstOrder))
    }

    /** What the player lacks for its goal and holds beyond it. */
    method ResourceDelta() returns (shortage: Dict, surplus: Dict)
      ensures (shortage, surplus) == Delta()
    {
      var cost := Cost(currentGoal);
      var h := resources;
      OrdersArePermutations();
      shortage, surplus := SplitAgainstCost(h, cost, LumberFirstOrder);
      // resources the goal does not ask for at all are surplus with their full count
      var i := 0;
      while i < |LumberFirstOrder|
        invariant 0 <= i <= |LumberFirstOrder|
        invariant surplus == SurplusOf(h, cost, LumberFirstOrder)
      {
        var r := LumberFirstOrder[i];
        if Lookup(cost, r).None? && Count(h, r) > 0 {
          NonCostUpdateKeeps(h, cost, LumberFirstOrder, i);
          surplus := Put(surplus, r, Count(h, r));
        }
        i := i + 1;
      }
    }
  }
}
